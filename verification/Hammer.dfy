/** The load driver: what one worker writes and claims, and what the audit finds in the tables. */
module Hammer {
  import opened Names

  // ---------- the tables ----------

  datatype Kind = Inserted | Updated | Deleted

  datatype Item = Item(worker: nat, step: nat, name: string, edits: nat)

  datatype EventRow = EventRow(worker: nat, seqNo: nat, kind: Kind, token: string)

  /** The two tables, rows in rowid order. */
  datatype Tables = Tables(items: seq<Item>, events: seq<EventRow>)

  const EMPTY := Tables([], [])

  /** The statements the driver sends, in its turns and while it boots. `Boot` stands for every
      statement of a migration other than those for its transaction; it leaves the rows of the two
      tables alone. */
  datatype Stmt =
    | Begin
    | Commit
    | Rollback
    | InsertItem(worker: nat, step: nat, name: string)
    | UpdateItem(name: string)
    | DeleteItem(name: string)
    | InsertEvent(row: EventRow)
    | Select
    | Pragma
    | Boot

  function Edited(items: seq<Item>, name: string): (r: seq<Item>)
    ensures |r| == |items|
    ensures forall i | 0 <= i < |items| ::
              r[i].worker == items[i].worker && r[i].step == items[i].step && r[i].name == items[i].name
  {
    if items == [] then []
    else [if items[0].name == name then items[0].(edits := items[0].edits + 1) else items[0]] + Edited(items[1..], name)
  }

  function Without(items: seq<Item>, name: string): seq<Item> {
    if items == [] then [] else (if items[0].name == name then [] else [items[0]]) + Without(items[1..], name)
  }

  /** What a statement does to the tables it sees. */
  function Changed(t: Tables, stmt: Stmt): Tables {
    match stmt
    case InsertItem(worker, step, name) => t.(items := t.items + [Item(worker, step, name, 0)])
    case UpdateItem(name) => t.(items := Edited(t.items, name))
    case DeleteItem(name) => t.(items := Without(t.items, name))
    case InsertEvent(row) => t.(events := t.events + [row])
    case _ => t
  }

  /** The statement would break `UNIQUE(name)` or `PRIMARY KEY (worker, seq)`. */
  predicate Conflicts(t: Tables, stmt: Stmt) {
    match stmt
    case InsertItem(_, _, name) => exists i | 0 <= i < |t.items| :: t.items[i].name == name
    case InsertEvent(row) => exists i | 0 <= i < |t.events| ::
        t.events[i].worker == row.worker && t.events[i].seqNo == row.seqNo
    case _ => false
  }

  // ---------- one turn of a worker ----------

  datatype Op =
    | Insert(worker: nat, step: nat)
    | Update(worker: nat, step: nat, name: string)
    | Delete(worker: nat, step: nat, name: string)
    | Read(worker: nat, step: nat)

  function ItemStatement(op: Op): Stmt
    requires !op.Read?
  {
    match op
    case Insert(worker, step) => InsertItem(worker, step, Name(worker, step))
    case Update(_, _, name) => UpdateItem(name)
    case Delete(_, _, name) => DeleteItem(name)
  }

  function EventOf(op: Op): EventRow
    requires !op.Read?
  {
    match op
    case Insert(worker, step) => EventRow(worker, step, Inserted, Name(worker, step))
    case Update(worker, step, name) => EventRow(worker, step, Updated, name)
    case Delete(worker, step, name) => EventRow(worker, step, Deleted, name)
  }

  /** The script of one turn, sent as one Exec. */
  function OpScript(op: Op): seq<Stmt> {
    if op.Read? then [Select] else [Begin, ItemStatement(op), InsertEvent(EventOf(op)), Commit]
  }

  /** The committed effect of one turn. */
  function Apply(t: Tables, op: Op): Tables {
    if op.Read? then t else Changed(Changed(t, ItemStatement(op)), InsertEvent(EventOf(op)))
  }

  function ApplyAll(t: Tables, ops: seq<Op>): Tables {
    if ops == [] then t else Apply(ApplyAll(t, ops[..|ops| - 1]), ops[|ops| - 1])
  }

  // ---------- one worker ----------

  /** A worker's stack of live names after one more turn. */
  function Stacked(live: seq<string>, op: Op): seq<string> {
    match op
    case Insert(worker, step) => live + [Name(worker, step)]
    case Delete(_, _, _) => if live == [] then live else live[..|live| - 1]
    case _ => live
  }

  /** The names a worker believes to be in the table. */
  function Live(program: seq<Op>): seq<string> {
    if program == [] then [] else Stacked(Live(program[..|program| - 1]), program[|program| - 1])
  }

  /** A turn the loop can take as step `i` of worker `w` when it believes `live` to be in the
      table: an update names some live row, a delete the last one. */
  predicate Proper(op: Op, w: nat, i: nat, live: seq<string>) {
    && op.worker == w && op.step == i
    && (op.Update? ==> op.name in live)
    && (op.Delete? ==> live != [] && op.name == live[|live| - 1])
  }

  /** The turns of a run of worker `w`, from its first. */
  ghost predicate ValidProgram(w: nat, program: seq<Op>) {
    forall i | 0 <= i < |program| :: Proper(program[i], w, i, Live(program[..i]))
  }

  datatype Claim = Claim(worker: nat, lookups: nat, inserts: nat, updates: nat, deletes: nat,
                         sumSeq: nat, sample: string, last: string) {
    function Writes(): nat { inserts + updates + deletes }
  }

  /** The worker's counters after one more turn. */
  function Counted(c: Claim, op: Op): Claim {
    if op.Read? then c.(lookups := c.lookups + 1)
    else
      var c' := match op
                case Insert(_, _) => c.(inserts := c.inserts + 1)
                case Update(_, _, _) => c.(updates := c.updates + 1)
                case Delete(_, _, _) => c.(deletes := c.deletes + 1);
      var token := EventOf(op).token;
      c'.(sumSeq := c.sumSeq + op.step, sample := if c.sample == "" then token else c.sample, last := token)
  }

  function ClaimOf(w: nat, program: seq<Op>): Claim {
    if program == [] then Claim(w, 0, 0, 0, 0, 0, "", "")
    else Counted(ClaimOf(w, program[..|program| - 1]), program[|program| - 1])
  }

  function Xorshift(x: bv64): bv64 {
    var a := x ^ (x << 13);
    var b := a ^ (a >> 7);
    b ^ (b << 17)
  }

  /** The generator never falls into the state 0, in which it would stay for ever; the seed's lowest
      bit is set so that it does not start there. */
  lemma XorshiftIsAlive(seed: bv64, x: bv64)
    ensures seed | 1 != 0
    ensures Xorshift(x) == 0 <==> x == 0
  {
  }

  /** The first numbers drawn from the seeds 0 and 1, which are the same, and from the seed 2. */
  lemma XorshiftDraws()
    ensures Xorshift(0 | 1) == 1082269761 && Xorshift(1 | 1) == 1082269761
    ensures Xorshift(2 | 1) == 3246809283
  {
  }

  /** The choice among `n` that a generator state stands for. */
  function Choice(x: bv64, n: nat): (r: nat)
    requires 0 < n
    ensures r < n
  {
    (x as int) % n
  }

  /** The write a generator state leads to, and the state afterwards. */
  function WriteFrom(worker: nat, step: nat, live: seq<string>, x0: bv64): (r: (Op, bv64))
    ensures !r.0.Read?
  {
    var x := Xorshift(x0);
    if Choice(x, 3) == 0 || live == [] then (Insert(worker, step), x)
    else if Choice(x, 3) == 1 then
      var x' := Xorshift(x);
      (Update(worker, step, live[Choice(x', |live|)]), x')
    else (Delete(worker, step, live[|live| - 1]), x)
  }

  /** The turn: a write or a read with even chances; a read draws once more for its query. */
  function TurnFrom(worker: nat, step: nat, live: seq<string>, x0: bv64): (Op, bv64) {
    var x := Xorshift(x0);
    if Choice(x, 2) == 0 then WriteFrom(worker, step, live, x) else (Read(worker, step), Xorshift(x))
  }

  /** The program a seed leads to, and the generator's state behind it. */
  function ProgramFrom(worker: nat, n: nat, seed: bv64): (seq<Op>, bv64) {
    if n == 0 then ([], seed | 1)
    else
      var (program, x) := ProgramFrom(worker, n - 1, seed);
      var (op, x') := TurnFrom(worker, n - 1, Live(program), x);
      (program + [op], x')
  }

  /** The choice is the number drawn, modulo the number of cases. */
  lemma ChoicesOf(x: bv64)
    ensures x == 1082269761 ==> Choice(x, 2) == 1 && Choice(x, 3) == 0 && Choice(x, 1000) == 761
  {
    if x == 1082269761 {
      assert x as int == 1082269761;
    }
  }

  /** The driver's generator. */
  class Rng {
    var state: bv64

    constructor (seed: bv64)
      ensures state == seed
    {
      state := seed;
    }

    method Advance() returns (x: bv64)
      modifies this
      ensures x == state == Xorshift(old(state))
    {
      state := Xorshift(state);
      x := state;
    }

    method Below(n: nat) returns (r: nat)
      requires 0 < n
      modifies this
      ensures state == Xorshift(old(state)) && r == Choice(state, n)
    {
      var x := Advance();
      r := Choice(x, n);
    }
  }

  /** Chooses a write and moves the stack of live names accordingly. */
  method ChooseWrite(rng: Rng, worker: nat, step: nat, live0: seq<string>) returns (op: Op, live: seq<string>)
    modifies rng
    ensures !op.Read? && op.step == step && Proper(op, worker, step, live0) && live == Stacked(live0, op)
    ensures (op, rng.state) == WriteFrom(worker, step, live0, old(rng.state))
  {
    hide Xorshift, Choice;
    live := live0;
    var name := Name(worker, step);
    var kind := rng.Below(3);
    if kind == 0 || live == [] {
      live := live + [name];
      op := Insert(worker, step);
    } else if kind == 1 {
      var pick := rng.Below(|live|);
      op := Update(worker, step, live[pick]);
    } else {
      op := Delete(worker, step, live[|live| - 1]);
      live := live[..|live| - 1];
    }
  }

  /** One turn of the loop: a write, or a read and its choice among four queries. */
  method NextTurn(rng: Rng, worker: nat, step: nat, live0: seq<string>) returns (op: Op, live: seq<string>)
    modifies rng
    ensures op.step == step && Proper(op, worker, step, live0) && live == Stacked(live0, op)
    ensures (op, rng.state) == TurnFrom(worker, step, live0, old(rng.state))
  {
    hide Xorshift, Choice, WriteFrom;
    var coin := rng.Below(2);
    if coin == 0 {
      op, live := ChooseWrite(rng, worker, step, live0);
    } else {
      var _ := rng.Below(4);
      op, live := Read(worker, step), live0;
    }
  }

  /** The worker's loop, every call having been answered: its turns, and the counters it prints. */
  method RunWorker(worker: nat, ops: nat, seed: bv64) returns (program: seq<Op>, claim: Claim, ok: bool)
    ensures |program| == ops && ValidProgram(worker, program) && claim == ClaimOf(worker, program)
    ensures program == ProgramFrom(worker, ops, seed).0
    ensures claim.lookups + claim.Writes() == ops
    ensures ok <==> claim.Writes() > 0
  {
    hide Xorshift, Choice, Stacked, ValidProgram, Name, Proper, Live, ClaimOf, EventOf, TurnFrom, WriteFrom;
    var rng := new Rng(seed | 1);
    program := [];
    NoTurns(worker);
    var live: seq<string> := [];
    var lookups, inserts, updates, deletes, sumSeq := 0, 0, 0, 0, 0;
    var sample, last := "", "";
    for step := 0 to ops
      invariant |program| == step && ValidProgram(worker, program) && live == Live(program)
      invariant (program, rng.state) == ProgramFrom(worker, step, seed)
      invariant Claim(worker, lookups, inserts, updates, deletes, sumSeq, sample, last) == ClaimOf(worker, program)
      invariant lookups + inserts + updates + deletes == step
    {
      ghost var before := Claim(worker, lookups, inserts, updates, deletes, sumSeq, sample, last);
      var op: Op;
      op, live := NextTurn(rng, worker, step, live);
      match op {
        case Insert(_, _) => inserts := inserts + 1;
        case Update(_, _, _) => updates := updates + 1;
        case Delete(_, _, _) => deletes := deletes + 1;
        case Read(_, _) => lookups := lookups + 1;
      }
      if !op.Read? {
        var recorded := EventOf(op).token;
        if sample == "" {
          sample := recorded;
        }
        last := recorded;
        sumSeq := sumSeq + step;
      }
      ProgramGrows(worker, program, op);
      CountersGrow(worker, program, op);
      assert Claim(worker, lookups, inserts, updates, deletes, sumSeq, sample, last) == Counted(before, op);
      hide Counted;
      program := program + [op];
    }
    claim := Claim(worker, lookups, inserts, updates, deletes, sumSeq, sample, last);
    ok := inserts + updates + deletes > 0;
  }

  lemma CountersGrow(w: nat, program: seq<Op>, op: Op)
    ensures Live(program + [op]) == Stacked(Live(program), op)
    ensures ClaimOf(w, program + [op]) == Counted(ClaimOf(w, program), op)
  {
    hide Stacked, Counted;
    assert (program + [op])[..|program + [op]| - 1] == program;
  }

  lemma NoTurns(w: nat)
    ensures ValidProgram(w, []) && Live([]) == [] && ClaimOf(w, []) == Claim(w, 0, 0, 0, 0, 0, "", "")
  {
  }

  lemma ProgramGrows(w: nat, program: seq<Op>, op: Op)
    requires ValidProgram(w, program) && Proper(op, w, |program|, Live(program))
    ensures ValidProgram(w, program + [op])
    ensures (program + [op])[..|program|] == program
  {
    var program' := program + [op];
    forall i | 0 <= i < |program'| ensures Proper(program'[i], w, i, Live(program'[..i])) {
      if i < |program| {
        assert program'[..i] == program[..i];
      } else {
        assert program'[..i] == program;
      }
    }
  }

  lemma ProgramFront(w: nat, program: seq<Op>)
    requires ValidProgram(w, program) && program != []
    ensures ValidProgram(w, program[..|program| - 1])
    ensures Proper(program[|program| - 1], w, |program| - 1, Live(program[..|program| - 1]))
  {
    var front := program[..|program| - 1];
    forall i | 0 <= i < |front| ensures Proper(front[i], w, i, Live(front[..i])) {
      assert front[..i] == program[..i];
    }
  }

  // ---------- the audit ----------

  function EventsOf(events: seq<EventRow>, w: nat): seq<EventRow> {
    if events == [] then []
    else EventsOf(events[..|events| - 1], w) + (if events[|events| - 1].worker == w then [events[|events| - 1]] else [])
  }

  function SumSeq(events: seq<EventRow>): nat {
    if events == [] then 0 else SumSeq(events[..|events| - 1]) + events[|events| - 1].seqNo
  }

  function CountKind(events: seq<EventRow>, kind: Kind): nat {
    if events == [] then 0
    else CountKind(events[..|events| - 1], kind) + (if events[|events| - 1].kind == kind then 1 else 0)
  }

  /** The names of a worker's rows, in rowid order. */
  function NamesOf(items: seq<Item>, w: nat): seq<string> {
    if items == [] then [] else (if items[0].worker == w then [items[0].name] else []) + NamesOf(items[1..], w)
  }

  predicate HasToken(events: seq<EventRow>, token: string) {
    exists i | 0 <= i < |events| :: events[i].token == token
  }

  /** One claim agrees with the file. */
  predicate Audited(t: Tables, c: Claim) {
    var mine := EventsOf(t.events, c.worker);
    && mine != [] && |mine| == c.Writes() && SumSeq(mine) == c.sumSeq
    && HasToken(mine, c.sample) && HasToken(mine, c.last)
    && CountKind(mine, Inserted) - CountKind(mine, Deleted) == |NamesOf(t.items, c.worker)|
  }

  /** The audit stops at the first claim the file contradicts. */
  method Audit(t: Tables, claims: seq<Claim>) returns (ok: bool)
    ensures ok <==> forall i | 0 <= i < |claims| :: Audited(t, claims[i])
  {
    for i := 0 to |claims|
      invariant forall k | 0 <= k < i :: Audited(t, claims[k])
    {
      var c := claims[i];
      var mine := EventsOf(t.events, c.worker);
      if mine == [] {
        return false;
      }
      if |mine| != c.Writes() || SumSeq(mine) != c.sumSeq {
        return false;
      }
      if !HasToken(mine, c.sample) || !HasToken(mine, c.last) {
        return false;
      }
      var expected, actual := CountKind(mine, Inserted) - CountKind(mine, Deleted), |NamesOf(t.items, c.worker)|;
      if expected != actual {
        return false;
      }
    }
    ok := true;
  }
}
