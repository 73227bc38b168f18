/** The audit theorem over the tables: for every interleaving of valid programs each worker's rows
    are its own, and every true claim passes. */
module HammerAudit {
  import opened Prelude
  import opened Names
  import opened Hammer

  /** The turns of one worker in an interleaving. */
  function Projection(order: seq<Op>, w: nat): seq<Op> {
    if order == [] then []
    else Projection(order[..|order| - 1], w) + (if order[|order| - 1].worker == w then [order[|order| - 1]] else [])
  }

  /** Every worker's turns, taken alone, are the start of a run of its loop. */
  ghost predicate Interleaves(order: seq<Op>) {
    forall w: nat :: ValidProgram(w, Projection(order, w))
  }

  lemma InterleavesFront(order: seq<Op>)
    requires Interleaves(order) && order != []
    ensures Interleaves(order[..|order| - 1])
    ensures var op, front := order[|order| - 1], order[..|order| - 1];
            && Projection(order, op.worker) == Projection(front, op.worker) + [op]
            && Proper(op, op.worker, |Projection(front, op.worker)|, Live(Projection(front, op.worker)))
            && forall w: nat | w != op.worker :: Projection(order, w) == Projection(front, w)
  {
    hide ValidProgram, Proper;
    var op, front := order[|order| - 1], order[..|order| - 1];
    forall w: nat ensures ValidProgram(w, Projection(front, w)) {
      assert ValidProgram(w, Projection(order, w));
      if op.worker == w {
        assert Projection(order, w) == Projection(front, w) + [op];
        assert Projection(order, w)[..|Projection(order, w)| - 1] == Projection(front, w);
        ProgramFront(w, Projection(order, w));
      } else {
        NoSuffix(Projection(front, w));
      }
    }
    assert ValidProgram(op.worker, Projection(order, op.worker));
    assert Projection(order, op.worker)[..|Projection(order, op.worker)| - 1] == Projection(front, op.worker);
    ProgramFront(op.worker, Projection(order, op.worker));
  }

  // ---------- live names ----------

  /** The name of a row the worker inserted before step `n`. */
  ghost predicate OwnName(w: nat, n: nat, name: string) {
    exists s: nat :: s < n && name == Name(w, s)
  }

  /** Live names are names of the worker's own earlier inserts, all different. */
  ghost predicate LiveFits(w: nat, n: nat, live: seq<string>) {
    && (forall i | 0 <= i < |live| :: OwnName(w, n, live[i]))
    && (forall i, j | 0 <= i < j < |live| :: live[i] != live[j])
  }

  lemma {:induction false} LiveNames(w: nat, program: seq<Op>)
    requires ValidProgram(w, program)
    ensures LiveFits(w, |program|, Live(program))
  {
    hide Name, ValidProgram, Live, LiveFits, Proper;
    if program == [] {
      NothingLive(w);
    } else {
      ProgramFront(w, program);
      var front, op := program[..|program| - 1], program[|program| - 1];
      LiveNames(w, front);
      assert program == front + [op];
      LiveAfter(front, op);
      if op.Insert? {
        ProperMeans(op, w, |front|, Live(front));
        LiveGrows(w, |front|, Live(front));
      } else {
        if op.Delete? {
          ProperMeans(op, w, |front|, Live(front));
          LivePrefix(w, |front|, Live(front), |Live(front)| - 1);
        } else {
          assert Live(front)[..|Live(front)|] == Live(front);
          LivePrefix(w, |front|, Live(front), |Live(front)|);
        }
      }
    }
  }

  lemma NothingLive(w: nat)
    ensures LiveFits(w, 0, Live([]))
  {
  }

  lemma ProperMeans(op: Op, w: nat, i: nat, live: seq<string>)
    requires Proper(op, w, i, live)
    ensures op.worker == w && op.step == i && (op.Delete? ==> live != [])
  {
  }

  /** The lower part of the stack, one step later. */
  lemma LivePrefix(w: nat, n: nat, live: seq<string>, k: nat)
    requires LiveFits(w, n, live) && k <= |live|
    ensures LiveFits(w, n + 1, live[..k])
  {
    forall i | 0 <= i < k ensures OwnName(w, n + 1, live[..k][i]) {
      OwnNameLater(w, n, live[i]);
    }
    hide OwnName;
  }

  lemma OwnNameLater(w: nat, n: nat, name: string)
    requires OwnName(w, n, name)
    ensures OwnName(w, n + 1, name)
  {
    hide Name;
    var s: nat :| s < n && name == Name(w, s);
  }

  lemma LiveGrows(w: nat, n: nat, live: seq<string>)
    requires LiveFits(w, n, live)
    ensures LiveFits(w, n + 1, live + [Name(w, n)]) && Name(w, n) !in live
  {
    hide Name;
    var live' := live + [Name(w, n)];
    forall i | 0 <= i < |live| ensures live[i] != Name(w, n) && OwnName(w, n + 1, live'[i]) {
      NewName(w, n, live[i]);
    }
    assert OwnName(w, n + 1, Name(w, n));
    hide OwnName;
  }

  lemma NewName(w: nat, n: nat, name: string)
    requires OwnName(w, n, name)
    ensures name != Name(w, n) && OwnName(w, n + 1, name)
  {
    hide Name;
    OwnNameLater(w, n, name);
    var s: nat :| s < n && name == Name(w, s);
    if name == Name(w, n) {
      NameInjective(w, s, w, n);
    }
  }

  // ---------- the item rows ----------

  /** Every row carries the name made from its worker and step. */
  ghost predicate OwnNames(items: seq<Item>) {
    forall i | 0 <= i < |items| :: items[i].name == Name(items[i].worker, items[i].step)
  }

  function Dropping(names: seq<string>, name: string): seq<string> {
    if names == [] then [] else (if names[0] == name then [] else [names[0]]) + Dropping(names[1..], name)
  }

  lemma {:induction false} NamesWithout(items: seq<Item>, name: string, w: nat)
    ensures NamesOf(Without(items, name), w) == Dropping(NamesOf(items, w), name)
    ensures OwnNames(items) ==> OwnNames(Without(items, name))
  {
    hide Name;
    if items != [] {
      NamesWithout(items[1..], name, w);
      if items[0].name != name {
        assert ([items[0]] + Without(items[1..], name))[1..] == Without(items[1..], name);
      }
      NoPrefix(Without(items[1..], name));
      if items[0].worker == w {
        AppendParts([items[0].name], NamesOf(items[1..], w));
        NoPrefix(NamesOf(items[1..], w));
      }
      NoPrefix(NamesOf(items[1..], w));
      NoPrefix(Dropping(NamesOf(items[1..], w), name));
    }
  }

  lemma {:induction false} NamesEdited(items: seq<Item>, name: string, w: nat)
    ensures NamesOf(Edited(items, name), w) == NamesOf(items, w)
  {
    if items != [] {
      NamesEdited(items[1..], name, w);
      assert Edited(items, name)[1..] == Edited(items[1..], name);
    }
  }

  lemma {:induction false} NamesAppend(items: seq<Item>, item: Item, w: nat)
    ensures NamesOf(items + [item], w) == NamesOf(items, w) + (if item.worker == w then [item.name] else [])
  {
    if items == [] {
      assert items + [item] == [item] && [item][1..] == [];
    } else {
      NamesAppend(items[1..], item, w);
      AppendParts(items, [item]);
    }
  }

  lemma {:induction false} DroppingLast(names: seq<string>, name: string)
    ensures name !in names ==> Dropping(names, name) == names
    ensures name !in names ==> Dropping(names + [name], name) == names
  {
    if names == [] {
      assert [name][1..] == [] && names + [name] == [name];
    } else {
      DroppingLast(names[1..], name);
      AppendParts(names, [name]);
      assert [names[0]] + names[1..] == names;
    }
  }

  /** A name in the table stands in the rows of the worker it names, and in no other's. */
  lemma {:induction false} NamedRow(items: seq<Item>, w: nat, s: nat, w': nat)
    requires OwnNames(items) && Name(w, s) in NamesOf(items, w')
    ensures w' == w
  {
    hide Name;
    if items[0].worker == w' && items[0].name == Name(w, s) {
      NameInjective(w, s, w', items[0].step);
    } else {
      NamedRow(items[1..], w, s, w');
    }
  }

  lemma {:induction false} RowsAreListed(items: seq<Item>, i: nat)
    requires i < |items|
    ensures items[i].name in NamesOf(items, items[i].worker)
  {
    if i > 0 {
      RowsAreListed(items[1..], i - 1);
    }
  }

  // ---------- both tables follow the programs ----------

  /** The event rows a program writes. */
  function Written(program: seq<Op>): seq<EventRow> {
    if program == [] then []
    else Written(program[..|program| - 1]) + (if program[|program| - 1].Read? then []
        else [EventOf(program[|program| - 1])])
  }

  /** A worker's rows are exactly what its own turns left there, in the order of its turns. */
  ghost predicate Fits(t: Tables, w: nat, program: seq<Op>) {
    NamesOf(t.items, w) == Live(program) && EventsOf(t.events, w) == Written(program)
  }

  lemma EventsGrow(events: seq<EventRow>, row: EventRow, w: nat)
    ensures EventsOf(events + [row], w) == EventsOf(events, w) + (if row.worker == w then [row] else [])
  {
    assert (events + [row])[..|events + [row]| - 1] == events;
  }

  lemma LiveAfter(program: seq<Op>, op: Op)
    ensures op.Insert? ==> Live(program + [op]) == Live(program) + [Name(op.worker, op.step)]
    ensures op.Delete? && Live(program) != [] ==> Live(program + [op]) == Live(program)[..|Live(program)| - 1]
    ensures op.Update? || op.Read? ==> Live(program + [op]) == Live(program)
    ensures Written(program + [op]) == Written(program) + (if op.Read? then [] else [EventOf(op)])
  {
    assert (program + [op])[..|program + [op]| - 1] == program;
  }

  /** What one turn does to the rows of worker `w`. */
  lemma TurnRows(t: Tables, op: Op, w: nat)
    ensures var t' := Apply(t, op);
            && (op.Insert? ==>
                NamesOf(t'.items, w) == NamesOf(t.items, w) + (if op.worker == w then [Name(w, op.step)] else []))
            && (op.Delete? ==> NamesOf(t'.items, w) == Dropping(NamesOf(t.items, w), op.name))
            && (op.Update? || op.Read? ==> NamesOf(t'.items, w) == NamesOf(t.items, w))
            && (EventsOf(t'.events, w) == EventsOf(t.events, w)
                + (if op.worker == w && !op.Read? then [EventOf(op)] else []))
            && (OwnNames(t.items) ==> OwnNames(t'.items))
  {
    hide Name, NamesOf, EventsOf, Dropping, Without;
    match op {
      case Insert(v, s) =>
        NamesAppend(t.items, Item(v, s, Name(v, s), 0), w);
        EventsGrow(t.events, EventOf(op), w);
      case Update(v, s, name) =>
        NamesEdited(t.items, name, w);
        EventsGrow(t.events, EventOf(op), w);
      case Delete(v, s, name) =>
        NamesWithout(t.items, name, w);
        EventsGrow(t.events, EventOf(op), w);
      case Read(_, _) =>
        NoSuffix(EventsOf(t.events, w));
    }
  }

  lemma PoppedName(w: nat, n: nat, live: seq<string>)
    requires LiveFits(w, n, live) && live != []
    ensures Dropping(live, live[|live| - 1]) == live[..|live| - 1]
  {
    hide Name, Dropping;
    var rest, name := live[..|live| - 1], live[|live| - 1];
    assert live == rest + [name] && name !in rest;
    DroppingLast(rest, name);
  }

  /** A worker's own turn. */
  lemma OwnTurn(t: Tables, program: seq<Op>, op: Op)
    requires ValidProgram(op.worker, program) && Proper(op, op.worker, |program|, Live(program))
    requires OwnNames(t.items) && Fits(t, op.worker, program)
    ensures Fits(Apply(t, op), op.worker, program + [op]) && OwnNames(Apply(t, op).items)
  {
    LiveAfter(program, op);
    LiveNames(op.worker, program);
    TurnRows(t, op, op.worker);
    hide Name, ValidProgram, Live, Written, Apply, NamesOf, EventsOf, Dropping, OwnNames;
    NoSuffix(Written(program));
    if op.Delete? {
      PoppedName(op.worker, |program|, Live(program));
    } else if op.Insert? {
      hide LiveFits;
    }
  }

  /** Another worker's turn leaves the rows alone. */
  lemma OtherTurn(t: Tables, program: seq<Op>, other: seq<Op>, op: Op, w: nat)
    requires w != op.worker && ValidProgram(op.worker, other) && Proper(op, op.worker, |other|, Live(other))
    requires OwnNames(t.items) && Fits(t, w, program)
    ensures Fits(Apply(t, op), w, program)
  {
    LiveNames(op.worker, other);
    TurnRows(t, op, w);
    hide Name, ValidProgram, Live, Written, Apply, NamesOf, EventsOf, Dropping, OwnNames;
    NoSuffix(NamesOf(t.items, w));
    NoSuffix(EventsOf(t.events, w));
    if op.Delete? {
      var k: nat :| op.name == Name(op.worker, k);
      if op.name in NamesOf(t.items, w) {
        NamedRow(t.items, op.worker, k, w);
      }
      DroppingLast(NamesOf(t.items, w), op.name);
    }
  }

  /** After every interleaving the tables hold each worker's rows exactly. */
  lemma {:induction false} TablesFit(order: seq<Op>)
    requires Interleaves(order)
    ensures OwnNames(ApplyAll(EMPTY, order).items)
    ensures forall w: nat :: Fits(ApplyAll(EMPTY, order), w, Projection(order, w))
  {
    hide Fits, OwnNames, Interleaves, Apply, ValidProgram, Proper;
    if order == [] {
      NothingFits();
    } else {
      var front, op := order[..|order| - 1], order[|order| - 1];
      InterleavesFront(order);
      TablesFit(front);
      var t := ApplyAll(EMPTY, front);
      var mine := Projection(front, op.worker);
      ProjectionIsValid(front, op.worker);
      OwnTurn(t, mine, op);
      forall w: nat ensures Fits(ApplyAll(EMPTY, order), w, Projection(order, w)) {
        if w != op.worker {
          OtherTurn(t, Projection(front, w), mine, op, w);
        }
      }
    }
  }

  lemma NothingFits()
    ensures OwnNames(EMPTY.items) && forall w: nat :: Fits(EMPTY, w, [])
  {
  }

  lemma ProjectionIsValid(order: seq<Op>, w: nat)
    requires Interleaves(order)
    ensures ValidProgram(w, Projection(order, w))
  {
  }

  // ---------- what a claim says about its program ----------

  /** A ledger agrees with the events written so far and with the size of the stack. */
  ghost predicate Matches(c: Claim, w: nat, rows: seq<EventRow>, live: nat, n: nat) {
    && c.worker == w && |rows| == c.Writes() && SumSeq(rows) == c.sumSeq
    && CountKind(rows, Inserted) == c.inserts && CountKind(rows, Deleted) == c.deletes
    && (rows != [] ==> HasToken(rows, c.sample) && HasToken(rows, c.last))
    && (rows == [] ==> c.sample == "")
    && live == c.inserts - c.deletes
    && forall i | 0 <= i < |rows| :: rows[i].seqNo < n
  }

  lemma {:induction false} ClaimMatches(w: nat, program: seq<Op>)
    requires ValidProgram(w, program)
    ensures Matches(ClaimOf(w, program), w, Written(program), |Live(program)|, |program|)
  {
    hide ValidProgram, Name, Matches, Counted;
    if program == [] {
      NoRows(w);
    } else {
      ProgramFront(w, program);
      var front, op := program[..|program| - 1], program[|program| - 1];
      ClaimMatches(w, front);
      LiveAfter(front, op);
      assert program == front + [op];
      hide Written, Live, ClaimOf;
      NoSuffix(Written(front));
      MatchesOneMore(ClaimOf(w, front), w, Written(front), |Live(front)|, |front|, op);
    }
  }

  /** One more turn keeps the ledger in agreement. */
  lemma MatchesOneMore(c: Claim, w: nat, rows: seq<EventRow>, live: nat, n: nat, op: Op)
    requires Matches(c, w, rows, live, n) && op.step == n && (op.Delete? ==> live > 0)
    ensures Matches(Counted(c, op), w, if op.Read? then rows else rows + [EventOf(op)],
                    if op.Insert? then live + 1 else if op.Delete? then live - 1 else live, n + 1)
  {
    hide Name, SumSeq, CountKind, HasToken;
    if !op.Read? {
      RowsGrow(rows, EventOf(op));
      TokensStay(rows, EventOf(op), c.sample);
    }
  }

  lemma NoRows(w: nat)
    ensures Matches(ClaimOf(w, []), w, Written([]), |Live([])|, 0)
  {
  }

  lemma RowsGrow(rows: seq<EventRow>, row: EventRow)
    ensures SumSeq(rows + [row]) == SumSeq(rows) + row.seqNo
    ensures forall kind :: CountKind(rows + [row], kind) == CountKind(rows, kind) + (if row.kind == kind then 1 else 0)
    ensures HasToken(rows + [row], row.token)
  {
    assert (rows + [row])[..|rows + [row]| - 1] == rows;
    assert (rows + [row])[|rows|].token == row.token;
  }

  lemma TokensStay(rows: seq<EventRow>, row: EventRow, token: string)
    ensures HasToken(rows, token) ==> HasToken(rows + [row], token)
  {
    if HasToken(rows, token) {
      var i :| 0 <= i < |rows| && rows[i].token == token;
      assert (rows + [row])[i].token == token;
    }
  }

  // ---------- the theorems ----------

  /** For any number of workers and any interleaving of their turns, the file agrees with the claim
      of every worker that wrote anything. */
  lemma AuditPasses(order: seq<Op>, w: nat)
    requires Interleaves(order)
    requires ClaimOf(w, Projection(order, w)).Writes() > 0
    ensures Audited(ApplyAll(EMPTY, order), ClaimOf(w, Projection(order, w)))
  {
    hide Interleaves, ApplyAll, Projection, ClaimOf, ValidProgram;
    TablesFit(order);
    ProjectionIsValid(order, w);
    assert Fits(ApplyAll(EMPTY, order), w, Projection(order, w));
    ClaimMatches(w, Projection(order, w));
  }

  /** The next turn of any worker meets no UNIQUE or PRIMARY KEY conflict. */
  lemma NoConflict(order: seq<Op>, op: Op)
    requires Interleaves(order + [op]) && !op.Read?
    ensures var t := ApplyAll(EMPTY, order);
            !Conflicts(t, ItemStatement(op)) && !Conflicts(Changed(t, ItemStatement(op)), InsertEvent(EventOf(op)))
  {
    hide ApplyAll, Fits, OwnNames, Interleaves, Projection, ValidProgram, ClaimOf, Live, Written, Name;
    var w, t, program := op.worker, ApplyAll(EMPTY, order), Projection(order, op.worker);
    BeforeTurn(order, op);
    ClaimMatches(w, program);
    EventKeyIsFree(t, program, w);
    if op.Insert? {
      NameIsFree(t, program, w);
    }
  }

  lemma BeforeTurn(order: seq<Op>, op: Op)
    requires Interleaves(order + [op])
    ensures var t, program := ApplyAll(EMPTY, order), Projection(order, op.worker);
            && op.step == |program| && ValidProgram(op.worker, program) && OwnNames(t.items)
                && Fits(t, op.worker, program)
  {
    hide ApplyAll, Fits, OwnNames, Interleaves, Projection, ValidProgram, Live;
    InterleavesFront(order + [op]);
    assert (order + [op])[..|order + [op]| - 1] == order;
    TablesFit(order);
    ProjectionIsValid(order, op.worker);
  }

  lemma NameIsFree(t: Tables, program: seq<Op>, w: nat)
    requires OwnNames(t.items) && Fits(t, w, program) && ValidProgram(w, program)
    ensures forall i | 0 <= i < |t.items| :: t.items[i].name != Name(w, |program|)
  {
    hide Name, ValidProgram;
    LiveNames(w, program);
    LiveGrows(w, |program|, Live(program));
    forall i | 0 <= i < |t.items| ensures t.items[i].name != Name(w, |program|) {
      RowsAreListed(t.items, i);
      if t.items[i].name == Name(w, |program|) {
        NameInjective(w, |program|, t.items[i].worker, t.items[i].step);
      }
    }
  }

  lemma {:induction false} EventIsListed(events: seq<EventRow>, i: nat)
    requires i < |events|
    ensures exists k | 0 <= k < |EventsOf(events, events[i].worker)| ::
            EventsOf(events, events[i].worker)[k] == events[i]
  {
    var w, front := events[i].worker, events[..|events| - 1];
    if i < |front| {
      EventIsListed(front, i);
      var k :| 0 <= k < |EventsOf(front, w)| && EventsOf(front, w)[k] == events[i];
      assert EventsOf(events, w)[k] == events[i];
    } else {
      assert EventsOf(events, w)[|EventsOf(front, w)|] == events[i];
    }
  }

  lemma EventKeyIsFree(t: Tables, program: seq<Op>, w: nat)
    requires Fits(t, w, program)
    requires forall i | 0 <= i < |Written(program)| :: Written(program)[i].seqNo < |program|
    ensures forall i | 0 <= i < |t.events| :: t.events[i].worker != w || t.events[i].seqNo < |program|
  {
    forall i | 0 <= i < |t.events| && t.events[i].worker == w ensures t.events[i].seqNo < |program| {
      EventIsListed(t.events, i);
    }
  }
}
