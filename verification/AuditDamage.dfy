/** What the audit detects: exactly which changes of a file that passed make it fail, and that no turn
    of a worker can be missing from the file, or be in it twice, without being noticed. */
module AuditDamage {
  import opened Prelude
  import opened Names
  import opened Hammer
  import opened HammerAudit

  // ---------- changes of a file ----------

  /** An event lost, written twice, or with another number, token or kind; an item row lost or gained. */
  datatype Damage =
    | LostEvent(i: nat)
    | DoubledEvent(i: nat)
    | Renumbered(i: nat, seqNo: nat)
    | Retold(i: nat, token: string)
    | Relabelled(i: nat, kind: Kind)
    | LostItem(i: nat)
    | GainedItem(i: nat, item: Item)

  predicate InRange(t: Tables, d: Damage) {
    match d
    case LostItem(i) => i < |t.items|
    case GainedItem(i, _) => i <= |t.items|
    case _ => d.i < |t.events|
  }

  /** The rows that stand for event `d.i` after the damage. */
  function Instead(row: EventRow, d: Damage): seq<EventRow> {
    match d
    case LostEvent(_) => []
    case DoubledEvent(_) => [row, row]
    case Renumbered(_, seqNo) => [row.(seqNo := seqNo)]
    case Retold(_, token) => [row.(token := token)]
    case Relabelled(_, kind) => [row.(kind := kind)]
    case _ => [row]
  }

  function Damaged(t: Tables, d: Damage): Tables
    requires InRange(t, d)
  {
    match d
    case LostItem(i) => t.(items := t.items[..i] + t.items[i + 1..])
    case GainedItem(i, item) => t.(items := t.items[..i] + [item] + t.items[i..])
    case _ => t.(events := t.events[..d.i] + Instead(t.events[d.i], d) + t.events[d.i + 1..])
  }

  /** What a kind of event does to the number of a worker's item rows. */
  function Balance(kind: Kind): int {
    match kind
    case Inserted => 1
    case Updated => 0
    case Deleted => -1
  }

  /** The damage is to a row of the claim's worker, and is one the worker's claim speaks of. */
  ghost predicate Harms(t: Tables, c: Claim, d: Damage)
    requires InRange(t, d)
  {
    match d
    case LostEvent(i) => t.events[i].worker == c.worker
    case DoubledEvent(i) => t.events[i].worker == c.worker
    case Renumbered(i, seqNo) => t.events[i].worker == c.worker && seqNo != t.events[i].seqNo
    case Relabelled(i, kind) => t.events[i].worker == c.worker && Balance(kind) != Balance(t.events[i].kind)
    case Retold(i, token) =>
      var was := t.events[i].token;
      && t.events[i].worker == c.worker && token != was && (was == c.sample || was == c.last)
      && forall j | 0 <= j < |t.events| && j != i && t.events[j].worker == c.worker :: t.events[j].token != was
    case LostItem(i) => t.items[i].worker == c.worker
    case GainedItem(_, item) => item.worker == c.worker
  }

  // ---------- the audit's queries over parts of a table ----------

  lemma {:induction false} EventsAppend(a: seq<EventRow>, b: seq<EventRow>, w: nat)
    ensures EventsOf(a + b, w) == EventsOf(a, w) + EventsOf(b, w)
    decreases |b|
  {
    if b == [] {
      NoSuffix(a);
      NoSuffix(EventsOf(a, w));
    } else {
      var front, row := b[..|b| - 1], b[|b| - 1];
      assert b == front + [row];
      Assoc(a, front, [row]);
      EventsAppend(a, front, w);
      EventsGrow(a + front, row, w);
      Assoc(EventsOf(a, w), EventsOf(front, w), if row.worker == w then [row] else []);
    }
  }

  lemma {:induction false} SumsAppend(a: seq<EventRow>, b: seq<EventRow>)
    ensures SumSeq(a + b) == SumSeq(a) + SumSeq(b)
    ensures forall kind :: CountKind(a + b, kind) == CountKind(a, kind) + CountKind(b, kind)
    decreases |b|
  {
    if b == [] {
      NoSuffix(a);
    } else {
      var front, row := b[..|b| - 1], b[|b| - 1];
      assert b == front + [row];
      Assoc(a, front, [row]);
      SumsAppend(a, front);
      RowsGrow(a + front, row);
      RowsGrow(front, row);
    }
  }

  lemma {:induction false} NamesParts(a: seq<Item>, b: seq<Item>, w: nat)
    ensures NamesOf(a + b, w) == NamesOf(a, w) + NamesOf(b, w)
  {
    if a == [] {
      NoPrefix(b);
      NoPrefix(NamesOf(b, w));
    } else {
      AppendParts(a, b);
      NamesParts(a[1..], b, w);
      Assoc(if a[0].worker == w then [a[0].name] else [], NamesOf(a[1..], w), NamesOf(b, w));
    }
  }

  lemma {:induction false} TokenIsListed(events: seq<EventRow>, w: nat, token: string)
    ensures HasToken(EventsOf(events, w), token) <==>
            exists j | 0 <= j < |events| :: events[j].worker == w && events[j].token == token
  {
    if events != [] {
      var front, row := events[..|events| - 1], events[|events| - 1];
      TokenIsListed(front, w, token);
      var before, after := EventsOf(front, w), EventsOf(events, w);
      if row.worker == w {
        assert after == before + [row];
        TokensStay(before, row, token);
        assert after[|before|] == row;
        OneMoreToken(before, row, token);
      } else {
        NoSuffix(before);
      }
      assert forall j | 0 <= j < |front| :: front[j] == events[j];
    }
  }

  lemma OneMoreToken(rows: seq<EventRow>, row: EventRow, token: string)
    ensures HasToken(rows + [row], token) <==> HasToken(rows, token) || row.token == token
  {
    TokensStay(rows, row, token);
    var rows' := rows + [row];
    assert rows'[|rows|] == row;
    if HasToken(rows', token) {
      var i :| 0 <= i < |rows'| && rows'[i].token == token;
      assert i < |rows| ==> rows[i].token == token;
    }
  }

  // ---------- what the audit sees of one change ----------

  /** The numbers a claim is compared with. */
  datatype Sums = Sums(count: nat, sum: nat, balance: int)

  function SumsOf(events: seq<EventRow>, w: nat): Sums {
    var mine := EventsOf(events, w);
    Sums(|mine|, SumSeq(mine), CountKind(mine, Inserted) - CountKind(mine, Deleted))
  }

  function Plus(a: Sums, b: Sums): Sums {
    Sums(a.count + b.count, a.sum + b.sum, a.balance + b.balance)
  }

  lemma SumsAdd(a: seq<EventRow>, b: seq<EventRow>, w: nat)
    ensures SumsOf(a + b, w) == Plus(SumsOf(a, w), SumsOf(b, w))
  {
    EventsAppend(a, b, w);
    SumsAppend(EventsOf(a, w), EventsOf(b, w));
    hide EventsOf, SumSeq, CountKind;
  }

  function Own(row: EventRow, w: nat): Sums {
    if row.worker == w then Sums(1, row.seqNo, Balance(row.kind)) else Sums(0, 0, 0)
  }

  lemma OneEvent(row: EventRow, w: nat)
    ensures EventsOf([row], w) == (if row.worker == w then [row] else []) && EventsOf([], w) == []
  {
    assert [row][..0] == [];
  }

  lemma OneSum(row: EventRow)
    ensures SumSeq([row]) == row.seqNo && SumSeq([]) == 0
    ensures forall kind :: CountKind([row], kind) == (if row.kind == kind then 1 else 0) && CountKind([], kind) == 0
  {
    assert [row][..0] == [];
  }

  lemma SumsOfOne(row: EventRow, w: nat)
    ensures SumsOf([row], w) == Own(row, w) && SumsOf([], w) == Sums(0, 0, 0)
  {
    OneEvent(row, w);
    OneSum(row);
    hide EventsOf, SumSeq, CountKind;
  }

  lemma SumsOfInstead(row: EventRow, d: Damage, w: nat)
    ensures SumsOf(Instead(row, d), w) ==
            if d.LostEvent? then Sums(0, 0, 0)
            else if d.DoubledEvent? then Plus(Own(row, w), Own(row, w))
            else Own(Instead(row, d)[0], w)
  {
    hide SumsOf;
    SumsOfOne(row, w);
    if d.DoubledEvent? {
      assert [row, row] == [row] + [row];
      SumsAdd([row], [row], w);
    } else if !d.LostEvent? {
      SumsOfOne(Instead(row, d)[0], w);
    }
  }

  /** The sums before and after, the sums of the untouched rows being `rest`. */
  lemma SumsMove(t: Tables, d: Damage, w: nat) returns (rest: Sums)
    requires InRange(t, d) && !d.LostItem? && !d.GainedItem?
    ensures SumsOf(t.events, w) == Plus(rest, Own(t.events[d.i], w))
    ensures SumsOf(Damaged(t, d).events, w) == Plus(rest, SumsOf(Instead(t.events[d.i], d), w))
  {
    hide SumsOf, Instead;
    var a, row, b := t.events[..d.i], t.events[d.i], t.events[d.i + 1..];
    rest := Plus(SumsOf(a, w), SumsOf(b, w));
    assert t.events == a + [row] + b;
    SumsAdd(a + [row], b, w);
    SumsAdd(a, [row], w);
    SumsOfOne(row, w);
    SumsAdd(a + Instead(row, d), b, w);
    SumsAdd(a, Instead(row, d), w);
  }

  /** The audit in these terms. */
  lemma AuditedMeans(t: Tables, c: Claim)
    ensures Audited(t, c) <==>
            && EventsOf(t.events, c.worker) != []
            && SumsOf(t.events, c.worker) == Sums(c.Writes(), c.sumSeq, |NamesOf(t.items, c.worker)|)
            && HasToken(EventsOf(t.events, c.worker), c.sample) && HasToken(EventsOf(t.events, c.worker), c.last)
  {
    hide EventsOf, SumSeq, CountKind, HasToken, NamesOf;
  }

  lemma TokensAppend(a: seq<EventRow>, b: seq<EventRow>, token: string)
    ensures HasToken(a + b, token) <==> HasToken(a, token) || HasToken(b, token)
  {
    assert forall i | 0 <= i < |a| :: (a + b)[i] == a[i];
    assert forall i | 0 <= i < |b| :: (a + b)[|a| + i] == b[i];
  }

  lemma OneToken(row: EventRow, token: string)
    ensures HasToken([row], token) <==> row.token == token
    ensures !HasToken([], token)
  {
    assert [row][0] == row;
  }

  /** A row's token is recorded as often as before, or twice. */
  lemma InsteadTokens(row: EventRow, d: Damage, w: nat, token: string)
    requires d.DoubledEvent? || d.Renumbered? || d.Relabelled?
    ensures HasToken(EventsOf(Instead(row, d), w), token) <==> HasToken(EventsOf([row], w), token)
  {
    hide EventsOf, HasToken;
    OneEvent(row, w);
    OneToken(row, token);
    if d.DoubledEvent? {
      assert [row, row] == [row] + [row];
      EventsAppend([row], [row], w);
      TokensAppend(EventsOf([row], w), EventsOf([row], w), token);
    } else {
      var row' := if d.Renumbered? then row.(seqNo := d.seqNo) else row.(kind := d.kind);
      OneEvent(row', w);
      OneToken(row', token);
    }
  }

  /** The tokens after a change, except of a token. */
  lemma TokensRemain(t: Tables, d: Damage, w: nat, token: string)
    requires InRange(t, d) && (d.DoubledEvent? || d.Renumbered? || d.Relabelled?)
    ensures HasToken(EventsOf(Damaged(t, d).events, w), token) <==> HasToken(EventsOf(t.events, w), token)
  {
    hide EventsOf, HasToken, Instead;
    var a, row, b := t.events[..d.i], t.events[d.i], t.events[d.i + 1..];
    assert t.events == a + [row] + b;
    InsteadTokens(row, d, w, token);
    TokensOfParts(a, [row], b, w, token);
    TokensOfParts(a, Instead(row, d), b, w, token);
  }

  lemma TokensOfParts(a: seq<EventRow>, mid: seq<EventRow>, b: seq<EventRow>, w: nat, token: string)
    ensures HasToken(EventsOf(a + mid + b, w), token) <==>
            HasToken(EventsOf(a, w), token) || HasToken(EventsOf(mid, w), token) || HasToken(EventsOf(b, w), token)
  {
    EventsAppend(a + mid, b, w);
    EventsAppend(a, mid, w);
    TokensAppend(EventsOf(a + mid, w), EventsOf(b, w), token);
    TokensAppend(EventsOf(a, w), EventsOf(mid, w), token);
    hide EventsOf, HasToken;
  }

  lemma Elsewhere(a: seq<EventRow>, row: EventRow, b: seq<EventRow>, w: nat, token: string)
    ensures HasToken(EventsOf(a, w), token) || HasToken(EventsOf(b, w), token) <==>
            exists j | 0 <= j < |a + [row] + b| && j != |a| ::
              (a + [row] + b)[j].worker == w && (a + [row] + b)[j].token == token
  {
    TokenIsListed(a, w, token);
    TokenIsListed(b, w, token);
    hide EventsOf, HasToken;
    var events := a + [row] + b;
    assert forall j | 0 <= j < |a| :: events[j] == a[j];
    assert forall j | 0 <= j < |b| :: events[|a| + 1 + j] == b[j];
    assert forall j | |a| < j < |events| :: events[j] == b[j - |a| - 1];
  }

  /** A token is still there after another row's token, or another token, was changed. */
  lemma RetoldTokens(t: Tables, d: Damage, w: nat, token: string)
    requires InRange(t, d) && d.Retold? && HasToken(EventsOf(t.events, w), token)
    ensures HasToken(EventsOf(Damaged(t, d).events, w), token) <==>
            !(t.events[d.i].worker == w && d.token != t.events[d.i].token && token == t.events[d.i].token
              && forall j | 0 <= j < |t.events| && j != d.i && t.events[j].worker == w :: t.events[j].token != token)
  {
    hide EventsOf, HasToken;
    var a, row, b := t.events[..d.i], t.events[d.i], t.events[d.i + 1..];
    var row' := row.(token := d.token);
    assert t.events == a + [row] + b && |a| == d.i;
    TokensOfParts(a, [row], b, w, token);
    TokensOfParts(a, [row'], b, w, token);
    OneEvent(row, w);
    OneEvent(row', w);
    OneToken(row, token);
    OneToken(row', token);
    Elsewhere(a, row, b, w, token);
  }

  lemma OthersRow(t: Tables, d: Damage, w: nat)
    requires InRange(t, d) && !d.LostItem? && !d.GainedItem? && t.events[d.i].worker != w
    ensures EventsOf(Damaged(t, d).events, w) == EventsOf(t.events, w)
  {
    var a, row, b := t.events[..d.i], t.events[d.i], t.events[d.i + 1..];
    assert t.events == a + [row] + b;
    EventsAppend(a + [row], b, w);
    EventsAppend(a, [row], w);
    EventsAppend(a + Instead(row, d), b, w);
    EventsAppend(a, Instead(row, d), w);
    NotMine([row], w);
    NotMine(Instead(row, d), w);
    hide EventsOf;
  }

  lemma {:induction false} NotMine(rows: seq<EventRow>, w: nat)
    requires forall i | 0 <= i < |rows| :: rows[i].worker != w
    ensures EventsOf(rows, w) == []
  {
    if rows != [] {
      NotMine(rows[..|rows| - 1], w);
    }
  }

  // ---------- the theorems on files ----------

  lemma EventDamage(t: Tables, c: Claim, d: Damage)
    requires Audited(t, c) && InRange(t, d) && (d.LostEvent? || d.DoubledEvent? || d.Renumbered? || d.Relabelled?)
    requires t.events[d.i].worker == c.worker
    ensures Audited(Damaged(t, d), c) <==> !Harms(t, c, d)
  {
    hide Audited, EventsOf, SumsOf, HasToken, NamesOf, Damaged, Instead;
    var w, t' := c.worker, Damaged(t, d);
    SameItems(t, d);
    AuditedMeans(t, c);
    AuditedMeans(t', c);
    var rest := SumsMove(t, d, w);
    SumsOfInstead(t.events[d.i], d, w);
    InsteadOwn(t.events[d.i], d, w);
    SumsCount(t'.events, w);
    if !d.LostEvent? {
      TokensRemain(t, d, w, c.sample);
      TokensRemain(t, d, w, c.last);
    }
  }

  lemma SameItems(t: Tables, d: Damage)
    requires InRange(t, d) && !d.LostItem? && !d.GainedItem?
    ensures Damaged(t, d).items == t.items
  {
    hide Instead;
  }

  lemma InsteadOwn(row: EventRow, d: Damage, w: nat)
    requires row.worker == w
    ensures Own(row, w) == Sums(1, row.seqNo, Balance(row.kind))
    ensures d.Renumbered? ==> Own(Instead(row, d)[0], w) == Sums(1, d.seqNo, Balance(row.kind))
    ensures d.Relabelled? ==> Own(Instead(row, d)[0], w) == Sums(1, row.seqNo, Balance(d.kind))
  {
  }

  lemma SumsCount(events: seq<EventRow>, w: nat)
    ensures SumsOf(events, w).count == |EventsOf(events, w)|
  {
  }

  lemma TokenDamage(t: Tables, c: Claim, d: Damage)
    requires Audited(t, c) && InRange(t, d) && d.Retold? && t.events[d.i].worker == c.worker
    ensures Audited(Damaged(t, d), c) <==> !Harms(t, c, d)
  {
    hide Audited, EventsOf, SumsOf, HasToken, NamesOf;
    AuditedMeans(t, c);
    AuditedMeans(Damaged(t, d), c);
    var rest := SumsMove(t, d, c.worker);
    SumsOfInstead(t.events[d.i], d, c.worker);
    SumsCount(Damaged(t, d).events, c.worker);
    SumsCount(t.events, c.worker);
    RetoldTokens(t, d, c.worker, c.sample);
    RetoldTokens(t, d, c.worker, c.last);
  }

  lemma ItemDamage(t: Tables, c: Claim, d: Damage)
    requires Audited(t, c) && InRange(t, d) && (d.LostItem? || d.GainedItem?)
    ensures Audited(Damaged(t, d), c) <==> !Harms(t, c, d)
  {
    hide Audited, EventsOf, SumsOf, HasToken, NamesOf;
    AuditedMeans(t, c);
    AuditedMeans(Damaged(t, d), c);
    var w := c.worker;
    if d.LostItem? {
      var a, item, b := t.items[..d.i], t.items[d.i], t.items[d.i + 1..];
      assert t.items == a + ([item] + b);
      NamesParts(a, [item] + b, w);
      NamesParts([item], b, w);
      NamesParts(a, b, w);
      OneName(item, w);
    } else {
      var a, b := t.items[..d.i], t.items[d.i..];
      assert t.items == a + b;
      NamesParts(a, b, w);
      NamesParts(a + [d.item], b, w);
      NamesParts(a, [d.item], w);
      OneName(d.item, w);
    }
  }

  lemma OneName(item: Item, w: nat)
    ensures |NamesOf([item], w)| == if item.worker == w then 1 else 0
  {
    assert [item][1..] == [];
  }

  /** For any file a claim agrees with: after one change the audit fails exactly if the change harms, that
      is, hits a row of the worker and is not one of those no claim speaks of: a new token while the old
      one is recorded elsewhere or is neither sample nor last, or a kind with the same balance. */
  lemma DamageIsCaught(t: Tables, c: Claim, d: Damage)
    requires Audited(t, c) && InRange(t, d)
    ensures Audited(Damaged(t, d), c) <==> !Harms(t, c, d)
  {
    hide Audited;
    if d.LostItem? || d.GainedItem? {
      ItemDamage(t, c, d);
    } else if t.events[d.i].worker != c.worker {
      OthersRow(t, d, c.worker);
      SameEvents(t, Damaged(t, d), c);
    } else if d.Retold? {
      TokenDamage(t, c, d);
    } else {
      EventDamage(t, c, d);
    }
  }

  lemma SameEvents(t: Tables, t': Tables, c: Claim)
    requires EventsOf(t'.events, c.worker) == EventsOf(t.events, c.worker) && t'.items == t.items
    ensures Audited(t', c) <==> Audited(t, c)
  {
    hide EventsOf, HasToken, SumSeq, CountKind;
  }

  /** So for the file any interleaving of turns leaves, and every worker that wrote. */
  lemma StormDamageIsCaught(order: seq<Op>, w: nat, d: Damage)
    requires Interleaves(order) && ClaimOf(w, Projection(order, w)).Writes() > 0
    requires InRange(ApplyAll(EMPTY, order), d)
    ensures var t, c := ApplyAll(EMPTY, order), ClaimOf(w, Projection(order, w));
            Audited(Damaged(t, d), c) <==> !Harms(t, c, d)
  {
    hide Interleaves, ApplyAll, Projection, ClaimOf, Audited, Harms, Damaged;
    AuditPasses(order, w);
    DamageIsCaught(ApplyAll(EMPTY, order), ClaimOf(w, Projection(order, w)), d);
  }

  // ---------- turns lost or taken twice ----------

  /** How many writes of a worker are among some turns, and the sum of their steps. */
  function WritesBy(ops: seq<Op>, w: nat): (nat, nat) {
    if ops == [] then (0, 0)
    else
      var (n, sum), op := WritesBy(ops[..|ops| - 1], w), ops[|ops| - 1];
      if op.worker == w && !op.Read? then (n + 1, sum + op.step) else (n, sum)
  }

  lemma {:induction false} EventsTaken(ops: seq<Op>, w: nat)
    ensures var mine := EventsOf(ApplyAll(EMPTY, ops).events, w); (|mine|, SumSeq(mine)) == WritesBy(ops, w)
  {
    hide Apply, EventsOf, SumSeq;
    if ops == [] {
      NothingTaken(w);
    } else {
      EventsTaken(ops[..|ops| - 1], w);
      OneTaken(ApplyAll(EMPTY, ops[..|ops| - 1]), ops[|ops| - 1], w);
    }
  }

  lemma NothingTaken(w: nat)
    ensures EventsOf(EMPTY.events, w) == [] && SumSeq([]) == 0
  {
  }

  lemma OneTaken(t: Tables, op: Op, w: nat)
    ensures var (mine, mine') := (EventsOf(t.events, w), EventsOf(Apply(t, op).events, w));
            if op.worker == w && !op.Read? then |mine'| == |mine| + 1 && SumSeq(mine') == SumSeq(mine) + op.step
            else mine' == mine
  {
    TurnRows(t, op, w);
    hide Apply, EventsOf, NamesOf, Dropping, OwnNames, Name;
    NoSuffix(EventsOf(t.events, w));
    if op.worker == w && !op.Read? {
      EventRecords(op);
      RowsGrow(EventsOf(t.events, w), EventOf(op));
    }
  }

  lemma EventRecords(op: Op)
    requires !op.Read?
    ensures EventOf(op).seqNo == op.step && EventOf(op).worker == op.worker
  {
  }

  lemma {:induction false} ClaimCounts(program: seq<Op>, w: nat)
    requires forall i | 0 <= i < |program| :: program[i].worker == w
    ensures var c := ClaimOf(w, program); (c.Writes(), c.sumSeq) == WritesBy(program, w)
  {
    if program != [] {
      ClaimCounts(program[..|program| - 1], w);
      hide Name;
    }
  }

  lemma {:induction false} ProjectionKeepsWrites(order: seq<Op>, w: nat)
    ensures WritesBy(Projection(order, w), w) == WritesBy(order, w)
  {
    hide Projection, WritesBy;
    if order == [] {
      assert Projection(order, w) == [] by { NothingProjected(w); }
    } else {
      var front, op := order[..|order| - 1], order[|order| - 1];
      ProjectionKeepsWrites(front, w);
      assert order == front + [op];
      ProjectionOneMore(front, op, w);
      WritesOneMore(front, op, w);
      WritesOneMore(Projection(front, w), op, w);
    }
  }

  lemma NothingProjected(w: nat)
    ensures Projection([], w) == []
  {
  }

  lemma {:induction false} ProjectionIsOwn(order: seq<Op>, w: nat)
    ensures forall i | 0 <= i < |Projection(order, w)| :: Projection(order, w)[i].worker == w
  {
    if order != [] {
      ProjectionIsOwn(order[..|order| - 1], w);
    }
  }

  lemma ProjectionOneMore(order: seq<Op>, op: Op, w: nat)
    ensures Projection(order + [op], w) ==
            if op.worker == w then Projection(order, w) + [op] else Projection(order, w)
  {
    assert (order + [op])[..|order|] == order;
    NoSuffix(Projection(order, w));
  }

  lemma WritesOneMore(ops: seq<Op>, op: Op, w: nat)
    ensures var (n, sum) := WritesBy(ops, w);
            WritesBy(ops + [op], w) == if op.worker == w && !op.Read? then (n + 1, sum + op.step) else (n, sum)
  {
    assert (ops + [op])[..|ops|] == ops;
  }

  /** Whatever turns took effect, in whatever order and by whomever: if the file agrees with the claim of
      a worker, it took as many writes of that worker, with the same sum of steps, as the worker reported. */
  lemma AuditCountsTurns(taken: seq<Op>, order: seq<Op>, w: nat)
    requires Audited(ApplyAll(EMPTY, taken), ClaimOf(w, Projection(order, w)))
    ensures WritesBy(taken, w) == WritesBy(order, w)
  {
    hide ApplyAll, Projection, EventsOf, ClaimOf, HasToken, NamesOf, WritesBy;
    ClaimIsOf(w, Projection(order, w));
    EventsTaken(taken, w);
    ProjectionKeepsWrites(order, w);
    ProjectionIsOwn(order, w);
    ClaimCounts(Projection(order, w), w);
  }

  lemma {:induction false} ClaimIsOf(w: nat, program: seq<Op>)
    ensures ClaimOf(w, program).worker == w
  {
    if program != [] {
      ClaimIsOf(w, program[..|program| - 1]);
      hide Name;
    }
  }

  lemma {:induction false} WritesAppend(a: seq<Op>, b: seq<Op>, w: nat)
    ensures WritesBy(a + b, w) == (WritesBy(a, w).0 + WritesBy(b, w).0, WritesBy(a, w).1 + WritesBy(b, w).1)
    decreases |b|
  {
    if b == [] {
      NoSuffix(a);
    } else {
      var front, op := b[..|b| - 1], b[|b| - 1];
      assert (a + b)[..|a + b| - 1] == a + front;
      WritesAppend(a, front, w);
    }
  }

  lemma OneWrite(op: Op, w: nat)
    ensures WritesBy([op], w) == if op.worker == w && !op.Read? then (1, op.step) else (0, 0)
  {
    assert [op][..0] == [];
    assert WritesBy([op][..0], w) == (0, 0);
  }

  /** A write that was reported and did not take effect is noticed, and so is one that took effect twice,
      or was replaced by a turn of another step. */
  lemma LostTurnIsNoticed(a: seq<Op>, op: Op, b: seq<Op>, other: Op)
    requires !op.Read? && other.worker == op.worker && !other.Read? && other.step != op.step
    ensures var c := ClaimOf(op.worker, Projection(a + [op] + b, op.worker));
            && !Audited(ApplyAll(EMPTY, a + b), c)
            && !Audited(ApplyAll(EMPTY, a + [op] + [op] + b), c)
            && !Audited(ApplyAll(EMPTY, a + [other] + b), c)
  {
    var w := op.worker;
    hide ApplyAll, Projection, ClaimOf, Audited;
    OneWrite(op, w);
    OneWrite(other, w);
    WritesAppend(a, b, w);
    WritesAppend(a, [op], w);
    WritesAppend(a + [op], b, w);
    WritesAppend(a + [op], [op], w);
    WritesAppend(a + [op] + [op], b, w);
    WritesAppend(a, [other], w);
    WritesAppend(a + [other], b, w);
    hide WritesBy;
    if Audited(ApplyAll(EMPTY, a + b), ClaimOf(w, Projection(a + [op] + b, w))) {
      AuditCountsTurns(a + b, a + [op] + b, w);
    }
    if Audited(ApplyAll(EMPTY, a + [op] + [op] + b), ClaimOf(w, Projection(a + [op] + b, w))) {
      AuditCountsTurns(a + [op] + [op] + b, a + [op] + b, w);
    }
    if Audited(ApplyAll(EMPTY, a + [other] + b), ClaimOf(w, Projection(a + [op] + b, w))) {
      AuditCountsTurns(a + [other] + b, a + [op] + b, w);
    }
  }

  // ---------- what a claim says ----------

  ghost predicate Tells(c: Claim, rows: seq<EventRow>, n: nat) {
    && (rows != [] ==> c.sample == rows[0].token && c.last == rows[|rows| - 1].token && c.sample != "")
    && (rows == [] ==> c.sample == "")
    && CountKind(rows, Inserted) == c.inserts && CountKind(rows, Updated) == c.updates
    && CountKind(rows, Deleted) == c.deletes && c.lookups == n - |rows|
  }

  lemma TellsOneMore(c: Claim, rows: seq<EventRow>, n: nat, op: Op)
    requires Tells(c, rows, n) && (!op.Read? ==> EventOf(op).token != "")
    ensures Tells(Counted(c, op), if op.Read? then rows else rows + [EventOf(op)], n + 1)
  {
    hide Name, CountKind;
    if !op.Read? {
      RowsGrow(rows, EventOf(op));
    }
  }

  lemma NothingTold(w: nat)
    ensures Tells(ClaimOf(w, []), Written([]), 0)
  {
  }

  /** Sample and last of a claim are the tokens of the worker's first and last event; the events of each
      kind are as many as claimed, and the other turns are its lookups. */
  lemma {:induction false} ClaimTells(w: nat, program: seq<Op>)
    requires ValidProgram(w, program)
    ensures var (c, rows) := (ClaimOf(w, program), Written(program));
            && (rows != [] ==> c.sample == rows[0].token && c.last == rows[|rows| - 1].token && c.sample != "")
            && (rows == [] ==> c.sample == "")
            && CountKind(rows, Inserted) == c.inserts && CountKind(rows, Updated) == c.updates
            && CountKind(rows, Deleted) == c.deletes && c.lookups == |program| - |rows|
  {
    hide ValidProgram, Live, Proper, Name, Counted, CountKind;
    if program == [] {
      NothingTold(w);
    } else {
      var front, op := program[..|program| - 1], program[|program| - 1];
      ProgramFront(w, program);
      ClaimTells(w, front);
      assert program == front + [op];
      LiveAfter(front, op);
      hide Written, ClaimOf;
      NoSuffix(Written(front));
      if !op.Read? {
        TokenIsName(w, front, op);
      }
      TellsOneMore(ClaimOf(w, front), Written(front), |front|, op);
      CountersGrow(w, front, op);
    }
  }

  /** No write records an empty token. */
  lemma TokenIsName(w: nat, program: seq<Op>, op: Op)
    requires ValidProgram(w, program) && Proper(op, w, |program|, Live(program)) && !op.Read?
    ensures EventOf(op).token != ""
  {
    LiveNames(w, program);
    hide Live, ValidProgram;
    if op.Insert? {
      assert Name(op.worker, op.step)[0] == 'w';
    } else {
      var i :| 0 <= i < |Live(program)| && Live(program)[i] == op.name;
      assert OwnName(w, |program|, Live(program)[i]);
      var s: nat :| op.name == Name(w, s);
      assert Name(w, s)[0] == 'w';
    }
  }
}
