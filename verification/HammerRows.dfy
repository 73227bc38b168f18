/** The two tables of the load driver tell the same story: the events of a name say whether its row is
    there and how often it was edited. */
module HammerRows {
  import opened Prelude
  import opened Names
  import opened Hammer
  import opened HammerAudit

  /** How many events of a kind record a token. */
  function Records(events: seq<EventRow>, kind: Kind, token: string): nat {
    if events == [] then 0
    else
      var row := events[|events| - 1];
      Records(events[..|events| - 1], kind, token) + if row.kind == kind && row.token == token then 1 else 0
  }

  lemma OneMoreRecord(events: seq<EventRow>, row: EventRow, kind: Kind, token: string)
    ensures Records(events + [row], kind, token) ==
            Records(events, kind, token) + if row.kind == kind && row.token == token then 1 else 0
  {
    assert (events + [row])[..|events|] == events;
  }

  lemma {:induction false} NeverRecorded(events: seq<EventRow>, kind: Kind, token: string)
    requires forall i | 0 <= i < |events| :: events[i].token != token
    ensures Records(events, kind, token) == 0
  {
    if events != [] {
      NeverRecorded(events[..|events| - 1], kind, token);
    }
  }

  ghost predicate Listed(items: seq<Item>, name: string) {
    exists i | 0 <= i < |items| :: items[i].name == name
  }

  /** A row is there if and only if its insert is recorded and its delete is not, and it was edited as
      often as updates of its name are recorded. */
  ghost predicate TablesTell(t: Tables) {
    && (forall name: string ::
          Listed(t.items, name) <==>
          Records(t.events, Inserted, name) > 0 && Records(t.events, Deleted, name) == 0)
    && (forall i | 0 <= i < |t.items| :: t.items[i].edits == Records(t.events, Updated, t.items[i].name))
  }

  /** Every recorded token is a name its worker made before the number of steps it has taken. */
  ghost predicate TokensOwn(t: Tables, order: seq<Op>) {
    forall i | 0 <= i < |t.events| ::
      OwnName(t.events[i].worker, |Projection(order, t.events[i].worker)|, t.events[i].token)
  }

  // ---------- the item table ----------

  lemma {:induction false} EditedRows(items: seq<Item>, name: string, i: nat)
    requires i < |items|
    ensures Edited(items, name)[i] == if items[i].name == name then items[i].(edits := items[i].edits + 1) else items[i]
  {
    if i > 0 {
      EditedRows(items[1..], name, i - 1);
    }
  }

  lemma {:induction false} WithoutRows(items: seq<Item>, name: string)
    ensures forall x :: x in Without(items, name) <==> x in items && x.name != name
  {
    if items != [] {
      WithoutRows(items[1..], name);
      assert items == [items[0]] + items[1..];
    }
  }

  // ---------- one turn ----------

  /** A name of an insert to come is neither listed nor recorded. */
  lemma NewNameIsUnknown(order: seq<Op>, op: Op)
    requires Interleaves(order + [op]) && op.Insert? && TokensOwn(ApplyAll(EMPTY, order), order)
    ensures var (t, name) := (ApplyAll(EMPTY, order), Name(op.worker, op.step));
            && !Listed(t.items, name)
            && forall kind :: Records(t.events, kind, name) == 0
  {
    var t, name := ApplyAll(EMPTY, order), Name(op.worker, op.step);
    NoConflict(order, op);
    BeforeTurn(order, op);
    hide ApplyAll, Interleaves, Projection, Name, OwnName, ValidProgram;
    forall i | 0 <= i < |t.events| ensures t.events[i].token != name {
      TokenIsOther(t.events[i].worker, |Projection(order, t.events[i].worker)|, t.events[i].token, op.worker, op.step);
    }
    forall kind ensures Records(t.events, kind, name) == 0 {
      NeverRecorded(t.events, kind, name);
    }
  }

  lemma TokenIsOther(v: nat, n: nat, token: string, w: nat, step: nat)
    requires OwnName(v, n, token) && (v == w ==> n <= step)
    ensures token != Name(w, step)
  {
    hide Name;
    var s: nat :| s < n && token == Name(v, s);
    if token == Name(w, step) {
      NameInjective(v, s, w, step);
    }
  }

  lemma InsertTells(t: Tables, op: Op)
    requires TablesTell(t) && op.Insert?
    requires var name := Name(op.worker, op.step);
             !Listed(t.items, name) && forall kind :: Records(t.events, kind, name) == 0
    ensures TablesTell(Apply(t, op))
  {
    hide Name, Records;
    var t', row := Apply(t, op), EventOf(op);
    forall kind, token ensures Records(t'.events, kind, token) ==
        Records(t.events, kind, token) + if kind == Inserted && token == row.token then 1 else 0 {
      OneMoreRecord(t.events, row, kind, token);
    }
    forall name: string ensures Listed(t'.items, name) <==> Listed(t.items, name) || name == row.token {
      assert t'.items[|t.items|].name == row.token;
      assert forall i | 0 <= i < |t.items| :: t'.items[i] == t.items[i];
    }
    forall i | 0 <= i < |t'.items| ensures t'.items[i].edits == Records(t'.events, Updated, t'.items[i].name) {
      if i < |t.items| {
        assert t'.items[i] == t.items[i];
      }
    }
  }

  lemma UpdateTells(t: Tables, op: Op)
    requires TablesTell(t) && op.Update?
    ensures TablesTell(Apply(t, op))
  {
    hide Name, Records, Edited;
    var t', row := Apply(t, op), EventOf(op);
    forall kind, token ensures Records(t'.events, kind, token) ==
        Records(t.events, kind, token) + if kind == Updated && token == op.name then 1 else 0 {
      OneMoreRecord(t.events, row, kind, token);
    }
    forall i | 0 <= i < |t.items|
      ensures t'.items[i].name == t.items[i].name
      ensures t'.items[i].edits == t.items[i].edits + if t.items[i].name == op.name then 1 else 0
    {
      EditedRows(t.items, op.name, i);
    }
    forall name: string ensures Listed(t'.items, name) <==> Listed(t.items, name) {
      assert |t'.items| == |t.items|;
    }
  }

  lemma DeleteTells(t: Tables, op: Op)
    requires TablesTell(t) && op.Delete?
    ensures TablesTell(Apply(t, op))
  {
    hide Name, Records, Without;
    var t', row := Apply(t, op), EventOf(op);
    forall kind, token ensures Records(t'.events, kind, token) ==
        Records(t.events, kind, token) + if kind == Deleted && token == op.name then 1 else 0 {
      OneMoreRecord(t.events, row, kind, token);
    }
    WithoutRows(t.items, op.name);
    forall name: string ensures Listed(t'.items, name) <==> Listed(t.items, name) && name != op.name {
      ListedWithout(t.items, t'.items, op.name, name);
    }
    forall i | 0 <= i < |t'.items| ensures t'.items[i].edits == Records(t'.events, Updated, t'.items[i].name) {
      assert t'.items[i] in t'.items;
      var j :| 0 <= j < |t.items| && t.items[j] == t'.items[i];
    }
  }

  lemma ListedWithout(items: seq<Item>, items': seq<Item>, gone: string, name: string)
    requires forall x :: x in items' <==> x in items && x.name != gone
    ensures Listed(items', name) <==> Listed(items, name) && name != gone
  {
    if Listed(items', name) {
      var i :| 0 <= i < |items'| && items'[i].name == name;
      assert items'[i] in items';
      var j :| 0 <= j < |items| && items[j] == items'[i];
    }
    if Listed(items, name) && name != gone {
      var j :| 0 <= j < |items| && items[j].name == name;
      assert items[j] in items';
      var i :| 0 <= i < |items'| && items'[i] == items[j];
    }
  }

  // ---------- every interleaving ----------

  lemma EventsAfter(t: Tables, op: Op)
    ensures Apply(t, op).events == t.events + if op.Read? then [] else [EventOf(op)]
  {
    hide Name, Edited, Without;
    NoSuffix(t.events);
  }

  lemma ApplyLast(order: seq<Op>, op: Op)
    ensures ApplyAll(EMPTY, order + [op]) == Apply(ApplyAll(EMPTY, order), op)
  {
    assert (order + [op])[..|order + [op]| - 1] == order;
    hide Apply;
  }

  lemma ProjectionLonger(order: seq<Op>, op: Op, w: nat)
    ensures |Projection(order + [op], w)| == |Projection(order, w)| + if op.worker == w then 1 else 0
  {
    assert (order + [op])[..|order + [op]| - 1] == order;
  }

  lemma TokensStayOwn(order: seq<Op>, op: Op)
    requires Interleaves(order + [op]) && TokensOwn(ApplyAll(EMPTY, order), order)
    ensures TokensOwn(ApplyAll(EMPTY, order + [op]), order + [op])
  {
    hide ApplyAll, Apply, Interleaves, Projection, OwnName, EventOf;
    var t, t' := ApplyAll(EMPTY, order), ApplyAll(EMPTY, order + [op]);
    ApplyLast(order, op);
    EventsAfter(t, op);
    if !op.Read? {
      TurnToken(order, op);
    }
    forall i | 0 <= i < |t'.events|
      ensures OwnName(t'.events[i].worker, |Projection(order + [op], t'.events[i].worker)|, t'.events[i].token)
    {
      ProjectionLonger(order, op, t'.events[i].worker);
      if i < |t.events| {
        assert t'.events[i] == t.events[i];
        if t.events[i].worker == op.worker {
          OwnNameLater(op.worker, |Projection(order, op.worker)|, t.events[i].token);
        }
      }
    }
  }

  /** A turn records a name its worker has made by then. */
  lemma TurnToken(order: seq<Op>, op: Op)
    requires Interleaves(order + [op]) && !op.Read?
    ensures OwnName(op.worker, |Projection(order, op.worker)| + 1, EventOf(op).token)
    ensures EventOf(op).worker == op.worker
  {
    var w, program := op.worker, Projection(order, op.worker);
    InterleavesFront(order + [op]);
    assert (order + [op])[..|order|] == order;
    ProjectionIsValid(order, w);
    LiveNames(w, program);
    hide Interleaves, Name, ValidProgram, Live, Projection, OwnName;
    if op.Insert? {
      InsertedName(w, |program|);
    } else {
      var i :| 0 <= i < |Live(program)| && Live(program)[i] == op.name;
      OwnNameLater(w, |program|, op.name);
    }
  }

  lemma InsertedName(w: nat, n: nat)
    ensures OwnName(w, n + 1, Name(w, n))
  {
  }

  /** After any interleaving of turns, of any number of workers, the two tables agree. */
  lemma {:induction false} TablesAgree(order: seq<Op>)
    requires Interleaves(order)
    ensures TablesTell(ApplyAll(EMPTY, order)) && TokensOwn(ApplyAll(EMPTY, order), order)
  {
    hide Interleaves, TablesTell, TokensOwn, Apply, Name;
    if order == [] {
      NothingToTell();
    } else {
      var front, op := order[..|order| - 1], order[|order| - 1];
      InterleavesFront(order);
      TablesAgree(front);
      assert order == front + [op];
      TokensStayOwn(front, op);
      var t := ApplyAll(EMPTY, front);
      match op {
        case Insert(_, _) =>
          NewNameIsUnknown(front, op);
          InsertTells(t, op);
        case Update(_, _, _) => UpdateTells(t, op);
        case Delete(_, _, _) => DeleteTells(t, op);
        case Read(_, _) => ReadTells(t, op);
      }
    }
  }

  lemma NothingToTell()
    ensures TablesTell(EMPTY) && TokensOwn(EMPTY, [])
  {
  }

  lemma ReadTells(t: Tables, op: Op)
    requires op.Read?
    ensures Apply(t, op) == t
  {
  }
}
