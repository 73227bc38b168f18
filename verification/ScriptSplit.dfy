/** A script sent as one Exec and the same script sent piece by piece have the same effect. */
module ScriptSplit {
  import opened Prelude
  import opened Engine
  import opened Script

  function Min(a: nat, b: nat): nat {
    if a < b then a else b
  }

  /** The text of the first statement, cut the way the shim's `prepare_v2` cuts it. */
  function Piece<C>(text: seq<C>, tail: nat): seq<C>
    requires tail <= |text|
  {
    if tail == 0 then text else text[..tail]
  }

  /** What the cut relies on: a statement consumes some text, and compiling just the text it
      consumed gives that statement again and nothing behind it. */
  ghost predicate SingleStatement<C(!new), L(!new), D(!new)>(e: Engine<C, L, D>) {
    forall text: seq<C>, local: L, view: D {:trigger e.compile(text, local, view)} ::
      e.compile(text, local, view).Statement? ==> CutsAlone(e, text, local, view)
  }

  ghost predicate CutsAlone<C, L, D>(e: Engine<C, L, D>, text: seq<C>, local: L, view: D)
    requires e.compile(text, local, view).Statement?
  {
    var whole := e.compile(text, local, view);
    var piece := Piece(text, Min(TailOffset(text, whole.tail), |text|));
    var alone := e.compile(piece, local, view);
    && (whole.tail.Some? ==> whole.tail.value > 0)
    && alone.Statement? && alone.columns == whole.columns && AtEnd(piece, alone.tail)
    && (forall inTx :: e.run(piece, [], local, view, inTx) == e.run(text, [], local, view, inTx))
  }

  /** A client that prepares the first statement, runs exactly that piece, and goes on with the
      tail, until a failure or until no statement remains. */
  function Split<C, L, D>(e: Engine<C, L, D>, text: seq<C>, conn: Conn<L, D>, db: D, table: Table): Outcome<C, L, D>
    decreases |text|
  {
    var meta := Prepared(e, text, conn, db, false);
    if meta.fault.Some? then Outcome(conn, db, Err(meta.fault.value), [])
    else if meta.empty then Outcome(conn, db, Ok(table), [])
    else
      var tail := Min(meta.tail, |text|);
      var x := RunScript(e, Piece(text, tail), [], conn, db, false);
      if x.result.Err? then x
      else
        var table' := Table(if table.columns == [] then x.result.value.columns else table.columns,
                            table.rows + x.result.value.rows);
        if tail == 0 || tail == |text| then Outcome(x.conn, x.db, Ok(table'), x.steps)
        else Prefixed(x.steps, Split(e, text[tail..], x.conn, x.db, table'))
  }

  ghost predicate SameEffect<C, L, D>(a: Outcome<C, L, D>, b: Outcome<C, L, D>)
  {
    a.conn == b.conn && a.db == b.db && a.result == b.result
  }

  /** Running the cut piece alone is one turn of the loop. */
  lemma PieceIsOneTurn<C(!new), L(!new), D(!new)>(e: Engine<C, L, D>, text: seq<C>, conn: Conn<L, D>, db: D,
                         table: Table)
    requires SingleStatement(e) && !HasNul(e, text)
    requires e.compile(text, conn.local, conn.View(db)).Statement?
    ensures var t := OneTurn(e, text, [], conn, db, false, table);
            var whole := e.compile(text, conn.local, conn.View(db));
            var tail := Min(TailOffset(text, whole.tail), |text|);
            var x := RunScript(e, Piece(text, tail), [], conn, db, false);
            && x.conn == t.conn && x.db == t.db
            && (x.result.Err? ==> t.result == Some(x.result))
            && (x.result.Ok? ==>
                && t.table == Table(if table.columns == [] then x.result.value.columns else table.columns,
                                    table.rows + x.result.value.rows)
                && (if tail == 0 || tail == |text| then t.result == Some(Ok(t.table))
                    else t.result.None? && t.next == tail))
  {
    var whole := e.compile(text, conn.local, conn.View(db));
    assert CutsAlone(e, text, conn.local, conn.View(db));
    var piece := Piece(text, Min(TailOffset(text, whole.tail), |text|));
    assert !HasNul(e, piece);
    var ran := StepOf(e, text, [], conn, db).ran;
    assert StepOf(e, piece, [], conn, db).ran == ran;
    assert [] + RowsOf(ran.rows) == RowsOf(ran.rows);
  }

  lemma {:induction false} SplitFollowsLoop<C(!new), L(!new), D(!new)>(
    e: Engine<C, L, D>, text: seq<C>, conn: Conn<L, D>, db: D, table: Table)
    requires SingleStatement(e) && !HasNul(e, text)
    ensures SameEffect(Split(e, text, conn, db, table), Loop(e, text, [], conn, db, false, table))
    decreases |text|
  {
    var compiled := e.compile(text, conn.local, conn.View(db));
    if compiled.Statement? {
      PieceIsOneTurn(e, text, conn, db, table);
      hide OneTurn, RunScript;
      var t := OneTurn(e, text, [], conn, db, false, table);
      if t.result.None? {
        SplitFollowsLoop(e, text[t.next..], t.conn, t.db, t.table);
      }
    }
  }

  /** One Exec of a whole script and the piecewise run of it, with nothing in between, end in the
      same connection and database, with the same rows or with the same failing statement. */
  lemma ScriptEqualsPieces<C(!new), L(!new), D(!new)>(e: Engine<C, L, D>, text: seq<C>, conn: Conn<L, D>, db: D)
    requires SingleStatement(e)
    ensures SameEffect(Split(e, text, conn, db, Table([], [])), RunScript(e, text, [], conn, db, false))
  {
    if !HasNul(e, text) {
      SplitFollowsLoop(e, text, conn, db, Table([], []));
    }
  }
}
