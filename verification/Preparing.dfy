/** `sqlite3_prepare_v2` from the engine's compile result to the new statement: its text, its columns,
    its tail and its code. */
module Preparing {
  import opened Prelude
  import opened Engine
  import opened Script
  import opened ScriptSplit
  import opened Mirror
  import opened Cursor
  import opened CursorRuns
  import H = Handles
  import E = Errors

  /** What the caller gets: the code, the text and the statement made, if any, and the offset of the
      tail pointer in the text. */
  datatype Made<C> = Made(code: int, stmt: Option<(seq<C>, Stmt)>, tail: nat)

  /** For a text that ends with a NUL. If the call fails the tail pointer stands at the end. */
  function PrepareV2<C>(text: seq<C>, c: Cache, t: Transport): (Cache, Made<C>) {
    var (c', r) := Rpc(c, false, t);
    if r.None? then (c', Made(c'.errcode, None, |text|))
    else
      var tail := Min(r.value.tail, |text|);
      var stmt := if r.value.empty then None else Some((Piece(text, tail), NewStmt(r.value.columns)));
      (c', Made(SQLITE_OK, stmt, tail))
  }

  /** What the broker said, as the registries take it. */
  function MetaOf<C>(m: Made<C>): H.Meta {
    if m.code != SQLITE_OK then H.Refused(m.code) else if m.stmt.None? then H.NoStatement else H.OneStatement
  }

  // ---------- what a prepared statement is ----------

  /** The answer to a Prepare, from the engine's compile result: the columns of a statement are the
      engine's, there are never rows, and the tail is the engine's or the end of the text. */
  lemma PreparedTells<C, L, D>(e: Engine<C, L, D>, text: seq<C>, conn: Conn<L, D>, db: D)
    requires !HasNul(e, text)
    ensures var r, compiled := Prepared(e, text, conn, db, false), e.compile(text, conn.local, conn.View(db));
            && (r.fault.Some? <==> compiled.Failed?) && r.rows == [] && (r.autocommit <==> conn.tx.None?)
            && (compiled.Failed? ==> r.columns == [] && r.tail == 0 && !r.empty)
            && (compiled.Statement? ==> r.columns == compiled.columns && !r.empty)
            && (compiled.Nothing? ==> r.columns == [] && r.empty)
            && (!compiled.Failed? ==> r.tail == if compiled.tail.None? then |text| else compiled.tail.value)
  {
  }

  /** What the client gets. A statement has the engine's columns, the text up to the engine's tail, no
      bindings, and stands before its first step; the tail pointer stands behind that text. */
  lemma PrepareMakes<C, L, D>(e: Engine<C, L, D>, text: seq<C>, conn: Conn<L, D>, db: D, c: Cache)
    requires !HasNul(e, text)
    ensures var m := PrepareV2(text, c, Got(Prepared(e, text, conn, db, false))).1;
            var compiled := e.compile(text, conn.local, conn.View(db));
            && m.tail <= |text|
            && (compiled.Failed? ==> m.stmt.None? && m.tail == |text|)
            && (compiled.Failed? ==> m.code == (if compiled.code == 0 then 1 else compiled.code))
            && (!compiled.Failed? ==>
                && m.code == 0
                && m.tail == (if compiled.tail.None? || compiled.tail.value > |text| then |text|
                    else compiled.tail.value))
            && (compiled.Nothing? ==> m.stmt.None?)
            && (compiled.Statement? ==>
                && m.stmt.Some?
                && m.stmt.value.0 == (if m.tail == 0 then text else text[..m.tail])
                && m.stmt.value.1.columns == compiled.columns
                && Sound(m.stmt.value.1) && Abs(m.stmt.value.1) == Plain(map[], Idle, []))
  {
    PreparedTells(e, text, conn, db);
    E.PrepareCode(e, text, conn, db, false, c);
    var r := Prepared(e, text, conn, db, false);
    NewIsSound(r.columns);
    hide Sound, Abs;
  }

  /** The columns announced when a statement is prepared are those its Exec answers, whatever is bound,
      and so those the statement has after a successful step. */
  lemma ColumnsAsAnnounced<C(!new), L(!new), D(!new)>(e: Engine<C, L, D>, text: seq<C>, conn: Conn<L, D>, db: D,
                                                      c: Cache, params: seq<Param>)
    requires SingleStatement(e) && !HasNul(e, text)
    requires PrepareV2(text, c, Got(Prepared(e, text, conn, db, false))).1.stmt.Some?
    ensures var (cut, stmt) := PrepareV2(text, c, Got(Prepared(e, text, conn, db, false))).1.stmt.value;
            var response := Execute(e, cut, params, conn, db, false).response;
            var stepped := Cursor.Step(stmt.(params := params), Shown(c, Got(response)).1).0;
            && (response.fault.None? ==> response.columns == stmt.columns)
            && stepped.columns == stmt.columns
  {
    PrepareMakes(e, text, conn, db, c);
    assert CutsAlone(e, text, conn.local, conn.View(db));
    var (cut, stmt) := PrepareV2(text, c, Got(Prepared(e, text, conn, db, false))).1.stmt.value;
    assert e.compile(cut, conn.local, conn.View(db)).columns == stmt.columns;
    LoneColumns(e, cut, params, conn, db);
    hide Execute, Prepared, SingleStatement;
  }

  /** A script of one statement answers with that statement's columns. */
  lemma LoneColumns<C, L, D>(e: Engine<C, L, D>, text: seq<C>, params: seq<Param>, conn: Conn<L, D>, db: D)
    requires e.compile(text, conn.local, conn.View(db)).Statement?
    requires AtEnd(text, e.compile(text, conn.local, conn.View(db)).tail)
    ensures var r := Execute(e, text, params, conn, db, false).response;
            r.fault.None? ==> r.columns == e.compile(text, conn.local, conn.View(db)).columns
  {
    hide BindAll, HasSql, RowsOf;
  }

  /** The registries answer with the code of the call, and link a statement exactly if one was made. */
  lemma RegistryFollows<C>(s: H.Shim, db: H.Handle, m: Made<C>, raw: H.Handle)
    requires H.Sound(s) && H.FreshAddress(s, raw) && db in s.dbs && !s.dbs[db].closed
    requires m.stmt.Some? ==> m.code == 0
    ensures var (s', answer) := H.Prepare(s, db, MetaOf(m), raw);
            && answer == H.Statement(m.code, if m.stmt.Some? then raw else 0)
            && (raw in s'.owner <==> m.stmt.Some?)
  {
  }
}
