/** The code a client is told, from the engine's own result on: in the cached error code, in the
    result of a step, and in the result of `sqlite3_exec`. */
module Errors {
  import opened Prelude
  import opened Engine
  import opened Script
  import opened Mirror
  import opened Cursor
  import opened CursorRuns

  /** How a script ends by the engine's own answers: it is through, compiling or stepping a statement
      failed, or the script itself is at fault. */
  datatype Stop = Through | EngineFailed(code: int) | ScriptFault

  function StopOf<C, L, D>(e: Engine<C, L, D>, text: seq<C>, params: seq<Param>, conn: Conn<L, D>, db: D): Stop
    decreases |text|
  {
    match e.compile(text, conn.local, conn.View(db))
    case Failed(code) => EngineFailed(code)
    case Nothing(_) => Through
    case Statement(tail, _) =>
      var bound := BindAll(e, text, params);
      if bound.Err? then ScriptFault
      else
        var ran := e.run(text, bound.value, conn.local, conn.View(db), conn.tx.Some?);
        if ran.error.Some? then EngineFailed(ran.error.value)
        else if tail.None? || tail.value >= |text| then Through
        else if params != [] then (if HasSql(e, text[tail.value..]) then ScriptFault else Through)
        else if tail.value == 0 then Through
        else var (conn', db') := conn.Landed(db, ran); StopOf(e, text[tail.value..], params, conn', db')
  }

  /** The client's code for each: the engine's own, where 0 counts as 1, and 1 for the script's faults. */
  ghost predicate CodeFits(stop: Stop, code: int) {
    && (stop.Through? ==> code == 0)
    && (stop.EngineFailed? && stop.code != 0 ==> code == stop.code)
    && (stop.EngineFailed? && stop.code == 0 ==> code == 1)
    && (stop.ScriptFault? ==> code == 1)
  }

  function ToldCode(r: Response): int {
    Rpc(NEW_CACHE, false, Got(r)).0.errcode
  }

  lemma {:induction false} LoopStops<C, L, D>(e: Engine<C, L, D>, text: seq<C>, params: seq<Param>, conn: Conn<L, D>,
                                              db: D, table: Table)
    ensures var r := Loop(e, text, params, conn, db, false, table).result;
            var stop := StopOf(e, text, params, conn, db);
            (r.Ok? <==> stop.Through?) && (r.Err? ==> CodeFits(stop, NonZero(CodeOf(r.error))))
    decreases |text|
  {
    BindFaults(e, text, params);
    hide BindAll, HasSql, RowsOf;
    var t := OneTurn(e, text, params, conn, db, false, table);
    if t.result.None? {
      LoopStops(e, text[t.next..], params, t.conn, t.db, t.table);
    }
  }

  /** After an Exec the cached code is 0 exactly on success; otherwise it is the code the engine failed
      with at compiling or stepping, 1 for a fault of the script, and 5 if another connection had a lock. */
  lemma ExecCode<C, L, D>(e: Engine<C, L, D>, text: seq<C>, params: seq<Param>, conn: Conn<L, D>, db: D, busy: bool,
                          c: Cache)
    ensures var response := Execute(e, text, params, conn, db, busy).response;
            var (c', r) := Rpc(c, false, Got(response));
            var stop := StopOf(e, text, params, conn, db);
            && (HasNul(e, text) ==> c'.errcode == 1)
            && (!HasNul(e, text) && busy ==> c'.errcode == 5)
            && (!HasNul(e, text) && !busy ==> CodeFits(stop, c'.errcode) && (r.Some? <==> stop.Through?))
  {
    LoopStops(e, text, params, conn, db, Table([], []));
    if !HasNul(e, text) && busy {
      assert Loop(e, text, params, conn, db, busy, Table([], [])).result == Err(Busy);
    }
    hide Loop, StopOf;
  }

  /** So it is after a Prepare, which only compiles. */
  lemma PrepareCode<C, L, D>(e: Engine<C, L, D>, text: seq<C>, conn: Conn<L, D>, db: D, busy: bool, c: Cache)
    ensures var (c', r) := Rpc(c, false, Got(Prepared(e, text, conn, db, busy)));
            var compiled := e.compile(text, conn.local, conn.View(db));
            && (HasNul(e, text) ==> c'.errcode == 1)
            && (!HasNul(e, text) && busy ==> c'.errcode == 5)
            && (!HasNul(e, text) && !busy && compiled.Failed? && compiled.code != 0 ==> c'.errcode == compiled.code)
            && (!HasNul(e, text) && !busy && compiled.Failed? && compiled.code == 0 ==> c'.errcode == 1)
            && (!HasNul(e, text) && !busy && !compiled.Failed? ==> c'.errcode == 0)
            && (c'.errcode == 0 <==> r.Some?)
  {
  }

  /** A step whose Exec failed in the engine answers the engine's code, and so does every later one until
      a reset, whatever the broker would answer then. */
  lemma StepCode<C, L, D>(e: Engine<C, L, D>, text: seq<C>, s: Stmt, conn: Conn<L, D>, db: D, c: Cache,
                          later: seq<Reply>)
    requires Sound(s) && !s.started && !HasNul(e, text)
    ensures var stop := StopOf(e, text, s.params, conn, db);
            var response := Execute(e, text, s.params, conn, db, false).response;
            var reply := Shown(c, Got(response)).1;
            var codes := Run(s, Steps([reply] + later)).1;
            && |codes| == 1 + |later|
            && (!stop.Through? ==> forall k | 0 <= k < |codes| :: CodeFits(stop, codes[k]))
            && (stop.Through? ==> forall k | 0 <= k < |codes| :: codes[k] == if k < |response.rows| then 100 else 101)
  {
    ExecCode(e, text, s.params, conn, db, false, c);
    hide StopOf, Execute;
    var reply := Shown(c, Got(Execute(e, text, s.params, conn, db, false).response)).1;
    StepsYield(s, [reply] + later);
    assert ([reply] + later)[0] == reply;
    hide Run, Steps, Sound;
  }

  // ---------- sqlite3_exec ----------

  /** The result of `sqlite3_exec`. Some row callback may ask to stop. */
  function ExecResult(c: Cache, t: Transport, aborts: bool): (Cache, int) {
    var (c', r) := Rpc(c, false, t);
    if r.Some? then (if aborts then (Aborted(r.value), SQLITE_ABORT) else (c', SQLITE_OK))
    else (c', if c'.errcode == 0 then SQLITE_ERROR else c'.errcode)
  }

  /** It answers 0 on success, 4 if a callback stopped it, and otherwise the engine's code, 1 for a fault
      of the script or a lost call; the cache holds the same code. */
  lemma ExecAnswers<C, L, D>(e: Engine<C, L, D>, text: seq<C>, conn: Conn<L, D>, db: D, c: Cache, aborts: bool)
    requires !HasNul(e, text)
    ensures var (c', code) := ExecResult(c, Got(Execute(e, text, [], conn, db, false).response), aborts);
            var stop := StopOf(e, text, [], conn, db);
            && c'.errcode == code
            && if stop.Through? && aborts then code == 4 else CodeFits(stop, code)
    ensures ExecResult(c, Lost, aborts) == (c.(errcode := 1), 1)
  {
    ExecCode(e, text, [], conn, db, false, c);
    hide StopOf, Execute;
  }
}
