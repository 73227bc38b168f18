/** Running a whole script on one connection, and compiling its first statement. */
module Script {
  import opened Prelude
  import opened Engine
  import B = Base64

  datatype Table = Table(columns: seq<string>, rows: seq<seq<Cell>>)

  /** One statement that was run: the text it was compiled from, its bindings, the private state
      it started from, whether a transaction was open, and what it did. */
  datatype Step<C, L, D> = Step(text: seq<C>, binds: seq<Bind>, local: L, inTx: bool, ran: Ran<L, D>)

  datatype Outcome<C, L, D> = Outcome(conn: Conn<L, D>, db: D, result: Result<Table, Fault>, steps: seq<Step<C, L, D>>)

  function NonZero(code: int): int {
    if code == 0 then SQLITE_ERROR else code
  }

  // ---------- binding ----------

  function BindAll<C, L, D>(e: Engine<C, L, D>, text: seq<C>, params: seq<Param>): Result<seq<Bind>, Fault> {
    if params == [] then Ok([]) else
    var v := ValueOf(params[0].cell);
    if v.None? || !e.accepts(text, Bind(params[0].index, v.value)) then Err(BadBind) else
    match BindAll(e, text, params[1..])
    case Err(f) => Err(f)
    case Ok(rest) => Ok([Bind(params[0].index, v.value)] + rest)
  }

  ghost function Following(done: seq<Bind>, rest: Result<seq<Bind>, Fault>): Result<seq<Bind>, Fault> {
    match rest
    case Err(f) => Err(f)
    case Ok(binds) => Ok(done + binds)
  }

  method BindParams<C, L, D>(e: Engine<C, L, D>, text: seq<C>, params: seq<Param>) returns (r: Result<seq<Bind>, Fault>)
    ensures r == BindAll(e, text, params)
  {
    var done: seq<Bind> := [];
    assert params[0..] == params;
    FollowingNothing(BindAll(e, text, params));
    for i := 0 to |params|
      invariant BindAll(e, text, params) == Following(done, BindAll(e, text, params[i..]))
    {
      assert params[i..][1..] == params[i + 1..];
      var v: Value;
      match params[i].cell {
        case NullCell => v := Null;
        case IntCell(n) => v := Int(n);
        case RealCell(x) => v := Real(x);
        case TextCell(t) =>
          if '\0' in t {
            return Err(BadBind);
          }
          v := Text(t);
        case BlobCell(b64) =>
          var bytes := B.DecodeBase64(b64);
          if bytes.None? {
            return Err(BadBind);
          }
          v := if bytes.value == [] then Null else Blob(bytes.value);
      }
      var bind := Bind(params[i].index, v);
      if !e.accepts(text, bind) {
        return Err(BadBind);
      }
      FollowingTwice(done, bind, BindAll(e, text, params[i + 1..]));
      done := done + [bind];
    }
    assert params[|params|..] == [] && done + [] == done;
    r := Ok(done);
  }

  lemma FollowingNothing(rest: Result<seq<Bind>, Fault>)
    ensures Following([], rest) == rest
  {
    if rest.Ok? {
      assert [] + rest.value == rest.value;
    }
  }

  lemma FollowingTwice(done: seq<Bind>, bind: Bind, rest: Result<seq<Bind>, Fault>)
    ensures Following(done, Following([bind], rest)) == Following(done + [bind], rest)
  {
    if rest.Ok? {
      assert done + ([bind] + rest.value) == done + [bind] + rest.value;
    }
  }

  /** A parameter whose cell has a value that the engine accepts for it. */
  predicate Bindable<C, L, D>(e: Engine<C, L, D>, text: seq<C>, p: Param) {
    ValueOf(p.cell).Some? && e.accepts(text, Bind(p.index, ValueOf(p.cell).value))
  }

  /** Binding succeeds exactly if every parameter can be bound, and then the engine is given each value
      for its index, in order. */
  lemma {:induction false} BindAllMeans<C, L, D>(e: Engine<C, L, D>, text: seq<C>, params: seq<Param>)
    ensures BindAll(e, text, params).Ok? <==> forall k | 0 <= k < |params| :: Bindable(e, text, params[k])
    ensures BindAll(e, text, params).Ok? ==>
              var binds := BindAll(e, text, params).value;
              |binds| == |params| && forall k | 0 <= k < |params| ::
                binds[k].index == params[k].index && Some(binds[k].value) == ValueOf(params[k].cell)
  {
    if params != [] {
      var rest := params[1..];
      BindAllMeans(e, text, rest);
      hide ValueOf;
      assert forall k | 0 <= k < |rest| :: rest[k] == params[k + 1];
      assert forall k | 0 < k < |params| :: params[k] == rest[k - 1];
    }
  }

  // ---------- the statement loop ----------

  predicate AtEnd<C>(text: seq<C>, tail: Option<nat>) {
    tail.None? || tail.value >= |text|
  }

  predicate HasSql<C, L, D>(e: Engine<C, L, D>, text: seq<C>) {
    exists i | 0 <= i < |text| :: !e.space(text[i])
  }

  /** One turn of the loop. `result` is set when the loop stops here; otherwise `next` is the
      offset, from this text, of the next statement. */
  datatype Turn<C, L, D> = Turn(conn: Conn<L, D>, db: D, table: Table, steps: seq<Step<C, L, D>>,
                                result: Option<Result<Table, Fault>>, next: nat)

  /** What the loop does with the statement at the front of `text`, having collected `table`.
      `busy` says that some other connection holds a lock, in which case SQLite refuses. */
  function OneTurn<C, L, D>(e: Engine<C, L, D>, text: seq<C>, params: seq<Param>,
                            conn: Conn<L, D>, db: D, busy: bool, table: Table): (t: Turn<C, L, D>)
    ensures t.result.None? ==> 0 < t.next < |text|
  {
    if busy then Turn(conn, db, table, [], Some(Err(Busy)), 0) else
    match e.compile(text, conn.local, conn.View(db))
    case Failed(code) => Turn(conn, db, table, [], Some(Err(Sqlite(NonZero(code)))), 0)
    case Nothing(_) => Turn(conn, db, table, [], Some(Ok(table)), 0)
    case Statement(tail, columns) =>
      match BindAll(e, text, params)
      case Err(f) => Turn(conn, db, table, [], Some(Err(f)), 0)
      case Ok(binds) =>
        var step := StepOf(e, text, binds, conn, db);
        var (conn', db') := conn.Landed(db, step.ran);
        var table' := Table(if table.columns == [] then columns else table.columns, table.rows + RowsOf(step.ran.rows));
        var stop :=
          if step.ran.error.Some? then Some(Err(Sqlite(NonZero(step.ran.error.value))))
          else if AtEnd(text, tail) then Some(Ok(table'))
          else if params != [] then Some(if HasSql(e, text[tail.value..]) then Err(TrailingSql) else Ok(table'))
          else if tail.value == 0 then Some(Ok(table'))
          else None;
        Turn(conn', db', table', [step], stop, if stop.None? then tail.value else 0)
  }

  /** What the loop still does from `text` on. */
  function Loop<C, L, D>(e: Engine<C, L, D>, text: seq<C>, params: seq<Param>,
                         conn: Conn<L, D>, db: D, busy: bool, table: Table): Outcome<C, L, D>
    decreases |text|
  {
    var t := OneTurn(e, text, params, conn, db, busy, table);
    if t.result.Some? then Outcome(t.conn, t.db, t.result.value, t.steps)
    else Prefixed(t.steps, Loop(e, text[t.next..], params, t.conn, t.db, busy, t.table))
  }

  function Prefixed<C, L, D>(steps: seq<Step<C, L, D>>, o: Outcome<C, L, D>): Outcome<C, L, D> {
    o.(steps := steps + o.steps)
  }

  function StepOf<C, L, D>(e: Engine<C, L, D>, text: seq<C>, binds: seq<Bind>, conn: Conn<L, D>, db: D): Step<C, L, D> {
    Step(text, binds, conn.local, conn.tx.Some?, e.run(text, binds, conn.local, conn.View(db), conn.tx.Some?))
  }

  predicate HasNul<C, L, D>(e: Engine<C, L, D>, text: seq<C>) {
    exists i | 0 <= i < |text| :: e.nul(text[i])
  }

  function RunScript<C, L, D>(e: Engine<C, L, D>, text: seq<C>, params: seq<Param>,
                              conn: Conn<L, D>, db: D, busy: bool): Outcome<C, L, D>
  {
    if HasNul(e, text) then Outcome(conn, db, Err(EmbeddedNul), [])
    else Loop(e, text, params, conn, db, busy, Table([], []))
  }

  /** Steps one compiled statement to its end, collecting its rows, and finalises it. */
  method StepToEnd<C, L, D>(e: Engine<C, L, D>, text: seq<C>, binds: seq<Bind>, conn0: Conn<L, D>, db0: D,
                            rows0: seq<seq<Cell>>)
    returns (conn: Conn<L, D>, db: D, rows: seq<seq<Cell>>, error: Option<int>)
    requires conn0.open > 0
    ensures var ran := StepOf(e, text, binds, conn0, db0).ran;
            && conn == conn0.Landed(db0, ran).0.Finalized() && db == conn0.Landed(db0, ran).1
            && rows == rows0 + RowsOf(ran.rows) && error == ran.error
  {
    var ran := e.run(text, binds, conn0.local, conn0.View(db0), conn0.tx.Some?);
    rows := rows0;
    for k := 0 to |ran.rows|
      invariant rows == rows0 + RowsOf(ran.rows[..k])
    {
      assert ran.rows[..k + 1] == ran.rows[..k] + [ran.rows[k]];
      RowsOfAppend(ran.rows[..k], [ran.rows[k]]);
      rows := rows + [RowOf(ran.rows[k])];
    }
    assert ran.rows[..|ran.rows|] == ran.rows;
    var landed := conn0.Landed(db0, ran);
    conn, db, error := landed.0.Finalized(), landed.1, ran.error;
  }

  /** Compiles, binds, steps and finalises the statement at `offset`, then looks at the tail. */
  method TakeTurn<C, L, D>(e: Engine<C, L, D>, text: seq<C>, params: seq<Param>,
                           conn0: Conn<L, D>, db0: D, busy: bool, table0: Table)
    returns (t: Turn<C, L, D>)
    ensures t == OneTurn(e, text, params, conn0, db0, busy, table0)
  {
    hide BindAll, HasSql;
    if busy {
      return Turn(conn0, db0, table0, [], Some(Err(Busy)), 0);
    }
    var conn, db, columns, rows := conn0, db0, table0.columns, table0.rows;
    var limit := |text| + 1;
    var compiled := e.compile(text, conn.local, conn.View(db));
    if compiled.Failed? {
      return Turn(conn, db, table0, [], Some(Err(Sqlite(NonZero(compiled.code)))), 0);
    }
    if compiled.Nothing? {
      return Turn(conn, db, table0, [], Some(Ok(table0)), 0);
    }
    conn := conn.Opened();
    var bound: Result<seq<Bind>, Fault> := Ok([]);
    NoBinds(e, text);
    if params != [] {
      bound := BindParams(e, text, params);
      if bound.Err? {
        conn := conn.Finalized();
        return Turn(conn, db, table0, [], Some(Err(bound.error)), 0);
      }
    }
    if columns == [] {
      columns := compiled.columns;
    }
    var error: Option<int>;
    conn, db, rows, error := StepToEnd(e, text, bound.value, conn, db, rows);
    var steps := [StepOf(e, text, bound.value, conn0, db0)];
    var table := Table(columns, rows);
    if error.Some? {
      return Turn(conn, db, table, steps, Some(Err(Sqlite(NonZero(error.value)))), 0);
    }
    if AtEnd(text, compiled.tail) {
      return Turn(conn, db, table, steps, Some(Ok(table)), 0);
    }
    var tail := compiled.tail.value;
    if params != [] {
      var r := if HasSql(e, text[tail..]) then Err(TrailingSql) else Ok(table);
      return Turn(conn, db, table, steps, Some(r), 0);
    }
    if tail <= 0 || tail > limit {
      return Turn(conn, db, table, steps, Some(Ok(table)), 0);
    }
    t := Turn(conn, db, table, steps, None, tail);
  }

  /** The broker's loop over the statements of a script. */
  method ExecuteInner<C, L, D>(e: Engine<C, L, D>, text: seq<C>, params: seq<Param>, conn0: Conn<L, D>, db0: D,
                               busy: bool)
    returns (conn: Conn<L, D>, db: D, r: Result<Table, Fault>, ghost steps: seq<Step<C, L, D>>)
    ensures var o := RunScript(e, text, params, conn0, db0, busy); conn == o.conn && db == o.db && r == o.result
    ensures steps == RunScript(e, text, params, conn0, db0, busy).steps
    ensures conn.open == conn0.open
  {
    hide HasNul, OneTurn;
    EveryPathFinalises(e, text, params, conn0, db0, busy);
    conn, db, steps := conn0, db0, [];
    if HasNul(e, text) {
      return conn, db, Err(EmbeddedNul), steps;
    }
    var table := Table([], []);
    var offset := 0;
    assert text[0..] == text;
    ghost var whole := RunScript(e, text, params, conn0, db0, busy);
    while true
      invariant 0 <= offset <= |text|
      invariant whole == Prefixed(steps, Loop(e, text[offset..], params, conn, db, busy, table))
      decreases |text| - offset
    {
      ghost var before := steps;
      var turn := TakeTurn(e, text[offset..], params, conn, db, busy, table);
      conn, db, table := turn.conn, turn.db, turn.table;
      steps := steps + turn.steps;
      if turn.result.Some? {
        r := turn.result.value;
        return;
      }
      assert text[offset..][turn.next..] == text[offset + turn.next..];
      offset := offset + turn.next;
      PrefixedTwice(before, turn.steps, Loop(e, text[offset..], params, conn, db, busy, table));
    }
  }

  lemma PrefixedTwice<C, L, D>(before: seq<Step<C, L, D>>, more: seq<Step<C, L, D>>, o: Outcome<C, L, D>)
    ensures Prefixed(before, Prefixed(more, o)) == Prefixed(before + more, o)
  {
    assert before + (more + o.steps) == before + more + o.steps;
  }

  lemma NoBinds<C, L, D>(e: Engine<C, L, D>, text: seq<C>)
    ensures BindAll(e, text, []) == Ok([])
  {
  }

  lemma {:induction false} LoopFinalises<C, L, D>(e: Engine<C, L, D>, text: seq<C>, params: seq<Param>,
                                                  conn: Conn<L, D>, db: D, busy: bool, table: Table)
    ensures Loop(e, text, params, conn, db, busy, table).conn.open == conn.open
    decreases |text|
  {
    var t := OneTurn(e, text, params, conn, db, busy, table);
    if t.result.None? {
      LoopFinalises(e, text[t.next..], params, t.conn, t.db, busy, t.table);
    }
  }

  lemma EveryPathFinalises<C, L, D>(e: Engine<C, L, D>, text: seq<C>, params: seq<Param>, conn: Conn<L, D>, db: D,
                                    busy: bool)
    ensures RunScript(e, text, params, conn, db, busy).conn.open == conn.open
  {
    LoopFinalises(e, text, params, conn, db, busy, Table([], []));
  }

  /** The faults a script itself can end with. */
  predicate OwnFault(f: Fault) {
    f.Sqlite? || f.EmbeddedNul? || f.BadBind? || f.TrailingSql?
  }

  lemma {:induction false} BindFaults<C, L, D>(e: Engine<C, L, D>, text: seq<C>, params: seq<Param>)
    ensures BindAll(e, text, params).Err? ==> BindAll(e, text, params).error == BadBind
  {
    if params != [] {
      BindFaults(e, text, params[1..]);
    }
  }

  lemma {:induction false} LoopFaults<C, L, D>(e: Engine<C, L, D>, text: seq<C>, params: seq<Param>,
                                               conn: Conn<L, D>, db: D, table: Table)
    ensures var r := Loop(e, text, params, conn, db, false, table).result; r.Err? ==> OwnFault(r.error)
    decreases |text|
  {
    BindFaults(e, text, params);
    var t := OneTurn(e, text, params, conn, db, false, table);
    if t.result.None? {
      LoopFaults(e, text[t.next..], params, t.conn, t.db, t.table);
    }
  }

  // ---------- the answers to Exec and Prepare ----------

  datatype Executed<C, L, D> = Executed(conn: Conn<L, D>, db: D, response: Response, steps: seq<Step<C, L, D>>)

  function Answer<L, D>(conn: Conn<L, D>, counters: Counters, result: Result<Table, Fault>): Response {
    match result
    case Ok(t) => Response(None, t.columns, t.rows, conn.Autocommit(), 0, false, counters)
    case Err(f) => Response(Some(f), [], [], conn.Autocommit(), 0, false, counters.(changes := 0))
  }

  function Execute<C, L, D>(e: Engine<C, L, D>, text: seq<C>, params: seq<Param>,
                            conn: Conn<L, D>, db: D, busy: bool): Executed<C, L, D> {
    var o := RunScript(e, text, params, conn, db, busy);
    Executed(o.conn, o.db, Answer(o.conn, e.counters(o.conn.local), o.result), o.steps)
  }

  method ExecuteScript<C, L, D>(e: Engine<C, L, D>, text: seq<C>, params: seq<Param>, conn0: Conn<L, D>, db0: D,
                                busy: bool)
    returns (conn: Conn<L, D>, db: D, response: Response, ghost steps: seq<Step<C, L, D>>)
    ensures var x := Execute(e, text, params, conn0, db0, busy); conn == x.conn && db == x.db && response == x.response
    ensures steps == Execute(e, text, params, conn0, db0, busy).steps
  {
    var r: Result<Table, Fault>;
    conn, db, r, steps := ExecuteInner(e, text, params, conn0, db0, busy);
    response := Answer(conn, e.counters(conn.local), r);
  }

  /** The answer to Prepare: the first statement's tail and columns. Nothing is run. */
  function Prepared<C, L, D>(e: Engine<C, L, D>, text: seq<C>, conn: Conn<L, D>, db: D, busy: bool): Response {
    if HasNul(e, text) then ErrorResponse(conn.Autocommit(), EmbeddedNul)
    else if busy then ErrorResponse(conn.Autocommit(), Busy)
    else
      match e.compile(text, conn.local, conn.View(db))
      case Failed(code) => ErrorResponse(conn.Autocommit(), Sqlite(NonZero(code)))
      case Nothing(tail) =>
        Response(None, [], [], conn.Autocommit(), TailOffset(text, tail), true, e.counters(conn.local))
      case Statement(tail, columns) =>
        Response(None, columns, [], conn.Autocommit(), TailOffset(text, tail), false, e.counters(conn.local))
  }

  function TailOffset<C>(text: seq<C>, tail: Option<nat>): nat {
    if tail.None? then |text| else tail.value
  }

  /** The connection comes back exactly as it was: the compiled statement is finalised. */
  method PrepareMeta<C, L, D>(e: Engine<C, L, D>, text: seq<C>, conn0: Conn<L, D>, db: D, busy: bool)
    returns (conn: Conn<L, D>, response: Response)
    ensures conn == conn0 && response == Prepared(e, text, conn0, db, busy)
    ensures response.fault.None? && e.compile(text, conn0.local, conn0.View(db)).Statement? ==>
              response.columns == e.compile(text, conn0.local, conn0.View(db)).columns && !response.empty
  {
    conn := conn0;
    var autocommit := conn.Autocommit();
    if HasNul(e, text) {
      return conn, ErrorResponse(autocommit, EmbeddedNul);
    }
    if busy {
      return conn, ErrorResponse(autocommit, Busy);
    }
    match e.compile(text, conn.local, conn.View(db)) {
      case Failed(code) =>
        response := ErrorResponse(autocommit, Sqlite(NonZero(code)));
      case Nothing(tail) =>
        response := Response(None, [], [], autocommit, TailOffset(text, tail), true, e.counters(conn.local));
      case Statement(tail, columns) =>
        conn := conn.Opened();
        var offset := TailOffset(text, tail);
        conn := conn.Finalized();
        response := Response(None, columns, [], autocommit, offset, false, e.counters(conn.local));
    }
  }

  /** With no other lock around, an answer is never busy; nor is it ever a session fault. */
  lemma FaultsWhenFree<C, L, D>(e: Engine<C, L, D>, text: seq<C>, params: seq<Param>, conn: Conn<L, D>, db: D)
    ensures var f := Execute(e, text, params, conn, db, false).response.fault; f.Some? ==> OwnFault(f.value)
    ensures var f := Prepared(e, text, conn, db, false).fault; f.Some? ==> OwnFault(f.value)
  {
    LoopFaults(e, text, params, conn, db, Table([], []));
  }

  /** A text with a NUL anywhere is refused whole, by Exec and by Prepare; no other text is for this reason. */
  lemma NulIsRefused<C, L, D>(e: Engine<C, L, D>, text: seq<C>, params: seq<Param>, conn: Conn<L, D>, db: D)
    ensures var x, r := Execute(e, text, params, conn, db, false), Prepared(e, text, conn, db, false);
            if exists i | 0 <= i < |text| :: e.nul(text[i]) then
              && x.response.fault == Some(EmbeddedNul) && x.conn == conn && x.db == db && x.steps == []
              && r.fault == Some(EmbeddedNul)
            else x.response.fault != Some(EmbeddedNul) && r.fault != Some(EmbeddedNul)
  {
    LoopHasNoNul(e, text, params, conn, db, Table([], []));
    hide Loop;
  }

  lemma {:induction false} LoopHasNoNul<C, L, D>(e: Engine<C, L, D>, text: seq<C>, params: seq<Param>,
                                                 conn: Conn<L, D>, db: D, table: Table)
    ensures Loop(e, text, params, conn, db, false, table).result != Err(EmbeddedNul)
    decreases |text|
  {
    BindFaults(e, text, params);
    hide BindAll, HasSql, RowsOf;
    var t := OneTurn(e, text, params, conn, db, false, table);
    if t.result.None? {
      LoopHasNoNul(e, text[t.next..], params, t.conn, t.db, t.table);
    }
  }

  /** With bound parameters, the complaint about trailing SQL comes exactly when the first statement
      ran without an error and some letter behind it is no space: by then its effect has landed. */
  lemma TrailingSqlComesLate<C, L, D>(e: Engine<C, L, D>, text: seq<C>, params: seq<Param>, conn: Conn<L, D>, db: D)
    requires params != [] && !HasNul(e, text)
    ensures var o := RunScript(e, text, params, conn, db, false);
            var compiled, bound := e.compile(text, conn.local, conn.View(db)), BindAll(e, text, params);
            (o.result == Err(TrailingSql)) <==>
              (compiled.Statement? && bound.Ok? && StepOf(e, text, bound.value, conn, db).ran.error.None?
               && compiled.tail.Some?
               && exists i | 0 <= i < |text| :: i >= compiled.tail.value && !e.space(text[i]))
    ensures var o := RunScript(e, text, params, conn, db, false);
            var bound := BindAll(e, text, params);
            o.result == Err(TrailingSql) ==>
              bound.Ok? && (o.conn, o.db) == conn.Landed(db, StepOf(e, text, bound.value, conn, db).ran)
  {
    BindFaults(e, text, params);
    var compiled := e.compile(text, conn.local, conn.View(db));
    if compiled.Statement? && !AtEnd(text, compiled.tail) {
      SqlBehind(e, text, compiled.tail.value);
    }
    hide BindAll, HasSql, RowsOf;
  }

  lemma SqlBehind<C, L, D>(e: Engine<C, L, D>, text: seq<C>, tail: nat)
    requires tail <= |text|
    ensures HasSql(e, text[tail..]) <==> exists i | 0 <= i < |text| :: i >= tail && !e.space(text[i])
  {
    var rest := text[tail..];
    assert forall i | 0 <= i < |rest| :: rest[i] == text[tail + i];
    assert forall i | tail <= i < |text| :: text[i] == rest[i - tail];
  }
}
