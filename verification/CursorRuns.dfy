/** Whole runs of a prepared statement: what any list of calls does, what stepping yields between
    two resets, and the way of a blob through the system and back. */
module CursorRuns {
  import opened Prelude
  import opened Engine
  import opened Cursor
  import M = Mirror
  import S = Script
  import B = Base64

  // ---------- any list of calls ----------

  datatype Call =
    | StepCall(reply: Reply)
    | ResetCall
    | BindCall(index: int, cell: Cell)
    | ClearCall

  function Do(s: Stmt, c: Call): (Stmt, int) {
    match c
    case StepCall(reply) => Step(s, reply)
    case ResetCall => (Reset(s), SQLITE_OK)
    case BindCall(index, cell) => BindCell(s, index, cell)
    case ClearCall => (ClearBindings(s), SQLITE_OK)
  }

  function PlainDo(p: Plain, c: Call): (Plain, int) {
    match c
    case StepCall(reply) => PlainStep(p, reply)
    case ResetCall => (p.(phase := Idle), SQLITE_OK)
    case BindCall(index, cell) => PlainBind(p, index, cell)
    case ClearCall => (p.(bindings := map[]), SQLITE_OK)
  }

  /** The statement after a list of calls, and their result codes. */
  function Run(s: Stmt, calls: seq<Call>): (Stmt, seq<int>) {
    if calls == [] then (s, [])
    else
      var (s1, codes) := Run(s, calls[..|calls| - 1]);
      var (s2, code) := Do(s1, calls[|calls| - 1]);
      (s2, codes + [code])
  }

  function PlainRun(p: Plain, calls: seq<Call>): (Plain, seq<int>) {
    if calls == [] then (p, [])
    else
      var (p1, codes) := PlainRun(p, calls[..|calls| - 1]);
      var (p2, code) := PlainDo(p1, calls[|calls| - 1]);
      (p2, codes + [code])
  }

  lemma DoRefines(s: Stmt, c: Call)
    requires Sound(s)
    ensures Sound(Do(s, c).0) && PlainDo(Abs(s), c) == (Abs(Do(s, c).0), Do(s, c).1)
  {
    hide Sound, Abs, Step, PlainStep, BindCell, PlainBind, Reset, ClearBindings;
    match c
    case StepCall(reply) => StepRefines(s, reply);
    case ResetCall => ResetRefines(s);
    case BindCall(index, cell) => BindRefines(s, index, cell);
    case ClearCall => ResetRefines(s);
  }

  /** For every list of calls the statement answers exactly as the plain cursor does, and sends its
      Exec requests with exactly the plain cursor's bindings. */
  lemma {:induction false} RunRefines(s: Stmt, calls: seq<Call>)
    requires Sound(s)
    ensures Sound(Run(s, calls).0) && PlainRun(Abs(s), calls) == (Abs(Run(s, calls).0), Run(s, calls).1)
  {
    hide Sound, Abs, Do, PlainDo;
    if calls != [] {
      RunRefines(s, calls[..|calls| - 1]);
      DoRefines(Run(s, calls[..|calls| - 1]).0, calls[|calls| - 1]);
    }
  }

  lemma NewIsSound(columns: seq<string>)
    ensures Sound(NewStmt(columns)) && Abs(NewStmt(columns)) == Plain(map[], Idle, [])
  {
  }

  /** So does every statement from its preparation on. */
  lemma PreparedRefines(columns: seq<string>, calls: seq<Call>)
    ensures var (s, codes) := Run(NewStmt(columns), calls);
            Sound(s) && PlainRun(Plain(map[], Idle, []), calls) == (Abs(s), codes)
  {
    NewIsSound(columns);
    RunRefines(NewStmt(columns), calls);
    hide Sound, Abs, Run, PlainRun;
  }

  // ---------- between two resets ----------

  /** Between resets at most one Exec is sent, none once the statement has started, and the
      bindings cannot be changed any more, except by clearing them. */
  lemma {:induction false} OneExecBetweenResets(p: Plain, calls: seq<Call>)
    requires forall i | 0 <= i < |calls| :: !calls[i].ResetCall?
    ensures var p' := PlainRun(p, calls).0;
            && |p.asked| <= |p'.asked| <= |p.asked| + 1 && p'.asked[..|p.asked|] == p.asked
            && (p.phase != Idle ==>
                p'.phase != Idle && p'.asked == p.asked && (p'.bindings == p.bindings || p'.bindings == map[]))
            && (p'.phase == Idle ==> p'.asked == p.asked)
  {
    if calls != [] {
      var c := calls[|calls| - 1];
      OneExecBetweenResets(p, calls[..|calls| - 1]);
      var p1 := PlainRun(p, calls[..|calls| - 1]).0;
      var p2 := PlainDo(p1, c).0;
      assert p2 == PlainRun(p, calls).0;
      assert p1.phase != Idle ==>
               p2.phase != Idle && p2.asked == p1.asked && (p2.bindings == p1.bindings || p2.bindings == map[]);
      assert p1.phase == Idle && p2.phase != Idle ==> p2.asked == p1.asked + [p1.bindings];
    }
  }

  /** Only steps. */
  function Steps(replies: seq<Reply>): (r: seq<Call>)
    ensures |r| == |replies| && forall i | 0 <= i < |replies| :: r[i] == StepCall(replies[i])
  {
    seq(|replies|, i requires 0 <= i < |replies| => StepCall(replies[i]))
  }

  /** The plain cursor after `k` steps over an answer of `rows`. */
  lemma {:induction false} PlainYields(p: Plain, replies: seq<Reply>)
    requires p.phase == Idle && replies != [] && replies[0].Rows?
    ensures var rows := replies[0].rows;
            var (p', codes) := PlainRun(p, Steps(replies));
            && p'.phase == Scanning(rows, if |replies| <= |rows| then |replies| else |rows|, |replies| > |rows|)
            && p'.asked == p.asked + [p.bindings] && p'.bindings == p.bindings
            && |codes| == |replies| && forall k | 0 <= k < |replies| :: codes[k] == if k < |rows| then ROW else DONE
  {
    var calls, n := Steps(replies), |replies|;
    assert calls[..n - 1] == Steps(replies[..n - 1]);
    if n == 1 {
      assert PlainRun(p, calls[..0]) == (p, []);
    } else {
      PlainYields(p, replies[..n - 1]);
    }
  }

  lemma {:induction false} PlainFails(p: Plain, replies: seq<Reply>)
    requires p.phase == Idle && replies != [] && replies[0].Refused?
    ensures var code := if replies[0].code == 0 then SQLITE_ERROR else replies[0].code;
            var (p', codes) := PlainRun(p, Steps(replies));
            && p'.phase == Broken(code) && p'.asked == p.asked + [p.bindings]
            && |codes| == |replies| && forall k | 0 <= k < |replies| :: codes[k] == code
  {
    var calls, n := Steps(replies), |replies|;
    assert calls[..n - 1] == Steps(replies[..n - 1]);
    if n == 1 {
      assert PlainRun(p, calls[..0]) == (p, []);
    } else {
      PlainFails(p, replies[..n - 1]);
    }
  }

  /** From a reset statement, whatever the broker would answer to further requests: an answer of n
      rows is read as exactly n results 100, the k-th showing the k-th row, then 101 for ever; a
      failure repeats its code for ever. One Exec is sent, with the bindings of that moment, and the
      columns become the answer's, if it has any. */
  lemma StepsYield(s: Stmt, replies: seq<Reply>)
    requires Sound(s) && !s.started && replies != []
    ensures var (s', codes) := Run(s, Steps(replies));
            && |codes| == |replies| && Sound(s') && s'.params == s.params
            && s'.columns == (if replies[0].Rows? && replies[0].columns != [] then replies[0].columns else s.columns)
            && Abs(s').asked == Abs(s).asked + [Bindings(s.params)]
            && match replies[0]
               case Rows(_, rows) =>
                 && (forall k | 0 <= k < |replies| :: codes[k] == if k < |rows| then 100 else 101)
                 && Abs(s').Current() == if |replies| <= |rows| then Some(rows[|replies| - 1]) else None
               case Refused(code) =>
                 && (forall k | 0 <= k < |replies| :: codes[k] == if code == 0 then 1 else code)
                 && Abs(s').Current() == None
  {
    RunRefines(s, Steps(replies));
    StepsKeepParams(s, Steps(replies));
    StepsTakeColumns(s, replies);
    var p := Abs(s);
    assert p.phase == Idle && p.bindings == Bindings(s.params);
    hide Abs, Run, PlainRun, Sound, Bindings;
    if replies[0].Rows? {
      PlainYields(p, replies);
    } else {
      PlainFails(p, replies);
    }
  }

  lemma {:induction false} StepsTakeColumns(s: Stmt, replies: seq<Reply>)
    requires !s.started && replies != []
    ensures var s' := Run(s, Steps(replies)).0;
            && s'.started
            && s'.columns == if replies[0].Rows? && replies[0].columns != [] then replies[0].columns else s.columns
  {
    hide TextsOf, BlobsOf;
    var calls, n := Steps(replies), |replies|;
    assert calls[..n - 1] == Steps(replies[..n - 1]);
    if n == 1 {
      assert Run(s, calls[..0]) == (s, []);
    } else {
      StepsTakeColumns(s, replies[..n - 1]);
    }
  }

  lemma {:induction false} StepsKeepParams(s: Stmt, calls: seq<Call>)
    requires forall i | 0 <= i < |calls| :: calls[i].StepCall?
    ensures Run(s, calls).0.params == s.params
  {
    if calls != [] {
      StepsKeepParams(s, calls[..|calls| - 1]);
    }
  }

  /** The cache after a call, and the reply its statement is given. */
  function Shown(c: M.Cache, t: M.Transport): (M.Cache, Reply) {
    var (c', r) := M.Rpc(c, false, t);
    (c', if r.Some? then Rows(r.value.columns, r.value.rows) else Refused(c'.errcode))
  }

  // ---------- a blob's way through the system ----------

  lemma {:induction false} BoundCellIsThere(params: seq<Param>, index: int, cell: Cell) returns (k: nat)
    ensures k < |Upsert(params, index, cell)| && Upsert(params, index, cell)[k] == Param(index, cell)
  {
    if params == [] || params[0].index == index {
      k := 0;
    } else {
      k := BoundCellIsThere(params[1..], index, cell);
      k := k + 1;
    }
  }

  /** The engine is given `value` for parameter `index`, and nothing else for it. */
  ghost predicate HandedOver(binds: seq<Bind>, index: int, value: Value) {
    Bind(index, value) in binds && forall b | b in binds && b.index == index :: b.value == value
  }

  /** What the engine stores for a blob bound by a client: no bytes become NULL. */
  function Stored(bytes: seq<Byte>): Value {
    if bytes == [] then Null else Blob(bytes)
  }

  /** The cell bound for a parameter, and that nothing else of the statement changed. */
  ghost predicate Binds(s: Stmt, s': Stmt, index: int, cell: Cell) {
    s' == s.(params := s'.params) && Bindings(s'.params) == Bindings(s.params)[index := cell]
  }

  /** The cell bound is a blob whose text decodes to the bytes. */
  ghost predicate BindsBytes(s: Stmt, s': Stmt, index: int, bytes: seq<Byte>) {
    exists v: string :: Binds(s, s', index, BlobCell(v)) && B.Decode(v) == Some(bytes)
  }

  predicate AllZero(bytes: seq<Byte>, n: int) {
    |bytes| == n && forall i | 0 <= i < n :: bytes[i] == 0
  }

  /** Any bind is refused with the code 21 on a started statement or for an index below 1, and otherwise
      answers 0 and binds the cell. */
  lemma BindAnswers(s: Stmt, index: int, cell: Cell)
    requires Sound(s)
    ensures var (s', code) := BindCell(s, index, cell);
            if s.started || index <= 0 then code == 21 && s' == s else code == 0 && Binds(s, s', index, cell)
  {
    UpsertBinds(s.params, index, cell);
    hide Bindings, Upsert;
  }

  /** Binding a blob answers 21 for the same reasons and for a null pointer with a length, 18 for a
      negative length, and otherwise binds a cell that decodes to the first `n` bytes, or to none for a
      null pointer. */
  lemma BindBlobAnswers(s: Stmt, index: int, value: Option<seq<Byte>>, n: int)
    requires Sound(s) && (value.Some? ==> n <= |value.value|)
    ensures var (s', code) := BindBlob(s, index, value, n);
            if s.started || index <= 0 || (value.None? && n > 0) then code == 21 && s' == s
            else if n < 0 then code == 18 && s' == s
            else code == 0 && BindsBytes(s, s', index, if value.None? then [] else value.value[..n])
  {
    hide Bindings, Upsert, B.Encode, B.Decode;
    if !s.started && index > 0 && (value.Some? || n <= 0) && n >= 0 {
      var bytes := if value.None? then [] else value.value[..n];
      BindAnswers(s, index, BlobCell(B.Encode(bytes)));
      B.RoundTrip(bytes);
      assert Binds(s, BindBlob(s, index, value, n).0, index, BlobCell(B.Encode(bytes)));
    }
  }

  /** Binding `n` zero bytes answers 18 below 0 and above 8388608, and otherwise binds a cell that decodes
      to `n` bytes, all 0. */
  lemma BindZeroblobAnswers(s: Stmt, index: int, n: int)
    requires Sound(s)
    ensures var (s', code) := BindZeroblob(s, index, n);
            if s.started || index <= 0 then code == 21 && s' == s
            else if n < 0 || n > 8388608 then code == 18 && s' == s
            else code == 0 && exists bytes: seq<Byte> :: AllZero(bytes, n) && BindsBytes(s, s', index, bytes)
  {
    hide Bindings, Upsert, B.Encode, B.Decode;
    if !s.started && index > 0 && 0 <= n <= 8388608 {
      BindAnswers(s, index, BlobCell(B.Encode(Zeros(n))));
      B.RoundTrip(Zeros(n));
      assert Binds(s, BindZeroblob(s, index, n).0, index, BlobCell(B.Encode(Zeros(n))));
      assert AllZero(Zeros(n), n);
    }
  }

  /** A blob bound by the client, whatever else is bound, reaches the engine as the same bytes; an
      empty one reaches it as NULL. */
  lemma BindingHandsOver<C, L, D>(e: Engine<C, L, D>, text: seq<C>, s: Stmt, index: int, bytes: seq<Byte>)
    requires Sound(s) && !s.started && index > 0
    requires S.BindAll(e, text, BindBlob(s, index, Some(bytes), |bytes|).0.params).Ok?
    ensures HandedOver(S.BindAll(e, text, BindBlob(s, index, Some(bytes), |bytes|).0.params).value, index,
            Stored(bytes))
  {
    hide S.BindAll, Upsert, BindBlob, ValueOf;
    var cell := BlobCell(B.Encode(bytes));
    var params := Upsert(s.params, index, cell);
    WholeBlobBound(s, index, bytes);
    var k := BoundCellIsThere(s.params, index, cell);
    UpsertIndices(s.params, index, cell);
    S.BindAllMeans(e, text, params);
    TheOneBound(params, S.BindAll(e, text, params).value, k, Stored(bytes));
  }

  lemma WholeBlobBound(s: Stmt, index: int, bytes: seq<Byte>)
    requires !s.started && index > 0
    ensures BindBlob(s, index, Some(bytes), |bytes|).0.params == Upsert(s.params, index, BlobCell(B.Encode(bytes)))
    ensures ValueOf(BlobCell(B.Encode(bytes))) == Some(Stored(bytes))
  {
    assert bytes[..|bytes|] == bytes;
    B.RoundTrip(bytes);
  }

  lemma TheOneBound(params: seq<Param>, binds: seq<Bind>, k: nat, value: Value)
    requires Distinct(params) && |binds| == |params| && k < |params| && ValueOf(params[k].cell) == Some(value)
    requires forall i | 0 <= i < |params| ::
               binds[i].index == params[i].index && ValueOf(params[i].cell) == Some(binds[i].value)
    ensures HandedOver(binds, params[k].index, value)
  {
    hide ValueOf;
    assert binds[k] == Bind(params[k].index, value);
    forall b | b in binds && b.index == params[k].index ensures b.value == value {
      var i :| 0 <= i < |binds| && binds[i] == b;
      assert i == k;
    }
  }

  /** Any value in a row of the engine is read by the client as the cell that carries it, with the type
      code of the value; a blob as the same bytes. */
  lemma ColumnArrives(s: Stmt, values: seq<seq<Value>>, i: int, size: Text -> nat)
    requires Sound(s) && s.started && !s.failed && s.lastStep == ROW && s.rows == RowsOf(values)
    requires 0 <= i < |values[s.pos - 1]|
    ensures CellAt(s, i) == Some(CellOf(values[s.pos - 1][i]))
    ensures var value, code := values[s.pos - 1][i], ColumnType(s, i);
            && (value.Int? <==> code == 1) && (value.Real? <==> code == 2) && (value.Text? <==> code == 3)
            && (value.Blob? <==> code == 4) && (value.Null? <==> code == 5)
    ensures values[s.pos - 1][i].Blob? ==>
              var bytes := values[s.pos - 1][i].b;
              ColumnBytes(s, i, size) == |bytes| && ColumnBlob(s, i) == if bytes == [] then NullPointer
                  else ToBytes(bytes)
    ensures values[s.pos - 1][i].Null? ==> ColumnBytes(s, i, size) == 0 && ColumnBlob(s, i) == NullPointer
    ensures var (value, text) := (values[s.pos - 1][i], ColumnText(s, i));
            && (value.Int? ==> text == ToText(Rendered(IntCell(value.i))))
            && (value.Real? ==> text == ToText(Rendered(RealCell(value.r))))
            && (value.Text? ==> text == ToText(Rendered(TextCell(UpToNul(value.t)))))
            && (value.Blob? ==> text == ToText(Lossy(value.b))) && (value.Null? ==> text == NullPointer)
  {
    if values[s.pos - 1][i].Blob? {
      B.RoundTrip(values[s.pos - 1][i].b);
    }
    ReadingsAgree(s, i, size);
    hide RowsOf, RowOf, TextsOf, BlobsOf;
  }

  /** A statement that answers one row holding the value of parameter `index`. */
  ghost predicate Echoes<C, L(!new), D(!new)>(e: Engine<C, L, D>, text: seq<C>, index: int) {
    forall binds: seq<Bind>, value: Value, local: L, view: D, inTx: bool
      {:trigger e.run(text, binds, local, view, inTx), HandedOver(binds, index, value)} ::
      HandedOver(binds, index, value) ==>
        e.run(text, binds, local, view, inTx).error.None? && e.run(text, binds, local, view, inTx).rows == [[value]]
  }

  /** Bound, encoded, sent, decoded, echoed by the engine, encoded, sent back and decoded: the client
      reads the bytes it bound. The column is a blob exactly if there were any bytes; an empty blob
      has become NULL. */
  lemma EchoIsRead<C, L(!new), D(!new)>(e: Engine<C, L, D>, text: seq<C>, s: Stmt, index: int, bytes: seq<Byte>,
                                          conn: Conn<L, D>, db: D, size: Text -> nat)
    requires Sound(s) && !s.started && index > 0 && Echoes(e, text, index)
    requires !S.HasNul(e, text) && e.compile(text, conn.local, conn.View(db)).Statement?
    requires S.AtEnd(text, e.compile(text, conn.local, conn.View(db)).tail)
    requires S.BindAll(e, text, BindBlob(s, index, Some(bytes), |bytes|).0.params).Ok?
    ensures var bound := BindBlob(s, index, Some(bytes), |bytes|).0;
            var response := S.Execute(e, text, bound.params, conn, db, false).response;
            var stepped := Step(bound, Rows(response.columns, response.rows));
            && response.fault.None? && stepped.1 == ROW
            && ColumnBytes(stepped.0, 0, size) == |bytes|
            && ColumnBlob(stepped.0, 0) == (if bytes == [] then NullPointer else ToBytes(bytes))
            && (ColumnType(stepped.0, 0) == BLOB <==> bytes != [])
            && (ColumnType(stepped.0, 0) == NOTHING <==> bytes == [])
  {
    hide S.Execute, RowsOf, RowOf, Bindings, Upsert, S.BindAll, S.HasNul, S.AtEnd;
    var bound := BindBlob(s, index, Some(bytes), |bytes|).0;
    var binds := S.BindAll(e, text, bound.params).value;
    BindingHandsOver(e, text, s, index, bytes);
    assert HandedOver(binds, index, Stored(bytes));
    BindRefines(s, index, BlobCell(B.Encode(bytes)));
    assert bytes[..|bytes|] == bytes;
    var values := [[Stored(bytes)]];
    assert e.run(text, binds, conn.local, conn.View(db), conn.tx.Some?).rows == values;
    OneStatementAnswers(e, text, bound.params, binds, conn, db);
    var response := S.Execute(e, text, bound.params, conn, db, false).response;
    FirstRowRead(bound, Rows(response.columns, response.rows), values, size);
  }

  lemma FirstRowRead(s: Stmt, reply: Reply, values: seq<seq<Value>>, size: Text -> nat)
    requires Sound(s) && !s.started && reply.Rows? && reply.rows == RowsOf(values) && |values| == 1 && |values[0]| == 1
    ensures var ((s', code), value) := (Step(s, reply), values[0][0]);
            && code == ROW && (value.Blob? <==> ColumnType(s', 0) == BLOB)
            && (value.Null? <==> ColumnType(s', 0) == NOTHING)
            && (value.Blob? ==> ColumnBytes(s', 0, size) == |value.b|
                                && ColumnBlob(s', 0) == if value.b == [] then NullPointer else ToBytes(value.b))
            && (value.Null? ==> ColumnBytes(s', 0, size) == 0 && ColumnBlob(s', 0) == NullPointer)
  {
    hide RowsOf, RowOf, Bindings;
    StepRefines(s, reply);
    var s' := Step(s, reply).0;
    assert s'.rows == RowsOf(values) && s'.pos == 1;
    ColumnArrives(s', values, 0, size);
  }

  /** A script of one statement answers with that statement's rows. */
  lemma OneStatementAnswers<C, L, D>(e: Engine<C, L, D>, text: seq<C>, params: seq<Param>, binds: seq<Bind>,
                                     conn: Conn<L, D>, db: D)
    requires !S.HasNul(e, text) && e.compile(text, conn.local, conn.View(db)).Statement?
    requires S.AtEnd(text, e.compile(text, conn.local, conn.View(db)).tail)
    requires S.BindAll(e, text, params) == Ok(binds)
    requires e.run(text, binds, conn.local, conn.View(db), conn.tx.Some?).error.None?
    ensures var response := S.Execute(e, text, params, conn, db, false).response;
            response.fault.None? && response.rows
                == RowsOf(e.run(text, binds, conn.local, conn.View(db), conn.tx.Some?).rows)
  {
    hide S.BindAll, RowsOf, S.HasSql;
    var ran := e.run(text, binds, conn.local, conn.View(db), conn.tx.Some?);
    NoPrefix(RowsOf(ran.rows));
  }
}
