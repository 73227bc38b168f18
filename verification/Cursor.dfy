/** A prepared statement of the shim: bindings, one Exec, buffered rows, and a per-row cache. It
    behaves as a plain cursor over the rows of one answer. */
module Cursor {
  import opened Prelude
  import opened Engine
  import B = Base64

  const SQLITE_OK := 0
  const TOOBIG := 18
  const MISUSE := 21
  const ROW := 100
  const DONE := 101

  const MAX_ZEROBLOB := 8 * 1024 * 1024

  type Row = seq<Cell>

  /** The answer to an Exec as the statement sees it: columns and rows, or the connection's error
      code after the failure. */
  datatype Reply = Rows(columns: seq<string>, rows: seq<Row>) | Refused(code: int)

  /** The text of a cell: a rendering, or the lossy UTF-8 reading of a blob. */
  datatype Text = Rendered(cell: Cell) | Lossy(bytes: seq<Byte>)

  /** The fields of a statement. `asked` is the history of Exec requests it sent. */
  datatype Stmt = Stmt(
    params: seq<Param>,
    columns: seq<string>,
    rows: seq<Row>,
    texts: seq<Text>,
    blobs: seq<seq<Byte>>,
    pos: nat,
    started: bool,
    failed: bool,
    lastStep: int,
    asked: seq<seq<Param>>)

  function NewStmt(columns: seq<string>): Stmt {
    Stmt([], columns, [], [], [], 0, false, false, 0, [])
  }

  // ---------- bindings ----------

  function Upsert(params: seq<Param>, index: int, cell: Cell): seq<Param> {
    if params == [] then [Param(index, cell)]
    else if params[0].index == index then [Param(index, cell)] + params[1..]
    else [params[0]] + Upsert(params[1..], index, cell)
  }

  /** The bindings a parameter list stands for. */
  function Bindings(params: seq<Param>): map<int, Cell> {
    if params == [] then map[] else Bindings(params[1..])[params[0].index := params[0].cell]
  }

  ghost predicate Distinct(params: seq<Param>) {
    forall i, j | 0 <= i < j < |params| :: params[i].index != params[j].index
  }

  lemma {:induction false} UpsertIndices(params: seq<Param>, index: int, cell: Cell)
    requires Distinct(params)
    ensures Distinct(Upsert(params, index, cell))
    ensures forall p | p in Upsert(params, index, cell) :: p.index == index || exists q ::
            q in params && q.index == p.index
  {
    if params != [] {
      assert params == [params[0]] + params[1..];
      if params[0].index != index {
        var rest := Upsert(params[1..], index, cell);
        UpsertIndices(params[1..], index, cell);
        forall j | 0 <= j < |rest| ensures rest[j].index != params[0].index {
          assert rest[j] in rest;
        }
      }
    }
  }

  /** The last value bound to an index is the one that counts. */
  lemma {:induction false} UpsertBinds(params: seq<Param>, index: int, cell: Cell)
    requires Distinct(params)
    ensures Bindings(Upsert(params, index, cell)) == Bindings(params)[index := cell]
  {
    if params != [] {
      if params[0].index == index {
        assert ([Param(index, cell)] + params[1..])[1..] == params[1..];
      } else {
        UpsertBinds(params[1..], index, cell);
        assert ([params[0]] + Upsert(params[1..], index, cell))[1..] == Upsert(params[1..], index, cell);
      }
    } else {
      assert [Param(index, cell)][1..] == [];
    }
  }

  function BindCell(s: Stmt, index: int, cell: Cell): (Stmt, int) {
    if s.started || index <= 0 then (s, MISUSE) else (s.(params := Upsert(s.params, index, cell)), SQLITE_OK)
  }

  /** `sqlite3_bind_blob` with a pointer to `value`, or the null pointer, and a length. */
  function BindBlob(s: Stmt, index: int, value: Option<seq<Byte>>, n: int): (Stmt, int)
    requires value.Some? ==> n <= |value.value|
  {
    if s.started || index <= 0 then (s, MISUSE)
    else if value.None? && n > 0 then (s, MISUSE)
    else if n < 0 then (s, TOOBIG)
    else BindCell(s, index, BlobCell(B.Encode(if value.None? then [] else value.value[..n])))
  }

  function Zeros(n: nat): (r: seq<Byte>)
    ensures |r| == n && forall i | 0 <= i < n :: r[i] == 0
  {
    seq(n, _ => 0)
  }

  function BindZeroblob(s: Stmt, index: int, n: int): (Stmt, int) {
    if s.started || index <= 0 then (s, MISUSE)
    else if n < 0 || n > MAX_ZEROBLOB then (s, TOOBIG)
    else BindCell(s, index, BlobCell(B.Encode(Zeros(n))))
  }

  function ClearBindings(s: Stmt): Stmt {
    s.(params := [])
  }

  // ---------- stepping ----------

  /** The bytes behind a blob cell; no bytes if its text is not base64. */
  function BytesOf(cell: Cell): seq<Byte> {
    if cell.BlobCell? then var b := B.Decode(cell.v); if b.Some? then b.value else [] else []
  }

  function TextOf(cell: Cell): Text {
    if cell.BlobCell? then Lossy(BytesOf(cell)) else Rendered(cell)
  }

  function TextsOf(row: Row): (r: seq<Text>)
    ensures |r| == |row| && forall i | 0 <= i < |row| :: r[i] == TextOf(row[i])
  {
    if row == [] then [] else [TextOf(row[0])] + TextsOf(row[1..])
  }

  function BlobsOf(row: Row): (r: seq<seq<Byte>>)
    ensures |r| == |row| && forall i | 0 <= i < |row| :: r[i] == BytesOf(row[i])
  {
    if row == [] then [] else [BytesOf(row[0])] + BlobsOf(row[1..])
  }

  function CacheRow(s: Stmt): Stmt
    requires s.pos > 0
  {
    if s.pos <= |s.rows| then s.(texts := TextsOf(s.rows[s.pos - 1]), blobs := BlobsOf(s.rows[s.pos - 1]))
    else s.(texts := [], blobs := [])
  }

  /** The part of a step that talks to the broker, on the first step after a reset. */
  function Started(s: Stmt, reply: Reply): Stmt {
    if s.started then s
    else
      var s' := s.(asked := s.asked + [s.params], started := true);
      match reply
      case Rows(columns, rows) =>
        s'.(columns := if columns != [] then columns else s.columns, rows := rows, pos := 0, failed := false)
      case Refused(code) => s'.(failed := true, lastStep := if code == 0 then SQLITE_ERROR else code)
  }

  function Step(s: Stmt, reply: Reply): (Stmt, int) {
    var s1 := Started(s, reply);
    if s1.failed then (s1, if s1.lastStep == 0 then SQLITE_ERROR else s1.lastStep)
    else if s1.pos < |s1.rows| then (CacheRow(s1.(pos := s1.pos + 1)).(lastStep := ROW), ROW)
    else (s1.(lastStep := DONE), DONE)
  }

  function Reset(s: Stmt): Stmt {
    s.(started := false, failed := false, rows := [], texts := [], blobs := [], pos := 0, lastStep := 0)
  }

  // ---------- reading a row ----------

  function CellAt(s: Stmt, i: int): Option<Cell> {
    if s.lastStep != ROW || s.pos == 0 || i < 0 || s.pos > |s.rows| || i >= |s.rows[s.pos - 1]| then None
    else Some(s.rows[s.pos - 1][i])
  }

  /** A pointer answered to the client. */
  datatype Pointer = NullPointer | ToText(text: Text) | ToBytes(bytes: seq<Byte>)

  function TextPointer(s: Stmt, i: int): Pointer {
    if 0 <= i < |s.texts| then ToText(s.texts[i]) else NullPointer
  }

  function ColumnText(s: Stmt, i: int): Pointer {
    var c := CellAt(s, i);
    if c.None? || c.value.NullCell? then NullPointer else TextPointer(s, i)
  }

  function ColumnBlob(s: Stmt, i: int): Pointer {
    var c := CellAt(s, i);
    if c.None? || c.value.NullCell? then NullPointer
    else if !c.value.BlobCell? then TextPointer(s, i)
    else if i < |s.blobs| && s.blobs[i] != [] then ToBytes(s.blobs[i])
    else NullPointer
  }

  const INTEGER := 1
  const FLOAT := 2
  const TEXT := 3
  const BLOB := 4
  const NOTHING := 5

  function TypeOf(cell: Cell): int {
    match cell
    case NullCell => NOTHING
    case IntCell(_) => INTEGER
    case RealCell(_) => FLOAT
    case TextCell(_) => TEXT
    case BlobCell(_) => BLOB
  }

  function ColumnType(s: Stmt, i: int): int {
    var c := CellAt(s, i);
    if c.None? then NOTHING else TypeOf(c.value)
  }

  /** `size` is the length in bytes of a text. */
  function ColumnBytes(s: Stmt, i: int, size: Text -> nat): nat {
    var c := CellAt(s, i);
    if c.None? || c.value.NullCell? then 0
    else if c.value.BlobCell? then (if i < |s.blobs| then |s.blobs[i]| else 0)
    else if i < |s.texts| then size(s.texts[i]) else 0
  }

  function DataCount(s: Stmt): nat {
    if s.lastStep == ROW then |s.columns| else 0
  }

  // ---------- the plain cursor ----------

  datatype Phase = Idle | Scanning(rows: seq<Row>, given: nat, ended: bool) | Broken(code: int)

  /** Bindings as a map, how far the answer of the one Exec has been read, and the bindings every
      Exec was sent with. */
  datatype Plain = Plain(bindings: map<int, Cell>, phase: Phase, asked: seq<map<int, Cell>>) {
    /** The row the client may read. */
    function Current(): Option<Row> {
      if phase.Scanning? && !phase.ended && 0 < phase.given <= |phase.rows| then Some(phase.rows[phase.given - 1])
          else None
    }
  }

  function Given(rows: seq<Row>, n: nat): (Phase, int) {
    if n < |rows| then (Scanning(rows, n + 1, false), ROW) else (Scanning(rows, n, true), DONE)
  }

  function PlainStep(c: Plain, reply: Reply): (Plain, int) {
    match c.phase
    case Idle =>
      var c' := c.(asked := c.asked + [c.bindings]);
      (match reply
       case Rows(_, rows) => var (phase, code) := Given(rows, 0); (c'.(phase := phase), code)
       case Refused(code) => var code' := if code == 0 then SQLITE_ERROR
           else code; (c'.(phase := Broken(code')), code'))
    case Scanning(rows, given, _) => var (phase, code) := Given(rows, given); (c.(phase := phase), code)
    case Broken(code) => (c, code)
  }

  function PlainBind(c: Plain, index: int, cell: Cell): (Plain, int) {
    if c.phase != Idle || index <= 0 then (c, MISUSE) else (c.(bindings := c.bindings[index := cell]), SQLITE_OK)
  }

  /** The fields fit together: before the first step nothing is buffered; after it either the Exec
      failed, or the cache holds the row before `pos`. */
  ghost predicate Sound(s: Stmt) {
    && Distinct(s.params)
    && (!s.started ==> !s.failed && s.rows == [] && s.texts == [] && s.blobs == [] && s.pos == 0 && s.lastStep == 0)
    && (s.started && s.failed ==> s.pos == 0 && s.rows == [] && s.lastStep != 0)
    && (s.started && !s.failed ==>
        && s.pos <= |s.rows| && (s.lastStep == ROW || s.lastStep == DONE)
        && (s.lastStep == ROW ==> s.pos > 0) && (s.lastStep == DONE ==> s.pos == |s.rows|)
        && (s.pos > 0 ==> s.texts == TextsOf(s.rows[s.pos - 1]) && s.blobs == BlobsOf(s.rows[s.pos - 1])))
  }

  function AllBindings(asked: seq<seq<Param>>): (r: seq<map<int, Cell>>)
    ensures |r| == |asked| && forall i | 0 <= i < |asked| :: r[i] == Bindings(asked[i])
  {
    if asked == [] then [] else AllBindings(asked[..|asked| - 1]) + [Bindings(asked[|asked| - 1])]
  }

  function Abs(s: Stmt): Plain {
    Plain(Bindings(s.params),
          if !s.started then Idle
          else if s.failed then Broken(s.lastStep)
          else Scanning(s.rows, s.pos, s.lastStep == DONE),
          AllBindings(s.asked))
  }

  lemma StepKeepsSound(s: Stmt, reply: Reply)
    requires Sound(s)
    ensures Sound(Step(s, reply).0)
  {
    hide TextsOf, BlobsOf, Distinct;
  }

  lemma StepRefines(s: Stmt, reply: Reply)
    requires Sound(s)
    ensures Sound(Step(s, reply).0)
    ensures PlainStep(Abs(s), reply) == (Abs(Step(s, reply).0), Step(s, reply).1)
  {
    StepKeepsSound(s, reply);
    AskedOnce(s);
    hide Bindings, TextsOf, BlobsOf, Distinct, AllBindings;
  }

  lemma AskedOnce(s: Stmt)
    ensures AllBindings(s.asked + [s.params]) == AllBindings(s.asked) + [Bindings(s.params)]
  {
    assert (s.asked + [s.params])[..|s.asked + [s.params]| - 1] == s.asked;
  }

  lemma BindRefines(s: Stmt, index: int, cell: Cell)
    requires Sound(s)
    ensures Sound(BindCell(s, index, cell).0)
    ensures PlainBind(Abs(s), index, cell) == (Abs(BindCell(s, index, cell).0), BindCell(s, index, cell).1)
  {
    UpsertIndices(s.params, index, cell);
    UpsertBinds(s.params, index, cell);
    hide Bindings, TextsOf, BlobsOf, Upsert, Distinct;
  }

  lemma ResetRefines(s: Stmt)
    requires Sound(s)
    ensures Sound(Reset(s)) && Abs(Reset(s)) == Abs(s).(phase := Idle)
    ensures Reset(s) == NewStmt(s.columns).(params := s.params, asked := s.asked)
    ensures Sound(ClearBindings(s)) && Abs(ClearBindings(s)) == Abs(s).(bindings := map[])
    ensures ClearBindings(s).columns == s.columns && ClearBindings(s).started == s.started
  {
    hide TextsOf, BlobsOf;
  }

  /** Every reading answers from the plain cursor's current row, and nothing outside a row. The type is
      1 exactly for an integer, 2 for a real, 3 for a text, 4 for a blob, and 5 for NULL or nothing. */
  lemma ReadingsAgree(s: Stmt, i: int, size: Text -> nat)
    requires Sound(s)
    ensures var current := Abs(s).Current();
            var cell := if current.Some? && 0 <= i < |current.value| then Some(current.value[i]) else None;
            var decoded := if cell.Some? && cell.value.BlobCell? then B.Decode(cell.value.v) else None;
            var bytes := if decoded.Some? then decoded.value else [];
            && CellAt(s, i) == cell
            && (!s.failed ==> DataCount(s) == if current.Some? then |s.columns| else 0)
            && (ColumnType(s, i) == 1 <==> cell.Some? && cell.value.IntCell?)
            && (ColumnType(s, i) == 2 <==> cell.Some? && cell.value.RealCell?)
            && (ColumnType(s, i) == 3 <==> cell.Some? && cell.value.TextCell?)
            && (ColumnType(s, i) == 4 <==> cell.Some? && cell.value.BlobCell?)
            && (ColumnType(s, i) == 5 <==> cell.None? || cell.value.NullCell?)
            && ColumnText(s, i) == (if cell.None? || cell.value.NullCell? then NullPointer
                                    else if cell.value.BlobCell? then ToText(Lossy(bytes))
                                    else ToText(Rendered(cell.value)))
            && ColumnBlob(s, i) == (if cell.None? || cell.value.NullCell? || (cell.value.BlobCell? && bytes == [])
                                    then NullPointer
                                    else if cell.value.BlobCell? then ToBytes(bytes)
                                    else ToText(Rendered(cell.value)))
            && ColumnBytes(s, i, size) == (if cell.None? || cell.value.NullCell? then 0
                                           else if cell.value.BlobCell? then |bytes|
                                           else size(Rendered(cell.value)))
  {
    hide Bindings, Distinct;
    if s.pos > 0 && s.started && !s.failed {
      assert |TextsOf(s.rows[s.pos - 1])| == |s.rows[s.pos - 1]| == |BlobsOf(s.rows[s.pos - 1])|;
    }
  }
}
