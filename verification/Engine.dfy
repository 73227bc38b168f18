/** SQLite as an arbitrary engine: every theorem about the broker holds for any value of `Engine`.

    `C` is the alphabet of SQL text, `L` the private state of one connection and `D` a database.
    The structure alone carries the assumptions: a connection in autocommit has no working copy,
    compiling changes nothing, and closing a connection discards its working copy. */
module Engine {
  import opened Prelude
  import B = Base64

  // ---------- cells on the wire and values in the engine ----------

  /** One cell as the wire carries it. A blob travels as base64 text. */
  datatype Cell = NullCell | IntCell(i: int) | RealCell(r: real) | TextCell(t: string) | BlobCell(v: string)

  datatype Value = Null | Int(i: int) | Real(r: real) | Text(t: string) | Blob(b: seq<Byte>)

  datatype Param = Param(index: int, cell: Cell)

  datatype Bind = Bind(index: int, value: Value)

  /** The text up to its first NUL, as a C string carries it. */
  function UpToNul(t: string): (r: string)
    ensures '\0' !in r && ('\0' !in t ==> r == t)
  {
    if t == "" || t[0] == '\0' then "" else [t[0]] + UpToNul(t[1..])
  }

  /** The value the engine gets for a bound cell; none for a text with a NUL, and for a blob that is
      not base64. A blob of no bytes is bound with a null pointer, which binds NULL. */
  function ValueOf(cell: Cell): Option<Value> {
    match cell
    case NullCell => Some(Null)
    case IntCell(i) => Some(Int(i))
    case RealCell(r) => Some(Real(r))
    case TextCell(t) => if '\0' in t then None else Some(Text(t))
    case BlobCell(v) =>
      var b := B.Decode(v);
      if b.None? then None else Some(if b.value == [] then Null else Blob(b.value))
  }

  /** The cell that carries a value read from a row. */
  function CellOf(value: Value): Cell {
    match value
    case Null => NullCell
    case Int(i) => IntCell(i)
    case Real(r) => RealCell(r)
    case Text(t) => TextCell(UpToNul(t))
    case Blob(b) => BlobCell(B.Encode(b))
  }

  function RowOf(row: seq<Value>): (r: seq<Cell>)
    ensures |r| == |row| && forall i | 0 <= i < |row| :: r[i] == CellOf(row[i])
  {
    if row == [] then [] else [CellOf(row[0])] + RowOf(row[1..])
  }

  function RowsOf(rows: seq<seq<Value>>): (r: seq<seq<Cell>>)
    ensures |r| == |rows| && forall i | 0 <= i < |rows| :: r[i] == RowOf(rows[i])
  {
    if rows == [] then [] else [RowOf(rows[0])] + RowsOf(rows[1..])
  }

  lemma RowsOfAppend(a: seq<seq<Value>>, b: seq<seq<Value>>)
    ensures RowsOf(a + b) == RowsOf(a) + RowsOf(b)
  {
    hide RowsOf, RowOf;
    forall i | 0 <= i < |a + b| ensures RowsOf(a + b)[i] == (RowsOf(a) + RowsOf(b))[i] {
      if i < |a| {
        assert (a + b)[i] == a[i];
      } else {
        assert (a + b)[i] == b[i - |a|];
      }
    }
  }

  /** What the engine is given for a cell, kind by kind. */
  lemma ValueMeans(cell: Cell)
    ensures cell.NullCell? ==> ValueOf(cell) == Some(Null)
    ensures cell.IntCell? ==> ValueOf(cell) == Some(Int(cell.i))
    ensures cell.RealCell? ==> ValueOf(cell) == Some(Real(cell.r))
    ensures cell.TextCell? ==> ValueOf(cell) == if '\0' in cell.t then None else Some(Text(cell.t))
    ensures cell.BlobCell? && B.Decode(cell.v).None? ==> ValueOf(cell).None?
    ensures cell.BlobCell? && B.Decode(cell.v) == Some([]) ==> ValueOf(cell) == Some(Null)
    ensures forall b: seq<Byte> {:trigger Blob(b)} ::
              b != [] && cell.BlobCell? && B.Decode(cell.v) == Some(b) ==> ValueOf(cell) == Some(Blob(b))
  {
    hide B.Decode;
  }

  /** A value read from a row and bound again is the same value exactly if it is neither the empty
      blob, which comes back as NULL, nor a text with a NUL, which is cut there. */
  lemma CellRoundTrip(value: Value)
    ensures ValueOf(CellOf(value)).Some?
    ensures ValueOf(CellOf(value)) == Some(value) <==> value != Blob([]) && (value.Text? ==> '\0' !in value.t)
    ensures value == Blob([]) ==> ValueOf(CellOf(value)) == Some(Null)
    ensures value.Text? ==> ValueOf(CellOf(value)) == Some(Text(UpToNul(value.t)))
  {
    if value.Blob? {
      B.RoundTrip(value.b);
    }
  }

  // ---------- the engine ----------

  /** How a statement leaves its connection: inside a transaction with a working copy, or in
      autocommit with its effect published, or in autocommit with its effect discarded. */
  datatype TxEnd = KeepOpen | Publish | Discard

  /** `sqlite3_prepare_v2` on a text. A tail is an offset into that text; an offset at or past
      the end stands on the terminating NUL. */
  datatype Compiled =
    | Failed(code: int)
    | Nothing(tail: Option<nat>)
    | Statement(tail: Option<nat>, columns: seq<string>)

  /** Stepping a compiled statement to its end: rows produced, then done or an error. */
  datatype Ran<L, D> = Ran(rows: seq<seq<Value>>, error: Option<int>, local: L, view: D, end: TxEnd)

  datatype Counters = Counters(changes: int, rowid: int, total: int)

  datatype Engine<!C, !L, !D> = Engine(
    start: L,
    nul: C -> bool,
    space: C -> bool,
    compile: (seq<C>, L, D) -> Compiled,
    accepts: (seq<C>, Bind) -> bool,
    run: (seq<C>, seq<Bind>, L, D, bool) -> Ran<L, D>,
    counters: L -> Counters)

  /** One connection. `open` counts statements compiled and not yet finalised. */
  datatype Conn<L, D> = Conn(local: L, tx: Option<D>, open: nat) {
    predicate Autocommit() { tx.None? }

    /** A connection holds a lock while it is in a transaction or has an unfinalised statement. */
    predicate Locked() { tx.Some? || open > 0 }

    /** What the connection sees: its working copy, or the committed database. */
    function View(db: D): D {
      if tx.Some? then tx.value else db
    }

    function Opened(): Conn<L, D> { this.(open := open + 1) }

    function Finalized(): Conn<L, D> {
      if open == 0 then this else this.(open := open - 1)
    }

    /** The connection and the committed database after a statement ran. */
    function Landed(db: D, ran: Ran<L, D>): (Conn<L, D>, D) {
      match ran.end
      case KeepOpen => (Conn(ran.local, Some(ran.view), open), db)
      case Publish => (Conn(ran.local, None, open), ran.view)
      case Discard => (Conn(ran.local, None, open), db)
    }
  }

  function NewConn<C, L, D>(e: Engine<C, L, D>): Conn<L, D> {
    Conn(e.start, None, 0)
  }

  // ---------- responses ----------

  datatype Fault =
    | Sqlite(code: int)
    | Busy
    | EmbeddedNul
    | BadBind
    | TrailingSql
    | NoSession
    | SessionClosed

  const SQLITE_ERROR := 1
  const SQLITE_BUSY := 5

  /** The result code the wire carries for a fault. */
  function CodeOf(f: Fault): int {
    match f
    case Sqlite(code) => code
    case Busy => SQLITE_BUSY
    case _ => SQLITE_ERROR
  }

  datatype Response = Response(
    fault: Option<Fault>,
    columns: seq<string>,
    rows: seq<seq<Cell>>,
    autocommit: bool,
    tail: nat,
    empty: bool,
    counters: Counters)

  const ZERO_COUNTERS := Counters(0, 0, 0)

  function ErrorResponse(autocommit: bool, f: Fault): Response {
    Response(Some(f), [], [], autocommit, 0, false, ZERO_COUNTERS)
  }

  const CLOSED_RESPONSE := Response(None, [], [], true, 0, false, ZERO_COUNTERS)
}
