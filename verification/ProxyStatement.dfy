/** The prepared statement as it runs: an object whose fields the C calls update. */
module ProxyStatement {
  import opened Prelude
  import opened Engine
  import opened Cursor
  import B = Base64

  class ProxyStmt {
    var params: seq<Param>
    var columns: seq<string>
    var rows: seq<Row>
    var texts: seq<Text>
    var blobs: seq<seq<Byte>>
    var pos: nat
    var started: bool
    var failed: bool
    var lastStep: int
    ghost var asked: seq<seq<Param>>

    ghost function State(): Stmt
      reads this
    {
      Stmt(params, columns, rows, texts, blobs, pos, started, failed, lastStep, asked)
    }

    constructor (columns: seq<string>)
      ensures State() == NewStmt(columns)
    {
      this.columns := columns;
      params, rows, texts, blobs, pos, started, failed, lastStep, asked := [], [], [], [], 0, false, false, 0, [];
    }

    method CacheCurrentRow()
      requires pos > 0
      modifies this`texts, this`blobs
      ensures State() == CacheRow(old(State()))
    {
      texts, blobs := [], [];
      if pos > |rows| {
        return;
      }
      hide TextOf, BytesOf;
      var row := rows[pos - 1];
      assert row[..0] == [];
      for i := 0 to |row|
        invariant texts == TextsOf(row[..i]) && blobs == BlobsOf(row[..i])
        modifies this`texts, this`blobs
      {
        var text, bytes := ReadCell(row[i]);
        assert row[..i + 1] == row[..i] + [row[i]];
        OneMoreCell(row[..i], row[i]);
        hide TextsOf, BlobsOf, CacheRow;
        texts := texts + [text];
        blobs := blobs + [bytes];
      }
      assert row[..|row|] == row;
    }

    /** `reply` is what the broker answers if this step has to ask it. */
    method StepStmt(reply: Reply) returns (code: int)
      modifies this
      ensures (State(), code) == Step(old(State()), reply)
    {
      hide TextsOf, BlobsOf, CacheRow;
      if !started {
        asked := asked + [params];
        match reply {
          case Rows(cols, answer) =>
            if cols != [] {
              columns := cols;
            }
            rows, pos, failed, started := answer, 0, false, true;
          case Refused(errcode) =>
            failed, started := true, true;
            code := if errcode == 0 then SQLITE_ERROR else errcode;
            lastStep := code;
            return;
        }
      }
      if failed {
        return if lastStep == 0 then SQLITE_ERROR else lastStep;
      }
      if pos < |rows| {
        pos := pos + 1;
        CacheCurrentRow();
        lastStep := ROW;
        code := ROW;
      } else {
        lastStep := DONE;
        code := DONE;
      }
    }

    method ResetStmt()
      modifies this
      ensures State() == Reset(old(State()))
    {
      started, failed, rows, texts, blobs, pos, lastStep := false, false, [], [], [], 0, 0;
    }

    /** Overwrites the first parameter with this index, or adds one. */
    method UpsertParam(index: int, cell: Cell)
      modifies this`params
      ensures params == Upsert(old(params), index, cell)
    {
      hide Upsert;
      UpsertFromStart(params, index, cell);
      for i := 0 to |params|
        invariant params == old(params)
        invariant UpsertedFrom(params, i, index, cell)
      {
        UpsertAt(params, i, index, cell);
        if params[i].index == index {
          params := params[i := Param(index, cell)];
          return;
        }
      }
      UpsertAtEnd(params, index, cell);
      params := params + [Param(index, cell)];
    }

    method BindAny(index: int, cell: Cell) returns (code: int)
      modifies this`params
      ensures (State(), code) == BindCell(old(State()), index, cell)
    {
      if started || index <= 0 {
        return MISUSE;
      }
      UpsertParam(index, cell);
      code := SQLITE_OK;
    }

    method BindBlobValue(index: int, value: Option<seq<Byte>>, n: int) returns (code: int)
      requires value.Some? ==> n <= |value.value|
      modifies this`params
      ensures (State(), code) == BindBlob(old(State()), index, value, n)
    {
      if started || index <= 0 {
        return MISUSE;
      }
      if value.None? && n > 0 {
        return MISUSE;
      }
      if n < 0 {
        return TOOBIG;
      }
      var bytes := if n == 0 || value.None? then [] else value.value[..n];
      var text := B.EncodeBase64(bytes);
      UpsertParam(index, BlobCell(text));
      code := SQLITE_OK;
    }

    method BindZeroes(index: int, n: int) returns (code: int)
      modifies this`params
      ensures (State(), code) == BindZeroblob(old(State()), index, n)
    {
      if started || index <= 0 {
        return MISUSE;
      }
      if n < 0 || n > MAX_ZEROBLOB {
        return TOOBIG;
      }
      var text := B.EncodeBase64(Zeros(n));
      UpsertParam(index, BlobCell(text));
      code := SQLITE_OK;
    }

    method Clear()
      modifies this`params
      ensures State() == ClearBindings(old(State()))
    {
      params := [];
    }
  }

  /** The text and the bytes cached for one cell. */
  method ReadCell(cell: Cell) returns (text: Text, bytes: seq<Byte>)
    ensures text == TextOf(cell) && bytes == BytesOf(cell)
  {
    match cell {
      case BlobCell(v) =>
        var decoded := B.DecodeBase64(v);
        bytes := if decoded.Some? then decoded.value else [];
        text := Lossy(bytes);
      case _ =>
        text, bytes := Rendered(cell), [];
    }
  }

  lemma OneMoreCell(row: Row, cell: Cell)
    ensures TextsOf(row + [cell]) == TextsOf(row) + [TextOf(cell)]
    ensures BlobsOf(row + [cell]) == BlobsOf(row) + [BytesOf(cell)]
  {
    hide TextOf, BytesOf;
  }

  /** The parameters before `i` stay as they are. */
  ghost predicate UpsertedFrom(params: seq<Param>, i: nat, index: int, cell: Cell)
    requires i <= |params|
  {
    params[..i] + Upsert(params[i..], index, cell) == Upsert(params, index, cell)
  }

  lemma UpsertFromStart(params: seq<Param>, index: int, cell: Cell)
    ensures UpsertedFrom(params, 0, index, cell)
  {
    hide Upsert;
    assert params[0..] == params;
    assert params[..0] == [];
    NoPrefix(Upsert(params, index, cell));
  }

  lemma UpsertAt(params: seq<Param>, i: nat, index: int, cell: Cell)
    requires i < |params| && UpsertedFrom(params, i, index, cell)
    ensures params[i].index == index ==> params[i := Param(index, cell)] == Upsert(params, index, cell)
    ensures params[i].index != index ==> UpsertedFrom(params, i + 1, index, cell)
  {
    UpsertFront(params[i..], index, cell);
    hide Upsert;
    assert params[i..][1..] == params[i + 1..];
    if params[i].index == index {
      assert params[i := Param(index, cell)] == params[..i] + ([Param(index, cell)] + params[i + 1..]);
    } else {
      assert params[..i + 1] == params[..i] + [params[i]];
      Assoc(params[..i], [params[i]], Upsert(params[i + 1..], index, cell));
    }
  }

  lemma UpsertFront(params: seq<Param>, index: int, cell: Cell)
    requires params != []
    ensures Upsert(params, index, cell) == if params[0].index == index then [Param(index, cell)] + params[1..]
                                           else [params[0]] + Upsert(params[1..], index, cell)
  {
  }

  lemma UpsertAtEnd(params: seq<Param>, index: int, cell: Cell)
    requires UpsertedFrom(params, |params|, index, cell)
    ensures params + [Param(index, cell)] == Upsert(params, index, cell)
  {
    assert params[..|params|] == params && params[|params|..] == [];
  }
}
