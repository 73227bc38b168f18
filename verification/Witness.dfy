/** A small engine and a small pair of codecs that keep the laws other theorems ask for. With them the
    size bound of the wire is an exact number of bytes. */
module Witness {
  import opened Prelude
  import opened Engine
  import opened Framing
  import opened Cursor
  import opened CursorRuns
  import opened Broker
  import opened Wire
  import R = BrokerInvariants
  import S = Script
  import P = ScriptSplit
  import Y = Busy
  import M = Mirror
  import B = Base64

  // ---------- an engine that echoes its parameter ----------

  /** The only statement: one row with the value of parameter 1. */
  datatype Letter = Echo

  /** The value bound to an index, NULL if there is none. */
  function BoundAt(binds: seq<Bind>, index: int): Value {
    if binds == [] then Null else if binds[0].index == index then binds[0].value else BoundAt(binds[1..], index)
  }

  const ECHO_ENGINE: Engine<Letter, (), ()> := Engine(
    (), _ => false, _ => false,
    (text, _, _) => if text == [] then Nothing(None) else Statement(Some(1), ["?1"]),
    (_, _) => true,
    (text, binds, _, _, inTx) => Ran([[BoundAt(binds, 1)]], None, (), (), if inTx then KeepOpen else Publish),
    _ => ZERO_COUNTERS)

  lemma {:induction false} HandedOverIsBound(binds: seq<Bind>, index: int, value: Value)
    requires HandedOver(binds, index, value)
    ensures BoundAt(binds, index) == value
  {
    if binds[0].index != index {
      assert Bind(index, value) in binds[1..];
      HandedOverIsBound(binds[1..], index, value);
    }
  }

  /** The engine keeps the laws of cut scripts, of answers that are never busy, and of echoing. */
  lemma EchoEngineIsLawful()
    ensures P.SingleStatement(ECHO_ENGINE) && Y.NeverBusyAlone(ECHO_ENGINE) && Echoes(ECHO_ENGINE, [Echo], 1)
  {
    forall binds: seq<Bind>, value: Value | HandedOver(binds, 1, value) ensures BoundAt(binds, 1) == value {
      HandedOverIsBound(binds, 1, value);
    }
    hide HandedOver, BoundAt;
  }

  // ---------- codecs of the one request and its answer ----------

  function Ascii(t: string): (r: Option<seq<Byte>>)
    ensures r.Some? ==> |r.value| == |t|
  {
    if t == "" then Some([])
    else
      var rest := Ascii(t[1..]);
      if t[0] as int >= 128 || rest.None? then None else Some([t[0] as int as bv8] + rest.value)
  }

  function FromAscii(b: seq<Byte>): string {
    if b == [] then "" else [b[0] as int as char] + FromAscii(b[1..])
  }

  lemma {:induction false} AsciiReadsBack(t: string)
    ensures Ascii(t).Some? ==> FromAscii(Ascii(t).value) == t
  {
    if t != "" {
      AsciiReadsBack(t[1..]);
      if Ascii(t).Some? {
        ByteOfInt(t[0] as int);
      }
    }
  }

  function EchoRequest(v: string): Request<Letter> {
    Exec([Echo], [Param(1, BlobCell(v))])
  }

  /** The body of a request is the text of its blob. */
  function WriteRequest(req: Request<Letter>): Option<seq<Byte>> {
    if req.Exec? && |req.params| == 1 && req.params[0].cell.BlobCell? && req == EchoRequest(req.params[0].cell.v)
    then Ascii(req.params[0].cell.v) else None
  }

  const REQUESTS: Codec<Request<Letter>> := Codec(WriteRequest, b => Some(EchoRequest(FromAscii(b))))

  function EchoAnswer(cell: Cell): Response {
    Response(None, ["?1"], [[cell]], true, 0, false, ZERO_COUNTERS)
  }

  /** The body of an answer is one byte for NULL, and one byte and the text for a blob. */
  function WriteAnswer(r: Response): Option<seq<Byte>> {
    if r == EchoAnswer(NullCell) then Some([0])
    else if |r.rows| == 1 && |r.rows[0]| == 1 && r.rows[0][0].BlobCell? && r == EchoAnswer(r.rows[0][0]) then
      var b := Ascii(r.rows[0][0].v);
      if b.None? then None else Some([1] + b.value)
    else None
  }

  function ReadAnswer(b: seq<Byte>): Option<Response> {
    if b == [] then None
    else Some(EchoAnswer(if b[0] == 0 then NullCell else BlobCell(FromAscii(b[1..]))))
  }

  const ANSWERS: Codec<Response> := Codec(WriteAnswer, ReadAnswer)

  lemma EchoCodecsAreLawful()
    ensures Lawful(REQUESTS) && Lawful(ANSWERS) && NoShorter(REQUESTS)
  {
    forall req | REQUESTS.ser(req).Some? ensures REQUESTS.de(REQUESTS.ser(req).value) == Some(req) {
      AsciiReadsBack(req.params[0].cell.v);
    }
    forall r | ANSWERS.ser(r).Some? ensures ANSWERS.de(ANSWERS.ser(r).value) == Some(r) {
      if r != EchoAnswer(NullCell) {
        AsciiReadsBack(r.rows[0][0].v);
      }
    }
    hide FromAscii;
  }

  // ---------- base64 is ASCII ----------

  lemma LetterIsAscii(group: bv32)
    requires group < 64
    ensures B.Letter(group) as int < 128
  {
    B.GroupOfTable(group as int);
  }

  lemma QuartetIsAscii(n: bv32)
    ensures forall i | 0 <= i < 4 :: B.Quartet(n)[i] as int < 128
  {
    hide B.Letter;
    LetterIsAscii(B.Group0(n));
    LetterIsAscii(B.Group1(n));
    LetterIsAscii(B.Group2(n));
    LetterIsAscii(B.Group3(n));
  }

  lemma {:induction false} EncodedIsAscii(bytes: seq<Byte>)
    ensures forall i | 0 <= i < |B.Encode(bytes)| :: B.Encode(bytes)[i] as int < 128
  {
    hide B.Quartet;
    if |bytes| >= 3 {
      QuartetIsAscii(B.PackBytes(bytes[0], bytes[1], bytes[2]));
      EncodedIsAscii(bytes[3..]);
    } else if |bytes| == 2 {
      QuartetIsAscii(B.PackBytes(bytes[0], bytes[1], 0));
    } else if |bytes| == 1 {
      QuartetIsAscii(B.PackBytes(bytes[0], 0, 0));
    }
  }

  lemma {:induction false} AsciiWrites(t: string)
    requires forall i | 0 <= i < |t| :: t[i] as int < 128
    ensures Ascii(t).Some?
  {
    if t != "" {
      AsciiWrites(t[1..]);
    }
  }

  // ---------- the bound, exactly ----------

  /** A worker that serves one session of the echoing engine. */
  const SERVING: W<Letter, (), ()> := W(map[1 := NewConn(ECHO_ENGINE)], None, [], (), [], [], [])

  const FRESH_STMT := NewStmt(["?1"])

  /** The largest blob this engine and these codecs carry: the answer's frame has one byte for the tag. */
  const ECHO_LIMIT := 12 * 1024 * 1024 - 3

  lemma EchoAnswers(bytes: seq<Byte>)
    ensures Sending(FRESH_STMT, 1, bytes) == [Param(1, BlobCell(B.Encode(bytes)))]
    ensures S.BindAll(ECHO_ENGINE, [Echo], Sending(FRESH_STMT, 1, bytes)) == Ok([Bind(1, Stored(bytes))])
    ensures ExecAnswer(ECHO_ENGINE, SERVING, 1, [Echo], Sending(FRESH_STMT, 1, bytes)).response
            == EchoAnswer(CellOf(Stored(bytes)))
  {
    var params := [Param(1, BlobCell(B.Encode(bytes)))];
    WholeBlobBound(FRESH_STMT, 1, bytes);
    assert Sending(FRESH_STMT, 1, bytes) == params;
    assert params[1..] == [];
    assert S.BindAll(ECHO_ENGINE, [Echo], params[1..]) == Ok([]);
    assert [Bind(1, Stored(bytes))] + [] == [Bind(1, Stored(bytes))];
    EchoRuns(params, [Bind(1, Stored(bytes))]);
  }

  lemma EchoRuns(params: seq<Param>, binds: seq<Bind>)
    requires S.BindAll(ECHO_ENGINE, [Echo], params) == Ok(binds)
    ensures ExecAnswer(ECHO_ENGINE, SERVING, 1, [Echo], params).response == EchoAnswer(CellOf(BoundAt(binds, 1)))
  {
    hide S.BindAll, BoundAt;
    var values := [[BoundAt(binds, 1)]];
    assert RowOf(values[0]) == [CellOf(BoundAt(binds, 1))];
    assert RowsOf(values) == [[CellOf(BoundAt(binds, 1))]];
    NoPrefix(RowsOf(values));
    assert !S.HasNul(ECHO_ENGINE, [Echo]);
  }

  /** Which of the two frames hold a blob. */
  lemma EchoFrames(bytes: seq<Byte>)
    ensures Frame(REQUESTS, EchoRequest(B.Encode(bytes))).Some? <==> |B.Encode(bytes)| <= FRAME_LIMIT
    ensures Frame(ANSWERS, EchoAnswer(CellOf(Stored(bytes)))).Some? <==>
            bytes == [] || |B.Encode(bytes)| + 1 <= FRAME_LIMIT
  {
    hide B.Encode, Ascii, Le32, EchoAnswer, EchoRequest, WriteAnswer, WriteRequest;
    EncodedIsAscii(bytes);
    AsciiWrites(B.Encode(bytes));
    EchoBodies(B.Encode(bytes));
  }

  lemma EchoBodies(v: string)
    requires Ascii(v).Some?
    ensures WriteRequest(EchoRequest(v)) == Ascii(v)
    ensures WriteAnswer(EchoAnswer(NullCell)) == Some([0])
    ensures WriteAnswer(EchoAnswer(BlobCell(v))) == Some([1] + Ascii(v).value)
  {
    hide Ascii;
  }

  lemma EchoBound(n: nat)
    ensures n <= BLOB_LIMIT <==> (n + 2) / 3 * 4 <= FRAME_LIMIT
    ensures n <= ECHO_LIMIT <==> (n + 2) / 3 * 4 <= FRAME_LIMIT && (n == 0 || (n + 2) / 3 * 4 + 1 <= FRAME_LIMIT)
  {
  }

  /** What the size of a blob decides, for codecs whose frames hold what `EchoFrames` says. */
  ghost predicate Outcome<C, L, D>(w: W<C, L, D>, x: Exchanged<C, L, D>, code: int, same: bool, n: nat) {
    && (n <= ECHO_LIMIT ==> code == ROW && same)
    && (n > ECHO_LIMIT ==> code == SQLITE_ERROR)
    && (ECHO_LIMIT < n <= BLOB_LIMIT ==> 1 !in x.w.sessions)
    && (n > BLOB_LIMIT ==> x.w == w)
  }

  lemma SizeDecides<C(!new), L(!new), D(!new)>(reqs: Codec<Request<C>>, resps: Codec<Response>, e: Engine<C, L, D>,
                                               w: W<C, L, D>, text: seq<C>, s: Stmt, bytes: seq<Byte>,
                                               size: Text -> nat)
    requires Lawful(reqs) && Lawful(resps) && R.Core(w) && R.MayRun(w, 1) && 1 in w.sessions
    requires Sound(s) && !s.started && EchoReady(e, text, 1, w.sessions[1], w.db)
    requires S.BindAll(e, text, Sending(s, 1, bytes)).Ok?
    requires Frame(reqs, Exec(text, Sending(s, 1, bytes))).Some? <==> (|bytes| + 2) / 3 * 4 <= FRAME_LIMIT
    requires Frame(resps, ExecAnswer(e, w, 1, text, Sending(s, 1, bytes)).response).Some? <==>
             bytes == [] || (|bytes| + 2) / 3 * 4 + 1 <= FRAME_LIMIT
    ensures var x := Exchange(reqs, resps, e, M.NEW_CACHE, w, 1, 0, Exec(text, Sending(s, 1, bytes)));
            var (s', code) := Step(BindBlob(s, 1, Some(bytes), |bytes|).0, x.reply);
            Outcome(w, x, code, ReadsAs(s', bytes, size), |bytes|)
  {
    hide Lawful, Frame, Exchange, Step, BindBlob, Sending, ExecAnswer, ReadsAs, EchoReady, Sound, S.BindAll, R.Core;
    EchoBound(|bytes|);
    BlobSurvives(reqs, resps, e, M.NEW_CACHE, w, 1, 0, text, s, 1, bytes, size);
  }

  /** With this engine and these codecs a blob comes back if and only if it has at most 12 MiB less
      three bytes. With more the step fails with code 1. Up to 12 MiB the request has been served and
      only the answer is too large: the session is gone. Beyond, the worker never hears of it. */
  lemma EchoLimitIsExact(bytes: seq<Byte>, size: Text -> nat)
    ensures var x := Exchange(REQUESTS, ANSWERS, ECHO_ENGINE, M.NEW_CACHE, SERVING, 1, 0,
                              Exec([Echo], Sending(FRESH_STMT, 1, bytes)));
            var (s', code) := Step(BindBlob(FRESH_STMT, 1, Some(bytes), |bytes|).0, x.reply);
            Outcome(SERVING, x, code, ReadsAs(s', bytes, size), |bytes|)
  {
    EchoEngineIsLawful();
    EchoCodecsAreLawful();
    EchoAnswers(bytes);
    B.EncodedLength(bytes);
    EchoFrames(bytes);
    NewIsSound(["?1"]);
    EchoIsReady();
    hide Lawful, P.SingleStatement, Y.NeverBusyAlone, Echoes, Exchange, Step, BindBlob, Sending, ExecAnswer,
         ReadsAs, EchoReady, B.Encode, Sound, Frame, EchoAnswer, S.BindAll, R.Core, NoShorter, CellOf, Stored, Outcome;
    SizeDecides(REQUESTS, ANSWERS, ECHO_ENGINE, SERVING, [Echo], FRESH_STMT, bytes, size);
  }

  lemma EchoIsReady()
    ensures EchoReady(ECHO_ENGINE, [Echo], 1, SERVING.sessions[1], SERVING.db)
    ensures R.Core(SERVING) && R.MayRun(SERVING, 1)
  {
    EchoEngineIsLawful();
    assert !S.HasNul(ECHO_ENGINE, [Echo]);
    hide Echoes;
  }
}
