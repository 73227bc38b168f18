/** Length-prefixed frames over a byte stream. The body codec is a parameter. */
module Framing {
  import opened Prelude

  const FRAME_LIMIT: nat := 16 * 1024 * 1024

  /** A serialiser and a parser of message bodies. Either may refuse its input. */
  datatype Codec<!M> = Codec(ser: M -> Option<seq<Byte>>, de: seq<Byte> -> Option<M>)

  /** Parsing undoes serialising. */
  ghost predicate Lawful<M(!new)>(c: Codec<M>) {
    forall m: M :: c.ser(m).Some? ==> c.de(c.ser(m).value) == Some(m)
  }

  datatype ReadError = UnexpectedEof | FrameTooLarge | BadBody

  // ---------- the length prefix ----------

  function Le32(n: nat): (r: seq<Byte>)
    requires n < 0x1_0000_0000
    ensures |r| == 4
  {
    [(n % 0x100) as bv8, (n / 0x100 % 0x100) as bv8, (n / 0x1_0000 % 0x100) as bv8, (n / 0x100_0000) as bv8]
  }

  function FromLe32(b: seq<Byte>): nat
    requires |b| == 4
  {
    b[0] as int + b[1] as int * 0x100 + b[2] as int * 0x1_0000 + b[3] as int * 0x100_0000
  }

  /** Proved bit length by bit length. */
  lemma ByteOfInt(x: int)
    requires 0 <= x < 0x100
    ensures (x as bv8) as int == x
  {
    if x < 16 {
    } else if x < 32 {
    } else if x < 64 {
    } else if x < 128 {
    } else if x < 192 {
    }
  }

  lemma DigitsOf(n: nat)
    ensures n == n % 0x100 + n / 0x100 % 0x100 * 0x100 + n / 0x1_0000 % 0x100 * 0x1_0000 + n / 0x100_0000 * 0x100_0000
  {
    var a, b := n / 0x100, n / 0x1_0000;
    assert n == n % 0x100 + a * 0x100;
    assert b == a / 0x100;
    assert a == a % 0x100 + b * 0x100;
    assert n / 0x100_0000 == b / 0x100;
    assert b == b % 0x100 + b / 0x100 * 0x100;
  }

  lemma LengthIsLossless(n: nat)
    requires n < 0x1_0000_0000
    ensures FromLe32(Le32(n)) == n
  {
    var a, b, c, d := n % 0x100, n / 0x100 % 0x100, n / 0x1_0000 % 0x100, n / 0x100_0000;
    DigitsOf(n);
    FourBytes(a, b, c, d);
  }

  lemma FourBytes(a: int, b: int, c: int, d: int)
    requires 0 <= a < 0x100 && 0 <= b < 0x100 && 0 <= c < 0x100 && 0 <= d < 0x100
    ensures FromLe32([a as bv8, b as bv8, c as bv8, d as bv8]) == a + b * 0x100 + c * 0x1_0000 + d * 0x100_0000
  {
    ByteOfInt(a);
    ByteOfInt(b);
    ByteOfInt(c);
    ByteOfInt(d);
  }

  /** The prefix is the length in bytes, least significant first. */
  lemma PrefixIsLittleEndian(n: nat)
    requires n < 0x1_0000_0000
    ensures Le32(n)[0] as int == n % 256 && Le32(n)[1] as int == n / 256 % 256
    ensures Le32(n)[2] as int == n / 65536 % 256 && Le32(n)[3] as int == n / 16777216
  {
    ByteOfInt(n % 0x100);
    ByteOfInt(n / 0x100 % 0x100);
    ByteOfInt(n / 0x1_0000 % 0x100);
    ByteOfInt(n / 0x100_0000);
  }

  // ---------- one frame ----------

  /** The bytes of one message, unless it cannot be serialised or is too large. */
  function Frame<M>(c: Codec<M>, m: M): Option<seq<Byte>> {
    var body := c.ser(m);
    if body.None? || |body.value| > FRAME_LIMIT then None
    else Some(Le32(|body.value|) + body.value)
  }

  /** What reading one message from `data` yields: the message and the bytes left. */
  function ReadFrame<M>(c: Codec<M>, data: seq<Byte>): (r: Result<(M, seq<Byte>), ReadError>)
    ensures r.Ok? ==> |r.value.1| < |data|
  {
    if |data| < 4 then Err(UnexpectedEof) else
    var n := FromLe32(data[..4]);
    if n > FRAME_LIMIT then Err(FrameTooLarge)
    else if |data| - 4 < n then Err(UnexpectedEof)
    else
      var m := c.de(data[4..4 + n]);
      if m.None? then Err(BadBody) else Ok((m.value, data[4 + n..]))
  }

  /** A frame is four bytes with the length of the body, least significant first, and the body; there is
      none for a body above 16 MiB or a message that does not serialise. */
  lemma FrameLayout<M>(c: Codec<M>, m: M)
    ensures Frame(c, m).Some? <==> c.ser(m).Some? && |c.ser(m).value| <= 16777216
    ensures Frame(c, m).Some? ==>
              var (frame, n) := (Frame(c, m).value, |c.ser(m).value|);
              && |frame| == 4 + n && frame[4..] == c.ser(m).value
              && frame[0] as int == n % 256 && frame[1] as int == n / 256 % 256
              && frame[2] as int == n / 65536 % 256 && frame[3] as int == n / 16777216
  {
    if Frame(c, m).Some? {
      PrefixIsLittleEndian(|c.ser(m).value|);
    }
    hide Le32;
  }

  /** Reading decides by the four bytes of the prefix: too few bytes for it or for the body are an end of
      file, a length above 16777216 is refused whatever follows, and then the body decides. */
  lemma ReadFrameMeans<M>(c: Codec<M>, data: seq<Byte>)
    ensures |data| < 4 ==> ReadFrame(c, data) == Err(UnexpectedEof)
    ensures |data| >= 4 ==>
              var n := data[0] as int + data[1] as int * 256 + data[2] as int * 65536 + data[3] as int * 16777216;
              && (n > 16777216 ==> ReadFrame(c, data) == Err(FrameTooLarge))
              && (n <= 16777216 && |data| - 4 < n ==> ReadFrame(c, data) == Err(UnexpectedEof))
              && (n <= 16777216 && |data| - 4 >= n ==>
                  var m := c.de(data[4..4 + n]);
                  ReadFrame(c, data) == if m.None? then Err(BadBody) else Ok((m.value, data[4 + n..])))
  {
  }

  class ByteStream {
    var data: seq<Byte>
    var pos: nat

    ghost predicate Valid() reads this { pos <= |data| }

    /** The bytes not read yet. */
    ghost function Unread(): seq<Byte>
      requires Valid()
      reads this
    {
      data[pos..]
    }

    constructor (data: seq<Byte>)
      ensures Valid() && this.data == data && pos == 0
    {
      this.data, pos := data, 0;
    }

    method WriteAll(bytes: seq<Byte>)
      requires Valid()
      modifies this`data
      ensures Valid() && data == old(data) + bytes
    {
      data := data + bytes;
    }

    /** Takes `n` bytes, or fails at the end of the stream. */
    method ReadExact(n: nat) returns (r: Option<seq<Byte>>)
      requires Valid()
      modifies this`pos
      ensures Valid()
      ensures r.Some? <==> n <= |old(Unread())|
      ensures r.Some? ==> r.value == old(Unread())[..n] && Unread() == old(Unread())[n..]
      ensures r.None? ==> Unread() == []
    {
      if n <= |data| - pos {
        r := Some(data[pos..pos + n]);
        pos := pos + n;
      } else {
        r := None;
        pos := |data|;
      }
    }
  }

  method WriteMsg<M>(c: Codec<M>, w: ByteStream, m: M) returns (ok: bool)
    requires w.Valid()
    modifies w`data
    ensures w.Valid() && ok == Frame(c, m).Some?
    ensures w.data == if ok then old(w.data) + Frame(c, m).value else old(w.data)
  {
    var body := c.ser(m);
    if body.None? || |body.value| > FRAME_LIMIT {
      return false;
    }
    w.WriteAll(Le32(|body.value|));
    w.WriteAll(body.value);
    assert old(w.data) + Le32(|body.value|) + body.value == old(w.data) + (Le32(|body.value|) + body.value);
    ok := true;
  }

  method ReadMsg<M>(c: Codec<M>, s: ByteStream) returns (r: Result<M, ReadError>)
    requires s.Valid()
    modifies s`pos
    ensures s.Valid()
    ensures match ReadFrame(c, old(s.Unread()))
            case Ok((m, rest)) => r == Ok(m) && s.Unread() == rest
            case Err(e) => r == Err(e)
  {
    var prefix := s.ReadExact(4);
    if prefix.None? {
      return Err(UnexpectedEof);
    }
    var n := FromLe32(prefix.value);
    if n > FRAME_LIMIT {
      return Err(FrameTooLarge);
    }
    var body := s.ReadExact(n);
    if body.None? {
      return Err(UnexpectedEof);
    }
    ghost var bytes := old(s.Unread());
    assert bytes[4..][..n] == bytes[4..4 + n] && bytes[4..][n..] == bytes[4 + n..];
    var m := c.de(body.value);
    r := if m.None? then Err(BadBody) else Ok(m.value);
  }

  // ---------- whole conversations ----------

  /** The concatenated frames of a list of messages, each within the size bound. */
  function FrameAll<M>(c: Codec<M>, ms: seq<M>): seq<Byte>
    requires forall m | m in ms :: Frame(c, m).Some?
  {
    if ms == [] then [] else Frame(c, ms[0]).value + FrameAll(c, ms[1..])
  }

  /** Every message read before the first failure, and that failure. */
  function ReadAll<M>(c: Codec<M>, data: seq<Byte>): (seq<M>, ReadError)
    decreases |data|
  {
    match ReadFrame(c, data)
    case Err(e) => ([], e)
    case Ok((m, rest)) => var r := ReadAll(c, rest); ([m] + r.0, r.1)
  }

  lemma FrameReadsBack<M(!new)>(c: Codec<M>, m: M, rest: seq<Byte>)
    requires Lawful(c) && Frame(c, m).Some?
    ensures ReadFrame(c, Frame(c, m).value + rest) == Ok((m, rest))
  {
    var body := c.ser(m).value;
    var data := Frame(c, m).value + rest;
    LengthIsLossless(|body|);
    assert data[..4] == Le32(|body|);
    assert data[4..4 + |body|] == body;
    assert data[4 + |body|..] == rest;
  }

  /** A frame cut anywhere before its end fails with end-of-file and yields no message. */
  lemma CutFrameFails<M(!new)>(c: Codec<M>, m: M, k: nat)
    requires Frame(c, m).Some? && k < |Frame(c, m).value|
    ensures ReadFrame(c, Frame(c, m).value[..k]) == Err(UnexpectedEof)
  {
    var body := c.ser(m).value;
    var data := Frame(c, m).value[..k];
    if k >= 4 {
      LengthIsLossless(|body|);
      assert data[..4] == Le32(|body|);
    }
  }

  lemma NothingToRead<M>(c: Codec<M>)
    ensures ReadFrame(c, []) == Err(UnexpectedEof)
  {
  }

  /** Reading back any conversation, cut after any number of bytes, returns exactly the
      messages whose frames are complete, then reports end-of-file. */
  lemma {:induction false} CutConversation<M(!new)>(c: Codec<M>, ms: seq<M>, k: nat) returns (j: nat)
    requires Lawful(c) && (forall m | m in ms :: Frame(c, m).Some?) && k <= |FrameAll(c, ms)|
    ensures j <= |ms| && ReadAll(c, FrameAll(c, ms)[..k]) == (ms[..j], UnexpectedEof)
    ensures |FrameAll(c, ms[..j])| <= k
    ensures j < |ms| ==> k < |FrameAll(c, ms[..j + 1])|
  {
    hide Frame, ReadFrame;
    if ms == [] {
      NothingToRead(c);
      assert FrameAll(c, ms)[..k] == [] && ms[..0] == [];
      return 0;
    }
    var first := Frame(c, ms[0]).value;
    var all, tail := FrameAll(c, ms), FrameAll(c, ms[1..]);
    if k < |first| {
      assert all[..k] == first[..k];
      CutFrameFails(c, ms[0], k);
      assert ms[..1][1..] == [];
      return 0;
    }
    assert all[..k] == first + tail[..k - |first|];
    FrameReadsBack(c, ms[0], tail[..k - |first|]);
    var i := CutConversation(c, ms[1..], k - |first|);
    j := i + 1;
    assert ms[..j] == [ms[0]] + ms[1..][..i];
    assert ms[..j][1..] == ms[1..][..i];
    if j < |ms| {
      assert ms[..j + 1][1..] == ms[1..][..i + 1];
    }
  }

  /** Uncut, the whole list comes back and the stream is used up. */
  lemma Conversation<M(!new)>(c: Codec<M>, ms: seq<M>)
    requires Lawful(c) && (forall m | m in ms :: Frame(c, m).Some?)
    ensures ReadAll(c, FrameAll(c, ms)) == (ms, UnexpectedEof)
  {
    var all := FrameAll(c, ms);
    var j := CutConversation(c, ms, |all|);
    assert all[..|all|] == all;
    if j < |ms| {
      LongerIsLonger(c, ms, j);
    }
    assert ms[..|ms|] == ms;
  }

  lemma {:induction false} LongerIsLonger<M>(c: Codec<M>, ms: seq<M>, j: nat)
    requires (forall m | m in ms :: Frame(c, m).Some?) && j < |ms|
    ensures |FrameAll(c, ms[..j + 1])| <= |FrameAll(c, ms)|
  {
    if j == 0 {
      assert ms[..1][1..] == [];
    } else {
      LongerIsLonger(c, ms[1..], j - 1);
      assert ms[..j + 1][1..] == ms[1..][..j];
    }
  }
}
