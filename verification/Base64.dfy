/** The base64 codec of the wire protocol (section 4 of RFC 4648), with its bit packing. */
module Base64 {
  import opened Prelude

  const UPPER: string := "ABCDEFGHIJKLMNOPQRSTUVWXYZ"
  const LOWER: string := "abcdefghijklmnopqrstuvwxyz"
  const DIGITS: string := "0123456789"
  const TABLE: string := UPPER + LOWER + DIGITS + "+/"

  function TableAt(i: int): char
    requires 0 <= i < 64
  {
    TABLE[i]
  }

  /** The alphabet's letter for a six-bit group. */
  function Letter(group: bv32): char
    requires group < 64
  {
    TableAt(group as int)
  }

  /** The six-bit group of a letter; none for a character outside the alphabet. */
  function Group(c: char): (r: Option<int>)
    ensures r.Some? ==> 0 <= r.value < 64
  {
    if 'A' <= c <= 'Z' then Some(c as int - 'A' as int)
    else if 'a' <= c <= 'z' then Some(c as int - 'a' as int + 26)
    else if '0' <= c <= '9' then Some(c as int - '0' as int + 52)
    else if c == '+' then Some(62)
    else if c == '/' then Some(63)
    else None
  }

  /** The alphabet by its ASCII codes: the capitals, the small letters, the digits, `+` and `/`. */
  lemma AlphabetIs(i: int)
    requires 0 <= i < 64
    ensures TableAt(i) as int ==
            if i < 26 then 65 + i else if i < 52 then 97 + i - 26 else if i < 62 then 48 + i - 52
            else if i == 62 then 43 else 47
  {
    if i < 26 {
      UpperAt(i);
    } else if i < 52 {
      LowerAt(i - 26);
    } else if i < 62 {
      DigitAt(i - 52);
    }
  }

  // ---------- words of 24 bits, seen as four groups or as three bytes ----------

  function Group0(n: bv32): (g: bv32) ensures g < 64 { (n >> 18) & 63 }
  function Group1(n: bv32): (g: bv32) ensures g < 64 { (n >> 12) & 63 }
  function Group2(n: bv32): (g: bv32) ensures g < 64 { (n >> 6) & 63 }
  function Group3(n: bv32): (g: bv32) ensures g < 64 { n & 63 }

  function Byte0(n: bv32): Byte { ((n >> 16) & 255) as bv8 }
  function Byte1(n: bv32): Byte { ((n >> 8) & 255) as bv8 }
  function Byte2(n: bv32): Byte { (n & 255) as bv8 }

  function PackBytes(a: Byte, b: Byte, c: Byte): bv32 {
    ((a as bv32) << 16) | ((b as bv32) << 8) | (c as bv32)
  }

  function PackGroups(a: bv32, b: bv32, c: bv32, d: bv32): bv32 {
    (a << 18) | (b << 12) | (c << 6) | d
  }

  lemma BytesSurvive(a: Byte, b: Byte, c: Byte)
    ensures var n := PackBytes(a, b, c);
            && PackGroups(Group0(n), Group1(n), Group2(n), Group3(n)) == n
            && Byte0(n) == a && Byte1(n) == b && Byte2(n) == c
            && (c == 0 ==> Group3(n) == 0 && Group2(n) & 3 == 0)
            && (b == 0 && c == 0 ==> Group2(n) == 0 && Group1(n) & 15 == 0)
  {
  }

  lemma GroupsSurvive(a: bv32, b: bv32, c: bv32, d: bv32)
    requires a < 64 && b < 64 && c < 64 && d < 64
    ensures var n := PackGroups(a, b, c, d);
            && PackBytes(Byte0(n), Byte1(n), Byte2(n)) == n
            && Group0(n) == a && Group1(n) == b && Group2(n) == c && Group3(n) == d
            && (d == 0 && c & 3 == 0 ==> Byte2(n) == 0)
            && (d == 0 && c == 0 && b & 15 == 0 ==> Byte1(n) == 0 && Byte2(n) == 0)
  {
  }

  // ---------- encoding ----------

  /** The four letters of a 24-bit word, most significant group first. */
  function Quartet(n: bv32): (r: string)
    ensures |r| == 4
  {
    [Letter(Group0(n)), Letter(Group1(n)), Letter(Group2(n)), Letter(Group3(n))]
  }

  function EncodeRest(rest: seq<Byte>): string
    requires |rest| < 3
  {
    if |rest| == 1 then Quartet(PackBytes(rest[0], 0, 0))[..2] + "=="
    else if |rest| == 2 then Quartet(PackBytes(rest[0], rest[1], 0))[..3] + "="
    else ""
  }

  function Encode(data: seq<Byte>): string {
    if |data| < 3 then EncodeRest(data)
    else Quartet(PackBytes(data[0], data[1], data[2])) + Encode(data[3..])
  }

  method EncodeBase64(data: seq<Byte>) returns (out: string)
    ensures out == Encode(data)
    ensures |out| == (|data| + 2) / 3 * 4
  {
    hide Quartet, PackBytes;
    out := "";
    var i := 0;
    assert data[0..] == data;
    while i + 3 <= |data|
      invariant 0 <= i <= |data|
      invariant out + Encode(data[i..]) == Encode(data)
    {
      var n := PackBytes(data[i], data[i + 1], data[i + 2]);
      Assoc(out, Quartet(n), Encode(data[i + 3..]));
      assert data[i..][3..] == data[i + 3..];
      out := out + Quartet(n);
      i := i + 3;
    }
    var rest := data[i..];
    if |rest| == 1 {
      out := out + (Quartet(PackBytes(rest[0], 0, 0))[..2] + "==");
    } else if |rest| == 2 {
      out := out + (Quartet(PackBytes(rest[0], rest[1], 0))[..3] + "=");
    }
    EncodedLength(data);
  }

  lemma {:induction false} EncodedLength(data: seq<Byte>)
    ensures |Encode(data)| == (|data| + 2) / 3 * 4
  {
    if |data| >= 3 {
      EncodedLength(data[3..]);
    }
  }

  /** Test vectors of section 10 of RFC 4648. */
  lemma EncodeVectors()
    ensures Encode([102]) == "Zg==" && Encode([102, 111]) == "Zm8=" && Encode([102, 111, 111]) == "Zm9v"
    ensures Encode([102, 111, 111, 98, 97, 114]) == "Zm9vYmFy"
  {
    ShortVectors();
    ThreeVectors();
    var data: seq<Byte> := [102, 111, 111, 98, 97, 114];
    hide Quartet, EncodeRest;
    assert data[3..] == [98, 97, 114];
    assert [102 as Byte, 111, 111][3..] == [] && [98 as Byte, 97, 114][3..] == [];
    NothingEncoded();
    NoSuffix(Quartet(PackBytes(102, 111, 111)));
    NoSuffix(Quartet(PackBytes(98, 97, 114)));
  }

  lemma NothingEncoded()
    ensures Encode([]) == ""
  {
  }

  lemma ShortVectors()
    ensures EncodeRest([102]) == "Zg==" && EncodeRest([102, 111]) == "Zm8="
  {
  }

  lemma ThreeVectors()
    ensures Quartet(PackBytes(102, 111, 111)) == "Zm9v" && Quartet(PackBytes(98, 97, 114)) == "YmFy"
  {
  }

  // ---------- decoding ----------

  /** One position of a group as a word; padding, where it is allowed, stands for zero bits. */
  function Slot(c: char, mayPad: bool): (r: Option<bv32>)
    ensures r.Some? ==> r.value < 64
  {
    if mayPad && c == '=' then Some(0)
    else var g := Group(c); if g.None? then None else Some((g.value as bv8) as bv32)
  }

  function PadCount(q: string): nat
    requires |q| == 4
  {
    (if q[2] == '=' then 1 else 0) + (if q[3] == '=' then 1 else 0)
  }

  /** The bytes of one decoded group: three, two or one, by the amount of padding. */
  function Unpack(n: bv32, pad: nat): seq<Byte> {
    [Byte0(n)] + (if pad < 2 then [Byte1(n)] else []) + (if pad < 1 then [Byte2(n)] else [])
  }

  /** One group of four characters. The third and fourth may be padding. */
  function DecodeQuartet(q: string): Option<seq<Byte>>
    requires |q| == 4
  {
    if q[2] == '=' && q[3] != '=' then None else
    var a, b, c, d := Slot(q[0], false), Slot(q[1], false), Slot(q[2], true), Slot(q[3], true);
    if a.None? || b.None? || c.None? || d.None? then None else
    Some(Unpack(PackGroups(a.value, b.value, c.value, d.value), PadCount(q)))
  }

  /** `head` followed by the rest, if the rest decodes. */
  function Joined(head: seq<Byte>, rest: Option<seq<Byte>>): Option<seq<Byte>> {
    if rest.None? then None else Some(head + rest.value)
  }

  function Decode(text: string): Option<seq<Byte>> {
    if text == "" then Some([])
    else if |text| < 4 then None
    else
      var head := DecodeQuartet(text[..4]);
      if head.None? then None else Joined(head.value, Decode(text[4..]))
  }

  /** Decodes one chunk of the loop. */
  method DecodeChunk(q: string) returns (r: Option<seq<Byte>>)
    requires |q| == 4
    ensures r == DecodeQuartet(q)
  {
    hide Slot, PackGroups, Byte0, Byte1, Byte2;
    if q[2] == '=' && q[3] != '=' {
      return None;
    }
    var a, b, c, d := Slot(q[0], false), Slot(q[1], false), Slot(q[2], true), Slot(q[3], true);
    if a.None? || b.None? || c.None? || d.None? {
      return None;
    }
    var pad := (if q[2] == '=' then 1 else 0) + (if q[3] == '=' then 1 else 0);
    var n := PackGroups(a.value, b.value, c.value, d.value);
    var out := [Byte0(n)];
    if pad < 2 {
      out := out + [Byte1(n)];
    }
    if pad < 1 {
      out := out + [Byte2(n)];
    }
    UnpackedBytes(n, pad, out);
    r := Some(out);
  }

  lemma UnpackedBytes(n: bv32, pad: nat, out: seq<Byte>)
    requires out == if pad < 1 then [Byte0(n)] + [Byte1(n)] + [Byte2(n)]
                    else if pad < 2 then [Byte0(n)] + [Byte1(n)] else [Byte0(n)]
    ensures out == Unpack(n, pad)
  {
  }

  method DecodeBase64(text: string) returns (r: Option<seq<Byte>>)
    ensures r == Decode(text)
  {
    hide DecodeQuartet, Joined;
    if |text| % 4 != 0 {
      RaggedIsRefused(text);
      return None;
    }
    var out: seq<Byte> := [];
    var i := 0;
    assert text[0..] == text;
    JoinedNothing(Decode(text));
    while i < |text|
      invariant 0 <= i <= |text| && i % 4 == 0
      invariant Decode(text) == Joined(out, Decode(text[i..]))
    {
      var q := text[i..i + 4];
      FirstQuartet(text[i..]);
      assert text[i..][..4] == q && text[i..][4..] == text[i + 4..];
      var chunk := DecodeChunk(q);
      if chunk.None? {
        JoinedRefusal(out);
        return None;
      }
      i := i + 4;
      JoinedTwice(out, chunk.value, Decode(text[i..]));
      out := out + chunk.value;
    }
    JoinedEnd(out);
    assert text[i..] == "";
    r := Some(out);
  }

  lemma FirstQuartet(text: string)
    requires |text| >= 4
    ensures Decode(text) == if DecodeQuartet(text[..4]).None? then None
                            else Joined(DecodeQuartet(text[..4]).value, Decode(text[4..]))
  {
    hide DecodeQuartet, Joined;
  }

  lemma JoinedRefusal(out: seq<Byte>)
    ensures Joined(out, None) == None
  {
  }

  lemma JoinedEnd(out: seq<Byte>)
    ensures Joined(out, Decode("")) == Some(out)
  {
    NoSuffix(out);
  }

  lemma JoinedNothing(rest: Option<seq<Byte>>)
    ensures Joined([], rest) == rest
  {
    if rest.Some? {
      assert [] + rest.value == rest.value;
    }
  }

  lemma JoinedTwice(a: seq<Byte>, b: seq<Byte>, rest: Option<seq<Byte>>)
    ensures Joined(a, Joined(b, rest)) == Joined(a + b, rest)
  {
    if rest.Some? {
      assert a + (b + rest.value) == a + b + rest.value;
    }
  }

  lemma {:induction false} RaggedIsRefused(text: string)
    requires |text| % 4 != 0
    ensures Decode(text) == None
  {
    if |text| >= 4 {
      RaggedIsRefused(text[4..]);
    }
  }

  // ---------- the alphabet ----------

  lemma UpperAt(i: int)
    requires 0 <= i < 26
    ensures UPPER[i] as int == 'A' as int + i
  {
  }

  lemma LowerAt(i: int)
    requires 0 <= i < 26
    ensures LOWER[i] as int == 'a' as int + i
  {
  }

  lemma DigitAt(i: int)
    requires 0 <= i < 10
    ensures DIGITS[i] as int == '0' as int + i
  {
  }

  lemma GroupOfTable(i: int)
    requires 0 <= i < 64
    ensures Group(TableAt(i)) == Some(i) && TableAt(i) != '='
  {
    if i < 26 {
      UpperAt(i);
    } else if i < 52 {
      LowerAt(i - 26);
    } else if i < 62 {
      DigitAt(i - 52);
    }
  }

  lemma IntBits(i: int)
    requires 0 <= i < 64
    ensures ((i as bv8) as bv32) as int == i
  {
    var x := i as bv8;
    assert x as int == i;
  }

  lemma BitsInt(g: bv32)
    requires g < 64
    ensures ((g as int) as bv8) as bv32 == g
  {
    var x := g as bv8;
    assert x as int == g as int;
  }

  lemma SlotOfLetter(group: bv32, mayPad: bool)
    requires group < 64
    ensures Letter(group) != '=' && Slot(Letter(group), mayPad) == Some(group)
  {
    hide TableAt, Group;
    GroupOfTable(group as int);
    BitsInt(group);
  }

  lemma TableOfGroup(c: char)
    requires Group(c).Some?
    ensures TableAt(Group(c).value) == c
  {
    GroupOfTable(Group(c).value);
  }

  lemma LetterOfSlot(c: char, mayPad: bool)
    requires c != '=' && Slot(c, mayPad).Some?
    ensures Letter(Slot(c, mayPad).value) == c
  {
    hide TableAt, Group;
    TableOfGroup(c);
    IntBits(Group(c).value);
  }

  lemma PaddingSlot()
    ensures Slot('=', true) == Some(0) && Slot('=', false) == None
  {
  }

  lemma QuartetSlots(n: bv32)
    ensures var q := Quartet(n);
            && q[0] != '=' && q[1] != '=' && q[2] != '=' && q[3] != '='
            && Slot(q[0], false) == Some(Group0(n))
            && Slot(q[1], false) == Some(Group1(n))
            && Slot(q[2], true) == Some(Group2(n))
            && Slot(q[3], true) == Some(Group3(n))
  {
    hide Letter, Slot, Group0, Group1, Group2, Group3;
    SlotOfLetter(Group0(n), false);
    SlotOfLetter(Group1(n), false);
    SlotOfLetter(Group2(n), true);
    SlotOfLetter(Group3(n), true);
  }

  // ---------- bytes to text and back ----------

  lemma ThreeByteRoundTrip(a: Byte, b: Byte, c: Byte)
    ensures DecodeQuartet(Quartet(PackBytes(a, b, c))) == Some([a, b, c])
  {
    hide Quartet, Slot, Group0, Group1, Group2, Group3, Byte0, Byte1, Byte2, PackBytes, PackGroups;
    var n := PackBytes(a, b, c);
    QuartetSlots(n);
    BytesSurvive(a, b, c);
    assert Unpack(n, 0) == [a, b, c];
  }

  lemma TwoByteRoundTrip(a: Byte, b: Byte)
    ensures DecodeQuartet(EncodeRest([a, b])) == Some([a, b])
  {
    hide Quartet, Slot, Group0, Group1, Group2, Group3, Byte0, Byte1, Byte2, PackBytes, PackGroups;
    var n := PackBytes(a, b, 0);
    QuartetSlots(n);
    BytesSurvive(a, b, 0);
    PaddingSlot();
    assert Unpack(n, 1) == [a, b];
  }

  lemma OneByteRoundTrip(a: Byte)
    ensures DecodeQuartet(EncodeRest([a])) == Some([a])
  {
    hide Quartet, Slot, Group0, Group1, Group2, Group3, Byte0, Byte1, Byte2, PackBytes, PackGroups;
    var n := PackBytes(a, 0, 0);
    QuartetSlots(n);
    BytesSurvive(a, 0, 0);
    PaddingSlot();
    assert Unpack(n, 2) == [a];
  }

  lemma RestRoundTrip(rest: seq<Byte>)
    requires |rest| == 1 || |rest| == 2
    ensures |EncodeRest(rest)| == 4 && DecodeQuartet(EncodeRest(rest)) == Some(rest)
  {
    hide Quartet, PackBytes, DecodeQuartet;
    if |rest| == 1 {
      assert rest == [rest[0]];
      OneByteRoundTrip(rest[0]);
    } else {
      assert rest == [rest[0], rest[1]];
      TwoByteRoundTrip(rest[0], rest[1]);
    }
  }

  /** Any byte string survives encoding and decoding. */
  lemma {:induction false} RoundTrip(data: seq<Byte>)
    ensures Decode(Encode(data)) == Some(data)
  {
    hide Quartet, DecodeQuartet, PackBytes, EncodeRest;
    var text := Encode(data);
    if |data| >= 3 {
      ThreeByteRoundTrip(data[0], data[1], data[2]);
      RoundTrip(data[3..]);
      assert text[..4] == Quartet(PackBytes(data[0], data[1], data[2])) && text[4..] == Encode(data[3..]);
      assert data == [data[0], data[1], data[2]] + data[3..];
    } else if data != [] {
      RestRoundTrip(data);
      assert text[..4] == text && text[4..] == "" && data + [] == data;
    } else {
      EncodedLength(data);
    }
  }

  // ---------- what decoding accepts ----------

  /** Decoding distributes over concatenation at a group boundary. */
  lemma {:induction false} DecodeConcat(s: string, t: string)
    requires |s| % 4 == 0
    ensures Decode(s + t) == if Decode(s).None? then None else Joined(Decode(s).value, Decode(t))
  {
    hide DecodeQuartet;
    if s == "" {
      assert s + t == t;
      JoinedNothing(Decode(t));
    } else {
      DecodeConcat(s[4..], t);
      assert (s + t)[..4] == s[..4] && (s + t)[4..] == s[4..] + t;
      if DecodeQuartet(s[..4]).Some? && Decode(s[4..]).Some? {
        JoinedTwice(DecodeQuartet(s[..4]).value, Decode(s[4..]).value, Decode(t));
      }
    }
  }

  predicate PlainQuartet(q: string)
    requires |q| == 4
  {
    && q[2] != '=' && q[3] != '='
    && Slot(q[0], false).Some? && Slot(q[1], false).Some? && Slot(q[2], true).Some? && Slot(q[3], true).Some?
  }

  /** A last group with padding whose discarded bits are all zero. */
  predicate PaddedQuartet(q: string)
    requires |q| == 4
  {
    && q[3] == '=' && Slot(q[0], false).Some? && Slot(q[1], false).Some? && Slot(q[2], true).Some?
    && (if q[2] == '=' then Slot(q[1], false).value & 15 == 0 else Slot(q[2], true).value & 3 == 0)
  }

  /** Padding only in the last group, and no discarded bit set. */
  predicate Canonical(text: string) {
    text == ""
    || (|text| >= 4 && PlainQuartet(text[..4]) && Canonical(text[4..]))
    || (|text| == 4 && PaddedQuartet(text[..4]))
  }

  lemma PlainIsExact(q: string)
    requires |q| == 4 && PlainQuartet(q)
    ensures var u := DecodeQuartet(q);
            u.Some? && |u.value| == 3 && Quartet(PackBytes(u.value[0], u.value[1], u.value[2])) == q
  {
    hide Slot, Letter, Group0, Group1, Group2, Group3, Byte0, Byte1, Byte2, PackBytes, PackGroups;
    PaddingSlot();
    LetterOfSlot(q[0], false);
    LetterOfSlot(q[1], false);
    LetterOfSlot(q[2], true);
    LetterOfSlot(q[3], true);
    GroupsSurvive(Slot(q[0], false).value, Slot(q[1], false).value, Slot(q[2], true).value, Slot(q[3], true).value);
  }

  lemma PaddedIsExact(q: string)
    requires |q| == 4 && PaddedQuartet(q)
    ensures var u := DecodeQuartet(q); u.Some? && 1 <= |u.value| <= 2 && EncodeRest(u.value) == q
  {
    hide Slot, Letter, Group0, Group1, Group2, Group3, Byte0, Byte1, Byte2, PackBytes, PackGroups;
    PaddingSlot();
    LetterOfSlot(q[0], false);
    LetterOfSlot(q[1], false);
    if q[2] != '=' {
      LetterOfSlot(q[2], true);
    }
    GroupsSurvive(Slot(q[0], false).value, Slot(q[1], false).value, Slot(q[2], true).value, 0);
  }

  lemma {:induction false} CanonicalIsExact(text: string)
    requires Canonical(text)
    ensures Decode(text).Some? && Encode(Decode(text).value) == text
  {
    hide DecodeQuartet, PlainQuartet, PaddedQuartet, Quartet, EncodeRest, PackBytes;
    if text == "" {
      EncodedLength([]);
    } else if PlainQuartet(text[..4]) && Canonical(text[4..]) {
      PlainIsExact(text[..4]);
      CanonicalIsExact(text[4..]);
      var u, v := DecodeQuartet(text[..4]).value, Decode(text[4..]).value;
      assert (u + v)[3..] == v;
      assert text == text[..4] + text[4..];
    } else {
      PaddedIsExact(text[..4]);
      var u := DecodeQuartet(text[..4]).value;
      assert text[..4] == text && u + [] == u;
    }
  }

  lemma {:induction false} EncodeIsCanonical(data: seq<Byte>)
    ensures Canonical(Encode(data))
  {
    hide PlainQuartet, PaddedQuartet, Quartet, EncodeRest, PackBytes;
    var text := Encode(data);
    if |data| >= 3 {
      var n := PackBytes(data[0], data[1], data[2]);
      assert text[..4] == Quartet(n) && text[4..] == Encode(data[3..]);
      QuartetIsPlain(n);
      EncodeIsCanonical(data[3..]);
    } else if data == [] {
      EncodedLength(data);
    } else {
      RestIsPadded(data);
      assert text[..4] == text;
    }
  }

  lemma QuartetIsPlain(n: bv32)
    ensures PlainQuartet(Quartet(n))
  {
    hide Slot, Quartet;
    QuartetSlots(n);
  }

  lemma RestIsPadded(rest: seq<Byte>)
    requires |rest| == 1 || |rest| == 2
    ensures |EncodeRest(rest)| == 4 && PaddedQuartet(EncodeRest(rest))
  {
    hide Quartet, Slot, Group0, Group1, Group2, Group3, PackBytes;
    var b := if |rest| == 1 then 0 else rest[1];
    QuartetSlots(PackBytes(rest[0], b, 0));
    BytesSurvive(rest[0], b, 0);
    PaddingSlot();
  }

  /** Encoding what was decoded gives the text back exactly when the text is canonical. */
  lemma ReencodeIffCanonical(text: string)
    ensures (Decode(text).Some? && Encode(Decode(text).value) == text) <==> Canonical(text)
  {
    if Canonical(text) {
      CanonicalIsExact(text);
    } else if Decode(text).Some? {
      EncodeIsCanonical(Decode(text).value);
    }
  }
}
