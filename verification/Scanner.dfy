/** The shim's scanner for the leading keyword of a statement. */
module Scanner {
  import opened Prelude

  predicate Blank(c: char) {
    c == ' ' || c == '\t' || c == '\n' || c == '\r' || c == '\U{0C}'
  }

  /** A blank is a tab, a line feed, a form feed, a carriage return or a space. */
  lemma BlankCodes(c: char)
    ensures Blank(c) <==> c as int in {9, 10, 12, 13, 32}
  {
  }

  predicate Alphabetic(c: char) {
    'a' <= c <= 'z' || 'A' <= c <= 'Z'
  }

  function UpperChar(c: char): char {
    if 'a' <= c <= 'z' then c - 'a' + 'A' else c
  }

  function Upper(s: string): (r: string)
    ensures |r| == |s| && forall i | 0 <= i < |s| :: r[i] == UpperChar(s[i])
  {
    if s == "" then "" else [UpperChar(s[0])] + Upper(s[1..])
  }

  const CAPITALS: string := "ABCDEFGHIJKLMNOPQRSTUVWXYZ"
  const SMALL: string := "abcdefghijklmnopqrstuvwxyz"

  /** The same word in capitals, letter by letter. */
  ghost predicate Spells(word: string, raw: string) {
    |word| == |raw| && forall i | 0 <= i < |raw| :: SpellsLetter(word[i], raw[i])
  }

  ghost predicate SpellsLetter(capital: char, letter: char) {
    exists k | 0 <= k < 26 :: capital == CAPITALS[k] && (letter == CAPITALS[k] || letter == SMALL[k])
  }

  lemma LetterAt(k: int)
    requires 0 <= k < 26
    ensures CAPITALS[k] as int == 65 + k && SMALL[k] as int == 97 + k
  {
  }

  lemma LetterIsSpelled(c: char, capital: char)
    requires Alphabetic(c)
    ensures SpellsLetter(capital, c) <==> capital == UpperChar(c)
  {
    var k := if 'a' <= c <= 'z' then c as int - 97 else c as int - 65;
    LetterAt(k);
    forall j | 0 <= j < 26 ensures CAPITALS[j] as int == 65 + j && SMALL[j] as int == 97 + j {
      LetterAt(j);
    }
  }

  lemma WordIsSpelled(raw: string, word: string)
    requires forall i | 0 <= i < |raw| :: Alphabetic(raw[i])
    ensures Spells(word, raw) <==> word == Upper(raw)
  {
    hide SpellsLetter, UpperChar, Upper;
    if |word| == |raw| {
      forall i | 0 <= i < |raw| ensures SpellsLetter(word[i], raw[i]) <==> word[i] == UpperChar(raw[i]) {
        LetterIsSpelled(raw[i], word[i]);
      }
      assert Spells(word, raw) ==> word == Upper(raw);
    }
  }

  // ---------- the scanner as a recursive grammar ----------

  predicate Starts(s: string, a: char, b: char) {
    |s| >= 2 && s[0] == a && s[1] == b
  }

  /** The text from the first newline on, newline included. */
  function AfterLine(s: string): (r: string)
    ensures |r| <= |s|
  {
    if s == "" || s[0] == '\n' then s else AfterLine(s[1..])
  }

  /** The text behind the first comment terminator; nothing if there is none. */
  function AfterBlock(s: string): (r: string)
    ensures |r| <= |s|
  {
    if |s| < 2 then "" else if Starts(s, '*', '/') then s[2..] else AfterBlock(s[1..])
  }

  function AlphaRun(s: string): (n: nat)
    ensures n <= |s| && (forall i | 0 <= i < n :: Alphabetic(s[i])) && (n < |s| ==> !Alphabetic(s[n]))
  {
    if s == "" || !Alphabetic(s[0]) then 0 else 1 + AlphaRun(s[1..])
  }

  function LeadingWord(s: string): Option<string>
    decreases |s|
  {
    if s == "" then None
    else if Blank(s[0]) then LeadingWord(s[1..])
    else if Starts(s, '-', '-') then LeadingWord(AfterLine(s[2..]))
    else if Starts(s, '/', '*') then LeadingWord(AfterBlock(s[2..]))
    else if AlphaRun(s) == 0 then None
    else Some(Upper(s[..AlphaRun(s)]))
  }

  /** The scanner itself: one index moving over the text. */
  method Keyword(sql: string) returns (r: Option<string>)
    ensures r == LeadingWord(sql)
  {
    var i := 0;
    assert sql[0..] == sql;
    while i < |sql|
      invariant 0 <= i <= |sql| && LeadingWord(sql[i..]) == LeadingWord(sql)
      decreases |sql| - i
    {
      ghost var rest := sql[i..];
      if Blank(sql[i]) {
        assert rest[1..] == sql[i + 1..];
        i := i + 1;
      } else if sql[i] == '-' && i + 1 < |sql| && sql[i + 1] == '-' {
        assert rest[2..] == sql[i + 2..];
        i := SkipLine(sql, i + 2);
      } else if sql[i] == '/' && i + 1 < |sql| && sql[i + 1] == '*' {
        assert rest[2..] == sql[i + 2..];
        i := SkipBlock(sql, i + 2);
      } else {
        var start := i;
        i := SkipWord(sql, i);
        if start == i {
          return None;
        }
        assert sql[start..i] == rest[..i - start];
        return Some(Upper(sql[start..i]));
      }
    }
    r := None;
  }

  method SkipLine(sql: string, start: nat) returns (i: nat)
    requires start <= |sql|
    ensures start <= i <= |sql| && sql[i..] == AfterLine(sql[start..])
  {
    i := start;
    while i < |sql| && sql[i] != '\n'
      invariant start <= i <= |sql| && AfterLine(sql[i..]) == AfterLine(sql[start..])
    {
      assert sql[i..][1..] == sql[i + 1..];
      i := i + 1;
    }
  }

  method SkipBlock(sql: string, start: nat) returns (i: nat)
    requires start <= |sql|
    ensures start <= i <= |sql| && sql[i..] == AfterBlock(sql[start..])
  {
    i := start;
    while i + 1 < |sql| && !(sql[i] == '*' && sql[i + 1] == '/')
      invariant start <= i <= |sql| && AfterBlock(sql[i..]) == AfterBlock(sql[start..])
    {
      assert sql[i..][1..] == sql[i + 1..];
      i := i + 1;
    }
    if i + 1 < |sql| {
      assert sql[i..][2..] == sql[i + 2..];
    }
    i := if i + 2 <= |sql| then i + 2 else |sql|;
  }

  method SkipWord(sql: string, start: nat) returns (i: nat)
    requires start <= |sql|
    ensures start <= i <= |sql| && i - start == AlphaRun(sql[start..])
  {
    i := start;
    while i < |sql| && Alphabetic(sql[i])
      invariant start <= i <= |sql| && AlphaRun(sql[start..]) == i - start + AlphaRun(sql[i..])
    {
      assert sql[i..][1..] == sql[i + 1..];
      i := i + 1;
    }
  }

  // ---------- the language the scanner recognises ----------

  /** What may stand before the first word. */
  datatype Trivia = Space(c: char) | LineComment(body: string) | BlockComment(body: string) {
    function Text(): string {
      match this
      case Space(c) => [c]
      case LineComment(body) => "--" + body + "\n"
      case BlockComment(body) => "/*" + body + "*/"
    }

    ghost predicate Valid() {
      match this
      case Space(c) => Blank(c)
      case LineComment(body) => forall i | 0 <= i < |body| :: body[i] != '\n'
      case BlockComment(body) => forall i | 0 <= i < |body| - 1 :: !(body[i] == '*' && body[i + 1] == '/')
    }
  }

  function Render(ts: seq<Trivia>): string {
    if ts == [] then "" else ts[0].Text() + Render(ts[1..])
  }

  ghost predicate AllValid(ts: seq<Trivia>) {
    forall t | t in ts :: t.Valid()
  }

  /** `s` is trivia, then the word `raw`, then something that does not continue the word. */
  ghost predicate Parses(s: string, ts: seq<Trivia>, raw: string, rest: string) {
    && s == Render(ts) + raw + rest && AllValid(ts)
    && raw != "" && (forall i | 0 <= i < |raw| :: Alphabetic(raw[i]))
    && (rest == "" || !Alphabetic(rest[0]))
  }

  lemma {:induction false} LineEnds(body: string, s: string)
    requires forall i | 0 <= i < |body| :: body[i] != '\n'
    ensures AfterLine(body + "\n" + s) == "\n" + s
  {
    var text := body + "\n" + s;
    if body == "" {
      assert text == "\n" + s;
    } else {
      LineEnds(body[1..], s);
      assert text[1..] == body[1..] + "\n" + s;
    }
  }

  lemma {:induction false} BlockEnds(body: string, s: string)
    requires forall i | 0 <= i < |body| - 1 :: !(body[i] == '*' && body[i + 1] == '/')
    ensures AfterBlock(body + "*/" + s) == s
  {
    var text := body + "*/" + s;
    if body == "" {
      assert text == "*/" + s && text[2..] == s;
    } else {
      BlockEnds(body[1..], s);
      assert text[1..] == body[1..] + "*/" + s;
      assert text[1] == if |body| > 1 then body[1] else '*';
    }
  }

  lemma LineIsSkipped(body: string, s: string)
    requires forall i | 0 <= i < |body| :: body[i] != '\n'
    ensures LeadingWord("--" + body + "\n" + s) == LeadingWord(s)
  {
    var text, tail := "--" + body + "\n" + s, "\n" + s;
    assert text[0] == '-' && text[1] == '-';
    assert text[2..] == body + "\n" + s;
    LineEnds(body, s);
    assert tail[1..] == s;
    assert LeadingWord(text) == LeadingWord(tail);
  }

  lemma BlockIsSkipped(body: string, s: string)
    requires forall i | 0 <= i < |body| - 1 :: !(body[i] == '*' && body[i + 1] == '/')
    ensures LeadingWord("/*" + body + "*/" + s) == LeadingWord(s)
  {
    var text := "/*" + body + "*/" + s;
    assert text[0] == '/' && text[1] == '*';
    assert text[2..] == body + "*/" + s;
    BlockEnds(body, s);
  }

  /** Putting a blank, a line comment or a closed block comment in front changes nothing. */
  lemma TriviaIsSkipped(t: Trivia, s: string)
    requires t.Valid()
    ensures LeadingWord(t.Text() + s) == LeadingWord(s)
  {
    match t
    case Space(c) =>
      assert ([c] + s)[1..] == s;
    case LineComment(body) =>
      hide LeadingWord;
      LineIsSkipped(body, s);
    case BlockComment(body) =>
      hide LeadingWord;
      BlockIsSkipped(body, s);
  }

  lemma Regroup(a: string, b: string, c: string, d: string)
    ensures a + b + c + d == a + (b + c + d)
  {
  }

  lemma BareWord(raw: string, rest: string)
    requires raw != "" && (forall i | 0 <= i < |raw| :: Alphabetic(raw[i]))
    requires rest == "" || !Alphabetic(rest[0])
    ensures LeadingWord(raw + rest) == Some(Upper(raw))
  {
    var s := raw + rest;
    assert forall i | 0 <= i < |raw| :: s[i] == raw[i];
    assert |raw| < |s| ==> s[|raw|] == rest[0];
    assert AlphaRun(s) == |raw|;
    assert s[..|raw|] == raw;
  }

  lemma {:induction false} WordIsFound(s: string, ts: seq<Trivia>, raw: string, rest: string)
    requires Parses(s, ts, raw, rest)
    ensures LeadingWord(s) == Some(Upper(raw))
    decreases |ts|
  {
    hide LeadingWord, AlphaRun, Upper, Trivia.Text, Trivia.Valid;
    if ts == [] {
      assert s == raw + rest;
      BareWord(raw, rest);
    } else {
      var s' := Render(ts[1..]) + raw + rest;
      Regroup(ts[0].Text(), Render(ts[1..]), raw, rest);
      TriviaIsSkipped(ts[0], s');
      WordIsFound(s', ts[1..], raw, rest);
    }
  }

  lemma {:induction false} LineSplits(s: string) returns (body: string)
    requires AfterLine(s) != ""
    ensures s == body + "\n" + AfterLine(s)[1..]
    ensures forall i | 0 <= i < |body| :: body[i] != '\n'
  {
    if s[0] == '\n' {
      body := "";
    } else {
      var b := LineSplits(s[1..]);
      body := [s[0]] + b;
    }
  }

  lemma {:induction false} BlockSplits(s: string) returns (body: string)
    requires LeadingWord(AfterBlock(s)).Some?
    ensures s == body + "*/" + AfterBlock(s)
    ensures forall i | 0 <= i < |body| - 1 :: !(body[i] == '*' && body[i + 1] == '/')
    ensures |body| + 2 <= |s|
  {
    if Starts(s, '*', '/') {
      body := "";
    } else {
      var b := BlockSplits(s[1..]);
      body := [s[0]] + b;
      if b != "" {
        assert b[0] == s[1];
      }
    }
  }

  /** The first piece of trivia of a text that does not begin with its word. */
  lemma FirstTrivia(s: string) returns (t: Trivia, s': string)
    requires LeadingWord(s).Some? && AlphaRun(s) == 0
    ensures t.Valid() && s == t.Text() + s' && |s'| < |s|
  {
    if Blank(s[0]) {
      t, s' := Space(s[0]), s[1..];
    } else if Starts(s, '-', '-') {
      var body := LineSplits(s[2..]);
      s' := AfterLine(s[2..])[1..];
      t := LineComment(body);
      Recompose("--", body, "\n", s', s);
    } else {
      var body := BlockSplits(s[2..]);
      s' := AfterBlock(s[2..]);
      t := BlockComment(body);
      Recompose("/*", body, "*/", s', s);
    }
  }

  lemma Recompose(open: string, body: string, close: string, s': string, s: string)
    requires |s| >= |open| == 2 && s[..2] == open && s[2..] == body + close + s'
    ensures s == open + body + close + s'
  {
    assert s == s[..2] + s[2..];
    Regroup(open, body, close, s');
  }

  lemma {:induction false} WordHasParse(s: string) returns (ts: seq<Trivia>, raw: string, rest: string)
    requires LeadingWord(s).Some?
    ensures Parses(s, ts, raw, rest)
    decreases |s|
  {
    hide LeadingWord, Trivia.Text, Trivia.Valid;
    var n := AlphaRun(s);
    if n > 0 {
      ts, raw, rest := [], s[..n], s[n..];
    } else {
      var t, s' := FirstTrivia(s);
      TriviaIsSkipped(t, s');
      var more: seq<Trivia>;
      more, raw, rest := WordHasParse(s');
      ts := [t] + more;
      assert ts[1..] == more;
      Regroup(t.Text(), Render(more), raw, rest);
    }
  }

  /** The scanner answers `w` exactly when the text is trivia followed by a maximal word whose letters
      are, one by one, those of `w` in either case; in particular an unclosed block comment gives no
      answer. */
  lemma KeywordLanguage(s: string, w: string)
    ensures LeadingWord(s) == Some(w) <==> exists ts, raw, rest :: Parses(s, ts, raw, rest) && Spells(w, raw)
  {
    hide LeadingWord, Upper, Spells, Render;
    if LeadingWord(s) == Some(w) {
      var ts, raw, rest := WordHasParse(s);
      WordIsFound(s, ts, raw, rest);
      WordIsSpelled(raw, w);
    }
    forall ts, raw, rest | Parses(s, ts, raw, rest) && Spells(w, raw)
      ensures LeadingWord(s) == Some(w)
    {
      WordIsFound(s, ts, raw, rest);
      WordIsSpelled(raw, w);
    }
  }

  /** Every answer is a non-empty word of ASCII capitals. */
  lemma AnswerIsCapitals(s: string)
    requires LeadingWord(s).Some?
    ensures LeadingWord(s).value != "" && forall i | 0 <= i < |LeadingWord(s).value| ::
            'A' <= LeadingWord(s).value[i] <= 'Z'
  {
    var ts, raw, rest := WordHasParse(s);
    WordIsFound(s, ts, raw, rest);
  }

  /** A block comment that is never closed hides whatever follows. */
  lemma {:induction false} UnclosedBlock(ts: seq<Trivia>, body: string)
    requires AllValid(ts)
    requires forall i | 0 <= i < |body| - 1 :: !(body[i] == '*' && body[i + 1] == '/')
    ensures LeadingWord(Render(ts) + "/*" + body) == None
  {
    if ts == [] {
      NeverClosed(body);
      var text := Render(ts) + "/*" + body;
      assert text == "/*" + body && text[2..] == body;
    } else {
      hide LeadingWord;
      UnclosedBlock(ts[1..], body);
      var s' := Render(ts[1..]) + "/*" + body;
      assert Render(ts) + "/*" + body == ts[0].Text() + s';
      TriviaIsSkipped(ts[0], s');
    }
  }

  lemma {:induction false} NeverClosed(body: string)
    requires forall i | 0 <= i < |body| - 1 :: !(body[i] == '*' && body[i + 1] == '/')
    ensures AfterBlock(body) == ""
  {
    if |body| >= 2 {
      assert !Starts(body, '*', '/') by {
        assert !(body[0] == '*' && body[0 + 1] == '/');
      }
      NeverClosed(body[1..]);
    }
  }
}
