/** The row names `w{worker}-s{step}` of the load driver. */
module Names {
  import opened Prelude

  function Digit(d: nat): char
    requires d < 10
  {
    '0' + d as char
  }

  /** Decimal digits, most significant first. */
  function Decimal(n: nat): string {
    if n < 10 then [Digit(n)] else Decimal(n / 10) + [Digit(n % 10)]
  }

  function FromDecimal(s: string): int {
    if s == "" then 0 else FromDecimal(s[..|s| - 1]) * 10 + (s[|s| - 1] as int - '0' as int)
  }

  lemma {:induction false} DecimalRoundTrip(n: nat)
    ensures FromDecimal(Decimal(n)) == n
    ensures Decimal(n) != "" && forall i | 0 <= i < |Decimal(n)| :: '0' <= Decimal(n)[i] <= '9'
  {
    var s := Decimal(n);
    if n < 10 {
      assert s[..0] == "";
      assert FromDecimal(s[..0]) == 0;
    } else {
      DecimalRoundTrip(n / 10);
      assert s[..|s| - 1] == Decimal(n / 10);
    }
  }

  function Name(worker: nat, step: nat): string {
    "w" + Decimal(worker) + "-s" + Decimal(step)
  }

  /** A row of worker 3, step 120. */
  lemma NameReads()
    ensures Name(3, 120) == "w3-s120" && Name(0, 0) == "w0-s0"
  {
    assert Decimal(12) == "12" && Decimal(120) == "120";
  }

  /** The characters up to the first dash behind the leading letter. */
  function BeforeDash(s: string): string {
    if s == "" || s[0] == '-' then "" else [s[0]] + BeforeDash(s[1..])
  }

  lemma {:induction false} DashEndsDigits(digits: string, rest: string)
    requires forall i | 0 <= i < |digits| :: digits[i] != '-'
    requires rest != "" && rest[0] == '-'
    ensures BeforeDash(digits + rest) == digits
  {
    if digits == "" {
      NoPrefix(rest);
    } else {
      AppendParts(digits, rest);
      DashEndsDigits(digits[1..], rest);
    }
  }

  /** Two rows of different workers, or of different steps, never share a name. */
  lemma NameInjective(w1: nat, s1: nat, w2: nat, s2: nat)
    requires Name(w1, s1) == Name(w2, s2)
    ensures w1 == w2 && s1 == s2
  {
    hide Decimal, FromDecimal;
    DecimalRoundTrip(w1);
    DecimalRoundTrip(w2);
    DecimalRoundTrip(s1);
    DecimalRoundTrip(s2);
    var a, b := "-s" + Decimal(s1), "-s" + Decimal(s2);
    TailOfName(w1, s1);
    TailOfName(w2, s2);
    DashEndsDigits(Decimal(w1), a);
    DashEndsDigits(Decimal(w2), b);
    assert a[2..] == Decimal(s1) && b[2..] == Decimal(s2);
    assert a == (Decimal(w1) + a)[|Decimal(w1)|..];
    assert b == (Decimal(w2) + b)[|Decimal(w2)|..];
  }

  lemma TailOfName(worker: nat, step: nat)
    ensures Name(worker, step)[1..] == Decimal(worker) + ("-s" + Decimal(step))
  {
    hide Decimal;
    Assoc(Decimal(worker), "-s", Decimal(step));
    assert Name(worker, step) == "w" + (Decimal(worker) + "-s" + Decimal(step));
  }
}
