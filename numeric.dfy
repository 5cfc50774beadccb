/** Go's strconv.Itoa / strconv.Atoi (and fmt's %d) on 64-bit ints. */
module Numeric {
  import opened Domain

  const MinInt: int := -0x8000_0000_0000_0000
  const MaxInt: int := 0x7fff_ffff_ffff_ffff

  predicate InRange(n: int) {
    MinInt <= n <= MaxInt
  }

  predicate IsDigit(c: char) {
    '0' <= c <= '9'
  }

  predicate AllDigits(s: string) {
    forall i :: 0 <= i < |s| ==> IsDigit(s[i])
  }

  function DigitChar(d: nat): (c: char)
    requires d < 10
    ensures IsDigit(c)
  {
    ('0' as int + d) as char
  }

  function DigitValue(c: char): (d: nat)
    requires IsDigit(c)
    ensures d < 10 && DigitChar(d) == c
  {
    c as int - '0' as int
  }

  /** The decimal digits of n, most significant first, without leading zeros. */
  function NatToString(n: nat): (s: string)
    ensures |s| >= 1 && AllDigits(s)
    ensures n >= 10 <==> |s| >= 2
    decreases n
  {
    if n < 10 then [DigitChar(n)] else NatToString(n / 10) + [DigitChar(n % 10)]
  }

  /** The value of a string of decimal digits (leading zeros allowed). */
  function DigitsValue(s: string): nat
    requires AllDigits(s)
  {
    if s == [] then 0 else DigitsValue(s[..|s| - 1]) * 10 + DigitValue(s[|s| - 1])
  }

  /** strconv.Itoa: optional minus sign, then the digits. */
  function Itoa(n: int): string {
    if n < 0 then "-" + NatToString(-n) else NatToString(n)
  }

  /** strconv.Atoi: an optional sign, at least one decimal digit, within the 64-bit range. */
  function Atoi(s: string): (r: Option<int>)
    ensures r.Some? ==> InRange(r.value)
    ensures r.Some? ==> |s| >= 1
  {
    var signed := |s| > 0 && (s[0] == '-' || s[0] == '+');
    var digits := if signed then s[1..] else s;
    if digits == [] || !AllDigits(digits) then None
    else
      var v: int := if signed && s[0] == '-' then -(DigitsValue(digits) as int) else DigitsValue(digits);
      if InRange(v) then Some(v) else None
  }

  /** The largest value strconv.ParseUint accepts for a 64-bit result. */
  const MaxUint: int := 0xffff_ffff_ffff_ffff

  /** The longest prefix of s made of decimal digits. */
  function DigitRun(s: string): (run: string)
    ensures |run| <= |s| && AllDigits(run) && run == s[..|run|]
    ensures |run| < |s| ==> !IsDigit(s[|run|])
    ensures AllDigits(s) ==> run == s
  {
    if s == [] || !IsDigit(s[0]) then [] else [s[0]] + DigitRun(s[1..])
  }

  /**
   * strconv.Atoi when its error is discarded. strconv.ParseUint reads the
   * digits left to right and reports a range error, with the bound, as soon
   * as the digit run so far passes 2^64-1, before it looks at any later
   * character; strconv.ParseInt then clamps to the sign's 64-bit bound. A
   * syntax error met first gives 0.
   */
  function AtoiOrZero(s: string): (n: int)
    ensures InRange(n)
    ensures Atoi(s).Some? ==> n == Atoi(s).value
    ensures Atoi(s).None? ==> n == 0 || n == (if |s| > 0 && s[0] == '-' then MinInt else MaxInt)
  {
    var neg := |s| > 0 && s[0] == '-';
    var signed := |s| > 0 && (s[0] == '-' || s[0] == '+');
    var digits := if signed then s[1..] else s;
    var run := DigitRun(digits);
    if DigitsValue(run) > MaxUint then (if neg then MinInt else MaxInt)
    else if digits == [] || |run| < |digits| then 0
    else
      var v: int := if neg then -(DigitsValue(run) as int) else DigitsValue(run);
      if v < MinInt then MinInt else if v > MaxInt then MaxInt else v
  }

  /** The run of digits in front of a non-digit (or of nothing) is exactly those digits. */
  lemma {:induction false} DigitRunOfPrefix(d: string, rest: string)
    requires AllDigits(d) && (rest == [] || !IsDigit(rest[0]))
    ensures DigitRun(d + rest) == d
    decreases |d|
  {
    if d == [] {
      assert d + rest == rest;
    } else {
      assert (d + rest)[1..] == d[1..] + rest;
      DigitRunOfPrefix(d[1..], rest);
    }
  }

  /**
   * A digit run that passes 2^64-1 makes Atoi fail with the clamped bound,
   * whatever follows it: the overflow is reported before any later syntax error.
   */
  lemma OverflowBeforeSyntaxError(d: string, rest: string)
    requires |d| > 0 && AllDigits(d) && DigitsValue(d) > MaxUint && (rest == [] || !IsDigit(rest[0]))
    ensures Atoi(d + rest).None? && AtoiOrZero(d + rest) == MaxInt
  {
    var t := d + rest;
    assert t[0] == d[0];
    OverflowFailsAtoi(t, t, d, rest);
    DigitRunOfPrefix(d, rest);
  }

  /** The same with a minus sign: the clamp is the smallest int64. */
  lemma NegativeOverflowBeforeSyntaxError(d: string, rest: string)
    requires |d| > 0 && AllDigits(d) && DigitsValue(d) > MaxUint && (rest == [] || !IsDigit(rest[0]))
    ensures Atoi("-" + d + rest).None? && AtoiOrZero("-" + d + rest) == MinInt
  {
    var u := d + rest;
    var t := "-" + u;
    assert "-" + d + rest == t;
    assert t[0] == '-' && t[1..] == u;
    OverflowFailsAtoi(t, u, d, rest);
    DigitRunOfPrefix(d, rest);
    ClampOnOverflow(t, u);
  }

  /** A digit run past MaxUint is clamped to the bound of the sign in front of it. */
  lemma ClampOnOverflow(s: string, digits: string)
    requires digits == (if |s| > 0 && (s[0] == '-' || s[0] == '+') then s[1..] else s)
    requires DigitsValue(DigitRun(digits)) > MaxUint
    ensures AtoiOrZero(s) == (if |s| > 0 && s[0] == '-' then MinInt else MaxInt)
  {
  }

  /** Atoi refuses a digit run past MaxUint, whether or not a non-digit follows it. */
  lemma OverflowFailsAtoi(s: string, digits: string, d: string, rest: string)
    requires |d| > 0 && AllDigits(d) && DigitsValue(d) > MaxUint && (rest == [] || !IsDigit(rest[0]))
    requires digits == d + rest
    requires digits == (if |s| > 0 && (s[0] == '-' || s[0] == '+') then s[1..] else s)
    ensures Atoi(s).None?
  {
    if rest != [] {
      assert digits[|d|] == rest[0];
    } else {
      assert digits == d;
    }
  }

  function Pow10(k: nat): nat {
    if k == 0 then 1 else 10 * Pow10(k - 1)
  }

  lemma {:induction false} Pow10Add(a: nat, b: nat)
    ensures Pow10(a + b) == Pow10(a) * Pow10(b)
    decreases a
  {
    if a > 0 {
      Pow10Add(a - 1, b);
    }
  }

  /** A digit string is worth at least its leading digit times its place value. */
  lemma {:induction false} LeadingDigitBound(s: string)
    requires |s| > 0 && AllDigits(s)
    ensures DigitsValue(s) >= DigitValue(s[0]) * Pow10(|s| - 1)
    decreases |s|
  {
    if |s| > 1 {
      var p := s[..|s| - 1];
      assert p[0] == s[0];
      LeadingDigitBound(p);
    }
  }

  /** A non-digit reached before any overflow makes Atoi fail with 0. */
  lemma SyntaxErrorGivesZero(d: string, rest: string)
    requires |d| > 0 && AllDigits(d) && DigitsValue(d) <= MaxUint && rest != [] && !IsDigit(rest[0])
    ensures Atoi(d + rest).None?
    ensures AtoiOrZero(d + rest) == 0
  {
    DigitRunOfPrefix(d, rest);
    assert (d + rest)[0] == d[0] && IsDigit(d[0]);
    assert (d + rest)[|d|] == rest[0];
  }

  /** Twenty nines overflow before the trailing "x" is read: Atoi gives the largest int64, not 0. */
  lemma TwentyNinesThenJunk()
    ensures AtoiOrZero("99999999999999999999x") == MaxInt
  {
    var d := "99999999999999999999";
    TwentyNinesOverflow(d);
    OverflowBeforeSyntaxError(d, "x");
    assert d + "x" == "99999999999999999999x";
  }

  lemma TwentyNinesOverflow(d: string)
    requires d == "99999999999999999999"
    ensures |d| > 0 && AllDigits(d) && DigitsValue(d) > MaxUint
  {
    LeadingDigitBound(d);
    Pow10Nineteen();
  }

  lemma Pow10Nineteen()
    ensures Pow10(19) == 10_000_000_000_000_000_000
  {
    assert Pow10(1) == 10;
    Pow10Add(1, 1);
    Pow10Add(2, 2);
    Pow10Add(4, 4);
    Pow10Add(8, 8);
    Pow10Add(16, 2);
    Pow10Add(18, 1);
  }

  lemma {:induction false} DigitsOfNatToString(n: nat)
    ensures DigitsValue(NatToString(n)) == n
    decreases n
  {
    if n >= 10 {
      var s := NatToString(n);
      assert s[..|s| - 1] == NatToString(n / 10);
      DigitsOfNatToString(n / 10);
    }
  }

  /** Parsing the text Itoa produces gives the number back. */
  lemma {:induction false} AtoiItoa(n: int)
    requires InRange(n)
    ensures Atoi(Itoa(n)) == Some(n)
  {
    var s := Itoa(n);
    if n < 0 {
      var digits := NatToString(-n);
      assert s[0] == '-' && s[1..] == digits;
      DigitsOfNatToString(-n);
      assert DigitsValue(digits) == -n;
    } else {
      assert s == NatToString(n) && IsDigit(s[0]);
      DigitsOfNatToString(n);
    }
  }

  /** Distinct numbers print differently, so "team:%d" keys never collide. */
  lemma {:induction false} ItoaInjective(a: int, b: int)
    ensures Itoa(a) == Itoa(b) ==> a == b
  {
    if Itoa(a) == Itoa(b) {
      if a < 0 && b < 0 {
        assert NatToString(-a) == Itoa(a)[1..] && NatToString(-b) == Itoa(b)[1..];
        NatToStringInjective(-a, -b);
      } else if a >= 0 && b >= 0 {
        NatToStringInjective(a, b);
      } else if a < 0 {
        SignsDiffer(a, b);
      } else {
        SignsDiffer(b, a);
      }
    }
  }

  lemma NatToStringInjective(a: nat, b: nat)
    requires NatToString(a) == NatToString(b)
    ensures a == b
  {
    DigitsOfNatToString(a);
    DigitsOfNatToString(b);
  }

  lemma SignsDiffer(neg: int, nonneg: int)
    requires neg < 0 <= nonneg
    ensures Itoa(neg) != Itoa(nonneg)
  {
    assert Itoa(neg)[0] == '-';
    assert IsDigit(Itoa(nonneg)[0]);
  }

  /** Atoi accepts leading zeros, so Itoa(Atoi(s)) need not give s back. */
  lemma AtoiAcceptsLeadingZeros()
    ensures Atoi("007") == Some(7) && Itoa(7) != "007"
  {
    assert "007"[..2] == "00" && "00"[..1] == "0" && "0"[..0] == "";
    assert DigitsValue("00") == 0;
    assert Itoa(7) == "7";
  }
}
