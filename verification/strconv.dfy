/**
  The two conversions between Go's `int` and decimal text that the handlers
  rely on: `fmt`'s `%d` verb (FormatInt) and `strconv.Atoi` (Atoi). Go's `int`
  is taken to be 64 bits wide.
 */
module Strconv {
  import opened Wrappers

  const MinInt: int := -0x8000_0000_0000_0000
  const MaxInt: int := 0x7fff_ffff_ffff_ffff

  predicate IsDigit(c: char) {
    '0' <= c <= '9'
  }

  predicate AllDigits(s: string) {
    forall i :: 0 <= i < |s| ==> IsDigit(s[i])
  }

  /** The value of a run of decimal digits, most significant first. */
  function DigitsValue(s: string): nat
    requires AllDigits(s)
  {
    if s == [] then 0
    else DigitsValue(s[..|s| - 1]) * 10 + (s[|s| - 1] as int - '0' as int)
  }

  function DigitChar(d: int): char
    requires 0 <= d < 10
  {
    ('0' as int + d) as char
  }

  /** The decimal digits of `n`, without sign or leading zero. */
  function FormatNat(n: nat): (s: string)
    ensures |s| > 0 && AllDigits(s)
    ensures s[0] == '0' <==> n == 0
    decreases n
  {
    if n < 10 then [DigitChar(n)] else FormatNat(n / 10) + [DigitChar(n % 10)]
  }

  /** `fmt.Sprintf("%d", n)`: a `-` for negative values, then the digits of |n|. */
  function FormatInt(n: int): (s: string)
    ensures |s| > 0
    ensures s[0] == '-' <==> n < 0
    ensures n < 0 ==> AllDigits(s[1..])
    ensures n >= 0 ==> AllDigits(s)
    ensures n >= 0 ==> (s[0] == '0' <==> n == 0)
    ensures n < 0 ==> |s| >= 2 && s[1] != '0'
  {
    if n < 0 then "-" + FormatNat(-n) else FormatNat(n)
  }

  /** The value of `s` read as decimal digits; None as soon as a character is not a digit. */
  function ParseDigits(s: string): (r: Option<nat>)
  {
    if s == [] then Some(0)
    else match ParseDigits(s[..|s| - 1])
      case None => None
      case Some(v) => if IsDigit(s[|s| - 1]) then Some(v * 10 + (s[|s| - 1] as int - '0' as int)) else None
  }

  /**
    `strconv.Atoi`: accepts an optional single `+` or `-` followed by one or
    more ASCII digits whose signed value fits in 64 bits; everything else
    (the empty string, a lone sign, spaces, underscores, letters, overflow)
    is an error. Only the value or the fact of failure is modelled.
   */
  function Atoi(s: string): (r: Option<int>)
    ensures r.Some? ==> |s| > 0 && MinInt <= r.value <= MaxInt
  {
    var signed := |s| > 0 && (s[0] == '+' || s[0] == '-');
    var digits := if signed then s[1..] else s;
    if digits == [] then None
    else match ParseDigits(digits)
      case None => None
      case Some(magnitude) =>
        var v: int := if signed && s[0] == '-' then -(magnitude as int) else magnitude;
        if MinInt <= v <= MaxInt then Some(v) else None
  }

  /** ParseDigits succeeds exactly on digit strings, with their value. */
  lemma {:induction false} ParseDigitsValue(s: string)
    ensures ParseDigits(s).Some? <==> AllDigits(s)
    ensures AllDigits(s) ==> ParseDigits(s) == Some(DigitsValue(s))
  {
    if s != [] {
      ParseDigitsValue(s[..|s| - 1]);
      if AllDigits(s) {
        assert AllDigits(s[..|s| - 1]);
      } else if AllDigits(s[..|s| - 1]) {
        assert !IsDigit(s[|s| - 1]);
      }
    }
  }

  /**
    What Atoi accepts: a non-empty text whose first character is a digit or
    a sign, with at least one digit after a sign and only digits after the
    first character; the value is the digits' value, negated after `-`, and
    lies within 64 bits.
   */
  lemma AtoiAccepts(s: string)
    requires Atoi(s).Some?
    ensures IsDigit(s[0]) || s[0] == '+' || s[0] == '-'
    ensures (s[0] == '+' || s[0] == '-') ==> |s| >= 2
    ensures AllDigits(s[1..])
    ensures IsDigit(s[0]) ==> AllDigits(s) && Atoi(s).value == DigitsValue(s)
    ensures s[0] == '+' ==> Atoi(s).value == DigitsValue(s[1..])
    ensures s[0] == '-' ==> Atoi(s).value == -(DigitsValue(s[1..]) as int)
    ensures MinInt <= Atoi(s).value <= MaxInt
  {
    var signed := s[0] == '+' || s[0] == '-';
    var digits := if signed then s[1..] else s;
    ParseDigitsValue(digits);
    if !signed {
      assert AllDigits(s);
      assert forall i :: 0 <= i < |s[1..]| ==> s[1..][i] == s[i + 1];
    }
  }

  /**
    The set Atoi accepts, both ways: a bare digit string of value at most
    MaxInt, `+` and such a string, or `-` and a digit string of value at
    most MaxInt + 1 (so MinInt itself is accepted).
   */
  lemma AtoiAcceptedSet(s: string)
    ensures Atoi(s).Some? <==>
      (|s| >= 1 && IsDigit(s[0]) && AllDigits(s) && DigitsValue(s) <= MaxInt) ||
      (|s| >= 2 && s[0] == '+' && AllDigits(s[1..]) && DigitsValue(s[1..]) <= MaxInt) ||
      (|s| >= 2 && s[0] == '-' && AllDigits(s[1..]) && DigitsValue(s[1..]) <= MaxInt + 1)
  {
    if |s| > 0 {
      var signed := s[0] == '+' || s[0] == '-';
      var digits := if signed then s[1..] else s;
      ParseDigitsValue(digits);
    }
  }

  /** Reading back the digits FormatNat prints gives the number printed. */
  lemma {:induction false} FormatNatValue(n: nat)
    ensures DigitsValue(FormatNat(n)) == n
    decreases n
  {
    if n >= 10 {
      var s := FormatNat(n);
      assert s[..|s| - 1] == FormatNat(n / 10);
      FormatNatValue(n / 10);
    }
  }

  /** Atoi parses back every 64-bit value that `%d` prints. */
  lemma AtoiFormatInt(n: int)
    requires MinInt <= n <= MaxInt
    ensures Atoi(FormatInt(n)) == Some(n)
  {
    var m: nat := if n < 0 then -n else n;
    var digits := FormatNat(m);
    FormatNatValue(m);
    ParseDigitsValue(digits);
    assert ParseDigits(digits) == Some(m);
    if n < 0 {
      assert FormatInt(n)[1..] == digits;
    } else {
      assert IsDigit(digits[0]);
    }
  }

  /** The text `%d` prints for `n` reads back as `n`: the digits' value, negated after `-`. */
  lemma FormatIntValue(n: int)
    ensures n < 0 ==> -(DigitsValue(FormatInt(n)[1..]) as int) == n
    ensures n >= 0 ==> DigitsValue(FormatInt(n)) == n
  {
    if n < 0 {
      assert FormatInt(n)[1..] == FormatNat(-n);
      FormatNatValue(-n);
    } else {
      FormatNatValue(n);
    }
  }

  /** Distinct integers print as distinct decimal texts. */
  lemma FormatIntInjective(a: int, b: int)
    requires FormatInt(a) == FormatInt(b)
    ensures a == b
  {
    FormatIntValue(a);
    FormatIntValue(b);
  }

  /**
    A digit string is accepted bare and after `+` when its value is at most
    MaxInt, and after `-` when its value is at most MaxInt + 1, with the
    sign applied.
   */
  lemma AtoiAcceptsSign(d: string)
    requires d != [] && AllDigits(d)
    ensures DigitsValue(d) <= MaxInt ==> Atoi(d) == Some(DigitsValue(d))
    ensures DigitsValue(d) <= MaxInt ==> Atoi("+" + d) == Some(DigitsValue(d))
    ensures DigitsValue(d) <= MaxInt + 1 ==> Atoi("-" + d) == Some(-(DigitsValue(d) as int))
  {
    ParseDigitsValue(d);
    assert ("+" + d)[1..] == d;
    assert ("-" + d)[1..] == d;
  }
}
