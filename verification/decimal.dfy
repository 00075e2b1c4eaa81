/**
 Decimal text for integers: Python's `str(n)` (used by f-strings for the port
 and for resource ids in URL paths) and the plain-digit subset of `int(s)`.
 */
module Decimal {
  import opened Options

  predicate IsDigit(c: char) {
    '0' <= c <= '9'
  }

  predicate AllDigits(s: string) {
    forall i :: 0 <= i < |s| ==> IsDigit(s[i])
  }

  function DigitChar(d: nat): (c: char)
    requires d < 10
    ensures IsDigit(c) && c as int - '0' as int == d
  {
    ('0' as int + d) as char
  }

  /** Decimal digits of a natural number, most significant first, without leading zeros. */
  function ShowNat(n: nat): (s: string)
    ensures |s| >= 1 && AllDigits(s)
    ensures n > 0 ==> s[0] != '0'
    ensures n == 0 ==> s == "0"
    decreases n
  {
    if n < 10 then [DigitChar(n)] else ShowNat(n / 10) + [DigitChar(n % 10)]
  }

  /** `str(n)` for a Python int: a minus sign exactly for negative numbers, then the digits. */
  function Show(n: int): (s: string)
    ensures |s| >= 1
    ensures s[0] == '-' <==> n < 0
    ensures n < 0 ==> AllDigits(s[1..])
    ensures n >= 0 ==> AllDigits(s)
    // canonical digits: no leading zero, and zero is written "0"
    ensures n == 0 ==> s == "0"
    ensures n > 0 ==> s[0] != '0'
    ensures n < 0 ==> |s| >= 2 && s[1] != '0'
  {
    if n < 0 then "-" + ShowNat(-n) else ShowNat(n)
  }

  /** The number a digit string denotes. */
  function DigitsValue(s: string): nat
    requires AllDigits(s)
  {
    if |s| == 0 then 0 else 10 * DigitsValue(s[..|s| - 1]) + (s[|s| - 1] as int - '0' as int)
  }

  /** `int(s)` for an optionally signed run of ASCII digits; None where Python raises ValueError. */
  function Parse(s: string): (r: Option<int>)
    ensures r.Some? <==>
      (|s| > 0 && AllDigits(s)) || (|s| > 1 && (s[0] == '-' || s[0] == '+') && AllDigits(s[1..]))
    ensures r.Some? && s[0] == '-' ==> r.value <= 0
    ensures r.Some? && s[0] != '-' ==> r.value >= 0
  {
    if |s| > 0 && AllDigits(s) then Some(DigitsValue(s) as int)
    else if |s| > 1 && s[0] == '-' && AllDigits(s[1..]) then Some(0 - DigitsValue(s[1..]) as int)
    else if |s| > 1 && s[0] == '+' && AllDigits(s[1..]) then Some(DigitsValue(s[1..]))
    else None
  }

  /** Reading the digits of `ShowNat(n)` gives back `n`. */
  lemma {:induction false} ShowNatValue(n: nat)
    ensures DigitsValue(ShowNat(n)) == n
    decreases n
  {
    if n >= 10 {
      var s := ShowNat(n);
      assert s == ShowNat(n / 10) + [DigitChar(n % 10)];
      assert s[..|s| - 1] == ShowNat(n / 10);
      ShowNatValue(n / 10);
    }
  }

  /** `int(str(n)) == n`: the decimal rendering loses nothing. */
  lemma {:induction false} ParseShow(n: int)
    ensures Parse(Show(n)) == Some(n)
  {
    if n < 0 {
      var d := ShowNat(-n);
      assert Show(n) == "-" + d;
      assert ("-" + d)[1..] == d;
      ShowNatValue(-n);
    } else {
      ShowNatValue(n);
    }
  }

  /** A leading zero does not change what a digit string denotes. */
  lemma {:induction false} LeadingZeroValue(d: string)
    requires AllDigits(d)
    ensures AllDigits("0" + d) && DigitsValue("0" + d) == DigitsValue(d)
    decreases |d|
  {
    if |d| > 0 {
      var z := "0" + d;
      assert z[..|z| - 1] == "0" + d[..|d| - 1];
      LeadingZeroValue(d[..|d| - 1]);
    } else {
      assert ("0" + d)[..0] == "";
    }
  }

  /** `int("0" + d) == int(d)`: leading zeros are read past. */
  lemma ParseLeadingZero(d: string)
    requires |d| > 0 && AllDigits(d)
    ensures Parse("0" + d) == Parse(d)
  {
    LeadingZeroValue(d);
  }

  /** `int("+" + d) == int(d)`: an explicit plus sign changes nothing. */
  lemma ParsePlus(d: string)
    requires |d| > 0 && AllDigits(d)
    ensures Parse("+" + d) == Parse(d)
  {
    assert ("+" + d)[1..] == d;
    assert !IsDigit(("+" + d)[0]);
  }

  /** `int("-" + d) == -int(d)`: a minus sign negates the digits' value. */
  lemma ParseMinus(d: string)
    requires |d| > 0 && AllDigits(d)
    ensures Parse(d).Some? && Parse("-" + d) == Some(-Parse(d).value)
  {
    assert ("-" + d)[1..] == d;
    assert !IsDigit(("-" + d)[0]);
  }

  /** A digit string that starts with a non-zero digit denotes a positive number. */
  lemma {:induction false} LeadingDigitPositive(d: string)
    requires |d| > 0 && AllDigits(d) && d[0] != '0'
    ensures DigitsValue(d) >= 1
    decreases |d|
  {
    if |d| > 1 {
      var prior := d[..|d| - 1];
      assert prior[0] == d[0];
      LeadingDigitPositive(prior);
    }
  }

  /** A digit string without leading zeros (or "0" itself) is exactly how `str` writes its value. */
  lemma {:induction false} CanonicalDigits(d: string)
    requires |d| > 0 && AllDigits(d) && (d[0] != '0' || d == "0")
    ensures ShowNat(DigitsValue(d)) == d
    decreases |d|
  {
    if |d| == 1 {
      assert d[..0] == "";
      assert DigitChar(DigitsValue(d)) == d[0];
    } else {
      var prior := d[..|d| - 1];
      assert prior[0] == d[0] != '0';
      CanonicalDigits(prior);
      LeadingDigitPositive(prior);
      var c := d[|d| - 1] as int - '0' as int;
      var v := DigitsValue(d);
      assert v == 10 * DigitsValue(prior) + c && 0 <= c < 10;
      assert v / 10 == DigitsValue(prior) && v % 10 == c;
      assert DigitChar(c) == d[|d| - 1];
      assert d == prior + [d[|d| - 1]];
    }
  }

  /** Different integers render differently, so a resource id names one path segment. */
  lemma ShowInjective(a: int, b: int)
    ensures Show(a) == Show(b) <==> a == b
  {
    if Show(a) == Show(b) {
      ParseShow(a);
      ParseShow(b);
    }
  }
}
