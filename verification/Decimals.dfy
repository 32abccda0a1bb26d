/** Non-negative decimals and the text they are rendered as.

    A decimal is a coefficient and an exponent, so one amount has many forms: 100.0, 100.00 and 1E+2 are the
    same value. The text shows the form, not just the value: plain digits while the exponent is not positive
    and the number is not too small, and scientific notation otherwise. */
module Decimals {

  /** `coefficient` times ten to the `exponent`. */
  datatype Dec = Dec(coefficient: nat, exponent: int)

  function Pow10(n: nat): (p: nat)
    ensures p >= 1
  {
    if n == 0 then 1 else 10 * Pow10(n - 1)
  }

  /** The exact amount a decimal stands for. */
  function AmountOf(d: Dec): real {
    if d.exponent >= 0 then (d.coefficient * Pow10(d.exponent)) as real
    else d.coefficient as real / Pow10(-d.exponent) as real
  }

  /** A whole number stands for itself, and a digit more at the next lower exponent is the same amount. */
  lemma AmountMeans(c: nat, e: int)
    ensures AmountOf(Dec(c, 0)) == c as real
    ensures AmountOf(Dec(10 * c, e - 1)) == AmountOf(Dec(c, e))
  {
    if e >= 1 {
      assert Pow10(e) == 10 * Pow10(e - 1);
      assert 10 * c * Pow10(e - 1) == c * Pow10(e);
    } else {
      var p := Pow10(-e) as real;
      assert Pow10(1 - e) as real == 10.0 * p;
      assert (10 * c) as real == 10.0 * c as real;
      TenTimesBoth(c as real, p);
    }
  }

  lemma TenTimesBoth(x: real, p: real)
    requires p >= 1.0
    ensures 10.0 * x / (10.0 * p) == x / p
  {
    assert x / p * (10.0 * p) == 10.0 * x;
  }

  // ---- digits -------------------------------------------------------------------------

  function Digit(d: nat): char
    requires d < 10
  {
    "0123456789"[d]
  }

  /** The decimal digits of a number, most significant first, padded to at least `width`. */
  function Digits(n: nat, width: nat): (s: string)
    ensures |s| >= width
    decreases n, width
  {
    if n == 0 && width == 0 then ""
    else Digits(n / 10, if width == 0 then 0 else width - 1) + [Digit(n % 10)]
  }

  predicate AllDigits(s: string) {
    forall i :: 0 <= i < |s| ==> '0' <= s[i] <= '9'
  }

  function Value(s: string): nat
    requires AllDigits(s)
  {
    if s == "" then 0 else 10 * Value(s[..|s| - 1]) + (s[|s| - 1] as int - '0' as int)
  }

  lemma {:induction false} DigitsAreDigits(n: nat, width: nat)
    ensures AllDigits(Digits(n, width))
    decreases n, width
  {
    if !(n == 0 && width == 0) {
      DigitsAreDigits(n / 10, if width == 0 then 0 else width - 1);
    }
  }

  /** Reading the written digits back gives the number. */
  lemma {:induction false} DigitsRoundTrip(n: nat, width: nat)
    ensures AllDigits(Digits(n, width))
    ensures Value(Digits(n, width)) == n
    decreases n, width
  {
    DigitsAreDigits(n, width);
    if !(n == 0 && width == 0) {
      var w := if width == 0 then 0 else width - 1;
      DigitsRoundTrip(n / 10, w);
      var s := Digits(n, width);
      assert s[..|s| - 1] == Digits(n / 10, w);
      assert s[|s| - 1] == Digit(n % 10);
      assert Digit(n % 10) as int - '0' as int == n % 10;
    }
  }

  // ---- the text -----------------------------------------------------------------------

  /** Insert the point before the last `scale` digits; no point when there is no fraction. */
  function Pointed(digits: string, scale: nat): string
    requires |digits| > scale
  {
    if scale == 0 then digits else digits[..|digits| - scale] + "." + digits[|digits| - scale..]
  }

  /** The digits of the coefficient, without leading zeros. */
  function Significant(d: Dec): (s: string)
    ensures |s| >= 1
  {
    Digits(d.coefficient, 1)
  }

  /** The exponent of the leading digit. */
  function LeadingExponent(d: Dec): int {
    d.exponent + |Significant(d)| - 1
  }

  /** Plain notation is kept for exponents up to zero and leading digits down to the sixth decimal place. */
  predicate IsPlain(d: Dec) {
    d.exponent <= 0 && LeadingExponent(d) >= -6
  }

  function PlainText(d: Dec): string
    requires d.exponent <= 0
  {
    Pointed(Digits(d.coefficient, 1 - d.exponent), -d.exponent)
  }

  function Mantissa(d: Dec): string {
    Pointed(Significant(d), |Significant(d)| - 1)
  }

  function ExponentText(e: int): string {
    if e < 0 then "-" + Digits(-e, 1) else "+" + Digits(e, 1)
  }

  /** One digit before the point, and the exponent of that digit. */
  function ScientificText(d: Dec): string {
    Mantissa(d) + "E" + ExponentText(LeadingExponent(d))
  }

  /** How the decimal is rendered: trailing zeros are written, so the text shows the exponent. */
  function Text(d: Dec): string {
    if IsPlain(d) then PlainText(d) else ScientificText(d)
  }

  lemma MoreDigits(n: nat, width: nat, s: string)
    requires Digits(n / 10, if width == 0 then 0 else width - 1) == s && (n > 0 || width > 0)
    ensures Digits(n, width) == s + [Digit(n % 10)]
  {
  }

  lemma PowersOfTen()
    ensures Digits(1, 1) == "1" && Digits(10, 1) == "10" && Digits(100, 1) == "100" && Digits(1000, 1) == "1000"
    ensures Digits(1000, 2) == "1000" && Digits(10000, 3) == "10000"
  {
    MoreDigits(1, 1, "");
    MoreDigits(1, 0, "");
    MoreDigits(10, 1, "1");
    MoreDigits(10, 0, "1");
    MoreDigits(100, 1, "10");
    MoreDigits(100, 0, "10");
    MoreDigits(1000, 1, "100");
    MoreDigits(1000, 2, "100");
    MoreDigits(1000, 0, "100");
    MoreDigits(10000, 3, "1000");
  }

  /** Trailing zeros are written: one amount, two texts. */
  lemma HundredTwice()
    ensures Text(Dec(1000, -1)) == "100.0" && Text(Dec(10000, -2)) == "100.00"
  {
    PowersOfTen();
    hide Digits;
  }

  lemma PaddedOne()
    ensures Digits(1, 7) == "0000001"
  {
    MoreDigits(0, 1, "");
    MoreDigits(0, 2, "0");
    MoreDigits(0, 3, "00");
    MoreDigits(0, 4, "000");
    MoreDigits(0, 5, "0000");
    MoreDigits(0, 6, "00000");
    MoreDigits(1, 7, "000000");
  }

  lemma ShortNumbers()
    ensures Digits(1, 1) == "1" && Digits(3, 1) == "3" && Digits(7, 1) == "7" && Digits(125, 1) == "125"
  {
    MoreDigits(1, 1, "");
    MoreDigits(1, 0, "");
    MoreDigits(3, 1, "");
    MoreDigits(7, 1, "");
    MoreDigits(12, 0, "1");
    MoreDigits(125, 1, "12");
  }

  /** A leading digit in the sixth decimal place still has the plain form. */
  lemma SmallestPlainText()
    ensures Text(Dec(1, -6)) == "0.000001"
  {
    hide Digits;
    PaddedOne();
    ShortNumbers();
  }

  /** One in the seventh, and every positive exponent, is shown in powers of ten. */
  lemma ScientificTexts()
    ensures Text(Dec(1, -7)) == "1E-7" && Text(Dec(1, 3)) == "1E+3" && Text(Dec(125, 1)) == "1.25E+3"
  {
    hide Digits;
    ShortNumbers();
  }

  // ---- the text determines the decimal ------------------------------------------------

  lemma PointMarksScale(digits: string, scale: nat)
    requires AllDigits(digits) && |digits| > scale
    ensures scale == 0 ==> forall i :: 0 <= i < |Pointed(digits, scale)| ==> Pointed(digits, scale)[i] != '.'
    ensures scale > 0 ==> |Pointed(digits, scale)| > scale + 1
    ensures scale > 0 ==> Pointed(digits, scale)[|Pointed(digits, scale)| - scale - 1] == '.'
    ensures forall i :: 0 <= i < |Pointed(digits, scale)| && i != |Pointed(digits, scale)| - scale - 1 ==>
              Pointed(digits, scale)[i] != '.'
  {
  }

  lemma PointedIsInjective(a: string, m: nat, b: string, n: nat)
    requires AllDigits(a) && |a| > m && AllDigits(b) && |b| > n
    requires Pointed(a, m) == Pointed(b, n)
    ensures a == b && m == n
  {
    PointMarksScale(a, m);
    PointMarksScale(b, n);
    assert m == n;
    if m > 0 {
      var t, k := Pointed(a, m), |a| - m;
      assert a == t[..k] + t[k + 1..];
      assert b == t[..k] + t[k + 1..];
    }
  }

  /** Digits and points only. */
  predicate IsNumeral(s: string) {
    forall i :: 0 <= i < |s| ==> '0' <= s[i] <= '9' || s[i] == '.'
  }

  lemma PointedIsNumeral(digits: string, scale: nat)
    requires AllDigits(digits) && |digits| > scale
    ensures IsNumeral(Pointed(digits, scale))
  {
  }

  lemma DigitsAreInjective(m: nat, w: nat, n: nat, v: nat)
    requires Digits(m, w) == Digits(n, v)
    ensures m == n
  {
    DigitsRoundTrip(m, w);
    DigitsRoundTrip(n, v);
    hide Digits, Value;
  }

  lemma PlainTextIsInjective(x: Dec, y: Dec)
    requires x.exponent <= 0 && y.exponent <= 0 && PlainText(x) == PlainText(y)
    ensures x == y
  {
    hide Digits, Pointed;
    var m, n := -x.exponent, -y.exponent;
    DigitsAreDigits(x.coefficient, 1 + m);
    DigitsAreDigits(y.coefficient, 1 + n);
    PointedIsInjective(Digits(x.coefficient, 1 + m), m, Digits(y.coefficient, 1 + n), n);
    DigitsAreInjective(x.coefficient, 1 + m, y.coefficient, 1 + n);
  }

  lemma ExponentTextIsInjective(e: int, f: int)
    requires ExponentText(e) == ExponentText(f)
    ensures e == f
  {
    assert ExponentText(e)[0] == ExponentText(f)[0];
    assert ExponentText(e)[1..] == Digits(if e < 0 then -e else e, 1);
    assert ExponentText(f)[1..] == Digits(if f < 0 then -f else f, 1);
    DigitsRoundTrip(if e < 0 then -e else e, 1);
    DigitsRoundTrip(if f < 0 then -f else f, 1);
  }

  lemma SplitAtE(a: string, x: string, b: string, y: string)
    requires IsNumeral(a) && IsNumeral(b)
    requires a + "E" + x == b + "E" + y
    ensures a == b && x == y
  {
    var s := a + "E" + x;
    assert s[|a|] == 'E' && s[|b|] == 'E';
    assert forall i :: 0 <= i < |a| ==> s[i] == a[i];
    assert forall i :: 0 <= i < |b| ==> s[i] == b[i];
    assert |a| == |b|;
    assert a == s[..|a|] == b;
    assert x == s[|a| + 1..] == y;
  }

  lemma ScientificTextIsInjective(x: Dec, y: Dec)
    requires ScientificText(x) == ScientificText(y)
    ensures x == y
  {
    DigitsRoundTrip(x.coefficient, 1);
    DigitsRoundTrip(y.coefficient, 1);
    PointedIsNumeral(Significant(x), |Significant(x)| - 1);
    PointedIsNumeral(Significant(y), |Significant(y)| - 1);
    SplitAtE(Mantissa(x), ExponentText(LeadingExponent(x)), Mantissa(y), ExponentText(LeadingExponent(y)));
    PointedIsInjective(Significant(x), |Significant(x)| - 1, Significant(y), |Significant(y)| - 1);
    ExponentTextIsInjective(LeadingExponent(x), LeadingExponent(y));
  }

  lemma PlainIsNotScientific(x: Dec, y: Dec)
    requires x.exponent <= 0
    ensures PlainText(x) != ScientificText(y)
  {
    DigitsAreDigits(x.coefficient, 1 - x.exponent);
    PointedIsNumeral(Digits(x.coefficient, 1 - x.exponent), -x.exponent);
    assert ScientificText(y)[|Mantissa(y)|] == 'E';
  }

  /** The rendered text of a decimal determines its digits and its exponent, in either notation. */
  lemma TextIsInjective(x: Dec, y: Dec)
    requires Text(x) == Text(y)
    ensures x == y
  {
    if IsPlain(x) && IsPlain(y) {
      PlainTextIsInjective(x, y);
    } else if !IsPlain(x) && !IsPlain(y) {
      ScientificTextIsInjective(x, y);
    } else if IsPlain(x) {
      PlainIsNotScientific(x, y);
    } else {
      PlainIsNotScientific(y, x);
    }
  }

  /** No rendered decimal contains the separator of joined material. */
  lemma TextIsBarFree(d: Dec)
    ensures '|' !in Text(d)
  {
    if IsPlain(d) {
      DigitsAreDigits(d.coefficient, 1 - d.exponent);
      PointedIsNumeral(Digits(d.coefficient, 1 - d.exponent), -d.exponent);
    } else {
      var e := LeadingExponent(d);
      DigitsAreDigits(d.coefficient, 1);
      DigitsAreDigits(if e < 0 then -e else e, 1);
      PointedIsNumeral(Significant(d), |Significant(d)| - 1);
      assert '|' !in ExponentText(e);
    }
  }

  // ---- value and form -----------------------------------------------------------------

  lemma ScaledEqual(a: nat, b: nat, p: nat)
    requires p >= 1
    ensures a as real / p as real == b as real / p as real <==> a == b
    ensures a * p == b * p <==> a == b
  {
    assert a as real / p as real * p as real == a as real;
    assert b as real / p as real * p as real == b as real;
  }

  /** Two decimals with the same exponent are the same form exactly when they are the same amount. */
  lemma SameExponentSameAmount(x: Dec, y: Dec)
    requires x.exponent == y.exponent
    ensures AmountOf(x) == AmountOf(y) <==> x == y
  {
    if x.exponent >= 0 {
      ScaledEqual(x.coefficient, y.coefficient, Pow10(x.exponent));
    } else {
      ScaledEqual(x.coefficient, y.coefficient, Pow10(-x.exponent));
    }
  }

  /** One amount is rendered the same way twice exactly when the two decimals have the same exponent. */
  lemma SameAmountSameText(x: Dec, y: Dec)
    requires AmountOf(x) == AmountOf(y)
    ensures Text(x) == Text(y) <==> x.exponent == y.exponent
  {
    if Text(x) == Text(y) {
      TextIsInjective(x, y);
    } else if x.exponent == y.exponent {
      SameExponentSameAmount(x, y);
    }
  }
}
