/**
 * Decimal text and numbers, as JavaScript converts between them:
 * `n.toString()` for integers, `String(x)` for values with at most two
 * decimals, and `parseFloat(s)`, which skips leading white space and reads
 * the longest prefix of `s` that is a decimal literal (`NaN` is `None`).
 */
module Decimal {
  import opened Wrappers
  import opened Numbers
  import opened Text

  predicate IsDigit(c: char)
  {
    '0' <= c <= '9'
  }

  predicate AllDigits(s: string)
  {
    forall i :: 0 <= i < |s| ==> IsDigit(s[i])
  }

  /** The value of a digit character (0 for any other character). */
  function DigitValue(c: char): nat
  {
    if IsDigit(c) then c as int - '0' as int else 0
  }

  function DigitChar(d: nat): (c: char)
    requires d < 10
    ensures IsDigit(c) && DigitValue(c) == d
  {
    ('0' as int + d) as char
  }

  /** The number a string of digits denotes, most significant digit first. */
  function DigitsValue(s: string): nat
  {
    if s == [] then 0 else DigitsValue(s[..|s| - 1]) * 10 + DigitValue(s[|s| - 1])
  }

  /** `n.toString()` for a natural number. */
  function NatToString(n: nat): (s: string)
    ensures |s| > 0 && AllDigits(s)
  {
    if n < 10 then [DigitChar(n)] else NatToString(n / 10) + [DigitChar(n % 10)]
  }

  /** `i.toString()` for an integer. */
  function IntToString(i: int): (s: string)
    ensures |s| > 0 && !IsWhitespace(s[0])
  {
    if i < 0 then "-" + NatToString(-i) else NatToString(i)
  }

  lemma {:induction false} DigitsOfNat(n: nat)
    ensures DigitsValue(NatToString(n)) == n
  {
    if n >= 10 {
      var s := NatToString(n);
      assert s[..|s| - 1] == NatToString(n / 10);
      DigitsOfNat(n / 10);
    }
  }

  /** Distinct numbers are written differently. */
  lemma NatToStringInjective(m: nat, n: nat)
    requires NatToString(m) == NatToString(n)
    ensures m == n
  {
    DigitsOfNat(m);
    DigitsOfNat(n);
  }

  /** Number of digits at the front of `s`. */
  function LeadingDigits(s: string): (n: nat)
    ensures n <= |s|
  {
    if |s| > 0 && IsDigit(s[0]) then 1 + LeadingDigits(s[1..]) else 0
  }

  /** A decimal literal as `parseFloat` reads it: sign, digits before and
      after the point, and the power of ten. */
  datatype Numeral = Numeral(negative: bool, whole: string, fraction: string, exponent: int)

  /** `e` or `E`, an optional sign and at least one digit; 0 when absent. */
  function ScanExponent(s: string): int
  {
    if |s| >= 2 && (s[0] == 'e' || s[0] == 'E') then
      var signed := s[1] == '+' || s[1] == '-';
      var digits := if signed then s[2..] else s[1..];
      var k := LeadingDigits(digits);
      if signed && s[1] == '-' then -(DigitsValue(digits[..k]) as int)
      else DigitsValue(digits[..k])
    else 0
  }

  /** The longest decimal literal at the front of `t` (which starts past the
      white space): a sign, digits, a point and digits, an exponent. At least
      one digit must come before the exponent. */
  function ScanNumeral(t: string): Option<Numeral>
  {
    var negative := |t| > 0 && t[0] == '-';
    var u := if |t| > 0 && (t[0] == '-' || t[0] == '+') then t[1..] else t;
    ScanUnsigned(negative, u)
  }

  function ScanUnsigned(negative: bool, u: string): Option<Numeral>
  {
    var w := LeadingDigits(u);
    var (fraction, rest) := ScanFraction(u[w..]);
    if w == 0 && |fraction| == 0 then None
    else Some(Numeral(negative, u[..w], fraction, ScanExponent(rest)))
  }

  /** A point followed by digits, and what follows them; nothing when `s`
      does not start with a point. */
  function ScanFraction(s: string): (string, string)
  {
    if |s| > 0 && s[0] == '.' then
      var f := LeadingDigits(s[1..]);
      (s[1..][..f], s[1 + f..])
    else ("", s)
  }

  /** The value of the digits after a decimal point. */
  function FractionValue(digits: string): real
  {
    if digits == [] then 0.0 else (DigitValue(digits[0]) as real + FractionValue(digits[1..])) / 10.0
  }

  /** `x` times ten to the power `e`. */
  function ScaleByTen(x: real, e: int): real
    decreases if e < 0 then -e else e
  {
    if e == 0 then x
    else if e > 0 then ScaleByTen(x, e - 1) * 10.0
    else ScaleByTen(x, e + 1) / 10.0
  }

  function NumeralValue(n: Numeral): real
  {
    var scaled := ScaleByTen(DigitsValue(n.whole) as real + FractionValue(n.fraction), n.exponent);
    if n.negative then -scaled else scaled
  }

  /** `parseFloat(s)`; `None` stands for `NaN`. */
  function ParseFloat(s: string): Option<real>
  {
    match ScanNumeral(TrimStart(s))
    case None => None
    case Some(n) => Some(NumeralValue(n))
  }

  lemma {:induction false} LeadingDigitsAppend(a: string, b: string)
    requires AllDigits(a)
    requires b == [] || !IsDigit(b[0])
    ensures LeadingDigits(a + b) == |a|
  {
    if a != [] {
      assert (a + b)[1..] == a[1..] + b;
      LeadingDigitsAppend(a[1..], b);
    }
  }

  /** The text `[-]whole[.fraction]`. */
  function Literal(negative: bool, whole: string, fraction: string): string
  {
    (if negative then "-" else "") + whole + (if fraction == [] then "" else "." + fraction)
  }

  lemma ScanFractionOf(fraction: string)
    requires AllDigits(fraction)
    ensures ScanFraction(if fraction == [] then "" else "." + fraction) == (fraction, "")
  {
    if fraction != [] {
      var s := "." + fraction;
      LeadingDigitsAppend(fraction, []);
      assert fraction + [] == fraction;
      assert s[1..] == fraction;
    }
  }

  lemma ScanLiteral(negative: bool, whole: string, fraction: string)
    requires |whole| > 0 && AllDigits(whole) && AllDigits(fraction)
    ensures ScanNumeral(Literal(negative, whole, fraction)) == Some(Numeral(negative, whole, fraction, 0))
  {
    var tail := if fraction == [] then "" else "." + fraction;
    var u := whole + tail;
    var text := Literal(negative, whole, fraction);
    assert text == (if negative then "-" else "") + u;
    if negative {
      assert text[0] == '-' && text[1..] == u;
    } else {
      assert text[0] == whole[0] && IsDigit(text[0]);
    }
    LeadingDigitsAppend(whole, tail);
    assert u[..|whole|] == whole && u[|whole|..] == tail;
    ScanFractionOf(fraction);
    assert ScanExponent("") == 0;
    assert ScanUnsigned(negative, u) == Some(Numeral(negative, whole, fraction, 0));
    assert (|text| > 0 && text[0] == '-') == negative;
    var unsigned := if |text| > 0 && (text[0] == '-' || text[0] == '+') then text[1..] else text;
    assert unsigned == u;
    assert ScanNumeral(text) == ScanUnsigned(negative, unsigned);
  }

  /** Reading back a decimal string of digits and an optional fraction. */
  lemma ParseLiteral(text: string, negative: bool, whole: string, fraction: string)
    requires |whole| > 0 && AllDigits(whole) && AllDigits(fraction)
    requires text == Literal(negative, whole, fraction)
    ensures ParseFloat(text) == Some(LiteralValue(negative, whole, fraction))
  {
    ReadLiteral(negative, whole, fraction);
    NumeralValueOfLiteral(negative, whole, fraction);
  }

  lemma ReadLiteral(negative: bool, whole: string, fraction: string)
    requires |whole| > 0 && AllDigits(whole) && AllDigits(fraction)
    ensures ParseFloat(Literal(negative, whole, fraction)) == Some(NumeralValue(Numeral(negative, whole, fraction, 0)))
  {
    TrimLiteral(negative, whole, fraction);
    ScanLiteral(negative, whole, fraction);
  }

  /** The number `[-]whole[.fraction]` denotes. */
  function LiteralValue(negative: bool, whole: string, fraction: string): real
  {
    var magnitude := DigitsValue(whole) as real + FractionValue(fraction);
    if negative then -magnitude else magnitude
  }

  lemma NumeralValueOfLiteral(negative: bool, whole: string, fraction: string)
    requires AllDigits(whole) && AllDigits(fraction) && |whole| > 0
    ensures NumeralValue(Numeral(negative, whole, fraction, 0)) == LiteralValue(negative, whole, fraction)
  {
  }

  lemma TrimLiteral(negative: bool, whole: string, fraction: string)
    requires |whole| > 0 && AllDigits(whole)
    ensures TrimStart(Literal(negative, whole, fraction)) == Literal(negative, whole, fraction)
  {
    var text := Literal(negative, whole, fraction);
    assert text[0] == '-' || text[0] == whole[0];
    assert IsDigit(whole[0]);
    assert !IsWhitespace(text[0]);
  }

  /** Integers read back exactly: `parseFloat(String(i)) == i`. */
  lemma ParseIntToString(i: int)
    ensures ParseFloat(IntToString(i)) == Some(i as real)
  {
    var n: nat := if i < 0 then -i else i;
    var whole := NatToString(n);
    IntToStringIsLiteral(i);
    ParseLiteral(IntToString(i), i < 0, whole, "");
    DigitsOfNat(n);
  }

  lemma IntToStringIsLiteral(i: int)
    ensures IntToString(i) == Literal(i < 0, NatToString(if i < 0 then -i else i), "")
  {
    var whole := NatToString(if i < 0 then -i else i);
    assert whole + "" == whole;
  }

  /** The decimals of `c` hundredths (0 <= c < 100) as JavaScript prints
      them: none, one digit, or two, without trailing zeros. */
  function CentsDigits(c: nat): (d: string)
    requires c < 100
    ensures AllDigits(d) && |d| <= 2
  {
    if c == 0 then ""
    else if c % 10 == 0 then [DigitChar(c / 10)]
    else [DigitChar(c / 10), DigitChar(c % 10)]
  }

  lemma CentsDigitsValue(c: nat)
    requires c < 100
    ensures FractionValue(CentsDigits(c)) == c as real / 100.0
  {
    var d := CentsDigits(c);
    if c != 0 && c % 10 == 0 {
      assert d[1..] == [];
    } else if c != 0 {
      assert d[1..][1..] == [];
      assert FractionValue(d[1..]) == (c % 10) as real / 10.0;
      assert c == (c / 10) * 10 + c % 10;
    }
  }

  function Magnitude(h: int): nat
  {
    if h < 0 then -h else h
  }

  /** `String(x)` for a number with at most two decimals, given as a count of
      hundredths. */
  function ShowHundredths(h: int): string
  {
    Literal(h < 0, NatToString(Magnitude(h) / 100), CentsDigits(Magnitude(h) % 100))
  }

  /** `String(x)` for the two-decimal value nearest to `x`; for the values
      this front end prints (all produced by `Round2`) that is `x` itself. */
  function ShowNumber(x: real): string
  {
    ShowHundredths(RoundHalfAway(x * 100.0))
  }

  lemma ParseHundredths(h: int)
    ensures ParseFloat(ShowHundredths(h)) == Some(h as real / 100.0)
  {
    var whole, fraction := HundredthsParts(h);
    ReadLiteral(h < 0, whole, fraction);
    NumeralValueOfLiteral(h < 0, whole, fraction);
    assert ShowHundredths(h) == Literal(h < 0, whole, fraction);
  }

  /** The whole and decimal digits `ShowHundredths` writes, and their value. */
  lemma HundredthsParts(h: int) returns (whole: string, fraction: string)
    ensures |whole| > 0 && AllDigits(whole) && AllDigits(fraction)
    ensures ShowHundredths(h) == Literal(h < 0, whole, fraction)
    ensures LiteralValue(h < 0, whole, fraction) == h as real / 100.0
  {
    var m := Magnitude(h);
    whole, fraction := NatToString(m / 100), CentsDigits(m % 100);
    DigitsOfNat(m / 100);
    CentsDigitsValue(m % 100);
    HundredthsSplit(m);
  }

  lemma HundredthsSplit(m: nat)
    ensures (m / 100) as real + (m % 100) as real / 100.0 == m as real / 100.0
  {
    assert m == (m / 100) * 100 + m % 100;
  }

  /** Printing a number and parsing it back gives its two-decimal rounding;
      for a value that already has two decimals, the value itself. */
  lemma ParseShowNumber(x: real)
    ensures ParseFloat(ShowNumber(x)) == Some(Round2(x))
  {
    var h := RoundHalfAway(x * 100.0);
    ParseHundredths(h);
    assert ShowNumber(x) == ShowHundredths(h);
    assert Round2(x) == h as real / 100.0;
  }

  /** Printed numbers have no line breaks, so a list of them can be joined
      by newlines and split apart again. */
  lemma ShowNumberSingleLine(x: real)
    ensures '\n' !in ShowNumber(x)
  {
    var h := RoundHalfAway(x * 100.0);
    LiteralSingleLine(h < 0, NatToString(Magnitude(h) / 100), CentsDigits(Magnitude(h) % 100));
  }

  lemma LiteralSingleLine(negative: bool, whole: string, fraction: string)
    requires AllDigits(whole) && AllDigits(fraction)
    ensures '\n' !in Literal(negative, whole, fraction)
  {
    var s := Literal(negative, whole, fraction);
    assert forall i :: 0 <= i < |s| ==> s[i] == '-' || s[i] == '.' || IsDigit(s[i]);
  }
}
