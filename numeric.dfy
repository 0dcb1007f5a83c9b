/**
 * Reading a number from the front of a string, as PHP's `(int)` cast and
 * MySQL's comparison of a string with a number both do: leading whitespace,
 * an optional sign, digits with an optional fraction, an optional exponent.
 * Whatever follows is ignored, and a string with no digits there reads as 0.
 * The numeral is kept exact (mantissa and power of ten); binary64 rounding is
 * not modelled.
 */
module Numeric {
  import opened Text

  /** The whitespace PHP skips in front of a numeric string: " \t\n\r\v\f". */
  predicate IsNumericSpace(c: char)
  {
    c == ' ' || c == '\t' || c == '\n' || c == '\r' || c == 11 as char || c == 12 as char
  }

  /** The longest prefix of `s` made of decimal digits. */
  function LeadingDigits(s: string): (r: string)
    ensures |r| <= |s| && r == s[..|r|]
    ensures forall i :: 0 <= i < |r| ==> IsDigit(r[i])
    ensures |r| < |s| ==> !IsDigit(s[|r|])
  {
    if |s| > 0 && IsDigit(s[0]) then [s[0]] + LeadingDigits(s[1..]) else ""
  }

  lemma {:induction false} LeadingDigitsAll(s: string)
    requires forall i :: 0 <= i < |s| ==> IsDigit(s[i])
    ensures LeadingDigits(s) == s
    decreases |s|
  {
    if |s| > 0 {
      LeadingDigitsAll(s[1..]);
    }
  }

  /** A decimal numeral: plus or minus `mantissa` times ten to the `scale`. */
  datatype Numeral = Numeral(negative: bool, mantissa: nat, scale: int)

  /** `e` or `E`, an optional sign and digits at the front of `s`: the exponent they give, else 0. */
  function Exponent(s: string): int
  {
    if |s| > 0 && (s[0] == 'e' || s[0] == 'E') then
      var t := s[1..];
      var digits := LeadingDigits(if |t| > 0 && (t[0] == '-' || t[0] == '+') then t[1..] else t);
      if |t| > 0 && t[0] == '-' then -(DigitsValue(digits) as int) else DigitsValue(digits)
    else 0
  }

  /** Digits, then optionally '.' and digits (at least one digit in all), then an optional exponent. */
  function UnsignedPrefix(t: string): (n: Numeral)
    ensures !n.negative
  {
    var whole := LeadingDigits(t);
    var after := t[|whole|..];
    var dot := |after| > 0 && after[0] == '.';
    var fraction := if dot then LeadingDigits(after[1..]) else "";
    if |whole| + |fraction| == 0 then Numeral(false, 0, 0)
    else
      var rest := if dot then after[1 + |fraction|..] else after;
      assert forall i :: 0 <= i < |whole + fraction| ==> IsDigit((whole + fraction)[i]);
      Numeral(false, DigitsValue(whole + fraction), Exponent(rest) - |fraction|)
  }

  /** The numeral at the front of `s`, after leading whitespace and an optional sign. */
  function NumericPrefix(s: string): Numeral
  {
    if |s| > 0 && IsNumericSpace(s[0]) then NumericPrefix(s[1..])
    else if |s| > 0 && s[0] == '-' then UnsignedPrefix(s[1..]).(negative := true)
    else if |s| > 0 && s[0] == '+' then UnsignedPrefix(s[1..])
    else UnsignedPrefix(s)
  }

  /** The size of a numeral, exactly. */
  function Magnitude(n: Numeral): real
  {
    if n.scale >= 0 then (n.mantissa * Pow10(n.scale)) as real
    else n.mantissa as real / Pow10(-n.scale) as real
  }

  /** The value of a numeral, exactly. */
  function Value(n: Numeral): real
  {
    if n.negative then -Magnitude(n) else Magnitude(n)
  }

  /** Integer division of naturals is real division rounded down. */
  lemma DivBounds(m: nat, p: nat)
    requires p >= 1
    ensures (m / p) as real <= m as real / p as real < (m / p) as real + 1.0
  {
    var q := m / p;
    var rem := m % p;
    assert m == q * p + rem;
    assert m as real == q as real * p as real + rem as real;
    assert m as real / p as real == q as real + rem as real / p as real;
    assert 0.0 <= rem as real / p as real < 1.0;
  }

  /** The value truncated toward zero, as a float is cast to an integer. */
  function Truncate(n: Numeral): (r: int)
    ensures !n.negative ==> 0 <= r && r as real <= Value(n) < r as real + 1.0
    ensures n.negative ==> r <= 0 && Value(n) <= r as real < Value(n) + 1.0
  {
    if n.scale >= 0 then
      var q := n.mantissa * Pow10(n.scale);
      if n.negative then -q else q
    else
      DivBounds(n.mantissa, Pow10(-n.scale));
      var q := n.mantissa / Pow10(-n.scale);
      if n.negative then -q else q
  }

  /** PHP_INT_MAX and PHP_INT_MIN on a 64-bit build. */
  const IntMax: int := 0x7FFF_FFFF_FFFF_FFFF
  const IntMin: int := -0x8000_0000_0000_0000

  /**
   * The smallest size whose nearest binary64 is infinite: 2^1024 - 2^970.
   * Larger numerals read as INF, which PHP casts to 0.
   */
  const Overflow: real := 179769313486231580793728971405303415079934132710037826936173778980444968292764750946649017977587207096330286416692887910946555547851940402630657488671505820681908902000708383676273854845817711531764475730270069855571366959622842914819860834936475292719074168444365510704342711559699508093042880177904174497792.0

  /**
   * `zend_dval_to_lval_cap`: an infinite value is 0, a value outside the
   * 64-bit range is the nearest bound, any other is truncated toward zero.
   */
  function CapToInt(n: Numeral): (r: int)
    ensures IntMin <= r <= IntMax
    ensures Magnitude(n) < Overflow && IntMin <= Truncate(n) <= IntMax ==> r == Truncate(n)
    ensures Magnitude(n) < Overflow && Truncate(n) > IntMax ==> r == IntMax
    ensures Magnitude(n) < Overflow && Truncate(n) < IntMin ==> r == IntMin
    ensures Magnitude(n) >= Overflow ==> r == 0
  {
    if Magnitude(n) >= Overflow then 0
    else
      var t := Truncate(n);
      if t > IntMax then IntMax else if t < IntMin then IntMin else t
  }

  /** A digit string reads as the number it denotes. */
  lemma {:induction false} NumericPrefixOfDigits(s: string)
    requires |s| > 0 && forall i :: 0 <= i < |s| ==> IsDigit(s[i])
    ensures NumericPrefix(s) == Numeral(false, DigitsValue(s), 0)
  {
    LeadingDigitsAll(s);
    assert !IsNumericSpace(s[0]) && s[0] != '-' && s[0] != '+';
    assert s[|s|..] == "";
    assert s + "" == s;
  }

  /** The decimal text of a natural number reads back as that number, exactly. */
  lemma NumericPrefixOfNat(n: nat)
    ensures NumericPrefix(NatToString(n)) == Numeral(false, n, 0)
    ensures Value(NumericPrefix(NatToString(n))) == n as real
  {
    NumericPrefixOfDigits(NatToString(n));
    NatToStringValue(n);
  }

  /** "1e3" reads as 1 times ten to the 3, that is 1000. */
  lemma ExponentNumeral()
    ensures NumericPrefix("1e3") == Numeral(false, 1, 3)
    ensures Value(NumericPrefix("1e3")) == 1000.0 && Truncate(NumericPrefix("1e3")) == 1000
  {
    var s := "1e3";
    assert LeadingDigits(s) == "1" by {
      assert LeadingDigits(s[1..]) == "" by { assert s[1..][0] == 'e'; }
    }
    var after := s[1..];
    assert after == "e3";
    assert Exponent(after) == 3 by {
      assert after[1..] == "3";
      assert LeadingDigits("3") == "3" by { LeadingDigitsAll("3"); }
      assert DigitsValue("3") == 3 by { assert "3"[..0] == ""; }
    }
    assert DigitsValue("1") == 1 by { assert "1"[..0] == ""; }
    assert "1" + "" == "1";
    assert Pow10(3) == 1000;
  }

  /** "1.5" reads as 15 tenths, a value strictly between 1 and 2. */
  lemma FractionNumeral()
    ensures NumericPrefix("1.5") == Numeral(false, 15, -1)
    ensures 1.0 < Value(NumericPrefix("1.5")) < 2.0
  {
    var s := "1.5";
    assert LeadingDigits(s) == "1" by {
      assert LeadingDigits(s[1..]) == "" by { assert s[1..][0] == '.'; }
    }
    var after := s[1..];
    assert after == ".5" && after[1..] == "5";
    assert LeadingDigits("5") == "5" by { LeadingDigitsAll("5"); }
    assert "1" + "5" == "15";
    assert DigitsValue("15") == 15 by {
      assert "15"[..1] == "1" && "1"[..0] == "";
    }
    assert after[2..] == "";
    assert Pow10(1) == 10;
  }
}
