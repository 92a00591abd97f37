/** Exact decimal numbers as Python's `decimal.Decimal` keeps them: an
    integer coefficient and a number of fractional digits.  Two decimals are
    equal when they denote the same rational number, whatever their scales:
    `Decimal("100") == Decimal("100.00")`. */
module Decimals {

  import opened PyValues
  import opened Text

  /** The number `units / 10^scale`. */
  datatype Decimal = Decimal(units: int, scale: nat)

  function Pow10(k: nat): (p: nat)
    ensures p >= 1
  {
    if k == 0 then 1 else 10 * Pow10(k - 1)
  }

  /** Equality of the denoted rationals (Python's `==` on `Decimal`). */
  predicate SameValue(a: Decimal, b: Decimal) {
    a.units * Pow10(b.scale) == b.units * Pow10(a.scale)
  }

  predicate IsDigit(c: char) { '0' <= c <= '9' }

  predicate AllDigits(s: string) {
    forall i :: 0 <= i < |s| ==> IsDigit(s[i])
  }

  /** The number a digit string spells, most significant digit first. */
  function DigitsValue(s: string): nat
    requires AllDigits(s)
  {
    if s == [] then 0 else DigitsValue(s[..|s| - 1]) * 10 + (s[|s| - 1] as int - '0' as int)
  }

  /** `Decimal(text)` for the plain notation: an optional sign, then an
      unsigned body. */
  function ParseDecimal(text: string): Option<Decimal> {
    var signed := |text| > 0 && (text[0] == '-' || text[0] == '+');
    match ParseUnsigned(if signed then text[1..] else text)
    case None => None
    case Some(u) => Some(Decimal(if signed && text[0] == '-' then -(u.0 as int) else u.0, u.1))
  }

  /** The unsigned body: digits, optionally a point followed by digits, with
      at least one digit in all; yields the coefficient and the scale. */
  function ParseUnsigned(body: string): Option<(nat, nat)> {
    var parts := Split(body, '.');
    var whole := parts[0];
    var frac := if |parts| == 2 then parts[1] else "";
    if |parts| <= 2 && AllDigits(whole + frac) && |whole + frac| >= 1 then
      Some((DigitsValue(whole + frac), |frac|))
    else
      None
  }

  function Zeros(n: nat): (z: string)
    ensures |z| == n && AllDigits(z)
  {
    if n == 0 then "" else Zeros(n - 1) + "0"
  }

  /** The digits of `|units|`, left-padded with zeros so that at least one
      digit stands before the point. */
  function PaddedDigits(d: Decimal): (s: string)
    ensures |s| >= d.scale + 1 && AllDigits(s)
  {
    var digits := NatToString(if d.units < 0 then -d.units else d.units);
    if |digits| >= d.scale + 1 then digits else Zeros(d.scale + 1 - |digits|) + digits
  }

  /** The plain-notation rendering of a decimal: sign, integer digits, and
      when the scale is positive a point and exactly `scale` fractional
      digits (Python's `str` agrees for adjusted exponents of -6 and above,
      and switches to exponent form below that). */
  function DecimalToString(d: Decimal): string {
    var digits := PaddedDigits(d);
    var whole := digits[..|digits| - d.scale];
    var frac := digits[|digits| - d.scale..];
    (if d.units < 0 then "-" else "") + whole + (if d.scale > 0 then "." + frac else "")
  }

  lemma {:induction false} DigitsValueAppend(a: string, b: string)
    requires AllDigits(a) && AllDigits(b)
    ensures AllDigits(a + b)
    ensures DigitsValue(a + b) == DigitsValue(a) * Pow10(|b|) + DigitsValue(b)
  {
    assert forall i :: 0 <= i < |a + b| ==> (a + b)[i] == if i < |a| then a[i] else b[i - |a|];
    if b != [] {
      var b' := b[..|b| - 1];
      assert AllDigits(b');
      assert (a + b)[..|a + b| - 1] == a + b';
      DigitsValueAppend(a, b');
      var c := b[|b| - 1] as int - '0' as int;
      assert (a + b)[|a + b| - 1] == b[|b| - 1];
      assert DigitsValue(a + b) == DigitsValue(a + b') * 10 + c;
      assert DigitsValue(b) == DigitsValue(b') * 10 + c;
      ShiftDigit(DigitsValue(a), Pow10(|b'|), DigitsValue(b'), c);
    } else {
      assert a + b == a;
    }
  }

  lemma ShiftDigit(x: int, p: int, y: int, c: int)
    ensures (x * p + y) * 10 + c == x * (10 * p) + (y * 10 + c)
  {
  }

  lemma {:induction false} ZerosValue(n: nat)
    ensures DigitsValue(Zeros(n)) == 0
  {
    if n > 0 {
      assert Zeros(n)[..n - 1] == Zeros(n - 1);
      ZerosValue(n - 1);
    }
  }

  lemma {:induction false} NatToStringValue(n: nat)
    ensures AllDigits(NatToString(n)) && DigitsValue(NatToString(n)) == n
  {
    if n >= 10 {
      NatToStringValue(n / 10);
      var s := NatToString(n);
      assert s[..|s| - 1] == NatToString(n / 10);
    }
  }

  lemma PaddedDigitsValue(d: Decimal)
    ensures DigitsValue(PaddedDigits(d)) == if d.units < 0 then -d.units else d.units
  {
    var m := if d.units < 0 then -d.units else d.units;
    var digits := NatToString(m);
    NatToStringValue(m);
    if |digits| < d.scale + 1 {
      var z := Zeros(d.scale + 1 - |digits|);
      assert PaddedDigits(d) == z + digits;
      DigitsValueAppend(z, digits);
      ZerosValue(d.scale + 1 - |digits|);
      assert DigitsValue(z + digits) == 0 * Pow10(|digits|) + m;
    } else {
      assert PaddedDigits(d) == digits;
    }
  }

  lemma DotFree(s: string)
    requires AllDigits(s)
    ensures '.' !in s && '-' !in s
  {
  }

  /** A text `whole.frac` with dot-free sides splits at its point. */
  lemma SplitAtPoint(whole: string, frac: string)
    requires '.' !in whole && '.' !in frac
    ensures Split(whole + "." + frac, '.') == [whole, frac]
  {
    var parts := [whole, frac];
    assert Join(parts, ".") == whole + "." + frac;
    SplitJoin(parts, '.');
  }

  /** `whole.frac` parses to the digits of both sides, scaled by `frac`. */
  lemma ParseUnsignedPoint(whole: string, frac: string)
    requires AllDigits(whole) && AllDigits(frac) && |frac| >= 1
    ensures AllDigits(whole + frac)
    ensures ParseUnsigned(whole + "." + frac) == Some((DigitsValue(whole + frac), |frac|))
  {
    DotFree(whole);
    DotFree(frac);
    SplitAtPoint(whole, frac);
    DigitsValueAppend(whole, frac);
  }

  /** A bare digit string parses to its value at scale zero. */
  lemma ParseUnsignedWhole(whole: string)
    requires AllDigits(whole) && |whole| >= 1
    ensures ParseUnsigned(whole) == Some((DigitsValue(whole), 0))
  {
    DotFree(whole);
    SplitFree(whole, '.');
    assert whole + "" == whole;
  }

  /** A body starting with a digit carries no sign. */
  lemma ParseUnsignedBody(body: string)
    requires |body| > 0 && IsDigit(body[0])
    ensures ParseDecimal(body) == match ParseUnsigned(body)
                                  case None => None
                                  case Some(u) => Some(Decimal(u.0, u.1))
  {
  }

  /** A leading minus negates the body. */
  lemma ParseNegatedBody(body: string)
    requires |body| > 0 && IsDigit(body[0])
    ensures ParseDecimal("-" + body) == match ParseUnsigned(body)
                                        case None => None
                                        case Some(u) => Some(Decimal(-(u.0 as int), u.1))
  {
    assert ("-" + body)[0] == '-' && ("-" + body)[1..] == body;
  }

  /** The rendered body `whole[.frac]` of a decimal parses back to its
      magnitude and scale. */
  lemma ParseRenderedBody(d: Decimal)
    ensures var digits := PaddedDigits(d);
            var body := digits[..|digits| - d.scale] + (if d.scale > 0 then "." + digits[|digits| - d.scale..] else "");
            |body| > 0 && IsDigit(body[0]) &&
            ParseUnsigned(body) == Some((if d.units < 0 then -d.units else d.units, d.scale))
  {
    var digits := PaddedDigits(d);
    var whole := digits[..|digits| - d.scale];
    var frac := digits[|digits| - d.scale..];
    assert whole + frac == digits;
    assert AllDigits(whole) && AllDigits(frac) && |frac| == d.scale && |whole| >= 1;
    PaddedDigitsValue(d);
    assert IsDigit(whole[0]);
    if d.scale > 0 {
      ParseUnsignedPoint(whole, frac);
      assert whole + ("." + frac) == whole + "." + frac;
      assert (whole + "." + frac)[0] == whole[0];
    } else {
      ParseUnsignedWhole(whole);
      assert whole + "" == whole && whole == digits;
    }
  }

  /** Rendering a decimal and parsing the text back gives the same decimal,
      coefficient and scale alike. */
  lemma ParseRendered(d: Decimal)
    ensures ParseDecimal(DecimalToString(d)) == Some(d)
  {
    var digits := PaddedDigits(d);
    var body := digits[..|digits| - d.scale] + (if d.scale > 0 then "." + digits[|digits| - d.scale..] else "");
    ParseRenderedBody(d);
    if d.units < 0 {
      assert DecimalToString(d) == "-" + body;
      ParseNegatedBody(body);
    } else {
      assert DecimalToString(d) == body;
      ParseUnsignedBody(body);
    }
  }
}
