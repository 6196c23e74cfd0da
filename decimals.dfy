/** The finite part of Python's `decimal.Decimal` that the importer relies on: reading a
    number from text, `normalize()` and `format(_, "f")`. A decimal is a sign, a natural
    coefficient and an integer exponent, worth `±coefficient × 10^exponent`. */
module Decimals {
  import opened Base
  import opened Text

  datatype Decimal = Decimal(negative: bool, coefficient: nat, exponent: int)

  function Pow10(k: nat): (p: nat)
    ensures p >= 1
  {
    if k == 0 then 1 else 10 * Pow10(k - 1)
  }

  lemma {:induction false} Pow10Add(a: nat, b: nat)
    ensures Pow10(a + b) == Pow10(a) * Pow10(b)
  {
    if a > 0 {
      Pow10Add(a - 1, b);
    }
  }

  /** Two decimals denote the same number with the same sign (so `-0` and `0` differ, as
      they do for `Decimal`): the coefficient written with the lower exponent is the other
      one scaled by ten to the difference. */
  predicate SameValue(x: Decimal, y: Decimal) {
    x.negative == y.negative
    && if x.exponent <= y.exponent
       then x.coefficient == y.coefficient * Pow10(y.exponent - x.exponent)
       else y.coefficient == x.coefficient * Pow10(x.exponent - y.exponent)
  }

  // ---------------------------------------------------------------- normalize()

  /** A decimal in the form `normalize()` gives: no trailing zero in the coefficient, and
      zero written with exponent 0. */
  predicate IsNormal(d: Decimal) {
    if d.coefficient == 0 then d.exponent == 0 else d.coefficient % 10 != 0
  }

  /** `Decimal.normalize()`: trailing zeros of the coefficient are moved to the exponent.
      The result is normal, keeps the sign, and denotes the same number. */
  function Normalize(d: Decimal): (r: Decimal)
    ensures IsNormal(r) && r.negative == d.negative
    ensures d.coefficient == 0 ==> r.coefficient == 0
    ensures d.coefficient != 0 ==>
      r.exponent >= d.exponent && d.coefficient == r.coefficient * Pow10(r.exponent - d.exponent)
    decreases d.coefficient
  {
    if d.coefficient == 0 then Decimal(d.negative, 0, 0)
    else if d.coefficient % 10 != 0 then d
    else
      var r := Normalize(Decimal(d.negative, d.coefficient / 10, d.exponent + 1));
      assert Pow10(r.exponent - d.exponent) == 10 * Pow10(r.exponent - d.exponent - 1);
      r
  }

  /** Scaling the coefficient by a power of ten and lowering the exponent to match does
      not change the normal form. */
  lemma {:induction false} NormalizeScale(negative: bool, c: nat, e: int, k: nat)
    ensures Normalize(Decimal(negative, c * Pow10(k), e - k)) == Normalize(Decimal(negative, c, e))
  {
    if k > 0 && c > 0 {
      var scaled := c * Pow10(k);
      var smaller := c * Pow10(k - 1);
      assert scaled == smaller * 10;
      assert scaled % 10 == 0 && scaled / 10 == smaller;
      assert Normalize(Decimal(negative, scaled, e - k)) == Normalize(Decimal(negative, smaller, e - (k - 1)));
      NormalizeScale(negative, c, e, k - 1);
    }
  }

  /** Equal numbers normalise to the same decimal. */
  lemma NormalizeCanonical(x: Decimal, y: Decimal)
    requires SameValue(x, y)
    ensures Normalize(x) == Normalize(y)
  {
    if x.exponent <= y.exponent {
      NormalizeLower(x, y);
    } else {
      NormalizeLower(y, x);
    }
  }

  /** The case of `NormalizeCanonical` where `x` has the lower exponent: `x` is `y` scaled. */
  lemma NormalizeLower(x: Decimal, y: Decimal)
    requires x.exponent <= y.exponent && x.negative == y.negative
    requires x.coefficient == y.coefficient * Pow10(y.exponent - x.exponent)
    ensures Normalize(x) == Normalize(y)
  {
    var k := y.exponent - x.exponent;
    assert x == Decimal(y.negative, y.coefficient * Pow10(k), y.exponent - k);
    NormalizeScale(y.negative, y.coefficient, y.exponent, k);
  }

  /** Normal forms are canonical: two normal decimals with the same value are equal. */
  lemma NormalCanonical(x: Decimal, y: Decimal)
    requires IsNormal(x) && IsNormal(y) && SameValue(x, y)
    ensures x == y
  {
    NormalizeCanonical(x, y);
    NormalOfNormal(x);
    NormalOfNormal(y);
  }

  lemma NormalOfNormal(d: Decimal)
    requires IsNormal(d)
    ensures Normalize(d) == d
  {
  }

  // ---------------------------------------------------------------- format(_, "f")

  function Zeros(n: nat): (s: string)
    ensures |s| == n && forall i :: 0 <= i < n ==> s[i] == '0'
  {
    seq(n, i => '0')
  }

  /** `format(d, "f")`: the digits of the coefficient with the point placed by the
      exponent, zero-padded on either side, and a `-` for a negative sign. */
  function FormatFixed(d: Decimal): string {
    (if d.negative then "-" else "") + FixedBody(d)
  }

  /** The unsigned part of `format(d, "f")`. */
  function FixedBody(d: Decimal): string {
    var digits := NatToString(d.coefficient);
    if d.exponent >= 0 then digits + Zeros(d.exponent)
    else if |digits| > -d.exponent then digits[..|digits| + d.exponent] + "." + digits[|digits| + d.exponent..]
    else "0." + Zeros(-d.exponent - |digits|) + digits
  }

  /** `s.rstrip(c)`. */
  function RStrip(s: string, c: char): (r: string)
    ensures |r| <= |s| && r == s[..|r|]
    ensures r == [] || r[|r| - 1] != c
  {
    if s == [] || s[|s| - 1] != c then s else RStrip(s[..|s| - 1], c)
  }

  predicate HasPoint(s: string) { '.' in s }

  /** `_decimal_to_string`: `format(value.normalize(), "f")`, then trailing zeros and a
      trailing point removed when the text has a point. */
  function DecimalToString(d: Decimal): string {
    var formatted := FormatFixed(Normalize(d));
    if HasPoint(formatted) then RStrip(RStrip(formatted, '0'), '.') else formatted
  }

  /** The text depends only on the number: `1` and `1.000` give the same string. */
  lemma DecimalToStringCanonical(x: Decimal, y: Decimal)
    requires SameValue(x, y)
    ensures DecimalToString(x) == DecimalToString(y)
  {
    NormalizeCanonical(x, y);
  }

  lemma RStripNoOp(s: string, c: char)
    requires s != [] && s[|s| - 1] != c
    ensures RStrip(s, c) == s
  {
  }

  /** A whole number is written without a point. */
  lemma WholeHasNoPoint(d: Decimal)
    requires d.exponent >= 0
    ensures !HasPoint(FormatFixed(d))
  {
    var digits := NatToString(d.coefficient);
    var body := digits + Zeros(d.exponent);
    var f := (if d.negative then "-" else "") + body;
    assert FormatFixed(d) == f;
    forall i | 0 <= i < |f|
      ensures f[i] != '.'
    {
      if d.negative && i == 0 {
      } else {
        var j := if d.negative then i - 1 else i;
        assert f[i] == body[j];
        if j < |digits| {
          assert IsDigit(digits[j]);
        }
      }
    }
  }

  /** A number with a fraction is written ending in the last digit of its coefficient. */
  lemma FractionEndsInLastDigit(d: Decimal)
    requires d.exponent < 0
    ensures var f := FormatFixed(d); var digits := NatToString(d.coefficient);
      |f| > 0 && f[|f| - 1] == digits[|digits| - 1]
  {
  }

  lemma NatToStringLast(n: nat)
    ensures NatToString(n)[|NatToString(n)| - 1] == DigitChar(n % 10)
  {
  }

  /** On a normal decimal the stripping step removes nothing, since a fraction already ends
      in a non-zero digit: the text is exactly `format(value.normalize(), "f")`. */
  lemma DecimalToStringIsFormat(d: Decimal)
    ensures DecimalToString(d) == FormatFixed(Normalize(d))
  {
    var n := Normalize(d);
    var f := FormatFixed(n);
    if n.exponent >= 0 {
      WholeHasNoPoint(n);
    } else {
      FractionEndsInLastDigit(n);
      NatToStringLast(n.coefficient);
      assert f[|f| - 1] != '0';
      RStripNoOp(f, '0');
      RStripNoOp(f, '.');
    }
  }

  // ---------------------------------------------------------------- Decimal(text)

  function DigitValue(c: char): nat
    requires IsDigit(c)
  {
    c as int - '0' as int
  }

  /** The number a string of digits denotes. */
  function DigitsValue(s: string): nat
    requires AllDigits(s)
  {
    if s == [] then 0 else 10 * DigitsValue(s[..|s| - 1]) + DigitValue(s[|s| - 1])
  }

  datatype DecimalError = InvalidDecimal

  /** The index of the exponent marker `e`/`E`, if any. */
  function ExponentMarker(s: string): (r: Option<nat>)
    ensures r.Some? ==> r.value < |s| && (s[r.value] == 'e' || s[r.value] == 'E')
    ensures r.Some? ==> forall j :: 0 <= j < r.value ==> s[j] != 'e' && s[j] != 'E'
    ensures r.None? ==> forall j :: 0 <= j < |s| ==> s[j] != 'e' && s[j] != 'E'
  {
    if s == [] then None
    else if s[0] == 'e' || s[0] == 'E' then Some(0)
    else
      var r := ExponentMarker(s[1..]);
      if r.Some? then Some(r.value + 1) else None
  }

  /** The index of the first `.`, if any. */
  function PointIndex(s: string): (r: Option<nat>)
    ensures r.Some? ==> r.value < |s| && s[r.value] == '.'
    ensures r.Some? ==> forall j :: 0 <= j < r.value ==> s[j] != '.'
    ensures r.None? ==> forall j :: 0 <= j < |s| ==> s[j] != '.'
  {
    if s == [] then None
    else if s[0] == '.' then Some(0)
    else
      var r := PointIndex(s[1..]);
      if r.Some? then Some(r.value + 1) else None
  }

  /** An optionally signed run of digits, as the exponent part is written. */
  function ParseExponent(s: string): (r: Result<int, DecimalError>) {
    var negative := |s| > 0 && s[0] == '-';
    var digits := if |s| > 0 && (s[0] == '-' || s[0] == '+') then s[1..] else s;
    if digits == [] || !AllDigits(digits) then Err(InvalidDecimal)
    else Ok(if negative then -(DigitsValue(digits) as int) else DigitsValue(digits))
  }

  /** `Decimal(text)` for finite numbers written `[sign] digits [. digits] [e [sign] digits]`
      with at least one digit before or after the point. */
  function ParseDecimal(text: string): (r: Result<Decimal, DecimalError>) {
    var negative := |text| > 0 && text[0] == '-';
    var unsigned := if |text| > 0 && (text[0] == '-' || text[0] == '+') then text[1..] else text;
    ParseUnsigned(negative, unsigned)
  }

  /** The number after its sign. */
  function ParseUnsigned(negative: bool, s: string): (r: Result<Decimal, DecimalError>) {
    var marker := ExponentMarker(s);
    var mantissa := if marker.Some? then s[..marker.value] else s;
    var exponent := if marker.Some? then ParseExponent(s[marker.value + 1..]) else Ok(0);
    var point := PointIndex(mantissa);
    var intPart := if point.Some? then mantissa[..point.value] else mantissa;
    var fracPart := if point.Some? then mantissa[point.value + 1..] else "";
    if exponent.Err? || |intPart| + |fracPart| == 0 || !AllDigits(intPart) || !AllDigits(fracPart) then Err(InvalidDecimal)
    else Ok(Decimal(negative, DigitsValue(intPart + fracPart), exponent.value - |fracPart|))
  }

  // ---------------------------------------------------------------- parse after format

  lemma AllDigitsConcat(a: string, b: string)
    requires AllDigits(a) && AllDigits(b)
    ensures AllDigits(a + b)
  {
    forall i | 0 <= i < |a + b| ensures IsDigit((a + b)[i]) {
      if i >= |a| { assert (a + b)[i] == b[i - |a|]; }
    }
  }

  lemma {:induction false} DigitsValueConcat(a: string, b: string)
    requires AllDigits(a) && AllDigits(b)
    ensures AllDigits(a + b)
    ensures DigitsValue(a + b) == DigitsValue(a) * Pow10(|b|) + DigitsValue(b)
    decreases |b|
  {
    AllDigitsConcat(a, b);
    if b == [] {
      assert a + b == a;
    } else {
      var b' := b[..|b| - 1];
      assert (a + b)[..|a + b| - 1] == a + b';
      assert (a + b)[|a + b| - 1] == b[|b| - 1];
      DigitsValueConcat(a, b');
      var last := DigitValue(b[|b| - 1]);
      var va := DigitsValue(a);
      var vb' := DigitsValue(b');
      var p := Pow10(|b'|);
      assert DigitsValue(a + b) == 10 * DigitsValue(a + b') + last;
      assert DigitsValue(a + b') == va * p + vb';
      assert DigitsValue(b) == 10 * vb' + last;
      assert Pow10(|b|) == 10 * p;
      MulTen(va, p);
    }
  }

  lemma MulTen(x: nat, y: nat)
    ensures 10 * (x * y) == x * (10 * y)
  {
  }

  lemma {:induction false} DigitsValueOfNat(n: nat)
    ensures DigitsValue(NatToString(n)) == n
  {
    var s := NatToString(n);
    if n < 10 {
      assert s[..0] == [];
    } else {
      assert s[..|s| - 1] == NatToString(n / 10);
      DigitsValueOfNat(n / 10);
    }
  }

  lemma {:induction false} DigitsValueOfZeros(m: nat)
    ensures AllDigits(Zeros(m)) && DigitsValue(Zeros(m)) == 0
  {
    if m > 0 {
      assert Zeros(m)[..m - 1] == Zeros(m - 1);
      DigitsValueOfZeros(m - 1);
    }
  }

  predicate NoMarker(s: string) {
    forall j :: 0 <= j < |s| ==> s[j] != 'e' && s[j] != 'E'
  }

  lemma DigitsNoMarker(s: string)
    requires AllDigits(s)
    ensures NoMarker(s) && forall j :: 0 <= j < |s| ==> s[j] != '.'
  {
    forall j | 0 <= j < |s| ensures s[j] != 'e' && s[j] != 'E' && s[j] != '.' {
      assert IsDigit(s[j]);
    }
  }

  /** Digits with no point and no exponent read back as their value. */
  lemma ParseDigits(negative: bool, digits: string)
    requires |digits| > 0 && AllDigits(digits)
    ensures ParseUnsigned(negative, digits) == Ok(Decimal(negative, DigitsValue(digits), 0))
  {
    DigitsNoMarker(digits);
    assert ExponentMarker(digits) == None;
    assert PointIndex(digits) == None;
    assert digits + "" == digits;
  }

  /** Digits, a point and more digits read back as the value of all the digits, with the
      exponent minus the number of digits after the point. */
  lemma ParsePointed(negative: bool, intPart: string, fracPart: string)
    requires AllDigits(intPart) && AllDigits(fracPart) && |intPart| + |fracPart| > 0
    ensures ParseUnsigned(negative, intPart + "." + fracPart)
      == Ok(Decimal(negative, DigitsValue(intPart + fracPart), -|fracPart|))
  {
    var body := intPart + "." + fracPart;
    var k := |intPart|;
    DigitsNoMarker(intPart);
    DigitsNoMarker(fracPart);
    assert NoMarker(body) by {
      forall j | 0 <= j < |body| ensures body[j] != 'e' && body[j] != 'E' {
        if j < k { assert body[j] == intPart[j]; }
        else if j > k { assert body[j] == fracPart[j - k - 1]; }
      }
    }
    assert ExponentMarker(body) == None;
    assert body[k] == '.';
    assert forall j :: 0 <= j < k ==> body[j] == intPart[j];
    assert PointIndex(body) == Some(k);
    assert body[..k] == intPart && body[k + 1..] == fracPart;
  }

  /** A whole number reads back as its coefficient scaled to exponent zero. */
  lemma ParseWhole(n: Decimal)
    requires n.exponent >= 0
    ensures var digits := NatToString(n.coefficient);
      ParseUnsigned(n.negative, digits + Zeros(n.exponent))
        == Ok(Decimal(n.negative, n.coefficient * Pow10(n.exponent), 0))
  {
    var digits := NatToString(n.coefficient);
    DigitsValueOfZeros(n.exponent);
    DigitsValueConcat(digits, Zeros(n.exponent));
    DigitsValueOfNat(n.coefficient);
    ParseDigits(n.negative, digits + Zeros(n.exponent));
  }

  /** A number with the point inside its digits reads back exactly. */
  lemma ParseInner(n: Decimal)
    requires n.exponent < 0 && |NatToString(n.coefficient)| > -n.exponent
    ensures var digits := NatToString(n.coefficient); var k := |digits| + n.exponent;
      ParseUnsigned(n.negative, digits[..k] + "." + digits[k..]) == Ok(n)
  {
    var digits := NatToString(n.coefficient);
    var k := |digits| + n.exponent;
    assert digits[..k] + digits[k..] == digits;
    DigitsValueOfNat(n.coefficient);
    ParsePointed(n.negative, digits[..k], digits[k..]);
  }

  /** Zeros written before digits add nothing to their value. */
  lemma LeadingZeros(m: nat, digits: string)
    requires AllDigits(digits)
    ensures AllDigits(Zeros(m) + digits)
    ensures DigitsValue("0" + (Zeros(m) + digits)) == DigitsValue(digits)
  {
    assert "0" + (Zeros(m) + digits) == Zeros(m + 1) + digits;
    DigitsValueOfZeros(m);
    DigitsValueOfZeros(m + 1);
    AllDigitsConcat(Zeros(m), digits);
    DigitsValueConcat(Zeros(m + 1), digits);
  }

  /** The digits of a number below one, after `0.` and its leading zeros. */
  lemma SmallValue(n: Decimal)
    requires n.exponent < 0 && |NatToString(n.coefficient)| <= -n.exponent
    ensures var digits := NatToString(n.coefficient); var m := -n.exponent - |digits|;
      AllDigits(Zeros(m) + digits) && DigitsValue("0" + (Zeros(m) + digits)) == n.coefficient
  {
    var digits := NatToString(n.coefficient);
    DigitsValueOfNat(n.coefficient);
    LeadingZeros(-n.exponent - |digits|, digits);
  }

  lemma SmallText(m: nat, digits: string)
    ensures "0." + Zeros(m) + digits == "0" + "." + (Zeros(m) + digits)
  {
  }

  /** `ParsePointed` with a leading `0`, for any text equal to it. */
  lemma ParseLeadingZero(negative: bool, frac: string, s: string, c: nat, e: int)
    requires AllDigits(frac) && s == "0" + "." + frac && DigitsValue("0" + frac) == c && e == -|frac|
    ensures ParseUnsigned(negative, s) == Ok(Decimal(negative, c, e))
  {
    ParsePointed(negative, "0", frac);
  }

  /** A number below one reads back exactly, the leading zeros adding nothing. */
  lemma ParseSmall(n: Decimal)
    requires n.exponent < 0 && |NatToString(n.coefficient)| <= -n.exponent
    ensures ParseUnsigned(n.negative, FixedBody(n)) == Ok(n)
  {
    var digits := NatToString(n.coefficient);
    var m := -n.exponent - |digits|;
    assert FixedBody(n) == "0." + Zeros(m) + digits;
    SmallValue(n);
    SmallText(m, digits);
    ParseLeadingZero(n.negative, Zeros(m) + digits, FixedBody(n), n.coefficient, n.exponent);
  }

  /** The text starts with a digit once its sign is read. */
  lemma ParseSign(d: Decimal)
    ensures ParseDecimal(FormatFixed(d)) == ParseUnsigned(d.negative, FixedBody(d))
  {
    var body := FixedBody(d);
    var digits := NatToString(d.coefficient);
    assert IsDigit(body[0]) by {
      if d.exponent >= 0 || |digits| > -d.exponent {
        assert body[0] == digits[0];
      }
    }
    if d.negative {
      assert FormatFixed(d)[1..] == body;
    } else {
      assert FormatFixed(d) == body;
    }
  }

  /** A normal whole number: the text reads back to the coefficient scaled to exponent
      zero, which normalises back to it. */
  lemma BodyWhole(n: Decimal)
    requires IsNormal(n) && n.exponent >= 0
    ensures ParseUnsigned(n.negative, FixedBody(n)) == Ok(Decimal(n.negative, n.coefficient * Pow10(n.exponent), 0))
    ensures Normalize(Decimal(n.negative, n.coefficient * Pow10(n.exponent), 0)) == n
  {
    assert FixedBody(n) == NatToString(n.coefficient) + Zeros(n.exponent);
    ParseWhole(n);
    NormalOfNormal(n);
    NormalizeScale(n.negative, n.coefficient, n.exponent, n.exponent);
    assert n.exponent - n.exponent == 0;
  }

  /** A fraction reads back exactly. */
  lemma BodyFraction(n: Decimal)
    requires n.exponent < 0
    ensures ParseUnsigned(n.negative, FixedBody(n)) == Ok(n)
  {
    if |NatToString(n.coefficient)| > -n.exponent {
      BodyInner(n);
    } else {
      ParseSmall(n);
    }
  }

  lemma BodyInner(n: Decimal)
    requires n.exponent < 0 && |NatToString(n.coefficient)| > -n.exponent
    ensures ParseUnsigned(n.negative, FixedBody(n)) == Ok(n)
  {
    ParseInner(n);
  }

  /** The unsigned text of a normal decimal reads back to a decimal that normalises to it. */
  lemma ParseBody(n: Decimal)
    requires IsNormal(n)
    ensures ParseUnsigned(n.negative, FixedBody(n)).Ok?
    ensures Normalize(ParseUnsigned(n.negative, FixedBody(n)).value) == n
  {
    if n.exponent >= 0 {
      BodyWhole(n);
    } else {
      BodyFraction(n);
      NormalOfNormal(n);
    }
  }

  /** Reading the text back gives a decimal with the same normal form: the text loses
      nothing but trailing zeros. */
  lemma DecimalToStringRoundTrip(d: Decimal)
    ensures ParseDecimal(DecimalToString(d)).Ok?
    ensures Normalize(ParseDecimal(DecimalToString(d)).value) == Normalize(d)
  {
    var n := Normalize(d);
    DecimalToStringIsFormat(d);
    ParseSign(n);
    ParseBody(n);
  }

  lemma DigitsValue1000()
    ensures DigitsValue("1000") == 1000
  {
    assert "1000"[..3] == "100" && "100"[..2] == "10" && "10"[..1] == "1";
  }

  /** `Decimal("1.000")` keeps the written exponent. */
  lemma ParseFraction()
    ensures ParseDecimal("1.000") == Ok(Decimal(false, 1000, -3))
  {
    assert "1.000" == "1" + "." + "000";
    assert "1" + "000" == "1000";
    ParsePointed(false, "1", "000");
    DigitsValue1000();
  }

  lemma ParseNegative()
    ensures ParseDecimal("-2") == Ok(Decimal(true, 2, 0))
  {
    assert "-2"[1..] == "2";
    ParseDigits(true, "2");
    assert "2"[..0] == "";
    assert DigitsValue("2") == 2;
  }

  /** Text that is not a number, an empty string and a lone point are rejected. */
  lemma ParseRejectsText()
    ensures ParseDecimal("abc").Err? && ParseDecimal("").Err? && ParseDecimal(".").Err?
  {
    assert NoMarker("abc");
    assert ExponentMarker("abc") == None;
    assert forall j :: 0 <= j < 3 ==> "abc"[j] != '.';
    assert PointIndex("abc") == None;
    assert !IsDigit("abc"[0]);
    assert NoMarker(".");
    assert ExponentMarker(".") == None;
    assert PointIndex(".") == Some(0);
  }

  /** `1.000` gives the text `1`. */
  lemma ToStringOfFraction()
    ensures DecimalToString(Decimal(false, 1000, -3)) == "1"
  {
    assert Normalize(Decimal(false, 1000, -3)) == Decimal(false, 1, 0);
    assert NatToString(1) == "1";
    DecimalToStringIsFormat(Decimal(false, 1000, -3));
  }

  /** A whole number keeps its zeros: `100` and `1E+2` are both `100`. */
  lemma ToStringOfHundred()
    ensures DecimalToString(Decimal(false, 100, 0)) == "100"
    ensures DecimalToString(Decimal(false, 1, 2)) == "100"
  {
    assert Normalize(Decimal(false, 100, 0)) == Decimal(false, 1, 2);
    assert NatToString(1) == "1";
    assert FormatFixed(Decimal(false, 1, 2)) == "1" + "00";
    DecimalToStringIsFormat(Decimal(false, 100, 0));
    DecimalToStringIsFormat(Decimal(false, 1, 2));
  }

  /** A fraction loses its trailing zeros: `0.50` is `0.5`. */
  lemma ToStringOfHalf()
    ensures DecimalToString(Decimal(false, 50, -2)) == "0.5"
  {
    assert Normalize(Decimal(false, 50, -2)) == Decimal(false, 5, -1);
    assert NatToString(5) == "5";
    assert FormatFixed(Decimal(false, 5, -1)) == "0." + "" + "5";
    DecimalToStringIsFormat(Decimal(false, 50, -2));
  }
}
