/**
 * The scientific-notation normaliser of `src/opensearch/helper.py`: `plain_float`,
 * `_convert_value` and `normalize_scientific_notation`.
 *
 * A float is rendered through Python's `Decimal`: normalised (trailing zeros of the
 * coefficient stripped), formatted in fixed-point notation, trimmed, and turned into an
 * `int` when no fractional part is left, or back into a float otherwise.
 */
module Normalizer {
  import opened Wrappers
  import opened JsonValues

  /* ---------- digit strings ---------- */

  function Pow10(k: nat): (r: nat)
    ensures r >= 1
  {
    if k == 0 then 1 else 10 * Pow10(k - 1)
  }

  function Zeros(n: nat): (r: string)
    ensures |r| == n && AllDigits(r)
    ensures forall i :: 0 <= i < n ==> r[i] == '0'
  {
    if n == 0 then "" else Zeros(n - 1) + "0"
  }

  function DigitValue(c: char): nat
    requires IsDigit(c)
  {
    (c as int) - ('0' as int)
  }

  /** The natural number a string of decimal digits denotes. */
  function DigitsValue(s: string): nat
    requires AllDigits(s)
  {
    if s == "" then 0 else 10 * DigitsValue(s[..|s| - 1]) + DigitValue(s[|s| - 1])
  }

  lemma {:induction false} DigitsValueAppend(a: string, b: string)
    requires AllDigits(a) && AllDigits(b)
    ensures AllDigits(a + b)
    ensures DigitsValue(a + b) == DigitsValue(a) * Pow10(|b|) + DigitsValue(b)
    decreases |b|
  {
    assert AllDigits(a + b);
    if b != "" {
      var b' := b[..|b| - 1];
      var last := DigitValue(b[|b| - 1]);
      assert (a + b)[..|a + b| - 1] == a + b';
      assert (a + b)[|a + b| - 1] == b[|b| - 1];
      DigitsValueAppend(a, b');
      var x, p, y := DigitsValue(a), Pow10(|b'|), DigitsValue(b');
      assert DigitsValue(a + b) == 10 * (x * p + y) + last;
      assert DigitsValue(b) == 10 * y + last;
      assert Pow10(|b|) == 10 * p;
      ShiftDigit(x, p, y, last);
    } else {
      assert a + b == a;
    }
  }

  lemma ShiftDigit(x: int, p: int, y: int, last: int)
    ensures 10 * (x * p + y) + last == x * (10 * p) + (10 * y + last)
  {
  }

  lemma Associate(x: int, y: int, z: int)
    ensures x * (y * z) == (x * y) * z
  {
  }

  lemma {:induction false} ZerosValue(n: nat)
    ensures DigitsValue(Zeros(n)) == 0
  {
    if n > 0 {
      assert Zeros(n)[..n - 1] == Zeros(n - 1);
      ZerosValue(n - 1);
    }
  }

  /** A coefficient denotes zero exactly when it is "0". */
  lemma CoefficientZero(c: Coefficient)
    ensures DigitsValue(c) == 0 <==> c == "0"
  {
    if c != "0" {
      assert c[0] != '0';
      LeadingDigitPositive(c);
    }
  }

  lemma {:induction false} LeadingDigitPositive(s: string)
    requires AllDigits(s) && s != "" && s[0] != '0'
    ensures DigitsValue(s) > 0
    decreases |s|
  {
    if |s| > 1 {
      LeadingDigitPositive(s[..|s| - 1]);
    }
  }

  /* ---------- Decimal.normalize() ---------- */

  predicate IsNormalized(d: Decimal) {
    if d.coeff == "0" then d.exp == 0 else d.coeff[|d.coeff| - 1] != '0'
  }

  /**
   * `Decimal.normalize()`: strips the coefficient's trailing zeros, raising the exponent
   * by one for each; zero (of either sign) becomes 0E0 and keeps its sign.
   */
  function Normalize(d: Decimal): (n: Decimal)
    ensures IsNormalized(n) && n.negative == d.negative
    decreases |d.coeff|
  {
    var c := d.coeff;
    if c == "0" then Decimal(d.negative, "0", 0)
    else if c[|c| - 1] == '0' then
      assert |c| >= 2 && c[0] != '0';
      Normalize(Decimal(d.negative, c[..|c| - 1], d.exp + 1))
    else d
  }

  /** Normalisation keeps the numeric value: the coefficient only loses factors of ten. */
  lemma {:induction false} NormalizeKeepsValue(d: Decimal)
    ensures var n := Normalize(d);
      if d.coeff == "0" then n == Decimal(d.negative, "0", 0)
      else n.exp >= d.exp && DigitsValue(d.coeff) == DigitsValue(n.coeff) * Pow10(n.exp - d.exp)
    decreases |d.coeff|
  {
    var c := d.coeff;
    if c != "0" && c[|c| - 1] == '0' {
      var c' := c[..|c| - 1];
      assert c == c' + "0";
      var d' := Decimal(d.negative, c', d.exp + 1);
      NormalizeKeepsValue(d');
      DigitsValueAppend(c', "0");
      assert DigitsValue("0") == 0;
      var n := Normalize(d');
      var x, p := DigitsValue(n.coeff), Pow10(n.exp - d'.exp);
      assert DigitsValue(c) == DigitsValue(c') * 10;
      assert Pow10(n.exp - d.exp) == p * 10;
      Associate(x, p, 10);
    }
  }

  lemma NormalizeFixedPoint(d: Decimal)
    requires IsNormalized(d)
    ensures Normalize(d) == d
  {
  }

  /* ---------- format(d, "f") ---------- */

  /** The integer with magnitude `m` and the given sign. */
  function Signed(negative: bool, m: int): int {
    if negative then -m else m
  }

  function Sign(negative: bool): string {
    if negative then "-" else ""
  }

  /** The digits left of the point when it sits `dot` digits from the left of `c`. */
  function IntDigits(c: string, dot: int): string {
    if dot < 0 then "0"
    else if dot > |c| then c + Zeros(dot - |c|)
    else if dot == 0 then "0" else c[..dot]
  }

  /** The digits right of the point when it sits `dot` digits from the left of `c`. */
  function FracDigits(c: string, dot: int): string {
    if dot < 0 then Zeros(-dot) + c
    else if dot > |c| then ""
    else c[dot..]
  }

  /**
   * Python's `format(d, "f")` for a `Decimal` without a precision: the digits placed around
   * the decimal point `exp + len(coeff)` digits from the left, padded with zeros, and no
   * point at all when there is no fractional digit. Zero with a positive exponent is first
   * rescaled to exponent 0.
   */
  function FormatFixed(d: Decimal): string {
    var c := d.coeff;
    var exp := if c == "0" && d.exp > 0 then 0 else d.exp;
    var dot := exp + |c|;
    var frac := FracDigits(c, dot);
    Sign(d.negative) + IntDigits(c, dot) + (if frac != "" then "." + frac else "")
  }

  lemma FormatWhole(d: Decimal)
    requires IsNormalized(d) && d.exp >= 0
    ensures FormatFixed(d) == Sign(d.negative) + d.coeff + Zeros(d.exp)
  {
    var c := d.coeff;
    if d.exp == 0 {
      assert c[..|c|] == c && c[|c|..] == "";
    }
  }

  lemma FormatPoint(d: Decimal)
    requires IsNormalized(d) && d.exp < 0
    ensures var dot := d.exp + |d.coeff|;
      FracDigits(d.coeff, dot) != "" &&
      FormatFixed(d) == Sign(d.negative) + IntDigits(d.coeff, dot) + "." + FracDigits(d.coeff, dot)
  {
  }

  /* ---------- the trimming in plain_float ---------- */

  /** `s.rstrip(c)` for a single character. */
  function RStrip(s: string, c: char): (r: string)
    ensures |r| <= |s| && r == s[..|r|]
    ensures r == "" || r[|r| - 1] != c
    ensures forall i :: |r| <= i < |s| ==> s[i] == c
  {
    if s != "" && s[|s| - 1] == c then RStrip(s[..|s| - 1], c) else s
  }

  /**
   * Lines 454-457 of plain_float: strip trailing zeros and then a trailing point when
   * the string has a point, and turn "" or "-" into "0".
   */
  function TrimFixed(s: string): (r: string)
    ensures r != "" && r != "-"
    ensures r[|r| - 1] != '.'
    ensures '.' !in s ==> r == s || r == "0"
  {
    var t := if '.' in s then RStrip(RStrip(s, '0'), '.') else s;
    if t == "" || t == "-" then "0" else t
  }

  /** The text plain_float builds for a finite float before converting it back to a number. */
  function PlainText(d: Decimal): string {
    TrimFixed(FormatFixed(Normalize(d)))
  }

  lemma DigitsHaveNoPoint(s: string)
    requires AllDigits(s)
    ensures '.' !in s
  {
  }

  /** A whole number's text is left as it is by the trimming. */
  lemma TrimWhole(neg: bool, digits: string)
    requires AllDigits(digits) && digits != ""
    ensures TrimFixed(Sign(neg) + digits) == Sign(neg) + digits
    ensures '.' !in Sign(neg) + digits
  {
    DigitsHaveNoPoint(digits);
    assert '.' !in Sign(neg);
  }

  /** A text with a point whose last digit is not zero is left as it is by the trimming. */
  lemma TrimPoint(s: string)
    requires '.' in s && s[|s| - 1] != '0' && s[|s| - 1] != '.' && s != "-"
    ensures TrimFixed(s) == s
  {
    assert RStrip(s, '0') == s;
    assert RStrip(s, '.') == s;
  }

  /** The text of a normalised whole decimal: its digits followed by `exp` zeros, without a point. */
  lemma PlainTextWhole(d: Decimal)
    requires IsNormalized(d) && d.exp >= 0
    ensures TrimFixed(FormatFixed(d)) == Sign(d.negative) + d.coeff + Zeros(d.exp)
  {
    FormatWhole(d);
    assert Sign(d.negative) + d.coeff + Zeros(d.exp) == Sign(d.negative) + (d.coeff + Zeros(d.exp));
    TrimWhole(d.negative, d.coeff + Zeros(d.exp));
  }

  /** The text of a normalised decimal with a negative exponent: its digits around the point, kept whole by the trimming. */
  lemma PlainTextPoint(d: Decimal)
    requires IsNormalized(d) && d.exp < 0
    ensures var dot := d.exp + |d.coeff|;
      TrimFixed(FormatFixed(d)) == Sign(d.negative) + IntDigits(d.coeff, dot) + "." + FracDigits(d.coeff, dot)
  {
    var c := d.coeff;
    var dot := d.exp + |c|;
    var front := Sign(d.negative) + IntDigits(c, dot);
    var f := FracDigits(c, dot);
    var s := front + "." + f;
    assert FormatFixed(d) == s by { FormatPoint(d); }
    assert '.' in s && s[|s| - 1] != '0' && s[|s| - 1] != '.' && s != "-" by {
      assert s[|front|] == '.';
      FracDigitsEnd(c, dot);
      assert s[|s| - 1] == f[|f| - 1];
    }
    TrimPoint(s);
  }

  lemma FracDigitsEnd(c: string, dot: int)
    requires c != "" && dot <= |c| - 1
    ensures var f := FracDigits(c, dot); f != "" && f[|f| - 1] == c[|c| - 1]
  {
  }

  /** plain_float's text has no trailing fractional zero, no trailing point, and is never "" or "-". */
  lemma PlainTextShape(d: Decimal)
    ensures PlainText(d) != "" && PlainText(d) != "-"
    ensures PlainText(d)[|PlainText(d)| - 1] != '.'
    ensures '.' in PlainText(d) ==> PlainText(d)[|PlainText(d)| - 1] != '0'
    ensures '.' in PlainText(d) <==> Normalize(d).exp < 0
  {
    var n := Normalize(d);
    var s := TrimFixed(FormatFixed(n));
    assert PlainText(d) == s;
    if n.exp >= 0 {
      WholeTextShape(n);
    } else {
      PointTextShape(n);
    }
  }

  lemma WholeTextShape(n: Decimal)
    requires IsNormalized(n) && n.exp >= 0
    ensures '.' !in TrimFixed(FormatFixed(n))
  {
    var digits := WholeDigits(n);
    WholeDigitsText(n);
    TrimWhole(n.negative, digits);
  }

  lemma PointTextShape(n: Decimal)
    requires IsNormalized(n) && n.exp < 0
    ensures var s := TrimFixed(FormatFixed(n)); '.' in s && s[|s| - 1] != '0'
  {
    var c := n.coeff;
    PlainTextPoint(n);
    var dot := n.exp + |c|;
    var i, f := IntDigits(c, dot), FracDigits(c, dot);
    var s := TrimFixed(FormatFixed(n));
    assert s == Sign(n.negative) + i + "." + f;
    assert s[|Sign(n.negative) + i|] == '.';
    FracDigitsEnd(c, dot);
    assert s[|s| - 1] == f[|f| - 1];
  }

  /* ---------- int(s) and float(s) ---------- */

  function Unsigned(s: string): string {
    if s != "" && s[0] == '-' then s[1..] else s
  }

  /** A text `int(s)` accepts among those plain_float produces: an optional minus and digits. */
  predicate IsIntText(s: string) {
    Unsigned(s) != "" && AllDigits(Unsigned(s))
  }

  /** `int(s)`. */
  function ParseInt(s: string): int
    requires IsIntText(s)
  {
    if s[0] == '-' then -(DigitsValue(s[1..]) as int) else DigitsValue(s)
  }

  function IndexOf(s: string, c: char): (i: nat)
    ensures i <= |s| && c !in s[..i]
    ensures i < |s| ==> s[i] == c
    ensures c in s <==> i < |s|
  {
    if s == "" then 0 else if s[0] == c then 0 else 1 + IndexOf(s[1..], c)
  }

  /** A text with an optional minus, digits, one point and digits. */
  predicate IsPointText(s: string) {
    var b := Unsigned(s);
    var p := IndexOf(b, '.');
    p < |b| && AllDigits(b[..p]) && AllDigits(b[p + 1..])
  }

  function StripLeadingZeros(s: string): (r: string)
    requires AllDigits(s)
    ensures AllDigits(r) && (r == "" || r[0] != '0')
  {
    if s != "" && s[0] == '0' then StripLeadingZeros(s[1..]) else s
  }

  lemma {:induction false} StripZerosBefore(k: nat, c: string)
    requires AllDigits(c) && (c == "" || c[0] != '0')
    ensures AllDigits(Zeros(k) + c) && StripLeadingZeros(Zeros(k) + c) == c
  {
    assert AllDigits(Zeros(k) + c);
    if k > 0 {
      assert (Zeros(k) + c)[1..] == Zeros(k - 1) + c by {
        assert Zeros(k) == Zeros(k - 1) + "0";
        assert Zeros(k) == "0" + Zeros(k - 1) by { ZerosCons(k); }
      }
      StripZerosBefore(k - 1, c);
    }
  }

  lemma ZerosCons(k: nat)
    requires k > 0
    ensures Zeros(k) == "0" + Zeros(k - 1)
  {
    assert forall i :: 0 <= i < k ==> Zeros(k)[i] == ("0" + Zeros(k - 1))[i];
  }

  /**
   * `float(s)` for the texts plain_float produces. The float is represented by its
   * shortest decimal expansion, which for such a text is the decimal the text denotes:
   * the digits around the point, without leading zeros, scaled by the number of
   * fractional digits.
   */
  function ParseFloat(s: string): Decimal
    requires IsPointText(s)
  {
    var b := Unsigned(s);
    var p := IndexOf(b, '.');
    var digits := StripLeadingZeros(b[..p] + b[p + 1..]);
    Decimal(s != "" && s[0] == '-', if digits == "" then "0" else digits, -(|b| - p - 1))
  }

  /** `float` of a signed point text: its digits without leading zeros, scaled by its fractional digits. */
  lemma ParseFloatOf(neg: bool, i: string, f: string)
    requires AllDigits(i) && AllDigits(f) && i != ""
    ensures AllDigits(i + f)
    ensures IsPointText(Sign(neg) + i + "." + f)
    ensures var z := StripLeadingZeros(i + f);
      ParseFloat(Sign(neg) + i + "." + f) == Decimal(neg, if z == "" then "0" else z, -|f|)
  {
    var b := i + "." + f;
    SignedPointText(neg, i, f);
    PointAt(i, f);
    assert b[..|i|] + b[|i| + 1..] == i + f;
  }

  /** A sign in front of digits, a point and digits is recognised, and removed, by `Unsigned`. */
  lemma SignedPointText(neg: bool, i: string, f: string)
    requires AllDigits(i) && i != ""
    ensures var s := Sign(neg) + i + "." + f;
      (s != "" && s[0] == '-') == neg && Unsigned(s) == i + "." + f
  {
    var b := i + "." + f;
    var s := Sign(neg) + i + "." + f;
    assert s == Sign(neg) + b;
    assert b[0] == i[0];
    if neg {
      assert s[1..] == b;
    } else {
      assert s == b;
    }
  }

  /** Around the point sit exactly the coefficient's digits, after some leading zeros. */
  lemma DigitsAroundPoint(c: Coefficient, dot: int)
    requires c != "0" && dot < |c|
    ensures AllDigits(IntDigits(c, dot) + FracDigits(c, dot))
    ensures StripLeadingZeros(IntDigits(c, dot) + FracDigits(c, dot)) == c
    ensures |FracDigits(c, dot)| == |c| - dot
  {
    assert c[0] != '0';
    var intPart, frac := IntDigits(c, dot), FracDigits(c, dot);
    if dot <= 0 {
      assert intPart + frac == Zeros(1 - dot) + c by {
        ZerosCons(1 - dot);
        assert dot == 0 ==> frac == c[0..] == c;
      }
      StripZerosBefore(1 - dot, c);
    } else {
      assert intPart + frac == c;
    }
  }

  /** Reading the text of a normalised fractional decimal back gives the same decimal. */
  lemma ParseFloatRoundTrip(d: Decimal)
    requires IsNormalized(d) && d.exp < 0
    ensures IsPointText(TrimFixed(FormatFixed(d)))
    ensures ParseFloat(TrimFixed(FormatFixed(d))) == d
  {
    var c := d.coeff;
    var dot := d.exp + |c|;
    var i, f := IntDigits(c, dot), FracDigits(c, dot);
    var s := TrimFixed(FormatFixed(d));
    assert s == Sign(d.negative) + i + "." + f by { PlainTextPoint(d); }
    ParseFloatOf(d.negative, i, f);
    DigitsAroundPoint(c, dot);
    assert ParseFloat(s) == Decimal(d.negative, c, -|f|);
  }

  /** In digits, a point, digits, the point is found right after the first digits. */
  lemma PointAt(i: string, f: string)
    requires AllDigits(i) && AllDigits(f)
    ensures var b := i + "." + f;
      IndexOf(b, '.') == |i| && b[..|i|] == i && b[|i| + 1..] == f
  {
    var b := i + "." + f;
    assert b[..|i|] == i && b[|i| + 1..] == f;
    DigitsHaveNoPoint(i);
    IndexOfFirst(b, '.', |i|);
  }

  lemma {:induction false} IndexOfFirst(s: string, c: char, i: nat)
    requires i < |s| && s[i] == c && c !in s[..i]
    ensures IndexOf(s, c) == i
  {
    if i > 0 {
      assert s[0] == s[..i][0];
      assert s[1..][..i - 1] == s[..i][1..];
      IndexOfFirst(s[1..], c, i - 1);
    }
  }

  /* ---------- plain_float ---------- */

  /**
   * `plain_float(value)`: None for None, NaN or an infinity; otherwise the trimmed
   * fixed-point text of the normalised decimal, as an int when it has no point and as
   * a float otherwise.
   */
  function PlainFloat(value: Option<FloatVal>): (r: Json)
    ensures r.Null? <==> (value.None? || !value.value.Finite?)
    ensures r.Null? || r.Int? || r.Float?
    ensures value.Some? && value.value.Finite? ==> (r.Int? <==> '.' !in PlainText(value.value.repr))
  {
    match value
    case None => Null
    case Some(NaN) => Null
    case Some(Infinity(_)) => Null
    case Some(Finite(d)) =>
      var s := PlainText(d);
      PlainTextShape(d);
      if '.' !in s then
        IntTextOfNormalized(d);
        Int(ParseInt(s))
      else
        ParseFloatRoundTrip(Normalize(d));
        Float(Finite(ParseFloat(s)))
  }

  lemma IntTextOfNormalized(d: Decimal)
    requires '.' !in PlainText(d)
    ensures IsIntText(PlainText(d))
    ensures Normalize(d).exp >= 0
    ensures ParseInt(PlainText(d)) == Signed(d.negative, DigitsValue(Normalize(d).coeff) * Pow10(Normalize(d).exp))
  {
    var n := Normalize(d);
    PlainTextShape(d);
    var digits := WholeDigits(n);
    WholeDigitsText(n);
    WholeDigitsValue(n);
    SignedText(n.negative, digits);
  }

  /** The digits of a normalised whole decimal: its coefficient followed by its exponent in zeros. */
  function WholeDigits(n: Decimal): (r: string)
    requires n.exp >= 0
    ensures AllDigits(r) && r != ""
  {
    n.coeff + Zeros(n.exp)
  }

  lemma WholeDigitsText(n: Decimal)
    requires IsNormalized(n) && n.exp >= 0
    ensures TrimFixed(FormatFixed(n)) == Sign(n.negative) + WholeDigits(n)
  {
    PlainTextWhole(n);
    assert Sign(n.negative) + n.coeff + Zeros(n.exp) == Sign(n.negative) + (n.coeff + Zeros(n.exp));
  }

  lemma WholeDigitsValue(n: Decimal)
    requires n.exp >= 0
    ensures DigitsValue(WholeDigits(n)) == DigitsValue(n.coeff) * Pow10(n.exp)
  {
    DigitsValueAppend(n.coeff, Zeros(n.exp));
    ZerosValue(n.exp);
  }

  /** `int` of a sign followed by digits. */
  lemma SignedText(neg: bool, digits: string)
    requires AllDigits(digits) && digits != ""
    ensures IsIntText(Sign(neg) + digits)
    ensures ParseInt(Sign(neg) + digits) == Signed(neg, DigitsValue(digits))
  {
    var s := Sign(neg) + digits;
    assert s[0] == '-' <==> neg by { assert !neg ==> s[0] == digits[0]; }
    if neg {
      assert s[1..] == digits;
    } else {
      assert s == digits;
    }
  }

  /** A finite float whose normalised exponent is non-negative becomes the int it denotes. */
  lemma PlainFloatIntegral(d: Decimal)
    requires Normalize(d).exp >= 0
    ensures PlainFloat(Some(Finite(d))) == Int(Signed(d.negative, DigitsValue(Normalize(d).coeff) * Pow10(Normalize(d).exp)))
  {
    var s := PlainText(d);
    var v := Signed(d.negative, DigitsValue(Normalize(d).coeff) * Pow10(Normalize(d).exp));
    assert '.' !in s by { PlainTextShape(d); }
    assert IsIntText(s) && ParseInt(s) == v by { IntTextOfNormalized(d); }
    PlainFloatOfIntText(d);
  }

  /** A text without a point becomes the int it reads as. */
  lemma PlainFloatOfIntText(d: Decimal)
    requires '.' !in PlainText(d) && IsIntText(PlainText(d))
    ensures PlainFloat(Some(Finite(d))) == Int(ParseInt(PlainText(d)))
  {
  }

  /**
   * For a float written with a non-negative exponent, such as 1732693003E+3, the int
   * result is the coefficient times the power of ten.
   */
  lemma PlainFloatScaled(d: Decimal)
    requires d.exp >= 0
    ensures PlainFloat(Some(Finite(d))) == Int(Signed(d.negative, DigitsValue(d.coeff) * Pow10(d.exp)))
  {
    var n := Normalize(d);
    assert n.exp >= 0 && DigitsValue(n.coeff) * Pow10(n.exp) == DigitsValue(d.coeff) * Pow10(d.exp) by {
      NormalizeKeepsValue(d);
      if d.coeff == "0" {
        assert DigitsValue(n.coeff) == 0 && DigitsValue(d.coeff) == 0;
      } else {
        var k := n.exp - d.exp;
        PowAdd(k, d.exp);
        Associate(DigitsValue(n.coeff), Pow10(k), Pow10(d.exp));
      }
    }
    PlainFloatIntegral(d);
  }

  lemma {:induction false} PowAdd(a: nat, b: nat)
    ensures Pow10(a + b) == Pow10(a) * Pow10(b)
  {
    if a > 0 {
      PowAdd(a - 1, b);
    }
  }

  /** A float with a fractional part comes back as the same (normalised) decimal. */
  lemma PlainFloatFractional(d: Decimal)
    requires Normalize(d).exp < 0
    ensures PlainFloat(Some(Finite(d))) == Float(Finite(Normalize(d)))
  {
    PlainTextShape(d);
    ParseFloatRoundTrip(Normalize(d));
  }

  /** str(1732693003000.0) is "1732693003000.0"; normalising strips four zeros. */
  lemma NormalizeLargeExample()
    ensures Normalize(Decimal(false, "17326930030000", -1)) == Decimal(false, "1732693003", 3)
  {
    assert "17326930030000"[..13] == "1732693003000";
    assert "1732693003000"[..12] == "173269300300";
    assert "173269300300"[..11] == "17326930030";
    assert "17326930030"[..10] == "1732693003";
  }

  /** Evaluates the coefficient of the large example in two halves. */
  lemma LargeExampleValue()
    ensures DigitsValue("1732693003") * Pow10(3) == 1732693003000
  {
    HighDigitsValue();
    LowDigitsValue();
    DigitsValueAppend("17326", "93003");
    assert "17326" + "93003" == "1732693003";
    assert Pow10(5) == 100000;
    assert Pow10(3) == 1000;
  }

  lemma HighDigitsValue()
    ensures DigitsValue("17326") == 17326
  {
    assert DigitsValue("1") == 1;
    assert "17"[..1] == "1";
    assert DigitsValue("17") == 17;
    assert "173"[..2] == "17";
    assert DigitsValue("173") == 173;
    assert "1732"[..3] == "173";
    assert DigitsValue("1732") == 1732;
    assert "17326"[..4] == "1732";
    assert DigitsValue("17326") == 17326;
  }

  lemma LowDigitsValue()
    ensures DigitsValue("93003") == 93003
  {
    assert DigitsValue("9") == 9;
    assert "93"[..1] == "9";
    assert DigitsValue("93") == 93;
    assert "930"[..2] == "93";
    assert DigitsValue("930") == 930;
    assert "9300"[..3] == "930";
    assert DigitsValue("9300") == 9300;
    assert "93003"[..4] == "9300";
    assert DigitsValue("93003") == 93003;
  }

  /** The test suite's large example: 1732693003000.0 (1.732693003E+12) becomes the int 1732693003000. */
  lemma PlainFloatLargeExample(d: Decimal)
    requires d == Decimal(false, "17326930030000", -1)
    ensures PlainFloat(Some(Finite(d))) == Int(1732693003000)
  {
    NormalizeLargeExample();
    PlainFloatIntegral(d);
    LargeExampleValue();
  }

  /** The test suite's fractional example: 173.5 stays the float 173.5. */
  lemma PlainFloatFractionalExample(d: Decimal)
    requires d == Decimal(false, "1735", -1)
    ensures PlainFloat(Some(Finite(d))) == Float(Finite(d))
  {
    PlainFloatFractional(d);
  }

  /* ---------- _convert_value and normalize_scientific_notation ---------- */

  /** `_convert_value`: rebuilds dicts and lists, sends every float through plain_float. */
  function ConvertValue(v: Json): Json {
    match v
    case Obj(o) => Obj(seq(|o|, i requires 0 <= i < |o| => (o[i].0, ConvertValue(o[i].1))))
    case Arr(a) => Arr(seq(|a|, i requires 0 <= i < |a| => ConvertValue(a[i])))
    case Float(f) => PlainFloat(Some(f))
    case _ => v
  }

  /**
   * Two values have the same shape: dicts with the same keys in the same order, lists of
   * the same length, element-wise the same shape; a float may have become None, an int
   * or a float; every other scalar is identical.
   */
  predicate SameShape(a: Json, b: Json) {
    match a
    case Obj(o) =>
      b.Obj? && |b.fields| == |o| &&
      forall i :: 0 <= i < |o| ==> b.fields[i].0 == o[i].0 && SameShape(o[i].1, b.fields[i].1)
    case Arr(x) =>
      b.Arr? && |b.items| == |x| &&
      forall i :: 0 <= i < |x| ==> SameShape(x[i], b.items[i])
    case Float(_) => b.Null? || b.Int? || b.Float?
    case _ => b == a
  }

  predicate NoFloats(v: Json) {
    match v
    case Obj(o) => forall i :: 0 <= i < |o| ==> NoFloats(o[i].1)
    case Arr(x) => forall i :: 0 <= i < |x| ==> NoFloats(x[i])
    case Float(_) => false
    case _ => true
  }

  /** Every float left in a value is a normalised decimal with a fractional part. */
  predicate FloatsPlain(v: Json) {
    match v
    case Obj(o) => forall i :: 0 <= i < |o| ==> FloatsPlain(o[i].1)
    case Arr(x) => forall i :: 0 <= i < |x| ==> FloatsPlain(x[i])
    case Float(f) => f.Finite? && IsNormalized(f.repr) && f.repr.exp < 0
    case _ => true
  }

  lemma {:induction false} ConvertKeepsShape(v: Json)
    ensures SameShape(v, ConvertValue(v))
  {
    match v
    case Obj(o) =>
      forall i | 0 <= i < |o| ensures SameShape(o[i].1, ConvertValue(o[i].1)) {
        ConvertKeepsShape(o[i].1);
      }
    case Arr(a) =>
      forall i | 0 <= i < |a| ensures SameShape(a[i], ConvertValue(a[i])) {
        ConvertKeepsShape(a[i]);
      }
    case _ =>
  }

  lemma {:induction false} ConvertWithoutFloats(v: Json)
    requires NoFloats(v)
    ensures ConvertValue(v) == v
  {
    match v
    case Obj(o) =>
      forall i | 0 <= i < |o| ensures ConvertValue(o[i].1) == o[i].1 {
        ConvertWithoutFloats(o[i].1);
      }
      assert ConvertValue(v).fields == o;
    case Arr(a) =>
      forall i | 0 <= i < |a| ensures ConvertValue(a[i]) == a[i] {
        ConvertWithoutFloats(a[i]);
      }
      assert ConvertValue(v).items == a;
    case _ =>
  }

  lemma {:induction false} ConvertMakesFloatsPlain(v: Json)
    ensures FloatsPlain(ConvertValue(v))
  {
    match v
    case Obj(o) =>
      var r := ConvertValue(v).fields;
      forall i | 0 <= i < |o| ensures FloatsPlain(r[i].1) {
        assert r[i].1 == ConvertValue(o[i].1);
        ConvertMakesFloatsPlain(o[i].1);
      }
    case Arr(a) =>
      var r := ConvertValue(v).items;
      forall i | 0 <= i < |a| ensures FloatsPlain(r[i]) {
        assert r[i] == ConvertValue(a[i]);
        ConvertMakesFloatsPlain(a[i]);
      }
    case Float(f) =>
      PlainFloatIsPlain(f);
    case _ =>
  }

  /** plain_float leaves no float other than a normalised one with a fractional part. */
  lemma PlainFloatIsPlain(f: FloatVal)
    ensures FloatsPlain(PlainFloat(Some(f)))
  {
    if f.Finite? && Normalize(f.repr).exp < 0 {
      PlainFloatFractional(f.repr);
    } else if f.Finite? {
      PlainFloatIntegral(f.repr);
    }
  }

  lemma {:induction false} ConvertPlainIsIdentity(v: Json)
    requires FloatsPlain(v)
    ensures ConvertValue(v) == v
  {
    match v
    case Obj(o) =>
      forall i | 0 <= i < |o| ensures ConvertValue(o[i].1) == o[i].1 {
        ConvertPlainIsIdentity(o[i].1);
      }
      assert ConvertValue(v).fields == o;
    case Arr(a) =>
      forall i | 0 <= i < |a| ensures ConvertValue(a[i]) == a[i] {
        ConvertPlainIsIdentity(a[i]);
      }
      assert ConvertValue(v).items == a;
    case Float(f) =>
      NormalizeFixedPoint(f.repr);
      PlainFloatFractional(f.repr);
    case _ =>
  }

  /** Normalising twice is normalising once. */
  lemma ConvertIdempotent(v: Json)
    ensures ConvertValue(ConvertValue(v)) == ConvertValue(v)
  {
    ConvertMakesFloatsPlain(v);
    ConvertPlainIsIdentity(ConvertValue(v));
  }

  datatype DecodeError = JsonDecodeError

  /**
   * `normalize_scientific_notation(body)`: a string body is first decoded with `loads`
   * (`json.loads`, whose failure propagates); any other body is converted directly.
   */
  function NormalizeScientificNotation(body: Json, loads: string -> Option<Json>): (r: Result<Json, DecodeError>)
    ensures r.Err? <==> (body.Str? && loads(body.s).None?)
    ensures r.Ok? && !body.Str? ==> SameShape(body, r.value)
    ensures r.Ok? && body.Str? ==> SameShape(loads(body.s).value, r.value)
    ensures r.Ok? ==> FloatsPlain(r.value)
  {
    var data := if body.Str? then loads(body.s) else Some(body);
    match data
    case None => Err(JsonDecodeError)
    case Some(v) =>
      ConvertKeepsShape(v);
      ConvertMakesFloatsPlain(v);
      Ok(ConvertValue(v))
  }
}
