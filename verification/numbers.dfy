/**
 * Numbers of both interpreters. The source uses `f64`; this model uses `real`
 * (exact arithmetic, no rounding, no infinities or NaN). Float parsing,
 * `str::parse::<f64>`, is `ParseNumber`; `f64::round` is `Round`.
 */
module Numbers {
  import opened Wrappers
  import opened Text

  predicate IsDigit(c: char) {
    '0' <= c <= '9'
  }

  predicate AllDigits(s: string) {
    forall i :: 0 <= i < |s| ==> IsDigit(s[i])
  }

  /** The characters a decimal float literal is written with. */
  predicate IsNumeralChar(c: char) {
    IsDigit(c) || c == '+' || c == '-' || c == '.' || c == 'e' || c == 'E'
  }

  /** Value of a string of decimal digits, most significant first. */
  function DigitsValue(s: string): nat
    requires AllDigits(s)
    decreases |s|
  {
    if |s| == 0 then 0 else 10 * DigitsValue(s[..|s| - 1]) + (s[|s| - 1] as int - '0' as int)
  }

  function Pow10(k: nat): (r: nat)
    ensures r > 0
  {
    if k == 0 then 1 else 10 * Pow10(k - 1)
  }

  /** 10 to the power `k`, for any integer `k`. */
  function Scale(k: int): (r: real)
    ensures r > 0.0
  {
    if k >= 0 then Pow10(k) as real else 1.0 / (Pow10(-k) as real)
  }

  /** `Digit+ | Digit+ '.' Digit* | Digit* '.' Digit+` */
  function ParseMantissa(m: string): Option<real> {
    var dot := IndexOf(m, '.');
    if dot == |m| then
      if |m| > 0 && AllDigits(m) then Some(DigitsValue(m) as real) else None
    else
      var whole := m[..dot];
      var frac := m[dot + 1..];
      if AllDigits(whole) && AllDigits(frac) && |whole| + |frac| > 0 then
        Some(DigitsValue(whole) as real + DigitsValue(frac) as real / Pow10(|frac|) as real)
      else
        None
  }

  /** `Sign? Digit+`, the part after `e` or `E`. */
  function ParseExponent(x: string): Option<int> {
    var signed := |x| > 0 && (x[0] == '+' || x[0] == '-');
    var digits := if signed then x[1..] else x;
    if |digits| > 0 && AllDigits(digits) then
      Some(if signed && x[0] == '-' then -(DigitsValue(digits) as int) else DigitsValue(digits))
    else
      None
  }

  /** A mantissa optionally followed by `e` or `E` and an exponent. */
  function ParseUnsigned(s: string): Option<real> {
    var marker := ExponentMarker(s);
    match ParseMantissa(s[..marker])
    case None => None
    case Some(m) =>
      if marker == |s| then Some(m)
      else
        match ParseExponent(s[marker + 1..])
        case None => None
        case Some(k) => Some(m * Scale(k))
  }

  /**
   * `str::parse::<f64>` on decimal text: an optional sign, then digits with
   * at most one `.` and at least one digit, then an optional exponent. The
   * spellings `inf`, `infinity` and `nan` are not part of this model.
   */
  function ParseNumber(s: string): (r: Option<real>)
    ensures r.Some? ==> |s| > 0
  {
    if |s| > 0 && (s[0] == '+' || s[0] == '-') then
      match ParseUnsigned(s[1..])
      case None => None
      case Some(m) => Some(if s[0] == '-' then -m else m)
    else
      ParseUnsigned(s)
  }

  lemma MantissaChars(m: string)
    requires ParseMantissa(m).Some?
    ensures forall i :: 0 <= i < |m| ==> IsDigit(m[i]) || m[i] == '.'
  {
    var dot := IndexOf(m, '.');
    forall i | 0 <= i < |m| ensures IsDigit(m[i]) || m[i] == '.' {
      if i < dot {
        assert m[i] == m[..dot][i];
      } else if i > dot {
        assert m[i] == m[dot + 1..][i - dot - 1];
      }
    }
  }

  lemma ExponentChars(x: string)
    requires ParseExponent(x).Some?
    ensures forall i :: 0 <= i < |x| ==> IsNumeralChar(x[i])
  {
    forall i | 0 <= i < |x| ensures IsNumeralChar(x[i]) {
      if i > 0 {
        assert x[i] == x[1..][i - 1];
      }
    }
  }

  /** Where the exponent marker of `s` is, if it has one. */
  function ExponentMarker(s: string): (marker: nat)
    ensures marker <= |s|
    ensures forall j :: 0 <= j < marker ==> s[j] != 'e' && s[j] != 'E'
    ensures marker < |s| ==> s[marker] == 'e' || s[marker] == 'E'
  {
    var lower := IndexOf(s, 'e');
    var upper := IndexOf(s, 'E');
    if lower < upper then lower else upper
  }

  lemma UnsignedParts(s: string)
    requires ParseUnsigned(s).Some?
    ensures ParseMantissa(s[..ExponentMarker(s)]).Some?
    ensures ExponentMarker(s) < |s| ==> ParseExponent(s[ExponentMarker(s) + 1..]).Some?
  {
  }

  lemma UnsignedChars(s: string)
    requires ParseUnsigned(s).Some?
    ensures forall i :: 0 <= i < |s| ==> IsNumeralChar(s[i])
  {
    var marker := ExponentMarker(s);
    UnsignedParts(s);
    MantissaChars(s[..marker]);
    if marker < |s| {
      ExponentChars(s[marker + 1..]);
    }
    forall i | 0 <= i < |s| ensures IsNumeralChar(s[i]) {
      if i < marker {
        assert s[i] == s[..marker][i];
      } else if i > marker {
        assert s[i] == s[marker + 1..][i - marker - 1];
      }
    }
  }

  /** Whatever parses as a number is written only with numeral characters. */
  lemma NumeralsOnly(s: string)
    requires ParseNumber(s).Some?
    ensures forall i :: 0 <= i < |s| ==> IsNumeralChar(s[i])
  {
    if |s| > 0 && (s[0] == '+' || s[0] == '-') {
      var t := s[1..];
      UnsignedChars(t);
      assert s == [s[0]] + t;
      SignChars(s[0], t);
    } else {
      UnsignedChars(s);
    }
  }

  lemma SignChars(c: char, t: string)
    requires c == '+' || c == '-'
    requires forall i :: 0 <= i < |t| ==> IsNumeralChar(t[i])
    ensures forall i :: 0 <= i < |[c] + t| ==> IsNumeralChar(([c] + t)[i])
  {
  }

  // ---------------------------------------------------------------------------
  // Decimal text of whole numbers, the inverse of ParseNumber on them
  // ---------------------------------------------------------------------------

  function DigitChar(d: nat): char
    requires d < 10
  {
    ('0' as int + d) as char
  }

  /** The decimal digits of `n`, without leading zeros. */
  function NaturalText(n: nat): (t: string)
    ensures |t| > 0 && AllDigits(t)
  {
    if n < 10 then [DigitChar(n)] else NaturalText(n / 10) + [DigitChar(n % 10)]
  }

  lemma {:induction false} NaturalTextValue(n: nat)
    ensures DigitsValue(NaturalText(n)) == n
  {
    var t := NaturalText(n);
    if n >= 10 {
      NaturalTextValue(n / 10);
      assert t[..|t| - 1] == NaturalText(n / 10);
    }
  }

  /** Decimal text of an integer: a `-` and the digits when it is negative. */
  function IntegerText(i: int): string {
    if i < 0 then "-" + NaturalText(-i) else NaturalText(i)
  }

  lemma UnsignedNaturalText(n: nat)
    ensures ParseUnsigned(NaturalText(n)) == Some(n as real)
  {
    var t := NaturalText(n);
    DigitsAreUnsigned(t);
    NaturalTextValue(n);
  }

  /** A run of digits parses to its value. */
  lemma DigitsAreUnsigned(t: string)
    requires |t| > 0 && AllDigits(t)
    ensures ParseUnsigned(t) == Some(DigitsValue(t) as real)
  {
    DigitsHaveNoMarker(t);
    assert t[..|t|] == t;
    MantissaOfDigits(t);
  }

  lemma MantissaOfDigits(t: string)
    requires |t| > 0 && AllDigits(t) && IndexOf(t, '.') == |t|
    ensures ParseMantissa(t) == Some(DigitsValue(t) as real)
  {
  }

  /** Digits alone are a mantissa without a fraction or an exponent. */
  lemma DigitsHaveNoMarker(t: string)
    requires AllDigits(t)
    ensures IndexOf(t, 'e') == |t| && IndexOf(t, 'E') == |t| && IndexOf(t, '.') == |t|
  {
    assert forall j :: 0 <= j < |t| ==> t[j] != 'e' && t[j] != 'E' && t[j] != '.';
  }

  /** ParseNumber reads back the decimal text of every integer. */
  lemma ParseIntegerText(i: int)
    ensures ParseNumber(IntegerText(i)) == Some(i as real)
  {
    if i < 0 {
      UnsignedNaturalText(-i);
      NegativeText(NaturalText(-i), (-i) as real);
    } else {
      UnsignedNaturalText(i);
      UnsignedText(NaturalText(i));
    }
  }

  /** A `-` in front negates what the rest parses to. */
  lemma NegativeText(t: string, m: real)
    requires ParseUnsigned(t) == Some(m)
    ensures ParseNumber("-" + t) == Some(-m)
  {
    var s := "-" + t;
    assert s[0] == '-' && s[1..] == t;
  }

  /** Text whose first character cannot begin a numeral is not a number. */
  lemma NonNumeralStart(s: string)
    requires |s| > 0 && !IsNumeralChar(s[0])
    ensures ParseNumber(s).None?
  {
    var marker := ExponentMarker(s);
    assert marker > 0;
    assert s[..marker][0] == s[0];
    MantissaNeedsDigitFirst(s[..marker]);
  }

  lemma MantissaNeedsDigitFirst(m: string)
    requires |m| > 0 && !IsDigit(m[0]) && m[0] != '.'
    ensures ParseMantissa(m).None?
  {
    var dot := IndexOf(m, '.');
    if dot < |m| {
      assert m[..dot][0] == m[0];
    }
  }

  /** Text starting with a digit has no sign to strip. */
  lemma UnsignedText(t: string)
    requires |t| > 0 && IsDigit(t[0])
    ensures ParseNumber(t) == ParseUnsigned(t)
  {
  }

  // ---------------------------------------------------------------------------
  // f64::round
  // ---------------------------------------------------------------------------

  predicate IsIntegral(x: real) {
    x == x.Floor as real
  }

  function Abs(x: real): real {
    if x < 0.0 then -x else x
  }

  /**
   * `f64::round`: the nearest integer, halfway cases away from zero. The two
   * ensures clauses together determine the result.
   */
  function Round(x: real): (r: real)
    ensures IsIntegral(r) && Abs(r - x) <= 0.5
    ensures Abs(r - x) == 0.5 ==> Abs(r) > Abs(x)
  {
    if x >= 0.0 then RoundNonNegative(x)
    else
      var n := RoundNonNegative(-x).Floor;
      assert -RoundNonNegative(-x) == (-n) as real;
      (-n) as real
  }

  function RoundNonNegative(x: real): (r: real)
    requires x >= 0.0
    ensures IsIntegral(r) && r >= 0.0
    ensures x - 0.5 < r <= x + 0.5
  {
    var f := (x + 0.5).Floor;
    assert (f as real).Floor == f;
    f as real
  }
}
