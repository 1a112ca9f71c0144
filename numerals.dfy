/** Character classes of the calculator's input and the value of a decimal
    numeral, as `String.toDoubleOrNull` reads the plain decimal forms
    (an optional sign, digits, at most one decimal point). Values are exact
    reals rather than IEEE doubles. */
module Numerals {

  datatype Option<+T> = None | Some(value: T)

  predicate IsDigit(c: char) { '0' <= c <= '9' }

  predicate IsSign(c: char) { c == '+' || c == '-' }

  /** The four operator characters `+ - * /`. */
  predicate IsOperator(c: char) { c == '+' || c == '-' || c == '*' || c == '/' }

  predicate AllDigits(s: string) { forall k :: 0 <= k < |s| ==> IsDigit(s[k]) }

  /** The language of `[0-9]*\.?[0-9]+`: digits with at most one decimal
      point, ending in a digit. */
  predicate IsUnsignedNumeral(t: string) {
    && |t| > 0
    && IsDigit(t[|t| - 1])
    && (forall k :: 0 <= k < |t| ==> IsDigit(t[k]) || t[k] == '.')
    && (forall j, k :: 0 <= j < k < |t| && t[j] == '.' ==> t[k] != '.')
  }

  /** The language of `[-+]?[0-9]*\.?[0-9]+`, the numeral alternative of the
      calculator's token pattern. */
  predicate IsNumeral(t: string) {
    IsUnsignedNumeral(t) || (|t| > 0 && IsSign(t[0]) && IsUnsignedNumeral(t[1..]))
  }

  function DigitValue(c: char): (d: nat)
    requires IsDigit(c)
    ensures d <= 9
  {
    c as int - '0' as int
  }

  function Pow10(n: nat): (p: nat)
    ensures p > 0
  {
    if n == 0 then 1 else 10 * Pow10(n - 1)
  }

  /** The natural number a run of decimal digits denotes. */
  function DigitsValue(ds: string): nat
    requires AllDigits(ds)
  {
    if ds == [] then 0
    else 10 * DigitsValue(ds[..|ds| - 1]) + DigitValue(ds[|ds| - 1])
  }

  /** The value of the digits after a decimal point, `0.d1d2...`, read
      from the right. */
  function FractionValue(ds: string): (f: real)
    requires AllDigits(ds)
    ensures 0.0 <= f < 1.0
  {
    if ds == [] then 0.0
    else (DigitValue(ds[0]) as real + FractionValue(ds[1..])) / 10.0
  }

  /** Index of the first decimal point of `t`, or `|t|` when it has none. */
  function DotIndex(t: string): (j: nat)
    ensures j <= |t|
    ensures forall k :: 0 <= k < j ==> t[k] != '.'
    ensures j < |t| ==> t[j] == '.'
  {
    if t == [] || t[0] == '.' then 0 else 1 + DotIndex(t[1..])
  }

  /** The value of the digits before and after the decimal point; nothing
      when both are empty or either holds a non-digit. */
  function ReadParts(whole: string, frac: string): Option<real> {
    if |whole| + |frac| > 0 && AllDigits(whole) && AllDigits(frac) then
      Some(DigitsValue(whole) as real + FractionValue(frac))
    else
      None
  }

  /** Reads `digits`, `digits.`, `.digits` or `digits.digits`; anything else
      is not a number. */
  function ParseUnsigned(t: string): Option<real> {
    var j := DotIndex(t);
    if j < |t| then ReadParts(t[..j], t[j + 1..]) else ReadParts(t, [])
  }

  /** `toDoubleOrNull` on the decimal forms: an optional `+` or `-` followed by
      an unsigned decimal. */
  function ParseNumeral(t: string): Option<real> {
    if |t| > 0 && IsSign(t[0]) then
      match ParseUnsigned(t[1..])
      case Some(v) => Some(if t[0] == '-' then -v else v)
      case None => None
    else
      ParseUnsigned(t)
  }

  lemma UnsignedNumeralParses(t: string)
    requires IsUnsignedNumeral(t)
    ensures ParseUnsigned(t).Some?
  {
    var j := DotIndex(t);
    if j < |t| {
      assert j < |t| - 1;
      var frac := t[j + 1..];
      forall k | 0 <= k < |frac|
        ensures IsDigit(frac[k])
      {
        assert frac[k] == t[j + 1 + k];
      }
    }
  }

  /** Every numeral the token pattern can match is read by `toDoubleOrNull`;
      the value is the unsigned value, negated under a leading `-`. */
  lemma NumeralsParse(t: string)
    requires IsNumeral(t)
    ensures ParseNumeral(t).Some?
    ensures |t| > 0 && IsSign(t[0]) ==>
              ParseUnsigned(t[1..]).Some? &&
              ParseNumeral(t).value == if t[0] == '-' then -ParseUnsigned(t[1..]).value
                                       else ParseUnsigned(t[1..]).value
  {
    if |t| > 0 && IsSign(t[0]) {
      UnsignedNumeralParses(t[1..]);
    } else {
      UnsignedNumeralParses(t);
    }
  }

  lemma NoPoint(t: string)
    requires AllDigits(t)
    ensures DotIndex(t) == |t|
  {
    assert forall k :: 0 <= k < |t| ==> t[k] != '.';
  }

  lemma ReadWhole(whole: string)
    requires |whole| > 0 && AllDigits(whole)
    ensures ReadParts(whole, []) == Some(DigitsValue(whole) as real)
  {
    assert FractionValue([]) == 0.0;
  }

  /** A numeral without a decimal point denotes its digits' natural number. */
  lemma WholeNumeralValue(t: string)
    requires |t| > 0 && AllDigits(t)
    ensures ParseUnsigned(t) == Some(DigitsValue(t) as real)
  {
    NoPoint(t);
    ReadWhole(t);
  }

  /** `x` moved `n` decimal places to the right of the point, `x / 10^n`,
      written as `n` divisions by ten. */
  function Shifted(x: real, n: nat): real {
    if n == 0 then x else Shifted(x, n - 1) / 10.0
  }

  lemma {:induction false} ShiftedIsQuotient(x: real, n: nat)
    ensures Shifted(x, n) == x / (Pow10(n) as real)
  {
    if n > 0 {
      ShiftedIsQuotient(x, n - 1);
      var q := Pow10(n - 1) as real;
      assert Pow10(n) as real == 10.0 * q;
      assert (x / q) / 10.0 == x / (10.0 * q);
    }
  }

  lemma {:induction false} ShiftedAdd(x: real, y: real, n: nat)
    ensures Shifted(x + y, n) == Shifted(x, n) + Shifted(y, n)
  {
    if n > 0 {
      ShiftedAdd(x, y, n - 1);
    }
  }

  lemma {:induction false} ShiftedTen(x: real, n: nat)
    requires n > 0
    ensures Shifted(10.0 * x, n) == Shifted(x, n - 1)
  {
    if n > 1 {
      ShiftedTen(x, n - 1);
    }
  }

  /** A digit appended after the fractional digits adds its value `|ds| + 1`
      places after the point. */
  lemma {:induction false} FractionSnoc(ds: string, c: char)
    requires AllDigits(ds) && IsDigit(c)
    ensures AllDigits(ds + [c])
    ensures FractionValue(ds + [c]) == FractionValue(ds) + Shifted(DigitValue(c) as real, |ds| + 1)
    decreases |ds|
  {
    var dc := ds + [c];
    assert AllDigits(dc) by {
      assert forall k :: 0 <= k < |ds| ==> dc[k] == ds[k];
    }
    if ds != [] {
      var rest := ds[1..];
      assert dc[1..] == rest + [c];
      FractionSnoc(rest, c);
    }
  }

  /** The digits after a decimal point are read positionally: `0.d1...dn`
      is the number `d1...dn` moved `n` places after the point. */
  lemma {:induction false} FractionExact(ds: string)
    requires AllDigits(ds)
    ensures FractionValue(ds) == Shifted(DigitsValue(ds) as real, |ds|)
    decreases |ds|
  {
    if ds != [] {
      var n := |ds|;
      var init, c := ds[..n - 1], ds[n - 1];
      assert init + [c] == ds;
      FractionExact(init);
      FractionSnoc(init, c);
      var w, d := DigitsValue(init) as real, DigitValue(c) as real;
      assert DigitsValue(ds) as real == 10.0 * w + d;
      ShiftedAdd(10.0 * w, d, n);
      ShiftedTen(w, n);
    }
  }

  /** The whole and fractional digits read as the whole value plus the
      fractional digits' value over `10^|frac|`. */
  lemma ReadPartsExact(whole: string, frac: string)
    requires |whole| + |frac| > 0 && AllDigits(whole) && AllDigits(frac)
    ensures ReadParts(whole, frac) ==
              Some(DigitsValue(whole) as real + DigitsValue(frac) as real / (Pow10(|frac|) as real))
  {
    FractionExact(frac);
    ShiftedIsQuotient(DigitsValue(frac) as real, |frac|);
  }

  /** A numeral with a decimal point reads as its whole digits plus its
      fractional digits over `10^(number of fractional digits)`. */
  lemma PointNumeralValue(t: string)
    requires IsUnsignedNumeral(t) && DotIndex(t) < |t|
    ensures AllDigits(t[..DotIndex(t)]) && AllDigits(t[DotIndex(t) + 1..])
    ensures ParseUnsigned(t) ==
              Some(DigitsValue(t[..DotIndex(t)]) as real +
                   DigitsValue(t[DotIndex(t) + 1..]) as real / (Pow10(|t[DotIndex(t) + 1..]|) as real))
  {
    UnsignedNumeralParses(t);
    var j := DotIndex(t);
    assert ParseUnsigned(t) == ReadParts(t[..j], t[j + 1..]);
    ReadPartsExact(t[..j], t[j + 1..]);
  }

  /** The fractional digits of a numeral add less than one to its whole
      digits. */
  lemma FractionalNumeralValue(t: string)
    requires IsUnsignedNumeral(t) && DotIndex(t) < |t|
    ensures AllDigits(t[..DotIndex(t)])
    ensures ParseUnsigned(t).Some?
    ensures DigitsValue(t[..DotIndex(t)]) as real <= ParseUnsigned(t).value
    ensures ParseUnsigned(t).value < DigitsValue(t[..DotIndex(t)]) as real + 1.0
  {
    UnsignedNumeralParses(t);
  }
}
