/** The tokenizer of `calculateResult`: all matches, left to right, of the
    pattern whose first alternative is `[-+]?[0-9]*\.?[0-9]+` and whose
    second is one of the characters `+ - * /`, written out as an explicit
    scanner. At each position the numeral alternative is tried first; when it
    fails, a single operator character is taken; otherwise the character is
    skipped. */
module Scanner {
  import opened Numerals

  /** Number of consecutive digits of `s` starting at index `p`. */
  function DigitRun(s: string, p: nat): (d: nat)
    requires p <= |s|
    ensures p + d <= |s|
    decreases |s| - p
  {
    if p < |s| && IsDigit(s[p]) then 1 + DigitRun(s, p + 1) else 0
  }

  /** The run is all digits and stops at a non-digit or at the end. */
  lemma {:induction false} DigitRunIsMaximal(s: string, p: nat)
    requires p <= |s|
    ensures forall k :: p <= k < p + DigitRun(s, p) ==> IsDigit(s[k])
    ensures p + DigitRun(s, p) == |s| || !IsDigit(s[p + DigitRun(s, p)])
    decreases |s| - p
  {
    if p < |s| && IsDigit(s[p]) {
      DigitRunIsMaximal(s, p + 1);
    }
  }

  /** Length of the match of `[0-9]*\.?[0-9]+` at `p`, 0 when there is none.
      After the greedy digit run, a point is taken only when a digit follows
      it; otherwise the engine backtracks to the digits alone. */
  function UnsignedLength(s: string, p: nat): (n: nat)
    requires p <= |s|
    ensures p + n <= |s|
  {
    var d := DigitRun(s, p);
    var q := p + d;
    if q + 1 < |s| && s[q] == '.' && IsDigit(s[q + 1]) then d + 1 + DigitRun(s, q + 1)
    else d
  }

  /** Length of the match of `[-+]?[0-9]*\.?[0-9]+` at `i`, 0 when there is
      none. A sign is kept only when an unsigned numeral follows it. */
  function NumeralLength(s: string, i: nat): (n: nat)
    requires i <= |s|
    ensures i + n <= |s|
  {
    if i < |s| && IsSign(s[i]) then
      var u := UnsignedLength(s, i + 1);
      if u == 0 then 0 else 1 + u
    else
      UnsignedLength(s, i)
  }

  /** The tokens found from index `i` on. */
  function ScanFrom(s: string, i: nat): seq<string>
    requires i <= |s|
    decreases |s| - i
  {
    if i == |s| then []
    else
      var n := NumeralLength(s, i);
      if n > 0 then [s[i..i + n]] + ScanFrom(s, i + n)
      else if IsOperator(s[i]) then [[s[i]]] + ScanFrom(s, i + 1)
      else ScanFrom(s, i + 1)
  }

  /** `Regex(...).findAll(expression).map { it.value }.toList()` */
  function Scan(s: string): seq<string> {
    ScanFrom(s, 0)
  }

  predicate IsOperatorToken(t: string) { |t| == 1 && IsOperator(t[0]) }

  /** A character that can occur in some token. */
  predicate InAlphabet(c: char) { IsDigit(c) || c == '.' || IsOperator(c) }

  /** The digits and operator characters of `s`, in order. */
  function Kept(s: string): string {
    if s == [] then []
    else (if IsDigit(s[0]) || IsOperator(s[0]) then [s[0]] else []) + Kept(s[1..])
  }

  function Concat(ts: seq<string>): string {
    if ts == [] then [] else ts[0] + Concat(ts[1..])
  }

  // ---------------------------------------------------------------------------
  // The numeral match is the longest prefix in the numeral language.

  /** A match without a decimal point: the digit run alone. */
  lemma WholeMatchIsNumeral(s: string, p: nat)
    requires p <= |s| && DigitRun(s, p) > 0
    ensures IsUnsignedNumeral(s[p..p + DigitRun(s, p)])
  {
    var t := s[p..p + DigitRun(s, p)];
    DigitRunIsMaximal(s, p);
    forall k | 0 <= k < |t|
      ensures IsDigit(t[k])
    {
      assert t[k] == s[p + k];
    }
  }

  /** A match with a decimal point: digits, the point at `q`, and at least
      one digit after it. */
  lemma PointMatchIsNumeral(s: string, p: nat, q: nat)
    requires p <= q && q + 1 < |s| && q == p + DigitRun(s, p) && s[q] == '.' && IsDigit(s[q + 1])
    ensures IsUnsignedNumeral(s[p..q + 1 + DigitRun(s, q + 1)])
  {
    var d := q - p;
    var t := s[p..q + 1 + DigitRun(s, q + 1)];
    DigitRunIsMaximal(s, p);
    DigitRunIsMaximal(s, q + 1);
    forall k | 0 <= k < |t|
      ensures IsDigit(t[k]) || t[k] == '.'
      ensures t[k] == '.' ==> k == d
    {
      assert t[k] == s[p + k];
    }
  }

  lemma UnsignedMatchIsNumeral(s: string, p: nat)
    requires p <= |s| && UnsignedLength(s, p) > 0
    ensures IsUnsignedNumeral(s[p..p + UnsignedLength(s, p)])
  {
    var q := p + DigitRun(s, p);
    if q + 1 < |s| && s[q] == '.' && IsDigit(s[q + 1]) {
      PointMatchIsNumeral(s, p, q);
    } else {
      WholeMatchIsNumeral(s, p);
    }
  }

  lemma UnsignedMatchIsLongest(s: string, p: nat, k: nat)
    requires p + k <= |s| && IsUnsignedNumeral(s[p..p + k])
    ensures k <= UnsignedLength(s, p)
  {
    var t := s[p..p + k];
    var d := DigitRun(s, p);
    var q := p + d;
    DigitRunIsMaximal(s, p);
    if k > d {
      assert t[d] == s[q];
      assert s[q] == '.';
      assert t[k - 1] != '.';
      assert IsDigit(s[q + 1]) by {
        assert t[d + 1] == s[q + 1];
        assert t[d + 1] != '.';
      }
      DigitRunIsMaximal(s, q + 1);
    }
  }

  lemma NumeralMatchIsNumeral(s: string, i: nat)
    requires i <= |s| && NumeralLength(s, i) > 0
    ensures IsNumeral(s[i..i + NumeralLength(s, i)])
  {
    var n := NumeralLength(s, i);
    if i < |s| && IsSign(s[i]) {
      var u := UnsignedLength(s, i + 1);
      UnsignedMatchIsNumeral(s, i + 1);
      assert s[i..i + n][1..] == s[i + 1..i + 1 + u];
    } else {
      UnsignedMatchIsNumeral(s, i);
    }
  }

  lemma NoLongerNumeral(s: string, i: nat, j: nat)
    requires i < j <= |s| && i + NumeralLength(s, i) < j
    ensures !IsNumeral(s[i..j])
  {
    var t := s[i..j];
    assert t[0] == s[i];
    if IsSign(s[i]) {
      if IsUnsignedNumeral(t[1..]) {
        assert t[1..] == s[i + 1..j];
        UnsignedMatchIsLongest(s, i + 1, j - i - 1);
      }
    } else if IsUnsignedNumeral(t) {
      UnsignedMatchIsLongest(s, i, j - i);
    }
  }

  /** `NumeralLength` agrees with the numeral language: a positive length
      marks a numeral, and no longer prefix (and, for 0, no prefix at all) is
      one. */
  lemma NumeralLengthIsLongestMatch(s: string, i: nat)
    requires i <= |s|
    ensures NumeralLength(s, i) > 0 ==> IsNumeral(s[i..i + NumeralLength(s, i)])
    ensures forall j :: i + NumeralLength(s, i) < j <= |s| ==> !IsNumeral(s[i..j])
  {
    if NumeralLength(s, i) > 0 {
      NumeralMatchIsNumeral(s, i);
    }
    forall j | i + NumeralLength(s, i) < j <= |s|
      ensures !IsNumeral(s[i..j])
    {
      NoLongerNumeral(s, i, j);
    }
  }

  /** A `+` or `-` is scanned as an operator token exactly when neither a
      digit nor a point and a digit follow it; otherwise it is the sign of
      the numeral that starts there, and `2*3+4` scans as `2`, `*`, `3`,
      `+4`. */
  lemma SignIsOperatorIff(s: string, i: nat)
    requires i < |s| && IsSign(s[i])
    ensures NumeralLength(s, i) == 0 <==>
              !(i + 1 < |s| && IsDigit(s[i + 1])) &&
              !(i + 2 < |s| && s[i + 1] == '.' && IsDigit(s[i + 2]))
    ensures NumeralLength(s, i) == 0 ==> ScanFrom(s, i) == [[s[i]]] + ScanFrom(s, i + 1)
    ensures NumeralLength(s, i) > 0 ==>
              ScanFrom(s, i) == [s[i..i + NumeralLength(s, i)]] + ScanFrom(s, i + NumeralLength(s, i)) &&
              s[i..i + NumeralLength(s, i)][0] == s[i]
  {
  }

  // ---------------------------------------------------------------------------
  // What the tokens are.

  lemma {:induction false} ScanFromWellFormed(s: string, i: nat)
    requires i <= |s|
    ensures forall t :: t in ScanFrom(s, i) ==> IsOperatorToken(t) || IsNumeral(t)
    decreases |s| - i
  {
    if i < |s| {
      var n := NumeralLength(s, i);
      if n > 0 {
        NumeralLengthIsLongestMatch(s, i);
        ScanFromWellFormed(s, i + n);
      } else {
        ScanFromWellFormed(s, i + 1);
      }
    }
  }

  /** Every token is a single operator character or a numeral of
      `[-+]?[0-9]*\.?[0-9]+`. */
  lemma ScanWellFormed(s: string)
    ensures forall t :: t in Scan(s) ==> IsOperatorToken(t) || IsNumeral(t)
  {
    ScanFromWellFormed(s, 0);
  }

  /** No character outside `0-9 . + - * /` ever reaches a token, and every
      numeral token ends in a digit. */
  lemma ScanAlphabet(s: string)
    ensures forall t, k :: t in Scan(s) && 0 <= k < |t| ==> InAlphabet(t[k])
    ensures forall t :: t in Scan(s) && !IsOperatorToken(t) ==> |t| > 0 && IsDigit(t[|t| - 1])
  {
    ScanWellFormed(s);
    forall t, k | t in Scan(s) && 0 <= k < |t|
      ensures InAlphabet(t[k])
    {
      if !IsOperatorToken(t) && !IsUnsignedNumeral(t) {
        assert IsUnsignedNumeral(t[1..]);
        if k > 0 {
          assert t[k] == t[1..][k - 1];
        }
      }
    }
    forall t | t in Scan(s) && !IsOperatorToken(t)
      ensures |t| > 0 && IsDigit(t[|t| - 1])
    {
      if !IsUnsignedNumeral(t) {
        assert t[|t| - 1] == t[1..][|t| - 2];
      }
    }
  }

  lemma {:induction false} ScanFromEmptyIff(s: string, i: nat)
    requires i <= |s|
    ensures ScanFrom(s, i) == [] <==>
              forall k :: i <= k < |s| ==> !IsDigit(s[k]) && !IsOperator(s[k])
    decreases |s| - i
  {
    if i < |s| {
      var n := NumeralLength(s, i);
      if n > 0 {
        assert ScanFrom(s, i) != [];
        assert IsDigit(s[i]) || IsSign(s[i]) || s[i] == '.';
        if s[i] == '.' {
          assert IsDigit(s[i + 1]);
        }
      } else if IsOperator(s[i]) {
        assert ScanFrom(s, i) != [];
      } else {
        assert !IsDigit(s[i]);
        ScanFromEmptyIff(s, i + 1);
      }
    }
  }

  /** The scanner finds no token exactly when the input holds no digit and no
      operator character (letters, stray points and the empty string). */
  lemma ScanEmptyIff(s: string)
    ensures Scan(s) == [] <==> forall k :: 0 <= k < |s| ==> !IsDigit(s[k]) && !IsOperator(s[k])
  {
    ScanFromEmptyIff(s, 0);
  }

  lemma {:induction false} KeptAppend(a: string, b: string)
    ensures Kept(a + b) == Kept(a) + Kept(b)
    decreases |a|
  {
    if a != [] {
      var head := if IsDigit(a[0]) || IsOperator(a[0]) then [a[0]] else [];
      assert (a + b)[0] == a[0];
      assert (a + b)[1..] == a[1..] + b;
      KeptAppend(a[1..], b);
      assert Kept(a + b) == head + Kept(a[1..] + b);
      assert Kept(a) == head + Kept(a[1..]);
    } else {
      assert a + b == b;
    }
  }

  lemma KeptSplit(s: string, i: nat, m: nat)
    requires i + m <= |s|
    ensures Kept(s[i..]) == Kept(s[i..i + m]) + Kept(s[i + m..])
  {
    assert s[i..] == s[i..i + m] + s[i + m..];
    KeptAppend(s[i..i + m], s[i + m..]);
  }

  /** Taking the token `s[i..j]` and then tokens that keep what `s[j..]`
      keeps keeps what `s[i..]` keeps. */
  lemma KeptToken(s: string, i: nat, j: nat, ts: seq<string>)
    requires i <= j <= |s| && Kept(Concat(ts)) == Kept(s[j..])
    ensures Kept(Concat([s[i..j]] + ts)) == Kept(s[i..])
  {
    assert ([s[i..j]] + ts)[1..] == ts;
    KeptAppend(s[i..j], Concat(ts));
    KeptSplit(s, i, j - i);
  }

  /** Skipping a character that is neither a digit nor an operator loses
      nothing that is kept. */
  lemma KeptSkip(s: string, i: nat)
    requires i < |s| && !IsDigit(s[i]) && !IsOperator(s[i])
    ensures Kept(s[i..]) == Kept(s[i + 1..])
  {
    assert s[i..][1..] == s[i + 1..];
  }

  lemma {:induction false} KeptNumeralStep(s: string, i: nat)
    requires i < |s| && NumeralLength(s, i) > 0
    ensures Kept(Concat(ScanFrom(s, i))) == Kept(s[i..])
    decreases |s| - i, 0
  {
    var n := NumeralLength(s, i);
    var rest := ScanFrom(s, i + n);
    ScanFromKept(s, i + n);
    assert ScanFrom(s, i) == [s[i..i + n]] + rest;
    KeptToken(s, i, i + n, rest);
  }

  lemma {:induction false} KeptOperatorStep(s: string, i: nat)
    requires i < |s| && NumeralLength(s, i) == 0 && IsOperator(s[i])
    ensures Kept(Concat(ScanFrom(s, i))) == Kept(s[i..])
    decreases |s| - i, 0
  {
    var rest := ScanFrom(s, i + 1);
    ScanFromKept(s, i + 1);
    assert s[i..i + 1] == [s[i]];
    assert ScanFrom(s, i) == [s[i..i + 1]] + rest;
    KeptToken(s, i, i + 1, rest);
  }

  lemma {:induction false} KeptSkipStep(s: string, i: nat)
    requires i < |s| && NumeralLength(s, i) == 0 && !IsOperator(s[i])
    ensures Kept(Concat(ScanFrom(s, i))) == Kept(s[i..])
    decreases |s| - i, 0
  {
    ScanFromKept(s, i + 1);
    assert !IsDigit(s[i]);
    KeptSkip(s, i);
  }

  lemma {:induction false} ScanFromKept(s: string, i: nat)
    requires i <= |s|
    ensures Kept(Concat(ScanFrom(s, i))) == Kept(s[i..])
    decreases |s| - i, 1
  {
    if i < |s| {
      if NumeralLength(s, i) > 0 {
        KeptNumeralStep(s, i);
      } else if IsOperator(s[i]) {
        KeptOperatorStep(s, i);
      } else {
        KeptSkipStep(s, i);
      }
    }
  }

  /** The scanner loses no digit and no operator character: dropping
      everything else from the tokens, joined, and from the input gives the
      same string. Only decimal points and foreign characters are skipped. */
  lemma ScanKeepsDigitsAndOperators(s: string)
    ensures Kept(Concat(Scan(s))) == Kept(s)
  {
    ScanFromKept(s, 0);
    assert s[0..] == s;
  }
}
