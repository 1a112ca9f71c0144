/** Worked inputs that show how a sign next to a digit is read: it becomes
    part of the numeral, and the pending operator stays as it was. */
module Walkthroughs {
  import opened Numerals
  import opened Scanner
  import opened Evaluator

  lemma OneDigit(c: char)
    requires IsDigit(c)
    ensures ParseNumeral([c]) == Some(DigitValue(c) as real)
    ensures OperatorOf([c]).None?
  {
    WholeNumeralValue([c]);
  }

  lemma SignedDigit(sign: char, c: char)
    requires IsSign(sign) && IsDigit(c)
    ensures ParseNumeral([sign, c]) ==
              Some(if sign == '-' then -(DigitValue(c) as real) else DigitValue(c) as real)
    ensures OperatorOf([sign, c]).None?
  {
    OneDigit(c);
    assert [sign, c][1..] == [c];
  }

  /** A lone digit (no digit or point after it) is a token of its own. */
  lemma DigitToken(s: string, i: nat)
    requires i < |s| && IsDigit(s[i])
    requires i + 1 == |s| || (!IsDigit(s[i + 1]) && s[i + 1] != '.')
    ensures ScanFrom(s, i) == [[s[i]]] + ScanFrom(s, i + 1)
  {
    assert DigitRun(s, i + 1) == 0;
    assert s[i..i + 1] == [s[i]];
  }

  /** A sign followed by a lone digit is a token of two characters. */
  lemma SignedDigitToken(s: string, i: nat)
    requires i + 1 < |s| && IsSign(s[i]) && IsDigit(s[i + 1])
    requires i + 2 == |s| || (!IsDigit(s[i + 2]) && s[i + 2] != '.')
    ensures ScanFrom(s, i) == [[s[i], s[i + 1]]] + ScanFrom(s, i + 2)
  {
    assert DigitRun(s, i + 2) == 0;
    assert s[i..i + 2] == [s[i], s[i + 1]];
  }

  /** `*` and `/` are always tokens of their own; a sign is one when
      neither a digit nor a point follows it. */
  lemma OperatorToken(s: string, i: nat)
    requires i < |s| && IsOperator(s[i])
    requires !IsSign(s[i]) || i + 1 == |s| || (!IsDigit(s[i + 1]) && s[i + 1] != '.')
    ensures ScanFrom(s, i) == [[s[i]]] + ScanFrom(s, i + 1)
  {
    assert DigitRun(s, i) == 0;
    if IsSign(s[i]) && i + 1 < |s| {
      assert DigitRun(s, i + 1) == 0;
    }
  }

  /** Running a sequence of tokens whose first token takes `m` to `m'`. */
  lemma StepThenRest(m: Machine, t: seq<string>, m': Machine)
    requires |t| > 0 && Step(m, t[0]) == Running(m')
    ensures Run(m, t) == Run(m', t[1..])
  {
  }

  lemma PushTwo()
    ensures Step(Initial, "2") == Running(Machine(Add, [2.0]))
  {
    OneDigit('2');
  }

  lemma TimesThree()
    ensures Step(Machine(Mul, [2.0]), "3") == Running(Machine(Mul, [6.0]))
  {
    OneDigit('3');
  }

  lemma TimesPlusFour()
    ensures Step(Machine(Mul, [6.0]), "+4") == Running(Machine(Mul, [24.0]))
  {
    SignedDigit('+', '4');
  }

  lemma TimesFive()
    ensures Step(Machine(Mul, [24.0]), "5") == Running(Machine(Mul, [120.0]))
  {
    OneDigit('5');
  }

  lemma MinusMinusThree()
    ensures Step(Machine(Sub, [2.0]), "-3") == Running(Machine(Sub, [2.0, 3.0]))
  {
    SignedDigit('-', '3');
  }

  // ---------------------------------------------------------------------------
  // "2*3+4" is 24, not 10: the `+` is the sign of `+4`, so `*` is still
  // pending when 4 is read.

  lemma ScanThreeTerms(s: string)
    requires |s| == 5 && s[0] == '2' && s[1] == '*' && s[2] == '3' && s[3] == '+' && s[4] == '4'
    ensures Scan(s) == ["2", "*", "3", "+4"]
  {
    SignedDigitToken(s, 3);
    DigitToken(s, 2);
    OperatorToken(s, 1);
    DigitToken(s, 0);
  }

  lemma RunThreeTerms(t: seq<string>)
    requires |t| == 4 && t[0] == "2" && t[1] == "*" && t[2] == "3" && t[3] == "+4"
    ensures Run(Initial, t) == Running(Machine(Mul, [24.0]))
  {
    PushTwo();
    TimesThree();
    TimesPlusFour();
    StepThenRest(Machine(Mul, [6.0]), t[3..], Machine(Mul, [24.0]));
    StepThenRest(Machine(Mul, [2.0]), t[2..], Machine(Mul, [6.0]));
    StepThenRest(Machine(Add, [2.0]), t[1..], Machine(Mul, [2.0]));
    StepThenRest(Initial, t, Machine(Add, [2.0]));
    assert t[3..][1..] == [];
  }

  lemma TwoTimesThreePlusFour()
    ensures Evaluate("2*3+4") == Value(24.0)
  {
    ScanThreeTerms("2*3+4");
    RunThreeTerms(["2", "*", "3", "+4"]);
    assert Sum([24.0]) == 24.0;
  }

  // ---------------------------------------------------------------------------
  // "2--3" is 5: the first `-` is an operator, the second the sign of `-3`,
  // and the pending `-` negates -3.

  lemma ScanDoubleMinus(s: string)
    requires |s| == 4 && s[0] == '2' && s[1] == '-' && s[2] == '-' && s[3] == '3'
    ensures Scan(s) == ["2", "-", "-3"]
  {
    SignedDigitToken(s, 2);
    OperatorToken(s, 1);
    DigitToken(s, 0);
  }

  lemma RunDoubleMinus(t: seq<string>)
    requires |t| == 3 && t[0] == "2" && t[1] == "-" && t[2] == "-3"
    ensures Run(Initial, t) == Running(Machine(Sub, [2.0, 3.0]))
  {
    PushTwo();
    MinusMinusThree();
    StepThenRest(Machine(Sub, [2.0]), t[2..], Machine(Sub, [2.0, 3.0]));
    StepThenRest(Machine(Add, [2.0]), t[1..], Machine(Sub, [2.0]));
    StepThenRest(Initial, t, Machine(Add, [2.0]));
    assert t[2..][1..] == [];
  }

  lemma TwoMinusMinusThree()
    ensures Evaluate("2--3") == Value(5.0)
  {
    ScanDoubleMinus("2--3");
    RunDoubleMinus(["2", "-", "-3"]);
    assert Sum([2.0, 3.0]) == 5.0;
  }

  // ---------------------------------------------------------------------------
  // "2*3+4*5" is 120: `+4` is again a signed numeral, so every number is
  // folded into the one value on the stack.

  lemma ScanFiveTerms(s: string)
    requires |s| == 7 && s[0] == '2' && s[1] == '*' && s[2] == '3' && s[3] == '+'
    requires s[4] == '4' && s[5] == '*' && s[6] == '5'
    ensures Scan(s) == ["2", "*", "3", "+4", "*", "5"]
  {
    DigitToken(s, 6);
    OperatorToken(s, 5);
    SignedDigitToken(s, 3);
    DigitToken(s, 2);
    OperatorToken(s, 1);
    DigitToken(s, 0);
  }

  lemma RunFiveTerms(t: seq<string>)
    requires |t| == 6 && t[0] == "2" && t[1] == "*" && t[2] == "3" && t[3] == "+4"
    requires t[4] == "*" && t[5] == "5"
    ensures Run(Initial, t) == Running(Machine(Mul, [120.0]))
  {
    PushTwo();
    TimesThree();
    TimesPlusFour();
    TimesFive();
    StepThenRest(Machine(Mul, [24.0]), t[5..], Machine(Mul, [120.0]));
    StepThenRest(Machine(Mul, [24.0]), t[4..], Machine(Mul, [24.0]));
    StepThenRest(Machine(Mul, [6.0]), t[3..], Machine(Mul, [24.0]));
    StepThenRest(Machine(Mul, [2.0]), t[2..], Machine(Mul, [6.0]));
    StepThenRest(Machine(Add, [2.0]), t[1..], Machine(Mul, [2.0]));
    StepThenRest(Initial, t, Machine(Add, [2.0]));
    assert t[5..][1..] == [];
  }

  lemma TwoTimesThreePlusFourTimesFive()
    ensures Evaluate("2*3+4*5") == Value(120.0)
  {
    ScanFiveTerms("2*3+4*5");
    RunFiveTerms(["2", "*", "3", "+4", "*", "5"]);
    assert Sum([120.0]) == 120.0;
  }

  /** The digits after the point are read positionally: `1.25` is one and
      twenty-five hundredths. */
  lemma OnePointTwoFive()
    ensures ParseUnsigned("1.25") == Some(1.25)
  {
    var t := "1.25";
    assert DotIndex(t[2..]) == 2;
    assert DotIndex(t) == 1;
    assert t[..1] == "1" && t[2..] == "25";
    ReadPartsExact("1", "25");
    assert DigitsValue("25"[..1]) == 2;
    assert DigitsValue("25") == 25;
    assert Pow10(2) == 100;
  }
}
