/** The reducer of `calculateResult`: one pass over the tokens with a
    pending-operator register that starts at `+` and a stack of values whose
    sum is the result. `*` and `/` fold into the value on top of the stack;
    a sign absorbed into a numeral by the scanner does not change the pending
    operator. */
module Evaluator {
  import opened Numerals
  import opened Scanner

  /** The pending operator, `currentOp`. */
  datatype Op = Add | Sub | Mul | Div

  /** What `calculateResult` shows: `""`, a number, `"Hata"` or
      `"0'a bölünemez"`. */
  datatype Outcome = Blank | Value(v: real) | Hata | DivideByZero

  /** Why a run stops early. A bad number and a stack underflow both show as
      `"Hata"`. */
  datatype Failure = BadNumber | Underflow | ZeroDivisor

  datatype Machine = Machine(op: Op, stack: seq<real>)

  datatype Status = Running(m: Machine) | Halted(why: Failure)

  const Initial: Machine := Machine(Add, [])

  function OperatorOf(token: string): Option<Op> {
    if token == "+" then Some(Add)
    else if token == "-" then Some(Sub)
    else if token == "*" then Some(Mul)
    else if token == "/" then Some(Div)
    else None
  }

  /** Multiplication of two values; exact, where the source multiplies
      doubles. */
  function Times(a: real, b: real): real { a * b }

  /** Division of two values, defined only for a non-zero divisor; exact,
      where the source divides doubles. */
  function Quotient(a: real, b: real): real
    requires b != 0.0
  {
    a / b
  }

  function Sum(s: seq<real>): real {
    if s == [] then 0.0 else s[0] + Sum(s[1..])
  }

  /** One token. An operator only replaces the pending operator; anything
      else must read as a number. */
  function Step(m: Machine, token: string): Status {
    match OperatorOf(token)
    case Some(op) => Running(m.(op := op))
    case None =>
      match ParseNumeral(token)
      case None => Halted(BadNumber)
      case Some(number) => Apply(m, number)
  }

  /** A number under the pending operator: pushed (negated under `-`), or
      folded into the popped top under `*` and `/`; the pop comes before the
      zero test. */
  function Apply(m: Machine, number: real): Status {
    match m.op
    case Add => Running(m.(stack := m.stack + [number]))
    case Sub => Running(m.(stack := m.stack + [-number]))
    case Mul =>
      if m.stack == [] then Halted(Underflow)
      else
        var last := m.stack[|m.stack| - 1];
        Running(m.(stack := m.stack[..|m.stack| - 1] + [Times(last, number)]))
    case Div =>
      if m.stack == [] then Halted(Underflow)
      else
        var last := m.stack[|m.stack| - 1];
        if number == 0.0 then Halted(ZeroDivisor)
        else Running(m.(stack := m.stack[..|m.stack| - 1] + [Quotient(last, number)]))
  }

  /** The tokens, one after the other, stopping at the first failure. */
  function Run(m: Machine, tokens: seq<string>): Status
    decreases |tokens|
  {
    if tokens == [] then Running(m)
    else
      match Step(m, tokens[0])
      case Running(m') => Run(m', tokens[1..])
      case Halted(why) => Halted(why)
  }

  /** `calculateResult` with its outcome as a datatype. */
  function Evaluate(expression: string): Outcome {
    var tokens := Scan(expression);
    if tokens == [] then Blank
    else
      match Run(Initial, tokens)
      case Running(m) => Value(Sum(m.stack))
      case Halted(BadNumber) => Hata
      case Halted(Underflow) => Hata
      case Halted(ZeroDivisor) => DivideByZero
  }

  /** `calculateResult`: the scan, the loop over the tokens with its mutable
      `currentOp` and `stack`, and the sum. */
  method CalculateResult(expression: string) returns (result: Outcome)
    ensures result == Evaluate(expression)
  {
    var tokens := Scan(expression);
    if |tokens| == 0 {
      return Blank;
    }
    var stack: seq<real> := [];
    var currentOp := Add;
    for i := 0 to |tokens|
      invariant Run(Initial, tokens[..i]) == Running(Machine(currentOp, stack))
    {
      var token := tokens[i];
      RunPrefix(Initial, tokens, i);
      var op := OperatorOf(token);
      if op.Some? {
        currentOp := op.value;
      } else {
        var number := ParseNumeral(token);
        if number.None? {
          HaltedPrefix(Initial, tokens, i + 1);
          return Hata;
        }
        var status := ApplyNumber(currentOp, stack, number.value);
        if status.Halted? {
          HaltedPrefix(Initial, tokens, i + 1);
          return if status.why == ZeroDivisor then DivideByZero else Hata;
        }
        stack := status.m.stack;
      }
    }
    assert tokens[..|tokens|] == tokens;
    result := Value(Sum(stack));
  }

  /** The `when (currentOp)` branch for one number: push it, push its
      negation, or pop the top and push the product or the quotient. It is
      a method of its own to keep the proof of the loop body small. */
  method ApplyNumber(currentOp: Op, stack: seq<real>, number: real) returns (status: Status)
    ensures status == Apply(Machine(currentOp, stack), number)
    ensures status.Running? ==> status.m.op == currentOp
  {
    match currentOp
    case Add =>
      return Running(Machine(currentOp, stack + [number]));
    case Sub =>
      return Running(Machine(currentOp, stack + [-number]));
    case Mul =>
      if |stack| == 0 {
        return Halted(Underflow);
      }
      var last := stack[|stack| - 1];
      var rest := stack[..|stack| - 1];
      return Running(Machine(currentOp, rest + [Times(last, number)]));
    case Div =>
      if |stack| == 0 {
        return Halted(Underflow);
      }
      var last := stack[|stack| - 1];
      var rest := stack[..|stack| - 1];
      if number == 0.0 {
        return Halted(ZeroDivisor);
      }
      return Running(Machine(currentOp, rest + [Quotient(last, number)]));
  }

  // ---------------------------------------------------------------------------
  // One token.

  /** An operator token overwrites the pending operator and leaves the stack
      as it was. */
  lemma OperatorStep(m: Machine, token: string)
    requires OperatorOf(token).Some?
    ensures token in ["+", "-", "*", "/"]
    ensures Step(m, token) == Running(Machine(OperatorOf(token).value, m.stack))
  {
  }

  /** A number read under `+` or `-` is pushed, negated under `-`: the stack
      grows by one and the entries below are untouched. */
  lemma PushStep(m: Machine, token: string)
    requires OperatorOf(token).None? && ParseNumeral(token).Some? && m.op in {Add, Sub}
    ensures Step(m, token).Running? && Step(m, token).m.op == m.op
    ensures |Step(m, token).m.stack| == |m.stack| + 1
    ensures Step(m, token).m.stack[..|m.stack|] == m.stack
    ensures Step(m, token).m.stack[|m.stack|] ==
              if m.op == Add then ParseNumeral(token).value else -ParseNumeral(token).value
  {
    var s := Step(m, token).m.stack;
    assert s[..|m.stack|] == m.stack;
  }

  /** A number read under `*` underflows on an empty stack and otherwise
      multiplies the top entry, keeping the length and the entries below. */
  lemma MulStep(m: Machine, token: string)
    requires OperatorOf(token).None? && ParseNumeral(token).Some? && m.op == Mul
    ensures m.stack == [] <==> Step(m, token) == Halted(Underflow)
    ensures m.stack != [] ==>
              var n, s := |m.stack|, Step(m, token).m.stack;
              Step(m, token).Running? && Step(m, token).m.op == Mul && |s| == n &&
              s[..n - 1] == m.stack[..n - 1] && s[n - 1] == Times(m.stack[n - 1], ParseNumeral(token).value)
  {
    if m.stack != [] {
      var n, s := |m.stack|, Step(m, token).m.stack;
      assert s[..n - 1] == m.stack[..n - 1];
    }
  }

  /** A number read under `/` underflows on an empty stack even when it is
      zero, stops with a zero divisor on a non-empty stack, and otherwise
      divides the top entry, keeping the length and the entries below. */
  lemma DivStep(m: Machine, token: string)
    requires OperatorOf(token).None? && ParseNumeral(token).Some? && m.op == Div
    ensures m.stack == [] <==> Step(m, token) == Halted(Underflow)
    ensures m.stack != [] && ParseNumeral(token).value == 0.0 <==> Step(m, token) == Halted(ZeroDivisor)
    ensures m.stack != [] && ParseNumeral(token).value != 0.0 ==>
              var n, s := |m.stack|, Step(m, token).m.stack;
              Step(m, token).Running? && Step(m, token).m.op == Div && |s| == n &&
              s[..n - 1] == m.stack[..n - 1] && s[n - 1] == Quotient(m.stack[n - 1], ParseNumeral(token).value)
  {
    if m.stack != [] && ParseNumeral(token).value != 0.0 {
      var n, s := |m.stack|, Step(m, token).m.stack;
      assert s[..n - 1] == m.stack[..n - 1];
    }
  }

  // ---------------------------------------------------------------------------
  // Running a sequence of tokens.

  /** Running `a + b` is running `a`, then `b` from where `a` stopped. */
  lemma {:induction false} RunAppend(m: Machine, a: seq<string>, b: seq<string>)
    ensures Run(m, a + b) == match Run(m, a)
                             case Running(m') => Run(m', b)
                             case Halted(why) => Halted(why)
    decreases |a|
  {
    if a == [] {
      assert a + b == b;
    } else {
      assert (a + b)[0] == a[0];
      assert (a + b)[1..] == a[1..] + b;
      match Step(m, a[0])
      case Running(m') => RunAppend(m', a[1..], b);
      case Halted(_) =>
    }
  }

  lemma RunSnoc(m: Machine, a: seq<string>, t: string)
    ensures Run(m, a + [t]) == match Run(m, a)
                               case Running(m') => Step(m', t)
                               case Halted(why) => Halted(why)
  {
    RunAppend(m, a, [t]);
    match Run(m, a)
    case Running(m') =>
      assert [t][1..] == [];
    case Halted(_) =>
  }

  /** One more token takes the run one step further. */
  lemma RunPrefix(m: Machine, tokens: seq<string>, i: nat)
    requires i < |tokens|
    ensures Run(m, tokens[..i + 1]) == match Run(m, tokens[..i])
                                       case Running(m') => Step(m', tokens[i])
                                       case Halted(why) => Halted(why)
  {
    RunSnoc(m, tokens[..i], tokens[i]);
    assert tokens[..i + 1] == tokens[..i] + [tokens[i]];
  }

  /** A failure on a prefix is the failure of the whole run. */
  lemma HaltedPrefix(m: Machine, tokens: seq<string>, i: nat)
    requires i <= |tokens| && Run(m, tokens[..i]).Halted?
    ensures Run(m, tokens) == Run(m, tokens[..i])
  {
    RunAppend(m, tokens[..i], tokens[i..]);
    assert tokens[..i] + tokens[i..] == tokens;
  }

  /** A row of operator tokens leaves the stack alone and keeps only the last
      operator: `2++3` and `2+3` agree, and after `*` then `/` the pending
      operator is `/`. */
  lemma {:induction false} OperatorsKeepLast(m: Machine, ops: seq<string>)
    requires |ops| > 0 && forall k :: 0 <= k < |ops| ==> OperatorOf(ops[k]).Some?
    ensures Run(m, ops) == Running(Machine(OperatorOf(ops[|ops| - 1]).value, m.stack))
    decreases |ops|
  {
    var m' := Machine(OperatorOf(ops[0]).value, m.stack);
    assert Step(m, ops[0]) == Running(m');
    if |ops| > 1 {
      OperatorsKeepLast(m', ops[1..]);
      assert ops[1..][|ops[1..]| - 1] == ops[|ops| - 1];
    }
  }

  // ---------------------------------------------------------------------------
  // Which outcomes can happen.

  /** An operator token of the scanner is one of the four operators. */
  lemma OperatorTokenIsOperator(t: string)
    requires IsOperatorToken(t)
    ensures OperatorOf(t).Some?
  {
    assert t == [t[0]];
  }

  lemma {:induction false} WellFormedNeverBadNumber(m: Machine, tokens: seq<string>)
    requires forall t :: t in tokens ==> IsOperatorToken(t) || IsNumeral(t)
    ensures Run(m, tokens) != Halted(BadNumber)
    decreases |tokens|
  {
    if tokens != [] {
      var t := tokens[0];
      if IsOperatorToken(t) {
        OperatorTokenIsOperator(t);
      } else {
        NumeralsParse(t);
      }
      match Step(m, t)
      case Running(m') =>
        assert forall u :: u in tokens[1..] ==> u in tokens;
        WellFormedNeverBadNumber(m', tokens[1..]);
      case Halted(_) =>
    }
  }

  /** The `?: return "Hata"` after `toDoubleOrNull` is unreachable: every
      token the scanner yields is an operator or a number that parses. */
  lemma ScannedNeverBadNumber(expression: string)
    ensures Run(Initial, Scan(expression)) != Halted(BadNumber)
  {
    ScanWellFormed(expression);
    WellFormedNeverBadNumber(Initial, Scan(expression));
  }

  /** The stack never shrinks, so once a number is on it no later `*` or `/`
      underflows. */
  lemma {:induction false} NoUnderflowOnceStarted(m: Machine, tokens: seq<string>)
    requires m.stack != []
    ensures Run(m, tokens) != Halted(Underflow)
    decreases |tokens|
  {
    if tokens != [] {
      match Step(m, tokens[0])
      case Running(m') =>
        assert |m'.stack| >= |m.stack|;
        NoUnderflowOnceStarted(m', tokens[1..]);
      case Halted(_) =>
    }
  }

  /** The operator pending when the first number is read, if there is one. */
  function OpAtFirstNumber(op: Op, tokens: seq<string>): Option<Op>
    decreases |tokens|
  {
    if tokens == [] then None
    else match OperatorOf(tokens[0])
      case Some(op') => OpAtFirstNumber(op', tokens[1..])
      case None => Some(op)
  }

  lemma {:induction false} UnderflowIffFromEmpty(m: Machine, tokens: seq<string>)
    requires m.stack == []
    requires forall t :: t in tokens ==> IsOperatorToken(t) || IsNumeral(t)
    ensures Run(m, tokens) == Halted(Underflow) <==>
              OpAtFirstNumber(m.op, tokens) in {Some(Mul), Some(Div)}
    decreases |tokens|
  {
    if tokens != [] {
      var t := tokens[0];
      assert forall u :: u in tokens[1..] ==> u in tokens;
      if OperatorOf(t).Some? {
        UnderflowIffFromEmpty(Machine(OperatorOf(t).value, m.stack), tokens[1..]);
      } else {
        assert !IsOperatorToken(t) by {
          if IsOperatorToken(t) { OperatorTokenIsOperator(t); }
        }
        NumeralsParse(t);
        match Step(m, t)
        case Running(m') =>
          NoUnderflowOnceStarted(m', tokens[1..]);
        case Halted(_) =>
      }
    }
  }

  /** `"Hata"` comes out exactly when the first number is read while `*` or
      `/` is pending, as in `*5` or `-/2`: only then is there nothing to pop. */
  lemma HataIff(expression: string)
    ensures Evaluate(expression) == Hata <==>
              OpAtFirstNumber(Add, Scan(expression)) in {Some(Mul), Some(Div)}
  {
    ScanWellFormed(expression);
    ScannedNeverBadNumber(expression);
    UnderflowIffFromEmpty(Initial, Scan(expression));
  }

  /** `""` comes out exactly when the input holds no digit and no operator
      character; then nothing is computed. */
  lemma BlankIff(expression: string)
    ensures Evaluate(expression) == Blank <==>
              forall k :: 0 <= k < |expression| ==> !IsDigit(expression[k]) && !IsOperator(expression[k])
  {
    ScanEmptyIff(expression);
  }

  lemma {:induction false} ZeroDivisorNeedsZero(m: Machine, tokens: seq<string>)
    requires Run(m, tokens) == Halted(ZeroDivisor)
    ensures exists k :: 0 <= k < |tokens| && ParseNumeral(tokens[k]) == Some(0.0)
    decreases |tokens|
  {
    match Step(m, tokens[0])
    case Running(m') =>
      ZeroDivisorNeedsZero(m', tokens[1..]);
      var k :| 0 <= k < |tokens[1..]| && ParseNumeral(tokens[1..][k]) == Some(0.0);
      assert tokens[1..][k] == tokens[k + 1];
    case Halted(_) =>
      assert OperatorOf(tokens[0]).None?;
      assert ParseNumeral(tokens[0]) == Some(0.0);
  }

  /** `"0'a bölünemez"` comes out only when some scanned number is zero (and
      it was read under `/` with a value on the stack). */
  lemma DivideByZeroNeedsZero(expression: string)
    requires Evaluate(expression) == DivideByZero
    ensures exists k :: 0 <= k < |Scan(expression)| && ParseNumeral(Scan(expression)[k]) == Some(0.0)
  {
    var tokens := Scan(expression);
    assert Run(Initial, tokens) == Halted(ZeroDivisor);
    ZeroDivisorNeedsZero(Initial, tokens);
  }
}
