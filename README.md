# Simple Calculator: a Dafny model of `calculateResult` and the keypad

The Android app has a single screen. It shows one line of text and a keypad.
When `=` is pressed, `calculateResult` evaluates the line:

1. A regular expression, `([-+]?[0-9]*\.?[0-9]+|[+\-*/])`, cuts the line into
   tokens.
2. One pass over the tokens keeps a pending operator `currentOp`, which starts
   at `+`, and a stack of numbers:
   - an operator token only replaces `currentOp`;
   - under `+` or `-` a number is pushed (negated under `-`);
   - under `*` or `/` the top of the stack is popped and combined with the
     number.
3. The result is the sum of the stack. The special outcomes are:
   - `""` when there are no tokens;
   - `"Hata"` ("error") when the stack is empty at a `*` or `/`;
   - `"0'a bölünemez"` ("cannot divide by 0") when dividing by zero.

This model has four parts:

- `numerals.dfy` (module `Numerals`): the character classes, and the value
  `toDoubleOrNull` gives a plain decimal numeral.
- `scanner.dfy` (module `Scanner`): the regular expression's `findAll`,
  written as an explicit left-to-right scanner. It is proved to take the
  longest numeral at each position. That is what the backtracking engine
  returns for this pattern.
- `evaluator.dfy` (module `Evaluator`): the reducer.
  - `Step`, `Apply` and `Run` specify it on values.
  - `CalculateResult` is the imperative loop with its mutable `currentOp` and
    `stack`, proved equal to `Evaluate`.
- `keypad.dfy` (module `CalculatorUI`): a `Keypad` class holding `input`,
  with the `onClick` rule.

`walkthroughs.dfy` (module `Walkthroughs`) reads one decimal numeral and
evaluates three inputs.

A sign directly before a digit belongs to the numeral, so it does not change
`currentOp`. As a result:

- `2*3+4` scans as `2`, `*`, `3`, `+4` and gives 24;
- `2--3` gives 5;
- `2*3+4*5` gives 120, not 26.

Standard precedence would give 26; the code gives 120, and the model
follows the code.

Numbers are exact reals, not IEEE doubles. The outcome is a datatype. The
keypad turns a number into text through a `format` parameter that stands
for `Double.toString`.

## Model

All source paths are under `app/src/main/java/com/dmrsoft/simplecalculator/`.

| member | source | states |
|---|---|---|
| Numerals.ParseNumeral | app/src/main/java/com/dmrsoft/simplecalculator/MainActivity.kt:101 | defines `toDoubleOrNull` on a token: an optional `+` or `-`, then digits with at most one point and at least one digit, else nothing; `-` negates |
| Numerals.NumeralsParse | app/src/main/java/com/dmrsoft/simplecalculator/MainActivity.kt:101 | every string in the numeral language of the pattern is read by `toDoubleOrNull`; a leading `-` negates the unsigned value and a leading `+` keeps it |
| Numerals.WholeNumeralValue | app/src/main/java/com/dmrsoft/simplecalculator/MainActivity.kt:101 | a numeral of digits only reads as the natural number those digits denote |
| Numerals.FractionExact | app/src/main/java/com/dmrsoft/simplecalculator/MainActivity.kt:101 | the digits after a point read positionally: `0.d1...dn` is the number `d1...dn` divided by ten `n` times |
| Numerals.PointNumeralValue | app/src/main/java/com/dmrsoft/simplecalculator/MainActivity.kt:101 | a numeral with a decimal point reads exactly as its whole digits' number plus its fractional digits' number over `10^(count of fractional digits)` |
| Numerals.FractionalNumeralValue | app/src/main/java/com/dmrsoft/simplecalculator/MainActivity.kt:101 | a numeral with a decimal point reads as a value at least its whole part and below the whole part plus one |
| Scanner.NumeralLength | app/src/main/java/com/dmrsoft/simplecalculator/MainActivity.kt:90 | defines the length of the numeral alternative's match at a position (0 when there is none); it stays within the input |
| Scanner.ScanFrom | app/src/main/java/com/dmrsoft/simplecalculator/MainActivity.kt:90 | defines `findAll` from a position: the longest numeral there if any, else a single operator character, else skip one character |
| Scanner.Scan | app/src/main/java/com/dmrsoft/simplecalculator/MainActivity.kt:90 | defines the token list as `findAll` from the start of the input |
| Scanner.NumeralLengthIsLongestMatch | app/src/main/java/com/dmrsoft/simplecalculator/MainActivity.kt:90 | the numeral taken at a position is in the language `[-+]?[0-9]*\.?[0-9]+`, and no longer prefix from there is; with length 0, no prefix at all is |
| Scanner.SignIsOperatorIff | app/src/main/java/com/dmrsoft/simplecalculator/MainActivity.kt:90 | a `+` or `-` becomes an operator token exactly when neither a digit nor a point and a digit follow it; otherwise it starts the numeral token |
| Scanner.ScanWellFormed | app/src/main/java/com/dmrsoft/simplecalculator/MainActivity.kt:90 | every token is a single operator character or an optionally signed numeral |
| Scanner.ScanAlphabet | app/src/main/java/com/dmrsoft/simplecalculator/MainActivity.kt:90 | no character outside `0-9 . + - * /` appears in a token, and every numeral token ends in a digit |
| Scanner.ScanEmptyIff | app/src/main/java/com/dmrsoft/simplecalculator/MainActivity.kt:90 | there are no tokens exactly when the input holds no digit and no operator character |
| Scanner.ScanKeepsDigitsAndOperators | app/src/main/java/com/dmrsoft/simplecalculator/MainActivity.kt:90 | the tokens, joined, hold every digit and operator character of the input, in order; only points and other characters can be dropped |
| Evaluator.Step | app/src/main/java/com/dmrsoft/simplecalculator/MainActivity.kt:98-101 | defines one token's effect: an operator token replaces `currentOp`; another token is read by `toDoubleOrNull`, stops with `"Hata"` when unreadable, and is otherwise applied |
| Evaluator.Apply | app/src/main/java/com/dmrsoft/simplecalculator/MainActivity.kt:102-114 | defines the `when (currentOp)` branch: push, push the negation, or pop the top (`"Hata"` if none), test the divisor for zero, and push the product or quotient |
| Evaluator.Run | app/src/main/java/com/dmrsoft/simplecalculator/MainActivity.kt:97-117 | defines the loop: the tokens in order, stopping at the first early return |
| Evaluator.Evaluate | app/src/main/java/com/dmrsoft/simplecalculator/MainActivity.kt:88-123 | defines `calculateResult`: `""` with no tokens, the stack's sum after the loop, `"Hata"` or `"0'a bölünemez"` on an early return |
| Evaluator.CalculateResult | app/src/main/java/com/dmrsoft/simplecalculator/MainActivity.kt:88-123 | the loop over the tokens, with `currentOp` starting at `+`, the early returns and the final sum, gives exactly `Evaluate` of the input |
| Evaluator.ApplyNumber | app/src/main/java/com/dmrsoft/simplecalculator/MainActivity.kt:102-114 | the `when (currentOp)` branch for one number does what `Apply` specifies and keeps the pending operator |
| Evaluator.OperatorStep | app/src/main/java/com/dmrsoft/simplecalculator/MainActivity.kt:98-99 | an operator token is one of `+ - * /`; it replaces the pending operator and leaves the stack unchanged |
| Evaluator.OperatorsKeepLast | app/src/main/java/com/dmrsoft/simplecalculator/MainActivity.kt:95-99 | a row of operator tokens leaves the stack unchanged; only the last one stays pending |
| Evaluator.PushStep | app/src/main/java/com/dmrsoft/simplecalculator/MainActivity.kt:103-104 | under `+` or `-`, a number grows the stack by exactly one: the old entries stay and the new top is the number, negated under `-` |
| Evaluator.MulStep | app/src/main/java/com/dmrsoft/simplecalculator/MainActivity.kt:105-108 | under `*`, a number fails exactly when the stack is empty; otherwise the length and the lower entries stay and the top becomes top times number |
| Evaluator.DivStep | app/src/main/java/com/dmrsoft/simplecalculator/MainActivity.kt:109-113 | under `/`: an empty stack fails even for divisor 0; a zero divisor on a non-empty stack is exactly the zero-divisor failure; otherwise the top becomes top divided by number |
| Evaluator.ScannedNeverBadNumber | app/src/main/java/com/dmrsoft/simplecalculator/MainActivity.kt:90-101 | the `?: return "Hata"` after `toDoubleOrNull` cannot fire on scanned tokens |
| Evaluator.NoUnderflowOnceStarted | app/src/main/java/com/dmrsoft/simplecalculator/MainActivity.kt:102-112 | once the stack holds a number, no later token empties it, so no later `*` or `/` returns `"Hata"` |
| Evaluator.HataIff | app/src/main/java/com/dmrsoft/simplecalculator/MainActivity.kt:101-110 | the result is `"Hata"` exactly when `*` or `/` is pending as the first number is read |
| Evaluator.BlankIff | app/src/main/java/com/dmrsoft/simplecalculator/MainActivity.kt:90-92 | the result is `""` exactly when the input holds no digit and no operator character |
| Evaluator.DivideByZeroNeedsZero | app/src/main/java/com/dmrsoft/simplecalculator/MainActivity.kt:109-111 | `"0'a bölünemez"` comes out only if some scanned number is zero |
| CalculatorUI.Show | app/src/main/java/com/dmrsoft/simplecalculator/MainActivity.kt:92-119 | defines the text of an outcome: `""`, the formatted sum, `"Hata"`, or `"0'a bölünemez"` |
| CalculatorUI.Keypad.constructor | app/src/main/java/com/dmrsoft/simplecalculator/MainActivity.kt:35 | the line starts empty |
| CalculatorUI.Keypad.Press | app/src/main/java/com/dmrsoft/simplecalculator/MainActivity.kt:69-74 | `C` empties the line; `=` replaces it with the shown result of evaluating it; `DEL` drops exactly the last character, or does nothing on an empty line; any other label is appended |
| CalculatorUI.TypeThenDelete | app/src/main/java/com/dmrsoft/simplecalculator/MainActivity.kt:72-73 | typing one non-command character and then `DEL` restores the line |
| CalculatorUI.ClearThenEquals | app/src/main/java/com/dmrsoft/simplecalculator/MainActivity.kt:70-71 | `C` then `=` leaves the line empty, because an empty line has no tokens |
| Walkthroughs.OnePointTwoFive | app/src/main/java/com/dmrsoft/simplecalculator/MainActivity.kt:101 | `1.25` reads as 1.25 |
| Walkthroughs.TwoTimesThreePlusFour | app/src/main/java/com/dmrsoft/simplecalculator/MainActivity.kt:90-108 | `2*3+4` evaluates to 24, because `+4` is one numeral and `*` stays pending |
| Walkthroughs.TwoMinusMinusThree | app/src/main/java/com/dmrsoft/simplecalculator/MainActivity.kt:90-104 | `2--3` evaluates to 5 |
| Walkthroughs.TwoTimesThreePlusFourTimesFive | app/src/main/java/com/dmrsoft/simplecalculator/MainActivity.kt:90-108 | `2*3+4*5` evaluates to 120 |

## Left out

- IEEE `Double` arithmetic: rounding, overflow to infinity, NaN and signed zero. Values are exact reals, so `Times` and `Quotient` are exact. A numeral too small for a double reads as non-zero here, although the source would read it as `0.0` and then report a zero divisor.
- `Double.toString` (the `"5.0"` form of the result). The keypad takes it as the parameter `format`.
- `toDoubleOrNull` on forms the pattern can never produce (exponents, `NaN`, `Infinity`, hexadecimal, surrounding whitespace, type suffixes). Only the optionally signed decimal forms are modelled.
- The `Regex` library itself. It is replaced by the explicit scanner, and `Scanner.NumeralLengthIsLongestMatch` relates the two.
- The `try`/`catch` around the evaluation. The model is total, so nothing reaches a handler.
- The Compose UI: layout, theming, `onCreate`, the preview, and the recomposition behaviour of `mutableStateOf`. Only the update rule for `input` is kept.
- The stack: `ApplyNumber` builds a new sequence in place of the source's in-place `add` and `removeLastOrNull` on a mutable list. No other code can see that list, so aliasing does not arise.
- CalculatorUI.Keypad.Press: `=` is stated through `Evaluate` and `Show`. The text of a number depends on the unmodelled `format`.
