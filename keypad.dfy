/** The keypad of the calculator screen: one editable line of text and the
    rule each button applies to it. */
module CalculatorUI {
  import opened Evaluator

  /** The text `calculateResult` returns for an outcome. `format` stands for
      the platform's rendering of a double (`Double.toString`), which is not
      modelled. */
  function Show(o: Outcome, format: real -> string): string {
    match o
    case Blank => ""
    case Value(v) => format(v)
    case Hata => "Hata"
    case DivideByZero => "0'a bölünemez"
  }

  predicate IsCommand(key: string) {
    key == "C" || key == "=" || key == "DEL"
  }

  class Keypad {
    /** The text on the display, which is also the expression. */
    var input: string

    constructor ()
      ensures input == ""
    {
      input := "";
    }

    /** A button press: `C` clears the line, `=` replaces it with the result
        of evaluating it, `DEL` drops its last character when there is one,
        and any other label is appended. */
    method Press(key: string, format: real -> string)
      modifies this
      ensures key == "C" ==> input == ""
      ensures key == "=" ==> input == Show(Evaluate(old(input)), format)
      ensures key == "DEL" && old(input) == [] ==> input == []
      ensures key == "DEL" && old(input) != [] ==>
                |input| == |old(input)| - 1 && input + [old(input)[|old(input)| - 1]] == old(input)
      ensures !IsCommand(key) ==> input == old(input) + key
    {
      if key == "C" {
        input := "";
      } else if key == "=" {
        var result := CalculateResult(input);
        input := Show(result, format);
      } else if key == "DEL" {
        if |input| > 0 {
          input := input[..|input| - 1];
        }
      } else {
        input := input + key;
      }
    }
  }

  /** Typing one character and then `DEL` leaves the line as it was. */
  method TypeThenDelete(k: Keypad, c: char, format: real -> string)
    requires !IsCommand([c])
    modifies k
    ensures k.input == old(k.input)
  {
    k.Press([c], format);
    ghost var typed := k.input;
    k.Press("DEL", format);
    assert k.input == (k.input + [typed[|typed| - 1]])[..|typed| - 1] == typed[..|typed| - 1];
    assert typed[..|typed| - 1] == old(k.input);
  }

  /** After `C`, `=` shows nothing: an empty line has no tokens. */
  method ClearThenEquals(k: Keypad, format: real -> string)
    modifies k
    ensures k.input == ""
  {
    k.Press("C", format);
    k.Press("=", format);
    BlankIff("");
  }
}
