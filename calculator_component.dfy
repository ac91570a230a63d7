/**
 * The `Calculator` component: its four state fields and its seven event
 * handlers. Each handler reads the fields once, at the start of the event,
 * into locals (the values the component's closures captured for this
 * render) and then performs the source's setter calls as field writes in
 * the same order, so the last write to a field wins. Each method is proved
 * to leave exactly the state its transition function in `CalculatorState`
 * describes.
 */
module CalculatorComponent {
  import opened Strings
  import opened Numbers
  import S = CalculatorState

  class Calculator {
    var currentOperand: string
    var previousOperand: string
    var operation: string
    var shouldResetScreen: bool
    /** The host's number conversions. */
    const lib: NumberLib

    /** The four fields as one state value. */
    function Snapshot(): S.State
      reads this
    {
      S.State(currentOperand, previousOperand, operation, shouldResetScreen)
    }

    constructor (lib: NumberLib)
      ensures Snapshot() == S.Initial
      ensures this.lib == lib
    {
      currentOperand := "0";
      previousOperand := "";
      operation := "";
      shouldResetScreen := false;
      this.lib := lib;
    }

    method AppendDigit(digit: char)
      modifies this
      ensures Snapshot() == S.AppendDigit(old(Snapshot()), digit)
    {
      var current, reset := currentOperand, shouldResetScreen;
      if current == "0" || reset {
        currentOperand := [digit];
        shouldResetScreen := false;
      } else if |current| < S.MaxEntryLength {
        currentOperand := current + [digit];
      }
    }

    method AppendDecimal()
      modifies this
      ensures Snapshot() == S.AppendDecimal(old(Snapshot()))
    {
      var current, reset := currentOperand, shouldResetScreen;
      if reset {
        currentOperand := "0.";
        shouldResetScreen := false;
        return;
      }
      if '.' !in current {
        currentOperand := current + ".";
      }
    }

    method ChooseOperation(op: string)
      modifies this
      ensures Snapshot() == S.ChooseOperation(lib, old(Snapshot()), op)
    {
      var current, previous := currentOperand, previousOperand;
      if current == "0" && previous == "" {
        return;
      }
      if previous != "" {
        // No setter has run yet in this event, so the fields still hold the
        // values calculateResult's closure captured.
        CalculateResult();
      }
      operation := op;
      previousOperand := current + " " + op;
      shouldResetScreen := true;
    }

    method CalculateResult()
      modifies this
      ensures Snapshot() == S.CalculateResult(lib, old(Snapshot()))
    {
      var current, previous, op, reset := currentOperand, previousOperand, operation, shouldResetScreen;
      if previous == "" || reset {
        return;
      }
      var prev := ParseFloat(lib, FirstField(previous, ' '));
      var cur := ParseFloat(lib, current);
      var result: string;
      if op == "+" || op == "-" || op == "×" {
        result := NumText(lib, S.Evaluate(op, prev, cur));
      } else if op == "÷" {
        if cur == Finite(0.0) {
          result := "Error";
        } else {
          result := NumText(lib, S.Evaluate(op, prev, cur));
        }
      } else {
        return;
      }
      currentOperand := result;
      previousOperand := "";
      operation := "";
      shouldResetScreen := true;
    }

    method Clear()
      modifies this
      ensures Snapshot() == S.Clear(old(Snapshot()))
    {
      currentOperand := "0";
      previousOperand := "";
      operation := "";
      shouldResetScreen := false;
    }

    method DeleteDigit()
      modifies this
      ensures Snapshot() == S.DeleteDigit(old(Snapshot()))
    {
      var current, reset := currentOperand, shouldResetScreen;
      if reset {
        currentOperand := "0";
        shouldResetScreen := false;
      } else if |current| == 1 {
        currentOperand := "0";
      } else {
        currentOperand := S.DropLast(current);
      }
    }

    method ToggleSign()
      modifies this
      ensures Snapshot() == S.ToggleSign(old(Snapshot()))
    {
      var current := currentOperand;
      if current == "0" {
        return;
      }
      currentOperand := if |current| > 0 && current[0] == '-' then current[1..] else "-" + current;
    }
  }
}
