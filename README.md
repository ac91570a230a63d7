# EasyCalc calculator engine in Dafny

This project models the state machine of EasyCalc's `Calculator` React component:
- the four state fields `currentOperand`, `previousOperand`, `operation` and `shouldResetScreen`;
- the seven event handlers `appendDigit`, `appendDecimal`, `chooseOperation`, `calculateResult`, `clear`, `deleteDigit` and `toggleSign`.

It also proves what those handlers promise.

The model has two layers:

- `CalculatorState` (calculator_state.dfy) gives one pure transition function per handler over a `State` value. Each function reads the state as it was when the event started. Its result is the state after the handler's setter calls, applied in program order, with the last write to a field winning. `ChooseOperation` therefore reproduces the chained call: `calculateResult` writes the result, an empty label, no operation and the reset flag. `chooseOperation` then overwrites the label with the operand it captured before the call. Only the chained result text survives.
- `CalculatorComponent.Calculator` (calculator_component.dfy) is a class with the four fields. It has one method per handler. Each method copies the fields into locals on entry and writes the fields in the source's order. Each method is proved to leave exactly the state that its transition function gives.

Numbers (numbers.dfy) are exact reals or NaN:
- `parseFloat` is exact on decimal entry text: an optional `-`, then digits and at most one `.`.
- `parseFloat` on any other text (formatted results, `"Error"`, `"NaN"`) is a parameter of the model.
- `Number.prototype.toString` and `toExponential(6)` are parameters too, bundled in `NumberLib`.
- The display policy of lines 91-107 is modelled exactly over those parameters: the 12-character test, the 999999999 and 0.000001 thresholds, and `parseFloat(toFixed(10))` as rounding to ten decimals with ties away from zero.
- `split(' ')[0]` is modelled by `Strings.FirstField`.

calculator_properties.dfy holds these lemmas:
- digit entry;
- idempotence of `.` and of `=`;
- delete/append round trips;
- the fixed points of delete, and that repeated deletes reach `"0"`;
- the exact condition under which `toggleSign` undoes itself;
- the label recovering the operand;
- division by zero;
- an invariant kept by every keypad event;
- two concrete key sequences.

Where the code behaves differently from the calculator's intended design, the model follows the code:
- **Chained operators.** `3 + 4 + 2 =` shows 6, not 9. The second `+` shows 7 but labels the pending calculation `"4 +"`, using the operand captured before the chained call (`ChainedOperatorsUseStaleOperand`).
- **Negative results.** The exponential test compares the signed result with 0.000001. So every negative result whose plain text exceeds 12 characters is shown in exponential notation, whatever its magnitude (`Numbers.Format`).
- **Entry length.** The 12-character limit applies only to digits. A point and a minus sign can bring an operand being edited to 14 characters (`EntryLength`).
- **Empty operand.** The sequence `5`, `+/-`, delete, `+/-` leaves the operand empty. Delete leaves the empty operand unchanged, so repeated deletes reach `"0"` only from a non-empty operand (`DeleteDigitFixedPoints`, `DeletesReachZero`).
- **Sign toggling.** `toggleSign` undoes itself for `"0"`, which it leaves alone. It fails for `"-0"`, which becomes `"0"` (`ToggleSignInvolution`).

## Model

| member | source | states |
|---|---|---|
| `Strings.FirstField` | main_container_for_easycalc/src/components/Calculator/Calculator.js:65 | `split(' ')[0]`: the result is a prefix without the separator, followed in the input by the separator or the end |
| `Strings.FirstFieldOfJoin` | main_container_for_easycalc/src/components/Calculator/Calculator.js:55 | splitting `t + " " + op` at its first space gives back `t` when `t` has no space |
| `Numbers.DigitsValue` | main_container_for_easycalc/src/components/Calculator/Calculator.js:65-66 | the value of a digit string is below 10^length and is zero exactly when every digit is `0` |
| `Numbers.ParseDecimal` | main_container_for_easycalc/src/components/Calculator/Calculator.js:65-66 | `parseFloat` on entry text: NaN exactly when there is no digit (`""`, `"-"`, `"."`, `"-."`), non-negative without a minus sign and non-positive with one, and a plain digit string gives its decimal value |
| `Numbers.ParseFloat` | main_container_for_easycalc/src/components/Calculator/Calculator.js:65-66 | on entry text the result is zero exactly when there is a digit and every digit is `0`, a digit string gives its value, and any other text goes to the host's `parseFloat` |
| `Numbers.ParseDecimalIsZero` | main_container_for_easycalc/src/components/Calculator/Calculator.js:80 | the zero test `current === 0`: a decimal text parses to zero exactly when it has a digit and all its digits are `0` |
| `Numbers.RoundTo10` | main_container_for_easycalc/src/components/Calculator/Calculator.js:102 | `parseFloat(toFixed(10))` is within half of 10^-10 of the value, strictly closer on the side toward zero (ties round away from zero), has at most ten decimals and keeps the sign |
| `Numbers.Format` | main_container_for_easycalc/src/components/Calculator/Calculator.js:91-107 | short texts are kept; long ones go exponential above 999999999, for every negative value and below 0.000001; otherwise they are the text of a value within half of 10^-10 of the result with at most ten decimals |
| `CalculatorState.AppendDigit` | main_container_for_easycalc/src/components/Calculator/Calculator.js:19-25 | never touches label or operation and always clears the flag; a fresh operand (`"0"` or after a reset) becomes the digit; an operand being edited of 12 or more characters is left alone; a shorter one gets the digit appended |
| `CalculatorState.AppendDecimal` | main_container_for_easycalc/src/components/Calculator/Calculator.js:31-41 | the operand always contains a point afterwards: `"0."` after a reset, else the old operand with at most a point appended |
| `CalculatorState.Evaluate` | main_container_for_easycalc/src/components/Calculator/Calculator.js:69-85 | the result is a number exactly when both operands are numbers (NaN propagates) |
| `CalculatorState.ResultText` | main_container_for_easycalc/src/components/Calculator/Calculator.js:65-85 | `"Error"` when dividing by an operand that parses to zero; otherwise `"NaN"` when either operand is NaN, else the formatted exact sum, difference, product or quotient of the parsed label and operand |
| `CalculatorState.CalculateResult` | main_container_for_easycalc/src/components/Calculator/Calculator.js:62-111 | the state is unchanged exactly when the label is empty, the flag is set or the operation is not one of the four; otherwise label and operation are cleared and the flag set |
| `CalculatorState.ChooseOperation` | main_container_for_easycalc/src/components/Calculator/Calculator.js:47-57 | a no-op on `"0"` with no label; every other press sets the operation to `op`, sets the flag and makes the label the pre-event operand plus `" "` plus `op`; the operand is either kept or the chained result |
| `CalculatorState.Clear` | main_container_for_easycalc/src/components/Calculator/Calculator.js:116-121 | from any state the result is the initial state of lines 10-13 |
| `CalculatorState.DropLast` | main_container_for_easycalc/src/components/Calculator/Calculator.js:133 | `slice(0, -1)` is a prefix one character shorter, and the empty text stays empty |
| `CalculatorState.DeleteDigit` | main_container_for_easycalc/src/components/Calculator/Calculator.js:126-135 | label and operation are untouched and the flag is cleared; after a reset or on a one-character operand the operand restarts at `"0"`; otherwise it loses its last character (`slice(0, -1)`, so `""` stays `""`) |
| `CalculatorState.ToggleSign` | main_container_for_easycalc/src/components/Calculator/Calculator.js:140-148 | only the operand changes; `"0"` is a no-op; otherwise exactly one leading `-` is added or removed |
| `CalculatorProperties.AppendDigitsExtend` | main_container_for_easycalc/src/components/Calculator/Calculator.js:23-24 | digits typed into an operand being edited are appended until it holds 12 characters, and the rest are dropped |
| `CalculatorProperties.EnterDigitsFromInitial` | main_container_for_easycalc/src/components/Calculator/Calculator.js:19-25 | from the initial state, digits d1..dn with d1 not `0` show as their concatenation, cut off after 12 |
| `CalculatorProperties.DeleteUndoesAppendDigit` | main_container_for_easycalc/src/components/Calculator/Calculator.js:126-135 | delete right after a digit appended to a non-empty operand under 12 characters restores the state |
| `CalculatorProperties.AppendDecimalIdempotent` | main_container_for_easycalc/src/components/Calculator/Calculator.js:31-41 | pressing `.` twice equals pressing it once |
| `CalculatorProperties.AppendDecimalSinglePoint` | main_container_for_easycalc/src/components/Calculator/Calculator.js:38-40 | an operand with at most one point has exactly one after `.`; one that already has a point is left as it was |
| `CalculatorProperties.DeleteUndoesAppendDecimal` | main_container_for_easycalc/src/components/Calculator/Calculator.js:31-41 | delete right after a point appended to a non-empty operand restores the state |
| `CalculatorProperties.ChooseOperationLabelRecoversOperand` | main_container_for_easycalc/src/components/Calculator/Calculator.js:54-56 | after an operator, the label's first space-separated field is the operand shown when it was pressed |
| `CalculatorProperties.ChainedChooseKeepsOnlyResult` | main_container_for_easycalc/src/components/Calculator/Calculator.js:50-56 | with a calculation pending, the operator shows the chained result; the label is made from the old operand, and the chained call's other writes are overwritten |
| `CalculatorProperties.ReplacePendingOperator` | main_container_for_easycalc/src/components/Calculator/Calculator.js:47-57 | right after an operator, another operator replaces the pending one and changes neither the operand nor the flag |
| `CalculatorProperties.DivisionByZeroIsError` | main_container_for_easycalc/src/components/Calculator/Calculator.js:79-81 | dividing by an operand that parses to zero shows `"Error"` and clears label and operation |
| `CalculatorProperties.ArithmeticResult` | main_container_for_easycalc/src/components/Calculator/Calculator.js:65-85 | with both operands numbers, the shown result is the formatted sum, difference, product or quotient |
| `CalculatorProperties.CalculateResultIdempotent` | main_container_for_easycalc/src/components/Calculator/Calculator.js:63 | pressing `=` a second time changes nothing |
| `CalculatorProperties.DeleteDigitFixedPoints` | main_container_for_easycalc/src/components/Calculator/Calculator.js:126-135 | delete leaves the state unchanged exactly when the flag is clear and the operand is `"0"` or empty |
| `CalculatorProperties.DeletesReachZero` | main_container_for_easycalc/src/components/Calculator/Calculator.js:126-135 | as many deletes as the operand has characters turn any non-empty operand into `"0"` with the flag clear, and no more changes follow |
| `CalculatorProperties.ToggleSignInvolution` | main_container_for_easycalc/src/components/Calculator/Calculator.js:140-148 | toggling twice restores the state exactly when the operand is neither `"-0"` nor starts with two minus signs |
| `CalculatorProperties.EntryLength` | main_container_for_easycalc/src/components/Calculator/Calculator.js:23 | an operand being edited has at most 14 characters |
| `CalculatorProperties.StepKeepsInvariant` | main_container_for_easycalc/src/components/Calculator/Calculator.js:19-148 | every keypad event keeps the invariant: label and operation are empty together, the operation is one of the four, and an operand being edited is a signed decimal of at most 12 digits and one point |
| `CalculatorProperties.RunKeepsInvariant` | main_container_for_easycalc/src/components/Calculator/Calculator.js:19-148 | every sequence of keypad events keeps the invariant, so `calculateResult`'s default branch is never reached |
| `CalculatorProperties.InitialInvariant` | main_container_for_easycalc/src/components/Calculator/Calculator.js:10-13 | the initial state satisfies the invariant |
| `CalculatorProperties.ChainedOperatorsUseStaleOperand` | main_container_for_easycalc/src/components/Calculator/Calculator.js:47-57 | `3 + 4 +` shows `"7"` under the label `"4 +"`, and `2 =` then shows `"6"` |
| `CalculatorProperties.DivideByZeroThenClear` | main_container_for_easycalc/src/components/Calculator/Calculator.js:79-81 | `5 ÷ 0 =` shows `"Error"`, and `AC` afterwards restores the initial state |
| `CalculatorComponent.Calculator.constructor` | main_container_for_easycalc/src/components/Calculator/Calculator.js:10-13 | the fields start as `"0"`, `""`, `""`, `false` |
| `CalculatorComponent.Calculator.AppendDigit` | main_container_for_easycalc/src/components/Calculator/Calculator.js:19-25 | the fields afterwards are `CalculatorState.AppendDigit` of their values before the event |
| `CalculatorComponent.Calculator.AppendDecimal` | main_container_for_easycalc/src/components/Calculator/Calculator.js:31-41 | the fields afterwards are `CalculatorState.AppendDecimal` of their values before the event |
| `CalculatorComponent.Calculator.ChooseOperation` | main_container_for_easycalc/src/components/Calculator/Calculator.js:47-57 | the chained call and the later writes leave `CalculatorState.ChooseOperation` of the state before the event |
| `CalculatorComponent.Calculator.CalculateResult` | main_container_for_easycalc/src/components/Calculator/Calculator.js:62-111 | the fields afterwards are `CalculatorState.CalculateResult` of their values before the event |
| `CalculatorComponent.Calculator.Clear` | main_container_for_easycalc/src/components/Calculator/Calculator.js:116-121 | the fields afterwards are the initial values |
| `CalculatorComponent.Calculator.DeleteDigit` | main_container_for_easycalc/src/components/Calculator/Calculator.js:126-135 | the fields afterwards are `CalculatorState.DeleteDigit` of their values before the event |
| `CalculatorComponent.Calculator.ToggleSign` | main_container_for_easycalc/src/components/Calculator/Calculator.js:140-148 | the fields afterwards are `CalculatorState.ToggleSign` of their values before the event |

## Left out

- Rendering and button wiring (lines 150-182), the CSS import and `App.js`: presentation only. `Event` and `Step` stand for the keypad: each button sends one event to its handler.
- IEEE-754 arithmetic: values are exact reals, so rounding errors such as `0.1 + 0.2` and overflow to Infinity are not modelled.
- `Number.prototype.toString` and `toExponential(6)`: they are parameters (`NumberLib.show`, `NumberLib.showExponential`), and no digit-level output is proved. `Numbers.Format` states which of them is used.
- `parseFloat` on text that is not a decimal entry, such as an exponential result, `"Error"` or `"NaN"`: it is the parameter `NumberLib.parseOther`. NaN is then carried through the arithmetic and shown as `"NaN"`.
- React's batching and re-rendering: only its effect on a handler is modelled. Reads see the values of the event's start, and setter calls apply in order with the last write winning.
- `CalculatorState.AppendDigit`: takes a single character, because the keypad passes one-digit strings. A longer string would not be limited to 12 characters.
