/**
 * The calculator's state and one transition per event handler, as values.
 *
 * Each transition reads the state as it was when the event started and
 * returns the state after the handler's setter calls, applied in program
 * order with the last write to a field winning. The class in
 * `CalculatorComponent` performs the same writes field by field and is
 * proved equal to these functions.
 */
module CalculatorState {
  import opened Strings
  import opened Numbers

  /** The four `useState` fields of the component. */
  datatype State = State(
    current: string,     // currentOperand: the text on the main display
    previous: string,    // previousOperand: the label, such as "3 +"
    operation: string,   // operation: "" or the pending operator symbol
    resetScreen: bool)   // shouldResetScreen: the next entry starts a fresh operand

  /** The values the fields start with. */
  const Initial := State("0", "", "", false)

  /** `appendDigit` stops extending an operand of this length. */
  const MaxEntryLength := 12

  /** The four operator symbols the component's buttons send. */
  predicate IsOperator(op: string) {
    op == "+" || op == "-" || op == "×" || op == "÷"
  }

  /** `appendDigit(digit)`. */
  function AppendDigit(s: State, digit: char): (r: State)
    ensures r.previous == s.previous && r.operation == s.operation && !r.resetScreen
    ensures s.current == "0" || s.resetScreen ==> r.current == [digit]
    ensures r.current == [digit] || r.current == s.current + [digit] || r == s
    ensures |r.current| <= MaxEntryLength || r.current == s.current
    ensures !s.resetScreen && s.current != "0" && |s.current| >= MaxEntryLength ==> r == s
    ensures !s.resetScreen && s.current != "0" && |s.current| < MaxEntryLength ==> r.current == s.current + [digit]
  {
    if s.current == "0" || s.resetScreen then s.(current := [digit], resetScreen := false)
    else if |s.current| < MaxEntryLength then s.(current := s.current + [digit])
    else s
  }

  /** `appendDecimal()`. */
  function AppendDecimal(s: State): (r: State)
    ensures r.previous == s.previous && r.operation == s.operation && !r.resetScreen
    ensures '.' in r.current
    ensures s.resetScreen ==> r.current == "0."
    ensures !s.resetScreen ==> r.current == s.current || r.current == s.current + "."
  {
    if s.resetScreen then s.(current := "0.", resetScreen := false)
    else if '.' !in s.current then s.(current := s.current + ".")
    else s
  }

  /** The four operations on exact values. */
  function Arithmetic(op: string, a: real, b: real): real
    requires IsOperator(op)
    requires op == "÷" ==> b != 0.0
  {
    if op == "+" then a + b
    else if op == "-" then a - b
    else if op == "×" then a * b
    else a / b
  }

  /** The arithmetic of `calculateResult` on JavaScript numbers: NaN operands give NaN. */
  function Evaluate(op: string, a: Num, b: Num): (n: Num)
    requires IsOperator(op)
    requires op == "÷" ==> b != Finite(0.0)
    ensures n.Finite? <==> a.Finite? && b.Finite?
  {
    if a.NaN? || b.NaN? then NaN else Finite(Arithmetic(op, a.value, b.value))
  }

  /** The text `calculateResult` stores: `"Error"` for a division by an
      operand that parses to zero, the formatted result otherwise. */
  function ResultText(lib: NumberLib, s: State): (r: string)
    requires IsOperator(s.operation)
    ensures var a, b := ParseFloat(lib, FirstField(s.previous, ' ')), ParseFloat(lib, s.current);
      && (s.operation == "÷" && b == Finite(0.0) ==> r == "Error")
      && (!(s.operation == "÷" && b == Finite(0.0)) && a.Finite? && b.Finite? ==>
            r == Format(lib, Arithmetic(s.operation, a.value, b.value)))
      && (!(s.operation == "÷" && b == Finite(0.0)) && (a.NaN? || b.NaN?) ==> r == "NaN")
  {
    var prev := ParseFloat(lib, FirstField(s.previous, ' '));
    var cur := ParseFloat(lib, s.current);
    if s.operation == "÷" && cur == Finite(0.0) then "Error"
    else NumText(lib, Evaluate(s.operation, prev, cur))
  }

  /** `calculateResult()`: a no-op without a pending label, right after an
      operator, or for an unknown operation; otherwise the result replaces
      the operand and the pending operation is cleared. */
  function CalculateResult(lib: NumberLib, s: State): (r: State)
    ensures r == s <==> s.previous == "" || s.resetScreen || !IsOperator(s.operation)
    ensures r != s ==> r.previous == "" && r.operation == "" && r.resetScreen
  {
    if s.previous == "" || s.resetScreen || !IsOperator(s.operation) then s
    else State(ResultText(lib, s), "", "", true)
  }

  /** `chooseOperation(op)`. The chained `calculateResult` runs first; the
      label is then built from the operand as it was when the event started,
      and the later writes to the label, the operation and the flag override
      the chained call's, so only its write to the operand survives. */
  function ChooseOperation(lib: NumberLib, s: State, op: string): (r: State)
    ensures s.current == "0" && s.previous == "" ==> r == s
    ensures !(s.current == "0" && s.previous == "") ==>
              r.operation == op && r.resetScreen && r.previous == s.current + " " + op
    ensures r.current == s.current || (s.previous != "" && r.current == CalculateResult(lib, s).current)
  {
    if s.current == "0" && s.previous == "" then s
    else
      var chained := if s.previous != "" then CalculateResult(lib, s) else s;
      chained.(operation := op, previous := s.current + " " + op, resetScreen := true)
  }

  /** `clear()`. */
  function Clear(s: State): (r: State)
    ensures r == Initial
  {
    State("0", "", "", false)
  }

  /** `currentOperand.slice(0, -1)`: the text without its last character;
      the empty text stays empty. */
  function DropLast(t: string): (r: string)
    ensures r <= t
    ensures |r| == if t == "" then 0 else |t| - 1
  {
    if t == "" then "" else t[..|t| - 1]
  }

  /** `deleteDigit()`. */
  function DeleteDigit(s: State): (r: State)
    ensures r.previous == s.previous && r.operation == s.operation && !r.resetScreen
    ensures s.resetScreen || |s.current| == 1 ==> r.current == "0"
    ensures !s.resetScreen && |s.current| != 1 ==> r.current == DropLast(s.current)
  {
    if s.resetScreen then s.(current := "0", resetScreen := false)
    else if |s.current| == 1 then s.(current := "0")
    else s.(current := DropLast(s.current))
  }

  /** `toggleSign()`. */
  function ToggleSign(s: State): (r: State)
    ensures r.previous == s.previous && r.operation == s.operation && r.resetScreen == s.resetScreen
    ensures s.current == "0" ==> r == s
    ensures s.current != "0" ==> r.current == "-" + s.current || "-" + r.current == s.current
  {
    if s.current == "0" then s
    else if |s.current| > 0 && s.current[0] == '-' then s.(current := s.current[1..])
    else s.(current := "-" + s.current)
  }

  /** The buttons of the keypad, each bound to one handler. */
  datatype Event =
    | DigitKey(digit: char)
    | DecimalKey
    | OperatorKey(op: string)
    | EqualsKey
    | ClearKey
    | DeleteKey
    | SignKey

  /** One event, delivered to its handler. */
  function Step(lib: NumberLib, s: State, e: Event): State {
    match e
    case DigitKey(d) => AppendDigit(s, d)
    case DecimalKey => AppendDecimal(s)
    case OperatorKey(op) => ChooseOperation(lib, s, op)
    case EqualsKey => CalculateResult(lib, s)
    case ClearKey => Clear(s)
    case DeleteKey => DeleteDigit(s)
    case SignKey => ToggleSign(s)
  }

  /** A sequence of events, one at a time, in order. */
  function Run(lib: NumberLib, s: State, events: seq<Event>): State
    decreases |events|
  {
    if events == [] then s else Run(lib, Step(lib, s, events[0]), events[1..])
  }

  /** The digits typed one after another. */
  function AppendDigits(s: State, digits: string): State
    decreases |digits|
  {
    if digits == [] then s else AppendDigits(AppendDigit(s, digits[0]), digits[1..])
  }

  /** `deleteDigit()` pressed `n` times. */
  function DeleteTimes(s: State, n: nat): State
    decreases n
  {
    if n == 0 then s else DeleteTimes(DeleteDigit(s), n - 1)
  }
}
