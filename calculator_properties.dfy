/** What the event handlers promise, stated over the state values. */
module CalculatorProperties {
  import opened Strings
  import opened Numbers
  import opened CalculatorState

  function Min(a: int, b: int): int {
    if a < b then a else b
  }

  // ---------------------------------------------------------------- digits

  /** Typing digits into an operand being edited appends them until the
      operand holds 12 characters; the rest are dropped. */
  lemma {:induction false} AppendDigitsExtend(s: State, digits: string)
    requires !s.resetScreen && s.current != "0" && s.current != "" && |s.current| <= MaxEntryLength
    ensures AppendDigits(s, digits)
              == s.(current := (s.current + digits)[..Min(|s.current| + |digits|, MaxEntryLength)])
    decreases |digits|
  {
    if digits == [] {
      assert s.current + digits == s.current;
    } else {
      var next := AppendDigit(s, digits[0]);
      AppendDigitsExtend(next, digits[1..]);
      if |s.current| < MaxEntryLength {
        assert next.current + digits[1..] == s.current + digits;
      } else {
        assert (next.current + digits[1..])[..MaxEntryLength] == (s.current + digits)[..MaxEntryLength];
      }
    }
  }

  /** From the initial state, digits that do not start with `0` show exactly
      as typed, cut off after the twelfth. */
  lemma EnterDigitsFromInitial(digits: string)
    requires digits != [] && digits[0] != '0'
    ensures AppendDigits(Initial, digits) == State(digits[..Min(|digits|, MaxEntryLength)], "", "", false)
  {
    var first := AppendDigit(Initial, digits[0]);
    assert first == State([digits[0]], "", "", false);
    AppendDigitsExtend(first, digits[1..]);
    assert [digits[0]] + digits[1..] == digits;
  }

  /** Deleting right after appending a digit to an operand being edited
      restores the state. */
  lemma DeleteUndoesAppendDigit(s: State, digit: char)
    requires !s.resetScreen && s.current != "0" && 1 <= |s.current| < MaxEntryLength
    ensures DeleteDigit(AppendDigit(s, digit)) == s
  {
  }

  // --------------------------------------------------------------- decimal

  /** Pressing `.` twice is the same as pressing it once. */
  lemma AppendDecimalIdempotent(s: State)
    ensures AppendDecimal(AppendDecimal(s)) == AppendDecimal(s)
  {
  }

  /** `.` never adds a second point: an operand with at most one point has
      exactly one afterwards, and one that already has a point is kept. */
  lemma AppendDecimalSinglePoint(s: State)
    ensures multiset(s.current)['.'] <= 1 ==> multiset(AppendDecimal(s).current)['.'] == 1
    ensures !s.resetScreen && '.' in s.current ==> AppendDecimal(s) == s
  {
  }

  /** Deleting right after adding a point to an operand being edited
      restores the state. */
  lemma DeleteUndoesAppendDecimal(s: State)
    requires !s.resetScreen && s.current != "" && '.' !in s.current
    ensures DeleteDigit(AppendDecimal(s)) == s
  {
  }

  // ------------------------------------------------------------- operators

  /** After an operator is chosen, the label's first space-separated field is
      the operand that was on the display when the operator was pressed. */
  lemma ChooseOperationLabelRecoversOperand(lib: NumberLib, s: State, op: string)
    requires !(s.current == "0" && s.previous == "") && ' ' !in s.current
    ensures var r := ChooseOperation(lib, s, op);
      r.operation == op && r.resetScreen && FirstField(r.previous, ' ') == s.current
  {
    FirstFieldOfJoin(s.current, ' ', op);
    assert s.current + " " + op == s.current + [' '] + op;
  }

  /** With a calculation pending, an operator shows the chained result, but
      the label is built from the operand typed before it: of the chained
      call's writes only the one to the operand survives. */
  lemma ChainedChooseKeepsOnlyResult(lib: NumberLib, s: State, op: string)
    requires s.previous != "" && !s.resetScreen && IsOperator(s.operation)
    ensures ChooseOperation(lib, s, op) == State(ResultText(lib, s), s.current + " " + op, op, true)
  {
  }

  /** Right after an operator, another operator replaces the pending one and
      leaves the display alone: no calculation runs. */
  lemma ReplacePendingOperator(lib: NumberLib, s: State, op: string)
    requires s.resetScreen && s.previous != ""
    ensures ChooseOperation(lib, s, op) == s.(previous := s.current + " " + op, operation := op)
  {
  }

  // ----------------------------------------------------------- calculation

  /** Division by an operand that parses to zero shows `"Error"` and ends the
      pending calculation. */
  lemma DivisionByZeroIsError(lib: NumberLib, s: State)
    requires s.previous != "" && !s.resetScreen && s.operation == "÷"
    requires ParseFloat(lib, s.current) == Finite(0.0)
    ensures CalculateResult(lib, s) == State("Error", "", "", true)
  {
  }

  /** With both operands numbers, the result shown is the formatted sum,
      difference, product or quotient. */
  lemma ArithmeticResult(lib: NumberLib, s: State, a: real, b: real)
    requires s.previous != "" && !s.resetScreen && IsOperator(s.operation)
    requires ParseFloat(lib, FirstField(s.previous, ' ')) == Finite(a)
    requires ParseFloat(lib, s.current) == Finite(b)
    requires s.operation == "÷" ==> b != 0.0
    ensures CalculateResult(lib, s).current == Format(lib, Arithmetic(s.operation, a, b))
  {
  }

  /** Pressing `=` a second time changes nothing. */
  lemma CalculateResultIdempotent(lib: NumberLib, s: State)
    ensures CalculateResult(lib, CalculateResult(lib, s)) == CalculateResult(lib, s)
  {
  }

  // ---------------------------------------------------------------- delete

  /** The states `deleteDigit` leaves alone: `"0"` and the empty operand,
      both while editing. */
  lemma DeleteDigitFixedPoints(s: State)
    ensures DeleteDigit(s) == s <==> !s.resetScreen && (s.current == "0" || s.current == "")
  {
  }

  lemma {:induction false} DeleteTimesAtFixedPoint(s: State, n: nat)
    requires DeleteDigit(s) == s
    ensures DeleteTimes(s, n) == s
    decreases n
  {
    if n > 0 {
      DeleteTimesAtFixedPoint(s, n - 1);
    }
  }

  /** Pressing delete as many times as the operand has characters brings any
      non-empty operand to `"0"`, where further deletes change nothing. */
  lemma {:induction false} DeletesReachZero(s: State, n: nat)
    requires s.current != "" && n >= |s.current|
    ensures DeleteTimes(s, n) == s.(current := "0", resetScreen := false)
    decreases n
  {
    var next := DeleteDigit(s);
    if s.resetScreen || |s.current| == 1 {
      assert next == s.(current := "0", resetScreen := false);
      DeleteTimesAtFixedPoint(next, n - 1);
    } else {
      DeletesReachZero(next, n - 1);
    }
  }

  // ------------------------------------------------------------------ sign

  /** `toggleSign` undoes itself exactly when the operand is neither `"-0"`
      (which becomes `"0"`, and `"0"` is left alone) nor starts with two minus signs. */
  lemma ToggleSignInvolution(s: State)
    ensures ToggleSign(ToggleSign(s)) == s <==>
              s.current != "-0" && !(|s.current| >= 2 && s.current[0] == '-' && s.current[1] == '-')
  {
    var t := s.current;
    var twice := ToggleSign(ToggleSign(s));
    if t == "0" {
      assert twice == s;
    } else if |t| > 0 && t[0] == '-' {
      var u := t[1..];
      assert ToggleSign(s) == s.(current := u);
      if u == "0" {
        assert t == "-0";
        assert twice.current == "0";
      } else if |u| > 0 && u[0] == '-' {
        assert |t| >= 2 && t[1] == '-';
        assert twice.current == u[1..];
        assert |twice.current| < |t|;
      } else {
        assert t != "-0" && !(|t| >= 2 && t[1] == '-');
        assert twice.current == "-" + u == t;
      }
    } else {
      assert ToggleSign(s) == s.(current := "-" + t);
      assert ("-" + t)[0] == '-' && ("-" + t)[1..] == t;
      assert twice == s;
    }
  }

  // ------------------------------------------------------------- invariant

  /** An operand being edited: an optional minus sign, then at most 12 digits
      and at most one point. */
  predicate IsEntry(t: string) {
    var b := Unsigned(t);
    IsDecimalText(t) && |b| <= MaxEntryLength + 1 && ('.' !in b ==> |b| <= MaxEntryLength)
  }

  /** What holds of every state the keypad can reach. */
  predicate Invariant(s: State) {
    && (s.previous == "" <==> s.operation == "")
    && (s.operation == "" || IsOperator(s.operation))
    && (!s.resetScreen ==> IsEntry(s.current))
  }

  /** The events the keypad's buttons send. */
  predicate ValidEvent(e: Event) {
    && (e.DigitKey? ==> IsDigit(e.digit))
    && (e.OperatorKey? ==> IsOperator(e.op))
  }

  /** An operand being edited is at most 14 characters long: the 12-character
      limit of `appendDigit` does not count the point or the minus sign. */
  lemma EntryLength(t: string)
    requires IsEntry(t)
    ensures |t| <= MaxEntryLength + 2
  {
  }

  lemma ToggleKeepsEntry(t: string)
    requires IsEntry(t) && t != "0"
    ensures IsEntry(ToggleSign(State(t, "", "", false)).current)
  {
  }

  lemma DeleteKeepsEntry(t: string)
    requires IsEntry(t) && |t| != 1
    ensures IsEntry(DropLast(t))
  {
  }

  lemma AppendKeepsEntry(t: string, c: char)
    requires IsEntry(t) && (IsDigit(c) || c == '.')
    requires c == '.' ==> '.' !in t
    requires IsDigit(c) ==> |t| < MaxEntryLength
    ensures IsEntry(t + [c])
  {
    if |t| > 0 && t[0] == '-' {
      assert Unsigned(t + [c]) == Unsigned(t) + [c];
    } else {
      assert Unsigned(t + [c]) == t + [c];
    }
  }

  /** Every event the keypad sends keeps the invariant. */
  lemma StepKeepsInvariant(lib: NumberLib, s: State, e: Event)
    requires Invariant(s) && ValidEvent(e)
    ensures Invariant(Step(lib, s, e))
  {
    match e
    case DigitKey(d) =>
      if !s.resetScreen && s.current != "0" && |s.current| < MaxEntryLength {
        AppendKeepsEntry(s.current, d);
      }
    case DecimalKey =>
      if !s.resetScreen && '.' !in s.current {
        AppendKeepsEntry(s.current, '.');
      }
    case DeleteKey =>
      if !s.resetScreen && |s.current| != 1 {
        DeleteKeepsEntry(s.current);
      }
    case SignKey =>
      if !s.resetScreen && s.current != "0" {
        ToggleKeepsEntry(s.current);
      }
    case _ =>
  }

  /** Every state reached from the initial one by keypad events satisfies the
      invariant; in particular a pending label always comes with one of the
      four operators, so `calculateResult`'s default branch is never taken. */
  lemma {:induction false} RunKeepsInvariant(lib: NumberLib, s: State, events: seq<Event>)
    requires Invariant(s)
    requires forall i :: 0 <= i < |events| ==> ValidEvent(events[i])
    ensures Invariant(Run(lib, s, events))
    decreases |events|
  {
    if events != [] {
      StepKeepsInvariant(lib, s, events[0]);
      RunKeepsInvariant(lib, Step(lib, s, events[0]), events[1..]);
    }
  }

  lemma InitialInvariant()
    ensures Invariant(Initial)
  {
  }

  // ---------------------------------------------------------------- traces

  /** Running events one by one through the states they visit. */
  lemma {:induction false} RunSteps(lib: NumberLib, s: State, events: seq<Event>, states: seq<State>)
    requires |states| == |events| > 0
    requires Step(lib, s, events[0]) == states[0]
    requires forall i :: 0 < i < |events| ==> Step(lib, states[i - 1], events[i]) == states[i]
    ensures Run(lib, s, events) == states[|states| - 1]
    decreases |events|
  {
    if |events| > 1 {
      RunSteps(lib, states[0], events[1..], states[1..]);
    }
  }

  /** Running two event sequences one after the other. */
  lemma {:induction false} RunAppend(lib: NumberLib, s: State, first: seq<Event>, rest: seq<Event>)
    ensures Run(lib, s, first + rest) == Run(lib, Run(lib, s, first), rest)
    decreases |first|
  {
    if first == [] {
      assert first + rest == rest;
    } else {
      assert (first + rest)[1..] == first[1..] + rest;
      RunAppend(lib, Step(lib, s, first[0]), first[1..], rest);
    }
  }

  /** A one-digit operand parses to the digit's value. */
  lemma ParseOneDigit(lib: NumberLib, d: char)
    requires IsDigit(d)
    ensures ParseFloat(lib, [d]) == Finite((d as int - '0' as int) as real)
  {
  }

  /** `x + y =` on two one-digit operands evaluates their sum. */
  lemma SingleDigitSum(lib: NumberLib, x: char, y: char)
    requires IsDigit(x) && IsDigit(y)
    ensures ResultText(lib, State([y], [x] + " +", "+", false))
              == Format(lib, (x as int - '0' as int) as real + (y as int - '0' as int) as real)
  {
    FirstFieldOfJoin([x], ' ', "+");
    assert [x] + [' '] + "+" == [x] + " +";
    ParseOneDigit(lib, x);
    ParseOneDigit(lib, y);
  }

  lemma ChainSecondOperator(lib: NumberLib)
    requires lib.show(7.0) == "7"
    ensures Step(lib, State("4", "3 +", "+", false), OperatorKey("+")) == State("7", "4 +", "+", true)
  {
    var s := State("4", "3 +", "+", false);
    SingleDigitSum(lib, '3', '4');
    assert s == State(['4'], ['3'] + " +", "+", false);
    assert ('3' as int - '0' as int) as real + ('4' as int - '0' as int) as real == 7.0;
    assert ResultText(lib, s) == "7";
  }

  lemma ChainEquals(lib: NumberLib)
    requires lib.show(6.0) == "6"
    ensures Step(lib, State("2", "4 +", "+", false), EqualsKey) == State("6", "", "", true)
  {
    var s := State("2", "4 +", "+", false);
    SingleDigitSum(lib, '4', '2');
    assert s == State(['2'], ['4'] + " +", "+", false);
    assert ('4' as int - '0' as int) as real + ('2' as int - '0' as int) as real == 6.0;
    assert ResultText(lib, s) == "6";
  }

  /** `3 + 4 + 2 =` shows 6, not 9: the second `+` shows 7 but labels the
      pending calculation with the stale operand, `"4 +"`. */
  lemma ChainedOperatorsUseStaleOperand(lib: NumberLib)
    requires lib.show(7.0) == "7" && lib.show(6.0) == "6"
    ensures Run(lib, Initial, [DigitKey('3'), OperatorKey("+"), DigitKey('4'), OperatorKey("+")])
              == State("7", "4 +", "+", true)
    ensures Run(lib, Initial, [DigitKey('3'), OperatorKey("+"), DigitKey('4'), OperatorKey("+"),
                               DigitKey('2'), EqualsKey]).current == "6"
  {
    var s0, s1, s2 := Initial, State("3", "", "", false), State("3", "3 +", "+", true);
    var s3, s4, s5 := State("4", "3 +", "+", false), State("7", "4 +", "+", true), State("2", "4 +", "+", false);
    var s6 := State("6", "", "", true);
    assert Step(lib, s0, DigitKey('3')) == s1 by {}
    assert Step(lib, s1, OperatorKey("+")) == s2 by {}
    assert Step(lib, s2, DigitKey('4')) == s3 by {}
    ChainSecondOperator(lib);
    assert Step(lib, s4, DigitKey('2')) == s5 by {}
    ChainEquals(lib);
    var first := [DigitKey('3'), OperatorKey("+"), DigitKey('4'), OperatorKey("+")];
    var rest := [DigitKey('2'), EqualsKey];
    RunSteps(lib, s0, first, [s1, s2, s3, s4]);
    RunSteps(lib, s4, rest, [s5, s6]);
    RunAppend(lib, s0, first, rest);
    assert first + rest == [DigitKey('3'), OperatorKey("+"), DigitKey('4'), OperatorKey("+"), DigitKey('2'), EqualsKey];
  }

  /** `5 ÷ 0 =` shows `"Error"`, and `AC` afterwards restores the initial state. */
  lemma DivideByZeroThenClear(lib: NumberLib)
    ensures Run(lib, Initial, [DigitKey('5'), OperatorKey("÷"), DigitKey('0'), EqualsKey])
              == State("Error", "", "", true)
    ensures Run(lib, Initial, [DigitKey('5'), OperatorKey("÷"), DigitKey('0'), EqualsKey, ClearKey]) == Initial
  {
  }
}
