/**
 The calculator engine of the App component (App.tsx), as a pure transition
 system: a `State` record holding the component's four pieces of state, one
 function per key handler, the classification of a key label, and `Step`,
 the dispatcher that routes a label to its handler.

 The platform's numbers (parseFloat, String(number) and IEEE-754 arithmetic on
 JavaScript numbers) are not modelled; they are the fields of a `Numerics`
 record over an abstract number type `N`, so every property proved here holds
 whatever those operations compute.
 */
module CalcEngine {

  datatype Option<T> = None | Some(value: T)

  /** The pending binary operator: '+', '-', '*' or '/'. */
  datatype Operator = Add | Subtract | Multiply | Divide

  /**
   The number semantics the engine relies on: `parse` is parseFloat, `format`
   is String(number), the four arithmetic operations are JavaScript's, and
   `hundred` is the number 100 that percent divides by.
   */
  datatype Numerics<!N> = Numerics(
    parse: string -> N,
    format: N -> string,
    add: (N, N) -> N,
    sub: (N, N) -> N,
    mul: (N, N) -> N,
    div: (N, N) -> N,
    hundred: N)

  /** The four state variables of the component. */
  datatype State<N> = State(
    displayValue: string,
    firstOperand: Option<N>,
    operator: Option<Operator>,
    waitingForSecondOperand: bool)

  /** The state the component starts in, and the one clear returns to. */
  function Initial<N>(): (r: State<N>)
    ensures r.displayValue == "0" && !r.waitingForSecondOperand
    ensures r.firstOperand.None? && r.operator.None?
  {
    State("0", None, None, false)
  }

  // ---------------------------------------------------------------------
  // Display strings and the engine's invariant

  predicate HasSign(d: string)
  {
    |d| > 0 && d[0] == '-'
  }

  /** The display without its leading minus sign, if it has one. */
  function Magnitude(d: string): (m: string)
    ensures HasSign(d) ==> d == "-" + m
    ensures !HasSign(d) ==> m == d
  {
    if HasSign(d) then d[1..] else d
  }

  predicate IsDigits(s: string)
  {
    |s| > 0 && forall i :: 0 <= i < |s| ==> '0' <= s[i] <= '9'
  }

  /**
   A display as the engine keeps it: something after the optional sign, at most
   one leading minus sign, and at most one decimal point.
   */
  predicate ValidDisplay(d: string)
  {
    Magnitude(d) != "" && !HasSign(Magnitude(d)) && multiset(d)['.'] <= 1
  }

  /**
   A first operand is recorded exactly when an operator is pending, and the
   engine only waits for a second operand while an operator is pending.
   */
  predicate PendingConsistent<N>(s: State<N>)
  {
    (s.firstOperand.Some? <==> s.operator.Some?)
    && (s.waitingForSecondOperand ==> s.operator.Some?)
  }

  predicate Inv<N>(s: State<N>)
  {
    ValidDisplay(s.displayValue) && PendingConsistent(s)
  }

  /**
   What String(number) is relied on for: every number prints as a valid
   display (JavaScript prints at most one '.', and a minus sign only in front
   or inside an exponent).
   */
  ghost predicate FormatsValidly<N(!new)>(num: Numerics<N>)
  {
    forall n: N :: ValidDisplay(num.format(n))
  }

  // ---------------------------------------------------------------------
  // The handlers

  /** Binary compute of a pending operation, left operand first. */
  function Calculate<N>(num: Numerics<N>, first: N, second: N, op: Operator): (r: N)
    ensures op == Add ==> r == num.add(first, second)
    ensures op == Subtract ==> r == num.sub(first, second)
    ensures op == Multiply ==> r == num.mul(first, second)
    ensures op == Divide ==> r == num.div(first, second)
  {
    match op
    case Add => num.add(first, second)
    case Subtract => num.sub(first, second)
    case Multiply => num.mul(first, second)
    case Divide => num.div(first, second)
  }

  /** Digit entry: starts a fresh second operand, replaces a lone "0", or appends. */
  function InputDigit<N>(s: State<N>, digit: string): (r: State<N>)
    ensures r.firstOperand == s.firstOperand && r.operator == s.operator
    ensures !r.waitingForSecondOperand
    ensures s.waitingForSecondOperand || s.displayValue == "0" ==> r.displayValue == digit
    ensures !s.waitingForSecondOperand && s.displayValue != "0" ==> r.displayValue == s.displayValue + digit
  {
    if s.waitingForSecondOperand then
      s.(displayValue := digit, waitingForSecondOperand := false)
    else
      s.(displayValue := if s.displayValue == "0" then digit else s.displayValue + digit)
  }

  /** Decimal entry: starts "0." for a fresh operand, else adds a point if there is none. */
  function InputDecimal<N>(s: State<N>): (r: State<N>)
    ensures r.firstOperand == s.firstOperand && r.operator == s.operator
    ensures !r.waitingForSecondOperand
    ensures s.waitingForSecondOperand ==> r.displayValue == "0."
    ensures !s.waitingForSecondOperand && '.' in s.displayValue ==> r == s
    ensures !s.waitingForSecondOperand && '.' !in s.displayValue ==> r.displayValue == s.displayValue + "."
    ensures '.' in r.displayValue
  {
    if s.waitingForSecondOperand then
      s.(displayValue := "0.", waitingForSecondOperand := false)
    else if '.' !in s.displayValue then
      s.(displayValue := s.displayValue + ".")
    else
      s
  }

  /** Clear: every field back to its initial value. */
  function ClearInput<N>(s: State<N>): (r: State<N>)
    ensures r == Initial()
  {
    State("0", None, None, false)
  }

  /** Sign toggle on the display string: strip a leading '-' or prepend one. */
  function ToggleSign<N>(s: State<N>): (r: State<N>)
    ensures r.(displayValue := s.displayValue) == s
    ensures HasSign(s.displayValue) ==> s.displayValue == "-" + r.displayValue
    ensures !HasSign(s.displayValue) ==> r.displayValue == "-" + s.displayValue
    ensures ValidDisplay(s.displayValue) ==>
              HasSign(r.displayValue) != HasSign(s.displayValue)
              && Magnitude(r.displayValue) == Magnitude(s.displayValue)
  {
    s.(displayValue := if HasSign(s.displayValue) then s.displayValue[1..] else "-" + s.displayValue)
  }

  /** Percent: the displayed number divided by 100, printed back. */
  function InputPercent<N>(num: Numerics<N>, s: State<N>): (r: State<N>)
    ensures r.(displayValue := s.displayValue) == s
    ensures r.displayValue == num.format(num.div(num.parse(s.displayValue), num.hundred))
  {
    s.(displayValue := num.format(num.div(num.parse(s.displayValue), num.hundred)))
  }

  /**
   Operator selection: records the first operand, or resolves the pending
   operation with the display as second operand (left-to-right chaining),
   then arms the next operator.
   */
  function PerformOperation<N>(num: Numerics<N>, s: State<N>, nextOperator: Operator): (r: State<N>)
    ensures r.waitingForSecondOperand && r.operator == Some(nextOperator)
    ensures s.firstOperand.None? ==>
              r.firstOperand == Some(num.parse(s.displayValue)) && r.displayValue == s.displayValue
    ensures s.firstOperand.Some? && s.operator.Some? ==>
              var result := Calculate(num, s.firstOperand.value, num.parse(s.displayValue), s.operator.value);
              r.firstOperand == Some(result) && r.displayValue == num.format(result)
    ensures s.firstOperand.Some? && s.operator.None? ==>
              r.firstOperand == s.firstOperand && r.displayValue == s.displayValue
  {
    var inputValue := num.parse(s.displayValue);
    match s.firstOperand
    case None =>
      State(s.displayValue, Some(inputValue), Some(nextOperator), true)
    case Some(first) =>
      match s.operator
      case Some(op) =>
        var result := Calculate(num, first, inputValue, op);
        State(num.format(result), Some(result), Some(nextOperator), true)
      case None =>
        State(s.displayValue, s.firstOperand, Some(nextOperator), true)
  }

  /** Equals: resolves a pending operation and ends the chain; otherwise nothing. */
  function HandleEquals<N>(num: Numerics<N>, s: State<N>): (r: State<N>)
    ensures s.operator.Some? && s.firstOperand.Some? ==>
              r == State(num.format(Calculate(num, s.firstOperand.value, num.parse(s.displayValue), s.operator.value)),
                         None, None, false)
    ensures s.operator.None? || s.firstOperand.None? ==> r == s
  {
    match (s.operator, s.firstOperand)
    case (Some(op), Some(first)) =>
      State(num.format(Calculate(num, first, num.parse(s.displayValue), op)), None, None, false)
    case _ => s
  }

  // ---------------------------------------------------------------------
  // Key labels and dispatch

  /** What a key label asks the engine to do. */
  datatype Key =
    | DigitKey(digits: string)
    | DecimalKey
    | ClearKey
    | SignKey
    | PercentKey
    | OperatorKey(op: Operator)
    | EqualsKey
    | Ignored

  function OperatorLabel(op: Operator): string
  {
    match op
    case Add => "+"
    case Subtract => "-"
    case Multiply => "*"
    case Divide => "/"
  }

  /** The labels of the non-digit keys, each mapped to what it asks for. */
  const ControlKeys: map<string, Key> := map[
    "." := DecimalKey, "AC" := ClearKey, "+/-" := SignKey, "%" := PercentKey,
    "+" := OperatorKey(Add), "-" := OperatorKey(Subtract),
    "*" := OperatorKey(Multiply), "/" := OperatorKey(Divide), "=" := EqualsKey]

  /** The keypad, in the order it is laid out. */
  const KeypadLabels: seq<string> := [
    "AC", "+/-", "%", "/",
    "7", "8", "9", "*",
    "4", "5", "6", "-",
    "1", "2", "3", "+",
    "0", ".", "="]

  /** No control label is a string of digits, so the two routes never overlap. */
  lemma ControlLabelsAreNotDigits(keyLabel: string)
    ensures keyLabel in ControlKeys ==> !IsDigits(keyLabel)
  {
    if keyLabel in ControlKeys {
      assert !('0' <= keyLabel[0] <= '9');
    }
  }

  /** The label a key carries; `Ignored` has none and is given the empty one. */
  function Label(k: Key): string
  {
    match k
    case DigitKey(d) => d
    case DecimalKey => "."
    case ClearKey => "AC"
    case SignKey => "+/-"
    case PercentKey => "%"
    case OperatorKey(op) => OperatorLabel(op)
    case EqualsKey => "="
    case Ignored => ""
  }

  /**
   Classification of a label: a string of decimal digits is digit entry, the
   nine control labels go to their handler, and anything else is ignored.
   */
  function Classify(keyLabel: string): (k: Key)
    ensures k.DigitKey? <==> IsDigits(keyLabel)
    ensures k.DigitKey? ==> k.digits == keyLabel
    ensures !IsDigits(keyLabel) && keyLabel in ControlKeys ==> k == ControlKeys[keyLabel]
    ensures k == Ignored <==> !IsDigits(keyLabel) && keyLabel !in ControlKeys
  {
    if IsDigits(keyLabel) then DigitKey(keyLabel)
    else if keyLabel == "." then DecimalKey
    else if keyLabel == "AC" then ClearKey
    else if keyLabel == "+/-" then SignKey
    else if keyLabel == "%" then PercentKey
    else if keyLabel == "+" then OperatorKey(Add)
    else if keyLabel == "-" then OperatorKey(Subtract)
    else if keyLabel == "*" then OperatorKey(Multiply)
    else if keyLabel == "/" then OperatorKey(Divide)
    else if keyLabel == "=" then EqualsKey
    else Ignored
  }

  /** The transition for one classified key. */
  function Apply<N>(num: Numerics<N>, s: State<N>, k: Key): State<N>
  {
    match k
    case DigitKey(d) => InputDigit(s, d)
    case DecimalKey => InputDecimal(s)
    case ClearKey => ClearInput(s)
    case SignKey => ToggleSign(s)
    case PercentKey => InputPercent(num, s)
    case OperatorKey(op) => PerformOperation(num, s, op)
    case EqualsKey => HandleEquals(num, s)
    case Ignored => s
  }

  /** One button click: classify the label, then run its handler. */
  function Step<N>(num: Numerics<N>, s: State<N>, keyLabel: string): (r: State<N>)
    ensures IsDigits(keyLabel) ==> r == InputDigit(s, keyLabel)
    ensures keyLabel == "." ==> r == InputDecimal(s)
    ensures keyLabel == "AC" ==> r == Initial()
    ensures keyLabel == "+/-" ==> r == ToggleSign(s)
    ensures keyLabel == "%" ==> r == InputPercent(num, s)
    ensures keyLabel == "+" ==> r == PerformOperation(num, s, Add)
    ensures keyLabel == "-" ==> r == PerformOperation(num, s, Subtract)
    ensures keyLabel == "*" ==> r == PerformOperation(num, s, Multiply)
    ensures keyLabel == "/" ==> r == PerformOperation(num, s, Divide)
    ensures keyLabel == "=" ==> r == HandleEquals(num, s)
    ensures !IsDigits(keyLabel) && keyLabel !in ControlKeys ==> r == s
  {
    ControlLabelsAreNotDigits(keyLabel);
    Apply(num, s, Classify(keyLabel))
  }

  /** A session of clicks, from left to right. */
  function Run<N>(num: Numerics<N>, s: State<N>, labels: seq<string>): State<N>
    decreases |labels|
  {
    if labels == [] then s else Run(num, Step(num, s, labels[0]), labels[1..])
  }
}
