/**
 The App component as an object: its four state variables are fields, and
 each handler is a method that updates them in place through assignments, as
 the component does through its setters. A handler reads only the values the
 fields had when it was called, so each method is one transition, and its
 postcondition says which transition of CalcEngine it performs.
 */
module CalcApp {
  import opened CalcEngine
  import CalcProperties

  class Calculator<N(!new)> {
    /** The platform's number operations the component calls. */
    const num: Numerics<N>

    var displayValue: string
    var firstOperand: Option<N>
    var operator: Option<Operator>
    var waitingForSecondOperand: bool

    /** The four fields as one state value. */
    function Snapshot(): State<N>
      reads this
    {
      State(displayValue, firstOperand, operator, waitingForSecondOperand)
    }

    constructor (num: Numerics<N>)
      ensures this.num == num
      ensures Snapshot() == Initial()
      ensures Inv(Snapshot())
    {
      this.num := num;
      displayValue := "0";
      firstOperand := None;
      operator := None;
      waitingForSecondOperand := false;
    }

    method InputDigit(digit: string)
      modifies this
      ensures Snapshot() == CalcEngine.InputDigit(old(Snapshot()), digit)
    {
      if waitingForSecondOperand {
        displayValue := digit;
        waitingForSecondOperand := false;
      } else {
        displayValue := if displayValue == "0" then digit else displayValue + digit;
      }
    }

    method InputDecimal()
      modifies this
      ensures Snapshot() == CalcEngine.InputDecimal(old(Snapshot()))
    {
      if waitingForSecondOperand {
        displayValue := "0.";
        waitingForSecondOperand := false;
        return;
      }
      if '.' !in displayValue {
        displayValue := displayValue + ".";
      }
    }

    method ClearInput()
      modifies this
      ensures Snapshot() == Initial()
    {
      displayValue := "0";
      firstOperand := None;
      operator := None;
      waitingForSecondOperand := false;
    }

    method ToggleSign()
      modifies this
      ensures Snapshot() == CalcEngine.ToggleSign(old(Snapshot()))
    {
      displayValue := if HasSign(displayValue) then displayValue[1..] else "-" + displayValue;
    }

    method InputPercent()
      modifies this
      ensures Snapshot() == CalcEngine.InputPercent(num, old(Snapshot()))
    {
      var currentValue := num.parse(displayValue);
      displayValue := num.format(num.div(currentValue, num.hundred));
    }

    method PerformOperation(nextOperator: Operator)
      modifies this
      ensures Snapshot() == CalcEngine.PerformOperation(num, old(Snapshot()), nextOperator)
    {
      var inputValue := num.parse(displayValue);
      if firstOperand.None? {
        firstOperand := Some(inputValue);
      } else if operator.Some? {
        var result := Calculate(num, firstOperand.value, inputValue, operator.value);
        displayValue := num.format(result);
        firstOperand := Some(result);
      }
      waitingForSecondOperand := true;
      operator := Some(nextOperator);
    }

    method HandleEquals()
      modifies this
      ensures Snapshot() == CalcEngine.HandleEquals(num, old(Snapshot()))
    {
      var inputValue := num.parse(displayValue);
      if operator.Some? && firstOperand.Some? {
        var result := Calculate(num, firstOperand.value, inputValue, operator.value);
        displayValue := num.format(result);
        firstOperand := None;
        operator := None;
        waitingForSecondOperand := false;
      }
    }

    /**
     A button click: routes the label to its handler, and keeps the engine's
     invariant whenever numbers print as valid displays.
     */
    method HandleButtonClick(keyLabel: string)
      modifies this
      ensures Snapshot() == Step(num, old(Snapshot()), keyLabel)
      ensures FormatsValidly(num) && old(Inv(Snapshot())) ==> Inv(Snapshot())
    {
      ghost var before := Snapshot();
      match Classify(keyLabel) {
        case DigitKey(digits) => InputDigit(digits);
        case DecimalKey => InputDecimal();
        case ClearKey => ClearInput();
        case SignKey => ToggleSign();
        case PercentKey => InputPercent();
        case OperatorKey(op) => PerformOperation(op);
        case EqualsKey => HandleEquals();
        case Ignored =>
      }
      if FormatsValidly(num) && Inv(before) {
        CalcProperties.StepPreservesInv(num, before, keyLabel);
      }
    }
  }
}
