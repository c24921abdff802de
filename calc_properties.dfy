/**
 Properties of the calculator engine: how labels are routed, the invariant
 every click keeps, the string-level laws of decimal entry and sign toggle,
 what a run of digit presses displays, and what the arithmetic sessions
 compute in terms of the abstract number operations.
 */
module CalcProperties {
  import opened CalcEngine

  // ---------------------------------------------------------------------
  // Dispatch

  /** Every key that has a label is recovered from it. */
  lemma ClassifyLabel(k: Key)
    requires k != Ignored
    requires k.DigitKey? ==> IsDigits(k.digits)
    ensures Classify(Label(k)) == k
  {
    if !k.DigitKey? {
      assert Label(k) in ControlKeys by {
        match k
        case OperatorKey(op) =>
        case DecimalKey =>
        case ClearKey =>
        case SignKey =>
        case PercentKey =>
        case EqualsKey =>
      }
      ControlLabelsAreNotDigits(Label(k));
    }
  }

  /** Every label that is not ignored is the label of the key it is classified as. */
  lemma LabelOfClassified(keyLabel: string)
    requires Classify(keyLabel) != Ignored
    ensures Label(Classify(keyLabel)) == keyLabel
  {
  }

  /**
   The keypad's nineteen labels: none is ignored, exactly the single digits go
   to digit entry, and every control label and every digit has its key.
   */
  lemma KeypadIsHandled()
    ensures forall i :: 0 <= i < |KeypadLabels| ==> Classify(KeypadLabels[i]) != Ignored
    ensures forall i :: 0 <= i < |KeypadLabels| ==>
              (Classify(KeypadLabels[i]).DigitKey? <==> |KeypadLabels[i]| == 1 && '0' <= KeypadLabels[i][0] <= '9')
    ensures forall l :: l in ControlKeys ==> l in KeypadLabels
    ensures forall c: char :: '0' <= c <= '9' ==> [c] in KeypadLabels
  {
    forall i | 0 <= i < |KeypadLabels|
      ensures Classify(KeypadLabels[i]) != Ignored
      ensures Classify(KeypadLabels[i]).DigitKey? <==> |KeypadLabels[i]| == 1 && '0' <= KeypadLabels[i][0] <= '9'
    {
      ControlLabelsAreNotDigits(KeypadLabels[i]);
    }
    forall c: char | '0' <= c <= '9'
      ensures [c] in KeypadLabels
    {
      if c == '0' { assert KeypadLabels[16] == [c]; }
      else if c == '1' { assert KeypadLabels[12] == [c]; }
      else if c == '2' { assert KeypadLabels[13] == [c]; }
      else if c == '3' { assert KeypadLabels[14] == [c]; }
      else if c == '4' { assert KeypadLabels[8] == [c]; }
      else if c == '5' { assert KeypadLabels[9] == [c]; }
      else if c == '6' { assert KeypadLabels[10] == [c]; }
      else if c == '7' { assert KeypadLabels[4] == [c]; }
      else if c == '8' { assert KeypadLabels[5] == [c]; }
      else { assert KeypadLabels[6] == [c]; }
    }
  }

  // ---------------------------------------------------------------------
  // The invariant

  lemma InitialIsValid<N>()
    ensures Inv(Initial<N>())
  {
  }

  /** Digit entry, decimal entry and sign toggle never produce a second '.'. */
  lemma StringHandlersKeepOneDot<N>(s: State<N>, digits: string)
    requires IsDigits(digits)
    requires multiset(s.displayValue)['.'] <= 1
    ensures multiset(InputDigit(s, digits).displayValue)['.'] <= 1
    ensures multiset(InputDecimal(s).displayValue)['.'] <= 1
    ensures multiset(ToggleSign(s).displayValue)['.'] <= 1
  {
    NoDotInDigits(digits);
    if !s.waitingForSecondOperand && s.displayValue != "0" {
      assert multiset(s.displayValue + digits) == multiset(s.displayValue) + multiset(digits);
    }
    if !s.waitingForSecondOperand && '.' !in s.displayValue {
      assert multiset(s.displayValue + ".") == multiset(s.displayValue) + multiset{'.'};
    }
    var d := s.displayValue;
    if HasSign(d) {
      assert d == [d[0]] + d[1..];
      assert multiset(d) == multiset{'-'} + multiset(d[1..]);
    } else {
      assert multiset("-" + d) == multiset{'-'} + multiset(d);
    }
  }

  lemma NoDotInDigits(digits: string)
    requires IsDigits(digits)
    ensures multiset(digits)['.'] == 0
  {
    assert forall i :: 0 <= i < |digits| ==> digits[i] != '.';
    assert '.' !in digits;
  }

  /** Without any assumption on the numbers, every click keeps the pending operation consistent. */
  lemma StepKeepsPendingConsistent<N>(num: Numerics<N>, s: State<N>, keyLabel: string)
    requires PendingConsistent(s)
    ensures PendingConsistent(Step(num, s, keyLabel))
  {
  }

  /** Appending to a valid display keeps its sign and magnitude shape. */
  lemma AppendKeepsShape(d: string, t: string)
    requires ValidDisplay(d)
    requires multiset(d + t)['.'] <= 1
    ensures ValidDisplay(d + t)
  {
    if HasSign(d) {
      assert (d + t)[1..] == d[1..] + t;
      assert Magnitude(d + t) == Magnitude(d) + t;
    } else {
      assert (d + t)[0] == d[0];
    }
  }

  lemma DigitPreservesValidDisplay<N>(s: State<N>, digits: string)
    requires IsDigits(digits)
    requires ValidDisplay(s.displayValue)
    ensures ValidDisplay(InputDigit(s, digits).displayValue)
  {
    StringHandlersKeepOneDot(s, digits);
    var r := InputDigit(s, digits);
    if s.waitingForSecondOperand || s.displayValue == "0" {
      assert r.displayValue == digits;
      assert '0' <= digits[0] <= '9';
    } else {
      AppendKeepsShape(s.displayValue, digits);
    }
  }

  lemma DecimalPreservesValidDisplay<N>(s: State<N>)
    requires ValidDisplay(s.displayValue)
    ensures ValidDisplay(InputDecimal(s).displayValue)
  {
    StringHandlersKeepOneDot(s, "0");
    if !s.waitingForSecondOperand && '.' !in s.displayValue {
      AppendKeepsShape(s.displayValue, ".");
    }
  }

  lemma SignPreservesValidDisplay<N>(s: State<N>)
    requires ValidDisplay(s.displayValue)
    ensures ValidDisplay(ToggleSign(s).displayValue)
  {
    StringHandlersKeepOneDot(s, "0");
  }

  /** Every handler keeps the whole invariant, given that numbers print as valid displays. */
  lemma ApplyPreservesInv<N(!new)>(num: Numerics<N>, s: State<N>, k: Key)
    requires FormatsValidly(num)
    requires k.DigitKey? ==> IsDigits(k.digits)
    requires Inv(s)
    ensures Inv(Apply(num, s, k))
  {
    var d := s.displayValue;
    match k
    case DigitKey(digits) => DigitPreservesValidDisplay(s, digits);
    case DecimalKey => DecimalPreservesValidDisplay(s);
    case SignKey => SignPreservesValidDisplay(s);
    case PercentKey =>
      assert ValidDisplay(num.format(num.div(num.parse(d), num.hundred)));
    case OperatorKey(op) =>
      if s.firstOperand.Some? && s.operator.Some? {
        assert ValidDisplay(num.format(Calculate(num, s.firstOperand.value, num.parse(d), s.operator.value)));
      }
    case EqualsKey =>
      if s.firstOperand.Some? && s.operator.Some? {
        assert ValidDisplay(num.format(Calculate(num, s.firstOperand.value, num.parse(d), s.operator.value)));
      }
    case ClearKey =>
    case Ignored =>
  }

  /** Every click keeps the whole invariant, given that numbers print as valid displays. */
  lemma StepPreservesInv<N(!new)>(num: Numerics<N>, s: State<N>, keyLabel: string)
    requires FormatsValidly(num)
    requires Inv(s)
    ensures Inv(Step(num, s, keyLabel))
  {
    ApplyPreservesInv(num, s, Classify(keyLabel));
  }

  lemma {:induction false} RunPreservesInv<N(!new)>(num: Numerics<N>, s: State<N>, labels: seq<string>)
    requires FormatsValidly(num)
    requires Inv(s)
    ensures Inv(Run(num, s, labels))
    decreases |labels|
  {
    if labels != [] {
      StepPreservesInv(num, s, labels[0]);
      RunPreservesInv(num, Step(num, s, labels[0]), labels[1..]);
    }
  }

  /** Every state a session of clicks can reach from the start keeps the invariant. */
  lemma ReachableIsValid<N(!new)>(num: Numerics<N>, labels: seq<string>)
    requires FormatsValidly(num)
    ensures Inv(Run(num, Initial(), labels))
  {
    RunPreservesInv(num, Initial(), labels);
  }

  // ---------------------------------------------------------------------
  // Decimal entry and sign toggle

  /** Pressing '.' twice is the same as pressing it once. */
  lemma DecimalIdempotent<N>(num: Numerics<N>, s: State<N>)
    ensures Step(num, Step(num, s, "."), ".") == Step(num, s, ".")
  {
  }

  /** Toggling the sign twice restores the display exactly, unless it begins with "--". */
  lemma ToggleSignTwice<N>(s: State<N>)
    requires !HasSign(Magnitude(s.displayValue))
    ensures ToggleSign(ToggleSign(s)) == s
  {
  }

  /** A display beginning with "--" loses both signs over two toggles: the precondition above is needed. */
  lemma ToggleSignTwiceNeedsSingleMinus<N>(s: State<N>)
    requires HasSign(Magnitude(s.displayValue))
    ensures ToggleSign(ToggleSign(s)) != s
  {
    assert |ToggleSign(ToggleSign(s)).displayValue| == |s.displayValue| - 2;
  }

  /** On every reachable state, two sign toggles are the identity. */
  lemma SignKeyTwiceOnReachable<N(!new)>(num: Numerics<N>, labels: seq<string>)
    requires FormatsValidly(num)
    ensures var s := Run(num, Initial(), labels);
            Step(num, Step(num, s, "+/-"), "+/-") == s
  {
    ReachableIsValid(num, labels);
    ToggleSignTwice(Run(num, Initial(), labels));
  }

  // ---------------------------------------------------------------------
  // Sessions

  lemma RunCons<N>(num: Numerics<N>, s: State<N>, keyLabel: string, rest: seq<string>)
    ensures Run(num, s, [keyLabel] + rest) == Run(num, Step(num, s, keyLabel), rest)
  {
    assert ([keyLabel] + rest)[1..] == rest;
  }

  lemma RunOne<N>(num: Numerics<N>, s: State<N>, keyLabel: string)
    ensures Run(num, s, [keyLabel]) == Step(num, s, keyLabel)
  {
    RunCons(num, s, keyLabel, []);
    assert [keyLabel] + [] == [keyLabel];
  }

  /** A session split in two runs its first part, then its second from where the first ended. */
  lemma {:induction false} RunAppend<N>(num: Numerics<N>, s: State<N>, xs: seq<string>, ys: seq<string>)
    ensures Run(num, s, xs + ys) == Run(num, Run(num, s, xs), ys)
    decreases |xs|
  {
    if xs == [] {
      assert xs + ys == ys;
    } else {
      assert (xs + ys)[0] == xs[0];
      assert (xs + ys)[1..] == xs[1..] + ys;
      RunAppend(num, Step(num, s, xs[0]), xs[1..], ys);
    }
  }

  // ---------------------------------------------------------------------
  // Digit entry

  /** One click per character of `ds`. */
  function DigitPresses(ds: string): (labels: seq<string>)
    ensures |labels| == |ds|
    ensures forall i :: 0 <= i < |ds| ==> labels[i] == [ds[i]]
  {
    if ds == "" then [] else [[ds[0]]] + DigitPresses(ds[1..])
  }

  function StripLeadingZeros(ds: string): (r: string)
    ensures |r| <= |ds| && r == ds[|ds| - |r|..]
    ensures r != "" ==> r[0] != '0'
  {
    if ds == "" then ""
    else if ds[0] == '0' then StripLeadingZeros(ds[1..])
    else ds
  }

  /** The digits typed, with leading zeros collapsed, and "0" when nothing but zeros was typed. */
  function Collapsed(ds: string): string
  {
    var t := StripLeadingZeros(ds);
    if t == "" then "0" else t
  }

  predicate AllDigits(ds: string)
  {
    forall i :: 0 <= i < |ds| ==> '0' <= ds[i] <= '9'
  }

  lemma PressDigit<N>(num: Numerics<N>, s: State<N>, c: char)
    requires '0' <= c <= '9'
    ensures Step(num, s, [c]) == InputDigit(s, [c])
  {
    assert IsDigits([c]);
  }

  /** A run of digit presses is digit entry of its first digit, then the rest. */
  lemma RunDigitsCons<N>(num: Numerics<N>, s: State<N>, ds: string)
    requires AllDigits(ds) && ds != ""
    ensures AllDigits(ds[1..])
    ensures Run(num, s, DigitPresses(ds)) == Run(num, InputDigit(s, [ds[0]]), DigitPresses(ds[1..]))
  {
    PressDigit(num, s, ds[0]);
    RunCons(num, s, [ds[0]], DigitPresses(ds[1..]));
  }

  /** Once the display holds something other than "0", digits are appended. */
  lemma {:induction false} DigitsAppend<N>(num: Numerics<N>, s: State<N>, ds: string)
    requires AllDigits(ds)
    requires !s.waitingForSecondOperand && s.displayValue != "0" && s.displayValue != ""
    ensures Run(num, s, DigitPresses(ds)) == s.(displayValue := s.displayValue + ds)
    decreases |ds|
  {
    if ds != "" {
      var s' := s.(displayValue := s.displayValue + [ds[0]]);
      RunDigitsCons(num, s, ds);
      assert InputDigit(s, [ds[0]]) == s';
      assert |s'.displayValue| >= 2;
      DigitsAppend(num, s', ds[1..]);
      AppendFirstThenRest(s.displayValue, ds);
    }
  }

  /** Appending the first character and then the rest appends the whole string. */
  lemma AppendFirstThenRest(d: string, ds: string)
    requires ds != ""
    ensures (d + [ds[0]]) + ds[1..] == d + ds
  {
    assert ds == [ds[0]] + ds[1..];
  }

  /** From a display of "0", digit presses show what was typed with leading zeros collapsed. */
  lemma {:induction false} DigitsFromZero<N>(num: Numerics<N>, s: State<N>, ds: string)
    requires AllDigits(ds)
    requires !s.waitingForSecondOperand && s.displayValue == "0"
    ensures Run(num, s, DigitPresses(ds)) == s.(displayValue := Collapsed(ds))
    decreases |ds|
  {
    if ds != "" {
      var s' := s.(displayValue := [ds[0]]);
      PressDigit(num, s, ds[0]);
      RunCons(num, s, [ds[0]], DigitPresses(ds[1..]));
      if ds[0] == '0' {
        DigitsFromZero(num, s', ds[1..]);
      } else {
        DigitsAppend(num, s', ds[1..]);
        assert [ds[0]] + ds[1..] == ds;
      }
    }
  }

  /**
   While waiting for a second operand, a non-empty run of digit presses starts
   a fresh number: the display shows the digits with leading zeros collapsed.
   */
  lemma DigitsAfterWaiting<N>(num: Numerics<N>, s: State<N>, ds: string)
    requires AllDigits(ds) && ds != ""
    requires s.waitingForSecondOperand
    ensures Run(num, s, DigitPresses(ds)) == s.(displayValue := Collapsed(ds), waitingForSecondOperand := false)
  {
    var s' := s.(displayValue := [ds[0]], waitingForSecondOperand := false);
    PressDigit(num, s, ds[0]);
    RunCons(num, s, [ds[0]], DigitPresses(ds[1..]));
    if ds[0] == '0' {
      DigitsFromZero(num, s', ds[1..]);
    } else {
      DigitsAppend(num, s', ds[1..]);
      assert [ds[0]] + ds[1..] == ds;
    }
  }

  /** After clear, a run of digit presses displays the digits typed, leading zeros collapsed. */
  lemma DigitsFromClear<N>(num: Numerics<N>, ds: string)
    requires AllDigits(ds)
    ensures Run(num, Initial(), DigitPresses(ds)) == Initial().(displayValue := Collapsed(ds))
  {
    DigitsFromZero(num, Initial(), ds);
  }

  // ---------------------------------------------------------------------
  // Arithmetic sessions

  /** `a op b =` from the start displays the operation's result and ends with nothing pending. */
  lemma SingleOperation<N>(num: Numerics<N>, a: string, op: Operator, b: string)
    requires IsDigits(a) && IsDigits(b)
    ensures Run(num, Initial(), [a, OperatorLabel(op), b, "="])
         == State(num.format(Calculate(num, num.parse(a), num.parse(b), op)), None, None, false)
  {
    var s1 := Step(num, Initial(), a);
    var s2 := Step(num, s1, OperatorLabel(op));
    var s3 := Step(num, s2, b);
    assert s1 == State(a, None, None, false);
    assert s2 == State(a, Some(num.parse(a)), Some(op), true);
    assert s3 == State(b, Some(num.parse(a)), Some(op), false);
    RunCons(num, Initial(), a, [OperatorLabel(op), b, "="]);
    RunCons(num, s1, OperatorLabel(op), [b, "="]);
    RunCons(num, s2, b, ["="]);
    RunCons(num, s3, "=", []);
  }

  /**
   `a op1 b op2 c =` resolves `a op1 b` when op2 is pressed and uses its result
   as the left operand of op2: evaluation is left to right, without precedence.
   */
  lemma ChainedLeftToRight<N>(num: Numerics<N>, a: string, op1: Operator, b: string, op2: Operator, c: string)
    requires IsDigits(a) && IsDigits(b) && IsDigits(c)
    ensures (var first := Calculate(num, num.parse(a), num.parse(b), op1);
             Run(num, Initial(), [a, OperatorLabel(op1), b, OperatorLabel(op2), c, "="])
             == State(num.format(Calculate(num, first, num.parse(c), op2)), None, None, false))
  {
    var first := Calculate(num, num.parse(a), num.parse(b), op1);
    var s1 := Step(num, Initial(), a);
    var s2 := Step(num, s1, OperatorLabel(op1));
    var s3 := Step(num, s2, b);
    var s4 := Step(num, s3, OperatorLabel(op2));
    var s5 := Step(num, s4, c);
    assert s1 == State(a, None, None, false);
    assert s2 == State(a, Some(num.parse(a)), Some(op1), true);
    assert s3 == State(b, Some(num.parse(a)), Some(op1), false);
    assert s4 == State(num.format(first), Some(first), Some(op2), true);
    assert s5 == State(c, Some(first), Some(op2), false);
    RunCons(num, Initial(), a, [OperatorLabel(op1), b, OperatorLabel(op2), c, "="]);
    RunCons(num, s1, OperatorLabel(op1), [b, OperatorLabel(op2), c, "="]);
    RunCons(num, s2, b, [OperatorLabel(op2), c, "="]);
    RunCons(num, s3, OperatorLabel(op2), [c, "="]);
    RunCons(num, s4, c, ["="]);
    RunCons(num, s5, "=", []);
  }

  /**
   `a op1 op2 b =`: the second operator press does not just replace the first;
   with the first operand and an operator pending it resolves `a op1 a` (the
   display still shows a) and applies op2 to that result and b.
   */
  lemma RepeatedOperatorResolves<N>(num: Numerics<N>, a: string, op1: Operator, op2: Operator, b: string)
    requires IsDigits(a) && IsDigits(b)
    ensures (var first := Calculate(num, num.parse(a), num.parse(a), op1);
             Run(num, Initial(), [a, OperatorLabel(op1), OperatorLabel(op2), b, "="])
             == State(num.format(Calculate(num, first, num.parse(b), op2)), None, None, false))
  {
    var first := Calculate(num, num.parse(a), num.parse(a), op1);
    var s1 := Step(num, Initial(), a);
    var s2 := Step(num, s1, OperatorLabel(op1));
    var s3 := Step(num, s2, OperatorLabel(op2));
    var s4 := Step(num, s3, b);
    assert s1 == State(a, None, None, false);
    assert s2 == State(a, Some(num.parse(a)), Some(op1), true);
    assert s3 == State(num.format(first), Some(first), Some(op2), true);
    assert s4 == State(b, Some(first), Some(op2), false);
    RunCons(num, Initial(), a, [OperatorLabel(op1), OperatorLabel(op2), b, "="]);
    RunCons(num, s1, OperatorLabel(op1), [OperatorLabel(op2), b, "="]);
    RunCons(num, s2, OperatorLabel(op2), [b, "="]);
    RunCons(num, s3, b, ["="]);
    RunCons(num, s4, "=", []);
  }

  /**
   The keypad session `a op b =`, with each operand typed digit by digit:
   the display shows the result of op on the two typed numbers (leading zeros
   collapsed; an empty `a` is the initial "0") and nothing is left pending.
   */
  lemma KeypadSingleOperation<N>(num: Numerics<N>, a: string, op: Operator, b: string)
    requires AllDigits(a) && AllDigits(b) && b != ""
    ensures Run(num, Initial(), DigitPresses(a) + [OperatorLabel(op)] + DigitPresses(b) + ["="])
         == State(num.format(Calculate(num, num.parse(Collapsed(a)), num.parse(Collapsed(b)), op)), None, None, false)
  {
    var pa := num.parse(Collapsed(a));
    var l1 := DigitPresses(a);
    var l2 := l1 + [OperatorLabel(op)];
    var l3 := l2 + DigitPresses(b);
    var s1 := State(Collapsed(a), None, None, false);
    var s2 := State(Collapsed(a), Some(pa), Some(op), true);
    var s3 := State(Collapsed(b), Some(pa), Some(op), false);
    DigitsFromClear(num, a);
    assert Run(num, Initial(), l1) == s1;
    OperatorClick(num, Initial(), l1, op);
    assert PerformOperation(num, s1, op) == s2;
    assert Run(num, Initial(), l2) == s2;
    DigitClicks(num, Initial(), l2, b);
    assert Run(num, Initial(), l3) == s3;
    EqualsClick(num, Initial(), l3);
  }

  /**
   The keypad session `a op1 b op2 c =`, each operand typed digit by digit:
   `a op1 b` is resolved when op2 is pressed and becomes op2's left operand,
   so evaluation is left to right, without precedence.
   */
  lemma KeypadChainedLeftToRight<N>(num: Numerics<N>, a: string, op1: Operator, b: string, op2: Operator, c: string)
    requires AllDigits(a) && AllDigits(b) && AllDigits(c) && b != "" && c != ""
    ensures (var first := Calculate(num, num.parse(Collapsed(a)), num.parse(Collapsed(b)), op1);
             Run(num, Initial(), DigitPresses(a) + [OperatorLabel(op1)] + DigitPresses(b) + [OperatorLabel(op2)]
                                 + DigitPresses(c) + ["="])
             == State(num.format(Calculate(num, first, num.parse(Collapsed(c)), op2)), None, None, false))
  {
    var pa := num.parse(Collapsed(a));
    var first := Calculate(num, pa, num.parse(Collapsed(b)), op1);
    var l1 := DigitPresses(a);
    var l2 := l1 + [OperatorLabel(op1)];
    var l3 := l2 + DigitPresses(b);
    var l4 := l3 + [OperatorLabel(op2)];
    var l5 := l4 + DigitPresses(c);
    var s1 := State(Collapsed(a), None, None, false);
    var s2 := State(Collapsed(a), Some(pa), Some(op1), true);
    var s3 := State(Collapsed(b), Some(pa), Some(op1), false);
    var s4 := State(num.format(first), Some(first), Some(op2), true);
    var s5 := State(Collapsed(c), Some(first), Some(op2), false);
    DigitsFromClear(num, a);
    assert Run(num, Initial(), l1) == s1;
    OperatorClick(num, Initial(), l1, op1);
    assert PerformOperation(num, s1, op1) == s2;
    assert Run(num, Initial(), l2) == s2;
    DigitClicks(num, Initial(), l2, b);
    assert Run(num, Initial(), l3) == s3;
    OperatorClick(num, Initial(), l3, op2);
    assert PerformOperation(num, s3, op2) == s4;
    assert Run(num, Initial(), l4) == s4;
    DigitClicks(num, Initial(), l4, c);
    assert Run(num, Initial(), l5) == s5;
    EqualsClick(num, Initial(), l5);
  }

  lemma OperatorClick<N>(num: Numerics<N>, s: State<N>, xs: seq<string>, op: Operator)
    ensures Run(num, s, xs + [OperatorLabel(op)]) == PerformOperation(num, Run(num, s, xs), op)
  {
    RunAppend(num, s, xs, [OperatorLabel(op)]);
    RunOne(num, Run(num, s, xs), OperatorLabel(op));
  }

  lemma EqualsClick<N>(num: Numerics<N>, s: State<N>, xs: seq<string>)
    ensures Run(num, s, xs + ["="]) == HandleEquals(num, Run(num, s, xs))
  {
    RunAppend(num, s, xs, ["="]);
    RunOne(num, Run(num, s, xs), "=");
  }

  lemma DigitClicks<N>(num: Numerics<N>, s: State<N>, xs: seq<string>, ds: string)
    requires AllDigits(ds) && ds != ""
    requires Run(num, s, xs).waitingForSecondOperand
    ensures Run(num, s, xs + DigitPresses(ds))
         == Run(num, s, xs).(displayValue := Collapsed(ds), waitingForSecondOperand := false)
  {
    RunAppend(num, s, xs, DigitPresses(ds));
    DigitsAfterWaiting(num, Run(num, s, xs), ds);
  }

  /**
   Equals clears the waiting flag, so a digit typed after a result is appended
   to the printed result rather than starting a new number.
   */
  lemma DigitAfterEqualsAppends<N>(num: Numerics<N>, s: State<N>, d: string)
    requires s.operator.Some? && s.firstOperand.Some?
    requires IsDigits(d)
    ensures var shown := Step(num, s, "=").displayValue;
            shown != "0" ==> Step(num, Step(num, s, "="), d).displayValue == shown + d
  {
    ControlLabelsAreNotDigits("=");
  }

  /** Equals with no pending operation changes nothing. */
  lemma EqualsWithoutPending<N>(num: Numerics<N>, s: State<N>)
    requires s.operator.None? || s.firstOperand.None?
    ensures Step(num, s, "=") == s
  {
  }
}
