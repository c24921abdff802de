# Calculator engine

A Dafny model of the calculator engine inside the `App` component of
`App.tsx`: an on-screen keypad calculator with one running display and at most
one pending binary operation. The engine owns four state variables
(`displayValue`, `firstOperand`, `operator`, `waitingForSecondOperand`); a
button click hands the key's label to `handleButtonClick`, which routes it to
one of seven handlers (digit entry, decimal point, clear, sign toggle, percent,
operator selection, equals).

The project has three modules:

- `CalcEngine` (`calc_engine.dfy`) — the engine as a pure transition system:
  a `State` record with the four variables, one function per handler, the
  binary compute `Calculate`, the classification of a label into a `Key`,
  the dispatcher `Step` and `Run`, a session of clicks. It also defines the
  engine's invariant `Inv`: a display with something after its optional
  sign, at most one leading minus and at most one decimal point, and a
  pending operation that is consistent (a first operand exactly when an
  operator is pending, and waiting only while an operator is pending).
- `CalcProperties` (`calc_properties.dfy`) — lemmas about the engine:
  routing of labels and the keypad, preservation of the invariant by every
  click and every session, idempotence of the decimal point, the sign-toggle
  round trip, what a run of digit presses displays, and what the arithmetic
  sessions compute (left-to-right chaining without precedence).
- `CalcApp` (`calc_app.dfy`) — the component as a class `Calculator` with the
  four variables as fields and one method per handler that updates them in
  place; each method's postcondition is the `CalcEngine` transition it
  performs, and `HandleButtonClick` also keeps `Inv`.

JavaScript numbers are not modelled. `parseFloat`, `String(number)`, the
four arithmetic operators and the constant 100 that percent divides by are the
fields of a `Numerics<N>` record over an abstract number type `N`, passed to
every transition, so each property holds whatever those operations compute.
Where a property needs something of `String(number)`, it assumes only
`FormatsValidly`: every number prints as a display with at most one `.` and
at most one leading `-`, which JavaScript's number printing satisfies.

Three behaviours of the code differ from what a desk calculator usually does;
the model follows the code:

- A desk calculator lets a second operator pressed right after a first
  (`5 + - 3 =`) replace the pending operator, giving 2. The code instead
  resolves the pending operation with the display (still `5`) as second
  operand, so the session computes `(5 + 5) - 3`. `RepeatedOperatorResolves`
  states what the code does.
- A desk calculator starts a new number when a digit is typed after a result.
  The code clears the waiting flag on equals (App.tsx:112), so a digit typed
  after a result is appended to the printed result. `DigitAfterEqualsAppends`
  states this.
- Toggling the sign twice usually restores the display. The code strips one
  leading `-` or prepends one, so on a display that starts with `--` two
  toggles do not restore it (`ToggleSignTwiceNeedsSingleMinus`); no reachable
  display starts that way, so the round trip holds on every reachable state
  (`SignKeyTwiceOnReachable`).

## Model

| member | source | states |
|---|---|---|
| CalcEngine.Initial | App.tsx:26-29 | display "0", no operand, no operator, not waiting |
| CalcEngine.Calculate | App.tsx:86-103 | maps each operator to the matching Numerics operation, left operand first |
| CalcEngine.InputDigit | App.tsx:31-38 | while waiting, the display becomes exactly the digits and waiting ends; otherwise a display of "0" is replaced by the digits and any other display gets them appended; operand and operator are untouched |
| CalcEngine.InputDecimal | App.tsx:40-49 | while waiting, the display becomes "0." and waiting ends; otherwise a point is appended only when the display has none, and the state is unchanged when it has one; afterwards the display always holds a point |
| CalcEngine.ClearInput | App.tsx:51-56 | from any state the result is exactly the initial state: display "0", no operand, no operator, not waiting |
| CalcEngine.ToggleSign | App.tsx:58-64 | strips a leading '-' or prepends one and changes no other field; on a valid display it flips the sign and keeps the magnitude string |
| CalcEngine.InputPercent | App.tsx:66-69 | the display becomes the printed value of the parsed display divided by 100; no other field changes, the waiting flag included |
| CalcEngine.PerformOperation | App.tsx:71-103 | always ends waiting with the new operator pending; with no first operand it records the parsed display and keeps the display; with operand and operator pending it shows and records the pending operation's result on the parsed display; with an operand but no operator it keeps both |
| CalcEngine.HandleEquals | App.tsx:86-114 | with operator and first operand pending, displays their result on the parsed display and clears operand, operator and waiting; otherwise the state is unchanged |
| CalcEngine.Classify | App.tsx:116-143 | a label is digit entry exactly when it is a non-empty string of decimal digits, and then carries the label; each of the nine control labels maps to its handler; every other label is ignored |
| CalcEngine.Step | App.tsx:116-143 | digit labels run digit entry on the label, ".", "AC", "+/-", "%", "+", "-", "*", "/" and "=" run their handler (the operators with their own operator), and any other label leaves the state unchanged |
| CalcEngine.ControlLabelsAreNotDigits | App.tsx:117-142 | no control label is a digit string, so the digit test and the switch never both apply |
| CalcProperties.ClassifyLabel | App.tsx:120-142 | every key with a label is classified back from that label |
| CalcProperties.LabelOfClassified | App.tsx:116-143 | every label that is not ignored is the label of the key it is classified as |
| CalcProperties.KeypadIsHandled | App.tsx:146-166 | none of the keypad's nineteen labels is ignored, exactly its single digits go to digit entry, and every control label and every digit 0-9 is on the keypad |
| CalcProperties.InitialIsValid | App.tsx:26-29 | the initial state satisfies the engine invariant |
| CalcProperties.StringHandlersKeepOneDot | App.tsx:31-64 | digit entry, decimal entry and sign toggle never make a display with at most one '.' hold two |
| CalcProperties.NoDotInDigits | App.tsx:117-118 | a label routed to digit entry holds no '.' |
| CalcProperties.StepKeepsPendingConsistent | App.tsx:51-114 | for any number semantics, every click keeps "first operand recorded iff operator pending" and "waiting implies operator pending" |
| CalcProperties.AppendKeepsShape | App.tsx:36-47 | appending to a valid display keeps one optional leading minus and a non-empty magnitude |
| CalcProperties.DigitPreservesValidDisplay | App.tsx:31-38 | digit entry keeps the display valid |
| CalcProperties.DecimalPreservesValidDisplay | App.tsx:40-49 | decimal entry keeps the display valid |
| CalcProperties.SignPreservesValidDisplay | App.tsx:58-64 | sign toggle keeps the display valid |
| CalcProperties.ApplyPreservesInv | App.tsx:31-114 | every handler keeps the whole invariant when numbers print as valid displays |
| CalcProperties.StepPreservesInv | App.tsx:116-143 | every click keeps the whole invariant when numbers print as valid displays |
| CalcProperties.RunPreservesInv | App.tsx:116-143 | every session of clicks from a valid state ends in a valid state |
| CalcProperties.ReachableIsValid | App.tsx:26-143 | every state reachable from the initial state satisfies the invariant |
| CalcProperties.DecimalIdempotent | App.tsx:40-49 | pressing "." twice gives the same state as pressing it once |
| CalcProperties.ToggleSignTwice | App.tsx:58-64 | two sign toggles restore the state whenever the display does not start with "--" |
| CalcProperties.ToggleSignTwiceNeedsSingleMinus | App.tsx:58-64 | on every display that starts with "--" two toggles do not restore the state, so with ToggleSignTwice the round trip holds exactly when the display does not start with "--" |
| CalcProperties.SignKeyTwiceOnReachable | App.tsx:58-64 | on every reachable state, pressing "+/-" twice restores the state exactly |
| CalcProperties.RunCons | App.tsx:116-143 | a session is its first click followed by the rest |
| CalcProperties.RunOne | App.tsx:116-143 | a session of one click is that click |
| CalcProperties.RunAppend | App.tsx:116-143 | a session of two parts is the second part run from where the first part ends |
| CalcProperties.OperatorClick | App.tsx:71-84 | an operator label at the end of a session runs operator selection on the state the session reached |
| CalcProperties.EqualsClick | App.tsx:105-114 | "=" at the end of a session runs equals on the state the session reached |
| CalcProperties.PressDigit | App.tsx:117-118 | a single digit label runs digit entry |
| CalcProperties.RunDigitsCons | App.tsx:31-38 | a run of digit presses is digit entry of the first digit followed by presses of the rest |
| CalcProperties.DigitsAppend | App.tsx:31-38 | once the display is neither "0" nor empty and not waiting, typed digits are appended one by one |
| CalcProperties.DigitsFromZero | App.tsx:31-38 | from a display of "0", typed digits show with leading zeros collapsed, and "0" if only zeros were typed |
| CalcProperties.DigitsAfterWaiting | App.tsx:31-38 | while waiting for a second operand, typed digits replace the display with the digits, leading zeros collapsed, and end waiting; operand and operator are kept |
| CalcProperties.DigitClicks | App.tsx:31-38 | digits typed after a session that ends waiting display the collapsed digits and end waiting, keeping operand and operator |
| CalcProperties.DigitsFromClear | App.tsx:26-38 | from the initial state, a run of digit presses displays the typed digits with leading zeros collapsed and changes nothing else |
| CalcProperties.SingleOperation | App.tsx:71-114 | `a op b =` from the initial state displays the printed result of `a op b` and leaves nothing pending |
| CalcProperties.ChainedLeftToRight | App.tsx:71-114 | `a op1 b op2 c =` displays `(a op1 b) op2 c`: operators resolve left to right without precedence |
| CalcProperties.KeypadSingleOperation | App.tsx:31-114 | typing the digits of a, an operator, the digits of b and "=" from the initial state displays the printed result of a op b, each operand read from its digits with leading zeros collapsed, and leaves nothing pending |
| CalcProperties.KeypadChainedLeftToRight | App.tsx:31-114 | typing a op1 b op2 c = digit by digit displays (a op1 b) op2 c: operators resolve left to right without precedence |
| CalcProperties.RepeatedOperatorResolves | App.tsx:71-84 | `a op1 op2 b =` displays `(a op1 a) op2 b`: a second operator press resolves the pending operation with the display as second operand |
| CalcProperties.DigitAfterEqualsAppends | App.tsx:105-114 | after equals resolves a pending operation, a typed digit is appended to the printed result (unless it is "0") |
| CalcProperties.EqualsWithoutPending | App.tsx:105-114 | equals with no pending operator or no first operand leaves the state unchanged |
| CalcApp.Calculator.constructor | App.tsx:26-29 | the fields start as the initial state, which satisfies the invariant |
| CalcApp.Calculator.InputDigit | App.tsx:31-38 | updates the fields in place to the digit-entry transition of the old fields |
| CalcApp.Calculator.InputDecimal | App.tsx:40-49 | updates the fields in place to the decimal-entry transition, returning early while waiting |
| CalcApp.Calculator.ClearInput | App.tsx:51-56 | sets the fields to the initial state |
| CalcApp.Calculator.ToggleSign | App.tsx:58-64 | updates the display in place to the sign-toggle transition |
| CalcApp.Calculator.InputPercent | App.tsx:66-69 | updates the display in place to the percent transition |
| CalcApp.Calculator.PerformOperation | App.tsx:71-84 | updates the fields in place to the operator-selection transition |
| CalcApp.Calculator.HandleEquals | App.tsx:105-114 | updates the fields in place to the equals transition |
| CalcApp.Calculator.HandleButtonClick | App.tsx:116-143 | updates the fields to the dispatcher's transition for the label, and keeps the invariant when numbers print as valid displays |

## Left out

- Floating point: `parseFloat`, `String(number)` and JavaScript's `+ - * /` (including infinity and NaN from division by zero) are abstract fields of `Numerics`; no concrete output such as "0.5" or "8" is proved.
- Classify: JavaScript's `!isNaN(Number(label))` also routes strings such as "", " 1", "1.5", "1e3", "0x1F" or "Infinity" to digit entry; the model routes only non-empty strings of decimal digits there and ignores the rest. Every keypad label is covered exactly.
- Calculate: the `default` branch of the source's switch returns the second operand; it cannot be taken with a typed operator, and the model's operator type has only the four cases.
- ToggleSignTwice: the round trip is proved only for displays that do not start with "--", since on such a display it fails; every reachable display qualifies.
- StepPreservesInv: the display half of the invariant rests on `FormatsValidly`, an assumption about how JavaScript prints numbers, not something proved.
- The `CalculatorButton` component, the button layout's styling, the JSX tree and rendering are presentation and are not modelled.
- React's asynchronous state batching: each handler call is one atomic transition in which every read sees the values from before the call, as the handlers do.
