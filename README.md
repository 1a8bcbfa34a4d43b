# BMI Calculator: the calculation core and the component state

The application is a single React/Ionic page (`src/App.tsx`). You enter a height and a weight, pick
metres/kilograms (`'mkg'`) or feet/pounds (`'ftlbs'`), and press calculate. `calculateBMI`
rejects a missing or non-positive number with one fixed Spanish message. Otherwise it converts
the numbers to metres and kilograms and stores `weight / (height * height)`. Three small handlers
reset the two fields, dismiss the error and switch the unit mode.

The project has three modules:

- `Wrappers` (`wrappers.dfy`): the `Option` type. `None` stands for an empty input field or a
  state value not yet set.
- `Calculator` (`calculator.dfy`): the pure part of `calculateBMI`. It holds the validation gate
  `ValidInputs`, the unit factors (2.2 lb/kg and 3.28 ft/m in `'ftlbs'` mode, 1 otherwise), the
  conversions, the formula `BodyMassIndex`, and `Calculate`, which returns `Success(bmi)` or
  `Failure(message)`. The lemmas beside them cover the exact formula in each mode, why the gate
  rejects an input, that the gate ignores the unit mode, and how the two modes relate.
- `App` (`app.dfy`): the component state.
  - `State` is a snapshot of it: the BMI, the error, the unit mode and the two field values.
  - `Step` says what each handler does to a snapshot, and `Run` replays a sequence of handler
    calls.
  - The class `AppState` keeps the same state in fields. Its methods `CalculateBmi`,
    `ResetInputs`, `ClearError` and `SelectCalcUnits` update those fields in place. Each method
    is proved equal to `Step` and also lists which fields it leaves alone.
  - Lemmas over `Run` prove an invariant that every reachable state keeps (a stored BMI is
    positive; the error is empty or the fixed message). They also prove that only the selector
    changes the unit mode, that only a calculation changes the BMI, and that a calculation right
    after a reset fails.

Numbers are Dafny `real`s. The constants 2.2 and 3.28 are exact, so there is no IEEE-754
rounding. The message is the Spanish text that `src/App.tsx:61` shows. Each field's text is
abstracted to `Option<real>`: `None` is empty text, which `!enteredHeight` / `!enteredWeight`
rejects.

The state `error` starts as `undefined` in the source (`src/App.tsx:44`), and `clearError` sets
it to `''`. Both are falsy for the alert, its only reader, so the model uses `""` for both.

The inputs are DOM elements reached through refs. The model keeps their values as two fields of
the state. The user typing into them is modelled by the `OnHeightInput` / `OnWeightInput` events
and the methods `EnterHeight` / `EnterWeight`.

## Model

| member | source | states |
|---|---|---|
| `Calculator.ValidInputs` | src/App.tsx:54-59 | Rejects exactly when a field is empty or a number is zero or negative. What it accepts converts to a positive height and weight in every unit mode, so the formula's division is defined. |
| `Calculator.WeightFactor` | src/App.tsx:66 | The weight factor is positive. It is 1, the identity conversion, exactly in `'mkg'` mode. |
| `Calculator.HeightFactor` | src/App.tsx:67 | The height factor is positive. It is 1, the identity conversion, exactly in `'mkg'` mode. |
| `Calculator.Calculate` | src/App.tsx:50-74 | Fails exactly when a field is empty or a number is not strictly positive, always with the fixed message. Otherwise the BMI is positive, and the BMI times the squared converted height gives back the converted weight. |
| `Calculator.ToKilograms` | src/App.tsx:66-69 | Multiplying the converted weight by the mode's factor (2.2 in `'ftlbs'`, 1 otherwise) gives back the entered number. A positive weight stays positive. |
| `Calculator.ToMetres` | src/App.tsx:66-70 | Multiplying the converted height by the mode's factor (3.28 in `'ftlbs'`, 1 otherwise) gives back the entered number. A positive height stays positive. |
| `Calculator.BodyMassIndex` | src/App.tsx:72 | For positive weight and height, the BMI is positive. It is the number that, multiplied by the squared height, gives back the weight. |
| `Calculator.ValidationIgnoresUnits` | src/App.tsx:54-59 | Whether the gate passes is the same in both unit modes. A rejection is the same outcome in both modes. |
| `Calculator.EmptyInputFails` | src/App.tsx:54-63 | An empty height or weight field yields the fixed message, in either mode. |
| `Calculator.NonPositiveFails` | src/App.tsx:57-63 | A zero or negative height or weight yields the fixed message, in either mode. |
| `Calculator.MetricFormula` | src/App.tsx:66-72 | In `'mkg'` mode, valid inputs give exactly `w / (h*h)` of the entered numbers. |
| `Calculator.ImperialFormula` | src/App.tsx:66-72 | In `'ftlbs'` mode, valid inputs give exactly `(w/2.2) / ((h/3.28)*(h/3.28))`. |
| `Calculator.ImperialIsMetricOfConverted` | src/App.tsx:66-72 | For every input, valid or not, calculating in `'ftlbs'` gives the same outcome as calculating in `'mkg'` on the height divided by 3.28 and the weight divided by 2.2. |
| `Calculator.ImperialScalesMetric` | src/App.tsx:66-72 | For the same valid numbers, the `'ftlbs'` BMI is the `'mkg'` BMI times 3.28²/2.2. |
| `App.Initial` | src/App.tsx:43-45 | The mount state is consistent. It shows no BMI and no error, and a calculation straight away is rejected with the fixed message because both fields are empty. |
| `App.Step` | src/App.tsx:50-87 | Each field has its own handlers. Only a calculation stores a BMI. Only a failed calculation (fixed message) or the alert's Okay button (empty) changes the error. Only the selector changes the unit mode. Only reset or typing into a field changes that field's value. A rejected calculation sets the fixed message and keeps the BMI. A successful one stores the BMI of `Calculate` and keeps the error. |
| `App.StepKeepsConsistent` | src/App.tsx:50-87 | Every handler keeps the invariant: a stored BMI is positive, and the error is empty or the fixed message. |
| `App.RunKeepsConsistent` | src/App.tsx:50-87 | Any sequence of handler calls keeps that invariant. |
| `App.ReachableIsConsistent` | src/App.tsx:43-45 | Every state reachable from mount (no BMI, no error, `'mkg'`) satisfies the invariant. |
| `App.UnitsAreLastSelected` | src/App.tsx:85-87 | After any sequence of handler calls, the unit mode is the one chosen by the last selector change, or the earlier mode if there was none. |
| `App.BmiChangesOnlyOnCalculate` | src/App.tsx:76-87 | Reset, dismissal, a unit change and typing never change the stored BMI. A unit change does not recompute it. |
| `App.ResetThenCalculateFails` | src/App.tsx:54-63 | After a reset, a calculation sets the fixed message and keeps the old BMI. Both fields stay empty. |
| `App.SuccessKeepsPendingError` | src/App.tsx:60-73 | A successful calculation stores the new BMI but does not clear an error set by an earlier rejected attempt: the fixed message stays in `error`. |
| `App.AppState.constructor` | src/App.tsx:43-45 | At mount there is no BMI and no error, the mode is `'mkg'`, and both fields are empty. |
| `App.AppState.CalculateBmi` | src/App.tsx:50-74 | On rejected inputs it sets only the error to the fixed message and returns, keeping the old BMI. Otherwise it stores the BMI of `Calculate` and leaves the error as it was. The unit mode and the fields never change, and the invariant is kept. |
| `App.AppState.ResetInputs` | src/App.tsx:76-79 | Empties both fields and changes nothing else. |
| `App.AppState.ClearError` | src/App.tsx:81-83 | Sets the error to empty and changes nothing else. |
| `App.AppState.SelectCalcUnits` | src/App.tsx:85-87 | Sets the unit mode and changes nothing else. In particular it does not recompute the BMI. |
| `App.AppState.EnterHeight` | src/App.tsx:129-132 | Typing into the height field changes only its value. |
| `App.AppState.EnterWeight` | src/App.tsx:142-145 | Typing into the weight field changes only its value. |
| `App.ResetThenCalculate` | src/App.tsx:54-79 | On the class: pressing reset and then calculate leaves the fixed message in `error`. It keeps the old BMI and the unit mode, and leaves both fields empty. |

## Left out

- JSX rendering, the Ionic components and the CSS imports (`src/App.tsx:1-40`, `89-167`): presentation only.
- `src/components/BmiResult.tsx`: it only formats the result to two decimals for display.
- Closing the alert any way other than its Okay button (`src/App.tsx:91-95` gives it no
  dismiss handler) is not modelled. Such a close leaves the message in `error`, so a later
  rejected calculation sets the same string again and no new alert need appear. The model
  states only what `error` holds, never whether an alert is on screen.
- The render guard `calculatedBmi && <BmiResult …/>` and the alert's `isOpen={!!error}`: these are
  view wiring. The invariant `Consistent` shows that a stored BMI is positive in exact
  arithmetic, so there the guard never hides a BMI.
- IEEE-754 doubles: the model computes in exact reals. It does not represent the rounding of 2.2
  and 3.28 or of the divisions. It also does not represent underflow to 0 or overflow to
  Infinity. For example, weight `1e-300` and height `1e20` in `'mkg'` pass the gate at
  `src/App.tsx:57-58`, but `weight / (height * height)` at `src/App.tsx:72` underflows to 0.
  The guard at `src/App.tsx:160` then hides the result.
- Text-to-number coercion (`+enteredWeight`) and NaN: the fields are abstracted to
  `Option<real>`. Non-numeric text becomes NaN in the source, and `NaN <= 0` is false, so the gate
  at `src/App.tsx:57-58` does not reject it. The model cannot express such text and makes no claim
  that it is rejected. The `type="number"` fields are what keep it out.
- React hooks and refs as mechanisms (`useState`, `useRef`, `current!`): only their effect on the
  state is modelled, as plain field updates. The asynchronous batching of state updates is not
  represented, since no handler reads a value it has just set.
- `src/components/BmiControls` and `src/components/InputControl` are not part of this model. `App`
  passes them only `onCalculate` and `onReset` (`src/App.tsx:149-152`), and `selectedValue` and
  `onSelectValue` (`src/App.tsx:117-120`).
