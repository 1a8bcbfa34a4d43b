/** The state of the `App` component (src/App.tsx) and the handlers that update it.
    `State` is a snapshot of that state, `Step` says what each handler does to it and
    `Run` replays a sequence of handler calls; the class `AppState` holds the same state
    in fields and updates it in place, each method proved against `Step`. */
module App {
  import opened Wrappers
  import opened Calculator

  /** Everything the handlers read or write: the three `useState` values and the
      contents of the two number fields (`None` when a field is empty). */
  datatype State = State(
    calculatedBmi: Option<real>,
    error: string,
    calcUnits: Units,
    heightInput: Option<real>,
    weightInput: Option<real>)

  /** The handler calls that the page can make: the calculate and reset buttons,
      the alert's Okay button, the unit selector, and typing into either field. */
  datatype Event =
    | OnCalculate
    | OnReset
    | OnDismissError
    | OnSelectUnits(units: Units)
    | OnHeightInput(height: Option<real>)
    | OnWeightInput(weight: Option<real>)

  /** The state at mount: no BMI, no error, metric units, both fields empty. It is
      consistent, nothing is shown yet, and calculating straight away is rejected. */
  function Initial(): (s: State)
    ensures Consistent(s)
    ensures s.calculatedBmi.None? && s.error == ""
    ensures Calculate(s.heightInput, s.weightInput, s.calcUnits) == Failure(ErrorMessage)
  {
    State(None, "", Mkg, None, None)
  }

  /** What one handler call does to the state. Each field has its own handlers: only a
      calculation stores a BMI, only a calculation or the alert's Okay button changes the
      error, only the selector changes the unit mode, and only reset or typing changes a
      field's value. A rejected calculation keeps the BMI and a successful one keeps the error. */
  function Step(s: State, e: Event): (t: State)
    ensures t.calculatedBmi != s.calculatedBmi ==> e == OnCalculate && t.calculatedBmi.Some?
    ensures t.error != s.error ==>
              (e == OnCalculate && t.error == ErrorMessage) || (e == OnDismissError && t.error == "")
    ensures t.calcUnits != s.calcUnits ==> e == OnSelectUnits(t.calcUnits)
    ensures t.heightInput != s.heightInput ==> e == OnReset || e == OnHeightInput(t.heightInput)
    ensures t.weightInput != s.weightInput ==> e == OnReset || e == OnWeightInput(t.weightInput)
    ensures e == OnCalculate && Calculate(s.heightInput, s.weightInput, s.calcUnits).Failure? ==>
              t.calculatedBmi == s.calculatedBmi && t.error == ErrorMessage
    ensures e == OnCalculate && Calculate(s.heightInput, s.weightInput, s.calcUnits).Success? ==>
              t.error == s.error &&
              t.calculatedBmi == Some(Calculate(s.heightInput, s.weightInput, s.calcUnits).bmi)
  {
    match e
    case OnCalculate =>
      (match Calculate(s.heightInput, s.weightInput, s.calcUnits)
       case Failure(msg) => s.(error := msg)
       case Success(bmi) => s.(calculatedBmi := Some(bmi)))
    case OnReset => s.(heightInput := None, weightInput := None)
    case OnDismissError => s.(error := "")
    case OnSelectUnits(units) => s.(calcUnits := units)
    case OnHeightInput(height) => s.(heightInput := height)
    case OnWeightInput(weight) => s.(weightInput := weight)
  }

  /** The state after the handler calls `events`, in order. */
  function Run(s: State, events: seq<Event>): State
    decreases |events|
  {
    if events == [] then s else Run(Step(s, events[0]), events[1..])
  }

  /** What every reachable state satisfies: a stored BMI is positive, and the error is
      either absent or the one validation message. */
  predicate Consistent(s: State)
  {
    (s.calculatedBmi.Some? ==> s.calculatedBmi.value > 0.0) &&
    (s.error == "" || s.error == ErrorMessage)
  }

  /** Every handler keeps the state consistent. */
  lemma StepKeepsConsistent(s: State, e: Event)
    requires Consistent(s)
    ensures Consistent(Step(s, e))
  {
  }

  /** Any sequence of handler calls keeps the state consistent. */
  lemma {:induction false} RunKeepsConsistent(s: State, events: seq<Event>)
    requires Consistent(s)
    ensures Consistent(Run(s, events))
    decreases |events|
  {
    if events != [] {
      StepKeepsConsistent(s, events[0]);
      RunKeepsConsistent(Step(s, events[0]), events[1..]);
    }
  }

  /** Every state the page can reach from mount is consistent. */
  lemma ReachableIsConsistent(events: seq<Event>)
    ensures Consistent(Run(Initial(), events))
  {
    RunKeepsConsistent(Initial(), events);
  }

  /** Replaying `events` and then `e` is one more step after the replay. */
  lemma {:induction false} RunAppend(s: State, events: seq<Event>, e: Event)
    ensures Run(s, events + [e]) == Step(Run(s, events), e)
    decreases |events|
  {
    if events == [] {
      assert events + [e] == [e];
    } else {
      assert (events + [e])[1..] == events[1..] + [e];
      RunAppend(Step(s, events[0]), events[1..], e);
    }
  }

  /** The units chosen by the last selector change in `events`, or `units` if there is none. */
  function LastSelected(events: seq<Event>, units: Units): Units
    decreases |events|
  {
    if events == [] then units
    else if events[|events| - 1].OnSelectUnits? then events[|events| - 1].units
    else LastSelected(events[..|events| - 1], units)
  }

  /** The unit mode is whatever the selector was last set to; no other handler changes it. */
  lemma {:induction false} UnitsAreLastSelected(s: State, events: seq<Event>)
    ensures Run(s, events).calcUnits == LastSelected(events, s.calcUnits)
    decreases |events|
  {
    if events != [] {
      var init, last := events[..|events| - 1], events[|events| - 1];
      assert events == init + [last];
      RunAppend(s, init, last);
      UnitsAreLastSelected(s, init);
    }
  }

  /** Only a calculation changes the stored BMI: reset, dismissal, a unit change and
      typing all leave it, so a unit change does not recompute it. */
  lemma {:induction false} BmiChangesOnlyOnCalculate(s: State, events: seq<Event>)
    requires OnCalculate !in events
    ensures Run(s, events).calculatedBmi == s.calculatedBmi
    decreases |events|
  {
    if events != [] {
      assert events[0] != OnCalculate;
      assert OnCalculate !in events[1..];
      BmiChangesOnlyOnCalculate(Step(s, events[0]), events[1..]);
    }
  }

  /** A calculation right after a reset fails with the fixed message and keeps the old BMI,
      whatever the state and the unit mode. */
  lemma ResetThenCalculateFails(s: State)
    ensures Run(s, [OnReset, OnCalculate])
            == s.(heightInput := None, weightInput := None, error := ErrorMessage)
  {
    assert [OnReset, OnCalculate][1..] == [OnCalculate];
  }

  /** A successful calculation does not clear an error already set: after a rejected
      attempt, entering valid numbers and calculating again stores the new BMI and leaves
      the fixed message in the error. */
  lemma SuccessKeepsPendingError(s: State, height: real, weight: real)
    requires height > 0.0 && weight > 0.0
    ensures var t := Run(s, [OnReset, OnCalculate, OnHeightInput(Some(height)),
                             OnWeightInput(Some(weight)), OnCalculate]);
            t.error == ErrorMessage &&
            t.calculatedBmi == Some(Calculate(Some(height), Some(weight), s.calcUnits).bmi)
  {
    var events := [OnReset, OnCalculate, OnHeightInput(Some(height)),
                   OnWeightInput(Some(weight)), OnCalculate];
    var s1 := Step(s, OnReset);
    var s2 := Step(s1, OnCalculate);
    var s3 := Step(s2, OnHeightInput(Some(height)));
    var s4 := Step(s3, OnWeightInput(Some(weight)));
    assert Run(s, events) == Run(s1, events[1..]);
    assert Run(s1, events[1..]) == Run(s2, events[2..]);
    assert Run(s2, events[2..]) == Run(s3, events[3..]);
    assert Run(s3, events[3..]) == Run(s4, events[4..]);
    assert Run(s4, events[4..]) == Run(Step(s4, OnCalculate), []);
  }

  /** The component state, updated in place by the handlers. */
  class AppState {
    var calculatedBmi: Option<real>
    var error: string
    var calcUnits: Units
    var heightInput: Option<real>
    var weightInput: Option<real>

    /** The current values of all fields. */
    function Snapshot(): State
      reads this
    {
      State(calculatedBmi, error, calcUnits, heightInput, weightInput)
    }

    /** The object invariant. */
    ghost predicate Valid()
      reads this
    {
      Consistent(Snapshot())
    }

    /** Mounting the component. */
    constructor ()
      ensures Valid()
      ensures Snapshot() == Initial()
    {
      calculatedBmi := None;
      error := "";
      calcUnits := Mkg;
      heightInput := None;
      weightInput := None;
    }

    /** `calculateBMI`: on rejected inputs only the error is set, and the handler returns;
        otherwise only the BMI is stored. */
    method CalculateBmi()
      requires Valid()
      modifies this
      ensures Valid()
      ensures Snapshot() == Step(old(Snapshot()), OnCalculate)
      ensures !ValidInputs(old(heightInput), old(weightInput)) ==>
                error == ErrorMessage && calculatedBmi == old(calculatedBmi)
      ensures ValidInputs(old(heightInput), old(weightInput)) ==>
                calculatedBmi == Some(Calculate(heightInput, weightInput, calcUnits).bmi) &&
                error == old(error)
      ensures calcUnits == old(calcUnits)
      ensures heightInput == old(heightInput) && weightInput == old(weightInput)
    {
      var enteredWeight := weightInput;
      var enteredHeight := heightInput;
      if enteredHeight.None? || enteredWeight.None? ||
         enteredWeight.value <= 0.0 || enteredHeight.value <= 0.0
      {
        error := ErrorMessage;
        return;
      }
      var weightConvertFactor := if calcUnits == FtLbs then 2.2 else 1.0;
      var heightConvertFactor := if calcUnits == FtLbs then 3.28 else 1.0;
      var weight := enteredWeight.value / weightConvertFactor;
      var height := enteredHeight.value / heightConvertFactor;
      var bmi := weight / (height * height);
      assert weight == ToKilograms(enteredWeight.value, calcUnits);
      assert height == ToMetres(enteredHeight.value, calcUnits);
      assert bmi == BodyMassIndex(weight, height);
      calculatedBmi := Some(bmi);
    }

    /** `resetInputs`: empties both fields and nothing else. */
    method ResetInputs()
      requires Valid()
      modifies this
      ensures Valid()
      ensures Snapshot() == Step(old(Snapshot()), OnReset)
      ensures heightInput == None && weightInput == None
      ensures calculatedBmi == old(calculatedBmi) && error == old(error)
      ensures calcUnits == old(calcUnits)
    {
      weightInput := None;
      heightInput := None;
    }

    /** `clearError`: the alert's Okay button empties the error and nothing else. */
    method ClearError()
      requires Valid()
      modifies this
      ensures Valid()
      ensures Snapshot() == Step(old(Snapshot()), OnDismissError)
      ensures error == ""
      ensures calculatedBmi == old(calculatedBmi) && calcUnits == old(calcUnits)
      ensures heightInput == old(heightInput) && weightInput == old(weightInput)
    {
      error := "";
    }

    /** `selectCalcUnitsHandler`: sets the unit mode and nothing else; the BMI is not recomputed. */
    method SelectCalcUnits(selectedValue: Units)
      requires Valid()
      modifies this
      ensures Valid()
      ensures Snapshot() == Step(old(Snapshot()), OnSelectUnits(selectedValue))
      ensures calcUnits == selectedValue
      ensures calculatedBmi == old(calculatedBmi) && error == old(error)
      ensures heightInput == old(heightInput) && weightInput == old(weightInput)
    {
      calcUnits := selectedValue;
    }

    /** Typing into the height field (`type="number"`): only its value changes. */
    method EnterHeight(height: Option<real>)
      requires Valid()
      modifies this
      ensures Valid()
      ensures Snapshot() == Step(old(Snapshot()), OnHeightInput(height))
      ensures heightInput == height
      ensures calculatedBmi == old(calculatedBmi) && error == old(error)
      ensures calcUnits == old(calcUnits) && weightInput == old(weightInput)
    {
      heightInput := height;
    }

    /** Typing into the weight field (`type="number"`): only its value changes. */
    method EnterWeight(weight: Option<real>)
      requires Valid()
      modifies this
      ensures Valid()
      ensures Snapshot() == Step(old(Snapshot()), OnWeightInput(weight))
      ensures weightInput == weight
      ensures calculatedBmi == old(calculatedBmi) && error == old(error)
      ensures calcUnits == old(calcUnits) && heightInput == old(heightInput)
    {
      weightInput := weight;
    }
  }

  /** A session against the class: calculating after a reset leaves the fixed message in the error. */
  method ResetThenCalculate(app: AppState)
    requires app.Valid()
    modifies app
    ensures app.Valid()
    ensures app.error == ErrorMessage
    ensures app.calculatedBmi == old(app.calculatedBmi)
    ensures app.heightInput == None && app.weightInput == None
    ensures app.calcUnits == old(app.calcUnits)
  {
    app.ResetInputs();
    app.CalculateBmi();
  }
}
