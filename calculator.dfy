/** The validation gate, the unit conversion and the BMI formula of `calculateBMI`
    (src/App.tsx), as pure functions over the two entered numbers and the unit mode. */
module Calculator {
  import opened Wrappers

  /** The two unit modes of the selector: `'mkg'` (metres, kilograms) and `'ftlbs'` (feet, pounds). */
  datatype Units = Mkg | FtLbs

  /** What one calculation yields: a BMI, or the single validation message. */
  datatype Outcome = Success(bmi: real) | Failure(message: string)

  /** The one message shown for every rejected input. */
  const ErrorMessage: string := "Por favor ingrese un valor valido (no ingrese numeros negativos)"

  /** The gate: both fields hold text, and both numbers are strictly positive. It rejects
      exactly when a field is empty or a number is zero or negative, and what it lets
      through converts to a positive height and weight in every mode, so the division
      of the formula is defined. */
  predicate ValidInputs(height: Option<real>, weight: Option<real>): (ok: bool)
    ensures !ok <==> height.None? || weight.None? || weight.value <= 0.0 || height.value <= 0.0
    ensures ok ==> forall units: Units ::
                     ToMetres(height.value, units) > 0.0 && ToKilograms(weight.value, units) > 0.0
  {
    height.Some? && weight.Some? && height.value > 0.0 && weight.value > 0.0
  }

  /** Pounds per kilogram in `'ftlbs'` mode, 1 otherwise: a positive factor, and the identity
      conversion exactly in `'mkg'` mode. */
  function WeightFactor(units: Units): (f: real)
    ensures f > 0.0
    ensures f == 1.0 <==> units.Mkg?
  {
    if units == FtLbs then 2.2 else 1.0
  }

  /** Feet per metre in `'ftlbs'` mode, 1 otherwise: a positive factor, and the identity
      conversion exactly in `'mkg'` mode. */
  function HeightFactor(units: Units): (f: real)
    ensures f > 0.0
    ensures f == 1.0 <==> units.Mkg?
  {
    if units == FtLbs then 3.28 else 1.0
  }

  /** The entered weight in kilograms; converting back with the factor gives the entered number. */
  function ToKilograms(weight: real, units: Units): (kg: real)
    ensures kg * WeightFactor(units) == weight
    ensures weight > 0.0 ==> kg > 0.0
  {
    weight / WeightFactor(units)
  }

  /** The entered height in metres; converting back with the factor gives the entered number. */
  function ToMetres(height: real, units: Units): (m: real)
    ensures m * HeightFactor(units) == height
    ensures height > 0.0 ==> m > 0.0
  {
    height / HeightFactor(units)
  }

  /** Body mass index in kg/m². The result is positive and is the unique number that,
      multiplied by the squared height, gives back the weight. */
  function BodyMassIndex(weightKg: real, heightM: real): (bmi: real)
    requires weightKg > 0.0 && heightM > 0.0
    ensures bmi > 0.0
    ensures bmi * (heightM * heightM) == weightKg
  {
    weightKg / (heightM * heightM)
  }

  /** One press of the calculate button, given the two fields and the unit mode.
      Fails with the fixed message exactly when the gate rejects the inputs; otherwise
      the BMI of the converted values, which is positive and gives back the entered weight. */
  function Calculate(height: Option<real>, weight: Option<real>, units: Units): (r: Outcome)
    ensures r.Failure? <==> !ValidInputs(height, weight)
    ensures r.Failure? ==> r.message == ErrorMessage
    ensures r.Success? ==> r.bmi > 0.0
    ensures r.Success? ==>
      var m := ToMetres(height.value, units);
      r.bmi * (m * m) == ToKilograms(weight.value, units)
  {
    if !ValidInputs(height, weight) then
      Failure(ErrorMessage)
    else
      Success(BodyMassIndex(ToKilograms(weight.value, units), ToMetres(height.value, units)))
  }

  /** Whether the gate passes never depends on the unit mode. */
  lemma ValidationIgnoresUnits(height: Option<real>, weight: Option<real>, u1: Units, u2: Units)
    ensures Calculate(height, weight, u1).Success? == Calculate(height, weight, u2).Success?
    ensures Calculate(height, weight, u1).Failure? ==>
              Calculate(height, weight, u1) == Calculate(height, weight, u2)
  {
  }

  /** An empty field is rejected with the fixed message, in either mode. */
  lemma EmptyInputFails(height: Option<real>, weight: Option<real>, units: Units)
    requires height.None? || weight.None?
    ensures Calculate(height, weight, units) == Failure(ErrorMessage)
  {
  }

  /** A zero or negative number is rejected with the fixed message, in either mode. */
  lemma NonPositiveFails(height: real, weight: real, units: Units)
    requires height <= 0.0 || weight <= 0.0
    ensures Calculate(Some(height), Some(weight), units) == Failure(ErrorMessage)
  {
  }

  /** In `'mkg'` mode both factors are 1: the BMI is the weight over the squared height as entered. */
  lemma MetricFormula(height: real, weight: real)
    requires height > 0.0 && weight > 0.0
    ensures Calculate(Some(height), Some(weight), Mkg) == Success(weight / (height * height))
  {
  }

  /** In `'ftlbs'` mode the pounds are divided by 2.2 and the feet by 3.28 before the formula. */
  lemma ImperialFormula(height: real, weight: real)
    requires height > 0.0 && weight > 0.0
    ensures Calculate(Some(height), Some(weight), FtLbs)
            == Success((weight / 2.2) / ((height / 3.28) * (height / 3.28)))
  {
  }

  /** Calculating in `'ftlbs'` is calculating in `'mkg'` on the converted numbers,
      for every input, valid or not. */
  lemma ImperialIsMetricOfConverted(height: real, weight: real)
    ensures Calculate(Some(height), Some(weight), FtLbs)
            == Calculate(Some(height / 3.28), Some(weight / 2.2), Mkg)
  {
  }

  /** For the same two numbers, the `'ftlbs'` BMI is the `'mkg'` BMI scaled by 3.28² / 2.2. */
  lemma ImperialScalesMetric(height: real, weight: real)
    requires height > 0.0 && weight > 0.0
    ensures Calculate(Some(height), Some(weight), FtLbs).bmi
            == Calculate(Some(height), Some(weight), Mkg).bmi * (3.28 * 3.28 / 2.2)
  {
  }
}
