/**
 * The form state of the calculator component: the four inputs and the
 * activity multiplier, the completion progress effect, the completeness test
 * that enables the button, and the two-phase calculation (start now, install
 * the result when the deferred step fires).
 */
module Form {
  import opened Optional
  import opened Engine
  import Activity

  /** A decimal text field: what the user typed, and what parseFloat made of it (None stands for NaN). */
  datatype NumberField = NumberField(text: string, parsed: Option<real>) {
    /** The string itself is truthy. */
    predicate Filled() { text != "" }
    /** The parsed number is truthy: neither NaN nor zero. */
    predicate Truthy() { parsed.Some? && parsed.value != 0.0 }
    /** Parsing the empty string gives NaN. */
    predicate WellFormed() { text == "" ==> parsed.None? }
  }

  /** The age text field, read with parseInt. */
  datatype IntegerField = IntegerField(text: string, parsed: Option<int>) {
    predicate Filled() { text != "" }
    predicate Truthy() { parsed.Some? && parsed.value != 0 }
    predicate WellFormed() { text == "" ==> parsed.None? }
  }

  datatype FormField = AgeField | WeightField | HeightField | GenderField

  const AllFields: set<FormField> := {AgeField, WeightField, HeightField, GenderField}

  predicate IsFilled(f: FormField, age: IntegerField, weight: NumberField, height: NumberField, gender: Option<Sex>) {
    match f
    case AgeField => age.Filled()
    case WeightField => weight.Filled()
    case HeightField => height.Filled()
    case GenderField => gender.Some?
  }

  /** The fields the progress bar counts as present. */
  function FilledFields(age: IntegerField, weight: NumberField, height: NumberField, gender: Option<Sex>): (r: set<FormField>)
    ensures r <= AllFields
  {
    set f | f in AllFields && IsFilled(f, age, weight, height, gender)
  }

  /** Completion percentage: a quarter for each present field. */
  function Progress(age: IntegerField, weight: NumberField, height: NumberField, gender: Option<Sex>): int {
    25 * |FilledFields(age, weight, height, gender)|
  }

  /** The present fields, listed field by field. */
  lemma FilledFieldsByField(age: IntegerField, weight: NumberField, height: NumberField, gender: Option<Sex>)
    ensures FilledFields(age, weight, height, gender)
         == (if age.Filled() then {AgeField} else {}) + (if weight.Filled() then {WeightField} else {})
          + (if height.Filled() then {HeightField} else {}) + (if gender.Some? then {GenderField} else {})
  {
  }

  lemma AllFieldsSize()
    ensures |AllFields| == 4
  {
  }

  /** Progress is always one of 0, 25, 50, 75 and 100. */
  lemma {:induction false} ProgressValues(age: IntegerField, weight: NumberField, height: NumberField, gender: Option<Sex>)
    ensures Progress(age, weight, height, gender) in {0, 25, 50, 75, 100}
  {
    var s := FilledFields(age, weight, height, gender);
    AllFieldsSize();
    SubsetSize(s, AllFields);
  }

  lemma SubsetSize(s: set<FormField>, t: set<FormField>)
    requires s <= t
    ensures |s| <= |t|
    ensures |s| == |t| ==> s == t
    decreases t
  {
    if s != {} {
      var x :| x in s;
      SubsetSize(s - {x}, t - {x});
      if |s| == |t| {
        assert s - {x} == t - {x};
        assert s == (s - {x}) + {x} && t == (t - {x}) + {x};
      }
    }
  }

  /** Progress reaches 100 exactly when all four fields are present. */
  lemma ProgressFull(age: IntegerField, weight: NumberField, height: NumberField, gender: Option<Sex>)
    ensures Progress(age, weight, height, gender) == 100
        <==> age.Filled() && weight.Filled() && height.Filled() && gender.Some?
  {
    var s := FilledFields(age, weight, height, gender);
    AllFieldsSize();
    SubsetSize(s, AllFields);
    if |s| == 4 {
      assert IsFilled(AgeField, age, weight, height, gender);
      assert IsFilled(WeightField, age, weight, height, gender);
      assert IsFilled(HeightField, age, weight, height, gender);
      assert IsFilled(GenderField, age, weight, height, gender);
    }
    if age.Filled() && weight.Filled() && height.Filled() && gender.Some? {
      assert s == AllFields;
    }
  }

  /**
   * The guard at the top of `calculateCalories`: it goes on only when the
   * parsed weight, height and age are truthy and a sex is selected, and then
   * hands those numbers to the engine. Negative numbers are truthy.
   */
  function Gate(age: IntegerField, weight: NumberField, height: NumberField, gender: Option<Sex>, factor: real): (r: Option<BiometricInput>)
    ensures r.Some? <==> weight.Truthy() && height.Truthy() && age.Truthy() && gender.Some?
    ensures r.Some? ==> r.value.height != 0.0
    ensures r.Some? ==> r.value == BiometricInput(gender.value, age.parsed.value, weight.parsed.value, height.parsed.value, factor)
  {
    if !weight.Truthy() || !height.Truthy() || !age.Truthy() || gender.None? then None
    else Some(BiometricInput(gender.value, age.parsed.value, weight.parsed.value, height.parsed.value, factor))
  }

  /** Whenever the gate lets a calculation through, the progress bar already shows 100. */
  lemma GateImpliesFullProgress(age: IntegerField, weight: NumberField, height: NumberField, gender: Option<Sex>, factor: real)
    requires age.WellFormed() && weight.WellFormed() && height.WellFormed()
    requires Gate(age, weight, height, gender, factor).Some?
    ensures Progress(age, weight, height, gender) == 100
  {
    ProgressFull(age, weight, height, gender);
  }

  /** The converse fails: a field holding "0" counts as present, but the gate rejects its value. */
  lemma FullProgressDoesNotImplyGate()
    ensures var age, w, h := IntegerField("30", Some(30)), NumberField("0", Some(0.0)), NumberField("165", Some(165.0));
      && Progress(age, w, h, Some(Female)) == 100
      && Gate(age, w, h, Some(Female), Activity.DefaultFactor).None?
  {
    ProgressFull(IntegerField("30", Some(30)), NumberField("0", Some(0.0)), NumberField("165", Some(165.0)), Some(Female));
  }

  /** Negative numbers pass the gate. */
  lemma GateAcceptsNegative()
    ensures Gate(IntegerField("-5", Some(-5)), NumberField("-1", Some(-1.0)), NumberField("-1", Some(-1.0)), Some(Male), 1.2).Some?
  {
  }

  /** The state of the `App` component that the calculation reads and writes. */
  class Calculator {
    var age: IntegerField
    var gender: Option<Sex>
    var weight: NumberField
    var height: NumberField
    var activityLevel: real
    var result: Option<CalorieResult>
    var showResults: bool
    var formProgress: int
    var isCalculating: bool
    var previousResult: Option<CalorieResult>
    /** The bundle held by the deferred step that `calculateCalories` has scheduled and that has not yet run. */
    var scheduled: Option<CalorieResult>

    /**
     * The fields hold what parsing can give, the multiplier is a table entry,
     * the progress effect has run, a scheduled step means a calculation is in
     * flight, and results are shown only once there is one.
     */
    ghost predicate Valid()
      reads this
    {
      && age.WellFormed() && weight.WellFormed() && height.WellFormed()
      && Activity.IsFactor(activityLevel)
      && formProgress == Progress(age, weight, height, gender)
      && (scheduled.Some? ==> isCalculating)
      && (showResults ==> result.Some?)
    }

    /** The initial state: empty fields, no sex chosen, moderate exercise, no result. */
    constructor ()
      ensures Valid()
      ensures age == IntegerField("", None) && gender == None
      ensures weight == NumberField("", None) && height == NumberField("", None)
      ensures activityLevel == Activity.DefaultFactor
      ensures result == None && previousResult == None
      ensures !showResults && !isCalculating && formProgress == 0 && scheduled == None
    {
      age := IntegerField("", None);
      gender := None;
      weight := NumberField("", None);
      height := NumberField("", None);
      activityLevel := Activity.DefaultFactor;
      result := None;
      showResults := false;
      formProgress := 0;
      isCalculating := false;
      previousResult := None;
      scheduled := None;
      new;
      Activity.DefaultIsFactor();
      assert FilledFields(age, weight, height, gender) == {};
    }

    /** The progress effect: a quarter for each present field, added up one field at a time. */
    method RefreshProgress()
      modifies this`formProgress
      ensures formProgress == Progress(age, weight, height, gender)
    {
      var progress := 0;
      if age.Filled() {
        progress := progress + 25;
      }
      if weight.Filled() {
        progress := progress + 25;
      }
      if height.Filled() {
        progress := progress + 25;
      }
      if gender.Some? {
        progress := progress + 25;
      }
      FilledFieldsByField(age, weight, height, gender);
      formProgress := progress;
    }

    method SetAge(f: IntegerField)
      requires Valid() && f.WellFormed()
      modifies this`age, this`formProgress
      ensures Valid() && age == f
    {
      age := f;
      RefreshProgress();
    }

    method SetWeight(f: NumberField)
      requires Valid() && f.WellFormed()
      modifies this`weight, this`formProgress
      ensures Valid() && weight == f
    {
      weight := f;
      RefreshProgress();
    }

    method SetHeight(f: NumberField)
      requires Valid() && f.WellFormed()
      modifies this`height, this`formProgress
      ensures Valid() && height == f
    {
      height := f;
      RefreshProgress();
    }

    method SetGender(s: Sex)
      requires Valid()
      modifies this`gender, this`formProgress
      ensures Valid() && gender == Some(s)
    {
      gender := Some(s);
      RefreshProgress();
    }

    /** The dropdown only ever offers the table's multipliers. */
    method SetActivityLevel(f: real)
      requires Valid() && Activity.IsFactor(f)
      modifies this`activityLevel
      ensures Valid() && activityLevel == f
    {
      activityLevel := f;
    }

    /** isFormComplete: the button is enabled exactly when progress is 100 and no calculation is in flight. */
    function IsFormComplete(): (r: bool)
      reads this
      requires Valid()
      ensures r <==> formProgress == 100 && !isCalculating
    {
      ProgressFull(age, weight, height, gender);
      age.Filled() && weight.Filled() && height.Filled() && gender.Some? && !isCalculating
    }

    /**
     * The first phase of `calculateCalories`. When the gate rejects, nothing
     * changes. Otherwise the old result becomes the previous one, the
     * calculation is marked in flight, and the new bundle is handed to the
     * deferred step.
     */
    method Calculate()
      requires Valid()
      modifies this`isCalculating, this`previousResult, this`scheduled
      ensures Valid()
      ensures Gate(age, weight, height, gender, activityLevel).None? ==>
        isCalculating == old(isCalculating) && previousResult == old(previousResult) && scheduled == old(scheduled)
      ensures Gate(age, weight, height, gender, activityLevel).Some? ==>
        && isCalculating && previousResult == old(result) && formProgress == 100
        && scheduled == Some(Compute(Gate(age, weight, height, gender, activityLevel).value))
    {
      var input := Gate(age, weight, height, gender, activityLevel);
      if input.None? {
        return;
      }
      isCalculating := true;
      previousResult := result;
      GateImpliesFullProgress(age, weight, height, gender, activityLevel);
      scheduled := Some(Compute(input.value));
    }

    /** The deferred second phase: install the scheduled bundle, show it, and clear the in-flight flag. */
    method Finish()
      requires Valid() && scheduled.Some?
      modifies this`result, this`showResults, this`isCalculating, this`scheduled
      ensures Valid()
      ensures result == old(scheduled) && showResults && !isCalculating && scheduled == None
    {
      result := scheduled;
      showResults := true;
      isCalculating := false;
      scheduled := None;
    }
  }

  /** A user session: fill the form, calculate, then change the weight and calculate again. */
  method Session() {
    var app := new Calculator();
    assert !app.IsFormComplete();
    app.SetGender(Male);
    app.SetAge(IntegerField("25", Some(25)));
    app.SetWeight(NumberField("70", Some(70.0)));
    app.SetHeight(NumberField("175", Some(175.0)));
    assert app.IsFormComplete();

    app.Calculate();
    assert app.scheduled.Some? && app.isCalculating && !app.IsFormComplete();
    MaleScenario();
    app.Finish();
    assert app.result.Some? && app.result.value.bmr == 1674 && app.result.value.maintenance == 2452;
    var first := app.result;

    app.SetWeight(NumberField("0", Some(0.0)));
    assert app.IsFormComplete();
    app.Calculate();
    assert app.scheduled == None && app.result == first;

    app.SetWeight(NumberField("80", Some(80.0)));
    app.Calculate();
    assert app.scheduled.Some? && app.previousResult == first;
    var second := app.scheduled;
    app.Finish();
    assert app.result == second && !app.isCalculating && app.showResults;
  }
}
