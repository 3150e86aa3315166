/**
 * The fixed table of activity multipliers offered by the activity dropdown,
 * and the lookup that turns the selected multiplier back into its label key.
 */
module Activity {
  import opened Optional

  datatype ActivityLevel = ActivityLevel(value: real, labelKey: string, descriptionKey: string)

  /** The five entries, in the order the dropdown lists them. */
  const Levels: seq<ActivityLevel> := [
    ActivityLevel(1.2, "sedentary", "sedentaryDesc"),
    ActivityLevel(1.375, "lightExercise", "lightExerciseDesc"),
    ActivityLevel(1.465, "moderateExercise", "moderateExerciseDesc"),
    ActivityLevel(1.55, "heavyExercise", "heavyExerciseDesc"),
    ActivityLevel(1.725, "athlete", "athleteDesc")
  ]

  /** The multiplier selected before the user touches the dropdown. */
  const DefaultFactor: real := 1.465

  /** The label key shown when the selected multiplier matches no entry. */
  const FallbackLabel: string := "moderateExercise"

  /** A multiplier the dropdown can produce. */
  predicate IsFactor(f: real) {
    exists i :: 0 <= i < |Levels| && Levels[i].value == f
  }

  lemma LevelsIncreasing()
    ensures |Levels| == 5
    ensures forall i, j :: 0 <= i < j < |Levels| ==> Levels[i].value < Levels[j].value
  {
  }

  /** Every selectable multiplier lies between 1.2 (sedentary) and 1.725 (athlete). */
  lemma FactorBounds(f: real)
    requires IsFactor(f)
    ensures 1.2 <= f <= 1.725
  {
  }

  lemma DefaultIsFactor()
    ensures IsFactor(DefaultFactor)
    ensures Levels[2].value == DefaultFactor && Levels[2].labelKey == FallbackLabel
  {
  }

  /** The first entry of `levels` whose multiplier equals `v`, as `Array.prototype.find` returns it. */
  function Find(levels: seq<ActivityLevel>, v: real): (r: Option<ActivityLevel>)
    ensures r.None? <==> forall i :: 0 <= i < |levels| ==> levels[i].value != v
    ensures r.Some? ==> exists i :: 0 <= i < |levels| && levels[i] == r.value && r.value.value == v
                                   && forall j :: 0 <= j < i ==> levels[j].value != v
  {
    if levels == [] then None
    else if levels[0].value == v then Some(levels[0])
    else
      var rest := Find(levels[1..], v);
      if rest.Some? then
        var k :| 0 <= k < |levels[1..]| && levels[1..][k] == rest.value && rest.value.value == v
                 && forall j :: 0 <= j < k ==> levels[1..][j].value != v;
        assert levels[k + 1] == rest.value;
        assert forall j :: 0 <= j < k + 1 ==> levels[j].value != v by {
          forall j | 0 <= j < k + 1 ensures levels[j].value != v {
            if j > 0 { assert levels[j] == levels[1..][j - 1]; }
          }
        }
        rest
      else
        assert forall i :: 1 <= i < |levels| ==> levels[i] == levels[1..][i - 1];
        rest
  }

  /** The label key displayed for multiplier `v`, falling back to moderate exercise. */
  function Label(v: real): (r: string)
    ensures r == FallbackLabel || exists i :: 0 <= i < |Levels| && Levels[i].labelKey == r
  {
    match Find(Levels, v)
    case Some(level) => level.labelKey
    case None => FallbackLabel
  }

  /** Each table entry displays its own label: the multipliers are distinct, so the first match is the entry itself. */
  lemma LabelOfEntry(i: int)
    requires 0 <= i < |Levels|
    ensures Label(Levels[i].value) == Levels[i].labelKey
  {
  }

  /** A multiplier outside the table displays the fallback label. */
  lemma LabelOfUnknown(v: real)
    requires !IsFactor(v)
    ensures Label(v) == FallbackLabel
  {
  }
}
