/**
 * The calculation engine of the calorie calculator: Mifflin-St Jeor basal
 * metabolic rate, maintenance calories, the four weight-goal targets, body-mass
 * index with its category, and the 30/40/30 macronutrient split. Numbers are
 * exact reals; JavaScript's Math.round is rounding half upward.
 */
module Engine {
  import Activity

  datatype Sex = Male | Female

  /** The numbers `calculateCalories` works with once its inputs have been parsed. */
  datatype BiometricInput = BiometricInput(sex: Sex, age: int, weight: real, height: real, factor: real)

  datatype MacroGrams = MacroGrams(protein: int, carbs: int, fats: int)

  /** The bundle one calculation produces. */
  datatype CalorieResult = CalorieResult(
    bmr: int,
    maintenance: int,
    weightLoss: int,
    extremeWeightLoss: int,
    weightGain: int,
    extremeWeightGain: int,
    bmi: real,
    macros: MacroGrams)

  datatype BmiCategory = Underweight | NormalWeight | Overweight | Obese

  /** Math.round: the nearest integer, halves going up. */
  function Round(x: real): (r: int)
    ensures x - 0.5 < r as real <= x + 0.5
  {
    (x + 0.5).Floor
  }

  /** Rounding never reverses an order. */
  lemma RoundMonotone(x: real, y: real)
    requires x <= y
    ensures Round(x) <= Round(y)
  {
  }

  /** The rounded value is the only integer within half a unit below or at half a unit above `x`. */
  lemma RoundUnique(x: real, n: int)
    requires x - 0.5 < n as real <= x + 0.5
    ensures Round(x) == n
  {
  }

  /** Basal metabolic rate, unrounded: the Mifflin-St Jeor equation for each sex. */
  function Bmr(sex: Sex, weight: real, height: real, age: int): real {
    if sex == Male then 10.0 * weight + 6.25 * height - 5.0 * age as real + 5.0
    else 10.0 * weight + 6.25 * height - 5.0 * age as real - 161.0
  }

  /** For the same body, the male equation gives exactly 166 kcal more than the female one. */
  lemma SexGap(weight: real, height: real, age: int)
    ensures Bmr(Male, weight, height, age) - Bmr(Female, weight, height, age) == 166.0
  {
  }

  /** BMR grows with weight and height and falls with age. */
  lemma BmrMonotone(sex: Sex, w1: real, w2: real, h1: real, h2: real, a1: int, a2: int)
    requires w1 <= w2 && h1 <= h2 && a2 <= a1
    ensures Bmr(sex, w1, h1, a1) <= Bmr(sex, w2, h2, a2)
  {
  }

  /** Maintenance calories: the unrounded BMR times the activity multiplier, rounded once. */
  function Maintenance(bmr: real, factor: real): (r: int)
    ensures bmr * factor - 0.5 < r as real <= bmr * factor + 0.5
  {
    Round(bmr * factor)
  }

  /** With a non-negative BMR, a more active level never lowers maintenance, and maintenance is never below the rounded BMR. */
  lemma MaintenanceMonotone(bmr: real, f1: real, f2: real)
    requires 0.0 <= bmr
    requires Activity.IsFactor(f1) && Activity.IsFactor(f2) && f1 <= f2
    ensures Round(bmr) <= Maintenance(bmr, f1) <= Maintenance(bmr, f2)
  {
  }

  /** Rounding the BMR first would give a different maintenance figure: here 1725 instead of 1726. */
  lemma MaintenanceUsesUnroundedBmr()
    ensures Bmr(Male, 42.04, 100.0, 10) == 1000.4
    ensures Maintenance(Bmr(Male, 42.04, 100.0, 10), 1.725) == 1726
    ensures Maintenance(Round(Bmr(Male, 42.04, 100.0, 10)) as real, 1.725) == 1725
  {
  }

  /** calculateBMI: weight over the square of the height in metres. */
  function Bmi(weight: real, height: real): (r: real)
    requires height != 0.0
    ensures r * height * height == 10000.0 * weight
    ensures weight > 0.0 ==> r > 0.0
  {
    var metres := height / 100.0;
    weight / (metres * metres)
  }

  /** getBMICategory; each boundary value belongs to the higher category. */
  function Category(bmi: real): (r: BmiCategory)
    ensures r == Underweight <==> bmi < 18.5
    ensures r == NormalWeight <==> 18.5 <= bmi < 25.0
    ensures r == Overweight <==> 25.0 <= bmi < 30.0
    ensures r == Obese <==> 30.0 <= bmi
  {
    if bmi < 18.5 then Underweight
    else if bmi < 25.0 then NormalWeight
    else if bmi < 30.0 then Overweight
    else Obese
  }

  /** The category's position on the scale from underweight to obese. */
  function Rank(c: BmiCategory): nat {
    match c
    case Underweight => 0
    case NormalWeight => 1
    case Overweight => 2
    case Obese => 3
  }

  /** The category never falls as BMI rises. */
  lemma CategoryMonotone(b1: real, b2: real)
    requires b1 <= b2
    ensures Rank(Category(b1)) <= Rank(Category(b2))
  {
  }

  /** The English label the result panel shows next to the BMI. */
  function CategoryName(c: BmiCategory): string {
    match c
    case Underweight => "Underweight"
    case NormalWeight => "Normal weight"
    case Overweight => "Overweight"
    case Obese => "Obese"
  }

  /** calculateMacros: 30% protein and 40% carbohydrate at 4 kcal/g, 30% fat at 9 kcal/g, each rounded. */
  function Macros(calories: int): MacroGrams {
    MacroGrams(
      Round(calories as real * 0.3 / 4.0),
      Round(calories as real * 0.4 / 4.0),
      Round(calories as real * 0.3 / 9.0))
  }

  /** Each gram figure lies within half a gram of its exact share. */
  lemma MacrosWithinHalfGram(calories: int)
    ensures var m := Macros(calories);
      && calories as real * 0.075 - 0.5 < m.protein as real <= calories as real * 0.075 + 0.5
      && calories as real * 0.1 - 0.5 < m.carbs as real <= calories as real * 0.1 + 0.5
      && calories as real / 30.0 - 0.5 < m.fats as real <= calories as real / 30.0 + 0.5
  {
  }

  /** For non-negative calories all grams are non-negative, and fats <= protein <= carbs. */
  lemma MacrosOrdered(calories: int)
    requires 0 <= calories
    ensures var m := Macros(calories);
      0 <= m.fats <= m.protein <= m.carbs
  {
  }

  /** Converting the grams back to energy lands within 8 kcal of the calories split. */
  lemma MacroEnergy(calories: int)
    ensures var m := Macros(calories);
      -8 <= 4 * m.protein + 4 * m.carbs + 9 * m.fats - calories <= 8
  {
  }

  /** The 8 kcal bound is reached: 3915 kcal splits into 294 g, 392 g and 131 g, which is 3923 kcal. */
  lemma MacroEnergyBoundReached()
    ensures Macros(3915) == MacroGrams(294, 392, 131)
    ensures var m := Macros(3915); 4 * m.protein + 4 * m.carbs + 9 * m.fats == 3915 + 8
  {
  }

  /** One calculation: the result bundle `calculateCalories` assembles once its inputs pass. */
  function Compute(input: BiometricInput): (r: CalorieResult)
    requires input.height != 0.0
    ensures r.bmr == Round(Bmr(input.sex, input.weight, input.height, input.age))
    ensures r.weightLoss == r.maintenance - 500 && r.extremeWeightLoss == r.maintenance - 1000
    ensures r.weightGain == r.maintenance + 500 && r.extremeWeightGain == r.maintenance + 1000
    ensures r.extremeWeightLoss < r.weightLoss < r.maintenance < r.weightGain < r.extremeWeightGain
    ensures r.bmi * input.height * input.height == 10000.0 * input.weight
    ensures r.macros == Macros(r.maintenance)
  {
    var bmr := Bmr(input.sex, input.weight, input.height, input.age);
    var maintenance := Maintenance(bmr, input.factor);
    CalorieResult(
      Round(bmr),
      maintenance,
      maintenance - 500,
      maintenance - 1000,
      maintenance + 500,
      maintenance + 1000,
      Bmi(input.weight, input.height),
      Macros(maintenance))
  }

  /** Maintenance is the rounded product of the unrounded BMR and the multiplier, not of the rounded BMR. */
  lemma ComputeMaintenance(input: BiometricInput)
    requires input.height != 0.0
    ensures var r := Compute(input);
      input.factor * Bmr(input.sex, input.weight, input.height, input.age) - 0.5 < r.maintenance as real
      <= input.factor * Bmr(input.sex, input.weight, input.height, input.age) + 0.5
  {
  }

  /** Targets are not clamped: a low enough maintenance makes the extreme loss target negative. */
  lemma TargetsNotClamped()
    ensures Compute(BiometricInput(Female, 90, 30.0, 100.0, 1.2)).extremeWeightLoss < 0
  {
  }

  /** Male, 25 years, 70 kg, 175 cm, moderate exercise. */
  lemma MaleScenario()
    ensures var r := Compute(BiometricInput(Male, 25, 70.0, 175.0, 1.465));
      && r.bmr == 1674 && r.maintenance == 2452
      && r.weightLoss == 1952 && r.extremeWeightLoss == 1452
      && r.weightGain == 2952 && r.extremeWeightGain == 3452
      && r.macros == MacroGrams(184, 245, 82)
      && Category(r.bmi) == NormalWeight
  {
  }

  /** Female, 30 years, 60 kg, 165 cm, sedentary. */
  lemma FemaleScenario()
    ensures var r := Compute(BiometricInput(Female, 30, 60.0, 165.0, 1.2));
      r.bmr == 1320 && r.maintenance == 1584 && Category(r.bmi) == NormalWeight
  {
  }
}
