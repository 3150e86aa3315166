# Calorie calculator: calculation engine and form state

A Dafny model of the logic inside the `App` component of a single-page calorie
calculator. The user enters age, sex, weight (kg) and height (cm) and picks an
activity level. The component then computes:

- the basal metabolic rate (BMR), by the Mifflin-St Jeor equation;
- maintenance calories, which is the BMR times the activity multiplier;
- four weight-goal targets at fixed offsets from maintenance;
- the body-mass index (BMI) and its category;
- the protein, carbohydrate and fat grams of a 30/40/30 split.

Around this engine sits a little form state. A progress bar counts the filled
fields. The button is enabled only when the form is complete. A calculation
runs in two phases: it starts now, and a deferred step installs the result.

Modules:

- `Optional` (optional.dfy): the `Option` datatype.
- `Activity` (activity.dfy): the five-entry activity table, and the lookup from a multiplier back to its label key.
- `Engine` (engine.dfy): the pure formulas over exact reals. JavaScript's `Math.round(x)` is modelled as `(x + 0.5).Floor`.
- `Form` (form.dfy): the input fields and the guard of the calculation. The class `Calculator` holds the component's state fields. Its methods are the progress effect, the input setters, `isFormComplete`, and the two phases of `calculateCalories`.

Behaviour worth knowing, as the code has it:

- The guard tests the parsed numbers for JavaScript truthiness. NaN and 0 are rejected; negative numbers pass (`Form.GateAcceptsNegative`).
- The progress bar and `isFormComplete` test the field *strings*, not the parsed numbers. A weight of "0" therefore shows 100% and enables the button, but the guard then does nothing (`Form.FullProgressDoesNotImplyGate`).
- Maintenance is rounded from the unrounded BMR, not from the displayed one, and the two can differ (`Engine.MaintenanceUsesUnroundedBmr`).
- The goal targets are not clamped and can be negative (`Engine.TargetsNotClamped`).
- Converting the macro grams back to energy gives 4·protein + 4·carbs + 9·fats within 8 kcal of maintenance, and the bound is reached: 3915 kcal gives back 3923 kcal (`Engine.MacroEnergyBoundReached`).

## Model

| member | source | states |
|---|---|---|
| `Activity.LevelsIncreasing` | src/App.tsx:22-28 | The table has five entries and their multipliers strictly increase, so no two entries share a multiplier. |
| `Activity.FactorBounds` | src/App.tsx:22-28 | Every selectable multiplier lies between 1.2 and 1.725. |
| `Activity.DefaultIsFactor` | src/App.tsx:224 | The initial multiplier 1.465 is a table entry, and its label is the fallback label "moderateExercise". |
| `Activity.Find` | src/App.tsx:174 | `find` returns nothing exactly when no entry has the multiplier; otherwise it returns an entry with that multiplier, and no earlier entry has it. |
| `Activity.Label` | src/App.tsx:174 | The displayed label key is always a table key or "moderateExercise"; `LabelOfEntry` and `LabelOfUnknown` say which. |
| `Activity.LabelOfEntry` | src/App.tsx:174 | Selecting any table entry displays that entry's own label key. |
| `Activity.LabelOfUnknown` | src/App.tsx:174 | A multiplier outside the table displays "moderateExercise". |
| `Engine.Round` | src/App.tsx:296 | `Math.round` gives the integer r with x − 0.5 < r ≤ x + 0.5, so halves go up. |
| `Engine.RoundMonotone` | src/App.tsx:268-270 | Rounding preserves order. |
| `Engine.RoundUnique` | src/App.tsx:301 | Any integer within (x − 0.5, x + 0.5] is the rounded value of x. |
| `Engine.Bmr` | src/App.tsx:292-294 | The unrounded Mifflin-St Jeor BMR for each sex; `SexGap` proves the male value is 166 above the female one, `BmrMonotone` its direction in weight, height and age. |
| `Engine.SexGap` | src/App.tsx:292-294 | For identical inputs the male BMR exceeds the female BMR by exactly 166. |
| `Engine.BmrMonotone` | src/App.tsx:292-294 | BMR does not decrease with weight or height, and does not increase with age. |
| `Engine.Maintenance` | src/App.tsx:296 | Maintenance lies within half a calorie of BMR × multiplier; `MaintenanceMonotone` and `MaintenanceUsesUnroundedBmr` say more. |
| `Engine.MaintenanceMonotone` | src/App.tsx:296 | For a non-negative BMR, maintenance is at least the rounded BMR and does not decrease with the activity multiplier. |
| `Engine.MaintenanceUsesUnroundedBmr` | src/App.tsx:292-301 | Maintenance is computed from the unrounded BMR: for a BMR of 1000.4 at 1.725 it is 1726, while rounding the BMR first would give 1725. |
| `Engine.Bmi` | src/App.tsx:260-263 | BMI × height² = 10000 × weight, and BMI is positive when weight is positive. |
| `Engine.Category` | src/App.tsx:274-279 | Below 18.5 is underweight, [18.5, 25) normal, [25, 30) overweight, 30 and above obese; each boundary goes to the higher category. |
| `Engine.CategoryName` | src/App.tsx:275-278 | The four English labels "Underweight", "Normal weight", "Overweight" and "Obese" that getBMICategory returns, one per category of `Category`. |
| `Engine.CategoryMonotone` | src/App.tsx:274-279 | The category never moves down the scale as BMI rises. |
| `Engine.Macros` | src/App.tsx:265-272 | calculateMacros; `MacrosWithinHalfGram`, `MacrosOrdered`, `MacroEnergy` and `MacroEnergyBoundReached` prove its bounds, order and energy tolerance. |
| `Engine.MacrosWithinHalfGram` | src/App.tsx:265-272 | Protein, carbohydrate and fat grams each lie within half a gram of 7.5%, 10% and 1/30 of the calories. |
| `Engine.MacrosOrdered` | src/App.tsx:265-272 | For non-negative calories, 0 ≤ fats ≤ protein ≤ carbs. |
| `Engine.MacroEnergy` | src/App.tsx:265-272 | 4·protein + 4·carbs + 9·fats is within 8 kcal of the calories split. |
| `Engine.MacroEnergyBoundReached` | src/App.tsx:265-272 | The 8 kcal bound is attained: 3915 kcal gives 294/392/131 g, which is 3923 kcal. |
| `Engine.Compute` | src/App.tsx:292-309 | The bundle's BMR is the rounded Mifflin-St Jeor value. The goals are maintenance −1000, −500, +500 and +1000, strictly ordered. The BMI satisfies BMI × height² = 10000 × weight, and the macros are the split of maintenance. |
| `Engine.ComputeMaintenance` | src/App.tsx:296 | The bundle's maintenance is within half a calorie of the unrounded BMR times the multiplier. |
| `Engine.TargetsNotClamped` | src/App.tsx:303-306 | A low maintenance (female, 90 years, 30 kg, 100 cm, sedentary) yields a negative extreme-loss target. |
| `Engine.MaleScenario` | src/App.tsx:292-309 | Male, 25, 70 kg, 175 cm, 1.465: BMR 1674, maintenance 2452, goals 1452/1952/2952/3452, macros 184/245/82 g, normal weight. |
| `Engine.FemaleScenario` | src/App.tsx:292-301 | Female, 30, 60 kg, 165 cm, 1.2: BMR 1320, maintenance 1584, normal weight. |
| `Form.NumberField.Filled` | src/App.tsx:240-241 | JavaScript truthiness of the weight or height string: non-empty. |
| `Form.NumberField.Truthy` | src/App.tsx:286 | JavaScript truthiness of a parseFloat result: neither NaN nor 0. |
| `Form.IntegerField.Filled` | src/App.tsx:239 | JavaScript truthiness of the age string: non-empty. |
| `Form.IntegerField.Truthy` | src/App.tsx:286 | JavaScript truthiness of a parseInt result: neither NaN nor 0. |
| `Form.FilledFields` | src/App.tsx:238-242 | The present fields, a subset of the four fields; `FilledFieldsByField` lists them field by field. |
| `Form.Progress` | src/App.tsx:236-244 | The completion percentage, 25 per present field; `ProgressValues` and `ProgressFull` give its values and when it is 100. |
| `Form.FilledFieldsByField` | src/App.tsx:238-242 | The set of present fields holds exactly the fields whose string is non-empty, plus the sex field when a sex is chosen. |
| `Form.ProgressValues` | src/App.tsx:236-244 | Progress is always one of 0, 25, 50, 75 and 100. |
| `Form.ProgressFull` | src/App.tsx:236-244 | Progress is 100 if and only if age, weight and height are all non-empty and a sex is chosen. |
| `Form.Gate` | src/App.tsx:282-286 | The calculation goes on if and only if parsed weight, height and age are neither NaN nor 0 and a sex is chosen. It then passes exactly those numbers on, and the height it passes is nonzero. |
| `Form.GateImpliesFullProgress` | src/App.tsx:236-286 | Whenever the guard lets a calculation through, progress is 100. |
| `Form.FullProgressDoesNotImplyGate` | src/App.tsx:286 | Progress can be 100 while the guard rejects: a weight typed as "0". |
| `Form.GateAcceptsNegative` | src/App.tsx:286 | Negative age, weight and height pass the guard. |
| `Form.Calculator.constructor` | src/App.tsx:220-229 | Initial state: empty fields, no sex, multiplier 1.465, no result, nothing shown, progress 0, not calculating. |
| `Form.Calculator.RefreshProgress` | src/App.tsx:236-244 | After the effect runs, the progress field equals 25 times the number of present fields. |
| `Form.Calculator.SetAge` | src/App.tsx:488 | Typing an age stores it and re-runs the progress effect, so the state stays consistent. |
| `Form.Calculator.SetWeight` | src/App.tsx:502 | As SetAge, for the weight field. |
| `Form.Calculator.SetHeight` | src/App.tsx:516 | As SetAge, for the height field. |
| `Form.Calculator.SetGender` | src/App.tsx:458-470 | Choosing a sex stores it and re-runs the progress effect. |
| `Form.Calculator.SetActivityLevel` | src/App.tsx:529 | The dropdown stores one of the table's multipliers. |
| `Form.Calculator.IsFormComplete` | src/App.tsx:320-328 | The form is complete if and only if progress is 100 and no calculation is in flight. |
| `Form.Calculator.Calculate` | src/App.tsx:281-312 | If the guard rejects, no state changes. Otherwise the previous result takes the old result, the calculation is marked in flight, and progress is 100. The bundle scheduled for the deferred step is the engine's result on the guarded inputs. |
| `Form.Calculator.Finish` | src/App.tsx:312-316 | Runs only when a step is scheduled. It installs the scheduled bundle as the result, shows the results, clears the in-flight flag and the schedule. The class invariant keeps "a step is scheduled ⇒ calculating" and "results shown ⇒ a result exists". |

## Left out

- Rendering, animations, the dropdown's open/closed state, the theme toggle and the language switch. These are presentation only.
- The scroll-into-view effect (src/App.tsx:246-258). It only moves the page.
- The three translation tables (src/App.tsx:33-151). `Activity.Label` returns the label key, and `Engine.CategoryName` returns the English category label.
- Timing of the deferred step (600 ms). The step is the separate method `Finish`, and the field `scheduled` stands for the bundle the timer's closure captures. Concurrency between the timer and user input is not modelled.
- Form.Calculator.Calculate: at most one deferred step is modelled. A second calculation started before the first step runs replaces the scheduled bundle, whereas the page would run both timers in turn. The disabled button prevents this while a calculation is in flight.
- Timing of React effects. Each setter re-runs the progress effect at once, so `formProgress` never lags behind the fields.
- `parseFloat` and `parseInt`. Each field carries its text and the parsed number, with `None` for NaN. The only parsing fact assumed is that the empty string parses to NaN.
- IEEE-754 doubles. All arithmetic is exact over reals and integers, so results can differ from JavaScript's at rounding ties.
- Display-only arithmetic: `toFixed(1)`, the BMI gauge percentage and the tooltip kcal figures.
