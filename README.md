# Calorie calculator — a verified Dafny model

The application is a single-page form. It collects age, gender, height (cm),
weight (kg) and an activity level, and shows three figures in kcal per day:

- the basal metabolic rate (BMR), from the revised Harris–Benedict equations;
- the total daily energy expenditure (TDEE), which is the BMR times an
  activity multiplier;
- a fat-loss intake, which is 85% of TDEE.

The figures are recomputed live as the form is filled in, and again when the
form is submitted. This project models the calculation (`calculateCalories`)
and the live-preview wrapper that feeds it the current form values. It
proves what the code promises about them.

Files:

- `js_math.dfy`, module `JsMath`: JavaScript's `Math.round` on exact reals,
  as `floor(x + 0.5)`, characterised as the nearest integer with ties going
  upwards.
- `calculator.dfy`, module `CalorieCalculator`: the input and result
  records, the completeness guard, the two BMR formulas, the activity table,
  the calculation, the preview defaults, and lemmas about all of them.

Modelling choices:

- All arithmetic is on exact `real`s, so a constant such as `88.362` or
  `1.375` is an exact rational.
- A form field that may be absent is an `Option`. A numeric field counts as
  filled (JavaScript "truthy") when it is present and not 0.
- `Gender` is `Male | Female | Other`. `Other` stands for any other
  non-empty string; an empty string is falsy and is `None`. The code sends
  every gender except `"male"` to the female formula, and the model does the
  same.
- Activity levels are the five keys of the multiplier table.

## Model

| member | source | states |
|---|---|---|
| `JsMath.Round` | src/pages/Index.jsx:55-57 | `Math.round(x)` is the integer `n` with `n - 0.5 <= x < n + 0.5`, the nearest integer with ties going upwards |
| `JsMath.NearestHalfUpIsUnique` | src/pages/Index.jsx:55-57 | no integer other than `Round(x)` is nearest to `x` with ties going upwards |
| `JsMath.RoundMonotone` | src/pages/Index.jsx:55-57 | rounding preserves `<=` |
| `CalorieCalculator.Truthy` | src/pages/Index.jsx:25 | a numeric field passes the guard when it is present and not 0 |
| `CalorieCalculator.Complete` | src/pages/Index.jsx:25 | the guard: every field present and, for the numbers, non-zero |
| `CalorieCalculator.Bmr` | src/pages/Index.jsx:35-39 | `Male` selects `88.362 + 13.397·w + 4.799·h − 5.677·a`, every other gender `447.593 + 9.247·w + 3.098·h − 4.330·a` |
| `CalorieCalculator.Tdee` | src/pages/Index.jsx:49 | TDEE is the unrounded BMR times the multiplier, so a positive BMR grows to between 1.2 and 1.9 times itself, and TDEE is 0 exactly when BMR is |
| `CalorieCalculator.FatLoss` | src/pages/Index.jsx:52 | the fat-loss intake is the unrounded TDEE less 15% of it, so it is positive and below a positive TDEE |
| `CalorieCalculator.ActivityMultiplier` | src/pages/Index.jsx:42-48 | every multiplier in the table lies in `[1.2, 1.9]`, so TDEE always exceeds a positive BMR |
| `CalorieCalculator.Rank` | src/pages/Index.jsx:199-203 | the position of each activity level in the form's list: sedentary 0, light 1, moderate 2, active 3, very active 4 |
| `CalorieCalculator.ActivityMultiplierIncreasing` | src/pages/Index.jsx:43-47 | the multiplier grows strictly from sedentary through light, moderate and active to very active |
| `CalorieCalculator.CalculateCalories` | src/pages/Index.jsx:23-59 | a record with any field missing or 0 gives exactly `{0, 0, 0}`; otherwise BMR, TDEE and the fat-loss intake are each the nearest integer (ties up) to their exact values: the BMR of the gender's formula, that BMR times the level's multiplier, and 85% of that unrounded TDEE, with no rounding between steps |
| `CalorieCalculator.OtherGendersUseFemaleFormula` | src/pages/Index.jsx:35-39 | every gender value other than male, not only female, gets the `447.593 + 9.247·w + 3.098·h − 4.330·a` formula |
| `CalorieCalculator.BmrMonotone` | src/pages/Index.jsx:36-38 | in both formulas BMR does not decrease with weight or height and does not increase with age, and it moves strictly when any of them moves strictly |
| `CalorieCalculator.InFormRanges` | src/pages/Index.jsx:110-178 | the form's validation rules: age in [1, 120], height in [100, 250], weight in [30, 200], all bounds inclusive |
| `CalorieCalculator.BmrBoundsInFormRanges` | src/pages/Index.jsx:110-178 | for age 1–120, height 100–250 and weight 30–200, the male BMR lies in `[288.932, 3961.835]` and the other BMR lies in `[515.203, 3067.163]`, so it is always positive |
| `CalorieCalculator.BmrBoundsAreReached` | src/pages/Index.jsx:36-38 | these bounds are the BMR values at the corners of the form's ranges (age 120, height 100, weight 30 and age 1, height 250, weight 200) |
| `CalorieCalculator.ExactFiguresOrdered` | src/pages/Index.jsx:49-52 | for a positive BMR the exact figures are strictly ordered BMR < fat-loss intake < TDEE |
| `CalorieCalculator.RoundedFiguresOrdered` | src/pages/Index.jsx:52-57 | for a positive unrounded BMR the rounded figures satisfy BMR <= fat-loss intake <= TDEE |
| `CalorieCalculator.ValidFormResult` | src/pages/Index.jsx:110-178 | a complete record within the form's validated ranges gives a rounded BMR of at least 289 and BMR <= fat-loss intake <= TDEE |
| `CalorieCalculator.CaloriesMonotone` | src/pages/Index.jsx:36-57 | with gender and activity level fixed, more weight, more height or fewer years never lowers any of the three rounded figures |
| `CalorieCalculator.RoundingOnlyAtTheEndMatters` | src/pages/Index.jsx:49-57 | there is a complete record for which rounding BMR before scaling it changes the TDEE shown, and one for which rounding TDEE before taking 85% of it changes the fat-loss intake shown (witnesses: female, 30 years, 165 cm, 60 kg gives TDEE 1660, not 1661, when sedentary, and fat-loss 1617, not 1618, at light activity) |
| `CalorieCalculator.WithPreviewDefaults` | src/pages/Index.jsx:74-80 | the preview keeps every filled field. It turns a missing age, height or weight into 0, a missing gender into male and a missing activity level into sedentary. The result is complete exactly when age, height and weight are filled, and a complete record is passed through unchanged |
| `CalorieCalculator.LivePreview` | src/pages/Index.jsx:73-81 | the preview is all zeros whenever age, height or weight is missing or 0, and equals the submitted calculation for a complete record |
| `CalorieCalculator.PreviewZeroExactlyWhenNumberMissing` | src/pages/Index.jsx:73-81 | while each numeric field is empty, 0 or inside its form range, the preview is all zeros if and only if age, height or weight is missing or 0; the range condition is needed (see `PreviewZeroWithNumbersFilled`) |
| `CalorieCalculator.PreviewZeroWithNumbersFilled` | src/pages/Index.jsx:73-81 | outside the form's ranges some preview with age, height and weight all filled is still all zeros (witness: female, age 106.22, height 1, weight 1, where the exact BMR is 0.0054 and all three figures round to 0) |
| `CalorieCalculator.PreviewSelectDefaults` | src/pages/Index.jsx:76-79 | an unselected gender previews as male, and an unselected activity level previews as sedentary |
| `CalorieCalculator.ExampleMaleModerate` | src/pages/Index.jsx:36-57 | male, 25 years, 180 cm, 75 kg, moderate gives `{1815, 2813, 2391}` |
| `CalorieCalculator.ExampleFemaleSedentary` | src/pages/Index.jsx:38-57 | female, 30 years, 165 cm, 60 kg, sedentary gives `{1384, 1660, 1411}` |

## Left out

- Rendering, the form library's registration, watching, setting and resetting
  of fields, the submit alert and all markup. These are user-interface
  plumbing with no calculation in them.
- The routing and provider setup, the DOM mounting and the build
  configuration. These contain no domain logic.
- IEEE-754 double arithmetic. The model computes exactly, so a figure whose
  exact value lies within rounding error of a `.5` tie may differ from what a
  browser shows.
- Form values arrive from the inputs as strings and JavaScript converts them
  to numbers inside the formula. The model takes typed numbers. As a string,
  `"0"` is truthy, so a typed-in zero passes the guard in the browser, while
  the model treats a zero field as falsy, as the guard does for numbers.
- `NaN` and other non-numeric field values are not modelled.
- An activity level outside the five-entry table has no multiplier. In
  JavaScript TDEE and the fat-loss intake then become `NaN`; BMR is still
  computed and shown. The model admits only the five table keys.
- The memoisation of the preview. It caches a pure function and has no
  observable effect.
