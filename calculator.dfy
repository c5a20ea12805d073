/**
 The calorie calculator of the home page: from age, gender, height, weight
 and activity level it derives the basal metabolic rate (BMR, revised
 Harris-Benedict), the total daily energy expenditure (TDEE, BMR scaled by an
 activity multiplier) and a fat-loss intake (85% of TDEE), each rounded to a
 whole number of kcal only at the very end.

 Numbers are exact reals; a form field that may be absent is an `Option`.
 */
module CalorieCalculator {
  import opened JsMath

  datatype Option<T> = None | Some(value: T)

  /** `Other` stands for any non-empty gender string except "male" and
      "female"; the calculation treats it like "female". */
  datatype Gender = Male | Female | Other

  /** The five keys of the activity-multiplier table. */
  datatype ActivityLevel = Sedentary | Light | Moderate | Active | VeryActive

  /** The values the calculation receives; `None` is a missing field. */
  datatype FormData = FormData(
    age: Option<real>,
    gender: Option<Gender>,
    height: Option<real>,
    weight: Option<real>,
    activityLevel: Option<ActivityLevel>)

  /** The three figures shown to the user, in kcal per day. */
  datatype Calories = Calories(bmr: int, tdee: int, fatLossCalories: int)

  const Zero := Calories(0, 0, 0)

  /** JavaScript truthiness of a numeric field: neither missing nor 0. */
  predicate Truthy(v: Option<real>) {
    v.Some? && v.value != 0.0
  }

  /** The completeness guard: every field present and truthy. */
  predicate Complete(d: FormData) {
    Truthy(d.age) && d.gender.Some? && Truthy(d.height) && Truthy(d.weight) && d.activityLevel.Some?
  }

  /** Unrounded BMR; only `Male` selects the male formula. */
  function Bmr(gender: Gender, age: real, height: real, weight: real): real {
    if gender == Male then
      88.362 + 13.397 * weight + 4.799 * height - 5.677 * age
    else
      447.593 + 9.247 * weight + 3.098 * height - 4.330 * age
  }

  /** The activity-multiplier table. */
  function ActivityMultiplier(level: ActivityLevel): (m: real)
    ensures 1.2 <= m <= 1.9
  {
    match level
    case Sedentary => 1.2
    case Light => 1.375
    case Moderate => 1.55
    case Active => 1.725
    case VeryActive => 1.9
  }

  /** Position of a level in the form's list, from least to most active. */
  function Rank(level: ActivityLevel): nat {
    match level
    case Sedentary => 0
    case Light => 1
    case Moderate => 2
    case Active => 3
    case VeryActive => 4
  }

  /** Unrounded TDEE: the unrounded BMR times the level's multiplier; a
      positive BMR grows by 20% to 90%. */
  function Tdee(bmr: real, level: ActivityLevel): (r: real)
    ensures bmr > 0.0 ==> 1.2 * bmr <= r <= 1.9 * bmr
    ensures bmr == 0.0 <==> r == 0.0
  {
    bmr * ActivityMultiplier(level)
  }

  /** Unrounded fat-loss intake: a fixed 15% below the unrounded TDEE. */
  function FatLoss(tdee: real): (r: real)
    ensures tdee - r == 0.15 * tdee
    ensures tdee > 0.0 ==> 0.0 < r < tdee
  {
    tdee * 0.85
  }

  /** The unrounded BMR of a complete record. */
  function ExactBmr(d: FormData): real
    requires Complete(d)
  {
    Bmr(d.gender.value, d.age.value, d.height.value, d.weight.value)
  }

  /** `calculateCalories`: zeros for an incomplete record; otherwise each of
      the three figures is the nearest integer to its exact value, with no
      rounding between the steps. */
  function CalculateCalories(d: FormData): (r: Calories)
    ensures !Complete(d) ==> r == Zero
    ensures Complete(d) ==>
      var bmr := ExactBmr(d);
      var tdee := bmr * ActivityMultiplier(d.activityLevel.value);
      && NearestHalfUp(r.bmr, bmr)
      && NearestHalfUp(r.tdee, tdee)
      && NearestHalfUp(r.fatLossCalories, tdee * 0.85)
  {
    if !Complete(d) then
      Zero
    else
      var bmr := ExactBmr(d);
      var tdee := Tdee(bmr, d.activityLevel.value);
      var fatLossCalories := FatLoss(tdee);
      Calories(Round(bmr), Round(tdee), Round(fatLossCalories))
  }

  /** The form's validation rules for the three numeric fields. */
  predicate InFormRanges(age: real, height: real, weight: real) {
    1.0 <= age <= 120.0 && 100.0 <= height <= 250.0 && 30.0 <= weight <= 200.0
  }

  /** A numeric field as the live preview may see it: empty, 0, or a value
      the form's rule for that field accepts. */
  predicate PreviewField(v: Option<real>, lo: real, hi: real) {
    !Truthy(v) || lo <= v.value <= hi
  }

  /** The live-preview wrapper: missing fields become 0, "male" and
      "sedentary" before the record reaches the calculation. */
  function WithPreviewDefaults(d: FormData): (e: FormData)
    ensures Truthy(e.age) == Truthy(d.age) && Truthy(e.height) == Truthy(d.height)
    ensures Truthy(e.weight) == Truthy(d.weight)
    ensures Complete(e) <==> Truthy(d.age) && Truthy(d.height) && Truthy(d.weight)
    ensures Truthy(d.age) ==> e.age == d.age
    ensures Truthy(d.height) ==> e.height == d.height
    ensures Truthy(d.weight) ==> e.weight == d.weight
    ensures !Truthy(d.age) ==> e.age == Some(0.0)
    ensures !Truthy(d.height) ==> e.height == Some(0.0)
    ensures !Truthy(d.weight) ==> e.weight == Some(0.0)
    ensures e.gender == Some(if d.gender.Some? then d.gender.value else Male)
    ensures e.activityLevel == Some(if d.activityLevel.Some? then d.activityLevel.value else Sedentary)
    ensures Complete(d) ==> e == d
  {
    FormData(
      Some(if Truthy(d.age) then d.age.value else 0.0),
      Some(if d.gender.Some? then d.gender.value else Male),
      Some(if Truthy(d.height) then d.height.value else 0.0),
      Some(if Truthy(d.weight) then d.weight.value else 0.0),
      Some(if d.activityLevel.Some? then d.activityLevel.value else Sedentary))
  }

  /** The figures shown live under the form while it is being filled in. */
  function LivePreview(d: FormData): (r: Calories)
    ensures !(Truthy(d.age) && Truthy(d.height) && Truthy(d.weight)) ==> r == Zero
    ensures Complete(d) ==> r == CalculateCalories(d)
  {
    CalculateCalories(WithPreviewDefaults(d))
  }

  // ---------------------------------------------------------------------
  // Properties of the formulas
  // ---------------------------------------------------------------------

  /** Every gender other than "male" gets the female formula. */
  lemma OtherGendersUseFemaleFormula(gender: Gender, age: real, height: real, weight: real)
    requires gender != Male
    ensures Bmr(gender, age, height, weight) == Bmr(Female, age, height, weight)
  {
  }

  /** A more active level never has a smaller multiplier: the table is
      strictly increasing in the form's order. */
  lemma ActivityMultiplierIncreasing(lower: ActivityLevel, higher: ActivityLevel)
    requires Rank(lower) < Rank(higher)
    ensures ActivityMultiplier(lower) < ActivityMultiplier(higher)
  {
  }

  /** In both formulas BMR grows with weight and height and shrinks with
      age, strictly when any of them moves. */
  lemma BmrMonotone(gender: Gender, age1: real, height1: real, weight1: real,
                                   age2: real, height2: real, weight2: real)
    requires age1 >= age2 && height1 <= height2 && weight1 <= weight2
    ensures Bmr(gender, age1, height1, weight1) <= Bmr(gender, age2, height2, weight2)
    ensures age1 > age2 || height1 < height2 || weight1 < weight2 ==>
      Bmr(gender, age1, height1, weight1) < Bmr(gender, age2, height2, weight2)
  {
  }

  /** Within the form's ranges the unrounded BMR lies between the values at
      the two extreme corners, so it is always positive. */
  lemma BmrBoundsInFormRanges(gender: Gender, age: real, height: real, weight: real)
    requires InFormRanges(age, height, weight)
    ensures gender == Male ==> 288.932 <= Bmr(gender, age, height, weight) <= 3961.835
    ensures gender != Male ==> 515.203 <= Bmr(gender, age, height, weight) <= 3067.163
  {
    BmrMonotone(gender, 120.0, 100.0, 30.0, age, height, weight);
    BmrMonotone(gender, age, height, weight, 1.0, 250.0, 200.0);
  }

  /** The bounds above are reached at the corners of the form's ranges. */
  lemma BmrBoundsAreReached()
    ensures Bmr(Male, 120.0, 100.0, 30.0) == 288.932
    ensures Bmr(Male, 1.0, 250.0, 200.0) == 3961.835
    ensures Bmr(Female, 120.0, 100.0, 30.0) == 515.203
    ensures Bmr(Female, 1.0, 250.0, 200.0) == 3067.163
  {
  }

  /** For a positive BMR the three exact figures are strictly ordered:
      BMR < fat-loss intake < TDEE (the smallest multiplier, 1.2, still
      leaves 85% of TDEE at 1.02 times BMR). */
  lemma ExactFiguresOrdered(bmr: real, level: ActivityLevel)
    requires bmr > 0.0
    ensures bmr < FatLoss(Tdee(bmr, level)) < Tdee(bmr, level)
  {
  }

  // ---------------------------------------------------------------------
  // Properties of the rounded result
  // ---------------------------------------------------------------------

  /** With a positive unrounded BMR the rounded figures keep the order
      BMR <= fat-loss intake <= TDEE. */
  lemma RoundedFiguresOrdered(d: FormData)
    requires Complete(d) && ExactBmr(d) > 0.0
    ensures CalculateCalories(d).bmr <= CalculateCalories(d).fatLossCalories <= CalculateCalories(d).tdee
  {
    var bmr := ExactBmr(d);
    var tdee := Tdee(bmr, d.activityLevel.value);
    ExactFiguresOrdered(bmr, d.activityLevel.value);
    RoundMonotone(bmr, FatLoss(tdee));
    RoundMonotone(FatLoss(tdee), tdee);
  }

  /** A record that passes the form's rules gives a BMR of at least 289 kcal
      and figures in the order BMR <= fat-loss intake <= TDEE. */
  lemma ValidFormResult(d: FormData)
    requires Complete(d) && InFormRanges(d.age.value, d.height.value, d.weight.value)
    ensures 289 <= CalculateCalories(d).bmr <= CalculateCalories(d).fatLossCalories <= CalculateCalories(d).tdee
  {
    BmrBoundsInFormRanges(d.gender.value, d.age.value, d.height.value, d.weight.value);
    RoundMonotone(288.932, ExactBmr(d));
    RoundedFiguresOrdered(d);
  }

  /** Holding gender and activity level fixed, a heavier, taller or younger
      person never gets a smaller figure, in any of the three outputs. */
  lemma CaloriesMonotone(d1: FormData, d2: FormData)
    requires Complete(d1) && Complete(d2)
    requires d1.gender == d2.gender && d1.activityLevel == d2.activityLevel
    requires d1.age.value >= d2.age.value
    requires d1.height.value <= d2.height.value && d1.weight.value <= d2.weight.value
    ensures CalculateCalories(d1).bmr <= CalculateCalories(d2).bmr
    ensures CalculateCalories(d1).tdee <= CalculateCalories(d2).tdee
    ensures CalculateCalories(d1).fatLossCalories <= CalculateCalories(d2).fatLossCalories
  {
    var level := d1.activityLevel.value;
    var b1, b2 := ExactBmr(d1), ExactBmr(d2);
    BmrMonotone(d1.gender.value, d1.age.value, d1.height.value, d1.weight.value,
                d2.age.value, d2.height.value, d2.weight.value);
    RoundMonotone(b1, b2);
    RoundMonotone(Tdee(b1, level), Tdee(b2, level));
    RoundMonotone(FatLoss(Tdee(b1, level)), FatLoss(Tdee(b2, level)));
  }

  /** Rounding only at the return is observable: rounding BMR before
      scaling it, or TDEE before taking 85% of it, would show a different
      figure for some complete records. */
  lemma RoundingOnlyAtTheEndMatters()
    ensures exists d :: (Complete(d) &&
      CalculateCalories(d).tdee != Round(Tdee(CalculateCalories(d).bmr as real, d.activityLevel.value)))
    ensures exists d :: (Complete(d) &&
      CalculateCalories(d).fatLossCalories != Round(FatLoss(CalculateCalories(d).tdee as real)))
  {
    // Female, 30 years, 165 cm, 60 kg: exact BMR 1383.683 shows as 1384,
    // and 1384 * 1.2 = 1660.8 would show as 1661 instead of 1660.
    var sedentary := FormData(Some(30.0), Some(Female), Some(165.0), Some(60.0), Some(Sedentary));
    ExampleFemaleSedentary();
    NearestHalfUpIsUnique(1661, 1660.8);
    assert CalculateCalories(sedentary).tdee != Round(Tdee(1384.0, Sedentary));
    // The same person at light activity: exact TDEE 1902.564125 shows as
    // 1903, and 85% of 1903 = 1617.55 would show as 1618 instead of 1617.
    var light := sedentary.(activityLevel := Some(Light));
    assert ExactBmr(light) == 1383.683;
    NearestHalfUpIsUnique(1903, 1902.564125);
    NearestHalfUpIsUnique(1617, 1617.17950625);
    NearestHalfUpIsUnique(1618, 1617.55);
    assert CalculateCalories(light).fatLossCalories != Round(FatLoss(1903.0));
  }

  // ---------------------------------------------------------------------
  // Properties of the live preview
  // ---------------------------------------------------------------------

  /** While the numeric fields are empty, 0 or within the form's ranges, the
      preview shows zeros exactly when age, height or weight is missing or 0. */
  lemma PreviewZeroExactlyWhenNumberMissing(d: FormData)
    requires PreviewField(d.age, 1.0, 120.0)
    requires PreviewField(d.height, 100.0, 250.0)
    requires PreviewField(d.weight, 30.0, 200.0)
    ensures LivePreview(d) == Zero <==> !Truthy(d.age) || !Truthy(d.height) || !Truthy(d.weight)
  {
    if Truthy(d.age) && Truthy(d.height) && Truthy(d.weight) {
      ValidFormResult(WithPreviewDefaults(d));
    }
  }

  /** Outside the form's ranges a fully filled form can still preview as
      zeros: a female of age 106.22, height 1 and weight 1 has an exact BMR
      of 0.0054, and all three figures round to 0. */
  lemma PreviewZeroWithNumbersFilled()
    ensures exists d: FormData :: (Truthy(d.age) && Truthy(d.height) && Truthy(d.weight) &&
      LivePreview(d) == Zero)
  {
    var d := FormData(Some(106.22), Some(Female), Some(1.0), Some(1.0), None);
    assert ExactBmr(WithPreviewDefaults(d)) == 0.0054;
    NearestHalfUpIsUnique(0, 0.0054);
    NearestHalfUpIsUnique(0, 0.0054 * 1.2);
    NearestHalfUpIsUnique(0, 0.0054 * 1.2 * 0.85);
    assert LivePreview(d) == Zero;
  }

  /** An unselected gender or activity level previews as "male" or
      "sedentary" respectively. */
  lemma PreviewSelectDefaults(d: FormData)
    ensures d.gender.None? ==> LivePreview(d) == LivePreview(d.(gender := Some(Male)))
    ensures d.activityLevel.None? ==>
      LivePreview(d) == LivePreview(d.(activityLevel := Some(Sedentary)))
  {
  }

  // ---------------------------------------------------------------------
  // Worked values
  // ---------------------------------------------------------------------

  /** Male, 25 years, 180 cm, 75 kg, moderate: BMR 1815.032, TDEE 2813.2996,
      fat-loss 2391.30466 before rounding. */
  lemma ExampleMaleModerate()
    ensures CalculateCalories(FormData(Some(25.0), Some(Male), Some(180.0), Some(75.0), Some(Moderate)))
         == Calories(1815, 2813, 2391)
  {
    var d := FormData(Some(25.0), Some(Male), Some(180.0), Some(75.0), Some(Moderate));
    assert ExactBmr(d) == 1815.032;
    NearestHalfUpIsUnique(1815, 1815.032);
    NearestHalfUpIsUnique(2813, 2813.2996);
    NearestHalfUpIsUnique(2391, 2391.30466);
  }

  /** Female, 30 years, 165 cm, 60 kg, sedentary: BMR 1383.683, TDEE
      1660.4196, fat-loss 1411.35666 before rounding. */
  lemma ExampleFemaleSedentary()
    ensures CalculateCalories(FormData(Some(30.0), Some(Female), Some(165.0), Some(60.0), Some(Sedentary)))
         == Calories(1384, 1660, 1411)
  {
    var d := FormData(Some(30.0), Some(Female), Some(165.0), Some(60.0), Some(Sedentary));
    assert ExactBmr(d) == 1383.683;
    NearestHalfUpIsUnique(1384, 1383.683);
    NearestHalfUpIsUnique(1660, 1660.4196);
    NearestHalfUpIsUnique(1411, 1411.35666);
  }
}
