/** The energy model of the profile routes: the Mifflin-St Jeor basal metabolic rate with
    imperial inputs, scaled by an activity multiplier and rounded (`calculateTDEE`). */
module Energy {
  import opened JsMath

  const KgPerLb: real := 0.453592
  const CmPerInch: real := 2.54

  /** The five activity levels with a multiplier of their own, in increasing order. */
  const ActivityLevels: seq<string> := ["sedentary", "light", "moderate", "active", "very_active"]

  /** The constant term of the equation: +5 for "male", -161 for "female", and -78 (the
      midpoint of the two) for any other string. */
  function GenderOffset(gender: string): real {
    if gender == "male" then 5.0
    else if gender == "female" then -161.0
    else -78.0
  }

  /** Basal metabolic rate in kcal/day, from pounds, inches and years. */
  function Bmr(gender: string, weightLbs: real, heightInches: real, age: real): (b: real)
    ensures var kg, cm := weightLbs * KgPerLb, heightInches * CmPerInch;
      && (gender == "male" ==> b == 10.0 * kg + 6.25 * cm - 5.0 * age + 5.0)
      && (gender == "female" ==> b == 10.0 * kg + 6.25 * cm - 5.0 * age - 161.0)
      && (gender != "male" && gender != "female" ==> b == 10.0 * kg + 6.25 * cm - 5.0 * age - 78.0)
  {
    10.0 * (weightLbs * KgPerLb) + 6.25 * (heightInches * CmPerInch) - 5.0 * age + GenderOffset(gender)
  }

  /** The activity multiplier; an unknown level falls back to 1.2. */
  function Multiplier(level: string): (m: real)
    ensures 1.2 <= m <= 1.9
    ensures level !in ActivityLevels ==> m == 1.2
  {
    if level == "sedentary" then 1.2
    else if level == "light" then 1.375
    else if level == "moderate" then 1.55
    else if level == "active" then 1.725
    else if level == "very_active" then 1.9
    else 1.2
  }

  /** `calculateTDEE`: maintenance calories, rounded as `Math.round` does. */
  function Tdee(gender: string, weightLbs: real, heightInches: real, age: real, level: string): (t: int)
    ensures var e := Bmr(gender, weightLbs, heightInches, age) * Multiplier(level);
      t as real - 0.5 <= e < t as real + 0.5
    ensures level !in ActivityLevels ==>
      t == Round(Bmr(gender, weightLbs, heightInches, age) * 1.2)
  {
    Round(Bmr(gender, weightLbs, heightInches, age) * Multiplier(level))
  }

  /** For the same body, the female rate is 166 below the male one and every other gender
      sits exactly halfway between. */
  lemma GenderBranchesOrdered(other: string, w: real, h: real, a: real)
    requires other != "male" && other != "female"
    ensures Bmr("female", w, h, a) < Bmr(other, w, h, a) < Bmr("male", w, h, a)
    ensures Bmr("male", w, h, a) - Bmr("female", w, h, a) == 166.0
    ensures Bmr(other, w, h, a) == (Bmr("male", w, h, a) + Bmr("female", w, h, a)) / 2.0
  {
  }

  /** On every branch the rate grows strictly with weight. */
  lemma BmrIncreasesWithWeight(g: string, w1: real, w2: real, h: real, a: real)
    requires w1 < w2
    ensures Bmr(g, w1, h, a) < Bmr(g, w2, h, a)
  {
  }

  /** On every branch the rate grows strictly with height. */
  lemma BmrIncreasesWithHeight(g: string, w: real, h1: real, h2: real, a: real)
    requires h1 < h2
    ensures Bmr(g, w, h1, a) < Bmr(g, w, h2, a)
  {
  }

  /** On every branch the rate falls strictly with age. */
  lemma BmrDecreasesWithAge(g: string, w: real, h: real, a1: real, a2: real)
    requires a1 < a2
    ensures Bmr(g, w, h, a1) > Bmr(g, w, h, a2)
  {
  }

  /** An unknown activity level is treated exactly like "sedentary". */
  lemma UnknownLevelIsSedentary(g: string, w: real, h: real, a: real, level: string)
    requires level !in ActivityLevels
    ensures Tdee(g, w, h, a, level) == Tdee(g, w, h, a, "sedentary")
  {
  }

  /** The multipliers strictly increase along sedentary, light, moderate, active, very_active. */
  lemma MultipliersIncrease(i: int, j: int)
    requires 0 <= i < j < |ActivityLevels|
    ensures Multiplier(ActivityLevels[i]) < Multiplier(ActivityLevels[j])
  {
  }

  /** Hence, for a non-negative basal rate, the rounded TDEE never decreases along that order. */
  lemma TdeeIncreasesWithActivity(g: string, w: real, h: real, a: real, i: int, j: int)
    requires 0 <= i <= j < |ActivityLevels|
    requires Bmr(g, w, h, a) >= 0.0
    ensures Tdee(g, w, h, a, ActivityLevels[i]) <= Tdee(g, w, h, a, ActivityLevels[j])
  {
    var b := Bmr(g, w, h, a);
    var mi, mj := Multiplier(ActivityLevels[i]), Multiplier(ActivityLevels[j]);
    if i < j {
      MultipliersIncrease(i, j);
    }
    assert b * mi <= b * mj;
    RoundMonotone(b * mi, b * mj);
  }

  /** A 25-year-old man of 180 lb and 70 in with moderate activity: BMR 1807.7156,
      TDEE round(1807.7156 * 1.55) = 2802. */
  lemma ModerateMaleExample()
    ensures Bmr("male", 180.0, 70.0, 25.0) == 1807.7156
    ensures Tdee("male", 180.0, 70.0, 25.0, "moderate") == 2802
  {
  }
}
