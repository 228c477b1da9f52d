/** The macro allocator: gram targets from maintenance calories and a percentage split.
    The same formula is written out in the daily summary card, the profile summary and the
    onboarding page; all three use this definition. */
module Macros {
  import opened JsMath

  datatype Macro = Protein | Carbs | Fat

  /** Energy density in kcal per gram: 4 for protein and carbohydrate, 9 for fat. */
  function KcalPerGram(m: Macro): real {
    match m
    case Protein => 4.0
    case Carbs => 4.0
    case Fat => 9.0
  }

  /** `Math.round(calories * percentage / 100 / density)`: the grams of `m` that supply
      `percentage` percent of `calories`, to within half a gram. */
  function Grams(calories: real, percentage: real, m: Macro): (g: int)
    ensures var share := calories * percentage / 100.0;
      g as real * KcalPerGram(m) - KcalPerGram(m) / 2.0 <= share < g as real * KcalPerGram(m) + KcalPerGram(m) / 2.0
  {
    Round(calories * percentage / 100.0 / KcalPerGram(m))
  }

  /** Gram targets for the three macros. */
  datatype MacroGrams = MacroGrams(protein: int, carbs: int, fat: int)

  function GramsFor(calories: real, proteinPct: real, carbsPct: real, fatPct: real): MacroGrams {
    MacroGrams(Grams(calories, proteinPct, Protein), Grams(calories, carbsPct, Carbs), Grams(calories, fatPct, Fat))
  }

  /** With non-negative calories and percentage the target is never negative. */
  lemma GramsNonNegative(calories: real, percentage: real, m: Macro)
    requires 0.0 <= calories && 0.0 <= percentage
    ensures 0 <= Grams(calories, percentage, m)
  {
    assert 0.0 <= calories * percentage;
    RoundNonNegative(calories * percentage / 100.0 / KcalPerGram(m));
  }

  /** With non-negative calories a larger percentage never gives fewer grams. */
  lemma GramsIncreaseWithPercentage(calories: real, p1: real, p2: real, m: Macro)
    requires 0.0 <= calories && p1 <= p2
    ensures Grams(calories, p1, m) <= Grams(calories, p2, m)
  {
    assert calories * p1 <= calories * p2;
    RoundMonotone(calories * p1 / 100.0 / KcalPerGram(m), calories * p2 / 100.0 / KcalPerGram(m));
  }

  /** Protein and carbohydrate share a density, so equal percentages give equal grams. */
  lemma ProteinAndCarbsAgree(calories: real, percentage: real)
    ensures Grams(calories, percentage, Protein) == Grams(calories, percentage, Carbs)
  {
  }

  /** When the split sums to 100 the targets give back the calories they came from,
      to within the rounding of each target: 2 + 2 + 4.5 kcal. */
  lemma GramsPreserveEnergy(calories: real, p: real, c: real, f: real)
    requires p + c + f == 100.0
    ensures var g := GramsFor(calories, p, c, f);
      -8.5 <= g.protein as real * 4.0 + g.carbs as real * 4.0 + g.fat as real * 9.0 - calories <= 8.5
  {
    var g := GramsFor(calories, p, c, f);
    assert calories * p / 100.0 + calories * c / 100.0 + calories * f / 100.0 == calories * (p + c + f) / 100.0;
  }

  /** 2802 kcal split 30/40/30 gives 210 g protein, 280 g carbohydrate and 93 g fat. */
  lemma ThirtyFortyThirtyExample()
    ensures GramsFor(2802.0, 30.0, 40.0, 30.0) == MacroGrams(210, 280, 93)
  {
  }
}
