/** The "Your Daily Goals" card: maintenance calories and the three gram targets. */
module ProfileSummary {
  import opened Types
  import opened Macros

  datatype GoalsCard = GoalsCard(calories: int, proteinGrams: int, carbsGrams: int, fatGrams: int)

  /** The card shows the stored maintenance calories unchanged and, for each macro, the
      grams its percentage of those calories buys. */
  function SummaryCard(profile: UserProfile): (card: GoalsCard)
    ensures card.calories == profile.maintenanceCalories
    ensures GramsFor(profile.maintenanceCalories as real, profile.proteinPercentage,
                     profile.carbsPercentage, profile.fatPercentage)
            == MacroGrams(card.proteinGrams, card.carbsGrams, card.fatGrams)
  {
    var g := GramsFor(profile.maintenanceCalories as real, profile.proteinPercentage,
                      profile.carbsPercentage, profile.fatPercentage);
    GoalsCard(profile.maintenanceCalories, g.protein, g.carbs, g.fat)
  }

  /** With non-negative calories and percentages every target shown is non-negative. */
  lemma SummaryCardNonNegative(profile: UserProfile)
    requires 0 <= profile.maintenanceCalories
    requires 0.0 <= profile.proteinPercentage && 0.0 <= profile.carbsPercentage && 0.0 <= profile.fatPercentage
    ensures var card := SummaryCard(profile);
      0 <= card.proteinGrams && 0 <= card.carbsGrams && 0 <= card.fatGrams
  {
    var m := profile.maintenanceCalories as real;
    GramsNonNegative(m, profile.proteinPercentage, Protein);
    GramsNonNegative(m, profile.carbsPercentage, Carbs);
    GramsNonNegative(m, profile.fatPercentage, Fat);
  }
}
