/** The "Today's Progress" card: what the day's meals add up to, measured against the
    goals derived from the profile. */
module DailySummary {
  import opened Wrappers
  import opened JsMath
  import opened Types
  import opened Macros
  import ProfileSummary

  datatype Nutrient = Calories | ProteinN | CarbsN | FatN

  /** `food.<nutrient> || 0`: an absent (or zero) amount counts as 0. */
  function Amount(food: FoodItem, n: Nutrient): real {
    match n
    case Calories => OrZero(food.calories)
    case ProteinN => OrZero(food.protein)
    case CarbsN => OrZero(food.carbs)
    case FatN => OrZero(food.fat)
  }

  /** The amount of `n` in a list of foods, added up from the front. */
  function FoodsTotal(foods: seq<FoodItem>, n: Nutrient): real {
    if foods == [] then 0.0 else FoodsTotal(foods[..|foods| - 1], n) + Amount(foods[|foods| - 1], n)
  }

  /** The amount of `n` in every food of every meal, meal after meal. */
  function MealsTotal(meals: seq<Meal>, n: Nutrient): real {
    if meals == [] then 0.0 else MealsTotal(meals[..|meals| - 1], n) + FoodsTotal(meals[|meals| - 1].foods, n)
  }

  /** Every food of every meal, in order. */
  function AllFoods(meals: seq<Meal>): seq<FoodItem> {
    if meals == [] then [] else AllFoods(meals[..|meals| - 1]) + meals[|meals| - 1].foods
  }

  datatype Totals = Totals(calories: real, protein: real, carbs: real, fat: real)

  /** The totals the card computes, nutrient by nutrient. */
  function TotalsOf(meals: seq<Meal>): (t: Totals)
    ensures t.calories == FoodsTotal(AllFoods(meals), Calories)
    ensures t.protein == FoodsTotal(AllFoods(meals), ProteinN)
    ensures t.carbs == FoodsTotal(AllFoods(meals), CarbsN)
    ensures t.fat == FoodsTotal(AllFoods(meals), FatN)
  {
    MealsTotalIsSumOverAllFoods(meals, Calories);
    MealsTotalIsSumOverAllFoods(meals, ProteinN);
    MealsTotalIsSumOverAllFoods(meals, CarbsN);
    MealsTotalIsSumOverAllFoods(meals, FatN);
    Totals(MealsTotal(meals, Calories), MealsTotal(meals, ProteinN), MealsTotal(meals, CarbsN), MealsTotal(meals, FatN))
  }

  /** The `reduce`/`forEach` accumulation of the four totals over the meals and their foods. */
  method ComputeTotals(meals: seq<Meal>) returns (acc: Totals)
    ensures acc == TotalsOf(meals)
  {
    acc := Totals(0.0, 0.0, 0.0, 0.0);
    var i := 0;
    while i < |meals|
      invariant 0 <= i <= |meals|
      invariant acc == TotalsOf(meals[..i])
    {
      var foods := meals[i].foods;
      var j := 0;
      while j < |foods|
        invariant 0 <= j <= |foods|
        invariant acc.calories == MealsTotal(meals[..i], Calories) + FoodsTotal(foods[..j], Calories)
        invariant acc.protein == MealsTotal(meals[..i], ProteinN) + FoodsTotal(foods[..j], ProteinN)
        invariant acc.carbs == MealsTotal(meals[..i], CarbsN) + FoodsTotal(foods[..j], CarbsN)
        invariant acc.fat == MealsTotal(meals[..i], FatN) + FoodsTotal(foods[..j], FatN)
      {
        var food := foods[j];
        assert foods[..j + 1][..j] == foods[..j];
        acc := Totals(acc.calories + OrZero(food.calories), acc.protein + OrZero(food.protein),
                      acc.carbs + OrZero(food.carbs), acc.fat + OrZero(food.fat));
        j := j + 1;
      }
      assert foods[..j] == foods;
      assert meals[..i + 1][..i] == meals[..i];
      i := i + 1;
    }
    assert meals[..i] == meals;
  }

  /** Food totals add up over a split of the list. */
  lemma {:induction false} FoodsTotalAppend(a: seq<FoodItem>, b: seq<FoodItem>, n: Nutrient)
    ensures FoodsTotal(a + b, n) == FoodsTotal(a, n) + FoodsTotal(b, n)
    decreases |b|
  {
    if b == [] {
      assert a + b == a;
    } else {
      assert (a + b)[..|a + b| - 1] == a + b[..|b| - 1];
      FoodsTotalAppend(a, b[..|b| - 1], n);
    }
  }

  /** Each total is the sum over the flat list of every food of every meal. */
  lemma {:induction false} MealsTotalIsSumOverAllFoods(meals: seq<Meal>, n: Nutrient)
    ensures MealsTotal(meals, n) == FoodsTotal(AllFoods(meals), n)
  {
    if meals != [] {
      MealsTotalIsSumOverAllFoods(meals[..|meals| - 1], n);
      FoodsTotalAppend(AllFoods(meals[..|meals| - 1]), meals[|meals| - 1].foods, n);
    }
  }

  /** With no meals, or only meals without foods, every total is 0. */
  lemma {:induction false} NoFoodsNoTotals(meals: seq<Meal>, n: Nutrient)
    requires forall i :: 0 <= i < |meals| ==> meals[i].foods == []
    ensures MealsTotal(meals, n) == 0.0
  {
    if meals != [] {
      NoFoodsNoTotals(meals[..|meals| - 1], n);
    }
  }

  /** Foods whose amounts are all non-negative give a non-negative total. */
  lemma {:induction false} FoodsTotalNonNegative(foods: seq<FoodItem>, n: Nutrient)
    requires forall i :: 0 <= i < |foods| ==> Amount(foods[i], n) >= 0.0
    ensures FoodsTotal(foods, n) >= 0.0
  {
    if foods != [] {
      FoodsTotalNonNegative(foods[..|foods| - 1], n);
    }
  }

  /** Goals derived from the profile: its calories and the three gram targets. */
  datatype Goals = Goals(calories: int, protein: int, carbs: int, fat: int)

  /** There are goals exactly when there is a profile; they are the figures the profile
      summary card shows for that profile. */
  function GoalsFor(profile: Option<UserProfile>): (goals: Option<Goals>)
    ensures goals.None? <==> profile.None?
    ensures goals.Some? ==>
      var card := ProfileSummary.SummaryCard(profile.value);
      goals.value == Goals(card.calories, card.proteinGrams, card.carbsGrams, card.fatGrams)
  {
    match profile
    case None => None
    case Some(p) =>
      var g := GramsFor(p.maintenanceCalories as real, p.proteinPercentage, p.carbsPercentage, p.fatPercentage);
      Some(Goals(p.maintenanceCalories, g.protein, g.carbs, g.fat))
  }

  /** A JavaScript number as the percentage arithmetic can produce it: a whole number after
      rounding, or what a division by a zero goal gives. */
  datatype Percent = Finite(n: int) | PosInfinity | NegInfinity | NaN

  /** `Math.round(consumed / goal * 100)`: how much of the goal is consumed, in whole percent.
      It is not capped, so eating more than the goal gives 100 or more. A zero goal (a 0%
      macro split rounds to a 0 g goal) divides by zero: Infinity when something was eaten,
      NaN when nothing was. */
  function Percentage(consumed: real, goal: int): (p: Percent)
    ensures goal != 0 ==> p.Finite? && p.n as real - 0.5 <= consumed * 100.0 / goal as real < p.n as real + 0.5
    ensures goal > 0 && consumed >= goal as real ==> p.Finite? && p.n >= 100
    ensures goal != 0 && consumed == 0.0 ==> p == Finite(0)
    ensures goal == 0 ==> (p == NaN <==> consumed == 0.0) && (p == PosInfinity <==> consumed > 0.0)
                          && (p == NegInfinity <==> consumed < 0.0)
  {
    if goal == 0 then
      if consumed > 0.0 then PosInfinity else if consumed < 0.0 then NegInfinity else NaN
    else
      var ratio := consumed / goal as real;
      assert ratio * 100.0 == consumed * 100.0 / goal as real;
      assert goal > 0 && consumed >= goal as real ==> ratio >= 1.0;
      Finite(Round(ratio * 100.0))
  }

  /** Consuming more never lowers the percentage of a positive goal. */
  lemma PercentageIncreasesWithConsumption(c1: real, c2: real, goal: int)
    requires goal > 0 && c1 <= c2
    ensures Percentage(c1, goal).n <= Percentage(c2, goal).n
  {
    var g := goal as real;
    assert c1 / g <= c2 / g;
    RoundMonotone(c1 / g * 100.0, c2 / g * 100.0);
  }

  datatype Percentages = Percentages(calories: Percent, protein: Percent, carbs: Percent, fat: Percent)

  /** Percentages exist exactly when goals do. */
  function PercentagesFor(totals: Totals, goals: Option<Goals>): (pct: Option<Percentages>)
    ensures pct.None? <==> goals.None?
    ensures pct.Some? ==> pct.value.calories == Percentage(totals.calories, goals.value.calories)
    ensures pct.Some? ==> pct.value.protein == Percentage(totals.protein, goals.value.protein)
    ensures pct.Some? ==> pct.value.carbs == Percentage(totals.carbs, goals.value.carbs)
    ensures pct.Some? ==> pct.value.fat == Percentage(totals.fat, goals.value.fat)
  {
    match goals
    case None => None
    case Some(g) =>
      Some(Percentages(Percentage(totals.calories, g.calories), Percentage(totals.protein, g.protein),
                       Percentage(totals.carbs, g.carbs), Percentage(totals.fat, g.fat)))
  }

  datatype Color = Green | Blue | Yellow | Red

  /** `percentage >= 100`: true for 100 and above and for Infinity. */
  predicate Reached(p: Percent) {
    p.PosInfinity? || (p.Finite? && p.n >= 100)
  }

  /** The progress bar colour: green once the goal is reached, blue from 75%, yellow below;
      NaN fails both comparisons and is yellow. */
  function BarColor(percentage: Percent): (c: Color)
    ensures c == Green <==> Reached(percentage)
    ensures c == Blue <==> percentage.Finite? && 75 <= percentage.n < 100
    ensures c == Yellow <==> percentage == NaN || percentage == NegInfinity || (percentage.Finite? && percentage.n < 75)
  {
    match percentage
    case PosInfinity => Green
    case NegInfinity => Yellow
    case NaN => Yellow
    case Finite(n) => if n >= 100 then Green else if n >= 75 then Blue else Yellow
  }

  /** `Math.min(percentage, 100)`: the bar's width in percent, capped at 100 (the figure
      shown is not capped). NaN stays NaN, which leaves the width unset. */
  function BarWidth(percentage: Percent): (w: Percent)
    ensures w.Finite? ==> w.n <= 100
    ensures percentage.Finite? ==> w.Finite? && w.n <= percentage.n && (w.n == percentage.n || w.n == 100)
    ensures w == Finite(100) <==> Reached(percentage)
    ensures w == NaN <==> percentage == NaN
  {
    match percentage
    case PosInfinity => Finite(100)
    case NegInfinity => NegInfinity
    case NaN => NaN
    case Finite(n) => Finite(if n <= 100 then n else 100)
  }

  /** The remaining calories shown: rounded, and negative once over budget. */
  function RemainingCalories(goals: Goals, totals: Totals): (r: int)
    ensures r as real - 0.5 <= goals.calories as real - totals.calories < r as real + 0.5
  {
    Round(goals.calories as real - totals.calories)
  }

  /** The remaining figure is drawn red exactly when the unrounded difference is negative. */
  function RemainingColor(goals: Goals, totals: Totals): (c: Color)
    ensures c == Red <==> totals.calories > goals.calories as real
    ensures c == Green <==> totals.calories <= goals.calories as real
  {
    if goals.calories as real - totals.calories >= 0.0 then Green else Red
  }

  /** One progress bar: the title, the rounded amount eaten, the goal, the uncapped
      percentage, its colour and its capped width. */
  datatype Bar = Bar(title: string, current: int, goal: int, percentage: Percent, color: Color, width: Percent)

  function MakeBar(title: string, current: real, goal: int, percentage: Percent): Bar {
    Bar(title, Round(current), goal, percentage, BarColor(percentage), BarWidth(percentage))
  }

  /** What the card renders: a prompt without a profile, otherwise four bars and the remaining calories. */
  datatype Card =
    | CompleteProfilePrompt
    | Progress(calories: Bar, protein: Bar, carbs: Bar, fat: Bar, remaining: int, remainingColor: Color)

  /** The bar drawn for an amount eaten against a goal: its figures, its percentage of the
      goal, and the colour and width that percentage gives. */
  predicate ShowsProgress(b: Bar, title: string, eaten: real, goal: int) {
    && b.title == title && b.current == Round(eaten) && b.goal == goal
    && b.percentage == Percentage(eaten, goal)
    && b.color == BarColor(b.percentage) && b.width == BarWidth(b.percentage)
  }

  function RenderCard(meals: seq<Meal>, profile: Option<UserProfile>): (card: Card)
    ensures card.CompleteProfilePrompt? <==> profile.None?
    ensures card.Progress? ==>
      card.calories.goal == profile.value.maintenanceCalories
    ensures card.Progress? ==>
      var g, t := GoalsFor(profile).value, TotalsOf(meals);
      && ShowsProgress(card.calories, "Calories", t.calories, g.calories)
      && ShowsProgress(card.protein, "Protein", t.protein, g.protein)
      && ShowsProgress(card.carbs, "Carbs", t.carbs, g.carbs)
      && ShowsProgress(card.fat, "Fat", t.fat, g.fat)
      && card.remaining == RemainingCalories(g, t)
      && card.remainingColor == RemainingColor(g, t)
  {
    var totals := TotalsOf(meals);
    var goals := GoalsFor(profile);
    var pct := PercentagesFor(totals, goals);
    if profile.None? then CompleteProfilePrompt
    else
      var g, p := goals.value, pct.value;
      Progress(
        MakeBar("Calories", totals.calories, g.calories, p.calories),
        MakeBar("Protein", totals.protein, g.protein, p.protein),
        MakeBar("Carbs", totals.carbs, g.carbs, p.carbs),
        MakeBar("Fat", totals.fat, g.fat, p.fat),
        RemainingCalories(g, totals),
        RemainingColor(g, totals))
  }

  /** A day without foods leaves the whole calorie goal remaining. */
  lemma EmptyDayLeavesWholeGoal(meals: seq<Meal>, goals: Goals)
    requires forall i :: 0 <= i < |meals| ==> meals[i].foods == []
    ensures TotalsOf(meals) == Totals(0.0, 0.0, 0.0, 0.0)
    ensures RemainingCalories(goals, TotalsOf(meals)) == goals.calories
  {
    NoFoodsNoTotals(meals, Calories);
    NoFoodsNoTotals(meals, ProteinN);
    NoFoodsNoTotals(meals, CarbsN);
    NoFoodsNoTotals(meals, FatN);
  }

  /** A difference just below zero is drawn red yet shown as 0 kcal. */
  lemma SlightlyOverBudgetShowsRedZero()
    ensures var g, t := Goals(2000, 1, 1, 1), Totals(2000.25, 0.0, 0.0, 0.0);
      RemainingColor(g, t) == Red && RemainingCalories(g, t) == 0
  {
  }

  /** One 500 kcal food with no protein value against a 2802 kcal, 30/40/30 profile:
      18% of the calories and 0% of the protein. */
  lemma OneFoodExample()
    ensures var food := FoodItem(1, None, "x", Some(500.0), None, None, None);
      var meals := [Meal(1, "Lunch", [food])];
      var profile := UserProfile(1, 1, 25.0, "male", 180.0, 70.0, "moderate", 2802, 30.0, 40.0, 30.0, true);
      var totals := TotalsOf(meals);
      GoalsFor(Some(profile)) == Some(Goals(2802, 210, 280, 93))
      && totals.protein == 0.0
      && PercentagesFor(totals, GoalsFor(Some(profile))).value.calories == Finite(18)
      && PercentagesFor(totals, GoalsFor(Some(profile))).value.protein == Finite(0)
  {
    var food := FoodItem(1, None, "x", Some(500.0), None, None, None);
    var meals := [Meal(1, "Lunch", [food])];
    assert meals[..0] == [] && [food][..0] == [];
    forall n: Nutrient ensures MealsTotal(meals, n) == Amount(food, n) {
      assert FoodsTotal([food], n) == Amount(food, n);
    }
  }

  /** A 0/50/50 split stored through the API (the page's sliders cannot produce it) passes the
      server's check, but its protein goal is 0 g: before any food the protein bar reads NaN%,
      is yellow and has no width. */
  lemma ZeroProteinGoalShowsNaN()
    ensures var profile := UserProfile(1, 1, 25.0, "male", 180.0, 70.0, "moderate", 2802, 0.0, 50.0, 50.0, true);
      var empty := RenderCard([], Some(profile));
      && GoalsFor(Some(profile)).value.protein == 0
      && empty.protein.percentage == NaN && empty.protein.color == Yellow && empty.protein.width == NaN
  {
    var profile := UserProfile(1, 1, 25.0, "male", 180.0, 70.0, "moderate", 2802, 0.0, 50.0, 50.0, true);
    assert GoalsFor(Some(profile)).value.protein == 0;
    NoFoodsNoTotals([], ProteinN);
  }
}
