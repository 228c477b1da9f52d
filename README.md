# Nutrition tracker core, modelled in Dafny

This project models the rules at the heart of a small nutrition tracker (an Express/PostgreSQL
backend with a React frontend) and proves properties of them:

- **Energy model** (`energy.dfy`): `calculateTDEE`, the Mifflin-St Jeor basal metabolic rate from
  pounds, inches and years, a gender offset (+5, -161, or -78 for any other string), an activity
  multiplier with a 1.2 fallback for unknown levels, and `Math.round`.
- **Macro allocator** (`macros.dfy`, `profile_summary.dfy`): gram targets `round(M·p/100/4)` for
  protein and carbohydrate and `round(M·p/100/9)` for fat. The same formula is written out in the
  profile summary card, the daily summary card and the onboarding page. All three use this one
  definition.
- **Profile routes** (`profile_routes.dfy`):
  - POST `/onboarding` validates the answers, computes the maintenance calories and stores them.
  - PUT `/` builds an `UPDATE ... SET col = $n, ...` statement from a partial patch. It recomputes
    the calories only when all five physical fields are given. The builder is an imperative method
    proved equal to a specification of the statement, and running that statement on a row is
    proved to perform exactly the patch.
  - The `user_profiles` table is a class holding a map from user id to row.
- **Daily summary card** (`daily_summary.dfy`):
  - the nested accumulation of the day's totals, as a method with loop invariants;
  - the goals, the percentages (including the division by a zero goal), the bar colour and width,
    and the remaining calories.
- **Onboarding page** (`onboarding_page.dfy`): the two-step form as a class with the page's
  state. It covers the clamped macro sliders, the preview of the maintenance calories, the step-1
  check and the split check of the final submit. The page's copy of the TDEE formula is proved
  equal to the server's for every gender and activity level the form offers.
- **Meal routes** (`meal_routes.dfy`):
  - the `meals` and `meal_foods` tables as a class of two sequences;
  - list a day's meals, create a meal, delete a meal with its foods, add a food, remove a food;
  - the owner checks and the row-to-food mapping;
  - an invariant: serial ids, increasing creation times, and every food belongs to a stored meal.
- **Food search** (`food_search.dfy`): the query and key guards, the upstream failure, and the
  mapping of each USDA hit with `findNutrient`, a priority-ordered search of the nutrient list.
- **Route guard** (`protected_route.dfy`): the loading / login / onboarding / page decision.

Shared pieces:

- `wrappers.dfy` defines `Option` and `Result`.
- `js_math.dfy` models `Math.round`, `Math.min`, `Math.max` and JavaScript truthiness.
- `types.dfy` defines the shared records.

Numbers are exact reals. A JavaScript value that may be `undefined` is an `Option`. A number
is truthy when it is present and non-zero. A string is truthy when it is present and non-empty.

### Where the code falls short of its evident intent

In each case below, the model follows the code.

- The comment above the PUT recomputation (`backend/src/routes/profile.ts:183`) reads as if the
  calories are recomputed whenever a physical field changes. The guard at line 185 recomputes
  them only when age, gender, weight, height and activity level are all present and truthy in
  the patch. A weight-only patch leaves the stored calories stale
  (`ProfileRoutes.WeightOnlyPatchLeavesCaloriesStale`).
- Onboarding checks that the macro split sums to 100. PUT stores any split
  (`ProfileRoutes.UpdateAcceptsAnySplit`).
- A goal of 0 has no meaningful percentage. The daily card divides by it anyway: a 0% split,
  stored through the API (the page's sliders cannot produce it), gives `NaN%` or `Infinity%`
  (`DailySummary.ZeroProteinGoalShowsNaN`).
- An absent macro and a macro of 0 are different facts. When a stored macro reaches the
  mapping as the number 0, the meal routes return it as absent
  (`MealRoutes.StoredZeroComesBackAbsent`). A missing calorie value is stored as 0.

## Model

| member | source | states |
|---|---|---|
| JsMath.Round | backend/src/routes/profile.ts:46 | `Math.round` gives the integer within half a unit below or at most half a unit above x. |
| Energy.Multiplier | backend/src/routes/profile.ts:35-43 | The activity multiplier is between 1.2 and 1.9. Any string outside the five levels gets 1.2. |
| Energy.Bmr | backend/src/routes/profile.ts:20-32 | Mifflin-St Jeor on kilograms and centimetres, with +5 for "male", -161 for "female" and -78 for any other string. |
| Energy.Tdee | backend/src/routes/profile.ts:12-47 | The maintenance calories are BMR times the activity multiplier, rounded half up. An unknown level uses 1.2. |
| Energy.GenderBranchesOrdered | backend/src/routes/profile.ts:25-32 | The female BMR is 166 below the male one. Every other gender string sits exactly halfway between. |
| Energy.BmrIncreasesWithWeight | backend/src/routes/profile.ts:20-32 | On every gender branch, BMR strictly increases with weight. |
| Energy.BmrIncreasesWithHeight | backend/src/routes/profile.ts:21-32 | On every gender branch, BMR strictly increases with height. |
| Energy.BmrDecreasesWithAge | backend/src/routes/profile.ts:25-32 | On every gender branch, BMR strictly decreases with age. |
| Energy.UnknownLevelIsSedentary | backend/src/routes/profile.ts:43 | An unknown activity level gives the same TDEE as "sedentary". |
| Energy.MultipliersIncrease | backend/src/routes/profile.ts:35-41 | The multipliers strictly increase from sedentary to very_active. |
| Energy.TdeeIncreasesWithActivity | backend/src/routes/profile.ts:43-46 | With a non-negative BMR, the rounded TDEE never decreases with the activity level. |
| Energy.ModerateMaleExample | backend/src/routes/profile.ts:12-47 | 25 years, 180 lb, 70 in, male, moderate: BMR 1807.7156 and TDEE 2802. |
| Macros.Grams | frontend/src/components/ProfileSummary.tsx:8-16 | The gram target's energy is within half a gram's energy of the chosen share of the calories. |
| Macros.GramsNonNegative | frontend/src/components/ProfileSummary.tsx:8-16 | Non-negative calories and percentage never give a negative target. |
| Macros.GramsIncreaseWithPercentage | frontend/src/components/ProfileSummary.tsx:8-16 | For non-negative calories, a larger percentage never gives fewer grams. |
| Macros.ProteinAndCarbsAgree | frontend/src/components/ProfileSummary.tsx:8-13 | Protein and carbohydrate use the same density, so equal percentages give equal grams. |
| Macros.GramsPreserveEnergy | frontend/src/components/ProfileSummary.tsx:8-16 | When the split sums to 100, 4·protein + 4·carbs + 9·fat is within 8.5 kcal of the calories. |
| Macros.ThirtyFortyThirtyExample | frontend/src/pages/OnboardingPage.tsx:128-132 | 2802 kcal split 30/40/30 gives 210 g, 280 g and 93 g. |
| ProfileSummary.SummaryCard | frontend/src/components/ProfileSummary.tsx:8-26 | The card shows the stored calories unchanged and the allocator's grams for the stored split. |
| ProfileSummary.SummaryCardNonNegative | frontend/src/components/ProfileSummary.tsx:8-16 | With non-negative inputs, all three targets shown are non-negative. |
| ProfileRoutes.Onboard | backend/src/routes/profile.ts:63-104 | A missing or falsy physical field gives 400 "All fields are required", checked first. A split not summing to 100 gives the second 400. It succeeds iff both checks pass. It then stores every answer as sent, including the three percentages, with the TDEE of the answers and the completed flag. |
| ProfileRoutes.SplitOf101Rejected | backend/src/routes/profile.ts:68-70 | A 30/40/31 split is refused even with every physical field given. |
| ProfileRoutes.RecomputedCalories | backend/src/routes/profile.ts:184-193 | The patch yields new calories iff all five physical fields are truthy. They are then the TDEE of the patch's own values. |
| ProfileRoutes.BuildUpdate | backend/src/routes/profile.ts:196-245 | The nine guarded pushes, the timestamp item and the user id give exactly the statement specified by `UpdateQueryFor`. |
| ProfileRoutes.PushIfDefined | backend/src/routes/profile.ts:200-235 | A defined value gets the next placeholder, a SET item and a value slot. An undefined one changes nothing. The lists stay in step with the pairs seen so far. |
| ProfileRoutes.PlaceholdersInStep | backend/src/routes/profile.ts:198-243 | SET placeholders run $1..$k with no gap, with one value per placeholder. WHERE uses $(k+1), whose value is the user id. The last SET item is `updated_at`. |
| ProfileRoutes.WrittenInColumnOrder | backend/src/routes/profile.ts:200-235 | The written pairs are the nine columns' entries, in the handler's order. |
| ProfileRoutes.WrittenAppend | backend/src/routes/profile.ts:200-235 | The pairs for consecutive column lists concatenate. |
| ProfileRoutes.NumberedAppend | backend/src/routes/profile.ts:201-233 | Numbering two lists of pairs continues the count across them. |
| ProfileRoutes.ValuesOfAppend | backend/src/routes/profile.ts:202-234 | The value list of concatenated pairs is the concatenation of their value lists. |
| ProfileRoutes.SetColumn | backend/src/routes/profile.ts:240-247 | Setting a column succeeds iff the value has the column's kind. It then changes that column and nothing else. |
| ProfileRoutes.WrittenPairsApply | backend/src/routes/profile.ts:240-247 | Running the numbered SET items sets exactly the columns the patch defines and keeps every other column. |
| ProfileRoutes.ApplySetsTouchLast | backend/src/routes/profile.ts:237 | The trailing `updated_at = CURRENT_TIMESTAMP` leaves the modelled columns unchanged. |
| ProfileRoutes.UpdatePerformsPatch | backend/src/routes/profile.ts:183-248 | The built statement, run on the caller's row, gives exactly `ApplyPatch`. Each given field is set, the calories change only when recomputed, and nothing else changes. |
| ProfileRoutes.ApplyPatch | backend/src/routes/profile.ts:183-248 | Each column the patch gives takes its value, and every other column keeps the old one. The calories change only when recomputed. The id, user id and onboarding flag are untouched. |
| ProfileRoutes.MaintenanceNeedsAllFive | backend/src/routes/profile.ts:185 | A patch missing any physical field keeps the stored calories. |
| ProfileRoutes.WeightOnlyPatchLeavesCaloriesStale | backend/src/routes/profile.ts:185-193 | Changing only the weight leaves calories that no longer match the new weight. |
| ProfileRoutes.UpdateAcceptsAnySplit | backend/src/routes/profile.ts:224-235 | PUT stores a 50/50/50 split as given. |
| ProfileRoutes.ProfileTable.CompleteOnboarding | backend/src/routes/profile.ts:63-106 | The table's row becomes the `Onboard` result. A validation error leaves the table unchanged. A missing row gives 500. |
| ProfileRoutes.ProfileTable.UpdateProfile | backend/src/routes/profile.ts:183-248 | The caller's row becomes `ApplyPatch` of it, and no other row changes. A missing row gives 500. |
| DailySummary.ComputeTotals | frontend/src/components/DetailedSummaryCard.tsx:10-21 | The nested accumulation gives each nutrient's sum over all foods of all meals, with falsy amounts counted as 0. |
| DailySummary.TotalsOf | frontend/src/components/DetailedSummaryCard.tsx:10-21 | Each total is the sum of that nutrient over every food of every meal, with falsy amounts counted as 0. |
| DailySummary.FoodsTotalAppend | frontend/src/components/DetailedSummaryCard.tsx:12-17 | The sum over concatenated food lists is the sum of the sums. |
| DailySummary.MealsTotalIsSumOverAllFoods | frontend/src/components/DetailedSummaryCard.tsx:10-21 | Summing meal by meal equals summing over the flat list of foods. |
| DailySummary.NoFoodsNoTotals | frontend/src/components/DetailedSummaryCard.tsx:10-21 | Meals without foods add up to 0. |
| DailySummary.FoodsTotalNonNegative | frontend/src/components/DetailedSummaryCard.tsx:12-17 | Non-negative amounts give a non-negative total. |
| DailySummary.GoalsFor | frontend/src/components/DetailedSummaryCard.tsx:24-37 | There are goals iff there is a profile. They equal the profile summary card's figures. |
| DailySummary.Percentage | frontend/src/components/DetailedSummaryCard.tsx:40-47 | For a non-zero goal, the percentage is the rounded ratio. It is uncapped: at least 100 once a positive goal is reached, and 0 when nothing is eaten. A zero goal gives Infinity, -Infinity or NaN according to the sign of the amount eaten. |
| DailySummary.PercentageIncreasesWithConsumption | frontend/src/components/DetailedSummaryCard.tsx:42-45 | Eating more never lowers the percentage of a positive goal. |
| DailySummary.PercentagesFor | frontend/src/components/DetailedSummaryCard.tsx:40-47 | There are percentages iff there are goals, one per nutrient against its own goal. |
| DailySummary.BarColor | frontend/src/components/DetailedSummaryCard.tsx:62-67 | Green iff at least 100 (or Infinity). Blue iff 75 to 99. Yellow otherwise, including NaN. |
| DailySummary.BarWidth | frontend/src/components/DetailedSummaryCard.tsx:80 | The width is capped at 100 and is the percentage or 100. It is 100 iff the goal is reached. NaN stays NaN. |
| DailySummary.RemainingCalories | frontend/src/components/DetailedSummaryCard.tsx:136 | The shown remainder is the goal minus the calories eaten, rounded half up. It is negative only when the calories eaten exceed the goal by more than half a kcal; up to that it shows 0. |
| DailySummary.RemainingColor | frontend/src/components/DetailedSummaryCard.tsx:129-135 | Red iff the unrounded calories eaten exceed the goal, green otherwise. |
| DailySummary.RenderCard | frontend/src/components/DetailedSummaryCard.tsx:87-138 | The prompt appears iff there is no profile. Otherwise there are four bars. Each shows its nutrient's total against its goal, with that percentage and the colour and width it gives. The remaining calories come with their colour. |
| DailySummary.EmptyDayLeavesWholeGoal | frontend/src/components/DetailedSummaryCard.tsx:10-21 | With no foods the totals are zero and the whole calorie goal remains. |
| DailySummary.SlightlyOverBudgetShowsRedZero | frontend/src/components/DetailedSummaryCard.tsx:129-136 | 0.25 kcal over budget is drawn red but shown as 0 kcal. |
| DailySummary.OneFoodExample | frontend/src/components/DetailedSummaryCard.tsx:10-47 | One 500 kcal food against a 2802 kcal, 30/40/30 profile gives 18% of calories and 0% of protein. |
| DailySummary.ZeroProteinGoalShowsNaN | frontend/src/components/DetailedSummaryCard.tsx:40-80 | A 0% protein split makes a 0 g goal. Before any food the bar reads NaN%, is yellow and has no width. |
| OnboardingPage.Clamp | frontend/src/pages/OnboardingPage.tsx:33 | The stored value lies in [0, 100]. It is unchanged inside the range, 0 below it and 100 above it. |
| OnboardingPage.PreviewTdee | frontend/src/pages/OnboardingPage.tsx:40-66 | The page's own formula is within half a kcal of the server's BMR times multiplier for the strings the form sends. |
| OnboardingPage.Form.WithPercentage | frontend/src/pages/OnboardingPage.tsx:34-37 | The named macro takes the value. The other macros and the rest of the form are kept. |
| OnboardingPage.PreviewMatchesServer | frontend/src/pages/OnboardingPage.tsx:45-66 | For every gender and activity level the form offers, the page's preview equals the server's `calculateTDEE` on the strings the form sends. |
| OnboardingPage.RequestOf | frontend/src/pages/OnboardingPage.tsx:101-110 | The body carries the form's gender and level names, its age, its measurements and its three percentages. An empty age arrives missing. |
| OnboardingPage.SubmittedSplitPassesServer | frontend/src/pages/OnboardingPage.tsx:81-89 | A split the page lets through always passes the server's split check. |
| OnboardingPage.StoredCaloriesMatchPreview | frontend/src/pages/OnboardingPage.tsx:40-132 | When the server accepts the answers, it stores exactly the previewed calories, and the profile summary shows the previewed grams. |
| OnboardingPage.ZeroAgePassesPageButNotServer | frontend/src/pages/OnboardingPage.tsx:71 | An age of "0" fills the page's field, but the server refuses it as missing. |
| OnboardingPage.Page.constructor | frontend/src/pages/OnboardingPage.tsx:13-26 | Starts at step 1 with empty text fields, male, moderate, 30/40/30, no calories, no error, not loading. |
| OnboardingPage.Page.HandleInputChange | frontend/src/pages/OnboardingPage.tsx:28-30 | Only on step 1, where the inputs are shown. The named field takes the new value, and nothing else changes. |
| OnboardingPage.Page.HandleMacroChange | frontend/src/pages/OnboardingPage.tsx:32-38 | Only on step 2, where the sliders are shown. The slider's macro takes the clamped value. The other macros and the rest of the state are untouched. |
| OnboardingPage.Page.CalculatePreview | frontend/src/pages/OnboardingPage.tsx:40-68 | With an empty age, weight or height it does nothing. Otherwise it stores the preview TDEE. |
| OnboardingPage.Page.HandleStep1Submit | frontend/src/pages/OnboardingPage.tsx:70-78 | Only on step 1. An empty field sets "Please fill in all fields" and stays on step 1. Otherwise it previews, clears the error and moves to step 2. Step 2 is never reached with an empty text field. |
| OnboardingPage.Page.HandleFinalSubmit | frontend/src/pages/OnboardingPage.tsx:80-110 | Only on step 2 and while not loading, since the button is disabled while loading. A request is sent iff the split totals 100. Otherwise the error is set and nothing is sent. When sent, loading is set, the error is cleared and the body is `RequestOf(form)`, with age, weight and height always present. |
| OnboardingPage.Page.HandleBack | frontend/src/pages/OnboardingPage.tsx:328-329 | Only on step 2. Back returns to step 1 and keeps everything entered. |
| OnboardingPage.Page.PreviewGrams | frontend/src/pages/OnboardingPage.tsx:128-132 | Each preview target (protein, carbs, fat) is within half a gram of its share of the previewed calories. Equal protein and carb shares give equal grams. |
| OnboardingPage.SliderClampExample | frontend/src/pages/OnboardingPage.tsx:32-38 | After filling step 1 and moving to step 2, setting the protein slider to 130 stores 100 and the fat slider to -5 stores 0. Carbs keep their 40. |
| OnboardingPage.FreshPageExample | frontend/src/pages/OnboardingPage.tsx:70-110 | An empty step 1 is refused. After filling in 25 years, 180 lb and 70 in, step 2 shows 2802 kcal, and the final submit sends those answers with the default 30/40/30 split. |
| MealRoutes.Filter | backend/src/routes/meals.ts:24 | A WHERE clause keeps exactly the rows that satisfy it, and never more rows than there were. |
| MealRoutes.FilterKeepsIncreasing | backend/src/routes/meals.ts:22-25 | Selecting or deleting rows keeps the survivors in their order. |
| MealRoutes.ToFoodItem | backend/src/routes/meals.ts:43-51 | The mapping carries the USDA id, the row id and the name. Calories are always present. Each macro is present iff truthy, and then has its stored value. |
| MealRoutes.StoredZeroComesBackAbsent | backend/src/routes/meals.ts:48 | A stored protein of 0 comes back absent. |
| MealRoutes.MealView | backend/src/routes/meals.ts:33-52 | A meal's entry lists exactly its own food rows, each mapped. |
| MealRoutes.DayView | backend/src/routes/meals.ts:21-54 | The day's list has one entry per selected meal, in the selected order. |
| MealRoutes.MealStore.GetMeals | backend/src/routes/meals.ts:12-56 | No date gives 400 "Date parameter required". Otherwise it returns the day view of the caller's meals on that date. |
| MealRoutes.MealStore.CreateMeal | backend/src/routes/meals.ts:64-88 | Without a name or date it gives 400 and no change. Otherwise a new meal row is appended with the next id and the current time, and the reply has no foods. The invariant is kept. |
| MealRoutes.MealStore.DeleteMeal | backend/src/routes/meals.ts:96-114 | It succeeds iff the caller owns the meal. Otherwise it gives 404 and no change. On success the meal and all its foods are removed, and the invariant is kept. |
| MealRoutes.MealStore.AddFood | backend/src/routes/meals.ts:122-161 | A missing food id or name gives 400, checked first. A foreign meal gives 404. It succeeds iff both checks pass. It then appends one row with `calories \|\| 0`, and the reply is that row as GET maps it, without a row id. |
| MealRoutes.MealStore.DeleteFood | backend/src/routes/meals.ts:169-191 | It succeeds iff the caller owns the meal. Otherwise it gives 404 and no change. On success only a row with that id in that meal is removed, and the reply is success even if none matched. |
| MealRoutes.DayHoldsExactlyTheCallersMeals | backend/src/routes/meals.ts:21-27 | A meal is listed iff it is stored, belongs to the caller and has that date. |
| MealRoutes.DayInCreationOrder | backend/src/routes/meals.ts:25 | The day's meals come in increasing creation time. |
| MealRoutes.CascadeRemovesOnlyThatMeal | backend/src/routes/meals.ts:111-112 | After the cascade the deleted meal has no foods, and every other meal keeps exactly its foods. |
| MealRoutes.DeleteFoodKeepsOtherRows | backend/src/routes/meals.ts:186-189 | A row survives iff it is not the one with that id in that meal. |
| MealRoutes.OtherUsersMealRefused | backend/src/routes/meals.ts:102-109 | Meal ids are unique, so the owner check refuses every other user's meal. |
| FoodSearch.Find | backend/src/routes/foods.ts:45-47 | `find` gives nothing iff no nutrient has the name. Otherwise it gives the first nutrient with it. |
| FoodSearch.FindNutrient | backend/src/routes/foods.ts:43-51 | With no name matching, the result is undefined. Otherwise it is the value of the nutrient found for the earliest listed name that matches. |
| FoodSearch.CarbsPreferByDifference | backend/src/routes/foods.ts:58 | If "Carbohydrate, by difference" is listed, the carbs come from it. |
| FoodSearch.CarbsFallBack | backend/src/routes/foods.ts:58 | Otherwise the carbs come from "Carbohydrate", or are undefined without it. |
| FoodSearch.FirstEntryWins | backend/src/routes/foods.ts:45-48 | Of two entries with the same name, the first gives the value. |
| FoodSearch.ToSearchFood | backend/src/routes/foods.ts:41-62 | A hit maps to id = fdcId, name = description and unit "kcal". Each of calories, protein, carbs and fat is `findNutrient` of its names. |
| FoodSearch.Search | backend/src/routes/foods.ts:10-68 | A missing or empty `q` gives 400 whatever follows. A missing key then gives 500, a non-ok reply 502, and a failed fetch or unreadable body 500. It succeeds iff all guards pass and a body arrives, with one mapped hit per upstream hit, in order. |
| FoodSearch.EmptyQueryNeverReachesUpstream | backend/src/routes/foods.ts:13-15 | An empty or missing query gets the same answer whatever the key and the upstream reply. |
| ProtectedRoute.Guard | frontend/src/components/ProtectedRoute.tsx:8-29 | The loading view iff loading. /login iff not loading and no user. /onboarding iff a user with a loaded, unfinished profile. The page iff a user whose profile is null or finished. |
| ProtectedRoute.OnboardingOpensThePage | frontend/src/components/ProtectedRoute.tsx:24-28 | For a signed-in user with a loaded profile, finishing the onboarding is what opens the page. |

## Left out

- Numbers are exact reals, so IEEE-754 rounding of products such as `weight × 0.453592` is not
  modelled. A `Math.round` exactly at a .5 boundary may differ from the program's.
- The model takes form and database values as already parsed, so `parseInt`/`parseFloat` is not
  modelled. In the source, a non-numeric slider value makes `handleMacroChange` store NaN.
- A numeric column that arrives as a string ("0.00") is truthy in JavaScript. The meal mapping
  is modelled on numbers, so there a stored 0 is falsy. How the driver returns these columns
  depends on the database schema, which is not part of this model.
- `ProfileRoutes.Onboard`: JSON `null` is not modelled. A `null` percentage counts as 0 in the
  source's sum (`null + 40 + 60 === 100`), so it passes the split check and is stored as NULL.
  The model treats a missing percentage as failing the check.
- JSON `null` in a PUT body is not modelled. It is `!== undefined`, so the source pushes it as
  `NULL`; a field is modelled as either absent or a value of its own type.
- Request fields of the wrong JSON type (an age sent as a string, a gender sent as a number) are
  not modelled.
- The model treats activity-level keys inherited by every JavaScript object (such as
  "constructor") like any other unknown level, with multiplier 1.2. The source gets a non-number
  for them.
- SQL execution, the connection pool, Express routing and the 500 responses for database
  errors are not modelled. Tables are in-memory sequences and maps. The UPDATE statement is
  modelled as data together with its effect on the row.
- The `updated_at` and `created_at` timestamps are not modelled as times. `updated_at` does not
  touch a modelled column, and `created_at` is a counter the store advances.
- Authentication (bcrypt, JWT, the middleware) is not modelled. The caller's user id is a
  parameter.
- GET `/` of the profile routes and the response field renaming (`parseFloat(profile.weight_lbs)`
  and so on) are not modelled.
- `OnboardingPage.Page.HandleFinalSubmit`: only the part before the network call is modelled.
  The response handling is not: saving the profile, navigating, showing the server's error and
  resetting `loading`.
- `FoodSearch.Search`: the HTTP call is a parameter holding the upstream reply, or its
  failure. The URL with its `pageSize=10` and the console logging are not modelled.
- `meals.ts` fetches each meal's foods with `Promise.all`. The model does this one meal after
  another, which gives the same result.
- A `mealId` path parameter that parses to NaN is not modelled. The source sends NaN to the
  database as a query parameter. The outcome depends on the schema, which is not part of this
  model: with an integer `id` column the query fails and the handler answers 500.
- `MealRoutes.Selected`: meal dates are opaque strings compared as text. The source passes the
  date to a `meal_date` column; if that column is a calendar date, the database would treat
  "2024-1-5" and "2024-01-05" as the same day and answer 500 for text that is not a date. Neither
  the normalisation nor that 500 is modelled. The dashboard always sends the ISO form.
- `OnboardingPage.Page.HandleMacroChange`: the sliders' HTML `min`/`max` bounds (protein 10-50,
  carbs 10-70, fat 15-50) are not modelled. The model accepts any value and clamps it to 0-100,
  as the handler does, so it admits splits the rendered sliders cannot produce.
- `MealRoutes.MealView`: the model lists a meal's foods in insertion order. The source's query
  (`backend/src/routes/meals.ts:34-36`) has no ORDER BY, so the program fixes no order for them.
- `ProtectedRoute.Guard`: a profile that is `undefined` rather than `null` is not modelled. The
  auth context that loads it is not part of this model.
- Rendering (JSX, CSS classes, text formatting) is modelled only as far as the values shown: the
  bar's title, figures, colour and width.
