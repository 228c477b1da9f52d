/** The meal routes: the meals and meal_foods tables as an in-memory store, and the five
    handlers that read and change them (list a day's meals, create a meal, delete a meal
    with its foods, add a food to a meal, remove a food from a meal). Every handler that
    names a meal first checks that the caller owns it. */
module MealRoutes {
  import opened Wrappers
  import opened JsMath
  import opened Types

  const DateRequired: string := "Date parameter required"
  const NameAndDateRequired: string := "Name and date required"
  const FoodIdAndNameRequired: string := "Food ID and name required"
  const MealNotFound: string := "Meal not found"
  const MealDeleted: string := "Meal deleted successfully"
  const FoodDeleted: string := "Food deleted successfully"

  /** A row of meals. `createdAt` stands for the created_at timestamp. */
  datatype MealRow = MealRow(id: int, userId: int, name: string, date: string, createdAt: int)

  /** A row of meal_foods. A missing macro is stored as NULL (None). */
  datatype FoodRow = FoodRow(
    id: int, mealId: int, foodId: int, foodName: string,
    calories: real, protein: Option<real>, carbs: Option<real>, fat: Option<real>)

  /** The body of POST /:mealId/foods; every field may be missing. */
  datatype AddFoodRequest = AddFoodRequest(
    foodId: Option<int>, foodName: Option<string>,
    calories: Option<real>, protein: Option<real>, carbs: Option<real>, fat: Option<real>)

  // ---------------------------------------------------------------------------------------
  // Selecting and deleting rows

  /** The elements of `s` that satisfy `keep`, in their order in `s`: a WHERE clause. */
  function Filter<T(!new)>(s: seq<T>, keep: T -> bool): (r: seq<T>)
    ensures |r| <= |s|
    ensures forall x :: x in r <==> x in s && keep(x)
    decreases |s|
  {
    if s == [] then []
    else
      assert forall x :: x in s <==> x == s[0] || x in s[1..];
      (if keep(s[0]) then [s[0]] else []) + Filter(s[1..], keep)
  }

  /** `key` grows strictly along `s`. */
  predicate Increasing<T>(s: seq<T>, key: T -> int) {
    forall i, j :: 0 <= i < j < |s| ==> key(s[i]) < key(s[j])
  }

  /** Deleting or selecting rows keeps the survivors in their order. */
  lemma {:induction false} FilterKeepsIncreasing<T(!new)>(s: seq<T>, key: T -> int, keep: T -> bool)
    requires Increasing(s, key)
    ensures Increasing(Filter(s, keep), key)
    decreases |s|
  {
    if s != [] {
      var tail := s[1..];
      TailIncreasing(s, key);
      FilterKeepsIncreasing(tail, key, keep);
      var rest := Filter(tail, keep);
      if keep(s[0]) {
        forall y | y in rest ensures key(s[0]) < key(y) {
          var j :| 0 <= j < |tail| && tail[j] == y;
          assert s[j + 1] == y;
        }
        ConsIncreasing(s[0], rest, key);
      }
    }
  }

  lemma TailIncreasing<T>(s: seq<T>, key: T -> int)
    requires s != [] && Increasing(s, key)
    ensures Increasing(s[1..], key)
  {
    var tail := s[1..];
    forall i, j | 0 <= i < j < |tail| ensures key(tail[i]) < key(tail[j]) {
      assert tail[i] == s[i + 1] && tail[j] == s[j + 1];
    }
  }

  lemma ConsIncreasing<T>(x: T, rest: seq<T>, key: T -> int)
    requires Increasing(rest, key)
    requires forall y :: y in rest ==> key(x) < key(y)
    ensures Increasing([x] + rest, key)
  {
    var r := [x] + rest;
    forall i, j | 0 <= i < j < |r| ensures key(r[i]) < key(r[j]) {
      assert r[j] == rest[j - 1];
      if i > 0 {
        assert r[i] == rest[i - 1];
      }
    }
  }

  function MealKey(m: MealRow): int { m.id }
  function CreatedKey(m: MealRow): int { m.createdAt }
  function FoodKey(f: FoodRow): int { f.id }

  /** `WHERE user_id = $1 AND meal_date = $2`. */
  function Selected(meals: seq<MealRow>, userId: int, date: string): seq<MealRow> {
    Filter(meals, (m: MealRow) => m.userId == userId && m.date == date)
  }

  /** `WHERE meal_id = $1` on meal_foods. */
  function FoodsOf(foods: seq<FoodRow>, mealId: int): seq<FoodRow> {
    Filter(foods, (f: FoodRow) => f.mealId == mealId)
  }

  /** `DELETE FROM meals WHERE id = $1`. */
  function WithoutMeal(meals: seq<MealRow>, mealId: int): seq<MealRow> {
    Filter(meals, (m: MealRow) => m.id != mealId)
  }

  /** The cascade: the foods of the deleted meal go with it. */
  function WithoutFoodsOf(foods: seq<FoodRow>, mealId: int): seq<FoodRow> {
    Filter(foods, (f: FoodRow) => f.mealId != mealId)
  }

  /** `DELETE FROM meal_foods WHERE id = $1 AND meal_id = $2`. */
  function WithoutFood(foods: seq<FoodRow>, recordId: int, mealId: int): seq<FoodRow> {
    Filter(foods, (f: FoodRow) => !(f.id == recordId && f.mealId == mealId))
  }

  /** `SELECT id FROM meals WHERE id = $1 AND user_id = $2` returns a row. */
  predicate Owns(meals: seq<MealRow>, userId: int, mealId: int) {
    exists m :: m in meals && m.id == mealId && m.userId == userId
  }

  /** Some meal has this id. */
  predicate HasMeal(meals: seq<MealRow>, mealId: int) {
    exists m :: m in meals && m.id == mealId
  }

  // ---------------------------------------------------------------------------------------
  // What GET / returns

  /** The mapping of a meal_foods row to a client food: the USDA id, the row id, calories
      `parseFloat(c) || 0`, and each macro only when it is truthy. */
  function ToFoodItem(row: FoodRow): (item: FoodItem)
    ensures item.id == row.foodId && item.recordId == Some(row.id) && item.name == row.foodName
    ensures item.calories == Some(row.calories)
    ensures item.protein.Some? <==> Truthy(row.protein)
    ensures item.carbs.Some? <==> Truthy(row.carbs)
    ensures item.fat.Some? <==> Truthy(row.fat)
    ensures item.protein.Some? ==> item.protein == row.protein
    ensures item.carbs.Some? ==> item.carbs == row.carbs
    ensures item.fat.Some? ==> item.fat == row.fat
  {
    FoodItem(row.foodId, Some(row.id), row.foodName, Some(OrZero(Some(row.calories))),
             if Truthy(row.protein) then row.protein else None,
             if Truthy(row.carbs) then row.carbs else None,
             if Truthy(row.fat) then row.fat else None)
  }

  /** A stored macro of 0 comes back absent, not as 0. */
  lemma StoredZeroComesBackAbsent(row: FoodRow)
    requires row.protein == Some(0.0)
    ensures ToFoodItem(row).protein == None
  {
  }

  /** A meal with its foods, in the order the foods were stored. */
  function MealView(m: MealRow, foods: seq<FoodRow>): (v: Meal)
    ensures v.id == m.id && v.name == m.name
    ensures |v.foods| == |FoodsOf(foods, m.id)|
    ensures forall i :: 0 <= i < |v.foods| ==> v.foods[i] == ToFoodItem(FoodsOf(foods, m.id)[i])
  {
    var rows := FoodsOf(foods, m.id);
    Meal(m.id, m.name, seq(|rows|, i requires 0 <= i < |rows| => ToFoodItem(rows[i])))
  }

  /** The body of GET / for one user and date. */
  function DayView(meals: seq<MealRow>, foods: seq<FoodRow>, userId: int, date: string): (day: seq<Meal>)
    ensures |day| == |Selected(meals, userId, date)|
    ensures forall i :: 0 <= i < |day| ==> day[i] == MealView(Selected(meals, userId, date)[i], foods)
  {
    var sel := Selected(meals, userId, date);
    seq(|sel|, i requires 0 <= i < |sel| => MealView(sel[i], foods))
  }

  // ---------------------------------------------------------------------------------------
  // The store

  /** The meals and meal_foods tables, with the id sequences and the clock that stamps
      created_at. */
  class MealStore {
    var meals: seq<MealRow>
    var foods: seq<FoodRow>
    var nextMealId: int
    var nextFoodId: int
    var clock: int

    /** Ids are serial and creation times increase in insertion order; every id and time
        is below the next one to hand out; every food belongs to a stored meal. */
    ghost predicate Valid()
      reads this
    {
      && Increasing(meals, MealKey) && Increasing(meals, CreatedKey) && Increasing(foods, FoodKey)
      && (forall m :: m in meals ==> m.id < nextMealId && m.createdAt < clock)
      && (forall f :: f in foods ==> f.id < nextFoodId && HasMeal(meals, f.mealId))
    }

    constructor ()
      ensures Valid() && meals == [] && foods == []
    {
      meals, foods := [], [];
      nextMealId, nextFoodId, clock := 1, 1, 0;
    }

    /** GET /?date=: 400 without a date; otherwise the caller's meals on that date, oldest
        first, each with its foods. */
    method GetMeals(userId: int, date: Option<string>) returns (r: Result<seq<Meal>, ApiError>)
      requires Valid()
      ensures !TruthyText(date) ==> r == Err(BadRequest(DateRequired))
      ensures TruthyText(date) ==> r == Ok(DayView(meals, foods, userId, date.value))
    {
      if !TruthyText(date) {
        return Err(BadRequest(DateRequired));
      }
      r := Ok(DayView(meals, foods, userId, date.value));
    }

    /** POST /: 400 unless both name and date are given; otherwise a new meal, stamped with
        the current time, with no foods. */
    method CreateMeal(userId: int, name: Option<string>, date: Option<string>) returns (r: Result<Meal, ApiError>)
      requires Valid()
      modifies this
      ensures Valid()
      ensures !(TruthyText(name) && TruthyText(date)) ==>
        r == Err(BadRequest(NameAndDateRequired)) && meals == old(meals) && foods == old(foods)
      ensures TruthyText(name) && TruthyText(date) ==>
        && meals == old(meals) + [MealRow(old(nextMealId), userId, name.value, date.value, old(clock))]
        && foods == old(foods)
        && r == Ok(Meal(old(nextMealId), name.value, []))
    {
      if !TruthyText(name) || !TruthyText(date) {
        return Err(BadRequest(NameAndDateRequired));
      }
      var row := MealRow(nextMealId, userId, name.value, date.value, clock);
      meals := meals + [row];
      nextMealId := nextMealId + 1;
      clock := clock + 1;
      r := Ok(Meal(row.id, row.name, []));
    }

    /** DELETE /:mealId: 404 and no change unless the caller owns the meal; otherwise the
        meal and all its foods are removed. */
    method DeleteMeal(userId: int, mealId: int) returns (r: Result<string, ApiError>)
      requires Valid()
      modifies this
      ensures Valid()
      ensures r.Ok? <==> old(Owns(meals, userId, mealId))
      ensures r.Err? ==> r == Err(NotFound(MealNotFound)) && meals == old(meals) && foods == old(foods)
      ensures r.Ok? ==>
        && r.value == MealDeleted
        && meals == WithoutMeal(old(meals), mealId)
        && foods == WithoutFoodsOf(old(foods), mealId)
    {
      if !(exists m :: m in meals && m.id == mealId && m.userId == userId) {
        return Err(NotFound(MealNotFound));
      }
      ghost var oldMeals := meals;
      meals := WithoutMeal(meals, mealId);
      foods := WithoutFoodsOf(foods, mealId);
      FilterKeepsIncreasing(oldMeals, MealKey, (m: MealRow) => m.id != mealId);
      FilterKeepsIncreasing(oldMeals, CreatedKey, (m: MealRow) => m.id != mealId);
      FilterKeepsIncreasing(old(foods), FoodKey, (f: FoodRow) => f.mealId != mealId);
      forall f | f in foods ensures HasMeal(meals, f.mealId) {
        var m :| m in oldMeals && m.id == f.mealId;
        assert m in meals;
      }
      r := Ok(MealDeleted);
    }

    /** POST /:mealId/foods: 400 unless the food id and name are given (checked first), 404
        unless the caller owns the meal; otherwise a new row with `calories || 0` and the
        macros as sent. The reply is that row as GET shows it, without the row id. */
    method AddFood(userId: int, mealId: int, req: AddFoodRequest) returns (r: Result<FoodItem, ApiError>)
      requires Valid()
      modifies this
      ensures Valid()
      ensures r.Ok? <==> req.foodId.Some? && req.foodId.value != 0 && TruthyText(req.foodName) && old(Owns(meals, userId, mealId))
      ensures !(req.foodId.Some? && req.foodId.value != 0 && TruthyText(req.foodName)) ==>
        r == Err(BadRequest(FoodIdAndNameRequired)) && meals == old(meals) && foods == old(foods)
      ensures req.foodId.Some? && req.foodId.value != 0 && TruthyText(req.foodName) && !old(Owns(meals, userId, mealId)) ==>
        r == Err(NotFound(MealNotFound)) && meals == old(meals) && foods == old(foods)
      ensures r.Ok? ==>
        var row := FoodRow(old(nextFoodId), mealId, req.foodId.value, req.foodName.value,
                           OrZero(req.calories), req.protein, req.carbs, req.fat);
        && meals == old(meals)
        && foods == old(foods) + [row]
        && r.value == ToFoodItem(row).(recordId := None)
    {
      if req.foodId.None? || req.foodId.value == 0 || !TruthyText(req.foodName) {
        return Err(BadRequest(FoodIdAndNameRequired));
      }
      if !(exists m :: m in meals && m.id == mealId && m.userId == userId) {
        return Err(NotFound(MealNotFound));
      }
      var row := FoodRow(nextFoodId, mealId, req.foodId.value, req.foodName.value,
                         OrZero(req.calories), req.protein, req.carbs, req.fat);
      foods := foods + [row];
      nextFoodId := nextFoodId + 1;
      r := Ok(FoodItem(row.foodId, None, row.foodName, Some(row.calories),
                       if Truthy(row.protein) then row.protein else None,
                       if Truthy(row.carbs) then row.carbs else None,
                       if Truthy(row.fat) then row.fat else None));
    }

    /** DELETE /:mealId/foods/:foodRecordId: 404 and no change unless the caller owns the
        meal; otherwise the row with that id in that meal, if any, is removed, and the
        reply is a success either way. */
    method DeleteFood(userId: int, mealId: int, recordId: int) returns (r: Result<string, ApiError>)
      requires Valid()
      modifies this
      ensures Valid()
      ensures r.Ok? <==> old(Owns(meals, userId, mealId))
      ensures r.Err? ==> r == Err(NotFound(MealNotFound)) && meals == old(meals) && foods == old(foods)
      ensures r.Ok? ==>
        r.value == FoodDeleted && meals == old(meals) && foods == WithoutFood(old(foods), recordId, mealId)
    {
      if !(exists m :: m in meals && m.id == mealId && m.userId == userId) {
        return Err(NotFound(MealNotFound));
      }
      FilterKeepsIncreasing(foods, FoodKey, (f: FoodRow) => !(f.id == recordId && f.mealId == mealId));
      foods := WithoutFood(foods, recordId, mealId);
      r := Ok(FoodDeleted);
    }
  }

  // ---------------------------------------------------------------------------------------
  // Properties of the store's rules

  /** GET returns exactly the caller's meals on that date. */
  lemma DayHoldsExactlyTheCallersMeals(meals: seq<MealRow>, userId: int, date: string, m: MealRow)
    ensures m in Selected(meals, userId, date) <==> m in meals && m.userId == userId && m.date == date
  {
  }

  /** GET lists a day's meals in creation order. */
  lemma DayInCreationOrder(meals: seq<MealRow>, userId: int, date: string)
    requires Increasing(meals, CreatedKey)
    ensures Increasing(Selected(meals, userId, date), CreatedKey)
  {
    FilterKeepsIncreasing(meals, CreatedKey, (m: MealRow) => m.userId == userId && m.date == date);
  }

  /** After a meal is deleted none of its foods remain, and every other meal keeps exactly
      the foods it had. */
  lemma {:induction false} CascadeRemovesOnlyThatMeal(foods: seq<FoodRow>, mealId: int, other: int)
    ensures FoodsOf(WithoutFoodsOf(foods, mealId), mealId) == []
    ensures other != mealId ==> FoodsOf(WithoutFoodsOf(foods, mealId), other) == FoodsOf(foods, other)
    decreases |foods|
  {
    if foods != [] {
      var f, t := foods[0], foods[1..];
      CascadeRemovesOnlyThatMeal(t, mealId, other);
      if f.mealId == mealId {
        assert WithoutFoodsOf(foods, mealId) == WithoutFoodsOf(t, mealId);
        assert other != mealId ==> FoodsOf(foods, other) == FoodsOf(t, other);
      } else {
        var w := WithoutFoodsOf(foods, mealId);
        assert w == [f] + WithoutFoodsOf(t, mealId);
        assert w[1..] == WithoutFoodsOf(t, mealId);
        assert FoodsOf(w, mealId) == FoodsOf(w[1..], mealId);
      }
    }
  }

  /** Removing a food touches only the row with that id in that meal: every other row
      stays, in order. */
  lemma DeleteFoodKeepsOtherRows(foods: seq<FoodRow>, recordId: int, mealId: int, f: FoodRow)
    ensures f in WithoutFood(foods, recordId, mealId) <==> f in foods && !(f.id == recordId && f.mealId == mealId)
  {
  }

  /** Meal ids are unique, so a meal stored under another user is not the caller's: the
      owner check refuses every other user's delete, added food or removed food. */
  lemma OtherUsersMealRefused(meals: seq<MealRow>, userId: int, m0: MealRow)
    requires m0 in meals && m0.userId != userId
    requires Increasing(meals, MealKey)
    ensures !Owns(meals, userId, m0.id)
  {
    forall m | m in meals && m.id == m0.id ensures m == m0 {
      var i :| 0 <= i < |meals| && meals[i] == m;
      var j :| 0 <= j < |meals| && meals[j] == m0;
      assert MealKey(meals[i]) == MealKey(meals[j]);
    }
  }
}
