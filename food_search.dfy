/** GET /api/foods/search: the guards in front of the USDA FoodData Central search, and the
    mapping of each search hit to a food with its energy and macros picked out of the
    hit's nutrient list. The HTTP call itself is a parameter: the reply the upstream
    service would give. */
module FoodSearch {
  import opened Wrappers
  import opened JsMath
  import opened Types

  const QueryRequired: string := "Query parameter 'q' is required."
  const Unit: string := "kcal"

  const EnergyNames: seq<string> := ["Energy"]
  const ProteinNames: seq<string> := ["Protein"]
  const CarbsByDifference: string := "Carbohydrate, by difference"
  const CarbsNames: seq<string> := [CarbsByDifference, "Carbohydrate"]
  const FatNames: seq<string> := ["Total lipid (fat)"]

  /** One entry of a hit's foodNutrients; its value may be missing. */
  datatype Nutrient = Nutrient(nutrientName: string, value: Option<real>)

  /** One search hit as the upstream service sends it. */
  datatype UsdaFood = UsdaFood(fdcId: int, description: string, foodNutrients: seq<Nutrient>)

  /** The upstream reply: a failure status, a body with its list of hits, or no usable reply
      at all (the fetch rejects, or the body is not JSON with a list of foods). */
  datatype Upstream = NotOk(status: int) | Body(foods: seq<UsdaFood>) | Failed

  /** A food as the search route returns it. */
  datatype SearchFood = SearchFood(
    id: int, name: string,
    calories: Option<real>, protein: Option<real>, carbs: Option<real>, fat: Option<real>,
    unit: string)

  /** Some nutrient in the list has this name. */
  predicate Named(nutrients: seq<Nutrient>, name: string) {
    exists n :: n in nutrients && n.nutrientName == name
  }

  /** `foodNutrients.find(n => n.nutrientName === name)`: the first nutrient with that name. */
  function Find(nutrients: seq<Nutrient>, name: string): (r: Option<Nutrient>)
    ensures r.None? <==> !Named(nutrients, name)
    ensures r.Some? ==>
      exists i :: 0 <= i < |nutrients| && nutrients[i] == r.value && r.value.nutrientName == name
                  && forall j :: 0 <= j < i ==> nutrients[j].nutrientName != name
  {
    if nutrients == [] then None
    else if nutrients[0].nutrientName == name then Some(nutrients[0])
    else
      var r := Find(nutrients[1..], name);
      assert forall n :: n in nutrients <==> n == nutrients[0] || n in nutrients[1..];
      if r.Some? then
        var i :| 0 <= i < |nutrients[1..]| && nutrients[1..][i] == r.value && r.value.nutrientName == name
                 && forall j :: 0 <= j < i ==> nutrients[1..][j].nutrientName != name;
        assert nutrients[i + 1] == r.value;
        r
      else r
  }

  /** `findNutrient(names)`: the value of the nutrient found for the first name, in the
      order given, that any nutrient carries; undefined when no name matches. */
  function FindNutrient(nutrients: seq<Nutrient>, names: seq<string>): (r: Option<real>)
    ensures (forall k :: 0 <= k < |names| ==> !Named(nutrients, names[k])) ==> r.None?
    ensures forall k :: 0 <= k < |names| && Named(nutrients, names[k])
                        && (forall k' :: 0 <= k' < k ==> !Named(nutrients, names[k'])) ==>
                        r == Find(nutrients, names[k]).value.value
  {
    if names == [] then None
    else
      match Find(nutrients, names[0])
      case Some(n) => n.value
      case None =>
        var r := FindNutrient(nutrients, names[1..]);
        assert forall k :: 1 <= k < |names| ==> names[k] == names[1..][k - 1];
        r
  }

  /** The carbohydrate figure prefers "Carbohydrate, by difference": whenever it is listed,
      the plain "Carbohydrate" entry is ignored. */
  lemma CarbsPreferByDifference(nutrients: seq<Nutrient>)
    requires Named(nutrients, CarbsByDifference)
    ensures FindNutrient(nutrients, CarbsNames) == Find(nutrients, CarbsByDifference).value.value
  {
    assert CarbsNames[0] == CarbsByDifference;
  }

  /** Without a by-difference entry the plain "Carbohydrate" entry is used, if any. */
  lemma CarbsFallBack(nutrients: seq<Nutrient>)
    requires !Named(nutrients, CarbsByDifference)
    ensures Named(nutrients, "Carbohydrate") ==> FindNutrient(nutrients, CarbsNames) == Find(nutrients, "Carbohydrate").value.value
    ensures !Named(nutrients, "Carbohydrate") ==> FindNutrient(nutrients, CarbsNames) == None
  {
    assert CarbsNames[0] == CarbsByDifference && CarbsNames[1] == "Carbohydrate";
  }

  /** The first entry with a name wins over later ones with the same name. */
  lemma FirstEntryWins(a: real, b: real)
    ensures FindNutrient([Nutrient("Protein", Some(a)), Nutrient("Protein", Some(b))], ProteinNames) == Some(a)
  {
  }

  /** The mapping of one hit. */
  function ToSearchFood(food: UsdaFood): (f: SearchFood)
    ensures f.id == food.fdcId && f.name == food.description && f.unit == Unit
    ensures f.calories == FindNutrient(food.foodNutrients, EnergyNames)
    ensures f.protein == FindNutrient(food.foodNutrients, ProteinNames)
    ensures f.carbs == FindNutrient(food.foodNutrients, CarbsNames)
    ensures f.fat == FindNutrient(food.foodNutrients, FatNames)
  {
    var ns := food.foodNutrients;
    SearchFood(food.fdcId, food.description,
               FindNutrient(ns, EnergyNames), FindNutrient(ns, ProteinNames),
               FindNutrient(ns, CarbsNames), FindNutrient(ns, FatNames), Unit)
  }

  /** GET /search?q=: 400 for a missing or empty query whatever the upstream would say,
      500 without an API key, 502 when the upstream reply is not ok, 500 when there is no
      usable reply; otherwise every hit mapped, in the upstream order. */
  function Search(q: Option<string>, apiKey: Option<string>, upstream: Upstream): (r: Result<seq<SearchFood>, ApiError>)
    ensures !TruthyText(q) ==> r == Err(BadRequest(QueryRequired))
    ensures TruthyText(q) && !TruthyText(apiKey) ==> r == Err(InternalError)
    ensures TruthyText(q) && TruthyText(apiKey) && upstream.NotOk? ==> r == Err(BadGateway)
    ensures TruthyText(q) && TruthyText(apiKey) && upstream.Failed? ==> r == Err(InternalError)
    ensures r.Ok? <==> TruthyText(q) && TruthyText(apiKey) && upstream.Body?
    ensures r.Ok? ==>
      && |r.value| == |upstream.foods|
      && forall i :: 0 <= i < |r.value| ==> r.value[i] == ToSearchFood(upstream.foods[i])
  {
    if !TruthyText(q) then Err(BadRequest(QueryRequired))
    else if !TruthyText(apiKey) then Err(InternalError)
    else match upstream
      case NotOk(_) => Err(BadGateway)
      case Failed => Err(InternalError)
      case Body(foods) => Ok(seq(|foods|, i requires 0 <= i < |foods| => ToSearchFood(foods[i])))
  }

  /** The query guard comes first: an empty query is refused the same way whatever the key
      and the upstream reply. */
  lemma EmptyQueryNeverReachesUpstream(apiKey1: Option<string>, apiKey2: Option<string>, u1: Upstream, u2: Upstream)
    ensures Search(Some(""), apiKey1, u1) == Search(None, apiKey2, u2)
  {
  }
}
