/** The profile routes: POST /onboarding validates a full set of answers and stores them
    with the computed maintenance calories; PUT / applies a partial patch through an UPDATE
    statement that it builds column by column. */
module ProfileRoutes {
  import opened Wrappers
  import opened JsMath
  import opened Types
  import opened Energy

  const FieldsRequired: string := "All fields are required"
  const MacroSumMismatch: string := "Macro percentages must add up to 100"

  /** A request body of either route; every field may be missing. */
  datatype ProfileRequest = ProfileRequest(
    age: Option<real>,
    gender: Option<string>,
    weightLbs: Option<real>,
    heightInches: Option<real>,
    activityLevel: Option<string>,
    proteinPercentage: Option<real>,
    carbsPercentage: Option<real>,
    fatPercentage: Option<real>)

  /** `age && gender && weightLbs && heightInches && activityLevel`: all five present and
      truthy (a 0 or an empty string counts as missing). */
  predicate PhysicalFieldsGiven(req: ProfileRequest) {
    Truthy(req.age) && TruthyText(req.gender) && Truthy(req.weightLbs)
    && Truthy(req.heightInches) && TruthyText(req.activityLevel)
  }

  /** `proteinPercentage + carbsPercentage + fatPercentage === 100`; a missing term makes the
      sum NaN, which never equals 100. */
  predicate MacrosSumToHundred(req: ProfileRequest) {
    req.proteinPercentage.Some? && req.carbsPercentage.Some? && req.fatPercentage.Some?
    && req.proteinPercentage.value + req.carbsPercentage.value + req.fatPercentage.value == 100.0
  }

  /** `calculateTDEE` on the request's own physical fields. */
  function RequestTdee(req: ProfileRequest): int
    requires PhysicalFieldsGiven(req)
  {
    Tdee(req.gender.value, req.weightLbs.value, req.heightInches.value, req.age.value, req.activityLevel.value)
  }

  /** POST /onboarding on the caller's row: 400 for a missing field, then 400 for a split that
      does not sum to 100; otherwise every answer is stored with its maintenance calories and
      the onboarding is marked complete. */
  function Onboard(row: UserProfile, req: ProfileRequest): (r: Result<UserProfile, ApiError>)
    ensures !PhysicalFieldsGiven(req) ==> r == Err(BadRequest(FieldsRequired))
    ensures PhysicalFieldsGiven(req) && !MacrosSumToHundred(req) ==> r == Err(BadRequest(MacroSumMismatch))
    ensures r.Ok? <==> PhysicalFieldsGiven(req) && MacrosSumToHundred(req)
    ensures r.Ok? ==>
      var p := r.value;
      && p.maintenanceCalories == RequestTdee(req)
      && p.onboardingCompleted
      && p.id == row.id && p.userId == row.userId
      && Some(p.age) == req.age && Some(p.gender) == req.gender && Some(p.weightLbs) == req.weightLbs
      && Some(p.heightInches) == req.heightInches && Some(p.activityLevel) == req.activityLevel
      && Some(p.proteinPercentage) == req.proteinPercentage && Some(p.carbsPercentage) == req.carbsPercentage
      && Some(p.fatPercentage) == req.fatPercentage
  {
    if !PhysicalFieldsGiven(req) then Err(BadRequest(FieldsRequired))
    else if !MacrosSumToHundred(req) then Err(BadRequest(MacroSumMismatch))
    else
      Ok(row.(
        age := req.age.value, gender := req.gender.value, weightLbs := req.weightLbs.value,
        heightInches := req.heightInches.value, activityLevel := req.activityLevel.value,
        maintenanceCalories := RequestTdee(req),
        proteinPercentage := req.proteinPercentage.value, carbsPercentage := req.carbsPercentage.value,
        fatPercentage := req.fatPercentage.value, onboardingCompleted := true))
  }

  /** A 30/40/31 split is refused even with every physical field given. */
  lemma SplitOf101Rejected(row: UserProfile)
    ensures Onboard(row, ProfileRequest(Some(25.0), Some("male"), Some(180.0), Some(70.0), Some("moderate"),
                                        Some(30.0), Some(40.0), Some(31.0)))
            == Err(BadRequest(MacroSumMismatch))
  {
  }

  // ---------------------------------------------------------------------------------------
  // PUT /: the UPDATE statement and what it does to a row

  /** The columns the handler may set, in the order it considers them. */
  datatype Column = AgeCol | GenderCol | WeightCol | HeightCol | ActivityCol
                  | MaintenanceCol | ProteinCol | CarbsCol | FatCol

  const ColumnOrder: seq<Column> :=
    [AgeCol, GenderCol, WeightCol, HeightCol, ActivityCol, MaintenanceCol, ProteinCol, CarbsCol, FatCol]

  /** A bound parameter value. */
  datatype SqlValue = Real(r: real) | Int(i: int) | Text(s: string)

  /** One item of the SET list: `column = $param`, or `updated_at = CURRENT_TIMESTAMP`. */
  datatype SetClause = Assign(column: Column, param: int) | TouchUpdatedAt

  /** `UPDATE user_profiles SET <sets> WHERE user_id = $<whereParam>` with its parameter list. */
  datatype UpdateQuery = UpdateQuery(sets: seq<SetClause>, whereParam: int, values: seq<SqlValue>)

  /** The maintenance calories the handler recomputes: only when all five physical fields
      are given, and then from the patch's own values. */
  function RecomputedCalories(patch: ProfileRequest): (m: Option<int>)
    ensures m.Some? <==> PhysicalFieldsGiven(patch)
    ensures m.Some? ==> m.value == RequestTdee(patch)
  {
    if PhysicalFieldsGiven(patch) then Some(RequestTdee(patch)) else None
  }

  /** The value the handler binds for a column, if it sets that column at all
      (`field !== undefined`). */
  function PatchValue(patch: ProfileRequest, c: Column): Option<SqlValue> {
    match c
    case AgeCol => if patch.age.Some? then Some(Real(patch.age.value)) else None
    case GenderCol => if patch.gender.Some? then Some(Text(patch.gender.value)) else None
    case WeightCol => if patch.weightLbs.Some? then Some(Real(patch.weightLbs.value)) else None
    case HeightCol => if patch.heightInches.Some? then Some(Real(patch.heightInches.value)) else None
    case ActivityCol => if patch.activityLevel.Some? then Some(Text(patch.activityLevel.value)) else None
    case MaintenanceCol =>
      var m := RecomputedCalories(patch);
      if m.Some? then Some(Int(m.value)) else None
    case ProteinCol => if patch.proteinPercentage.Some? then Some(Real(patch.proteinPercentage.value)) else None
    case CarbsCol => if patch.carbsPercentage.Some? then Some(Real(patch.carbsPercentage.value)) else None
    case FatCol => if patch.fatPercentage.Some? then Some(Real(patch.fatPercentage.value)) else None
  }

  /** The (column, value) pairs the patch sets, in the order of `cols`. */
  function Written(patch: ProfileRequest, cols: seq<Column>): seq<(Column, SqlValue)> {
    if cols == [] then []
    else Entry(patch, cols[0]) + Written(patch, cols[1..])
  }

  /** `col = $first`, `col = $first+1`, ... for the given pairs. */
  function Numbered(pairs: seq<(Column, SqlValue)>, first: int): seq<SetClause> {
    if pairs == [] then [] else [Assign(pairs[0].0, first)] + Numbered(pairs[1..], first + 1)
  }

  function ValuesOf(pairs: seq<(Column, SqlValue)>): (vs: seq<SqlValue>)
    ensures |vs| == |pairs| && forall i :: 0 <= i < |pairs| ==> vs[i] == pairs[i].1
  {
    if pairs == [] then [] else [pairs[0].1] + ValuesOf(pairs[1..])
  }

  /** The statement the handler sends for a patch and a user. */
  function UpdateQueryFor(patch: ProfileRequest, userId: int): UpdateQuery {
    var pairs := Written(patch, ColumnOrder);
    UpdateQuery(Numbered(pairs, 1) + [TouchUpdatedAt], |pairs| + 1, ValuesOf(pairs) + [Int(userId)])
  }

  /** The handler's dynamic query builder: it recomputes the calories, then pushes one SET
      item and one value per defined field while counting placeholders, then the timestamp
      item and the user id for the WHERE clause. */
  method BuildUpdate(patch: ProfileRequest, userId: int) returns (q: UpdateQuery)
    ensures q == UpdateQueryFor(patch, userId)
  {
    var maintenanceCalories := RecomputedCalories(patch);
    var updates: seq<SetClause> := [];
    var values: seq<SqlValue> := [];
    var paramIndex := 1;
    ghost var pairs: seq<(Column, SqlValue)> := [];  // the entries of the columns considered so far
    assert InStep(pairs, updates, values, paramIndex);
    updates, values, paramIndex := PushIfDefined(pairs, updates, values, paramIndex, AgeCol, PatchValue(patch, AgeCol));
    pairs := pairs + Entry(patch, AgeCol);
    updates, values, paramIndex := PushIfDefined(pairs, updates, values, paramIndex, GenderCol, PatchValue(patch, GenderCol));
    pairs := pairs + Entry(patch, GenderCol);
    updates, values, paramIndex := PushIfDefined(pairs, updates, values, paramIndex, WeightCol, PatchValue(patch, WeightCol));
    pairs := pairs + Entry(patch, WeightCol);
    updates, values, paramIndex := PushIfDefined(pairs, updates, values, paramIndex, HeightCol, PatchValue(patch, HeightCol));
    pairs := pairs + Entry(patch, HeightCol);
    updates, values, paramIndex := PushIfDefined(pairs, updates, values, paramIndex, ActivityCol, PatchValue(patch, ActivityCol));
    pairs := pairs + Entry(patch, ActivityCol);
    updates, values, paramIndex := PushIfDefined(pairs, updates, values, paramIndex, MaintenanceCol, PatchValue(patch, MaintenanceCol));
    pairs := pairs + Entry(patch, MaintenanceCol);
    updates, values, paramIndex := PushIfDefined(pairs, updates, values, paramIndex, ProteinCol, PatchValue(patch, ProteinCol));
    pairs := pairs + Entry(patch, ProteinCol);
    updates, values, paramIndex := PushIfDefined(pairs, updates, values, paramIndex, CarbsCol, PatchValue(patch, CarbsCol));
    pairs := pairs + Entry(patch, CarbsCol);
    updates, values, paramIndex := PushIfDefined(pairs, updates, values, paramIndex, FatCol, PatchValue(patch, FatCol));
    pairs := pairs + Entry(patch, FatCol);
    WrittenInColumnOrder(patch);
    updates := updates + [TouchUpdatedAt];
    values := values + [Int(userId)];
    q := UpdateQuery(updates, paramIndex, values);
  }

  /** One `if (field !== undefined)` block of the builder: a defined value gets the next
      placeholder, its SET item and its slot in the value list; an undefined one changes
      nothing. Either way the builder stays in step with the pairs seen so far. */
  method PushIfDefined(ghost pairs: seq<(Column, SqlValue)>, updates: seq<SetClause>, values: seq<SqlValue>,
                       paramIndex: int, c: Column, v: Option<SqlValue>)
    returns (updates': seq<SetClause>, values': seq<SqlValue>, paramIndex': int)
    requires InStep(pairs, updates, values, paramIndex)
    ensures InStep(pairs + Present(c, v), updates', values', paramIndex')
    ensures v.Some? ==> updates'[|updates'| - 1] == Assign(c, paramIndex) && values'[|values'| - 1] == v.value
    ensures v.None? ==> updates' == updates && values' == values && paramIndex' == paramIndex
  {
    updates', values', paramIndex' := updates, values, paramIndex;
    if v.Some? {
      updates' := updates' + [Assign(c, paramIndex')];
      paramIndex' := paramIndex' + 1;
      values' := values' + [v.value];
      NumberedAppend(pairs, [(c, v.value)], 1);
      ValuesOfAppend(pairs, [(c, v.value)]);
    } else {
      assert pairs + [] == pairs;
    }
  }

  /** The builder's lists hold one numbered SET item and one value per pair, and the
      next placeholder follows the last. */
  ghost predicate InStep(pairs: seq<(Column, SqlValue)>, updates: seq<SetClause>, values: seq<SqlValue>, paramIndex: int) {
    updates == Numbered(pairs, 1) && values == ValuesOf(pairs) && paramIndex == |pairs| + 1
  }

  /** The pair a defined value contributes. */
  function Present(c: Column, v: Option<SqlValue>): seq<(Column, SqlValue)> {
    if v.Some? then [(c, v.value)] else []
  }

  /** The pair column `c` contributes, if the patch sets it. */
  function Entry(patch: ProfileRequest, c: Column): seq<(Column, SqlValue)> {
    Present(c, PatchValue(patch, c))
  }

  /** Written over the nine columns, spelled out column by column. */
  lemma WrittenInColumnOrder(patch: ProfileRequest)
    ensures Written(patch, ColumnOrder)
      == [] + Entry(patch, AgeCol) + Entry(patch, GenderCol) + Entry(patch, WeightCol) + Entry(patch, HeightCol)
         + Entry(patch, ActivityCol) + Entry(patch, MaintenanceCol) + Entry(patch, ProteinCol)
         + Entry(patch, CarbsCol) + Entry(patch, FatCol)
  {
    var cs := ColumnOrder;
    assert cs[..0] == [];
    WrittenExtended(patch, 0);
    WrittenExtended(patch, 1);
    WrittenExtended(patch, 2);
    WrittenExtended(patch, 3);
    WrittenExtended(patch, 4);
    WrittenExtended(patch, 5);
    WrittenExtended(patch, 6);
    WrittenExtended(patch, 7);
    WrittenExtended(patch, 8);
    assert cs[..9] == cs;
  }

  /** Considering one more column of the order adds that column's entry. */
  lemma WrittenExtended(patch: ProfileRequest, k: nat)
    requires k < |ColumnOrder|
    ensures Written(patch, ColumnOrder[..k + 1]) == Written(patch, ColumnOrder[..k]) + Entry(patch, ColumnOrder[k])
  {
    assert ColumnOrder[..k + 1] == ColumnOrder[..k] + [ColumnOrder[k]];
    WrittenAppend(patch, ColumnOrder[..k], [ColumnOrder[k]]);
    assert Written(patch, [ColumnOrder[k]]) == Entry(patch, ColumnOrder[k]) + [];
  }

  lemma {:induction false} ValuesOfAppend(a: seq<(Column, SqlValue)>, b: seq<(Column, SqlValue)>)
    ensures ValuesOf(a + b) == ValuesOf(a) + ValuesOf(b)
  {
    assert |ValuesOf(a + b)| == |ValuesOf(a) + ValuesOf(b)|;
    forall i | 0 <= i < |a| + |b| ensures ValuesOf(a + b)[i] == (ValuesOf(a) + ValuesOf(b))[i] {
      if i < |a| {
        assert (a + b)[i] == a[i];
      } else {
        assert (a + b)[i] == b[i - |a|];
      }
    }
  }

  lemma {:induction false} WrittenAppend(patch: ProfileRequest, a: seq<Column>, b: seq<Column>)
    ensures Written(patch, a + b) == Written(patch, a) + Written(patch, b)
  {
    if a == [] {
      assert a + b == b;
    } else {
      assert (a + b)[1..] == a[1..] + b;
      WrittenAppend(patch, a[1..], b);
    }
  }

  lemma {:induction false} NumberedAppend(a: seq<(Column, SqlValue)>, b: seq<(Column, SqlValue)>, first: int)
    ensures Numbered(a + b, first) == Numbered(a, first) + Numbered(b, first + |a|)
  {
    if a == [] {
      assert a + b == b;
    } else {
      assert (a + b)[1..] == a[1..] + b;
      NumberedAppend(a[1..], b, first + 1);
    }
  }

  lemma {:induction false} NumberedAt(pairs: seq<(Column, SqlValue)>, first: int, i: int)
    requires 0 <= i < |pairs|
    ensures |Numbered(pairs, first)| == |pairs|
    ensures Numbered(pairs, first)[i] == Assign(pairs[i].0, first + i)
  {
    if i > 0 {
      NumberedAt(pairs[1..], first + 1, i - 1);
    } else if |pairs| > 1 {
      NumberedAt(pairs[1..], first + 1, 0);
    }
  }

  /** The placeholders of the SET list run $1..$k without gaps, one value per placeholder,
      and the WHERE clause uses $(k+1), the last value, which is the user id. */
  lemma PlaceholdersInStep(patch: ProfileRequest, userId: int)
    ensures var q := UpdateQueryFor(patch, userId);
      && |q.sets| == |q.values| == q.whereParam
      && q.sets[|q.sets| - 1] == TouchUpdatedAt
      && q.values[q.whereParam - 1] == Int(userId)
      && forall i :: 0 <= i < |q.sets| - 1 ==> q.sets[i].Assign? && q.sets[i].param == i + 1
  {
    var pairs := Written(patch, ColumnOrder);
    var q := UpdateQueryFor(patch, userId);
    if pairs == [] {
      assert Numbered(pairs, 1) == [];
    } else {
      NumberedAt(pairs, 1, 0);
    }
    forall i | 0 <= i < |q.sets| - 1
      ensures q.sets[i].Assign? && q.sets[i].param == i + 1
    {
      NumberedAt(pairs, 1, i);
    }
  }

  // Execution of the statement on the user's row.

  /** Reads a column of a row as a parameter value. */
  function Get(row: UserProfile, c: Column): SqlValue {
    match c
    case AgeCol => Real(row.age)
    case GenderCol => Text(row.gender)
    case WeightCol => Real(row.weightLbs)
    case HeightCol => Real(row.heightInches)
    case ActivityCol => Text(row.activityLevel)
    case MaintenanceCol => Int(row.maintenanceCalories)
    case ProteinCol => Real(row.proteinPercentage)
    case CarbsCol => Real(row.carbsPercentage)
    case FatCol => Real(row.fatPercentage)
  }

  /** Writes a value into a column; a value of the wrong kind is an SQL error (None). */
  function SetColumn(row: UserProfile, c: Column, v: SqlValue): (r: Option<UserProfile>)
    ensures r.Some? <==> v.Real? == (c in {AgeCol, WeightCol, HeightCol, ProteinCol, CarbsCol, FatCol})
                         && v.Text? == (c in {GenderCol, ActivityCol}) && v.Int? == (c == MaintenanceCol)
    ensures r.Some? ==>
      && Get(r.value, c) == v
      && r.value.id == row.id && r.value.userId == row.userId && r.value.onboardingCompleted == row.onboardingCompleted
      && forall d :: d != c ==> Get(r.value, d) == Get(row, d)
  {
    match (c, v)
    case (AgeCol, Real(x)) => Some(row.(age := x))
    case (GenderCol, Text(s)) => Some(row.(gender := s))
    case (WeightCol, Real(x)) => Some(row.(weightLbs := x))
    case (HeightCol, Real(x)) => Some(row.(heightInches := x))
    case (ActivityCol, Text(s)) => Some(row.(activityLevel := s))
    case (MaintenanceCol, Int(n)) => Some(row.(maintenanceCalories := n))
    case (ProteinCol, Real(x)) => Some(row.(proteinPercentage := x))
    case (CarbsCol, Real(x)) => Some(row.(carbsPercentage := x))
    case (FatCol, Real(x)) => Some(row.(fatPercentage := x))
    case _ => None
  }

  /** Performs the SET list left to right; a placeholder without a value is an SQL error. */
  function ApplySets(row: UserProfile, sets: seq<SetClause>, values: seq<SqlValue>): Option<UserProfile>
    decreases |sets|
  {
    if sets == [] then Some(row)
    else match sets[0]
      case TouchUpdatedAt => ApplySets(row, sets[1..], values)
      case Assign(c, p) =>
        if 1 <= p <= |values| then
          match SetColumn(row, c, values[p - 1])
          case None => None
          case Some(row') => ApplySets(row', sets[1..], values)
        else None
  }

  /** The statement on one row: None when the WHERE clause does not select it or the SET
      list fails, otherwise the updated row. */
  function ExecuteOn(row: UserProfile, q: UpdateQuery): Option<UserProfile> {
    if 1 <= q.whereParam <= |q.values| && q.values[q.whereParam - 1] == Int(row.userId)
    then ApplySets(row, q.sets, q.values)
    else None
  }

  /** What a patch means: each column whose field is given takes that value, the
      maintenance calories are replaced only when recomputed, and nothing else changes. */
  function ApplyPatch(row: UserProfile, patch: ProfileRequest): (r: UserProfile)
    ensures r.id == row.id && r.userId == row.userId && r.onboardingCompleted == row.onboardingCompleted
    ensures forall c :: Get(r, c) == if PatchValue(patch, c).Some? then PatchValue(patch, c).value else Get(row, c)
  {
    row.(
      age := patch.age.GetOr(row.age),
      gender := patch.gender.GetOr(row.gender),
      weightLbs := patch.weightLbs.GetOr(row.weightLbs),
      heightInches := patch.heightInches.GetOr(row.heightInches),
      activityLevel := patch.activityLevel.GetOr(row.activityLevel),
      maintenanceCalories := RecomputedCalories(patch).GetOr(row.maintenanceCalories),
      proteinPercentage := patch.proteinPercentage.GetOr(row.proteinPercentage),
      carbsPercentage := patch.carbsPercentage.GetOr(row.carbsPercentage),
      fatPercentage := patch.fatPercentage.GetOr(row.fatPercentage))
  }

  /** Two rows agreeing on every column and on id, user id and the onboarding flag are equal. */
  lemma RowsEqualByColumns(a: UserProfile, b: UserProfile)
    requires a.id == b.id && a.userId == b.userId && a.onboardingCompleted == b.onboardingCompleted
    requires forall c :: Get(a, c) == Get(b, c)
    ensures a == b
  {
    assert Get(a, AgeCol) == Get(b, AgeCol) && Get(a, GenderCol) == Get(b, GenderCol);
    assert Get(a, WeightCol) == Get(b, WeightCol) && Get(a, HeightCol) == Get(b, HeightCol);
    assert Get(a, ActivityCol) == Get(b, ActivityCol) && Get(a, MaintenanceCol) == Get(b, MaintenanceCol);
    assert Get(a, ProteinCol) == Get(b, ProteinCol) && Get(a, CarbsCol) == Get(b, CarbsCol);
    assert Get(a, FatCol) == Get(b, FatCol);
  }

  /** Setting the pairs a patch writes for `cols`, with their values bound from position
      `offset` on, succeeds and sets exactly those columns. */
  lemma {:induction false} WrittenPairsApply(row: UserProfile, patch: ProfileRequest, cols: seq<Column>,
                                             values: seq<SqlValue>, offset: nat)
    requires var pairs := Written(patch, cols);
      offset + |pairs| <= |values| && forall i :: 0 <= i < |pairs| ==> values[offset + i] == pairs[i].1
    ensures var r := ApplySets(row, Numbered(Written(patch, cols), offset + 1), values);
      && r.Some?
      && r.value.id == row.id && r.value.userId == row.userId && r.value.onboardingCompleted == row.onboardingCompleted
      && forall c :: Get(r.value, c) == if c in cols && PatchValue(patch, c).Some? then PatchValue(patch, c).value else Get(row, c)
    decreases |cols|
  {
    if cols != [] {
      var c0, v := cols[0], PatchValue(patch, cols[0]);
      var rest := Written(patch, cols[1..]);
      if v.Some? {
        var pairs := [(c0, v.value)] + rest;
        assert Written(patch, cols) == pairs;
        assert values[offset] == pairs[0].1;
        assert Numbered(pairs, offset + 1) == [Assign(c0, offset + 1)] + Numbered(rest, offset + 2);
        var row' := SetColumn(row, c0, v.value).value;
        forall i | 0 <= i < |rest| ensures values[offset + 1 + i] == rest[i].1 {
          assert pairs[i + 1] == rest[i];
        }
        WrittenPairsApply(row', patch, cols[1..], values, offset + 1);
        assert Numbered(rest, offset + 2)[..] == Numbered(pairs, offset + 1)[1..];
      } else {
        assert Entry(patch, c0) == [];
        assert Written(patch, cols) == rest;
        WrittenPairsApply(row, patch, cols[1..], values, offset);
        forall c ensures c in cols <==> c == c0 || c in cols[1..] {
          assert cols == [c0] + cols[1..];
        }
      }
    }
  }

  /** A trailing `updated_at = CURRENT_TIMESTAMP` leaves the modelled columns alone. */
  lemma {:induction false} ApplySetsTouchLast(row: UserProfile, sets: seq<SetClause>, values: seq<SqlValue>)
    ensures ApplySets(row, sets + [TouchUpdatedAt], values) == ApplySets(row, sets, values)
    decreases |sets|
  {
    if sets == [] {
      assert (sets + [TouchUpdatedAt])[1..] == [];
    } else {
      assert (sets + [TouchUpdatedAt])[1..] == sets[1..] + [TouchUpdatedAt];
      match sets[0]
      case TouchUpdatedAt =>
        ApplySetsTouchLast(row, sets[1..], values);
      case Assign(c, p) =>
        if 1 <= p <= |values| && SetColumn(row, c, values[p - 1]).Some? {
          ApplySetsTouchLast(SetColumn(row, c, values[p - 1]).value, sets[1..], values);
        }
    }
  }

  /** The statement the handler builds, run on the caller's row, performs exactly the patch. */
  lemma UpdatePerformsPatch(row: UserProfile, patch: ProfileRequest)
    ensures ExecuteOn(row, UpdateQueryFor(patch, row.userId)) == Some(ApplyPatch(row, patch))
  {
    var q := UpdateQueryFor(patch, row.userId);
    var pairs := Written(patch, ColumnOrder);
    PlaceholdersInStep(patch, row.userId);
    ApplySetsTouchLast(row, Numbered(pairs, 1), q.values);
    WrittenPairsApply(row, patch, ColumnOrder, q.values, 0);
    var r := ApplySets(row, Numbered(pairs, 1), q.values).value;
    RowsEqualByColumns(r, ApplyPatch(row, patch));
  }

  /** The maintenance calories change only when all five physical fields are given. */
  lemma MaintenanceNeedsAllFive(row: UserProfile, patch: ProfileRequest)
    requires !PhysicalFieldsGiven(patch)
    ensures ApplyPatch(row, patch).maintenanceCalories == row.maintenanceCalories
  {
  }

  /** Changing only the weight leaves the stored calories computed from the old weight. */
  lemma WeightOnlyPatchLeavesCaloriesStale()
    ensures var row := UserProfile(1, 1, 25.0, "male", 180.0, 70.0, "moderate", 2802, 30.0, 40.0, 30.0, true);
      var patch := ProfileRequest(None, None, Some(200.0), None, None, None, None, None);
      var after := ApplyPatch(row, patch);
      && row.maintenanceCalories == Tdee(row.gender, row.weightLbs, row.heightInches, row.age, row.activityLevel)
      && after.weightLbs == 200.0
      && after.maintenanceCalories != Tdee(after.gender, after.weightLbs, after.heightInches, after.age, after.activityLevel)
  {
    BmrIncreasesWithWeight("male", 180.0, 200.0, 70.0, 25.0);
  }

  /** PUT does not check the split: a patch of 50/50/50 is stored as given. */
  lemma UpdateAcceptsAnySplit(row: UserProfile)
    ensures var patch := ProfileRequest(None, None, None, None, None, Some(50.0), Some(50.0), Some(50.0));
      var after := ApplyPatch(row, patch);
      after.proteinPercentage + after.carbsPercentage + after.fatPercentage == 150.0
  {
  }

  // ---------------------------------------------------------------------------------------
  // The user_profiles table

  /** The user_profiles table, one row per user id. */
  class ProfileTable {
    var rows: map<int, UserProfile>

    ghost predicate Valid()
      reads this
    {
      forall u :: u in rows ==> rows[u].userId == u
    }

    constructor (initial: map<int, UserProfile>)
      requires forall u :: u in initial ==> initial[u].userId == u
      ensures Valid() && rows == initial
    {
      rows := initial;
    }

    /** POST /onboarding for `userId`. A missing row makes the handler read a field of
        `undefined`, which it reports as a 500. */
    method CompleteOnboarding(userId: int, req: ProfileRequest) returns (r: Result<UserProfile, ApiError>)
      requires Valid()
      modifies this
      ensures Valid()
      ensures userId in old(rows) ==> r == Onboard(old(rows)[userId], req)
      ensures userId !in old(rows) ==>
        r == (if Onboard(UserProfile(0, userId, 0.0, "", 0.0, 0.0, "", 0, 0.0, 0.0, 0.0, false), req).Ok?
              then Err(InternalError) else Onboard(UserProfile(0, userId, 0.0, "", 0.0, 0.0, "", 0, 0.0, 0.0, 0.0, false), req))
      ensures rows == if r.Ok? then old(rows)[userId := r.value] else old(rows)
    {
      var probe := if userId in rows then rows[userId] else UserProfile(0, userId, 0.0, "", 0.0, 0.0, "", 0, 0.0, 0.0, 0.0, false);
      var outcome := Onboard(probe, req);
      if outcome.Err? {
        r := outcome;
      } else if userId !in rows {
        r := Err(InternalError);
      } else {
        rows := rows[userId := outcome.value];
        r := outcome;
      }
    }

    /** PUT / for `userId`: builds the statement and runs it on the caller's row. */
    method UpdateProfile(userId: int, patch: ProfileRequest) returns (r: Result<UserProfile, ApiError>)
      requires Valid()
      modifies this
      ensures Valid()
      ensures userId in old(rows) ==> r == Ok(ApplyPatch(old(rows)[userId], patch))
      ensures userId !in old(rows) ==> r == Err(InternalError)
      ensures rows == if r.Ok? then old(rows)[userId := r.value] else old(rows)
    {
      var q := BuildUpdate(patch, userId);
      if userId !in rows {
        r := Err(InternalError);
        return;
      }
      UpdatePerformsPatch(rows[userId], patch);
      var updated := ExecuteOn(rows[userId], q);
      rows := rows[userId := updated.value];
      r := Ok(updated.value);
    }
  }
}
