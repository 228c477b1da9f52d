/** The onboarding page: a two-step form. Step 1 collects the body and activity answers and
    previews the maintenance calories; step 2 sets the macro split and submits everything to
    POST /api/profile/onboarding. Form text fields are modelled as already parsed: None is
    the empty string, Some(x) the number typed in. */
module OnboardingPage {
  import opened Wrappers
  import opened JsMath
  import opened Types
  import opened Macros
  import Energy
  import ProfileRoutes

  const FillInAllFields: string := "Please fill in all fields"
  const SplitMustBeHundred: string := "Macro percentages must add up to 100%"

  /** The form's contents. */
  datatype Form = Form(
    age: Option<int>,
    gender: Gender,
    weightLbs: Option<real>,
    heightInches: Option<real>,
    activityLevel: ActivityLevel,
    proteinPercentage: real,
    carbsPercentage: real,
    fatPercentage: real)
  {
    /** The slider value of one macro. */
    function Percentage(m: Macro): real {
      match m
      case Protein => proteinPercentage
      case Carbs => carbsPercentage
      case Fat => fatPercentage
    }

    /** `{ ...prev, [macro]: value }` for a macro field. */
    function WithPercentage(m: Macro, value: real): (f: Form)
      ensures f.Percentage(m) == value
      ensures forall n :: n != m ==> f.Percentage(n) == Percentage(n)
      ensures f.age == age && f.gender == gender && f.weightLbs == weightLbs
              && f.heightInches == heightInches && f.activityLevel == activityLevel
    {
      match m
      case Protein => this.(proteinPercentage := value)
      case Carbs => this.(carbsPercentage := value)
      case Fat => this.(fatPercentage := value)
    }

    /** `!age || !weightLbs || !heightInches` is false: the three text fields are non-empty. */
    predicate Filled() {
      age.Some? && weightLbs.Some? && heightInches.Some?
    }

    /** The preview of a filled form. */
    function PreviewCalories(): int
      requires Filled()
    {
      PreviewTdee(age.value, gender, weightLbs.value, heightInches.value, activityLevel)
    }

    /** The sum `handleFinalSubmit` checks. */
    function Total(): real {
      proteinPercentage + carbsPercentage + fatPercentage
    }
  }

  /** One edit of a step-1 input: the field it names and the value it now holds. */
  datatype Input =
    | AgeInput(age: Option<int>)
    | GenderInput(gender: Gender)
    | WeightInput(weightLbs: Option<real>)
    | HeightInput(heightInches: Option<real>)
    | ActivityInput(activityLevel: ActivityLevel)

  /** `Math.max(0, Math.min(100, value))`. */
  function Clamp(value: real): (r: real)
    ensures 0.0 <= r <= 100.0
    ensures 0.0 <= value <= 100.0 ==> r == value
    ensures value < 0.0 ==> r == 0.0
    ensures 100.0 < value ==> r == 100.0
  {
    Max(0.0, Min(100.0, value))
  }

  /** The page's preview of the maintenance calories, written out as the page does: a
      branch per gender and a table of the five multipliers. */
  function PreviewTdee(age: int, gender: Gender, weightLbs: real, heightInches: real, level: ActivityLevel): (t: int)
    ensures var e := Energy.Bmr(gender.Name(), weightLbs, heightInches, age as real) * Energy.Multiplier(level.Name());
      t as real - 0.5 <= e < t as real + 0.5
  {
    var weightKg := weightLbs * 0.453592;
    var heightCm := heightInches * 2.54;
    var bmr :=
      match gender
      case Male => 10.0 * weightKg + 6.25 * heightCm - 5.0 * age as real + 5.0
      case Female => 10.0 * weightKg + 6.25 * heightCm - 5.0 * age as real - 161.0
      case Other => 10.0 * weightKg + 6.25 * heightCm - 5.0 * age as real - 78.0;
    var multiplier :=
      match level
      case Sedentary => 1.2
      case Light => 1.375
      case Moderate => 1.55
      case Active => 1.725
      case VeryActive => 1.9;
    Round(bmr * multiplier)
  }

  /** For every gender and activity level the form offers, the preview is the server's
      `calculateTDEE` on the strings the form sends. */
  lemma PreviewMatchesServer(age: int, gender: Gender, weightLbs: real, heightInches: real, level: ActivityLevel)
    ensures PreviewTdee(age, gender, weightLbs, heightInches, level)
            == Energy.Tdee(gender.Name(), weightLbs, heightInches, age as real, level.Name())
  {
    var bmr := Energy.Bmr(gender.Name(), weightLbs, heightInches, age as real);
    assert bmr == 10.0 * (weightLbs * 0.453592) + 6.25 * (heightInches * 2.54) - 5.0 * age as real
                  + Energy.GenderOffset(gender.Name());
  }

  /** The request body `handleFinalSubmit` sends. An empty age or measurement parses to NaN,
      which JSON sends as null: the field arrives missing. */
  function RequestOf(form: Form): (req: ProfileRoutes.ProfileRequest)
    ensures req.gender == Some(form.gender.Name()) && req.activityLevel == Some(form.activityLevel.Name())
    ensures req.age.Some? <==> form.age.Some?
    ensures form.age.Some? ==> req.age == Some(form.age.value as real)
    ensures req.weightLbs == form.weightLbs && req.heightInches == form.heightInches
    ensures req.proteinPercentage == Some(form.proteinPercentage)
            && req.carbsPercentage == Some(form.carbsPercentage) && req.fatPercentage == Some(form.fatPercentage)
  {
    ProfileRoutes.ProfileRequest(
      if form.age.Some? then Some(form.age.value as real) else None,
      Some(form.gender.Name()), form.weightLbs, form.heightInches, Some(form.activityLevel.Name()),
      Some(form.proteinPercentage), Some(form.carbsPercentage), Some(form.fatPercentage))
  }

  /** A request the page lets through never fails the server's split check: both sides
      test the same sum against 100. */
  lemma SubmittedSplitPassesServer(form: Form)
    requires form.Total() == 100.0
    ensures ProfileRoutes.MacrosSumToHundred(RequestOf(form))
  {
  }

  /** When the server accepts the page's answers, it stores exactly the maintenance calories
      the page previewed, and the profile summary then shows the grams the page previewed. */
  lemma StoredCaloriesMatchPreview(row: UserProfile, form: Form)
    requires form.Filled()
    requires ProfileRoutes.Onboard(row, RequestOf(form)).Ok?
    ensures var stored := ProfileRoutes.Onboard(row, RequestOf(form)).value;
      var m := form.PreviewCalories();
      && stored.maintenanceCalories == m
      && GramsFor(stored.maintenanceCalories as real, stored.proteinPercentage, stored.carbsPercentage, stored.fatPercentage)
         == GramsFor(m as real, form.proteinPercentage, form.carbsPercentage, form.fatPercentage)
  {
    PreviewMatchesServer(form.age.value, form.gender, form.weightLbs.value, form.heightInches.value, form.activityLevel);
  }

  /** An age of 0 fills the page's field ("0" is not empty) but the server refuses it as
      missing. */
  lemma ZeroAgePassesPageButNotServer(row: UserProfile)
    ensures var form := Form(Some(0), Male, Some(180.0), Some(70.0), Moderate, 30.0, 40.0, 30.0);
      && form.Filled() && form.Total() == 100.0
      && ProfileRoutes.Onboard(row, RequestOf(form)) == Err(BadRequest(ProfileRoutes.FieldsRequired))
  {
  }

  /** The page component's state. */
  class Page {
    var step: int
    var form: Form
    var maintenanceCalories: int
    var error: string
    var loading: bool

    /** The page shows one of its two steps, and step 2 is only reached with the three text
        fields filled. */
    predicate Valid()
      reads this
    {
      (step == 1 || step == 2) && (step == 2 ==> form.Filled())
    }

    /** The initial state: step 1, empty text fields, male, moderate, a 30/40/30 split. */
    constructor ()
      ensures Valid()
      ensures step == 1 && maintenanceCalories == 0 && error == "" && !loading
      ensures form == Form(None, Male, None, None, Moderate, 30.0, 40.0, 30.0)
    {
      step := 1;
      form := Form(None, Male, None, None, Moderate, 30.0, 40.0, 30.0);
      maintenanceCalories := 0;
      error := "";
      loading := false;
    }

    /** `handleInputChange`: the named field takes the new value; nothing else changes. */
    method HandleInputChange(input: Input)
      requires Valid() && step == 1
      modifies this
      ensures Valid()
      ensures match input
        case AgeInput(a) => form == old(form).(age := a)
        case GenderInput(g) => form == old(form).(gender := g)
        case WeightInput(w) => form == old(form).(weightLbs := w)
        case HeightInput(h) => form == old(form).(heightInches := h)
        case ActivityInput(l) => form == old(form).(activityLevel := l)
      ensures step == old(step) && maintenanceCalories == old(maintenanceCalories)
              && error == old(error) && loading == old(loading)
    {
      match input
      case AgeInput(a) => form := form.(age := a);
      case GenderInput(g) => form := form.(gender := g);
      case WeightInput(w) => form := form.(weightLbs := w);
      case HeightInput(h) => form := form.(heightInches := h);
      case ActivityInput(l) => form := form.(activityLevel := l);
    }

    /** `handleMacroChange`: the slider's macro takes the value clamped to [0, 100]; the
        other macros and the rest of the state are untouched. */
    method HandleMacroChange(m: Macro, value: real)
      requires Valid() && step == 2
      modifies this
      ensures Valid()
      ensures form.Percentage(m) == Clamp(value)
      ensures forall n :: n != m ==> form.Percentage(n) == old(form.Percentage(n))
      ensures form == old(form).WithPercentage(m, Clamp(value))
      ensures step == old(step) && maintenanceCalories == old(maintenanceCalories)
              && error == old(error) && loading == old(loading)
    {
      var newValue := Max(0.0, Min(100.0, value));
      form := form.WithPercentage(m, newValue);
    }

    /** `calculatePreview`: with a text field empty it does nothing; otherwise it stores the
        previewed maintenance calories. */
    method CalculatePreview()
      modifies this
      ensures form == old(form) && step == old(step) && error == old(error) && loading == old(loading)
      ensures !form.Filled() ==> maintenanceCalories == old(maintenanceCalories)
      ensures form.Filled() ==> maintenanceCalories == form.PreviewCalories()
    {
      if form.age.None? || form.weightLbs.None? || form.heightInches.None? {
        return;
      }
      maintenanceCalories := form.PreviewCalories();
    }

    /** `handleStep1Submit`: with a text field empty it shows an error and stays put;
        otherwise it previews the calories, clears the error and moves to step 2. */
    method HandleStep1Submit()
      requires Valid() && step == 1
      modifies this
      ensures Valid()
      ensures form == old(form) && loading == old(loading)
      ensures !form.Filled() ==>
        error == FillInAllFields && step == old(step) && maintenanceCalories == old(maintenanceCalories)
      ensures form.Filled() ==> error == "" && step == 2 && maintenanceCalories == form.PreviewCalories()
    {
      if form.age.None? || form.weightLbs.None? || form.heightInches.None? {
        error := FillInAllFields;
        return;
      }
      CalculatePreview();
      error := "";
      step := 2;
    }

    /** The synchronous part of `handleFinalSubmit`: a split that does not total 100 shows an
        error and sends nothing; otherwise the page starts loading, clears the error and
        sends the form as the request body. */
    method HandleFinalSubmit() returns (sent: Option<ProfileRoutes.ProfileRequest>)
      requires Valid() && step == 2 && !loading
      modifies this
      ensures Valid()
      ensures sent.Some? ==>
        sent.value.age.Some? && sent.value.weightLbs.Some? && sent.value.heightInches.Some?
      ensures sent.Some? <==> old(form.Total()) == 100.0
      ensures sent.None? ==> error == SplitMustBeHundred && loading == old(loading)
      ensures sent.Some? ==> sent.value == RequestOf(form) && error == "" && loading
      ensures form == old(form) && step == old(step) && maintenanceCalories == old(maintenanceCalories)
    {
      var total := form.proteinPercentage + form.carbsPercentage + form.fatPercentage;
      if total != 100.0 {
        error := SplitMustBeHundred;
        return None;
      }
      loading := true;
      error := "";
      sent := Some(RequestOf(form));
    }

    /** The Back button of step 2: returns to step 1, keeping everything entered. */
    method HandleBack()
      requires Valid() && step == 2
      modifies this
      ensures Valid()
      ensures step == 1
      ensures form == old(form) && maintenanceCalories == old(maintenanceCalories)
              && error == old(error) && loading == old(loading)
    {
      step := 1;
    }

    /** `macroGrams`: the gram targets shown under the sliders, from the previewed calories. */
    function PreviewGrams(): (g: MacroGrams)
      reads this
      ensures var p := form.Percentage(Protein);
        g.protein as real * 4.0 - 2.0 <= maintenanceCalories as real * p / 100.0 < g.protein as real * 4.0 + 2.0
      ensures var c := form.Percentage(Carbs);
        g.carbs as real * 4.0 - 2.0 <= maintenanceCalories as real * c / 100.0 < g.carbs as real * 4.0 + 2.0
      ensures var f := form.Percentage(Fat);
        g.fat as real * 9.0 - 4.5 <= maintenanceCalories as real * f / 100.0 < g.fat as real * 9.0 + 4.5
      ensures form.proteinPercentage == form.carbsPercentage ==> g.protein == g.carbs
    {
      GramsFor(maintenanceCalories as real, form.proteinPercentage, form.carbsPercentage, form.fatPercentage)
    }
  }

  /** Moving a slider to 130 stores 100, and to -5 stores 0, leaving the other sliders. */
  method SliderClampExample() returns (page: Page)
    ensures page.form.proteinPercentage == 100.0 && page.form.fatPercentage == 0.0
    ensures page.form.carbsPercentage == 40.0
  {
    page := new Page();
    page.HandleInputChange(AgeInput(Some(25)));
    page.HandleInputChange(WeightInput(Some(180.0)));
    page.HandleInputChange(HeightInput(Some(70.0)));
    page.HandleStep1Submit();
    page.HandleMacroChange(Protein, 130.0);
    page.HandleMacroChange(Fat, -5.0);
  }

  /** Submitting step 1 of a fresh page is refused. Once the three text fields are filled
      the page moves to step 2 with the preview of a 25-year-old, 180 lb, 70 in, moderately
      active man, and the default 30/40/30 split is sent with those answers. */
  method FreshPageExample() returns (page: Page, sent: Option<ProfileRoutes.ProfileRequest>)
    ensures page.step == 2 && page.maintenanceCalories == 2802 && page.loading
    ensures sent == Some(ProfileRoutes.ProfileRequest(Some(25.0), Some("male"), Some(180.0), Some(70.0),
                                                      Some("moderate"), Some(30.0), Some(40.0), Some(30.0)))
  {
    page := new Page();
    page.HandleStep1Submit();
    assert page.step == 1 && page.error == FillInAllFields;
    page.HandleInputChange(AgeInput(Some(25)));
    page.HandleInputChange(WeightInput(Some(180.0)));
    page.HandleInputChange(HeightInput(Some(70.0)));
    PreviewMatchesServer(25, Male, 180.0, 70.0, Moderate);
    Energy.ModerateMaleExample();
    page.HandleStep1Submit();
    sent := page.HandleFinalSubmit();
  }
}
