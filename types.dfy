/** The shared records of the application: foods, meals, profiles and error responses. */
module Types {
  import opened Wrappers

  /** A food as the client sees it. `id` is the USDA food id, `recordId` the meal_foods row id;
      an absent nutrient means "unknown", which the client shows differently from 0. */
  datatype FoodItem = FoodItem(
    id: int,
    recordId: Option<int>,
    name: string,
    calories: Option<real>,
    protein: Option<real>,
    carbs: Option<real>,
    fat: Option<real>)

  /** A meal with its foods. */
  datatype Meal = Meal(id: int, name: string, foods: seq<FoodItem>)

  /** The genders the onboarding form offers. */
  datatype Gender = Male | Female | Other {
    /** The string the form sends for this choice. */
    function Name(): string {
      match this
      case Male => "male"
      case Female => "female"
      case Other => "other"
    }
  }

  /** The activity levels the onboarding form offers, from least to most active. */
  datatype ActivityLevel = Sedentary | Light | Moderate | Active | VeryActive {
    /** The string the form sends for this choice. */
    function Name(): string {
      match this
      case Sedentary => "sedentary"
      case Light => "light"
      case Moderate => "moderate"
      case Active => "active"
      case VeryActive => "very_active"
    }
  }

  /** A row of user_profiles as the API returns it. The server stores whatever strings it
      is sent for gender and activity level, so both are strings here. */
  datatype UserProfile = UserProfile(
    id: int,
    userId: int,
    age: real,
    gender: string,
    weightLbs: real,
    heightInches: real,
    activityLevel: string,
    maintenanceCalories: int,
    proteinPercentage: real,
    carbsPercentage: real,
    fatPercentage: real,
    onboardingCompleted: bool)

  /** The error responses of the request handlers, by HTTP status. */
  datatype ApiError =
    | BadRequest(message: string)   // 400
    | NotFound(message: string)     // 404
    | InternalError                 // 500
    | BadGateway                    // 502
}
