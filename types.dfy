/** The records of src/types/index.ts. Numbers are exact reals, calendar dates
    are day numbers, clock times are minutes after midnight, and the string
    unions are closed enumerations. */
module Types {
  import opened Wrappers

  type Day = int

  datatype Gender = Male | Female | Other

  datatype ActivityLevel = Sedentary | Light | Moderate | Active | VeryActive

  datatype Goal = Lose | Maintain | Gain

  datatype MealType = Breakfast | Lunch | Dinner | Snack

  datatype ExerciseType = Cardio | Strength | Yoga | Sports | OtherExercise

  const Genders: seq<Gender> := [Male, Female, Other]
  const ActivityLevels: seq<ActivityLevel> := [Sedentary, Light, Moderate, Active, VeryActive]
  const Goals: seq<Goal> := [Lose, Maintain, Gain]
  const MealTypes: seq<MealType> := [Breakfast, Lunch, Dinner, Snack]
  const ExerciseTypes: seq<ExerciseType> := [Cardio, Strength, Yoga, Sports, OtherExercise]

  /** The string each exercise type is stored as. */
  function ExerciseTypeName(t: ExerciseType): string {
    match t
    case Cardio => "cardio"
    case Strength => "strength"
    case Yoga => "yoga"
    case Sports => "sports"
    case OtherExercise => "other"
  }

  datatype User = User(
    id: string,
    email: string,
    name: string,
    age: real,
    gender: Gender,
    height: real,          // cm
    currentWeight: real,   // kg
    goalWeight: real,      // kg
    activityLevel: ActivityLevel,
    goal: Goal,
    dailyCalorieGoal: real,
    dailyProteinGoal: real,
    dailyCarbsGoal: real,
    dailyFatGoal: real,
    dailyWaterGoal: real,
    createdAt: string)

  /** A consumption event. The five main nutrients are required, the four fat
      subtypes and seven other nutrients optional. */
  datatype FoodLog = FoodLog(
    id: string,
    userId: string,
    foodId: string,
    foodName: string,
    mealType: MealType,
    servings: real,
    calories: real,
    protein: real,
    carbs: real,
    fat: real,
    fiber: real,
    saturatedFat: Option<real>,
    polyunsaturatedFat: Option<real>,
    monounsaturatedFat: Option<real>,
    transFat: Option<real>,
    cholesterol: Option<real>,
    sodium: Option<real>,
    potassium: Option<real>,
    vitaminA: Option<real>,
    vitaminC: Option<real>,
    calcium: Option<real>,
    iron: Option<real>,
    date: Day,
    time: int)

  datatype WaterLog = WaterLog(id: string, userId: string, amount: real, date: Day, time: int)

  /** `date` is the full timestamp the log was taken at. */
  datatype WeightLog = WeightLog(id: string, userId: string, weight: real, date: int, note: Option<string>)

  datatype ExerciseLog = ExerciseLog(
    id: string,
    userId: string,
    exerciseName: string,
    duration: real,
    caloriesBurned: real,
    date: Day,
    time: int,
    exerciseType: ExerciseType)

  datatype MealTotals = MealTotals(breakfast: real, lunch: real, dinner: real, snack: real)

  /** Every numeric field is required, the four meal totals included. */
  datatype DailySummary = DailySummary(
    date: Day,
    caloriesConsumed: real,
    caloriesBurned: real,
    netCalories: real,
    protein: real,
    carbs: real,
    fat: real,
    fiber: real,
    saturatedFat: real,
    polyunsaturatedFat: real,
    monounsaturatedFat: real,
    transFat: real,
    cholesterol: real,
    sodium: real,
    potassium: real,
    vitaminA: real,
    vitaminC: real,
    calcium: real,
    iron: real,
    water: real,
    meals: MealTotals)

  // ---------------------------------------------------------------------------
  // Number defaults and the field readers the folds use

  /** `x || 0` on a number that may be missing or NaN: both count as 0. */
  function OrZero(o: Option<real>): real {
    o.GetOr(0.0)
  }

  /** `x || 1`: a missing value, NaN and 0 all become 1, so the result is never 0. */
  function OrOne(o: Option<real>): (r: real)
    ensures r != 0.0
    ensures o.Some? && o.value != 0.0 ==> r == o.value
    ensures o.None? || o.value == 0.0 ==> r == 1.0
  {
    if o.Some? && o.value != 0.0 then o.value else 1.0
  }

  function FoodCalories(l: FoodLog): real { l.calories }
  function FoodProtein(l: FoodLog): real { l.protein }
  function FoodCarbs(l: FoodLog): real { l.carbs }
  function FoodFat(l: FoodLog): real { l.fat }
  function FoodFiber(l: FoodLog): real { l.fiber }
  function FoodSaturatedFat(l: FoodLog): real { OrZero(l.saturatedFat) }
  function FoodPolyunsaturatedFat(l: FoodLog): real { OrZero(l.polyunsaturatedFat) }
  function FoodMonounsaturatedFat(l: FoodLog): real { OrZero(l.monounsaturatedFat) }
  function FoodTransFat(l: FoodLog): real { OrZero(l.transFat) }
  function FoodCholesterol(l: FoodLog): real { OrZero(l.cholesterol) }
  function FoodSodium(l: FoodLog): real { OrZero(l.sodium) }
  function FoodPotassium(l: FoodLog): real { OrZero(l.potassium) }
  function FoodVitaminA(l: FoodLog): real { OrZero(l.vitaminA) }
  function FoodVitaminC(l: FoodLog): real { OrZero(l.vitaminC) }
  function FoodCalcium(l: FoodLog): real { OrZero(l.calcium) }
  function FoodIron(l: FoodLog): real { OrZero(l.iron) }
  function WaterAmount(l: WaterLog): real { l.amount }
  function ExerciseBurned(l: ExerciseLog): real { l.caloriesBurned }

  /** Each string union is closed: the listed values are all there are. */
  lemma EnumsClosed(g: Gender, a: ActivityLevel, o: Goal, m: MealType, e: ExerciseType)
    ensures g in Genders && |Genders| == 3
    ensures a in ActivityLevels && |ActivityLevels| == 5
    ensures o in Goals && |Goals| == 3
    ensures m in MealTypes && |MealTypes| == 4
    ensures e in ExerciseTypes && |ExerciseTypes| == 5
  {
  }

  /** Distinct exercise types are stored under distinct names. */
  lemma ExerciseTypeNamesDistinct(s: ExerciseType, t: ExerciseType)
    ensures ExerciseTypeName(s) == ExerciseTypeName(t) ==> s == t
  {
  }
}
