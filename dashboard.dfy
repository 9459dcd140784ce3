/** src/components/Dashboard.tsx: the day's summary folded from the day's
    food, water and exercise logs, and the two figures derived from it. The
    three lists are what the storage getters return for the user and today. */
module Dashboard {
  import opened Wrappers
  import opened Types
  import opened Folds

  /** The accumulator of the nutrient `reduce`: twelve running totals. */
  datatype Nutrients = Nutrients(
    protein: real, carbs: real, fat: real, fiber: real, saturatedFat: real,
    cholesterol: real, sodium: real, potassium: real, vitaminA: real,
    vitaminC: real, calcium: real, iron: real)

  const NoNutrients := Nutrients(0.0, 0.0, 0.0, 0.0, 0.0, 0.0, 0.0, 0.0, 0.0, 0.0, 0.0, 0.0)

  /** One step of the fold: each total grows by the log's value, a missing
      optional nutrient counting as 0. */
  function AddNutrients(acc: Nutrients, l: FoodLog): Nutrients {
    Nutrients(
      acc.protein + FoodProtein(l), acc.carbs + FoodCarbs(l), acc.fat + FoodFat(l),
      acc.fiber + FoodFiber(l), acc.saturatedFat + FoodSaturatedFat(l),
      acc.cholesterol + FoodCholesterol(l), acc.sodium + FoodSodium(l),
      acc.potassium + FoodPotassium(l), acc.vitaminA + FoodVitaminA(l),
      acc.vitaminC + FoodVitaminC(l), acc.calcium + FoodCalcium(l), acc.iron + FoodIron(l))
  }

  /** `foodLogs.reduce(AddNutrients, zeros)`. */
  function NutrientFold(logs: seq<FoodLog>): Nutrients {
    if |logs| == 0 then NoNutrients
    else AddNutrients(NutrientFold(logs[..|logs| - 1]), logs[|logs| - 1])
  }

  /** The one fold over a record computes the twelve sums of the fields. */
  lemma {:induction false} NutrientFoldIsSums(logs: seq<FoodLog>)
    ensures var n := NutrientFold(logs);
            && n.protein == Sum(logs, FoodProtein) && n.carbs == Sum(logs, FoodCarbs)
            && n.fat == Sum(logs, FoodFat) && n.fiber == Sum(logs, FoodFiber)
            && n.saturatedFat == Sum(logs, FoodSaturatedFat)
            && n.cholesterol == Sum(logs, FoodCholesterol) && n.sodium == Sum(logs, FoodSodium)
            && n.potassium == Sum(logs, FoodPotassium) && n.vitaminA == Sum(logs, FoodVitaminA)
            && n.vitaminC == Sum(logs, FoodVitaminC) && n.calcium == Sum(logs, FoodCalcium)
            && n.iron == Sum(logs, FoodIron)
  {
    if |logs| > 0 {
      NutrientFoldIsSums(logs[..|logs| - 1]);
    }
  }

  /** `loadDailySummary`: calories in and out, water and the twelve nutrient
      totals; the other fat subtypes and the meal totals are left at 0. */
  function LoadDailySummary(today: Day, food: seq<FoodLog>, water: seq<WaterLog>,
                            exercise: seq<ExerciseLog>): (s: DailySummary)
    ensures s.date == today
    ensures s.netCalories == s.caloriesConsumed - s.caloriesBurned
    ensures s.polyunsaturatedFat == 0.0 && s.monounsaturatedFat == 0.0 && s.transFat == 0.0
    ensures s.meals == MealTotals(0.0, 0.0, 0.0, 0.0)
  {
    var consumed := Sum(food, FoodCalories);
    var burned := Sum(exercise, ExerciseBurned);
    var n := NutrientFold(food);
    DailySummary(
      today, consumed, burned, consumed - burned,
      n.protein, n.carbs, n.fat, n.fiber, n.saturatedFat,
      0.0, 0.0, 0.0,
      n.cholesterol, n.sodium, n.potassium, n.vitaminA, n.vitaminC, n.calcium, n.iron,
      Sum(water, WaterAmount),
      MealTotals(0.0, 0.0, 0.0, 0.0))
  }

  /** The summary of a day with nothing logged. */
  function ZeroSummary(today: Day): DailySummary {
    DailySummary(today, 0.0, 0.0, 0.0, 0.0, 0.0, 0.0, 0.0, 0.0, 0.0, 0.0, 0.0,
                 0.0, 0.0, 0.0, 0.0, 0.0, 0.0, 0.0, 0.0, MealTotals(0.0, 0.0, 0.0, 0.0))
  }

  /** A day with no logs has the all-zero summary. */
  lemma EmptyDaySummary(today: Day)
    ensures LoadDailySummary(today, [], [], []) == ZeroSummary(today)
  {
  }

  /** Logging one more food adds its calories to both consumed and net, adds
      each of its nutrients (0 when missing) to the total, and changes nothing
      else. */
  lemma AddFoodToSummary(today: Day, food: seq<FoodLog>, water: seq<WaterLog>,
                         exercise: seq<ExerciseLog>, l: FoodLog)
    ensures var s := LoadDailySummary(today, food, water, exercise);
            var t := LoadDailySummary(today, food + [l], water, exercise);
            t == s.(caloriesConsumed := s.caloriesConsumed + l.calories,
                    netCalories := s.netCalories + l.calories,
                    protein := s.protein + l.protein, carbs := s.carbs + l.carbs,
                    fat := s.fat + l.fat, fiber := s.fiber + l.fiber,
                    saturatedFat := s.saturatedFat + OrZero(l.saturatedFat),
                    cholesterol := s.cholesterol + OrZero(l.cholesterol),
                    sodium := s.sodium + OrZero(l.sodium),
                    potassium := s.potassium + OrZero(l.potassium),
                    vitaminA := s.vitaminA + OrZero(l.vitaminA),
                    vitaminC := s.vitaminC + OrZero(l.vitaminC),
                    calcium := s.calcium + OrZero(l.calcium),
                    iron := s.iron + OrZero(l.iron))
  {
    assert (food + [l])[..|food + [l]| - 1] == food;
  }

  /** Logging one more exercise adds its burned calories and takes them off
      the net; logging water adds its amount. Nothing else changes. */
  lemma AddActivityToSummary(today: Day, food: seq<FoodLog>, water: seq<WaterLog>,
                             exercise: seq<ExerciseLog>, e: ExerciseLog, w: WaterLog)
    ensures var s := LoadDailySummary(today, food, water, exercise);
            LoadDailySummary(today, food, water, exercise + [e])
              == s.(caloriesBurned := s.caloriesBurned + e.caloriesBurned,
                    netCalories := s.netCalories - e.caloriesBurned)
    ensures var s := LoadDailySummary(today, food, water, exercise);
            LoadDailySummary(today, food, water + [w], exercise) == s.(water := s.water + w.amount)
  {
    assert (exercise + [e])[..|exercise + [e]| - 1] == exercise;
    assert (water + [w])[..|water + [w]| - 1] == water;
  }

  /** Every field is a sum, so the order the getters return the logs in does
      not matter. */
  lemma SummaryIgnoresOrder(today: Day, food: seq<FoodLog>, food': seq<FoodLog>,
                            water: seq<WaterLog>, water': seq<WaterLog>,
                            exercise: seq<ExerciseLog>, exercise': seq<ExerciseLog>)
    requires multiset(food) == multiset(food')
    requires multiset(water) == multiset(water')
    requires multiset(exercise) == multiset(exercise')
    ensures LoadDailySummary(today, food, water, exercise)
            == LoadDailySummary(today, food', water', exercise')
  {
    NutrientFoldIsSums(food);
    NutrientFoldIsSums(food');
    SumPermutation(food, food', FoodCalories);
    SumPermutation(food, food', FoodProtein);
    SumPermutation(food, food', FoodCarbs);
    SumPermutation(food, food', FoodFat);
    SumPermutation(food, food', FoodFiber);
    SumPermutation(food, food', FoodSaturatedFat);
    SumPermutation(food, food', FoodCholesterol);
    SumPermutation(food, food', FoodSodium);
    SumPermutation(food, food', FoodPotassium);
    SumPermutation(food, food', FoodVitaminA);
    SumPermutation(food, food', FoodVitaminC);
    SumPermutation(food, food', FoodCalcium);
    SumPermutation(food, food', FoodIron);
    SumPermutation(water, water', WaterAmount);
    SumPermutation(exercise, exercise', ExerciseBurned);
  }

  /** `user.dailyWaterGoal || 2000`. */
  function WaterGoal(u: User): (g: real)
    ensures g != 0.0
    ensures u.dailyWaterGoal != 0.0 ==> g == u.dailyWaterGoal
    ensures u.dailyWaterGoal == 0.0 ==> g == 2000.0
  {
    if u.dailyWaterGoal != 0.0 then u.dailyWaterGoal else 2000.0
  }

  /** What is left of the calorie goal after the net intake. */
  function CaloriesRemaining(u: User, s: DailySummary): real {
    u.dailyCalorieGoal - s.netCalories
  }

  /** Burning calories raises what is left by exactly the amount burned;
      eating lowers it by exactly the calories eaten. */
  lemma RemainingAfterExercise(u: User, today: Day, food: seq<FoodLog>, water: seq<WaterLog>,
                               exercise: seq<ExerciseLog>, e: ExerciseLog, l: FoodLog)
    ensures CaloriesRemaining(u, LoadDailySummary(today, food, water, exercise + [e]))
            == CaloriesRemaining(u, LoadDailySummary(today, food, water, exercise)) + e.caloriesBurned
    ensures CaloriesRemaining(u, LoadDailySummary(today, food + [l], water, exercise))
            == CaloriesRemaining(u, LoadDailySummary(today, food, water, exercise)) - l.calories
  {
    AddActivityToSummary(today, food, water, exercise, e, WaterLog("", "", 0.0, today, 0));
    AddFoodToSummary(today, food, water, exercise, l);
  }

  function FoodOf(kcal: real, meal: MealType): FoodLog {
    FoodLog("", "u", "", "", meal, 1.0, kcal, 0.0, 0.0, 0.0, 0.0,
            None, None, None, None, None, None, None, None, None, None, None, 0, 0)
  }

  /** 300 + 450 + 120 kcal eaten and 200 kcal burned: 870 consumed, 670 net. */
  lemma SummaryExample()
    ensures var s := LoadDailySummary(0, [FoodOf(300.0, Breakfast), FoodOf(450.0, Lunch), FoodOf(120.0, Snack)],
                                      [], [ExerciseLog("", "u", "run", 20.0, 200.0, 0, 0, Cardio)]);
            s.caloriesConsumed == 870.0 && s.caloriesBurned == 200.0 && s.netCalories == 670.0
  {
    var food := [FoodOf(300.0, Breakfast), FoodOf(450.0, Lunch), FoodOf(120.0, Snack)];
    assert food[..2][..1] == food[..1] && food[..1][..0] == [];
    assert Sum(food[..1], FoodCalories) == 300.0;
    assert Sum(food[..2], FoodCalories) == 750.0;
    assert Sum(food, FoodCalories) == 870.0;
  }
}
