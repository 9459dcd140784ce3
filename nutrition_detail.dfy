/** src/components/NutritionDetail.tsx: the food-only summary of the day, the
    micronutrient table with its "left" column, and the goal editor. */
module NutritionDetail {
  import opened Wrappers
  import opened Types
  import opened Folds
  import Helpers
  import Dashboard

  /** `loadNutrition`: every nutrient is a separate sum over the day's food
      logs; nothing is burned, no water is counted, and the net intake is then
      overwritten with the calories consumed. */
  function LoadNutrition(today: Day, logs: seq<FoodLog>): (s: DailySummary)
    ensures s.date == today
    ensures s.caloriesBurned == 0.0 && s.water == 0.0
    ensures s.netCalories == s.caloriesConsumed
    ensures s.meals == MealTotals(0.0, 0.0, 0.0, 0.0)
  {
    var summary := DailySummary(
      today,
      Sum(logs, FoodCalories), 0.0, 0.0,
      Sum(logs, FoodProtein), Sum(logs, FoodCarbs), Sum(logs, FoodFat), Sum(logs, FoodFiber),
      Sum(logs, FoodSaturatedFat), Sum(logs, FoodPolyunsaturatedFat),
      Sum(logs, FoodMonounsaturatedFat), Sum(logs, FoodTransFat),
      Sum(logs, FoodCholesterol), Sum(logs, FoodSodium), Sum(logs, FoodPotassium),
      Sum(logs, FoodVitaminA), Sum(logs, FoodVitaminC), Sum(logs, FoodCalcium), Sum(logs, FoodIron),
      0.0,
      MealTotals(0.0, 0.0, 0.0, 0.0));
    summary.(netCalories := summary.caloriesConsumed)
  }

  /** This page and the dashboard agree on every food total. They differ only
      where the dashboard has no data: this page sums the three other fat
      subtypes that the dashboard leaves at 0, and has no exercise or water. */
  lemma AgreesWithDashboard(today: Day, logs: seq<FoodLog>)
    ensures LoadNutrition(today, logs)
            == Dashboard.LoadDailySummary(today, logs, [], []).(
                 polyunsaturatedFat := Sum(logs, FoodPolyunsaturatedFat),
                 monounsaturatedFat := Sum(logs, FoodMonounsaturatedFat),
                 transFat := Sum(logs, FoodTransFat))
  {
    Dashboard.NutrientFoldIsSums(logs);
  }

  /** The fat subtypes a food log built from the food table never carries
      sum to 0 on this page, as on the dashboard. */
  lemma FatSubtypesOfTableLogs(today: Day, logs: seq<FoodLog>)
    requires forall i :: 0 <= i < |logs| ==>
               logs[i].polyunsaturatedFat.None? && logs[i].monounsaturatedFat.None? && logs[i].transFat.None?
    ensures LoadNutrition(today, logs) == Dashboard.LoadDailySummary(today, logs, [], [])
  {
    AgreesWithDashboard(today, logs);
    SumZero(logs, FoodPolyunsaturatedFat);
    SumZero(logs, FoodMonounsaturatedFat);
    SumZero(logs, FoodTransFat);
  }

  // ---------------------------------------------------------------------------
  // The micronutrient table

  datatype NutrientRow = NutrientRow(name: string, value: real, goal: Option<real>, unit: string)

  /** The eleven rows, in display order, with their fixed daily goals; the
      two unsaturated fats have none. */
  function NutrientRows(s: DailySummary): (rows: seq<NutrientRow>)
    ensures |rows| == 11
    ensures forall i :: 0 <= i < |rows| ==> (rows[i].goal.None? <==> i == 1 || i == 2)
    ensures forall i :: 0 <= i < |rows| && rows[i].goal.Some? ==> rows[i].goal.value >= 0.0
  {
    [ NutrientRow("Saturated Fat", s.saturatedFat, Some(20.0), "g"),
      NutrientRow("Polyunsaturated Fat", s.polyunsaturatedFat, None, "g"),
      NutrientRow("Monounsaturated Fat", s.monounsaturatedFat, None, "g"),
      NutrientRow("Trans Fat", s.transFat, Some(0.0), "g"),
      NutrientRow("Cholesterol", s.cholesterol, Some(300.0), "mg"),
      NutrientRow("Sodium", s.sodium, Some(2300.0), "mg"),
      NutrientRow("Potassium", s.potassium, Some(3500.0), "mg"),
      NutrientRow("Vitamin A", s.vitaminA, Some(100.0), "mcg"),
      NutrientRow("Vitamin C", s.vitaminC, Some(100.0), "mg"),
      NutrientRow("Calcium", s.calcium, Some(100.0), "mg"),
      NutrientRow("Iron", s.iron, Some(18.0), "mg") ]
  }

  /** The "left" column: what remains of the goal, never below 0, or the
      value itself for a row without a goal. */
  function Left(row: NutrientRow): (r: real)
    ensures row.goal.Some? ==> r >= 0.0 && r >= row.goal.value - row.value
    ensures row.goal.Some? && row.value <= row.goal.value ==> r + row.value == row.goal.value
    ensures row.goal.Some? && row.value >= row.goal.value ==> r == 0.0
    ensures row.goal.None? ==> r == row.value
  {
    match row.goal
    case None => row.value
    case Some(g) => if g - row.value > 0.0 then g - row.value else 0.0
  }

  /** Only the two unsaturated-fat rows lack a goal, so every other row's
      "left" is non-negative; the trans-fat row's goal is 0, so its "left" is
      always 0 when the total is non-negative. */
  lemma RowsLeftNonNegative(s: DailySummary)
    ensures forall i :: 0 <= i < 11 && i != 1 && i != 2 ==>
              NutrientRows(s)[i].goal.Some? && Left(NutrientRows(s)[i]) >= 0.0
    ensures NutrientRows(s)[1].goal.None? && NutrientRows(s)[2].goal.None?
    ensures s.transFat >= 0.0 ==> Left(NutrientRows(s)[3]) == 0.0
  {
  }

  // ---------------------------------------------------------------------------
  // The goal editor

  /** The four numbers of the goal form. */
  datatype GoalForm = GoalForm(calories: real, protein: real, carbs: real, fat: real)

  /** The form as first shown: the user's current goals. */
  function InitialGoals(u: User): GoalForm {
    GoalForm(u.dailyCalorieGoal, u.dailyProteinGoal, u.dailyCarbsGoal, u.dailyFatGoal)
  }

  /** Typing a calorie goal resets the macros to a 30/45/25 energy split,
      each rounded to whole grams. */
  function EditCalories(cals: real): (g: GoalForm)
    ensures g.calories == cals
    ensures 4.0 * g.protein - 2.0 <= 0.30 * cals < 4.0 * g.protein + 2.0
    ensures 4.0 * g.carbs - 2.0 <= 0.45 * cals < 4.0 * g.carbs + 2.0
    ensures 9.0 * g.fat - 4.5 <= 0.25 * cals < 9.0 * g.fat + 4.5
    ensures g.protein == g.protein.Floor as real && g.carbs == g.carbs.Floor as real
            && g.fat == g.fat.Floor as real
  {
    GoalForm(cals,
             Helpers.Round((cals * 0.3) / 4.0) as real,
             Helpers.Round((cals * 0.45) / 4.0) as real,
             Helpers.Round((cals * 0.25) / 9.0) as real)
  }

  /** The edited macros carry the typed calories up to rounding: their energy
      is within 8.5 kcal of the goal. */
  lemma EditedEnergy(cals: real)
    ensures var g := EditCalories(cals);
            cals - 8.5 < 4.0 * g.protein + 4.0 * g.carbs + 9.0 * g.fat <= cals + 8.5
  {
  }

  /** The editor's split is not the one the goal calculator uses (30/40/30):
      for 2000 kcal it proposes 225 g of carbs and 56 g of fat where the
      calculator gives 200 g and 66.7 g. */
  lemma EditorSplitDiffersFromCalculator()
    ensures EditCalories(2000.0) == GoalForm(2000.0, 150.0, 225.0, 56.0)
    ensures Helpers.MacroGoals(2000.0) == Helpers.Macros(150.0, 200.0, 600.0 / 9.0)
  {
    assert Helpers.Round(2000.0 * 0.3 / 4.0) == 150;
    assert Helpers.Round(2000.0 * 0.45 / 4.0) == 225;
    assert Helpers.Round(2000.0 * 0.25 / 9.0) == 56;
  }

  /** `handleSaveGoals`: the four daily goals take the form's values and
      every other field of the user is kept. */
  function SaveGoals(u: User, g: GoalForm): (r: User)
    ensures r.dailyCalorieGoal == g.calories && r.dailyProteinGoal == g.protein
    ensures r.dailyCarbsGoal == g.carbs && r.dailyFatGoal == g.fat
    ensures r.(dailyCalorieGoal := u.dailyCalorieGoal, dailyProteinGoal := u.dailyProteinGoal,
               dailyCarbsGoal := u.dailyCarbsGoal, dailyFatGoal := u.dailyFatGoal) == u
  {
    u.(dailyCalorieGoal := g.calories, dailyProteinGoal := g.protein,
       dailyCarbsGoal := g.carbs, dailyFatGoal := g.fat)
  }

  /** Saving the form unedited leaves the user as it was; saving twice is
      saving once. */
  lemma SaveGoalsRoundTrip(u: User, g: GoalForm)
    ensures SaveGoals(u, InitialGoals(u)) == u
    ensures SaveGoals(SaveGoals(u, g), g) == SaveGoals(u, g)
    ensures InitialGoals(SaveGoals(u, g)) == g
  {
  }
}
