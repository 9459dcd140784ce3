/** src/components/Profile.tsx: changing the goal recomputes the daily
    targets, logging a weight stores a weight log and updates the user, and
    the page shows the BMI with its own copy of the category thresholds. */
module Profile {
  import opened Wrappers
  import opened Text
  import opened Types
  import opened Folds
  import Helpers
  import Storage

  // ---------------------------------------------------------------------------
  // Changing the goal

  /** `handleUpdateGoal`: the new goal, the calorie target recomputed for it
      and rounded, and the 30/40/30 macros of that rounded target, each
      rounded to whole grams. */
  function UpdateGoal(u: User, newGoal: Goal): (r: User)
    ensures r.goal == newGoal
    ensures var exact := Helpers.CalorieGoal(u.(goal := newGoal));
            exact - 0.5 < r.dailyCalorieGoal <= exact + 0.5
    ensures r.dailyCalorieGoal == r.dailyCalorieGoal.Floor as real
    ensures 4.0 * r.dailyProteinGoal - 2.0 <= 0.30 * r.dailyCalorieGoal < 4.0 * r.dailyProteinGoal + 2.0
    ensures 4.0 * r.dailyCarbsGoal - 2.0 <= 0.40 * r.dailyCalorieGoal < 4.0 * r.dailyCarbsGoal + 2.0
    ensures 9.0 * r.dailyFatGoal - 4.5 <= 0.30 * r.dailyCalorieGoal < 9.0 * r.dailyFatGoal + 4.5
    ensures r.dailyProteinGoal == r.dailyProteinGoal.Floor as real
            && r.dailyCarbsGoal == r.dailyCarbsGoal.Floor as real
            && r.dailyFatGoal == r.dailyFatGoal.Floor as real
    ensures r.(goal := u.goal, dailyCalorieGoal := u.dailyCalorieGoal, dailyProteinGoal := u.dailyProteinGoal,
               dailyCarbsGoal := u.dailyCarbsGoal, dailyFatGoal := u.dailyFatGoal) == u
  {
    var temp := u.(goal := newGoal);
    var calories := RoundedTarget(Helpers.CalorieGoal(temp));
    var macros := Helpers.MacroGoals(calories as real);
    temp.(dailyCalorieGoal := calories as real,
          dailyProteinGoal := Helpers.Round(macros.protein) as real,
          dailyCarbsGoal := Helpers.Round(macros.carbs) as real,
          dailyFatGoal := Helpers.Round(macros.fat) as real)
  }

  /** `Math.round(calculateCalorieGoal(tempUser))`. */
  function RoundedTarget(exact: real): (r: int)
    ensures exact - 0.5 < r as real <= exact + 0.5
  {
    Helpers.Round(exact)
  }

  /** Rounding commutes with whole-number offsets. */
  lemma RoundShift(x: real, k: int)
    ensures Helpers.Round(x + k as real) == Helpers.Round(x) + k
  {
  }

  /** After rounding, the three goals still sit exactly 500 kcal below and
      300 kcal above the maintenance target. */
  lemma GoalTargetsOffsets(u: User)
    ensures UpdateGoal(u, Lose).dailyCalorieGoal == UpdateGoal(u, Maintain).dailyCalorieGoal - 500.0
    ensures UpdateGoal(u, Gain).dailyCalorieGoal == UpdateGoal(u, Maintain).dailyCalorieGoal + 300.0
  {
    Helpers.CalorieGoalOffsets(u);
    var t := Helpers.TDEE(u);
    RoundShift(t, -500);
    RoundShift(t, 300);
  }

  /** Choosing the same goal again changes nothing: the targets depend only
      on fields the update keeps. */
  lemma UpdateGoalIdempotent(u: User, g: Goal)
    ensures UpdateGoal(UpdateGoal(u, g), g) == UpdateGoal(u, g)
  {
    var r := UpdateGoal(u, g);
    assert r.(goal := g) == r;
    assert Helpers.BMR(r) == Helpers.BMR(u.(goal := g));
    assert Helpers.TDEE(r) == Helpers.TDEE(u.(goal := g));
  }

  // ---------------------------------------------------------------------------
  // Logging a weight

  /** The weight log `handleAddWeight` builds; an empty note is stored as
      absent rather than as the empty string. */
  function NewWeightLog(id: string, u: User, weight: real, note: string, now: int): (l: WeightLog)
    ensures l.id == id && l.userId == u.id && l.weight == weight && l.date == now
    ensures l.note.None? <==> note == ""
    ensures l.note.Some? ==> l.note.value == note
  {
    WeightLog(id, u.id, weight, now, if note == "" then None else Some(note))
  }

  /** `handleAddWeight`: a weight that does not parse changes nothing;
      otherwise one weight log is stored and the user's current weight, and
      nothing else about the user, becomes the new weight. */
  method AddWeight(store: Storage.LogStore, u: User, newWeight: string, note: string, id: string, now: int)
    returns (r: User)
    modifies store
    ensures ParseFloat(newWeight).None? ==> r == u && store.weightLogs == old(store.weightLogs)
    ensures ParseFloat(newWeight).Some? ==>
              var w := ParseFloat(newWeight).value;
              r == u.(currentWeight := w)
              && store.weightLogs == old(store.weightLogs) + [NewWeightLog(id, u, w, note, now)]
    ensures store.foodLogs == old(store.foodLogs) && store.waterLogs == old(store.waterLogs)
    ensures store.exerciseLogs == old(store.exerciseLogs)
  {
    var parsed := ParseFloat(newWeight);
    if parsed.None? {
      return u;
    }
    var weightVal := parsed.value;
    store.SaveWeightLog(NewWeightLog(id, u, weightVal, note, now));
    r := u.(currentWeight := weightVal);
  }

  /** A weight logged no earlier than the user's other weights becomes the
      latest weight. */
  lemma AddedWeightIsLatest(weights: seq<WeightLog>, l: WeightLog)
    requires forall x :: x in weights && x.userId == l.userId ==> x.date <= l.date
    ensures Storage.GetLatestWeight(weights + [l], l.userId).Some?
    ensures Storage.GetLatestWeight(weights + [l], l.userId).value.date == l.date
  {
    Storage.LatestWeightSpec(weights + [l], l.userId);
    assert l in weights + [l];
  }

  /** The list the page shows: the getter's list, sorted again by date. */
  function ShownWeights(weights: seq<WeightLog>, uid: string): seq<WeightLog> {
    SortDesc(Storage.GetWeightLogs(weights, uid), Storage.WeightInstant)
  }

  /** The getter already returns the weights newest first, so the page's
      second sort leaves the list as it is; it stays newest first after every
      load and every added weight. */
  lemma ShownWeightsNewestFirst(weights: seq<WeightLog>, uid: string)
    ensures ShownWeights(weights, uid) == Storage.GetWeightLogs(weights, uid)
    ensures SortedDesc(ShownWeights(weights, uid), Storage.WeightInstant)
  {
    SortDescOfSorted(Storage.GetWeightLogs(weights, uid), Storage.WeightInstant);
  }

  // ---------------------------------------------------------------------------
  // BMI on the page

  /** The page's own `getBMICategory`. */
  function LocalCategory(bmiValue: real): Helpers.BMICategory {
    if bmiValue < 18.5 then Helpers.Underweight
    else if bmiValue < 25.0 then Helpers.Normal
    else if bmiValue < 30.0 then Helpers.Overweight
    else Helpers.Obese
  }

  /** The page's thresholds are the helpers' thresholds. */
  lemma LocalCategoryAgrees(bmiValue: real)
    ensures LocalCategory(bmiValue) == Helpers.GetBMICategory(bmiValue)
  {
  }

  /** The category shown. The page divides the weight by the squared height
      in metres, the helpers' BMI formula; for a height of 0 the quotient is
      +Infinity or NaN (both "Obese") unless the weight is negative
      (-Infinity, "Underweight"). */
  function ProfileCategory(u: User): (c: Helpers.BMICategory)
    ensures u.height != 0.0 ==> c == Helpers.GetBMICategory(Helpers.BMI(u.currentWeight, u.height).value)
    ensures u.height == 0.0 ==> (c == Helpers.Underweight <==> u.currentWeight < 0.0)
    ensures u.height == 0.0 && u.currentWeight >= 0.0 ==> c == Helpers.Obese
  {
    match Helpers.BMI(u.currentWeight, u.height)
    case Some(b) => LocalCategoryAgrees(b); LocalCategory(b)
    case None => if u.currentWeight < 0.0 then Helpers.Underweight else Helpers.Obese
  }
}
