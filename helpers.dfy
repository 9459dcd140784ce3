/** src/utils/helpers.ts: the goal calculator (Mifflin-St Jeor BMR, TDEE,
    calorie goal, 30/40/30 macro split), BMI, percentages, averages and the
    logging streak. */
module Helpers {
  import opened Wrappers
  import opened Types
  import opened Folds

  /** `Math.round`: to the nearest integer, halves upwards. */
  function Round(x: real): (r: int)
    ensures x - 0.5 < r as real <= x + 0.5
  {
    (x + 0.5).Floor
  }

  // ---------------------------------------------------------------------------
  // Goal calculator

  /** Basal metabolic rate; every gender other than male takes the female constant. */
  function BMR(u: User): real {
    if u.gender == Male then 10.0 * u.currentWeight + 6.25 * u.height - 5.0 * u.age + 5.0
    else 10.0 * u.currentWeight + 6.25 * u.height - 5.0 * u.age - 161.0
  }

  /** For the same body, male BMR is exactly 166 above female BMR, and 'other'
      is computed as female. */
  lemma BMRGenderOffset(u: User)
    ensures BMR(u.(gender := Male)) == BMR(u.(gender := Female)) + 166.0
    ensures BMR(u.(gender := Other)) == BMR(u.(gender := Female))
  {
  }

  /** For a fixed gender BMR changes by 10 per kg, 6.25 per cm and -5 per year,
      so it rises with weight and height and falls with age. */
  lemma BMRMonotone(u: User, v: User)
    requires u.gender == v.gender
    ensures BMR(v) - BMR(u) == 10.0 * (v.currentWeight - u.currentWeight)
                               + 6.25 * (v.height - u.height) - 5.0 * (v.age - u.age)
    ensures v.height == u.height && v.age == u.age && v.currentWeight > u.currentWeight ==> BMR(v) > BMR(u)
    ensures v.currentWeight == u.currentWeight && v.age == u.age && v.height > u.height ==> BMR(v) > BMR(u)
    ensures v.currentWeight == u.currentWeight && v.height == u.height && v.age > u.age ==> BMR(v) < BMR(u)
  {
  }

  /** The activity multiplier table. */
  function ActivityMultiplier(a: ActivityLevel): real {
    match a
    case Sedentary => 1.2
    case Light => 1.375
    case Moderate => 1.55
    case Active => 1.725
    case VeryActive => 1.9
  }

  /** The position of a level in the order sedentary < ... < very-active. */
  function ActivityRank(a: ActivityLevel): (r: nat)
    ensures r < |ActivityLevels| && ActivityLevels[r] == a
  {
    match a
    case Sedentary => 0
    case Light => 1
    case Moderate => 2
    case Active => 3
    case VeryActive => 4
  }

  /** Total daily energy expenditure. */
  function TDEE(u: User): real {
    BMR(u) * ActivityMultiplier(u.activityLevel)
  }

  /** The multipliers strictly increase from sedentary to very-active, so with
      a positive BMR a more active user has a strictly larger TDEE. */
  lemma TDEEMonotoneInActivity(u: User, a: ActivityLevel, b: ActivityLevel)
    requires ActivityRank(a) < ActivityRank(b)
    ensures ActivityMultiplier(a) < ActivityMultiplier(b)
    ensures BMR(u) > 0.0 ==> TDEE(u.(activityLevel := a)) < TDEE(u.(activityLevel := b))
  {
    assert BMR(u.(activityLevel := a)) == BMR(u) == BMR(u.(activityLevel := b));
  }

  /** The daily calorie goal: a 500 kcal deficit to lose, a 300 kcal surplus to gain. */
  function CalorieGoal(u: User): real {
    var tdee := TDEE(u);
    if u.goal == Lose then tdee - 500.0
    else if u.goal == Gain then tdee + 300.0
    else tdee
  }

  /** Each goal sits at its fixed offset from TDEE; hence lose < maintain < gain. */
  lemma CalorieGoalOffsets(u: User)
    ensures CalorieGoal(u.(goal := Lose)) == TDEE(u) - 500.0
    ensures CalorieGoal(u.(goal := Maintain)) == TDEE(u)
    ensures CalorieGoal(u.(goal := Gain)) == TDEE(u) + 300.0
    ensures CalorieGoal(u.(goal := Lose)) < CalorieGoal(u.(goal := Maintain)) < CalorieGoal(u.(goal := Gain))
  {
    assert TDEE(u.(goal := Lose)) == TDEE(u.(goal := Maintain)) == TDEE(u.(goal := Gain)) == TDEE(u);
  }

  datatype Macros = Macros(protein: real, carbs: real, fat: real)

  /** Grams of protein, carbs and fat for a 30/40/30 energy split at 4, 4 and 9 kcal/g. */
  function MacroGoals(calorieGoal: real): (m: Macros)
    ensures 4.0 * m.protein == 0.30 * calorieGoal
    ensures 4.0 * m.carbs == 0.40 * calorieGoal
    ensures 9.0 * m.fat == 0.30 * calorieGoal
    ensures 4.0 * m.protein + 4.0 * m.carbs + 9.0 * m.fat == calorieGoal
  {
    Macros((calorieGoal * 0.30) / 4.0, (calorieGoal * 0.40) / 4.0, (calorieGoal * 0.30) / 9.0)
  }

  // ---------------------------------------------------------------------------
  // BMI

  /** weight / (height in metres)^2; `None` when the height is zero, where the
      source divides by zero. */
  function BMI(weight: real, height: real): (r: Option<real>)
    ensures r.Some? <==> height != 0.0
    ensures r.Some? ==> r.value * (height / 100.0) * (height / 100.0) == weight
  {
    if height == 0.0 then None
    else
      var heightInMeters := height / 100.0;
      Some(weight / (heightInMeters * heightInMeters))
  }

  datatype BMICategory = Underweight | Normal | Overweight | Obese

  function GetBMICategory(bmi: real): BMICategory {
    if bmi < 18.5 then Underweight
    else if bmi < 25.0 then Normal
    else if bmi < 30.0 then Overweight
    else Obese
  }

  /** The categories are the four intervals cut at 18.5, 25 and 30. */
  lemma BMICategoryIntervals(bmi: real)
    ensures GetBMICategory(bmi) == Underweight <==> bmi < 18.5
    ensures GetBMICategory(bmi) == Normal <==> 18.5 <= bmi < 25.0
    ensures GetBMICategory(bmi) == Overweight <==> 25.0 <= bmi < 30.0
    ensures GetBMICategory(bmi) == Obese <==> 30.0 <= bmi
  {
  }

  // ---------------------------------------------------------------------------
  // Percentage and average

  /** `value` as a rounded percentage of `total`, capped at 100 but not floored. */
  function Percentage(value: real, total: real): (r: int)
    ensures total == 0.0 ==> r == 0
    ensures r <= 100
    ensures total != 0.0 && value / total * 100.0 < 99.5 ==>
              r as real - 0.5 <= value / total * 100.0 < r as real + 0.5
    ensures total != 0.0 && value / total * 100.0 >= 99.5 ==> r == 100
    ensures total != 0.0 && value / total >= 0.0 ==> r >= 0
    ensures total != 0.0 && value / total * 100.0 < -0.5 ==> r < 0
  {
    if total == 0.0 then 0
    else
      var p := Round((value / total) * 100.0);
      if p < 100 then p else 100
  }

  function Identity(x: real): real { x }

  /** The arithmetic mean; 0 for an empty list. */
  function Average(xs: seq<real>): (r: real)
    ensures |xs| == 0 ==> r == 0.0
    ensures |xs| > 0 ==> r * |xs| as real == Sum(xs, Identity)
  {
    if |xs| == 0 then 0.0 else Sum(xs, Identity) / |xs| as real
  }

  lemma {:induction false} SumBounds(xs: seq<real>, lo: real, hi: real)
    requires forall i :: 0 <= i < |xs| ==> lo <= xs[i] <= hi
    ensures lo * |xs| as real <= Sum(xs, Identity) <= hi * |xs| as real
  {
    if |xs| > 0 {
      SumBounds(xs[..|xs| - 1], lo, hi);
    }
  }

  /** The average lies between any lower and upper bound of the values. */
  lemma AverageBounds(xs: seq<real>, lo: real, hi: real)
    requires |xs| > 0
    requires forall i :: 0 <= i < |xs| ==> lo <= xs[i] <= hi
    ensures lo <= Average(xs) <= hi
  {
    SumBounds(xs, lo, hi);
    var n := |xs| as real;
    assert Average(xs) * n == Sum(xs, Identity);
    assert lo * n <= Average(xs) * n <= hi * n;
  }

  // ---------------------------------------------------------------------------
  // Streak

  /** The distinct days in `dates`. */
  function Logged(dates: seq<Day>): set<Day> {
    set d | d in dates
  }

  /** `anchor, anchor - 1, ..., anchor - k + 1` are all logged and `anchor - k` is not. */
  ghost predicate IsRun(logged: set<Day>, anchor: Day, k: nat) {
    (forall d :: anchor - k < d <= anchor ==> d in logged) && anchor - k !in logged
  }

  /** The number of consecutive logged days ending at `d`. */
  function RunLength(logged: set<Day>, d: Day): nat
    decreases |logged|
  {
    if d in logged then 1 + RunLength(logged - {d}, d - 1) else 0
  }

  lemma {:induction false} RunLengthIsRun(logged: set<Day>, d: Day)
    ensures IsRun(logged, d, RunLength(logged, d))
    ensures RunLength(logged, d) <= |logged|
    decreases |logged|
  {
    if d in logged {
      var k := RunLength(logged - {d}, d - 1);
      RunLengthIsRun(logged - {d}, d - 1);
      forall e | d - (k + 1) < e <= d
        ensures e in logged
      {
        if e < d {
          assert e in logged - {d};
        }
      }
    }
  }

  /** A run's length is determined by where it ends. */
  lemma RunUnique(logged: set<Day>, anchor: Day, k1: nat, k2: nat)
    requires IsRun(logged, anchor, k1) && IsRun(logged, anchor, k2)
    ensures k1 == k2
  {
  }

  /** Where the walk starts: today if logged, else yesterday if logged. */
  function Anchor(dates: seq<Day>, today: Day): Option<Day> {
    if today in dates then Some(today)
    else if today - 1 in dates then Some(today - 1)
    else None
  }

  /** The streak: the run of logged days ending at the anchor, or 0 without one. */
  function Streak(dates: seq<Day>, today: Day): nat {
    if |dates| == 0 then 0
    else
      match Anchor(dates, today)
      case None => 0
      case Some(a) => RunLength(Logged(dates), a)
  }

  /** Whenever `hi - lo` consecutive days are all in `s`, `s` has at least that many elements. */
  lemma {:induction false} RangeWithin(s: set<Day>, lo: Day, hi: Day)
    requires lo <= hi
    requires forall d :: lo <= d < hi ==> d in s
    ensures hi - lo <= |s|
    decreases hi - lo
  {
    if lo < hi {
      RangeWithin(s - {hi - 1}, lo, hi - 1);
    }
  }

  /** `calculateStreak` with today's date passed in: dedupe, anchor, walk back. */
  method CalculateStreak(dates: seq<Day>, today: Day) returns (streak: nat)
    ensures streak == Streak(dates, today)
  {
    if |dates| == 0 {
      return 0;
    }
    var uniqueDates := set d | d in dates;
    var check := today;
    if today !in uniqueDates {
      if today - 1 in uniqueDates {
        check := today - 1;
      } else {
        return 0;
      }
    }
    ghost var anchor := check;
    streak := 0;
    while check in uniqueDates
      invariant streak == anchor - check
      invariant forall d :: check < d <= anchor ==> d in uniqueDates
      invariant streak <= |uniqueDates|
      decreases |uniqueDates| - streak
    {
      RangeWithin(uniqueDates, check, anchor + 1);
      streak := streak + 1;
      check := check - 1;
    }
    RunLengthIsRun(uniqueDates, anchor);
    RunUnique(uniqueDates, anchor, streak, RunLength(uniqueDates, anchor));
  }

  /** The streak is 0 exactly when neither today nor yesterday is logged;
      otherwise it is the unique run ending at today (if logged) or yesterday,
      and never more than the number of distinct logged days. */
  lemma StreakCharacterization(dates: seq<Day>, today: Day)
    ensures Streak(dates, today) == 0 <==> today !in dates && today - 1 !in dates
    ensures today in dates ==> IsRun(Logged(dates), today, Streak(dates, today))
    ensures today !in dates && today - 1 in dates ==> IsRun(Logged(dates), today - 1, Streak(dates, today))
    ensures Streak(dates, today) <= |Logged(dates)|
  {
    match Anchor(dates, today)
    case None =>
    case Some(a) =>
      RunLengthIsRun(Logged(dates), a);
  }

  /** Duplicates and order do not matter: only the set of days does. */
  lemma StreakIgnoresDuplicates(xs: seq<Day>, ys: seq<Day>, today: Day)
    requires forall d :: d in xs <==> d in ys
    ensures Streak(xs, today) == Streak(ys, today)
  {
    assert forall d :: d in Logged(xs) <==> d in Logged(ys);
    assert Logged(xs) == Logged(ys);
  }

  /** Days 1, 2 and 3 logged: a streak of 3 on day 3 and on day 4, none on day 5. */
  lemma StreakExamples()
    ensures Streak([1, 2, 3], 3) == 3
    ensures Streak([1, 2, 3], 4) == 3
    ensures Streak([1, 2, 3], 5) == 0
  {
    var L := Logged([1, 2, 3]);
    assert L == {1, 2, 3};
    assert {1} - {1} == {};
    assert RunLength({1}, 1) == 1;
    assert {1, 2} - {2} == {1};
    assert RunLength({1, 2}, 2) == 2;
    assert L - {3} == {1, 2};
    assert RunLength(L, 3) == 3;
  }
}
