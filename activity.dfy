/** src/components/Activity.tsx: the calories-per-minute table and the
    keyword lookup that estimates an exercise's calories, and the figures the
    page derives from the day's water and exercise logs. */
module Activity {
  import opened Wrappers
  import opened Text
  import opened Types
  import opened Folds
  import Helpers
  import Storage
  import Dashboard

  // ---------------------------------------------------------------------------
  // The calorie-factor table

  /** `exerciseFactors`, in the order its keys are enumerated. */
  const ExerciseFactors: seq<(string, real)> := [
    ("running", 11.4), ("walking", 4.5), ("cycling", 8.5), ("swimming", 9.8),
    ("yoga", 3.2), ("strength", 5.5), ("weightlifting", 6.0), ("hiit", 12.5),
    ("football", 10.0), ("basketball", 9.5), ("tennis", 8.0), ("cardio", 8.0),
    ("sports", 9.0), ("other", 5.0)]

  /** The table's keys are distinct and its factors lie between 3.2 and 12.5. */
  lemma FactorTableInvariants()
    ensures forall i, j :: 0 <= i < j < |ExerciseFactors| ==> ExerciseFactors[i].0 != ExerciseFactors[j].0
    ensures forall i :: 0 <= i < |ExerciseFactors| ==> 3.2 <= ExerciseFactors[i].1 <= 12.5
  {
  }

  /** `table[key]`: the factor stored under `key`, if any. */
  function Lookup(table: seq<(string, real)>, key: string): (r: Option<real>)
    ensures r.None? <==> forall i :: 0 <= i < |table| ==> table[i].0 != key
    ensures r.Some? ==> exists i :: 0 <= i < |table| && table[i] == (key, r.value)
  {
    if |table| == 0 then None
    else if table[0].0 == key then Some(table[0].1)
    else
      var r := Lookup(table[1..], key);
      assert r.Some? ==> exists i :: 0 <= i < |table[1..]| && table[1..][i] == (key, r.value);
      assert r.Some? ==> exists i :: 1 <= i < |table| && table[i] == (key, r.value);
      r
  }

  /** A key that no earlier entry repeats is looked up to its own factor. */
  lemma {:induction false} LookupAt(table: seq<(string, real)>, k: nat)
    requires k < |table|
    requires forall j :: 0 <= j < k ==> table[j].0 != table[k].0
    ensures Lookup(table, table[k].0) == Some(table[k].1)
    decreases k
  {
    if k > 0 {
      assert table[1..][k - 1] == table[k];
      LookupAt(table[1..], k - 1);
    }
  }

  /** `exerciseFactors[exerciseType] || 5.0`. */
  function TypeFactor(t: ExerciseType): real {
    match Lookup(ExerciseFactors, ExerciseTypeName(t))
    case Some(v) => if v != 0.0 then v else 5.0
    case None => 5.0
  }

  /** Every exercise type is a key of the table, so the type's factor is the
      table's and the `|| 5.0` fallback is never taken. */
  lemma TypeFactorFromTable(t: ExerciseType)
    ensures Lookup(ExerciseFactors, ExerciseTypeName(t)).Some?
    ensures TypeFactor(t) == Lookup(ExerciseFactors, ExerciseTypeName(t)).value
    ensures TypeFactor(t) == match t
                             case Cardio => 8.0
                             case Strength => 5.5
                             case Yoga => 3.2
                             case Sports => 9.0
                             case OtherExercise => 5.0
  {
    var k := match t
             case Cardio => 11
             case Strength => 5
             case Yoga => 4
             case Sports => 12
             case OtherExercise => 13;
    KeyLookup(k);
    assert ExerciseFactors[k].0 == ExerciseTypeName(t);
  }

  /** Each key of the table is looked up to its own factor. */
  lemma KeyLookup(k: nat)
    requires k < |ExerciseFactors|
    ensures Lookup(ExerciseFactors, ExerciseFactors[k].0) == Some(ExerciseFactors[k].1)
  {
    FactorTableInvariants();
    LookupAt(ExerciseFactors, k);
  }

  /** The index of the first key, from `k` on, that `nameLow` contains. */
  function FirstMatchFrom(nameLow: string, table: seq<(string, real)>, k: nat): (r: Option<nat>)
    requires k <= |table|
    ensures r.Some? ==> k <= r.value < |table| && Contains(nameLow, table[r.value].0)
    ensures r.Some? ==> forall j :: k <= j < r.value ==> !Contains(nameLow, table[j].0)
    ensures r.None? ==> forall j :: k <= j < |table| ==> !Contains(nameLow, table[j].0)
    decreases |table| - k
  {
    if k == |table| then None
    else if Contains(nameLow, table[k].0) then Some(k)
    else FirstMatchFrom(nameLow, table, k + 1)
  }

  function FirstMatch(nameLow: string, table: seq<(string, real)>): Option<nat> {
    FirstMatchFrom(nameLow, table, 0)
  }

  /** The factor the estimate uses: that of the first table key, in table
      order, that the lower-cased name contains, else the type's. */
  function Factor(t: ExerciseType, name: string): real {
    match FirstMatch(Lower(name), ExerciseFactors)
    case Some(i) => ExerciseFactors[i].1
    case None => TypeFactor(t)
  }

  /** The `for...in` loop of the estimate effect over `table`: keep `factor`
      unless a key occurs in `nameLow`, in which case take the first such
      key's factor and stop. */
  method FirstKeyFactor(nameLow: string, table: seq<(string, real)>, start: real) returns (factor: real)
    ensures || (exists i :: 0 <= i < |table| && Contains(nameLow, table[i].0) && factor == table[i].1
                 && forall j :: 0 <= j < i ==> !Contains(nameLow, table[j].0))
            || ((forall j :: 0 <= j < |table| ==> !Contains(nameLow, table[j].0)) && factor == start)
    ensures factor == match FirstMatch(nameLow, table) case Some(i) => table[i].1 case None => start
  {
    factor := start;
    var k := 0;
    while k < |table|
      invariant 0 <= k <= |table|
      invariant forall j :: 0 <= j < k ==> !Contains(nameLow, table[j].0)
      invariant factor == start
    {
      if Contains(nameLow, table[k].0) {
        factor := table[k].1;
        return;
      }
      k := k + 1;
    }
  }

  /** The estimate effect's factor: the type's, overridden by the first
      table key the lower-cased name contains. */
  method ComputeFactor(exerciseType: ExerciseType, exerciseName: string) returns (factor: real)
    ensures factor == Factor(exerciseType, exerciseName)
  {
    factor := FirstKeyFactor(Lower(exerciseName), ExerciseFactors, TypeFactor(exerciseType));
  }

  /** Every factor is positive and between 3.2 and 12.5 kcal per minute. */
  lemma FactorBounds(t: ExerciseType, name: string)
    ensures 3.2 <= Factor(t, name) <= 12.5
  {
    FactorTableInvariants();
    TypeFactorFromTable(t);
  }

  /** A name containing several keys takes the factor of the one that comes
      first in the table, not the one that comes first in the name. */
  lemma FirstKeyInTableOrder()
    ensures Contains(Lower("Yoga and running"), "yoga")
    ensures Factor(Yoga, "Yoga and running") == 11.4
  {
    var low := Lower("Yoga and running");
    assert low == "yoga and running";
    ContainsAt(low, "yoga", 0);
    ContainsAt(low, "running", 9);
  }

  // ---------------------------------------------------------------------------
  // The calorie estimate

  /** The effect's outcome: no change, a whole number of calories, or NaN
      when the duration does not parse. */
  datatype Estimate = Keep | Kcal(value: int) | NotANumber

  /** `Math.round(minutes * factor)`, NaN when the minutes did not parse; the
      result is the nearest whole number of calories. */
  function RoundedEstimate(minutes: Option<real>, factor: real): (e: Estimate)
    ensures e != Keep
    ensures e == NotANumber <==> minutes.None?
    ensures e.Kcal? ==> minutes.value * factor - 0.5 < e.value as real <= minutes.value * factor + 0.5
  {
    match minutes
    case None => NotANumber
    case Some(m) => Kcal(Helpers.Round(m * factor))
  }

  /** The effect's outcome for a duration string: unchanged when it is empty. */
  function EstimateFor(duration: string, factor: real): (e: Estimate)
    ensures e == Keep <==> duration == ""
    ensures e == NotANumber <==> duration != "" && ParseFloat(duration).None?
  {
    if duration == "" then Keep else RoundedEstimate(ParseFloat(duration), factor)
  }

  /** The estimate effect: nothing for an empty duration, else the factor
      loop followed by the rounding. */
  method EstimateCalories(duration: string, exerciseType: ExerciseType, exerciseName: string) returns (e: Estimate)
    ensures e == EstimateFor(duration, Factor(exerciseType, exerciseName))
  {
    if duration == "" {
      return Keep;
    }
    var factor := ComputeFactor(exerciseType, exerciseName);
    e := RoundedEstimate(ParseFloat(duration), factor);
  }

  /** With a positive factor, a non-negative duration never gives a negative
      estimate, and a longer one never gives a smaller estimate. */
  lemma EstimateMonotone(m1: real, m2: real, factor: real)
    requires 0.0 <= m1 <= m2 && 0.0 < factor
    ensures 0 <= RoundedEstimate(Some(m1), factor).value <= RoundedEstimate(Some(m2), factor).value
  {
    assert m2 * factor - m1 * factor == (m2 - m1) * factor;
    assert 0.0 <= m1 * factor <= m2 * factor;
  }

  /** With no keyword in the name the factor is the type's. */
  lemma UnnamedFactor(t: ExerciseType)
    ensures Factor(t, "") == TypeFactor(t)
  {
    assert Lower("") == "";
    assert FirstMatch("", ExerciseFactors).None?;
  }

  /** The form's defaults agree: 30 minutes of unnamed cardio is estimated at
      the 240 kcal the form starts with. */
  lemma DefaultFormEstimate()
    ensures Factor(Cardio, "") == TypeFactor(Cardio)
    ensures EstimateFor("30", TypeFactor(Cardio)) == Kcal(240)
  {
    UnnamedFactor(Cardio);
    TypeFactorFromTable(Cardio);
    ParseThirty();
    assert Helpers.Round(30.0 * 8.0) == 240;
  }

  lemma ParseThirty()
    ensures ParseFloat("30") == Some(30.0)
  {
    ParsePositiveNumeral("30");
    assert "30"[..1] == "3" && "3"[..0] == "";
    assert DigitsValue("3") == 3;
  }

  // ---------------------------------------------------------------------------
  // The page's figures

  /** What `loadData` puts on the page: the day's water total and the day's
      exercise logs. */
  datatype PageData = PageData(waterIntake: real, exerciseLogs: seq<ExerciseLog>)

  function LoadData(water: seq<WaterLog>, exercise: seq<ExerciseLog>, u: string, d: Day): PageData {
    PageData(Sum(Storage.GetWaterLogs(water, u, Some(d)), WaterAmount),
             Storage.GetExerciseLogs(exercise, u, Some(d)))
  }

  /** `exerciseLogs.reduce((sum, log) => sum + log.caloriesBurned, 0)`. */
  function TotalBurned(logs: seq<ExerciseLog>): real {
    Sum(logs, ExerciseBurned)
  }

  /** `Math.min(100, waterIntake / waterGoal * 100)`, with the goal defaulting
      to 2000 ml. */
  function WaterProgress(intake: real, u: User): (p: real)
    ensures p <= 100.0
    ensures Dashboard.WaterGoal(u) > 0.0 ==> (p == 100.0 <==> intake >= Dashboard.WaterGoal(u))
    ensures Dashboard.WaterGoal(u) > 0.0 && intake < Dashboard.WaterGoal(u) ==>
              p * Dashboard.WaterGoal(u) == intake * 100.0
    ensures Dashboard.WaterGoal(u) > 0.0 && intake >= 0.0 ==> p >= 0.0
  {
    var goal := Dashboard.WaterGoal(u);
    var pct := intake / goal * 100.0;
    if 100.0 < pct then 100.0 else if goal > 0.0 then ShareOfGoal(intake, goal); pct else pct
  }

  /** The share `a / g` in percent, for a positive goal `g`. */
  lemma ShareOfGoal(a: real, g: real)
    requires g > 0.0
    ensures (a / g * 100.0) * g == a * 100.0
    ensures a / g * 100.0 < 100.0 <==> a < g
    ensures a / g * 100.0 == 100.0 <==> a == g
    ensures a >= 0.0 ==> a / g * 100.0 >= 0.0
  {
    assert (a / g) * g == a;
  }

  /** Adding a glass of water for the page's user and day raises the intake
      by its amount and leaves the exercise list as it was. */
  lemma AddWaterRaisesIntake(water: seq<WaterLog>, exercise: seq<ExerciseLog>, u: string, d: Day, w: WaterLog)
    requires w.userId == u && w.date == d
    ensures LoadData(water + [w], exercise, u, d)
            == LoadData(water, exercise, u, d).(waterIntake := LoadData(water, exercise, u, d).waterIntake + w.amount)
  {
    Storage.SavedWaterTotal(water, w, u, d);
  }

  /** Resetting water takes the day's latest glass off the intake; with
      nothing logged that day the intake stays as it was. */
  lemma ResetWaterLowersIntake(water: seq<WaterLog>, exercise: seq<ExerciseLog>, u: string, d: Day)
    ensures var before := LoadData(water, exercise, u, d);
            var after := LoadData(Storage.RemoveLatest(water, u, d), exercise, u, d);
            && after.exerciseLogs == before.exerciseLogs
            && (Storage.LastMatch(water, u, d).None? ==> after == before)
            && (Storage.LastMatch(water, u, d).Some? ==>
                  after.waterIntake == before.waterIntake - water[Storage.LastMatch(water, u, d).value].amount)
  {
    Storage.RemoveLatestShape(water, u, d);
    if Storage.LastMatch(water, u, d).Some? {
      Storage.RemoveLatestTotal(water, u, d);
    }
  }

  /** Logging an exercise for the page's user and day raises the total burned
      by its calories; a log for another user or day leaves it unchanged. */
  lemma AddExerciseRaisesBurned(water: seq<WaterLog>, exercise: seq<ExerciseLog>, u: string, d: Day, e: ExerciseLog)
    ensures TotalBurned(LoadData(water, exercise + [e], u, d).exerciseLogs)
            == TotalBurned(LoadData(water, exercise, u, d).exerciseLogs)
               + (if e.userId == u && e.date == d then e.caloriesBurned else 0.0)
    ensures LoadData(water, exercise + [e], u, d).waterIntake == LoadData(water, exercise, u, d).waterIntake
  {
    Storage.SavedExerciseTotal(exercise, e, u, d);
  }
}
