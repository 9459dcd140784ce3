/** src/utils/storage.ts, local collections only: the four log lists kept in
    the browser's storage, held here by a class whose methods append, delete
    and splice them, and the getters, which are filter/map/sort pipelines
    over a stored list and so are functions of it. */
module Storage {
  import opened Wrappers
  import opened Types
  import opened Folds

  // ---------------------------------------------------------------------------
  // Field readers and sort keys

  function FoodId(l: FoodLog): string { l.id }
  function FoodUserId(l: FoodLog): string { l.userId }
  function FoodDate(l: FoodLog): Day { l.date }
  function WaterUserId(l: WaterLog): string { l.userId }
  function WaterDate(l: WaterLog): Day { l.date }
  function WeightUserId(l: WeightLog): string { l.userId }
  function ExerciseId(l: ExerciseLog): string { l.id }
  function ExerciseUserId(l: ExerciseLog): string { l.userId }
  function ExerciseDate(l: ExerciseLog): Day { l.date }

  /** The instant a food log was taken (its date and time), in minutes. */
  function FoodInstant(l: FoodLog): int { l.date * 1440 + l.time }
  function ExerciseInstant(l: ExerciseLog): int { l.date * 1440 + l.time }
  function WeightInstant(l: WeightLog): int { l.date }

  // ---------------------------------------------------------------------------
  // Selection by user and by date

  function UserIs<T>(userOf: T -> string, u: string): T -> bool {
    (l: T) => userOf(l) == u
  }

  function DateIs<T>(dateOf: T -> Day, d: Day): T -> bool {
    (l: T) => dateOf(l) == d
  }

  /** What a getter keeps: the user's entries, and only those of the date when
      one is given. */
  function Selection<T>(userOf: T -> string, dateOf: T -> Day, u: string, date: Option<Day>): T -> bool {
    (l: T) => userOf(l) == u && (date.None? || dateOf(l) == date.value)
  }

  /** What the selection asks of one entry. */
  lemma SelectionHolds<T>(userOf: T -> string, dateOf: T -> Day, u: string, date: Option<Day>, l: T)
    ensures Selection(userOf, dateOf, u, date)(l) <==> userOf(l) == u && (date.None? || dateOf(l) == date.value)
  {
  }

  /** `allLogs.filter(log => log.userId === userId)`. */
  function OfUser<T>(logs: seq<T>, userOf: T -> string, u: string): seq<T> {
    Filter(logs, UserIs(userOf, u))
  }

  lemma OfUserMembership<T>(logs: seq<T>, userOf: T -> string, u: string, x: T)
    ensures x in OfUser(logs, userOf, u) <==> x in logs && userOf(x) == u
  {
    FilterMembership(logs, UserIs(userOf, u), x);
  }

  /** `if (date) userLogs = userLogs.filter(log => log.date === date)`. */
  function OnDate<T>(logs: seq<T>, dateOf: T -> Day, date: Option<Day>): seq<T> {
    match date
    case None => logs
    case Some(d) => Filter(logs, DateIs(dateOf, d))
  }

  /** The two filters in a row are one filter by the selection. */
  lemma SelectionIsOneFilter<T>(logs: seq<T>, userOf: T -> string, dateOf: T -> Day, u: string, date: Option<Day>)
    ensures OnDate(OfUser(logs, userOf, u), dateOf, date) == Filter(logs, Selection(userOf, dateOf, u, date))
  {
    match date
    case None =>
      FilterExt(logs, UserIs(userOf, u), Selection(userOf, dateOf, u, date));
    case Some(d) =>
      FilterThen(logs, UserIs(userOf, u), DateIs(dateOf, d), Selection(userOf, dateOf, u, date));
  }

  // ---------------------------------------------------------------------------
  // Getters

  /** `getLoggedDates`: the dates of the user's food logs, each once. */
  function GetLoggedDates(food: seq<FoodLog>, u: string): seq<Day> {
    Dedup(Map(OfUser(food, FoodUserId, u), FoodDate))
  }

  /** The logged dates are distinct, and are exactly the dates on which the
      user has a food log. */
  lemma LoggedDatesSpec(food: seq<FoodLog>, u: string)
    ensures NoDuplicates(GetLoggedDates(food, u))
    ensures forall d :: d in GetLoggedDates(food, u) <==> exists l :: l in food && l.userId == u && l.date == d
  {
    var mine := OfUser(food, FoodUserId, u);
    var dates := Map(mine, FoodDate);
    DedupSpec(dates);
    forall d
      ensures d in dates <==> exists l :: l in food && l.userId == u && l.date == d
    {
      if d in dates {
        var i :| 0 <= i < |dates| && dates[i] == d;
        OfUserMembership(food, FoodUserId, u, mine[i]);
      }
      if exists l :: l in food && l.userId == u && l.date == d {
        var l :| l in food && l.userId == u && l.date == d;
        OfUserMembership(food, FoodUserId, u, l);
        assert l in mine;
        var i :| 0 <= i < |mine| && mine[i] == l;
        assert dates[i] == d;
      }
    }
  }

  /** `getFoodLogs`: the user's logs (of the date, when given), newest first. */
  function GetFoodLogs(food: seq<FoodLog>, u: string, date: Option<Day>): seq<FoodLog> {
    SortDesc(OnDate(OfUser(food, FoodUserId, u), FoodDate, date), FoodInstant)
  }

  /** The food getter returns every selected log as often as it is stored,
      nothing else, newest first. */
  lemma FoodLogsSpec(food: seq<FoodLog>, u: string, date: Option<Day>)
    ensures SortedDesc(GetFoodLogs(food, u, date), FoodInstant)
    ensures forall l :: multiset(GetFoodLogs(food, u, date))[l]
                        == if l.userId == u && (date.None? || l.date == date.value) then multiset(food)[l] else 0
  {
    forall l
      ensures multiset(GetFoodLogs(food, u, date))[l]
              == if l.userId == u && (date.None? || l.date == date.value) then multiset(food)[l] else 0
    {
      SelectedMultiplicity(food, FoodUserId, FoodDate, u, date, l);
    }
  }

  /** Selecting by user and date keeps each selected entry as often as it
      occurs, and no other. */
  lemma SelectedMultiplicity<T>(logs: seq<T>, userOf: T -> string, dateOf: T -> Day, u: string, date: Option<Day>, x: T)
    ensures multiset(OnDate(OfUser(logs, userOf, u), dateOf, date))[x]
            == if userOf(x) == u && (date.None? || dateOf(x) == date.value) then multiset(logs)[x] else 0
  {
    SelectionIsOneFilter(logs, userOf, dateOf, u, date);
    FilterMultiplicity(logs, Selection(userOf, dateOf, u, date), x);
  }

  /** `getWaterLogs`: the user's water logs (of the date, when given), in the
      order they were stored. */
  function GetWaterLogs(water: seq<WaterLog>, u: string, date: Option<Day>): seq<WaterLog> {
    OnDate(OfUser(water, WaterUserId, u), WaterDate, date)
  }

  /** The water getter is the stored list with the unselected entries taken
      out, so the stored order is kept; a log is returned exactly when it is
      stored and selected. */
  lemma WaterLogsSpec(water: seq<WaterLog>, u: string, date: Option<Day>, w: WaterLog)
    ensures GetWaterLogs(water, u, date) == Filter(water, Selection(WaterUserId, WaterDate, u, date))
    ensures w in GetWaterLogs(water, u, date) <==>
              w in water && w.userId == u && (date.None? || w.date == date.value)
  {
    SelectionIsOneFilter(water, WaterUserId, WaterDate, u, date);
    FilterMembership(water, Selection(WaterUserId, WaterDate, u, date), w);
  }

  /** `getTotalWaterForDate`. */
  function GetTotalWaterForDate(water: seq<WaterLog>, u: string, d: Day): real {
    Sum(GetWaterLogs(water, u, Some(d)), WaterAmount)
  }

  /** `getWeightLogs`: the user's weight logs, newest first. */
  function GetWeightLogs(weights: seq<WeightLog>, u: string): seq<WeightLog> {
    SortDesc(OfUser(weights, WeightUserId, u), WeightInstant)
  }

  /** `getLatestWeight`: the first of them, or nothing. */
  function GetLatestWeight(weights: seq<WeightLog>, u: string): Option<WeightLog> {
    var logs := GetWeightLogs(weights, u);
    if |logs| > 0 then Some(logs[0]) else None
  }

  /** There is a latest weight exactly when the user has a weight log; it is
      one of the user's logs and none of them is more recent. */
  lemma LatestWeightSpec(weights: seq<WeightLog>, u: string)
    ensures GetLatestWeight(weights, u).None? <==> forall l :: l in weights ==> l.userId != u
    ensures GetLatestWeight(weights, u).Some? ==>
              var w := GetLatestWeight(weights, u).value;
              w in weights && w.userId == u
              && forall l :: l in weights && l.userId == u ==> l.date <= w.date
  {
    var mine := OfUser(weights, WeightUserId, u);
    forall l
      ensures l in GetWeightLogs(weights, u) <==> l in weights && l.userId == u
    {
      SortDescMembership(mine, WeightInstant, l);
      OfUserMembership(weights, WeightUserId, u, l);
    }
    if exists l :: l in weights && l.userId == u {
      var l :| l in weights && l.userId == u;
      assert l in mine by {
        OfUserMembership(weights, WeightUserId, u, l);
      }
      SortDescHead(mine, WeightInstant, l);
      forall l' | l' in weights && l'.userId == u
        ensures l'.date <= GetLatestWeight(weights, u).value.date
      {
        OfUserMembership(weights, WeightUserId, u, l');
        SortDescHead(mine, WeightInstant, l');
      }
    }
  }

  /** `getExerciseLogs`: the user's exercise logs (of the date, when given),
      newest first. */
  function GetExerciseLogs(exercise: seq<ExerciseLog>, u: string, date: Option<Day>): seq<ExerciseLog> {
    SortDesc(OnDate(OfUser(exercise, ExerciseUserId, u), ExerciseDate, date), ExerciseInstant)
  }

  /** The exercise getter returns every selected log as often as it is
      stored, nothing else, newest first. */
  lemma ExerciseLogsSpec(exercise: seq<ExerciseLog>, u: string, date: Option<Day>)
    ensures SortedDesc(GetExerciseLogs(exercise, u, date), ExerciseInstant)
    ensures forall l :: multiset(GetExerciseLogs(exercise, u, date))[l]
                        == if l.userId == u && (date.None? || l.date == date.value) then multiset(exercise)[l] else 0
  {
    forall l
      ensures multiset(GetExerciseLogs(exercise, u, date))[l]
              == if l.userId == u && (date.None? || l.date == date.value) then multiset(exercise)[l] else 0
    {
      SelectedMultiplicity(exercise, ExerciseUserId, ExerciseDate, u, date, l);
    }
  }

  /** `getTotalCaloriesBurnedForDate`. */
  function GetTotalCaloriesBurnedForDate(exercise: seq<ExerciseLog>, u: string, d: Day): real {
    Sum(GetExerciseLogs(exercise, u, Some(d)), ExerciseBurned)
  }

  /** The burned total is the sum over the stored logs of that user and day,
      whatever order the getter puts them in. */
  lemma TotalBurnedIsFilteredSum(exercise: seq<ExerciseLog>, u: string, d: Day)
    ensures GetTotalCaloriesBurnedForDate(exercise, u, d)
            == Sum(Filter(exercise, Selection(ExerciseUserId, ExerciseDate, u, Some(d))), ExerciseBurned)
  {
    SelectionIsOneFilter(exercise, ExerciseUserId, ExerciseDate, u, Some(d));
    SumPermutation(GetExerciseLogs(exercise, u, Some(d)),
                   OnDate(OfUser(exercise, ExerciseUserId, u), ExerciseDate, Some(d)), ExerciseBurned);
  }

  // ---------------------------------------------------------------------------
  // Deletion by id and removal of the latest water log

  /** `logs.filter(log => log.id !== logId)`. */
  function DropId<T>(logs: seq<T>, idOf: T -> string, id: string): (r: seq<T>)
    ensures forall i :: 0 <= i < |r| ==> idOf(r[i]) != id
  {
    Filter(logs, (l: T) => idOf(l) != id)
  }

  /** Deleting keeps exactly the entries with another id, in order; it does
      nothing when the id is absent, and deleting twice is deleting once. */
  lemma DropIdSpec<T>(logs: seq<T>, idOf: T -> string, id: string, x: T)
    ensures x in DropId(logs, idOf, id) <==> x in logs && idOf(x) != id
    ensures (forall i :: 0 <= i < |logs| ==> idOf(logs[i]) != id) ==> DropId(logs, idOf, id) == logs
    ensures DropId(DropId(logs, idOf, id), idOf, id) == DropId(logs, idOf, id)
  {
    var p := (l: T) => idOf(l) != id;
    FilterMembership(logs, p, x);
    if forall i :: 0 <= i < |logs| ==> idOf(logs[i]) != id {
      FilterKeepsAll(logs, p);
    }
    FilterIdempotent(logs, p);
  }

  predicate WaterMatch(l: WaterLog, u: string, d: Day) {
    l.userId == u && l.date == d
  }

  /** The index of the last water log of user `u` on day `d`, if any. */
  function LastMatch(water: seq<WaterLog>, u: string, d: Day): (r: Option<nat>)
    ensures r.Some? ==> r.value < |water| && WaterMatch(water[r.value], u, d)
    ensures r.Some? ==> forall j :: r.value < j < |water| ==> !WaterMatch(water[j], u, d)
    ensures r.None? ==> forall j :: 0 <= j < |water| ==> !WaterMatch(water[j], u, d)
  {
    if |water| == 0 then None
    else if WaterMatch(water[|water| - 1], u, d) then Some(|water| - 1)
    else LastMatch(water[..|water| - 1], u, d)
  }

  /** `[...allLogs].reverse().findIndex(...)`: the position of the last
      matching log counted from the end, or -1. */
  method FindIndexReversed(water: seq<WaterLog>, u: string, d: Day) returns (index: int)
    ensures LastMatch(water, u, d).None? ==> index == -1
    ensures LastMatch(water, u, d).Some? ==> index == |water| - 1 - LastMatch(water, u, d).value
  {
    index := 0;
    while index < |water|
      invariant 0 <= index <= |water|
      invariant forall j :: |water| - index <= j < |water| ==> !WaterMatch(water[j], u, d)
    {
      if WaterMatch(water[|water| - 1 - index], u, d) {
        return;
      }
      index := index + 1;
    }
    index := -1;
  }

  /** The water list after `removeLatestWaterLog(u, d)`. */
  function RemoveLatest(water: seq<WaterLog>, u: string, d: Day): seq<WaterLog> {
    match LastMatch(water, u, d)
    case None => water
    case Some(i) => water[..i] + water[i + 1..]
  }

  /** Where there is a latest entry, the list is the entries before it, the
      entry, and entries of other users or days after it; the removal keeps
      the entries around it. */
  lemma RemoveLatestSplit(water: seq<WaterLog>, u: string, d: Day)
    returns (a: seq<WaterLog>, x: WaterLog, b: seq<WaterLog>)
    requires LastMatch(water, u, d).Some?
    ensures water == a + [x] + b && x == water[LastMatch(water, u, d).value]
    ensures RemoveLatest(water, u, d) == a + b
    ensures WaterMatch(x, u, d) && forall j :: 0 <= j < |b| ==> !WaterMatch(b[j], u, d)
  {
    var i := LastMatch(water, u, d).value;
    a, x, b := water[..i], water[i], water[i + 1..];
    assert water == a + [x] + b;
    forall j | 0 <= j < |b|
      ensures !WaterMatch(b[j], u, d)
    {
      assert b[j] == water[i + 1 + j];
    }
  }

  /** Removing the latest water log of a day takes out exactly one entry,
      the last of that user and day; with none, the list is unchanged. */
  lemma RemoveLatestShape(water: seq<WaterLog>, u: string, d: Day)
    ensures LastMatch(water, u, d).None? ==> RemoveLatest(water, u, d) == water
    ensures LastMatch(water, u, d).Some? ==>
              var i := LastMatch(water, u, d).value;
              |RemoveLatest(water, u, d)| == |water| - 1
              && multiset(water) == multiset(RemoveLatest(water, u, d)) + multiset{water[i]}
  {
    var m := LastMatch(water, u, d);
    if m.Some? {
      var i := m.value;
      var a, x, b := water[..i], water[i], water[i + 1..];
      assert RemoveLatest(water, u, d) == a + b;
      assert water == a + [x] + b;
      assert multiset(water) == multiset(a) + multiset{x} + multiset(b);
    }
  }

  /** Taking out a matching log that no later log of the day follows
      shortens the day's list by its last element. */
  lemma DayWithoutLast(a: seq<WaterLog>, x: WaterLog, b: seq<WaterLog>, u: string, d: Day)
    requires WaterMatch(x, u, d)
    requires forall j :: 0 <= j < |b| ==> !WaterMatch(b[j], u, d)
    ensures var day := GetWaterLogs(a + [x] + b, u, Some(d));
            && |day| > 0 && day[|day| - 1] == x
            && GetWaterLogs(a + b, u, Some(d)) == day[..|day| - 1]
  {
    var sel := Selection(WaterUserId, WaterDate, u, Some(d));
    SelectionIsOneFilter(a + [x] + b, WaterUserId, WaterDate, u, Some(d));
    SelectionIsOneFilter(a + b, WaterUserId, WaterDate, u, Some(d));
    forall j | 0 <= j < |b|
      ensures !sel(b[j])
    {
      SelectionHolds(WaterUserId, WaterDate, u, Some(d), b[j]);
    }
    SelectionHolds(WaterUserId, WaterDate, u, Some(d), x);
    FilterLastKept(a, x, b, sel);
  }

  /** The removed entry is the newest of that day's list, and the list loses
      exactly that last element. */
  lemma RemoveLatestDay(water: seq<WaterLog>, u: string, d: Day)
    requires LastMatch(water, u, d).Some?
    ensures var day := GetWaterLogs(water, u, Some(d));
            && |day| > 0 && day[|day| - 1] == water[LastMatch(water, u, d).value]
            && GetWaterLogs(RemoveLatest(water, u, d), u, Some(d)) == day[..|day| - 1]
  {
    var a, x, b := RemoveLatestSplit(water, u, d);
    DayWithoutLast(a, x, b, u, d);
  }

  /** The day's total loses the amount of the removed entry. */
  lemma RemoveLatestTotal(water: seq<WaterLog>, u: string, d: Day)
    requires LastMatch(water, u, d).Some?
    ensures GetTotalWaterForDate(RemoveLatest(water, u, d), u, d)
            == GetTotalWaterForDate(water, u, d) - water[LastMatch(water, u, d).value].amount
  {
    RemoveLatestDay(water, u, d);
  }

  /** Every other user's and day's water list is left as it was. */
  lemma RemoveLatestOthers(water: seq<WaterLog>, u: string, d: Day, u': string, d': Day)
    requires u' != u || d' != d
    ensures GetWaterLogs(RemoveLatest(water, u, d), u', Some(d')) == GetWaterLogs(water, u', Some(d'))
  {
    if LastMatch(water, u, d).Some? {
      var a, x, b := RemoveLatestSplit(water, u, d);
      var sel' := Selection(WaterUserId, WaterDate, u', Some(d'));
      SelectionIsOneFilter(water, WaterUserId, WaterDate, u', Some(d'));
      SelectionIsOneFilter(a + b, WaterUserId, WaterDate, u', Some(d'));
      FilterSplice(a, x, b, sel');
      SelectionHolds(WaterUserId, WaterDate, u', Some(d'), x);
    }
  }

  // ---------------------------------------------------------------------------
  // The store

  /** The four stored collections. */
  class LogStore {
    var foodLogs: seq<FoodLog>
    var waterLogs: seq<WaterLog>
    var weightLogs: seq<WeightLog>
    var exerciseLogs: seq<ExerciseLog>

    /** Storage with nothing saved: every getter falls back to `[]`. */
    constructor ()
      ensures foodLogs == [] && waterLogs == [] && weightLogs == [] && exerciseLogs == []
    {
      foodLogs := [];
      waterLogs := [];
      weightLogs := [];
      exerciseLogs := [];
    }

    /** `saveFoodLog`: push onto the food list. */
    method SaveFoodLog(l: FoodLog)
      modifies this
      ensures foodLogs == old(foodLogs) + [l]
      ensures waterLogs == old(waterLogs) && weightLogs == old(weightLogs) && exerciseLogs == old(exerciseLogs)
    {
      foodLogs := foodLogs + [l];
    }

    /** `deleteFoodLog`: keep the food logs with another id. */
    method DeleteFoodLog(id: string)
      modifies this
      ensures foodLogs == DropId(old(foodLogs), FoodId, id)
      ensures waterLogs == old(waterLogs) && weightLogs == old(weightLogs) && exerciseLogs == old(exerciseLogs)
    {
      foodLogs := DropId(foodLogs, FoodId, id);
    }

    /** `saveWaterLog`. */
    method SaveWaterLog(l: WaterLog)
      modifies this
      ensures waterLogs == old(waterLogs) + [l]
      ensures foodLogs == old(foodLogs) && weightLogs == old(weightLogs) && exerciseLogs == old(exerciseLogs)
    {
      waterLogs := waterLogs + [l];
    }

    /** `removeLatestWaterLog`: find the last log of the user and day and
      splice it out. */
    method RemoveLatestWaterLog(u: string, d: Day)
      modifies this
      ensures waterLogs == RemoveLatest(old(waterLogs), u, d)
      ensures foodLogs == old(foodLogs) && weightLogs == old(weightLogs) && exerciseLogs == old(exerciseLogs)
    {
      var index := FindIndexReversed(waterLogs, u, d);
      if index != -1 {
        var actualIndex := |waterLogs| - 1 - index;
        waterLogs := waterLogs[..actualIndex] + waterLogs[actualIndex + 1..];
      }
    }

    /** `saveWeightLog`. */
    method SaveWeightLog(l: WeightLog)
      modifies this
      ensures weightLogs == old(weightLogs) + [l]
      ensures foodLogs == old(foodLogs) && waterLogs == old(waterLogs) && exerciseLogs == old(exerciseLogs)
    {
      weightLogs := weightLogs + [l];
    }

    /** `saveExerciseLog`. */
    method SaveExerciseLog(l: ExerciseLog)
      modifies this
      ensures exerciseLogs == old(exerciseLogs) + [l]
      ensures foodLogs == old(foodLogs) && waterLogs == old(waterLogs) && weightLogs == old(weightLogs)
    {
      exerciseLogs := exerciseLogs + [l];
    }

    /** `deleteExerciseLog`. */
    method DeleteExerciseLog(id: string)
      modifies this
      ensures exerciseLogs == DropId(old(exerciseLogs), ExerciseId, id)
      ensures foodLogs == old(foodLogs) && waterLogs == old(waterLogs) && weightLogs == old(weightLogs)
    {
      exerciseLogs := DropId(exerciseLogs, ExerciseId, id);
    }
  }

  // ---------------------------------------------------------------------------
  // Saving, seen through the getters

  /** A saved food log is listed for its user and day. */
  lemma SavedFoodIsListed(food: seq<FoodLog>, l: FoodLog)
    ensures l in GetFoodLogs(food + [l], l.userId, Some(l.date))
  {
    SelectedMultiplicity(food + [l], FoodUserId, FoodDate, l.userId, Some(l.date), l);
    FoodLogsSpec(food + [l], l.userId, Some(l.date));
    assert multiset(food + [l])[l] > 0;
    assert multiset(GetFoodLogs(food + [l], l.userId, Some(l.date)))[l] > 0;
  }

  /** A saved food log's date becomes one of its user's logged dates, and no
      other user's dates change. */
  lemma SavedFoodDates(food: seq<FoodLog>, l: FoodLog, u': string)
    ensures l.date in GetLoggedDates(food + [l], l.userId)
    ensures u' != l.userId ==> GetLoggedDates(food + [l], u') == GetLoggedDates(food, u')
  {
    LoggedDatesSpec(food + [l], l.userId);
    assert l in food + [l];
    if u' != l.userId {
      FilterAppend(food, [l], UserIs(FoodUserId, u'));
      assert [l][1..] == [];
      assert OfUser(food + [l], FoodUserId, u') == OfUser(food, FoodUserId, u');
    }
  }

  /** Saving a water log adds its amount to its user's total for its day and
      leaves every other total as it was. */
  lemma SavedWaterTotal(water: seq<WaterLog>, w: WaterLog, u: string, d: Day)
    ensures GetTotalWaterForDate(water + [w], u, d)
            == GetTotalWaterForDate(water, u, d) + (if w.userId == u && w.date == d then w.amount else 0.0)
  {
    var sel := Selection(WaterUserId, WaterDate, u, Some(d));
    SelectionIsOneFilter(water + [w], WaterUserId, WaterDate, u, Some(d));
    SelectionIsOneFilter(water, WaterUserId, WaterDate, u, Some(d));
    assert GetWaterLogs(water + [w], u, Some(d)) == Filter(water + [w], sel);
    assert GetWaterLogs(water, u, Some(d)) == Filter(water, sel);
    SumFilterSnoc(water, w, sel, WaterAmount);
    SelectionHolds(WaterUserId, WaterDate, u, Some(d), w);
  }

  /** Saving an exercise log adds its calories to its user's burned total for
      its day and leaves every other total as it was. */
  lemma SavedExerciseTotal(exercise: seq<ExerciseLog>, e: ExerciseLog, u: string, d: Day)
    ensures GetTotalCaloriesBurnedForDate(exercise + [e], u, d)
            == GetTotalCaloriesBurnedForDate(exercise, u, d)
               + (if e.userId == u && e.date == d then e.caloriesBurned else 0.0)
  {
    var sel := Selection(ExerciseUserId, ExerciseDate, u, Some(d));
    TotalBurnedIsFilteredSum(exercise + [e], u, d);
    TotalBurnedIsFilteredSum(exercise, u, d);
    SumFilterSnoc(exercise, e, sel, ExerciseBurned);
    SelectionHolds(ExerciseUserId, ExerciseDate, u, Some(d), e);
  }
}
