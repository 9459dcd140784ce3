/** src/components/FoodDiary.tsx: the serving-size converter, the food log the
    "add" button builds, the food search and the per-meal calorie sums. The
    form fields are the strings the user typed; the React state around them
    is not modelled. */
module FoodDiary {
  import opened Wrappers
  import opened Text
  import opened Types
  import opened Folds
  import opened FoodDatabase

  // ---------------------------------------------------------------------------
  // Unit classes

  /** The base units counted in pieces (compared after lower-casing). */
  const PieceUnits: seq<string> := ["piece", "slice", "plate", "serving", "unit"]

  predicate IsPieceUnit(u: string) {
    Lower(u) in PieceUnits
  }

  /** The units counted by mass or volume (compared as typed). */
  predicate IsMassUnit(u: string) {
    u == "g" || u == "ml"
  }

  /** No unit is in both classes. */
  lemma UnitClassesDisjoint(u: string)
    ensures !(IsPieceUnit(u) && IsMassUnit(u))
  {
    if u == "g" {
      assert Lower(u)[0] == 'g';
      assert Lower(u) == "g";
    } else if u == "ml" {
      assert Lower(u)[0] == 'm' && Lower(u)[1] == 'l';
      assert Lower(u) == "ml";
    }
  }

  // ---------------------------------------------------------------------------
  // The serving form

  /** The three text fields of the "add food" form. */
  datatype ServingForm = ServingForm(size: string, unit: string, servings: string)

  /** The unit the form shows for a base unit: piece-like units become "unit". */
  function ShownUnit(u: string): string {
    if IsPieceUnit(u) then "unit" else u
  }

  /** What the form holds right after a food is picked: its base size, its
      shown unit and one serving. */
  function SelectFood(f: FoodItem): ServingForm {
    ServingForm(f.servingSize, ShownUnit(f.servingUnit), "1")
  }

  /** The size ratio for a manual amount `m` of `manualUnit` against a base
      serving of `b` `baseUnit`, with one piece taken to weigh 100 g. */
  function UnitRatio(m: real, b: real, baseUnit: string, manualUnit: string): real
    requires b != 0.0
  {
    var basePiece := IsPieceUnit(baseUnit);
    var manualPiece := manualUnit == "unit";
    var manualMass := IsMassUnit(manualUnit);
    var baseMass := IsMassUnit(baseUnit);
    if (basePiece && manualPiece) || (baseMass && manualUnit == baseUnit) then m / b
    else if basePiece && manualMass then m / (b * 100.0)
    else if baseMass && manualPiece then (m * 100.0) / b
    else m / b
  }

  /** The ratio is `m / b` unless the two units are of different classes: a
      mass amount of a piece-based food divides by 100 more, a unit count of a
      mass-based food multiplies by 100. Every other pair, `ml` against `g`
      and `cup` included, compares the bare numbers. */
  lemma UnitRatioClasses(m: real, b: real, baseUnit: string, manualUnit: string)
    requires b != 0.0
    ensures IsPieceUnit(baseUnit) && IsMassUnit(manualUnit) ==>
              UnitRatio(m, b, baseUnit, manualUnit) == m / (b * 100.0)
    ensures IsMassUnit(baseUnit) && manualUnit == "unit" ==>
              UnitRatio(m, b, baseUnit, manualUnit) == m * 100.0 / b
    ensures !(IsPieceUnit(baseUnit) && IsMassUnit(manualUnit))
            && !(IsMassUnit(baseUnit) && manualUnit == "unit") ==>
              UnitRatio(m, b, baseUnit, manualUnit) == m / b
  {
    UnitClassesDisjoint(baseUnit);
    UnitClassesDisjoint(manualUnit);
  }

  /** The "one piece is 100 g" assumption is applied consistently: `100·k` g
      or ml and `k` units give the same ratio, whichever class the base is. */
  lemma PieceWeighsHundredGrams(k: real, b: real, baseUnit: string, massUnit: string)
    requires b != 0.0 && IsMassUnit(massUnit)
    requires IsPieceUnit(baseUnit) || baseUnit == massUnit
    ensures UnitRatio(100.0 * k, b, baseUnit, massUnit) == UnitRatio(k, b, baseUnit, "unit")
  {
    UnitRatioClasses(100.0 * k, b, baseUnit, massUnit);
    UnitRatioClasses(k, b, baseUnit, "unit");
    assert IsPieceUnit("unit") by {
      assert Lower("unit") == "unit";
    }
    UnitClassesDisjoint(baseUnit);
    if IsPieceUnit(baseUnit) {
      calc {
        UnitRatio(100.0 * k, b, baseUnit, massUnit);
        100.0 * k / (b * 100.0);
        { assert 100.0 * k == (b * 100.0) * (k / b); }
        k / b;
      }
    } else {
      calc {
        UnitRatio(k, b, baseUnit, "unit");
        k * 100.0 / b;
        100.0 * k / b;
      }
    }
  }

  /** `calculateSizeRatio`: 1 with nothing selected; otherwise the unit ratio
      of the typed size (0 when it does not parse or is 0) against the base
      size (1 when it does not parse or is 0), so the divisor is never 0. */
  function SizeRatio(selected: Option<FoodItem>, manualSize: string, manualUnit: string): real {
    match selected
    case None => 1.0
    case Some(f) =>
      UnitRatio(OrZero(ParseFloat(manualSize)), OrOne(ParseFloat(f.servingSize)), f.servingUnit, manualUnit)
  }

  /** With nothing selected the ratio is 1, whatever the form holds; with a
      selection and a size that does not parse, it is 0. */
  lemma SizeRatioDefaults(selected: Option<FoodItem>, manualSize: string, manualUnit: string)
    ensures selected.None? ==> SizeRatio(selected, manualSize, manualUnit) == 1.0
    ensures selected.Some? && ParseFloat(manualSize).None? ==>
              SizeRatio(selected, manualSize, manualUnit) == 0.0
  {
    if selected.Some? && ParseFloat(manualSize).None? {
      var f := selected.value;
      var b := OrOne(ParseFloat(f.servingSize));
      assert SizeRatio(selected, manualSize, manualUnit) == UnitRatio(0.0, b, f.servingUnit, manualUnit);
      UnitRatioOfZero(b, f.servingUnit, manualUnit);
    }
  }

  /** Nothing typed, nothing scaled. */
  lemma UnitRatioOfZero(b: real, baseUnit: string, manualUnit: string)
    requires b != 0.0
    ensures UnitRatio(0.0, b, baseUnit, manualUnit) == 0.0
  {
    UnitRatioClasses(0.0, b, baseUnit, manualUnit);
  }

  /** Picking a food and leaving the size and unit as filled in gives ratio 1
      exactly when the base size parses to a non-zero number, and 0 otherwise. */
  lemma UneditedSelectionRatio(f: FoodItem)
    ensures var p := ParseFloat(f.servingSize);
            SizeRatio(Some(f), SelectFood(f).size, SelectFood(f).unit)
              == if p.Some? && p.value != 0.0 then 1.0 else 0.0
  {
    var p := ParseFloat(f.servingSize);
    var b := OrOne(p);
    assert SizeRatio(Some(f), SelectFood(f).size, SelectFood(f).unit)
           == UnitRatio(OrZero(p), b, f.servingUnit, ShownUnit(f.servingUnit));
    if p.Some? && p.value != 0.0 {
      UnitRatioOfShownUnit(b, f.servingUnit);
    } else {
      UnitRatioOfZero(b, f.servingUnit, ShownUnit(f.servingUnit));
    }
  }

  /** The base amount in the unit the form shows for it is one base serving. */
  lemma UnitRatioOfShownUnit(b: real, baseUnit: string)
    requires b != 0.0
    ensures UnitRatio(b, b, baseUnit, ShownUnit(baseUnit)) == 1.0
  {
    assert IsPieceUnit("unit") by {
      assert Lower("unit") == "unit";
    }
    UnitClassesDisjoint(baseUnit);
    UnitRatioClasses(b, b, baseUnit, ShownUnit(baseUnit));
    assert UnitRatio(b, b, baseUnit, ShownUnit(baseUnit)) == b / b;
    assert (b / b) * b == b;
  }

  // ---------------------------------------------------------------------------
  // The food log built by "add"

  /** `Math.max(0, x)`. */
  function ClampZero(x: real): (r: real)
    ensures r >= 0.0 && r >= x
    ensures r == x || r == 0.0
  {
    if x > 0.0 then x else 0.0
  }

  /** An optional nutrient scaled by `k`, absent when the food has none. */
  function ScaleOpt(o: Option<real>, k: real): (r: Option<real>)
    ensures r.Some? <==> o.Some?
    ensures o.Some? ==> r.value == o.value * k
  {
    match o
    case None => None
    case Some(v) => Some(v * k)
  }

  /** The log of `servings` servings of `f` scaled by `k` (size ratio times
      servings): the five main nutrients are `Math.max(0, x * k)`, the others
      `x * k` when the food has them, and the three fat subtypes the table
      does not carry are left out. */
  function ScaledLog(f: FoodItem, k: real, servings: real, mealType: MealType,
                     id: string, userId: string, date: Day, time: int): (l: FoodLog)
    ensures l.foodId == f.id && l.foodName == f.name && l.mealType == mealType
    ensures l.id == id && l.userId == userId && l.date == date && l.time == time
    ensures l.servings == servings
    ensures l.calories >= 0.0 && l.protein >= 0.0 && l.carbs >= 0.0 && l.fat >= 0.0 && l.fiber >= 0.0
    ensures l.calories == ClampZero(f.calories * k) && l.protein == ClampZero(f.protein * k)
    ensures l.carbs == ClampZero(f.carbs * k) && l.fat == ClampZero(f.fat * k)
    ensures l.fiber == ClampZero(f.fiber * k)
    ensures l.saturatedFat.Some? <==> f.saturatedFat.Some?
    ensures l.sodium.Some? <==> f.sodium.Some?
    ensures l.cholesterol.Some? <==> f.cholesterol.Some?
    ensures l.potassium.Some? <==> f.potassium.Some?
    ensures l.calcium.Some? <==> f.calcium.Some?
    ensures l.iron.Some? <==> f.iron.Some?
    ensures l.vitaminA.Some? <==> f.vitaminA.Some?
    ensures l.vitaminC.Some? <==> f.vitaminC.Some?
    ensures f.saturatedFat.Some? ==> l.saturatedFat.value == f.saturatedFat.value * k
    ensures f.sodium.Some? ==> l.sodium.value == f.sodium.value * k
    ensures f.cholesterol.Some? ==> l.cholesterol.value == f.cholesterol.value * k
    ensures f.potassium.Some? ==> l.potassium.value == f.potassium.value * k
    ensures f.calcium.Some? ==> l.calcium.value == f.calcium.value * k
    ensures f.iron.Some? ==> l.iron.value == f.iron.value * k
    ensures f.vitaminA.Some? ==> l.vitaminA.value == f.vitaminA.value * k
    ensures f.vitaminC.Some? ==> l.vitaminC.value == f.vitaminC.value * k
    ensures l.polyunsaturatedFat.None? && l.monounsaturatedFat.None? && l.transFat.None?
  {
    FoodLog(
      id, userId, f.id, f.name, mealType, servings,
      ClampZero(f.calories * k),
      ClampZero(f.protein * k),
      ClampZero(f.carbs * k),
      ClampZero(f.fat * k),
      ClampZero(f.fiber * k),
      ScaleOpt(f.saturatedFat, k),
      None, None, None,
      ScaleOpt(f.cholesterol, k),
      ScaleOpt(f.sodium, k),
      ScaleOpt(f.potassium, k),
      ScaleOpt(f.vitaminA, k),
      ScaleOpt(f.vitaminC, k),
      ScaleOpt(f.calcium, k),
      ScaleOpt(f.iron, k),
      date, time)
  }

  /** `l` carries the amounts of `f` scaled by `k`: each main nutrient is
      `Math.max(0, x * k)` and each micronutrient the food has is `x * k`. */
  predicate ScaledBy(l: FoodLog, f: FoodItem, k: real) {
    && l.calories == ClampZero(f.calories * k) && l.protein == ClampZero(f.protein * k)
    && l.carbs == ClampZero(f.carbs * k) && l.fat == ClampZero(f.fat * k)
    && l.fiber == ClampZero(f.fiber * k)
    && l.saturatedFat == ScaleOpt(f.saturatedFat, k) && l.sodium == ScaleOpt(f.sodium, k)
    && l.cholesterol == ScaleOpt(f.cholesterol, k) && l.potassium == ScaleOpt(f.potassium, k)
    && l.vitaminA == ScaleOpt(f.vitaminA, k) && l.vitaminC == ScaleOpt(f.vitaminC, k)
    && l.calcium == ScaleOpt(f.calcium, k) && l.iron == ScaleOpt(f.iron, k)
  }

  /** The log "add" builds from the size ratio and the servings: the source's
      `x * sizeRatio * servings`, clamped at 0 for the main nutrients. */
  function AddedLog(f: FoodItem, ratio: real, servings: real, mealType: MealType,
                    id: string, userId: string, date: Day, time: int): (l: FoodLog)
    ensures l.servings == servings
    ensures ScaledBy(l, f, ratio * servings)
  {
    ScaledLog(f, ratio * servings, servings, mealType, id, userId, date, time)
  }

  /** `handleAddFood`: nothing without a selection; otherwise the log of the
      selected food, scaled by the size ratio times the servings, with the
      servings 1 when the field does not parse or is 0. */
  function AddFood(selected: Option<FoodItem>, form: ServingForm, mealType: MealType,
                   id: string, userId: string, date: Day, time: int): (r: Option<FoodLog>)
    ensures r.Some? <==> selected.Some?
    ensures r.Some? ==> r.value.servings != 0.0 && r.value.mealType == mealType
    ensures r.Some? ==> r.value.foodId == selected.value.id
    ensures r.Some? ==> r.value.servings == OrOne(ParseFloat(form.servings))
  {
    match selected
    case None => None
    case Some(f) =>
      var servings := OrOne(ParseFloat(form.servings));
      Some(AddedLog(f, SizeRatio(selected, form.size, form.unit), servings, mealType, id, userId, date, time))
  }

  /** For a selected food, "add" logs `AddedLog` of the form's size ratio
      and of its servings `|| 1`, so every amount is `Math.max(0, x * k)` or
      `x * k` at `k = sizeRatio * servings`, by `AddedLog`'s contract. */
  lemma AddFoodScales(f: FoodItem, form: ServingForm, mealType: MealType,
                      id: string, userId: string, date: Day, time: int)
    ensures AddFood(Some(f), form, mealType, id, userId, date, time)
              == Some(AddedLog(f, SizeRatio(Some(f), form.size, form.unit), OrOne(ParseFloat(form.servings)),
                               mealType, id, userId, date, time))
  {
  }

  /** Picking a well-formed food (every row of the table is one, by
      `FoodRowsWellFormed`) and pressing "add" without editing the form logs
      the row's nutrition exactly, as one serving. */
  lemma UneditedAddCopiesRow(f: FoodItem, mealType: MealType,
                             id: string, userId: string, date: Day, time: int)
    requires WellFormedItem(f)
    ensures var o := AddFood(Some(f), SelectFood(f), mealType, id, userId, date, time);
            && o.Some?
            && o.value.servings == 1.0
            && o.value.calories == f.calories && o.value.protein == f.protein
            && o.value.carbs == f.carbs && o.value.fat == f.fat && o.value.fiber == f.fiber
            && o.value.saturatedFat == f.saturatedFat && o.value.sodium == f.sodium
            && o.value.cholesterol == f.cholesterol && o.value.potassium == f.potassium
            && o.value.calcium == f.calcium && o.value.iron == f.iron
            && o.value.vitaminA == f.vitaminA && o.value.vitaminC == f.vitaminC
  {
    ParsePositiveNumeral(f.servingSize);
    UneditedSelectionRatio(f);
    assert ParseFloat("1") == Some(1.0) by {
      ParsePositiveNumeral("1");
    }
    var l := AddedLog(f, 1.0, 1.0, mealType, id, userId, date, time);
    assert AddFood(Some(f), SelectFood(f), mealType, id, userId, date, time) == Some(l);
  }

  // ---------------------------------------------------------------------------
  // The food search

  /** The search and category test of one food. */
  function MatchesFood(query: string, category: string): FoodItem -> bool {
    (f: FoodItem) => Contains(Lower(f.name), Lower(query)) && (category == "All" || f.category == category)
  }

  /** `filteredFoods`. */
  function FilteredFoods(foods: seq<FoodItem>, query: string, category: string): seq<FoodItem> {
    Filter(foods, MatchesFood(query, category))
  }

  /** A food is listed exactly when its lower-cased name contains the
      lower-cased query and the category is "All" or its own. */
  lemma FilteredFoodsMembership(foods: seq<FoodItem>, query: string, category: string, f: FoodItem)
    ensures f in FilteredFoods(foods, query, category) <==>
              f in foods && Contains(Lower(f.name), Lower(query)) && (category == "All" || f.category == category)
  {
    FilterMembership(foods, MatchesFood(query, category), f);
  }

  /** With an empty query and "All" selected the whole table is listed, in order. */
  lemma EmptySearchListsAll(foods: seq<FoodItem>)
    ensures FilteredFoods(foods, "", "All") == foods
  {
    forall i | 0 <= i < |foods|
      ensures MatchesFood("", "All")(foods[i])
    {
      assert Lower(foods[i].name)[..0] == Lower("");
    }
    FilterKeepsAll(foods, MatchesFood("", "All"));
  }

  // ---------------------------------------------------------------------------
  // Meal sections

  function IsMeal(m: MealType): FoodLog -> bool {
    (l: FoodLog) => l.mealType == m
  }

  /** `getMealLogs`. */
  function MealLogs(logs: seq<FoodLog>, m: MealType): (r: seq<FoodLog>)
    ensures forall i :: 0 <= i < |r| ==> r[i].mealType == m
  {
    Filter(logs, IsMeal(m))
  }

  /** `getMealCalories`. */
  function MealCalories(logs: seq<FoodLog>, m: MealType): real {
    Sum(MealLogs(logs, m), FoodCalories)
  }

  /** The four meal sections add up to the day's calories: every log is in
      exactly one of them. */
  lemma {:induction false} MealCaloriesPartition(logs: seq<FoodLog>)
    ensures MealCalories(logs, Breakfast) + MealCalories(logs, Lunch)
            + MealCalories(logs, Dinner) + MealCalories(logs, Snack)
            == Sum(logs, FoodCalories)
  {
    if |logs| > 0 {
      var init, last := logs[..|logs| - 1], logs[|logs| - 1];
      assert logs == init + [last];
      MealCaloriesPartition(init);
      MealCaloriesAppend(init, last, Breakfast);
      MealCaloriesAppend(init, last, Lunch);
      MealCaloriesAppend(init, last, Dinner);
      MealCaloriesAppend(init, last, Snack);
    }
  }

  /** A meal section sums only its own logs: appending a log of another meal
      leaves it unchanged, one of this meal adds its calories. */
  lemma MealCaloriesAppend(logs: seq<FoodLog>, l: FoodLog, m: MealType)
    ensures MealCalories(logs + [l], m)
            == MealCalories(logs, m) + (if l.mealType == m then l.calories else 0.0)
  {
    FilterAppend(logs, [l], IsMeal(m));
    SumAppend(MealLogs(logs, m), Filter([l], IsMeal(m)), FoodCalories);
    assert [l][1..] == [];
    if l.mealType == m {
      assert Filter([l], IsMeal(m)) == [l];
      assert [l][..0] == [];
    }
  }
}
