/** src/data/foodDatabase.ts: the reference food table. Nutrition values are
    per base serving (`servingSize` `servingUnit`); `servingSize` is kept as
    the string the table stores. */
module FoodDatabase {
  import opened Wrappers
  import opened Text
  import Folds

  datatype FoodItem = FoodItem(
    id: string,
    name: string,
    category: string,
    calories: real,
    protein: real,
    carbs: real,
    fat: real,
    fiber: real,
    servingSize: string,
    servingUnit: string,
    saturatedFat: Option<real>,
    sodium: Option<real>,
    cholesterol: Option<real>,
    potassium: Option<real>,
    calcium: Option<real>,
    iron: Option<real>,
    vitaminA: Option<real>,
    vitaminC: Option<real>)

  /** The category filter offered to the user, with the pseudo-category "All" first. */
  const Categories: seq<string> := [
    "All", "Grains", "Protein", "Indian Breakfast", "Indian Main", "Dairy", "Fruits",
    "Vegetables", "Snacks", "Fast Food", "Beverages", "Spices", "Ingredients"]

  /** The base units the table uses. */
  const ServingUnits: seq<string> := ["g", "ml", "piece", "slice", "plate", "serving"]

  /** A slice of the table: rows copied as they stand, covering every category
      and every serving unit. */
  const Foods: seq<FoodItem> := [
    // line 26
    FoodItem("b1", "White Bread", "Grains", 265.0, 9.0, 49.0, 3.0, 2.7, "100", "g",
             None, Some(490.0), None, Some(100.0), Some(100.0), Some(3.0), Some(0.0), Some(0.0)),
    // line 30
    FoodItem("b5", "Pav (Indian Bread Roll)", "Grains", 280.0, 8.0, 55.0, 3.0, 2.0, "1", "piece",
             None, Some(300.0), None, Some(90.0), Some(50.0), Some(2.0), Some(0.0), Some(0.0)),
    // line 32
    FoodItem("b7", "Oats (Rolled, Dry)", "Grains", 389.0, 16.9, 66.0, 6.9, 10.6, "100", "g",
             None, Some(2.0), None, Some(429.0), Some(54.0), Some(4.7), Some(0.0), Some(0.0)),
    // line 38
    FoodItem("p1", "Egg (Large, Whole)", "Protein", 72.0, 6.3, 0.4, 4.8, 0.0, "1", "piece",
             Some(1.6), Some(71.0), Some(186.0), Some(69.0), Some(28.0), Some(1.0), Some(80.0), Some(0.0)),
    // line 40
    FoodItem("p3", "Chicken Breast (Cooked, Skinless)", "Protein", 165.0, 31.0, 0.0, 3.6, 0.0, "100", "g",
             Some(1.0), Some(74.0), Some(85.0), Some(256.0), Some(15.0), Some(1.0), Some(5.0), Some(0.0)),
    // line 47
    FoodItem("p10", "Whey Protein Isolate", "Protein", 120.0, 25.0, 2.0, 1.0, 0.0, "30", "g",
             Some(0.5), Some(50.0), Some(5.0), Some(150.0), Some(100.0), Some(0.5), Some(0.0), Some(0.0)),
    // line 50
    FoodItem("ib1", "Idli (Medium)", "Indian Breakfast", 39.0, 1.0, 8.0, 0.1, 0.5, "1", "piece",
             None, Some(5.0), None, Some(30.0), Some(5.0), Some(0.5), Some(0.0), Some(0.0)),
    // line 59
    FoodItem("ib10", "Vada (Medu Vada)", "Snacks", 97.0, 3.0, 8.0, 6.0, 1.0, "1", "piece",
             None, Some(110.0), None, Some(60.0), Some(15.0), Some(1.0), Some(0.0), Some(0.0)),
    // line 62
    FoodItem("im1", "Dal Tadka", "Indian Main", 120.0, 7.0, 18.0, 3.0, 6.0, "100", "g",
             None, Some(320.0), None, Some(280.0), Some(30.0), Some(2.5), Some(20.0), Some(5.0)),
    // line 71
    FoodItem("im10", "Mutton Biryani", "Indian Main", 450.0, 20.0, 55.0, 16.0, 3.0, "1", "plate",
             Some(5.0), Some(600.0), Some(80.0), Some(300.0), Some(50.0), Some(3.5), Some(40.0), Some(5.0)),
    // line 95
    FoodItem("sf8", "Pizza (Margherita Slice)", "Fast Food", 250.0, 10.0, 30.0, 10.0, 2.0, "1", "slice",
             Some(4.0), Some(550.0), None, Some(150.0), Some(150.0), Some(2.0), Some(100.0), Some(5.0)),
    // line 97
    FoodItem("sf10", "French Fries (Large)", "Fast Food", 450.0, 5.0, 60.0, 22.0, 6.0, "1", "serving",
             Some(4.0), Some(350.0), None, Some(800.0), Some(20.0), Some(1.5), Some(0.0), Some(15.0)),
    // line 102
    FoodItem("bv2", "Coca Cola (Can)", "Beverages", 139.0, 0.0, 35.0, 0.0, 0.0, "330", "ml",
             None, Some(35.0), None, Some(5.0), Some(5.0), Some(0.0), Some(0.0), Some(0.0)),
    // line 116
    FoodItem("d1", "Milk (Cow, Whole)", "Dairy", 60.0, 3.2, 4.8, 3.2, 0.0, "100", "ml",
             Some(1.9), Some(50.0), None, Some(150.0), Some(120.0), Some(0.03), Some(46.0), Some(0.0)),
    // line 123
    FoodItem("f1", "Apple (with skin)", "Fruits", 52.0, 0.3, 14.0, 0.2, 2.4, "100", "g",
             Some(0.0), Some(1.0), None, Some(107.0), Some(6.0), Some(0.12), Some(3.0), Some(4.6)),
    // line 139
    FoodItem("v1", "Broccoli (Raw)", "Vegetables", 34.0, 2.8, 7.0, 0.4, 2.6, "100", "g",
             Some(0.0), Some(33.0), None, Some(316.0), Some(47.0), Some(0.73), Some(31.0), Some(89.0)),
    // line 157
    FoodItem("sp1", "Turmeric Powder", "Spices", 312.0, 7.8, 65.0, 3.2, 21.0, "100", "g",
             Some(3.1), Some(38.0), None, Some(2525.0), Some(183.0), Some(41.0), Some(0.0), Some(25.0)),
    // line 161
    FoodItem("sp5", "Sugar", "Ingredients", 387.0, 0.0, 100.0, 0.0, 0.0, "100", "g",
             Some(0.0), Some(0.0), None, Some(0.0), Some(0.0), Some(0.0), Some(0.0), Some(0.0)),
    // line 164
    FoodItem("ns1", "Almonds", "Snacks", 579.0, 21.0, 22.0, 50.0, 12.5, "100", "g",
             Some(3.8), Some(1.0), None, Some(733.0), Some(269.0), Some(3.7), Some(0.0), Some(0.0))
  ]

  predicate NonNegativeOpt(o: Option<real>) {
    o.None? || o.value >= 0.0
  }

  /** What every row of the table satisfies. */
  predicate WellFormedItem(f: FoodItem) {
    && f.category in Categories && f.category != "All"
    && f.servingUnit in ServingUnits
    && IsPositiveNumeral(f.servingSize)
    && f.calories >= 0.0 && f.protein >= 0.0 && f.carbs >= 0.0 && f.fat >= 0.0 && f.fiber >= 0.0
    && NonNegativeOpt(f.saturatedFat) && NonNegativeOpt(f.sodium) && NonNegativeOpt(f.cholesterol)
    && NonNegativeOpt(f.potassium) && NonNegativeOpt(f.calcium) && NonNegativeOpt(f.iron)
    && NonNegativeOpt(f.vitaminA) && NonNegativeOpt(f.vitaminC)
  }

  function Ids(foods: seq<FoodItem>): (r: seq<string>)
    ensures |r| == |foods| && forall i :: 0 <= i < |foods| ==> r[i] == foods[i].id
  {
    seq(|foods|, i requires 0 <= i < |foods| => foods[i].id)
  }

  /** The ids are distinct. */
  lemma FoodIdsDistinct()
    ensures Folds.NoDuplicates(Ids(Foods))
  {
  }

  /** Every row is well formed. */
  lemma FoodRowsWellFormed()
    ensures forall i :: 0 <= i < |Foods| ==> WellFormedItem(Foods[i])
  {
    forall i | 0 <= i < |Foods|
      ensures WellFormedItem(Foods[i])
    {
      RowWellFormed(i);
    }
  }

  /** One row at a time. */
  lemma RowWellFormed(i: nat)
    requires i < |Foods|
    ensures WellFormedItem(Foods[i])
  {
    RowLabels(i);
    RowNumeral(i);
    RowAmounts(i);
  }

  lemma RowAmounts(i: nat)
    requires i < |Foods|
    ensures var f := Foods[i];
            && f.calories >= 0.0 && f.protein >= 0.0 && f.carbs >= 0.0 && f.fat >= 0.0 && f.fiber >= 0.0
            && NonNegativeOpt(f.saturatedFat) && NonNegativeOpt(f.sodium) && NonNegativeOpt(f.cholesterol)
            && NonNegativeOpt(f.potassium) && NonNegativeOpt(f.calcium) && NonNegativeOpt(f.iron)
            && NonNegativeOpt(f.vitaminA) && NonNegativeOpt(f.vitaminC)
  {
    if i < 10 {
      RowAmountsBelow(i, 10);
    } else {
      RowAmountsBelow(i, |Foods|);
    }
  }

  /** `RowAmounts` for the rows from `hi - 10` up to `hi`, so that each proof
      looks at no more than ten rows. */
  lemma RowAmountsBelow(i: nat, hi: nat)
    requires hi == 10 || hi == |Foods|
    requires hi - 10 <= i < hi
    ensures var f := Foods[i];
            && f.calories >= 0.0 && f.protein >= 0.0 && f.carbs >= 0.0 && f.fat >= 0.0 && f.fiber >= 0.0
            && NonNegativeOpt(f.saturatedFat) && NonNegativeOpt(f.sodium) && NonNegativeOpt(f.cholesterol)
            && NonNegativeOpt(f.potassium) && NonNegativeOpt(f.calcium) && NonNegativeOpt(f.iron)
            && NonNegativeOpt(f.vitaminA) && NonNegativeOpt(f.vitaminC)
  {
  }

  lemma RowLabels(i: nat)
    requires i < |Foods|
    ensures Foods[i].category in Categories && Foods[i].category != "All"
    ensures Foods[i].servingUnit in ServingUnits
  {
  }

  lemma RowNumeral(i: nat)
    requires i < |Foods|
    ensures IsPositiveNumeral(Foods[i].servingSize)
  {
  }


  /** Every base serving size in the table parses to a positive number. */
  lemma BaseSizesPositive(f: FoodItem)
    requires f in Foods
    ensures ParseFloat(f.servingSize).Some? && ParseFloat(f.servingSize).value > 0.0
  {
    FoodRowsWellFormed();
    ParsePositiveNumeral(f.servingSize);
  }
}
