/** src/components/AIChat.tsx: the chef chat turns a line of ingredients into
    three fixed recipe suggestions, and logging a suggestion stores it as a
    food log of one serving. */
module AIChat {
  import opened Wrappers
  import opened Text
  import opened Types
  import opened Folds
  import Storage
  import Dashboard

  // ---------------------------------------------------------------------------
  // Patterns that do not occur

  /** `p` occurs in `s` at offset `i`. */
  predicate OccursAt(s: string, p: string, i: nat) {
    i + |p| <= |s| && forall j :: 0 <= j < |p| ==> s[i + j] == p[j]
  }

  /** `p` occurs nowhere in `s`. */
  predicate Free(s: string, p: string) {
    forall i: nat :: i <= |s| ==> !OccursAt(s, p, i)
  }

  /** A slice of a string free of `p` is free of `p`. */
  lemma FreeSlice(s: string, p: string, a: nat, b: nat)
    requires a <= b <= |s| && Free(s, p)
    ensures Free(s[a..b], p)
  {
    var t := s[a..b];
    forall i: nat | i <= b - a
      ensures !OccursAt(t, p, i)
    {
      assert !OccursAt(s, p, a + i);
      if i + |p| <= b - a {
        var j :| 0 <= j < |p| && s[a + i + j] != p[j];
        assert t[i + j] == s[a + i + j];
      }
    }
  }

  /** For a single character, being free of it is not containing it. */
  lemma FreeChar(s: string, c: char)
    ensures Free(s, [c]) <==> c !in s
  {
    if c in s {
      var i :| 0 <= i < |s| && s[i] == c;
      assert s[i + 0] == [c][0];
      assert OccursAt(s, [c], i);
    }
    if c !in s {
      forall i: nat | i <= |s|
        ensures !OccursAt(s, [c], i)
      {
        if i < |s| {
          assert s[i + 0] != [c][0];
        }
      }
    }
  }

  // ---------------------------------------------------------------------------
  // Cleaning the input

  /** `replace(/and/g, ',')`: every occurrence of "and", scanned left to
      right without overlap, becomes a comma (also inside words). */
  function ReplaceAnd(s: string): string
    decreases |s|
  {
    if |s| == 0 then ""
    else if OccursAt(s, "and", 0) then "," + ReplaceAnd(s[3..])
    else [s[0]] + ReplaceAnd(s[1..])
  }

  /** Where the replacement does not start with a comma, the first
      character was copied. */
  lemma ReplaceAndHead(t: string)
    requires |ReplaceAnd(t)| > 0 && ReplaceAnd(t)[0] != ','
    ensures |t| > 0 && !OccursAt(t, "and", 0) && ReplaceAnd(t) == [t[0]] + ReplaceAnd(t[1..])
  {
  }

  /** No "and" is left after the replacement. */
  lemma {:induction false} ReplaceAndFree(s: string)
    ensures Free(ReplaceAnd(s), "and")
    decreases |s|
  {
    var r := ReplaceAnd(s);
    if |s| == 0 {
    } else if OccursAt(s, "and", 0) {
      var rest := ReplaceAnd(s[3..]);
      ReplaceAndFree(s[3..]);
      assert r == "," + rest;
      forall i: nat | i <= |r|
        ensures !OccursAt(r, "and", i)
      {
        if 0 < i && i + 3 <= |r| {
          assert !OccursAt(rest, "and", i - 1);
          var j :| 0 <= j < 3 && rest[i - 1 + j] != "and"[j];
          assert r[i + j] == rest[i - 1 + j];
        } else if i + 3 <= |r| {
          assert r[i + 0] != "and"[0];
        }
      }
    } else {
      var rest := ReplaceAnd(s[1..]);
      ReplaceAndFree(s[1..]);
      assert r == [s[0]] + rest;
      forall i: nat | i <= |r|
        ensures !OccursAt(r, "and", i)
      {
        if 0 < i && i + 3 <= |r| {
          assert !OccursAt(rest, "and", i - 1);
          var j :| 0 <= j < 3 && rest[i - 1 + j] != "and"[j];
          assert r[i + j] == rest[i - 1 + j];
        } else if i + 3 <= |r| {
          NoAndAtHead(s, rest);
        }
      }
    }
  }

  /** The step of `ReplaceAndFree` at offset 0: a copied first character
      cannot start an "and", because the text did not start with one. */
  lemma NoAndAtHead(s: string, rest: string)
    requires |s| > 0 && !OccursAt(s, "and", 0) && rest == ReplaceAnd(s[1..]) && |rest| >= 2
    ensures !OccursAt([s[0]] + rest, "and", 0)
  {
    var r := [s[0]] + rest;
    if s[0] != 'a' {
      assert r[0 + 0] != "and"[0];
    } else if rest[0] != 'n' {
      assert r[0 + 1] != "and"[1];
    } else {
      ReplaceAndHead(s[1..]);
      var rest2 := ReplaceAnd(s[2..]);
      assert s[1..][1..] == s[2..];
      assert rest == [s[1]] + rest2;
      if rest2[0] == ',' {
        assert r[0 + 2] != "and"[2];
      } else {
        ReplaceAndHead(s[2..]);
        assert s[2..][0] == s[2];
        assert s[0 + 0] == "and"[0] && s[0 + 1] == "and"[1];
        assert s[0 + 2] != "and"[2];
        assert r[0 + 2] != "and"[2];
      }
    }
  }

  /** Input that holds no "and" is left as it is. */
  lemma {:induction false} ReplaceAndIdentity(s: string)
    requires Free(s, "and")
    ensures ReplaceAnd(s) == s
    decreases |s|
  {
    if |s| > 0 {
      assert !OccursAt(s, "and", 0);
      FreeSlice(s, "and", 1, |s|);
      assert s[1..|s|] == s[1..];
      ReplaceAndIdentity(s[1..]);
    }
  }

  /** `replace(/\./g, ',')`: every full stop becomes a comma. */
  function ReplaceDots(s: string): (r: string)
    ensures |r| == |s|
    ensures forall i :: 0 <= i < |s| ==> r[i] == (if s[i] == '.' then ',' else s[i])
  {
    seq(|s|, i requires 0 <= i < |s| => if s[i] == '.' then ',' else s[i])
  }

  /** After both replacements the text has neither full stops nor "and";
      everything else is kept. */
  lemma CleanedFree(s: string)
    ensures '.' !in ReplaceDots(s)
    ensures Free(s, "and") ==> Free(ReplaceDots(s), "and")
  {
    var r := ReplaceDots(s);
    if Free(s, "and") {
      forall i: nat | i <= |r|
        ensures !OccursAt(r, "and", i)
      {
        assert !OccursAt(s, "and", i);
        if i + 3 <= |r| {
          var j :| 0 <= j < 3 && s[i + j] != "and"[j];
          assert r[i + j] == (if s[i + j] == '.' then ',' else s[i + j]);
        }
      }
    }
  }

  // ---------------------------------------------------------------------------
  // Splitting at commas

  /** `split(',')`: the pieces between commas; an empty string is one empty
      piece. */
  function SplitComma(s: string): (r: seq<string>)
    ensures |r| >= 1
    ensures forall k :: 0 <= k < |r| ==> ',' !in r[k]
    ensures |r[0]| <= |s| && r[0] == s[..|r[0]|]
    decreases |s|
  {
    if |s| == 0 then [""]
    else
      var rest := SplitComma(s[1..]);
      if s[0] == ',' then [""] + rest
      else [[s[0]] + rest[0]] + rest[1..]
  }

  /** `join(',')`. */
  function JoinComma(parts: seq<string>): string {
    if |parts| == 0 then ""
    else if |parts| == 1 then parts[0]
    else parts[0] + "," + JoinComma(parts[1..])
  }

  /** Joining the pieces with commas gives the text back. */
  lemma {:induction false} SplitJoin(s: string)
    ensures JoinComma(SplitComma(s)) == s
    decreases |s|
  {
    if |s| > 0 {
      var rest := SplitComma(s[1..]);
      SplitJoin(s[1..]);
      if s[0] == ',' {
        assert SplitComma(s) == [""] + rest;
        assert s == "," + s[1..];
      } else if |rest| == 1 {
        assert s == [s[0]] + s[1..];
      } else {
        assert JoinComma(rest) == rest[0] + "," + JoinComma(rest[1..]);
        assert SplitComma(s)[1..] == rest[1..];
        assert s == [s[0]] + s[1..];
      }
    }
  }

  /** Text without commas ahead of `t` joins the first piece of `t`. */
  lemma {:induction false} SplitPrefix(a: string, t: string)
    requires ',' !in a
    ensures SplitComma(a + t) == [a + SplitComma(t)[0]] + SplitComma(t)[1..]
    decreases |a|
  {
    if |a| > 0 {
      var st := SplitComma(t);
      assert a[0] in a;
      assert (a + t)[0] == a[0] && (a + t)[1..] == a[1..] + t;
      SplitPrefix(a[1..], t);
      var rest := SplitComma(a[1..] + t);
      assert rest[0] == a[1..] + st[0] && rest[1..] == st[1..];
      assert SplitComma(a + t) == [[a[0]] + rest[0]] + rest[1..];
      assert a + st[0] == [a[0]] + (a[1..] + st[0]);
    } else {
      assert a + t == t;
      assert a + SplitComma(t)[0] == SplitComma(t)[0];
    }
  }

  /** Splitting comma-free pieces joined with commas gives the pieces back. */
  lemma {:induction false} JoinSplit(parts: seq<string>)
    requires |parts| >= 1
    requires forall k :: 0 <= k < |parts| ==> ',' !in parts[k]
    ensures SplitComma(JoinComma(parts)) == parts
    decreases |parts|
  {
    SplitPrefix(parts[0], if |parts| == 1 then "" else "," + JoinComma(parts[1..]));
    if |parts| == 1 {
      assert parts[0] + "" == parts[0];
    } else {
      JoinSplit(parts[1..]);
      var t := "," + JoinComma(parts[1..]);
      assert t[1..] == JoinComma(parts[1..]);
      assert SplitComma(t) == [""] + parts[1..];
      assert parts[0] + "" == parts[0];
      assert JoinComma(parts) == parts[0] + t;
    }
  }

  /** Every piece of a text free of `p` is free of `p`. */
  lemma {:induction false} SplitFree(s: string, p: string)
    requires Free(s, p)
    ensures forall k :: 0 <= k < |SplitComma(s)| ==> Free(SplitComma(s)[k], p)
    decreases |s|
  {
    if |s| > 0 {
      var r := SplitComma(s);
      var rest := SplitComma(s[1..]);
      FreeSlice(s, p, 1, |s|);
      assert s[1..|s|] == s[1..];
      SplitFree(s[1..], p);
      if s[0] != ',' {
        assert r[0] == s[..|r[0]|];
        FreeSlice(s, p, 0, |r[0]|);
        assert forall k :: 1 <= k < |r| ==> r[k] == rest[k];
      } else {
        assert !OccursAt(s, p, 0);
        assert forall k :: 1 <= k < |r| ==> r[k] == rest[k - 1];
      }
    }
  }

  // ---------------------------------------------------------------------------
  // Items and ingredients

  predicate LongEnough(item: string) {
    |item| > 1
  }

  /** The text after both replacements, cut at its commas. */
  function Pieces(input: string): seq<string> {
    SplitComma(ReplaceDots(ReplaceAnd(input)))
  }

  /** `items`: the trimmed pieces longer than one character, in order. */
  function Items(input: string): seq<string> {
    Filter(Map(Pieces(input), Trim), LongEnough)
  }

  /** What every item looks like: more than one character, no surrounding
      whitespace, and no comma, full stop or "and" left inside. */
  predicate CleanItem(x: string) {
    |x| > 1 && !IsSpace(x[0]) && !IsSpace(x[|x| - 1])
    && ',' !in x && '.' !in x && Free(x, "and")
  }

  /** Trimming keeps a string free of what it was free of. */
  lemma TrimFree(s: string, p: string)
    requires Free(s, p)
    ensures Free(Trim(s), p)
  {
    FreeSlice(s, p, TrimRange(s).0, TrimRange(s).1);
  }

  /** The pieces carry neither full stops nor "and" nor commas. */
  lemma PiecesFree(input: string)
    ensures forall k :: 0 <= k < |Pieces(input)| ==>
              Free(Pieces(input)[k], "and") && Free(Pieces(input)[k], ".") && ',' !in Pieces(input)[k]
  {
    var cleaned := ReplaceDots(ReplaceAnd(input));
    ReplaceAndFree(input);
    CleanedFree(ReplaceAnd(input));
    FreeChar(cleaned, '.');
    SplitFree(cleaned, "and");
    SplitFree(cleaned, ".");
  }

  /** Every item is clean. */
  lemma ItemsClean(input: string)
    ensures forall k :: 0 <= k < |Items(input)| ==> CleanItem(Items(input)[k])
  {
    var pieces := Pieces(input);
    var trimmed := Map(pieces, Trim);
    PiecesFree(input);
    forall k | 0 <= k < |Items(input)|
      ensures CleanItem(Items(input)[k])
    {
      var x := Items(input)[k];
      FilterMembership(trimmed, LongEnough, x);
      var j :| 0 <= j < |trimmed| && trimmed[j] == x;
      TrimFree(pieces[j], "and");
      TrimFree(pieces[j], ".");
      FreeChar(pieces[j], ',');
      TrimFree(pieces[j], ",");
      FreeChar(x, ',');
      FreeChar(x, '.');
    }
  }

  /** Every piece that trims to more than one character is an item. */
  lemma ItemsComplete(input: string)
    ensures forall k :: 0 <= k < |Pieces(input)| && |Trim(Pieces(input)[k])| > 1 ==>
              Trim(Pieces(input)[k]) in Items(input)
  {
    var trimmed := Map(Pieces(input), Trim);
    forall k | 0 <= k < |Pieces(input)| && |Trim(Pieces(input)[k])| > 1
      ensures Trim(Pieces(input)[k]) in Items(input)
    {
      FilterMembership(trimmed, LongEnough, trimmed[k]);
    }
  }

  /** A text without the letter "a" holds no "and". */
  lemma NoAFree(s: string)
    requires 'a' !in s
    ensures Free(s, "and")
  {
    forall i: nat | i <= |s|
      ensures !OccursAt(s, "and", i)
    {
      if i + 3 <= |s| {
        assert s[i + 0] != "and"[0];
      }
    }
  }

  /** Text without full stops is left as it is by `ReplaceDots`. */
  lemma ReplaceDotsIdentity(s: string)
    requires '.' !in s
    ensures ReplaceDots(s) == s
  {
  }

  /** "and" is replaced inside words too: a word such as "Sandwich" (a first
      letter, then "and", then a rest without "a") is cut after its first
      letter, and that one-letter piece is then too short to keep, so only
      the rest ("wich") is an item. */
  lemma AndInsideWord(c: char, t: string)
    requires c != 'a' && c != ',' && c != '.' && !IsSpace(c)
    requires |t| > 1 && 'a' !in t && ',' !in t && '.' !in t
    requires !IsSpace(t[0]) && !IsSpace(t[|t| - 1])
    ensures Pieces([c] + "and" + t) == [[c], t]
    ensures Items([c] + "and" + t) == [t]
  {
    AndInsideWordPieces(c, t);
    ShortPieceDropped([c], t);
  }

  /** The pieces of such a word. */
  lemma AndInsideWordPieces(c: char, t: string)
    requires c != 'a' && c != ',' && c != '.'
    requires 'a' !in t && ',' !in t && '.' !in t
    ensures Pieces([c] + "and" + t) == [[c], t]
  {
    var w := [c] + "and" + t;
    assert w[0 + 0] != "and"[0];
    assert w[1..] == "and" + t;
    assert OccursAt("and" + t, "and", 0);
    assert ("and" + t)[3..] == t;
    NoAFree(t);
    ReplaceAndIdentity(t);
    assert ReplaceAnd(w) == [c] + "," + t;
    ReplaceDotsIdentity([c] + "," + t);
    JoinSplit([[c], t]);
    assert JoinComma([[c], t]) == [c] + "," + t;
  }

  /** Of two pieces without surrounding whitespace, a one-character piece is
      dropped and a longer one kept. */
  lemma ShortPieceDropped(x: string, y: string)
    requires |x| == 1 && !IsSpace(x[0])
    requires |y| > 1 && !IsSpace(y[0]) && !IsSpace(y[|y| - 1])
    ensures Filter(Map([x, y], Trim), LongEnough) == [y]
  {
    assert Trim(x) == x && Trim(y) == y by {
      TrimUnchanged(x);
      TrimUnchanged(y);
    }
    assert Map([x, y], Trim) == [x, y];
    assert Filter([x, y], LongEnough) == [y] by {
      assert [x, y][1..] == [y] && [y][1..] == [];
      assert Filter([y], LongEnough) == [y];
    }
  }

  /** `ingredients`: each item with its first character upper-cased. */
  function Ingredients(items: seq<string>): (r: seq<string>)
    ensures |r| == |items|
    ensures forall k :: 0 <= k < |items| && |items[k]| > 0 ==>
              |r[k]| == |items[k]| && r[k][0] == UpperChar(items[k][0]) && r[k][1..] == items[k][1..]
  {
    Map(items, Capitalize)
  }

  /** The ingredients of a parsed line are never empty. */
  lemma IngredientsNonEmpty(input: string)
    ensures forall k :: 0 <= k < |Ingredients(Items(input))| ==> |Ingredients(Items(input))[k]| > 1
  {
    ItemsClean(input);
  }

  // ---------------------------------------------------------------------------
  // Suggestions

  datatype Suggestion = Suggestion(
    name: string,
    calories: real, protein: real, carbs: real, fat: real, fiber: real,
    sodium: real, potassium: real, cholesterol: real,
    vitaminA: real, vitaminC: real, calcium: real, iron: real,
    ingredients: seq<string>)

  /** `ingredients[k] || fallback`. */
  function OrElse(ingredients: seq<string>, k: nat, fallback: string): (r: string)
    ensures k < |ingredients| && ingredients[k] != "" ==> r == ingredients[k]
    ensures k >= |ingredients| ==> r == fallback
  {
    if k < |ingredients| && ingredients[k] != "" then ingredients[k] else fallback
  }

  /** The three recipes: a bowl, a stir-fry and a platter, each with fixed
      nutrients and the user's ingredients followed by its own extras. */
  function Suggestions(ingredients: seq<string>): (r: seq<Suggestion>)
    ensures |r| == 3
    ensures forall k :: 0 <= k < 3 ==>
              |r[k].ingredients| > |ingredients| && r[k].ingredients[..|ingredients|] == ingredients
    ensures forall k :: 0 <= k < 3 ==> r[k].calories > 0.0 && r[k].protein > 0.0 && r[k].fiber > 0.0
  {
    [ Suggestion("Ultimate " + OrElse(ingredients, 0, "Health") + " Fusion Bowl",
                 450.0, 35.0, 40.0, 15.0, 6.0, 480.0, 500.0, 100.0, 50.0, 20.0, 80.0, 3.0,
                 ingredients + ["Olive Oil", "Sea Salt", "Black Pepper"]),
      Suggestion("Quick " + OrElse(ingredients, 1, "Protein") + " High-Energy Stir-fry",
                 380.0, 42.0, 15.0, 18.0, 4.0, 600.0, 350.0, 85.0, 30.0, 45.0, 60.0, 2.5,
                 ingredients + ["Soy Sauce", "Ginger", "Garlic"]),
      Suggestion("Fresh " + OrElse(ingredients, 2, "Garden") + " Signature Platter",
                 310.0, 28.0, 12.0, 14.0, 8.0, 250.0, 600.0, 40.0, 120.0, 80.0, 100.0, 4.0,
                 ingredients + ["Lemon juice", "Fresh Cilantro"]) ]
  }

  /** Apart from its name, each recipe is the same whatever the user typed:
      the same nutrients and the same extras after the user's ingredients. */
  lemma SuggestionsFixedExtras(a: seq<string>, b: seq<string>)
    ensures forall k :: 0 <= k < 3 ==>
              var x, y := Suggestions(a)[k], Suggestions(b)[k];
              x.ingredients[|a|..] == y.ingredients[|b|..]
              && x.calories == y.calories && x.protein == y.protein && x.carbs == y.carbs
              && x.fat == y.fat && x.fiber == y.fiber && x.sodium == y.sodium
              && x.potassium == y.potassium && x.cholesterol == y.cholesterol
              && x.vitaminA == y.vitaminA && x.vitaminC == y.vitaminC
              && x.calcium == y.calcium && x.iron == y.iron
  {
    var ra, rb := Suggestions(a), Suggestions(b);
    assert ra[0].ingredients[|a|..] == ["Olive Oil", "Sea Salt", "Black Pepper"] == rb[0].ingredients[|b|..];
    assert ra[1].ingredients[|a|..] == ["Soy Sauce", "Ginger", "Garlic"] == rb[1].ingredients[|b|..];
    assert ra[2].ingredients[|a|..] == ["Lemon juice", "Fresh Cilantro"] == rb[2].ingredients[|b|..];
  }

  /** The k-th recipe is named after the k-th ingredient when there is one,
      and after its fixed fallback otherwise (ingredients are never empty,
      see `IngredientsNonEmpty`). */
  lemma SuggestionNames(ing: seq<string>)
    requires forall k :: 0 <= k < |ing| ==> ing[k] != ""
    ensures var r := Suggestions(ing);
            (|ing| > 0 ==> r[0].name == "Ultimate " + ing[0] + " Fusion Bowl")
            && (|ing| > 1 ==> r[1].name == "Quick " + ing[1] + " High-Energy Stir-fry")
            && (|ing| > 2 ==> r[2].name == "Fresh " + ing[2] + " Signature Platter")
  {
  }

  // ---------------------------------------------------------------------------
  // Logging a suggestion

  /** The food log `handleLogToMeal` builds: one serving of the recipe with
      its calories and macros; its micronutrients are not carried over. */
  function LogRecipe(sug: Suggestion, mealType: MealType, id: string, userId: string,
                     recipeId: string, date: Day, time: int): (l: FoodLog)
    ensures l.id == id && l.userId == userId && l.date == date && l.time == time
    ensures l.foodId == "recipe-" + recipeId && l.foodName == sug.name && l.mealType == mealType
    ensures l.servings == 1.0
    ensures l.calories == sug.calories && l.protein == sug.protein && l.carbs == sug.carbs
    ensures l.fat == sug.fat && l.fiber == sug.fiber
    ensures l.saturatedFat.None? && l.polyunsaturatedFat.None? && l.monounsaturatedFat.None?
    ensures l.transFat.None? && l.cholesterol.None? && l.sodium.None? && l.potassium.None?
    ensures l.vitaminA.None? && l.vitaminC.None? && l.calcium.None? && l.iron.None?
  {
    FoodLog(id, userId, "recipe-" + recipeId, sug.name, mealType, 1.0,
            sug.calories, sug.protein, sug.carbs, sug.fat, sug.fiber,
            None, None, None, None, None, None, None, None, None, None, None,
            date, time)
  }

  /** On the dashboard a logged recipe adds its calories and macros, while
      every micronutrient total stays as it was although the suggestion
      lists micronutrients. */
  lemma LoggedRecipeOnDashboard(today: Day, food: seq<FoodLog>, water: seq<WaterLog>,
                                exercise: seq<ExerciseLog>, l: FoodLog)
    requires l.saturatedFat.None? && l.cholesterol.None? && l.sodium.None? && l.potassium.None?
    requires l.vitaminA.None? && l.vitaminC.None? && l.calcium.None? && l.iron.None?
    ensures var s := Dashboard.LoadDailySummary(today, food, water, exercise);
            var t := Dashboard.LoadDailySummary(today, food + [l], water, exercise);
            t.caloriesConsumed == s.caloriesConsumed + l.calories
            && t.protein == s.protein + l.protein && t.carbs == s.carbs + l.carbs
            && t.fat == s.fat + l.fat && t.fiber == s.fiber + l.fiber
            && t.saturatedFat == s.saturatedFat && t.cholesterol == s.cholesterol
            && t.sodium == s.sodium && t.potassium == s.potassium
            && t.vitaminA == s.vitaminA && t.vitaminC == s.vitaminC
            && t.calcium == s.calcium && t.iron == s.iron
  {
    Dashboard.AddFoodToSummary(today, food, water, exercise, l);
  }

  // ---------------------------------------------------------------------------
  // The conversation

  datatype Sender = FromUser | FromChef

  /** What a message shows; the wording around these values is left out. */
  datatype Body =
    | Greeting(userName: string)
    | UserText(text: string)
    | Recipes(ingredients: seq<string>, suggestions: seq<Suggestion>)
    | LoggedTo(recipeName: string, mealType: MealType)

  datatype Message = Message(id: string, sender: Sender, body: Body)

  /** The chef's answer to a line of ingredients. */
  function RecipeReply(input: string): (b: Body)
    ensures b.Recipes? && |b.suggestions| == 3
    ensures |b.ingredients| == |Items(input)|
    ensures forall k :: 0 <= k < |b.ingredients| ==> b.ingredients[k] == Capitalize(Items(input)[k])
    ensures forall k :: 0 <= k < 3 ==>
              |b.suggestions[k].ingredients| > |b.ingredients|
              && b.suggestions[k].ingredients[..|b.ingredients|] == b.ingredients
  {
    var ingredients := Ingredients(Items(input));
    Recipes(ingredients, Suggestions(ingredients))
  }

  class Chat {
    var messages: seq<Message>
    var inputValue: string
    var isTyping: bool

    /** The chat opens with one greeting, by name or to "there". */
    constructor (greetingId: string, user: User)
      ensures messages == [Message(greetingId, FromChef, Greeting(if user.name == "" then "there" else user.name))]
      ensures inputValue == "" && !isTyping
    {
      messages := [Message(greetingId, FromChef, Greeting(if user.name == "" then "there" else user.name))];
      inputValue := "";
      isTyping := false;
    }

    /** The text box. */
    method Type(text: string)
      modifies this
      ensures inputValue == text && messages == old(messages) && isTyping == old(isTyping)
    {
      inputValue := text;
    }

    /** `handleSend`, up to the timer: a blank input is ignored; otherwise
        the user's message is appended, the box is cleared, the chef starts
        typing, and the text is returned for the reply. */
    method Send(id: string) returns (pending: Option<string>)
      modifies this
      ensures Trim(old(inputValue)) == "" ==>
                pending.None? && messages == old(messages)
                && inputValue == old(inputValue) && isTyping == old(isTyping)
      ensures Trim(old(inputValue)) != "" ==>
                pending == Some(old(inputValue))
                && messages == old(messages) + [Message(id, FromUser, UserText(old(inputValue)))]
                && inputValue == "" && isTyping
    {
      if Trim(inputValue) == "" {
        return None;
      }
      pending := Some(inputValue);
      messages := messages + [Message(id, FromUser, UserText(inputValue))];
      inputValue := "";
      isTyping := true;
    }

    /** The timer's callback: the chef's recipes for the sent text are
        appended and the typing indicator stops. */
    method Reply(sent: string, id: string)
      modifies this
      ensures messages == old(messages) + [Message(id, FromChef, RecipeReply(sent))]
      ensures !isTyping && inputValue == old(inputValue)
    {
      messages := messages + [Message(id, FromChef, RecipeReply(sent))];
      isTyping := false;
    }

    /** `handleLogToMeal`: the recipe is stored as a food log and a
        confirmation naming it and the meal is appended. */
    method LogToMeal(store: Storage.LogStore, sug: Suggestion, mealType: MealType, user: User,
                     logId: string, recipeId: string, messageId: string, date: Day, time: int)
      returns (l: FoodLog)
      modifies this, store
      ensures l == LogRecipe(sug, mealType, logId, user.id, recipeId, date, time)
      ensures store.foodLogs == old(store.foodLogs) + [l]
      ensures store.waterLogs == old(store.waterLogs) && store.weightLogs == old(store.weightLogs)
      ensures store.exerciseLogs == old(store.exerciseLogs)
      ensures messages == old(messages) + [Message(messageId, FromChef, LoggedTo(sug.name, mealType))]
      ensures inputValue == old(inputValue) && isTyping == old(isTyping)
    {
      l := LogRecipe(sug, mealType, logId, user.id, recipeId, date, time);
      store.SaveFoodLog(l);
      messages := messages + [Message(messageId, FromChef, LoggedTo(sug.name, mealType))];
    }
  }

  /** The logged recipe is listed among the user's food logs of its day. */
  lemma LoggedRecipeIsListed(food: seq<FoodLog>, sug: Suggestion, mealType: MealType, id: string,
                             userId: string, recipeId: string, date: Day, time: int)
    ensures var l := LogRecipe(sug, mealType, id, userId, recipeId, date, time);
            l in Storage.GetFoodLogs(food + [l], userId, Some(date))
  {
    Storage.SavedFoodIsListed(food, LogRecipe(sug, mealType, id, userId, recipeId, date, time));
  }
}
