# Nutrition tracker: a verified model of the logic

This project is a Dafny model of the computational core of a React nutrition
tracker. It covers:

- the goal calculator: Mifflin-St Jeor BMR, TDEE, the calorie goal and the
  30/40/30 macro split, plus BMI, percentages, averages and the logging streak;
- the food diary's serving-size converter, the food log it builds, the food
  search and the meal sections;
- the dashboard's and the nutrition page's daily summaries, the "left" column
  and the goal editor;
- the local log store: the food, water, weight and exercise collections, their
  getters and the append, delete and remove-latest operations;
- the activity page's calorie estimate (a keyword lookup in a
  calories-per-minute table), its water progress and burned total;
- the profile page's goal update, weight logging and BMI category;
- the chef chat: the ingredient parser, the three recipe suggestions, logging a
  recipe as a food log, and the message list;
- the reference food table and the record types.

Conventions used throughout:

- Numbers are exact `real`s.
- `Math.round(x)` is `floor(x + 1/2)`.
- Calendar dates are integer day numbers and clock times are minutes after
  midnight. Food and exercise logs sort by `date * 1440 + time`. A weight log's
  ISO timestamp is an integer instant.
- `parseFloat` yields an `Option<real>`, so every `|| 0` and `|| 1` fallback is
  explicit. `Types.OrZero` and `Types.OrOne` treat a missing value and NaN the
  same way.
- The clock and the id generator are parameters. Today's date, the current
  time and every generated id are passed in.

The form of the model follows the form of the code:

- The log store is a class, `Storage.LogStore`. Its `seq` fields are the four
  stored lists, and its methods append to them, filter them or splice them.
- The getters are functions of those lists.
- The chat is a class, `AIChat.Chat`. Its message list grows by one message per
  send, reply or confirmation.
- Three operations that the source writes as loops are methods with loop
  invariants:
  - the streak walk (`Helpers.CalculateStreak`);
  - the keyword loop of the exercise estimate (`Activity.FirstKeyFactor`);
  - the reversed `findIndex` of the water removal (`Storage.FindIndexReversed`).

  Each of these methods is proved equal to a specification function, and the
  lemmas beside that function characterise it.
- The rest of the core (formulas, folds, record updates) consists of functions
  and lemmas.

Modules:

| file | module | models |
|---|---|---|
| `wrappers.dfy` | `Wrappers` | `Option` |
| `text.dfy` | `Text` | `toLowerCase`, `charAt(0).toUpperCase()`, `trim`, `includes`, `parseFloat` |
| `folds.dfy` | `Folds` | `reduce` sums, `filter`, `map`, `[...new Set(xs)]`, the newest-first `sort` |
| `types.dfy` | `Types` | `src/types/index.ts` |
| `helpers.dfy` | `Helpers` | `src/utils/helpers.ts` |
| `food_database.dfy` | `FoodDatabase` | `src/data/foodDatabase.ts` |
| `food_diary.dfy` | `FoodDiary` | `src/components/FoodDiary.tsx` |
| `dashboard.dfy` | `Dashboard` | `src/components/Dashboard.tsx` |
| `nutrition_detail.dfy` | `NutritionDetail` | `src/components/NutritionDetail.tsx` |
| `storage.dfy` | `Storage` | `src/utils/storage.ts` (local collections) |
| `activity.dfy` | `Activity` | `src/components/Activity.tsx` |
| `profile.dfy` | `Profile` | `src/components/Profile.tsx` |
| `ai_chat.dfy` | `AIChat` | `src/components/AIChat.tsx` |

## Model

| member | source | states |
|---|---|---|
| Text.Lower | src/components/FoodDiary.tsx:79 | Lower-casing maps every character and keeps the length. |
| Text.Capitalize | src/components/AIChat.tsx:53 | The length is kept, the first character is upper-cased and the rest is unchanged. |
| Text.Trim | src/components/AIChat.tsx:51 | The result is a slice of the input with only whitespace cut off before and after it, and a non-empty result starts and ends with a non-whitespace character. |
| Text.TrimEmpty | src/components/AIChat.tsx:41 | A string trims to "" exactly when every character is whitespace. This is the blank-input test. |
| Text.TrimUnchanged | src/components/AIChat.tsx:51 | Trimming leaves a string unchanged iff it is empty or both ends are non-whitespace. Trimming twice is trimming once. |
| Text.ParsePositiveNumeral | src/data/foodDatabase.ts:10 | A digit string without a leading zero parses to its own value, which is positive. |
| Folds.Filter | src/utils/storage.ts:92 | The kept elements all satisfy the predicate. They form a sub-multiset of the input, never longer than it. |
| Folds.FilterMembership | src/utils/storage.ts:92 | An element survives iff it is in the list and satisfies the predicate. |
| Folds.FilterMultiplicity | src/utils/storage.ts:100-104 | Each element is kept exactly as often as it occurs if it satisfies the predicate, and never otherwise. |
| Folds.FilterAppend | src/utils/storage.ts:109-112 | Filtering distributes over concatenation, so a pushed entry lands at the end of every filtered view. |
| Folds.SumFilterSnoc | src/utils/storage.ts:154-157 | Appending one element adds its term to a filtered sum iff the filter keeps it. |
| Folds.SumAppend | src/components/Dashboard.tsx:47-49 | A `reduce` sum over a concatenation is the sum of the two sums. |
| Folds.SumPermutation | src/components/Dashboard.tsx:47-68 | A sum does not depend on the order of its terms. |
| Folds.Map | src/components/AIChat.tsx:51-53 | The mapped list has the same length and the function applied at each index. |
| Folds.DedupSpec | src/utils/storage.ts:94 | `[...new Set(xs)]` has no duplicates and holds exactly the values of `xs`. |
| Folds.SortDesc | src/utils/storage.ts:106 | The sort result is sorted newest first and is a permutation of its input. |
| Folds.SortDescMembership | src/utils/storage.ts:106 | Sorting keeps exactly the same elements. |
| Folds.SortDescHead | src/utils/storage.ts:198 | The head of the sorted list has the largest key of any element. |
| Folds.SortDescOfSorted | src/components/Profile.tsx:22 | Sorting an already sorted list returns it unchanged. |
| Types.OrOne | src/components/FoodDiary.tsx:40 | The `or 1` fallback of a parsed number is never 0. It keeps a parsed non-zero value and gives exactly 1 for a missing value or 0. |
| Types.EnumsClosed | src/types/index.ts:6-76 | Gender has 3 values, activity level 5, goal 3, meal type 4 and exercise type 5, and every value is one of them. |
| Types.ExerciseTypeNamesDistinct | src/types/index.ts:76 | Distinct exercise types are stored under distinct strings. |
| Helpers.Round | src/utils/helpers.ts:94 | `Math.round(x)` lies within one half of `x`, with halves rounding up. |
| Helpers.BMRGenderOffset | src/utils/helpers.ts:4-12 | For the same body, male BMR is exactly 166 above female BMR. 'other' is computed as female. |
| Helpers.BMRMonotone | src/utils/helpers.ts:7-11 | For a fixed gender, BMR changes by 10 per kg, 6.25 per cm and -5 per year. So it rises strictly with weight and height and falls strictly with age. |
| Helpers.ActivityRank | src/utils/helpers.ts:17-23 | Each activity level has its position in the order sedentary < ... < very-active. |
| Helpers.TDEEMonotoneInActivity | src/utils/helpers.ts:15-26 | The multipliers strictly increase with activity, so a positive BMR gives a strictly larger TDEE for a more active level. |
| Helpers.CalorieGoalOffsets | src/utils/helpers.ts:29-39 | Lose = TDEE - 500, maintain = TDEE, gain = TDEE + 300, hence lose < maintain < gain. |
| Helpers.MacroGoals | src/utils/helpers.ts:42-49 | The energy shares are 30/40/30 and 4·protein + 4·carbs + 9·fat equals the calorie goal exactly. |
| Helpers.BMI | src/utils/helpers.ts:52-55 | There is a BMI iff the height is non-zero, and BMI × (height in m)² = weight. |
| Helpers.BMICategoryIntervals | src/utils/helpers.ts:58-63 | The four categories are exactly the intervals cut at 18.5, 25 and 30, both directions. |
| Helpers.Percentage | src/utils/helpers.ts:92-95 | The result is 0 for a zero total and never above 100. A share below 99.5% gives the rounded share, and one from 99.5% up gives 100. It is not floored, so a share below -0.5% is negative. |
| Helpers.Average | src/utils/helpers.ts:125-129 | The mean times the count is the sum, and an empty list gives 0. |
| Helpers.AverageBounds | src/utils/helpers.ts:125-129 | The mean of a non-empty list lies between any lower and upper bound of its values. |
| Helpers.RunLengthIsRun | src/utils/helpers.ts:159-169 | The run length ending at a day counts consecutive logged days ending there, the day before the run is not logged, and it never exceeds the number of logged days. |
| Helpers.RunUnique | src/utils/helpers.ts:159-169 | Two runs ending at the same day have the same length. |
| Helpers.CalculateStreak | src/utils/helpers.ts:137-172 | The dedupe, anchor and walk-back loop returns the specified streak. The invariant bounds the walk by the number of distinct days, which is why it terminates. |
| Helpers.StreakCharacterization | src/utils/helpers.ts:137-171 | The streak is 0 iff neither today nor yesterday is logged. Otherwise it is the unique run ending at today if logged, else at yesterday, and at most the number of distinct dates. |
| Helpers.StreakIgnoresDuplicates | src/utils/helpers.ts:140 | Lists with the same set of dates have the same streak, whatever the duplicates or order. |
| Helpers.StreakExamples | src/utils/helpers.ts:137-171 | Days 1-3 logged give a streak of 3 on day 3 and on day 4, and 0 on day 5. |
| FoodDatabase.FoodIdsDistinct | src/data/foodDatabase.ts:24-170 | The ids of the table are pairwise distinct. |
| FoodDatabase.FoodRowsWellFormed | src/data/foodDatabase.ts:24-186 | Every row satisfies the table invariants: known category, known unit, positive numeral size, non-negative amounts. |
| FoodDatabase.RowLabels | src/data/foodDatabase.ts:172-186 | Each row's category is in `categories` and is not 'All'. Its unit is one of g, ml, piece, slice, plate, serving. |
| FoodDatabase.RowNumeral | src/data/foodDatabase.ts:10 | Each row's servingSize is a positive integer numeral. |
| FoodDatabase.RowAmounts | src/data/foodDatabase.ts:13-21 | Each row's five main amounts are >= 0, and every micronutrient present is >= 0. |
| FoodDatabase.BaseSizesPositive | src/data/foodDatabase.ts:10 | Every base serving size in the table parses to a positive number. |
| FoodDiary.UnitClassesDisjoint | src/components/FoodDiary.tsx:42-45 | No unit is both piece-like and g/ml. |
| FoodDiary.UnitRatioClasses | src/components/FoodDiary.tsx:47-62 | A piece base with a g/ml entry gives m/(b·100), and a g/ml base with 'unit' gives m·100/b. Every other pair, ml against g and 'cup' included, gives m/b. |
| FoodDiary.PieceWeighsHundredGrams | src/components/FoodDiary.tsx:52-60 | 100·k g (or ml) and k units give the same ratio, whichever class the base is. |
| FoodDiary.SizeRatioDefaults | src/components/FoodDiary.tsx:37-40 | With no selection the ratio is 1. A manual size that does not parse gives 0. |
| FoodDiary.UnitRatioOfZero | src/components/FoodDiary.tsx:39 | A zero manual size scales to 0 for every unit pair. |
| FoodDiary.UneditedSelectionRatio | src/components/FoodDiary.tsx:25-63 | Selecting a food and leaving the form as filled in gives ratio 1 iff its size parses to a non-zero number, else 0. |
| FoodDiary.UnitRatioOfShownUnit | src/components/FoodDiary.tsx:29-49 | The base amount, in the unit the form shows for the base unit, is exactly one serving. |
| FoodDiary.ClampZero | src/components/FoodDiary.tsx:97-101 | `Math.max(0, x)` is >= 0 and >= x, and it equals x or 0. |
| FoodDiary.ScaleOpt | src/components/FoodDiary.tsx:104-111 | A micronutrient is present iff the food has it, and it is scaled without clamping. |
| FoodDiary.ScaledLog | src/components/FoodDiary.tsx:90-115 | Each of the five main amounts is `ClampZero` of the amount scaled by k, so it is the scaled amount when that is >= 0 and 0 when it is negative. Each micronutrient is present iff the food has it, scaled by the same factor. The three unlisted fat subtypes are absent. |
| FoodDiary.AddedLog | src/components/FoodDiary.tsx:90-101 | The log keeps the servings and carries each amount times ratio × servings: `Math.max(0, …)` for the five main nutrients, and unclamped for each micronutrient the food has. |
| FoodDiary.AddFood | src/components/FoodDiary.tsx:84-115 | A log exists iff a food is selected. It has the chosen meal, the selected food's id and servings `parseFloat(servings) or 1`, which is never 0. |
| FoodDiary.AddFoodScales | src/components/FoodDiary.tsx:87-101 | For a selected food, the log is `AddedLog` at the form's size ratio and its parsed servings, so every amount is scaled by sizeRatio × servings. |
| FoodDiary.UneditedAddCopiesRow | src/components/FoodDiary.tsx:84-115 | Adding a well-formed row without editing logs one serving carrying exactly the row's nutrition. |
| FoodDiary.FilteredFoodsMembership | src/components/FoodDiary.tsx:78-82 | A food is listed iff its lower-cased name contains the lower-cased query and the category is 'All' or the food's own. |
| FoodDiary.EmptySearchListsAll | src/components/FoodDiary.tsx:78-82 | An empty query in 'All' lists the whole table, in order. |
| FoodDiary.MealLogs | src/components/FoodDiary.tsx:141 | Every log in a meal section has that meal type. |
| FoodDiary.MealCaloriesPartition | src/components/FoodDiary.tsx:141-149 | The four meal sections' calories add up to the day's calories. |
| FoodDiary.MealCaloriesAppend | src/components/FoodDiary.tsx:142 | A new log adds its calories to its own meal section only. |
| Dashboard.NutrientFoldIsSums | src/components/Dashboard.tsx:51-68 | The one record-valued `reduce` computes twelve separate sums, with a missing value counting as 0. |
| Dashboard.LoadDailySummary | src/components/Dashboard.tsx:41-82 | The date is today and net = consumed - burned. The other three fat subtypes and all meal totals are 0. |
| Dashboard.EmptyDaySummary | src/components/Dashboard.tsx:64-81 | A day with no logs has the all-zero summary. |
| Dashboard.AddFoodToSummary | src/components/Dashboard.tsx:47-68 | One more food log adds its calories to consumed and net, and each nutrient (0 when missing) to its total. Nothing else changes. |
| Dashboard.AddActivityToSummary | src/components/Dashboard.tsx:48-49 | One more exercise adds to burned and subtracts from net. One more water log adds to water. Nothing else changes. |
| Dashboard.SummaryIgnoresOrder | src/components/Dashboard.tsx:47-68 | Reordering any of the three input lists leaves the summary unchanged. |
| Dashboard.WaterGoal | src/components/Dashboard.tsx:105 | The goal is the user's water goal, or 2000 when that is 0, and never 0. |
| Dashboard.RemainingAfterExercise | src/components/Dashboard.tsx:106 | Burning raises the calories remaining by exactly the amount burned, and eating lowers it by exactly the calories eaten. |
| Dashboard.SummaryExample | src/components/Dashboard.tsx:47-74 | 300 + 450 + 120 kcal eaten and 200 burned give 870 consumed and 670 net. |
| NutritionDetail.LoadNutrition | src/components/NutritionDetail.tsx:28-56 | Burned and water are 0, net equals consumed, and all meal totals are 0. |
| NutritionDetail.AgreesWithDashboard | src/components/NutritionDetail.tsx:31-54 | The page equals the dashboard's food-only summary, except that it sums the three fat subtypes the dashboard leaves at 0. |
| NutritionDetail.FatSubtypesOfTableLogs | src/components/NutritionDetail.tsx:41-43 | For logs without those subtypes, the page and the dashboard agree exactly. |
| NutritionDetail.NutrientRows | src/components/NutritionDetail.tsx:73-85 | There are eleven rows. Exactly the two unsaturated fats (rows 1 and 2) have no goal, and every goal is non-negative. |
| NutritionDetail.Left | src/components/NutritionDetail.tsx:147 | With a goal: max(0, goal - value), never negative, 0 once the goal is met. Without a goal: the value itself. |
| NutritionDetail.RowsLeftNonNegative | src/components/NutritionDetail.tsx:73-85 | Only the two unsaturated-fat rows lack a goal, so every other row's "left" is >= 0. Trans fat's is 0 when its total is non-negative. |
| NutritionDetail.EditCalories | src/components/NutritionDetail.tsx:160-168 | A typed calorie goal sets protein, carbs and fat to whole grams within half a gram of the 30/45/25 energy split, which is `Math.round` of it. |
| NutritionDetail.EditedEnergy | src/components/NutritionDetail.tsx:164-166 | The edited macros' energy is within 8.5 kcal of the typed goal. |
| NutritionDetail.EditorSplitDiffersFromCalculator | src/components/NutritionDetail.tsx:164-166 | At 2000 kcal the editor proposes 150/225/56 g, where the calculator gives 150/200/66.7 g. |
| NutritionDetail.SaveGoals | src/components/NutritionDetail.tsx:58-65 | The four daily goals take the form's values, and no other field of the user changes. |
| NutritionDetail.SaveGoalsRoundTrip | src/components/NutritionDetail.tsx:15-65 | Saving the form as first shown changes nothing. Saving is idempotent, and reopening shows what was saved. |
| Storage.OfUserMembership | src/utils/storage.ts:92 | An entry is in the user filter iff it is stored and belongs to the user. |
| Storage.SelectionIsOneFilter | src/utils/storage.ts:100-104 | The user filter followed by the optional date filter is one filter by the combined selection. |
| Storage.LoggedDatesSpec | src/utils/storage.ts:90-95 | The logged dates are distinct, and are exactly the dates of the user's food logs. |
| Storage.FoodLogsSpec | src/utils/storage.ts:98-107 | The food getter is newest first by date and time. It holds each selected log as often as it is stored, and nothing else. |
| Storage.SelectedMultiplicity | src/utils/storage.ts:98-104 | Selecting by user and optional date keeps each selected entry with its multiplicity and drops the rest. |
| Storage.WaterLogsSpec | src/utils/storage.ts:132-141 | The water getter is the stored list with unselected entries removed, in stored order. An entry is listed iff it is selected. |
| Storage.LatestWeightSpec | src/utils/storage.ts:178-199 | There is a latest weight iff the user has a weight log. It is one of the user's logs and none of them is newer. |
| Storage.ExerciseLogsSpec | src/utils/storage.ts:202-211 | The exercise getter is newest first. It holds each selected log as often as it is stored, and nothing else. |
| Storage.TotalBurnedIsFilteredSum | src/utils/storage.ts:235-238 | The burned total is the sum over the stored logs of that user and day. |
| Storage.DropId | src/utils/storage.ts:122 | No kept entry has the deleted id. |
| Storage.DropIdSpec | src/utils/storage.ts:120-123 | Deleting keeps exactly the entries with another id. It changes nothing when the id is absent and is idempotent. |
| Storage.LastMatch | src/utils/storage.ts:162 | The index found is the last entry of that user and day. Without a match, no entry matches. |
| Storage.FindIndexReversed | src/utils/storage.ts:162 | The reversed `findIndex` loop returns -1 with no match. Otherwise it returns the mirrored position of the last match. |
| Storage.RemoveLatestSplit | src/utils/storage.ts:159-168 | With a match, the list is before + [latest] + after and the result is before + after. No entry after it matches. |
| Storage.RemoveLatestShape | src/utils/storage.ts:159-168 | With no match the list is unchanged. Otherwise exactly one entry, the latest match, is removed. |
| Storage.RemoveLatestDay | src/utils/storage.ts:159-168 | The removed entry is the last of that user's day list, and the day list loses exactly that element. |
| Storage.RemoveLatestTotal | src/utils/storage.ts:154-168 | The day's water total drops by the removed entry's amount. |
| Storage.RemoveLatestOthers | src/utils/storage.ts:159-168 | Every other user's or day's water list is unchanged. |
| Storage.LogStore.constructor | src/utils/storage.ts:91 | With nothing stored, every collection is empty. |
| Storage.LogStore.SaveFoodLog | src/utils/storage.ts:109-112 | The food list gains exactly the new log at its end, and the other lists are unchanged. |
| Storage.LogStore.DeleteFoodLog | src/utils/storage.ts:120-123 | The food list keeps exactly the logs with another id, and the other lists are unchanged. |
| Storage.LogStore.SaveWaterLog | src/utils/storage.ts:143-146 | The water list gains exactly the new log at its end, and the other lists are unchanged. |
| Storage.LogStore.RemoveLatestWaterLog | src/utils/storage.ts:159-168 | The water list becomes the list without its latest entry for that user and day, and the other lists are unchanged. |
| Storage.LogStore.SaveWeightLog | src/utils/storage.ts:185-188 | The weight list gains exactly the new log at its end, and the other lists are unchanged. |
| Storage.LogStore.SaveExerciseLog | src/utils/storage.ts:213-216 | The exercise list gains exactly the new log at its end, and the other lists are unchanged. |
| Storage.LogStore.DeleteExerciseLog | src/utils/storage.ts:224-227 | The exercise list keeps exactly the logs with another id, and the other lists are unchanged. |
| Storage.SavedFoodIsListed | src/utils/storage.ts:98-112 | A saved food log is listed for its user and day. |
| Storage.SavedFoodDates | src/utils/storage.ts:90-112 | A saved log's date becomes one of its user's logged dates, and other users' dates are unchanged. |
| Storage.SavedWaterTotal | src/utils/storage.ts:143-157 | Saving water adds its amount to its own user and day's total only. |
| Storage.SavedExerciseTotal | src/utils/storage.ts:213-238 | Saving an exercise adds its calories to its own user and day's burned total only. |
| Activity.FactorTableInvariants | src/components/Activity.tsx:24-39 | The table's keys are distinct, and every factor lies between 3.2 and 12.5. |
| Activity.Lookup | src/components/Activity.tsx:52 | `table[key]` is absent iff no entry has that key. Otherwise it is an entry's factor. |
| Activity.LookupAt | src/components/Activity.tsx:52 | A key no earlier entry repeats is looked up to its own factor. |
| Activity.TypeFactorFromTable | src/components/Activity.tsx:24-52 | Every exercise type is a key, so its factor comes from the table and the 5.0 fallback is never used. |
| Activity.FirstMatchFrom | src/components/Activity.tsx:56-61 | The index found is the first, from the start position on, of a key the name contains. Without one, no key from there on is contained. |
| Activity.FirstKeyFactor | src/components/Activity.tsx:56-61 | The `for...in` loop with `break` yields the factor of the first contained key in table order, else the starting factor. |
| Activity.ComputeFactor | src/components/Activity.tsx:52-61 | The effect's factor is the type's factor, overridden by the first key the lower-cased name contains. |
| Activity.FactorBounds | src/components/Activity.tsx:24-61 | The factor always lies between 3.2 and 12.5 kcal per minute. |
| Activity.FirstKeyInTableOrder | src/components/Activity.tsx:55-61 | A yoga session named "Yoga and running" takes running's 11.4, the earlier key in table order. |
| Activity.RoundedEstimate | src/components/Activity.tsx:63 | NaN iff the duration did not parse. Otherwise the estimate is within one half of minutes × factor. |
| Activity.EstimateFor | src/components/Activity.tsx:49-63 | No recomputation iff the duration is empty, and NaN iff a non-empty duration does not parse. |
| Activity.EstimateCalories | src/components/Activity.tsx:48-65 | The effect's outcome is the estimate for the duration at the computed factor. |
| Activity.EstimateMonotone | src/components/Activity.tsx:63 | With a positive factor, a longer non-negative duration never gives a smaller estimate, and none is negative. |
| Activity.UnnamedFactor | src/components/Activity.tsx:52-61 | A name without a keyword uses the type's factor. |
| Activity.DefaultFormEstimate | src/components/Activity.tsx:19-63 | The form's defaults agree: 30 minutes of cardio is estimated at the preset 240 kcal. |
| Activity.WaterProgress | src/components/Activity.tsx:123-124 | The progress is capped at 100, reaches 100 iff the intake meets the goal, is the exact share below it, and is >= 0 for a non-negative intake. |
| Activity.AddWaterRaisesIntake | src/components/Activity.tsx:76-87 | A glass for the page's user and day raises the intake by its amount, and the exercise list is unchanged. |
| Activity.ResetWaterLowersIntake | src/components/Activity.tsx:89-94 | Reset lowers the intake by the day's latest glass, or changes nothing when the day has none. |
| Activity.AddExerciseRaisesBurned | src/components/Activity.tsx:125 | A logged exercise raises the total burned by its calories iff it is the page's user and day. Water is unchanged. |
| Profile.UpdateGoal | src/components/Profile.tsx:51-63 | The new goal is set and the calorie target is the rounded goal calculation. The macros are whole grams within half a gram of the 30/40/30 split of that target, which is `Math.round` of it. No other field changes. |
| Profile.RoundedTarget | src/components/Profile.tsx:54 | The target is within one half of the exact calorie goal. |
| Profile.RoundShift | src/components/Profile.tsx:54 | Rounding commutes with whole-number offsets. |
| Profile.GoalTargetsOffsets | src/components/Profile.tsx:53-59 | After rounding, the lose and gain targets sit exactly 500 below and 300 above maintenance. |
| Profile.UpdateGoalIdempotent | src/components/Profile.tsx:51-63 | Choosing the same goal again changes nothing. |
| Profile.NewWeightLog | src/components/Profile.tsx:30-36 | The log carries the user, the weight and the instant. An empty note is stored as absent, not as "". |
| Profile.AddWeight | src/components/Profile.tsx:25-42 | A weight that does not parse changes nothing. Otherwise exactly one log is appended, only currentWeight changes on the user, and the other stored lists are unchanged. |
| Profile.AddedWeightIsLatest | src/components/Profile.tsx:38-45 | A weight logged no earlier than the user's others becomes the latest weight. |
| Profile.ShownWeightsNewestFirst | src/components/Profile.tsx:20-23 | The page's second sort leaves the getter's list as it is, and the list shown is newest first. |
| Profile.LocalCategoryAgrees | src/components/Profile.tsx:71-76 | The page's own category function agrees with the helpers' thresholds at every BMI. |
| Profile.ProfileCategory | src/components/Profile.tsx:70-78 | For a non-zero height the category is that of the helpers' BMI. For a zero height it is Obese, or Underweight for a negative weight. |
| AIChat.FreeChar | src/components/AIChat.tsx:50 | Being free of a one-character pattern is not containing that character. |
| AIChat.ReplaceAndFree | src/components/AIChat.tsx:50 | No "and" is left after `replace(/and/g, ',')`. |
| AIChat.ReplaceAndIdentity | src/components/AIChat.tsx:50 | Input that holds no "and" is unchanged. |
| AIChat.ReplaceDots | src/components/AIChat.tsx:50 | Each '.' becomes ',', every other character is kept, and the length is unchanged. |
| AIChat.ReplaceDotsIdentity | src/components/AIChat.tsx:50 | Text without full stops is unchanged. |
| AIChat.CleanedFree | src/components/AIChat.tsx:50 | After both replacements, no '.' and no "and" is left. |
| AIChat.SplitComma | src/components/AIChat.tsx:51 | `split(',')` yields at least one piece, none containing ','. The first piece is a prefix of the text. |
| AIChat.SplitJoin | src/components/AIChat.tsx:51 | Joining the pieces with ',' gives the text back. |
| AIChat.JoinSplit | src/components/AIChat.tsx:51 | Splitting comma-free pieces joined by ',' gives the pieces back. |
| AIChat.SplitFree | src/components/AIChat.tsx:51 | Every piece of a text free of a pattern is free of it. |
| AIChat.TrimFree | src/components/AIChat.tsx:51 | Trimming keeps a string free of what it was free of. |
| AIChat.PiecesFree | src/components/AIChat.tsx:50-51 | No piece contains '.', ',' or "and". |
| AIChat.ItemsClean | src/components/AIChat.tsx:50-51 | Every item is longer than one character and trimmed, and contains no ',', '.' or "and". |
| AIChat.ItemsComplete | src/components/AIChat.tsx:51 | Every piece that trims to more than one character is an item. |
| AIChat.NoAFree | src/components/AIChat.tsx:50 | A text without the letter 'a' holds no "and". |
| AIChat.AndInsideWord | src/components/AIChat.tsx:50-51 | "and" is a separator even inside a word, so "Sandwich" loses its "S" and yields the single item "wich". |
| AIChat.AndInsideWordPieces | src/components/AIChat.tsx:50-51 | Such a word splits into its first letter and the rest after "and". |
| AIChat.ShortPieceDropped | src/components/AIChat.tsx:51 | A one-character piece is dropped by the length filter, and a longer trimmed piece is kept. |
| AIChat.Ingredients | src/components/AIChat.tsx:53 | There is one ingredient per item. Each has the item's first character upper-cased and the rest unchanged. |
| AIChat.IngredientsNonEmpty | src/components/AIChat.tsx:51-53 | Every ingredient of a parsed line is longer than one character. |
| AIChat.OrElse | src/components/AIChat.tsx:59 | The k-th ingredient with its fallback is that ingredient when it is there and non-empty, else the fallback. |
| AIChat.Suggestions | src/components/AIChat.tsx:56-96 | There are exactly three suggestions. Each lists the parsed ingredients in order followed by at least one more, and carries positive calories, protein and fiber. |
| AIChat.SuggestionsFixedExtras | src/components/AIChat.tsx:56-96 | Whatever the input, each recipe has the same nutrients and the same extras after the user's ingredients. Only the name depends on them. |
| AIChat.SuggestionNames | src/components/AIChat.tsx:59-85 | The k-th recipe is named after the k-th ingredient when there is one, else after its fixed word. |
| AIChat.LogRecipe | src/components/AIChat.tsx:109-128 | The log is one serving with the requested meal and a "recipe-" food id. It copies calories, macros and fiber, and carries no micronutrients or fat subtypes. |
| AIChat.LoggedRecipeOnDashboard | src/components/AIChat.tsx:109-130 | A logged recipe adds its calories and macros to the dashboard and leaves the micronutrient totals unchanged. |
| AIChat.RecipeReply | src/components/AIChat.tsx:50-103 | The reply holds three suggestions. Its ingredients are the parsed items, each capitalised, in order, and every suggestion lists them first. |
| AIChat.Chat.constructor | src/components/AIChat.tsx:21-25 | The chat opens with one greeting, by name or to "there", with an empty input and no typing indicator. |
| AIChat.Chat.Type | src/components/AIChat.tsx:219 | Typing sets the input and nothing else. |
| AIChat.Chat.Send | src/components/AIChat.tsx:40-47 | Blank input changes nothing. Otherwise exactly one user message is appended, the input is cleared, the typing indicator is set and the sent text is returned for the reply. |
| AIChat.Chat.Reply | src/components/AIChat.tsx:98-104 | Exactly one message, the recipes for the sent text, is appended, and the typing indicator is cleared. |
| AIChat.Chat.LogToMeal | src/components/AIChat.tsx:109-136 | The recipe's log is appended to the stored food logs, the other lists are unchanged, and exactly one confirmation message is appended. |
| AIChat.LoggedRecipeIsListed | src/components/AIChat.tsx:109-129 | The logged recipe is listed among the user's food logs of its day. |

## Left out

- Cloud sync, `localStorage` serialisation, the current user record and the
  `dataUpdated`/`openAIChat` events are left out. These are I/O and UI
  plumbing. `saveCurrentUser` and `onUserUpdate` appear only as the updated
  `User` value the model returns.
- The clock, the date library and the id generator are parameters:
  - `getTodayDate`, `getCurrentTime`, `generateId`, `formatDate`, `parseDate`,
    `getDaysBetween` and `getDateRange` are not modelled;
  - today's date, the time and every id are passed in as parameters.
- `calculateStreak` mixes UTC (`toISOString`) with local `setDate` steps. The
  model uses one day numbering, so the time-zone offset is not modelled.
- Numbers are exact reals. IEEE rounding, `toFixed`/`formatNumber`, Infinity
  and NaN arithmetic are not modelled:
  - a NaN from a failed parse is an absent value;
  - `|| 0` and `|| 1` act on that absence and on 0 only.
- `Text.ParseFloat` reads leading whitespace, an optional sign, digits and an
  optional fraction, and it ignores what follows. Exponents are not read
  ("1e3" parses as 1), and "Infinity" parses as absent.
- Lower-casing, upper-casing and `trim` are ASCII only. There is no Unicode
  case mapping and no Unicode whitespace.
- AIChat.Items, AIChat.LongEnough and Text.Capitalize count a string's length
  in Unicode characters, while JavaScript counts UTF-16 code units. A single
  character outside the Basic Multilingual Plane, such as an emoji, has
  length 2 in the source and is kept as an ingredient, but the model drops it.
  `charAt(0)` on such a character takes half of it; the model takes the whole
  character.
- `Number(e.target.value)` in the goal editor is not modelled. `EditCalories`
  takes the typed value as a number.
- Folds.SortDesc: JavaScript's `sort` is modelled as a stable descending sort
  by key. Its stability, and the tie order of entries at the same instant, is
  not proved.
- FoodDatabase.Foods: 19 of the table's rows are copied exactly. They cover
  every category used and every serving unit. The invariant lemmas are proved
  over those rows, not over all 121.
- React state, rendering, modals, scrolling and form resets (`setShowModal`,
  `setServings('1')`, `setSearchQuery('')`) are left out. The display-only
  rounding in the JSX is left out too.
- Activity.tsx `handleAddExercise` and `handleDeleteExercise`: building the
  exercise log with `parseInt` and the `confirm` dialog are left out. The
  stored effect is modelled by `Storage.LogStore.SaveExerciseLog` and
  `Storage.LogStore.DeleteExerciseLog`, and its effect on the page by
  `Activity.AddExerciseRaisesBurned`.
- Dashboard.tsx `handleAddWater` and `handleRemoveWater` have no members of
  their own. They are `Storage.LogStore.SaveWaterLog` and
  `Storage.LogStore.RemoveLatestWaterLog` followed by a reload, whose effect
  is stated by `Dashboard.AddActivityToSummary` and
  `Storage.RemoveLatestTotal`.
- Chef chat:
  - the message texts are abstracted to their data (greeting name, ingredients
    and suggestions, logged recipe and meal);
  - the recipe steps, the 1200 ms `setTimeout` and the suggestion ids are left
    out;
  - the meal-type string cast (`mealType as any`) is modelled as a `MealType`.
- The Profile page computes BMI inline with the same formula as the helpers.
  The model uses `Helpers.BMI` for it, with IEEE's zero-height results given
  explicitly in `Profile.ProfileCategory`.
