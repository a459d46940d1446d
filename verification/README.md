# AI4Food-NutritionFW diet generator, modelled in Dafny

AI4Food-NutritionFW generates synthetic diets. It builds a schedule tree for each subject: the
subject holds weeks ("week_1", ...), each week holds days ("day_01", ...), each day holds meals
("meal_1", ...), and each meal holds seven dish lists (main, bread, dessert, drinks, appetizer,
snack, side). Each day also holds a staging bucket, `pre_dishes`. The tree is filled in two
phases:

- `compute_subject_diet` draws each week's food-group frequencies from the profile
  configuration and looks the groups up in the nutritional-level taxonomy.
  - Groups below level 5 are pooled for the week, shuffled, and spread over the days with
    `select_values_from_n_freq`.
  - Groups at level 5 or above are drawn again for every day.
  - Everything lands in the days' staging buckets.
- `balance_subject_diet` moves each day's staged dishes into its meals.
  - Mains go to at most `max_meals_with_main_dishes` meals, and never more than
    `max_main_dishes_per_meal` per meal.
  - Bread and sides go only to meals with a main; appetizers and snacks only to meals
    without one; desserts and drinks anywhere. Each of these gets at most one dish per meal.
  - A dish that finds no place is dropped.
  - Finally the staging bucket is deleted, and the empty meals are removed and the rest
    renumbered.

The project has one module per concern:

| module | models |
|---|---|
| `Wrappers` | `Option`, `Result` and the Python exceptions as an `Error` value |
| `Seqs`, `Dicts` | lists and ordered dictionaries: `d[k] = v`, `del d[k]`, `d[new] = d.pop(old)` |
| `Keys` | `week_in2_str`, `day_in2_str`, `meal_in2_str` and `int(key.split("_")[-1])` |
| `Dishes` | the seven categories and the `Dish` class (a class whose lists change in place) |
| `Days` | the `Meal` class (one day): meal lookup, staging, `get_num_current_dishes`, `remove_empty_meals` |
| `Random` | a random generator that promises only the support of `randint`, `sample`, `choice` and `shuffle` |
| `Selection` | `select_values_from_n_freq` and what its results look like |
| `Profile` | `unzip_values`, `select_random_number` and `FoodGroupParameters` |
| `Subjects` | the `Subject` and `Diet` constructors |
| `Taxonomy` | the taxonomy lookup and the plate classification of `get_user_diets` |
| `Staging`, `Allocator`, `Compute` | `compute_subject_diet` |
| `Balancer`, `Outcomes` | `balance_subject_diet` and what a balanced day looks like |
| `Pipeline` | that the constructor's output is a valid input to both phases |

Modelling conventions:

- Exceptions are `Err` results, and every operation states which exception it raises when.
- Randomness goes through a `Rng` object. The methods that draw return ghost witnesses of
  their draws (the shuffled orders, the drawn days, the meals that got a main). Their
  contracts describe the result in terms of those draws.
- A whole week is described by a specification predicate. `Compute.Computed` relates the
  week before `compute_subject_diet` to the week after it, and `Balancer.BalancedDay` does
  the same for `balance_subject_diet` on one day. The lemmas of `Outcomes` and `Allocator`
  then derive the promised properties from these predicates.

## Model

| member | source | states |
|---|---|---|
| Dishes.ExactType | src/AI4FoodNutritionFW_classes.py:271-294 | `remove_dish` compares category names exactly: Some(t) exactly when the string is t's name, None when it names no category |
| Dishes.ParseTypeMeaning | src/AI4FoodNutritionFW_classes.py:252-268 | `add_dish` compares case-insensitively: a string selects t exactly when its `lower()` form (A to Z and the Kelvin sign U+212A folded to plain letters) is t's name, and selects nothing when that form is no name |
| Dishes.ParseName | src/AI4FoodNutritionFW_classes.py:252-294 | every category's own name is accepted by both comparisons |
| Dishes.ParseIgnoresCase | src/AI4FoodNutritionFW_classes.py:253-266 | `add_dish` ignores case: lower-casing any category string first does not change the category it selects |
| Dishes.ExactNames | src/AI4FoodNutritionFW_classes.py:253-294 | a string `remove_dish` accepts has no upper-case letter, and `add_dish` files it under the same category |
| Dishes.LowerOfLowerCase | src/AI4FoodNutritionFW_classes.py:253 | `lower()` leaves a lower-case name unchanged |
| Dishes.IndexOf | src/AI4FoodNutritionFW_classes.py:273-274 | `list.remove` finds the first occurrence of the dish |
| Dishes.RemoveFirstCount | src/AI4FoodNutritionFW_classes.py:273-292 | removing a present dish takes away exactly one copy of it |
| Dishes.Bucket.Put | src/AI4FoodNutritionFW_classes.py:243-249 | replacing one category's list leaves the other six lists as they were |
| Dishes.Bucket.Add | src/AI4FoodNutritionFW_classes.py:252-266 | appending to one category puts the dish at the end of that list, leaves the other six unchanged, and raises the dish count by one |
| Dishes.BucketEq | src/AI4FoodNutritionFW_classes.py:242-249 | a `Dish` is determined by its seven lists |
| Dishes.CountZero | src/AI4FoodNutritionFW_classes.py:333-335 | `get_number_dishes` is 0 exactly when all seven lists are empty |
| Dishes.NameInjective | src/AI4FoodNutritionFW_classes.py:300-301 | different categories have different dictionary keys |
| Dishes.AllTypesComplete | src/AI4FoodNutritionFW_classes.py:300-301 | `get_all_dishes` lists all seven categories |
| Dishes.JsonEntries | src/AI4FoodNutritionFW_classes.py:306-330 | the JSON dictionary has no more entries than categories checked |
| Dishes.JsonEntriesContents | src/AI4FoodNutritionFW_classes.py:306-330 | among the categories checked, one has an entry exactly when its list is non-empty, and the entry is that list unchanged |
| Dishes.NamesAbsent | src/AI4FoodNutritionFW_classes.py:306-330 | a category that is not checked has no entry |
| Dishes.AllDishesJsonContents | src/AI4FoodNutritionFW_classes.py:306-330 | `get_all_dishes_json` holds exactly the non-empty categories, each with its list unchanged |
| Dishes.AddByName | src/AI4FoodNutritionFW_classes.py:252-268 | `add_dish` on a value succeeds exactly for an accepted category and appends to that list; any other category raises ValueError |
| Dishes.Dish.constructor | src/AI4FoodNutritionFW_classes.py:242-249 | a new `Dish` has seven empty lists |
| Dishes.Dish.AddDish | src/AI4FoodNutritionFW_classes.py:252-268 | an accepted category gets the dish at the end of its list and nothing else changes; otherwise ValueError and the object is unchanged |
| Dishes.Dish.RemoveDish | src/AI4FoodNutritionFW_classes.py:271-296 | returns True exactly for the seven exact names; then the first occurrence of the dish, if any, is removed from that list only; otherwise nothing changes |
| Days.NewMeal | src/AI4FoodNutritionFW_classes.py:122-129 | `Meal(n)` has empty meals numbered 1 to n (none for n at most 0) with distinct keys, and an empty staging bucket |
| Days.RefKeyNumber | src/AI4FoodNutritionFW_classes.py:133-136 | a meal number n names the key `meal_in2_str(n)` |
| Days.Locate | src/AI4FoodNutritionFW_classes.py:138 | a found meal's key is the key looked up |
| Days.LocateComplete | src/AI4FoodNutritionFW_classes.py:138 | every meal with the key is found, and in a dictionary it is the meal found |
| Days.AddNewDish | src/AI4FoodNutritionFW_classes.py:132-138 | succeeds exactly for a present meal and an accepted category and appends to that meal only; an unknown meal raises KeyError, an unknown category ValueError |
| Days.AddNewPredish | src/AI4FoodNutritionFW_classes.py:141-142 | `add_dish` on the staging bucket with the meals unchanged; once the bucket is deleted it raises AttributeError |
| Days.RemoveMealDish | src/AI4FoodNutritionFW_classes.py:145-151 | KeyError exactly for an unknown meal; otherwise `Dish.remove_dish` on that meal only, returning its result |
| Days.GetNumCurrentDishes | src/AI4FoodNutritionFW_classes.py:154-175 | the length of the named list of the named meal; an inexact category name raises ValueError, and a missing meal KeyError |
| Days.Renumber | src/AI4FoodNutritionFW_classes.py:224-231 | the meals numbered 1, 2, ... in order, with their dishes unchanged |
| Days.CompactMeaning | src/AI4FoodNutritionFW_classes.py:217-231 | after `remove_empty_meals` the keys are exactly meal_1..meal_K with K at most the former count, every meal has a dish, and the meals are the former non-empty ones in order |
| Days.FilterKept | src/AI4FoodNutritionFW_classes.py:219-221 | the delete loop keeps the non-empty meals' dishes, in their former order |
| Days.CompactKeeps | src/AI4FoodNutritionFW_classes.py:219-221 | a meal is kept exactly when it has a dish |
| Days.FilterSubsequence | src/AI4FoodNutritionFW_classes.py:219-221 | deleting meals keeps the remaining numbers increasing |
| Days.RemoveEmptyMeals | src/AI4FoodNutritionFW_classes.py:217-231 | the day with its meals compacted and its staging bucket unchanged |
| Days.DropEmptyMeals | src/AI4FoodNutritionFW_classes.py:219-221 | the delete loop leaves exactly the non-empty meals, in order |
| Days.RenumberMeals | src/AI4FoodNutritionFW_classes.py:224-231 | the pop-and-reinsert loop leaves the meals numbered 1, 2, ... in their former order |
| Days.WalkedDone | src/AI4FoodNutritionFW_classes.py:224-231 | once every key has been visited, the meals are all renumbered by rank |
| Keys.NatToString | src/utils.py:49-57 | `str(n)` is a digit string with no leading zero, one character exactly below 10 |
| Keys.ZFill | src/utils.py:49-57 | `zfill(w)` pads on the left with zeros to width w and keeps the string as its suffix |
| Keys.LastField | src/AI4FoodNutritionFW_classes.py:226 | `split("_")[-1]` is a suffix of the key without underscores |
| Keys.ParseNat | src/AI4FoodNutritionFW_classes.py:226 | on the unsigned numerals the program's keys end with, `int()` gives a value exactly for the non-empty digit strings |
| Keys.ParseNatToString | src/AI4FoodNutritionFW_classes.py:226 | `int(str(n)) == n` |
| Keys.ParseZeroPadded | src/utils.py:53 | zero padding does not change the number read back |
| Keys.LastFieldAfterUnderscore | src/AI4FoodNutritionFW_classes.py:226 | the last field of "prefix_digits" is the digits |
| Keys.KeyNumberOfDigits | src/AI4FoodNutritionFW_classes.py:226 | reading a padded key back gives its number |
| Keys.MealKeyRoundTrip | src/utils.py:57 | `int(meal_in2_str(n).split("_")[-1]) == n` |
| Keys.DayKeyRoundTrip | src/utils.py:53 | the day key reads back to its number |
| Keys.MealKeyInjective | src/utils.py:57 | two meal keys are equal exactly when their numbers are |
| Keys.KeyPadding | src/utils.py:49-57 | day keys are padded to two digits; week and meal keys are not padded |
| Dicts.Find | src/AI4FoodNutritionFW_classes.py:138 | a dictionary lookup finds the first entry with the key, or reports that none has it |
| Dicts.FindUnique | src/AI4FoodNutritionFW_classes.py:138 | in a dictionary, each entry is found by its own key |
| Dicts.Assign | src/AI4FoodNutritionFW_classes.py:349 | `d[k] = v` overwrites the entry in place or appends a new one, and keeps the keys distinct |
| Dicts.Del | src/AI4FoodNutritionFW_classes.py:454 | `del d[k]` removes exactly one entry and the key is gone |
| Dicts.RekeyAt | src/AI4FoodNutritionFW_classes.py:230 | `d[new] = d.pop(old)` removes the entry and appends its value under the new key |
| Dicts.FilterMembers | src/AI4FoodNutritionFW_classes.py:452-454 | the entries left after deleting a value class are exactly those outside that class |
| Dicts.FilterDistinct | src/AI4FoodNutritionFW_classes.py:452-454 | deleting entries keeps the keys distinct |
| Random.Rng.RandInt | src/utils.py:285 | `randint(lo, hi)` lies in [lo, hi], both ends included |
| Random.Rng.Sample | src/utils.py:298 | `sample(range(lo, hi), k)` returns k distinct values of [lo, hi) |
| Random.Rng.Choice | src/AI4FoodNutritionFW_classes.py:42 | `choice(s)` is an element of s |
| Random.Rng.Shuffle | AI4FoodNutritionFW.py:75 | `shuffle` returns a permutation of its list |
| Seqs.RepeatCount | src/utils.py:297 | in `lst * k`, each value occurs k times as often as in lst |
| Seqs.RepeatElems | AI4FoodNutritionFW.py:147 | `lst * k` holds a value exactly when k > 0 and lst holds it |
| Selection.SelectValuesFromNFreq | src/utils.py:291-301 | defined exactly when `random.sample` accepts its count: freq >= num, or 0 <= freq <= len(range(1, num + sum)), so `sample(range(1, 0), 0)` gives []; the result is one of the selections the policy can produce; otherwise ValueError |
| Selection.SelectionLength | src/utils.py:291-301 | the result has exactly freq values |
| Selection.BaseCount | src/utils.py:293-297 | the repeated range holds each value of [sum, num+sum) exactly freq // num times, and nothing else |
| Selection.SelectionCounts | src/utils.py:293-299 | when freq >= num, each value of the range occurs freq // num times, plus one if it was sampled for the rest; values outside the range never occur |
| Selection.SelectionExtras | src/utils.py:293-299 | when freq >= num, exactly freq % num values get the extra copy, so each value occurs freq // num or freq // num + 1 times |
| Selection.SelectionUnder | src/utils.py:300-301 | when freq < num, the values are distinct and lie in [1, num+sum-1] whatever sum is, so with sum 0 the value 0 never appears |
| Selection.SelectionBounds | src/utils.py:291-301 | with sum 0 or 1 every value lies in [sum, num+sum) |
| Selection.SelectionSpread | src/utils.py:291-301 | with sum 0 or 1 at most min(freq, num) different values appear |
| Profile.UnzipValues | src/utils.py:264-277 | accepts "-", numerals and "a-b" shapes only; the "a-b" shape gives single digits; a too short string raises IndexError, anything else TypeError |
| Profile.UnzipDash | src/utils.py:265-267 | "-" gives (-1, -1) |
| Profile.UnzipNumber | src/utils.py:268-270 | a number v gives (v, v) |
| Profile.UnzipDigits | src/utils.py:271-273 | "a-b" with single digits gives (a, b) |
| Profile.UnzipIgnoresTail | src/utils.py:271-273 | only three characters are read: "a-b" followed by any text gives (a, b), so "1-23" gives (1, 2) |
| Profile.UnzipWideRange | src/utils.py:271-275 | a range whose lower bound has two or more digits, such as "10-12", raises TypeError |
| Profile.SelectRandomNumber | src/utils.py:281-287 | an integer in [min, max] for a two-number list, None for anything else; an inverted range raises ValueError |
| Profile.Assigned | src/AI4FoodNutritionFW_classes.py:346-447 | the assignments build a dictionary with distinct keys |
| Profile.KeepDefinedMembers | src/AI4FoodNutritionFW_classes.py:451-454 | an entry survives exactly when its value is not a number equal to -1 or 0; list-valued and None entries always survive |
| Profile.FoodGroupParameters.constructor | src/AI4FoodNutritionFW_classes.py:346 | the frequency dictionary starts empty |
| Profile.FoodGroupParameters.Fill | src/AI4FoodNutritionFW_classes.py:349-446 | succeeds exactly when every key exists and no drawn range is inverted; each group then holds a value in its line's support, in table order; otherwise KeyError or ValueError |
| Profile.FoodGroupParameters.Create | src/AI4FoodNutritionFW_classes.py:345-448 | `FoodGroupParameters(conf)` succeeds under the same condition, and holds the drawn entries minus the sentinels, in order |
| Profile.FoodGroupParameters.RemoveFoodParams | src/AI4FoodNutritionFW_classes.py:451-454 | the loop deletes exactly the sentinel entries, keeps the others in order, and keeps the keys distinct |
| Subjects.RandIntOf | src/AI4FoodNutritionFW_classes.py:58 | `randint(v[0], v[1])` succeeds exactly on a non-inverted two-number range and lies in it; otherwise IndexError, TypeError or ValueError as Python raises them |
| Subjects.NewDiet | src/AI4FoodNutritionFW_classes.py:93-102 | `Diet(days_week, num_meals, type)` has days_week days (none if days_week is at most 0), each with empty meals whose count lies in the num_meals range; a bad range fails only if there is a day to build |
| Subjects.AlternativesDiffer | src/AI4FoodNutritionFW_classes.py:40-46 | a drawn secondary profile is one of the three diet types and never the primary one |
| Subjects.AlternativesDefined | src/AI4FoodNutritionFW_classes.py:40-46 | a secondary profile is drawn exactly when the primary type is one of the three diet types |
| Subjects.SecondField | src/AI4FoodNutritionFW_classes.py:49 | `int(v[1])`: a list's second number, or the second character of a string if it is a digit; IndexError exactly for fewer than two items, ValueError for a non-digit |
| Subjects.MarkIrregular | src/AI4FoodNutritionFW_classes.py:52-53 | exactly the sampled weeks take the secondary profile; the other weeks keep their type |
| Subjects.IrregularCount | src/AI4FoodNutritionFW_classes.py:49-53 | with distinct sampled weeks, exactly as many weeks follow the secondary profile as were sampled |
| Subjects.BuildWeeks | src/AI4FoodNutritionFW_classes.py:56-62 | one new week per diet type, week i with the i-th days_week draw, which lies in the range; every draw before the last is at most 7, and a last draw above 7 raises ValueError; succeeds exactly when every week can be built (`days_week` a range, every draw at most 7, `num_meals` present and a range for a week with days); a missing `days_week` raises KeyError, a malformed range the error Python raises for it; a failure means some week could not be built with the draws actually made |
| Subjects.Subject.constructor | src/AI4FoodNutritionFW_classes.py:29-34 | the fields are the arguments |
| Subjects.Subject.AssignSecondary | src/AI4FoodNutritionFW_classes.py:39-46 | a "none"/"None" secondary profile is replaced by an alternative of the primary type, and the value is written back into the shared configuration; a missing key raises KeyError |
| Subjects.Subject.WeekTypes | src/AI4FoodNutritionFW_classes.py:36-53 | `diet_type_weeks`: every week follows the diet type, except that a variable subject switches exactly `int(regularity_weeks[1])` distinct weeks of range(0, weeks) to the secondary profile; succeeds exactly when that sample can be drawn; a missing `secondary_profile` raises KeyError; for a variable subject only the shared configuration's secondary profile changes, to an alternative of the diet type when it was unset; otherwise the configuration is unchanged |
| Subjects.Subject.Create | src/AI4FoodNutritionFW_classes.py:29-62 | `weeks` new weeks ("week_1", ...) with their days_week draws; succeeds exactly when the irregular weeks can be sampled (for a variable subject) and every week can be built; a draw above 7 raises ValueError; a variable subject has exactly `int(regularity_weeks[1])` distinct weeks switched to the secondary profile, and all other weeks follow the diet type; a failure means the sample could not be drawn or some week could not be built with the draws made; only the secondary profile of the shared configuration changes, to an alternative of the diet type when it was unset, and only for a variable subject |
| Taxonomy.Search | src/utils.py:336-341 | the rows found are never more than the table's rows |
| Taxonomy.SearchMembers | src/utils.py:334-341 | a row is found exactly when it is in the table and its root, category or subcategory equals the key |
| Taxonomy.SearchOrder | src/utils.py:336-341 | the rows come in table order |
| Taxonomy.SearchCount | src/utils.py:346-349 | `num_rows` counts the matching rows; an empty result is returned, not raised |
| Taxonomy.SearchFoodGroup | src/utils.py:334-349 | the number returned is the number of rows returned |
| Taxonomy.Classify | src/utils.py:549-567 | a plate without rows fails; a plate counts as fruit exactly when its first row's category is Fruits |
| Taxonomy.ClassifyFirstMatch | src/utils.py:549-554 | earlier tests win: every row with category Fruits under Sixth Level counts as fruit, not cereal |
| Taxonomy.TallyTotal | src/utils.py:544-567 | every plate found in the taxonomy is counted exactly once: under one of the nine counters, or as matching none |
| Taxonomy.HitsOnce | src/utils.py:549-567 | the nine counters are distinct, so a classified plate hits exactly one |
| Taxonomy.CountPlate | src/utils.py:546-567 | counting one plate fails with KeyError exactly when its food group has no rows |
| Taxonomy.TallyMap | src/utils.py:527-535 | all nine counters exist |
| Taxonomy.TallyMapMeaning | src/utils.py:544-567 | counting front to back gives each counter the number of plates classified under it |
| Taxonomy.CountPlates | src/utils.py:527-567 | succeeds exactly when every plate has rows, and each counter then holds its tally; otherwise KeyError |
| Staging.AddItemsDefined | src/AI4FoodNutritionFW_classes.py:252-268 | a run of `add_dish` calls succeeds exactly when every category is accepted, and otherwise raises ValueError |
| Staging.AddItemsCount | src/AI4FoodNutritionFW_classes.py:333-335 | a run of `add_dish` calls raises the dish count by the number of items |
| Staging.AddItemsLists | src/AI4FoodNutritionFW_classes.py:252-266 | each list receives, at its end, the names filed under it, in order |
| Staging.TaggedAccepted | AI4FoodNutritionFW.py:79-80 | the category keys of `get_all_dishes` are accepted by `add_new_predish` |
| Staging.StageInPool | AI4FoodNutritionFW.py:48-66 | the `add_dish` calls into the pool succeed exactly when every category is accepted, and then the pool is the staged value |
| Staging.StageOnDay | AI4FoodNutritionFW.py:93-117 | the `add_new_predish` calls on a day: AttributeError once staging is deleted, ValueError for an unknown category, otherwise the meals are unchanged and the bucket is grown by the items |
| Staging.DrawItems | AI4FoodNutritionFW.py:44-66 | exactly max(f, 0) items: copies of the key (not the subcategory) for a single-row group, otherwise items of rows at indices in [0, num_rows) drawn by the selection policy; no frequency raises TypeError, no rows ValueError or ZeroDivisionError |
| Allocator.HighMembers | AI4FoodNutritionFW.py:40-69 | after the first loop, an entry remains exactly when its group is not below level 5 |
| Allocator.HighStep | AI4FoodNutritionFW.py:40-69 | one iteration of the first loop deletes the current key or keeps it, leaving the entries not yet visited in place |
| Allocator.DrawnStaged | AI4FoodNutritionFW.py:44-66 | what a group below level 5 draws is what it stages |
| Allocator.LowGroup | AI4FoodNutritionFW.py:41-69 | one group of the first loop: a group below level 5 is staged in the pool and marked for deletion, a group at level 5 or above is left; a group without rows raises IndexError, and a group with rows and, below level 5, a usable frequency succeeds |
| Allocator.LowTier | AI4FoodNutritionFW.py:40-69 | the first loop leaves exactly the entries at level 5 or above, in order, and the pool holds every lower group's items; it succeeds when every group can be staged, and any group without rows makes it fail |
| Allocator.ChosenCount | AI4FoodNutritionFW.py:76-80 | a day receives as many dishes as its number occurs among the drawn days |
| Allocator.ChosenSpread | AI4FoodNutritionFW.py:74-80 | for c dishes over d days: with c >= d every day receives c // d or c // d + 1 of them, and exactly c % d days receive the extra one; with c < d every day receives at most one |
| Allocator.ChosenPartition | AI4FoodNutritionFW.py:74-80 | with every drawn day in 1..d, the dishes of days 1..d together are exactly the shuffled dishes |
| Allocator.GatheredCount | AI4FoodNutritionFW.py:74-80 | each dish lands, counted with its copies, exactly once over the days |
| Allocator.ReceivedStep | AI4FoodNutritionFW.py:79-80 | staging one more dish of a category appends it to that category only |
| Allocator.DistributeType | AI4FoodNutritionFW.py:74-80 | one category: the shuffled order is a permutation of the dishes, each day receives exactly the dishes drawn for it, and the drawn days lie in 1..days_week; zero days raise ZeroDivisionError, negative day counts fail on any dish |
| Allocator.StageDrawn | AI4FoodNutritionFW.py:78-80 | the `pop(0)` loop stages on each day exactly the dishes drawn for it, in order |
| Allocator.Distribute | AI4FoodNutritionFW.py:72-80 | the whole pool, category by category: each category's order is a permutation of its pool list and follows the selection policy; succeeds exactly when the week has days, or has a negative count and an empty pool |
| Allocator.Leads | AI4FoodNutritionFW.py:84 | `freq[0] != -1` is false exactly for a list starting with -1; a number or None raises TypeError, an empty list or string IndexError |
| Allocator.RowsAccepted | AI4FoodNutritionFW.py:89-117 | items drawn from rows whose categories are all known are accepted by `add_new_predish` |
| Allocator.HighDay | AI4FoodNutritionFW.py:87-117 | one day of a group at level 5 or above: new_freq is drawn in the range and that many items are staged; a malformed range raises TypeError, an inverted one ValueError, a group without rows fails, and a well-formed configuration never fails |
| Allocator.HighGroup | AI4FoodNutritionFW.py:83-120 | a group whose range starts at -1 is skipped; otherwise every day independently stages its own draw of the group |
| Allocator.HighTier | AI4FoodNutritionFW.py:83-120 | the second loop: each day grows by what every remaining group staged on it, group after group; it succeeds when every group's range and rows are usable, and a frequency that cannot be subscripted makes it fail |
| Compute.NewWeekShaped | src/AI4FoodNutritionFW_classes.py:56-62 | every week the constructor builds has one day with a staging bucket per day of the week |
| Compute.PoolNames | AI4FoodNutritionFW.py:74-80 | the pool dishes a day receives in a category are those drawn for that day in that category |
| Compute.PoolAccepted | AI4FoodNutritionFW.py:79-80 | every pool dish staged on a day has an accepted category |
| Compute.SpreadItems | AI4FoodNutritionFW.py:72-80 | once all seven categories are spread, a day has grown by exactly its pool dishes |
| Compute.WeekGrown | AI4FoodNutritionFW.py:72-117 | every day receives its pool dishes first, then what the second tier staged on it |
| Compute.PoolPartition | AI4FoodNutritionFW.py:74-80 | with days drawn by `select_values_from_n_freq(d, n, 1)`, every pool dish reaches exactly one day |
| Compute.FillPool | AI4FoodNutritionFW.py:34-69 | a configuration the frequencies cannot be drawn from raises KeyError or ValueError; otherwise the frequencies are drawn per line and the call succeeds when both tiers can use them; on success the pool holds the first tier's items and the remaining entries are passed on |
| Compute.FillDays | AI4FoodNutritionFW.py:72-120 | the days grow by the pool spread and the second tier as planned; a week of 0 days fails, and a week with days whose remaining groups are usable succeeds |
| Compute.ComputeWeek | AI4FoodNutritionFW.py:32-120 | one week: it succeeds when the configuration can be drawn, the week has days and the drawn tiers are usable; on success the result is the former week computed under the draws recorded in the plan; when the configuration can be drawn, the plan records one frequency per table line, drawn from it; bad configurations and 0-day weeks fail |
| Compute.WeeksComputed | AI4FoodNutritionFW.py:32-120 | each week of a computed run was computed from its own former week |
| Compute.ComputeNext | AI4FoodNutritionFW.py:32-120 | computing the next week extends the computed run; it fails on a bad configuration and succeeds under the same condition as one week; the plan records the frequencies drawn from the configuration, so the plans of the run stay drawn from it |
| Compute.ComputeSubjectDiet | AI4FoodNutritionFW.py:30-120 | the subject keeps its identity and week count; it succeeds when the configuration can be drawn, every week has days and every week's drawn tiers are usable; on success each week is its former week computed with its own outcomes; there is at most one plan per week, each recording frequencies drawn from the configuration; a bad configuration fails |
| Compute.ComputeEach | AI4FoodNutritionFW.py:30-120 | the loop over the weeks: it computes a prefix of the weeks, all of them on success, with one plan per attempted week, each drawn from the configuration; a bad configuration fails on a non-empty list, and it succeeds when every week is computable under its plan |
| Compute.PlansDrawnSnoc | AI4FoodNutritionFW.py:32-69 | appending a plan drawn from the configuration keeps every plan of the run drawn from it |
| Balancer.KeyOfMeal | AI4FoodNutritionFW.py:153 | on a day numbered 1..n, `meal_in2_str(m)` finds meal m |
| Balancer.CountAt | AI4FoodNutritionFW.py:156-157 | `get_num_current_dishes(t, meal_m)` is the length of meal m's list of t |
| Balancer.AddAt | AI4FoodNutritionFW.py:159-161 | `add_new_dish(x, t, meal_m)` appends x to meal m's list of t |
| Balancer.CurrentCount | AI4FoodNutritionFW.py:156-157 | the count read is the length of the meal's list |
| Balancer.AddToMeal | AI4FoodNutritionFW.py:159-161 | the dish is appended to that meal's list and nothing else changes |
| Balancer.FreeCount | AI4FoodNutritionFW.py:172-254 | on empty lists the free meals number all meals, the meals with a main, or the others, by zone |
| Balancer.CoversShuffle | AI4FoodNutritionFW.py:174 | a shuffled meal list still lists every meal |
| Balancer.FirstFree | AI4FoodNutritionFW.py:176-184 | the inner loop finds a meal of the zone with an empty list, or reports that none exists |
| Balancer.PlaceStep | AI4FoodNutritionFW.py:175-184 | placing an item in a free meal advances the pass by one item and one placement |
| Balancer.PlaceEach | AI4FoodNutritionFW.py:175-184 | a pass puts at most one dish per meal, only in free meals of its zone, and places exactly the first min(staged, free meals) items; only its own category changes |
| Balancer.PlaceItem | AI4FoodNutritionFW.py:176-184 | one item goes to the first free meal, or is dropped when there is none |
| Balancer.SeatMain | AI4FoodNutritionFW.py:152-170 | every meal the retry loop tried before the last was full; the main is seated in the last meal tried, which held fewer than cap mains, or dropped only when that meal was full too and the queue is empty; a missing cap raises TypeError |
| Balancer.PlaceMain | AI4FoodNutritionFW.py:151-170 | seating one more main keeps the cap, the queue and the list of meals with a main, and every queue entry popped so far names a meal that received a main or is full |
| Balancer.PlaceMains | AI4FoodNutritionFW.py:142-170 | mains only go to meals of the queue, never past cap per meal; the placed mains are the first ones and at most one per queue entry; `mainMeals` lists each changed meal once; either every main is placed or every queue entry names a meal that received a main or is full |
| Balancer.MainNext | AI4FoodNutritionFW.py:151-170 | one turn of the main loop: the main is seated as `PlaceMain` does, or dropped once the queue is spent; TypeError exactly when there is no cap and a queue |
| Balancer.PlacePass | AI4FoodNutritionFW.py:172-184 | a reshuffle of the meals, then one pass of its category |
| Balancer.MealNumbersCover | AI4FoodNutritionFW.py:139 | the meal keys of a day list every meal |
| Balancer.PassOn | AI4FoodNutritionFW.py:172-254 | one more pass finishes its category and leaves the finished ones alone |
| Balancer.PlaceOthers | AI4FoodNutritionFW.py:172-254 | the six passes in source order fill each of their categories, and the mains stay as they were |
| Balancer.QueueBounds | AI4FoodNutritionFW.py:146-147 | the repeated draw lists meal numbers of the day only |
| Balancer.QueueSpread | AI4FoodNutritionFW.py:146-147 | the repeated draw names at most k different meals |
| Balancer.MainMealsBound | AI4FoodNutritionFW.py:148-165 | the meals with a main are no more than the different meals in the queue |
| Balancer.PlacedMains | AI4FoodNutritionFW.py:143-161 | the placed mains are some of the staged mains |
| Balancer.OthersFromStart | AI4FoodNutritionFW.py:172-254 | each pass after the mains filled its category from the column it had before the mains |
| Balancer.DrawQueue | AI4FoodNutritionFW.py:146-147 | the queue holds meal numbers of the day, at most k different ones, and is empty exactly when k is 0; a negative k raises ValueError |
| Balancer.SeatAndPlace | AI4FoodNutritionFW.py:142-254 | the seven passes leave a balanced day, and either every staged main is placed or every meal of the queue received a main or is full; mains to seat with no cap raise TypeError |
| Balancer.Finish | AI4FoodNutritionFW.py:256-260 | staging is deleted and the meals are compacted |
| Balancer.BalanceDay | AI4FoodNutritionFW.py:137-260 | a day fails exactly when it has no staging, no usable k, no meals, or mains to seat with no cap, and then raises that exception; otherwise the result is the balanced day, compacted, with staging deleted, and the mains were seated along the drawn meals repeated k times |
| Balancer.FirstFailing | AI4FoodNutritionFW.py:136 | the day found is one that fails |
| Balancer.FirstFailingMeans | AI4FoodNutritionFW.py:136 | no day is found exactly when no day fails; the day found is the first that fails |
| Balancer.BalanceNext | AI4FoodNutritionFW.py:137-260 | balancing the next day extends the balanced run, or fails as that day does |
| Balancer.BalanceWeek | AI4FoodNutritionFW.py:134-260 | a week succeeds exactly when none of its days fails; the first failing day's exception is raised; on success every day is balanced |
| Balancer.WeekNext | AI4FoodNutritionFW.py:132-260 | balancing the next week extends the balanced run of weeks; it fails exactly when that week is the first with a failing day |
| Balancer.DrawLimit | AI4FoodNutritionFW.py:126-129 | a missing key raises KeyError, an inverted range ValueError; otherwise the limit is drawn from the range, or is None |
| Balancer.FirstFailingWeek | AI4FoodNutritionFW.py:132 | the week found has a failing day |
| Balancer.FirstFailingWeekMeans | AI4FoodNutritionFW.py:132 | no week is found exactly when no day of any week fails |
| Balancer.BalanceWeeks | AI4FoodNutritionFW.py:132-260 | the subject keeps its identity and week count; succeeds exactly when no day fails, raising the first failing day's exception otherwise; on success each week is its former week, balanced day by day |
| Balancer.BalanceEach | AI4FoodNutritionFW.py:132-260 | the week loop over the weeks' values: succeeds exactly when no day fails, raising the first failing day's exception otherwise; on success every week is balanced |
| Balancer.BalanceSubjectDiet | AI4FoodNutritionFW.py:124-260 | the two limits are drawn first, and a missing or inverted one fails before any day changes; otherwise the same promises as the week loop |
| Outcomes.KeptBag | src/AI4FoodNutritionFW_classes.py:219-221 | the meals kept by compaction hold every dish of the day |
| Outcomes.CompactBag | src/AI4FoodNutritionFW_classes.py:217-231 | `remove_empty_meals` keeps every dish: each category holds the same dishes as before |
| Outcomes.MainMealsMeaning | AI4FoodNutritionFW.py:164-165 | `main_dishes_in_meals` lists exactly the meals whose mains changed |
| Outcomes.InItsZone | AI4FoodNutritionFW.py:172-254 | each pass changes only meals of its zone |
| Outcomes.MainRule | AI4FoodNutritionFW.py:172-254 | a meal that received bread or a side also received a main; a meal that received an appetizer or snack received none |
| Outcomes.MainMealCount | AI4FoodNutritionFW.py:146-165 | at most k meals, and at most all meals, receive a main |
| Outcomes.MainsDropped | AI4FoodNutritionFW.py:146-170 | mains are dropped only when there was no room: unless all staged mains were placed, each meal the draw picked received a main or holds cap of them, and with k at least the number of meals that holds for every meal |
| Outcomes.SpentWhereDrawn | AI4FoodNutritionFW.py:146-170 | on the columns of mains: a drawn meal, or every meal when k covers them all, received a main or is full |
| Outcomes.EveryMealDrawn | AI4FoodNutritionFW.py:146 | when k is at least the number of meals, `select_values_from_n_freq(n, k, 1)` names every meal |
| Outcomes.FromStaging | AI4FoodNutritionFW.py:138-254 | each category only gains dishes, and what it gains comes from that day's staged list of the same category |
| Outcomes.PassCount | AI4FoodNutritionFW.py:172-254 | on meals without the category yet, a pass places min(staged, meals it may serve) dishes: all meals for dessert and drinks, meals with a main for bread and side, the others for appetizer and snack |
| Outcomes.DayOutcome | AI4FoodNutritionFW.py:138-260 | a balanced day has no staging, has meals meal_1..meal_K with K at most the former count and none empty, and each category holds its former dishes plus staged ones |
| Pipeline.NewWeekReady | AI4FoodNutritionFW.py:344-351 | a week as the `Subject` constructor builds it meets the balancer's requirements |
| Pipeline.ComputedReady | AI4FoodNutritionFW.py:344-351 | `compute_subject_diet` keeps a week fit for `balance_subject_diet` |

## Left out

- File and console I/O is not modelled: the CSV and Excel loading, `save_subject_diet`, the
  dataset generation, the interactive preference prompts and the progress bar.
- `Diet_Evaluation.py` and the numeric evaluation in `src/utils.py` are not modelled
  (Mahalanobis distance, matrices, plots). They are floating-point linear algebra.
- The statistical distribution of `randint`, `sample`, `choice` and `shuffle` is not
  modelled, only their support. The generator in `Random` stands in for the `random` module.
- `Diet.add_new_dish`, `Diet.remove_dish`, `Meal.get_num_current_pre_dishes`,
  `Meal.get_meals_json` and `get_food_groups_params` are not modelled. They are one-line
  delegations that the rest of the core does not call.
- Profile values are integers. `unzip_values` returns floats and `isfloat` accepts every
  float literal. The model reads only integer numerals, so a string such as "2.5" or "1e3"
  raises TypeError in the model where the source returns a float.
- The taxonomy is a parameter: a sequence of rows, not the CSV file.
- The plate classification counts a flat sequence of plates for one week, not the nested
  loops over days, meals and categories of the JSON file. The "variable" and "profile"
  entries of the evaluation dictionary are not modelled.
- Meal keys are stored as their numbers. A lookup by a key string goes through
  `Days.Locate`, and `Keys.MealKeyRoundTrip` shows this finds the same meal.
- Weeks and days are held by position, not by key: week "week_w" is `diets[w - 1]`.
- Diet, Meal and Dish objects inside a subject are values (datatypes), not shared objects.
  The source never aliases them, so only the `Subject`, the week pool `Dish`,
  `FoodGroupParameters` and the profile configuration are classes.
- What an operation leaves behind when it raises midway is not stated. A failing
  `balance_subject_diet` leaves the weeks before the failing one balanced in the model as in
  the source, but the contracts say nothing about them.
- Balancer.BalanceSubjectDiet: requires that every day's meals be numbered 1 to n, which
  the constructor and `compute_subject_diet` guarantee (`Pipeline`). The KeyError the source
  would raise on a day with gaps in its meal numbers is not modelled.
- Compute.ComputeSubjectDiet: requires the weeks as the constructor builds them
  (`Compute.NewWeekShaped`); it says nothing about weeks built another way.
- Balancer.BalanceDay: draws the mains shuffle as a new list. In the source the shuffle
  reorders the staged list in place, but that list is deleted with the staging bucket at
  the end of the day, so nothing observable differs.
- Compute.ComputeWeek: the high-tier deletions `del food_parameters[key]` at the end of
  the second loop are not modelled, because the dictionary is discarded right after.
- Selection.SelectValuesFromNFreq: requires num >= 1, because num = 0 divides by zero in
  the source.
- Subjects.SecondField: reads `int()` of a one-character string for ASCII digits only.
- Keys.ParseNat: Python's `int()` also accepts a sign, surrounding whitespace, underscores
  between digits and non-ASCII decimal digits. The keys the program builds and reads back
  (`week_in2_str`, `day_in2_str`, `meal_in2_str`) never hold any of these.
