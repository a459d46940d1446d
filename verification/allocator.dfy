/**
 * `compute_subject_diet` (AI4FoodNutritionFW.py): for every week, the food groups below
 * nutritional level 5 are pooled and spread over the days, and the groups at level 5 or
 * above are drawn again for each day. Everything lands in the days' staging buckets.
 */
module Allocator {
  import opened Wrappers
  import opened Seqs
  import opened Dicts
  import opened Dishes
  import opened Days
  import opened Random
  import opened Selection
  import opened Profile
  import opened Taxonomy
  import opened Staging
  import opened Subjects

  // ---------------------------------------------------------------------------------------
  // First tier: the groups below level 5, staged in the week's pool

  /** The group is handled by the first tier: its first taxonomy row is below level 5. */
  predicate LowLevel(tax: seq<Row>, key: string) {
    Search(tax, key) != [] && Search(tax, key)[0].level < 5
  }

  /** The entries the first tier leaves in `food_parameters`, in order. */
  function HighEntries(tax: seq<Row>, d: seq<(string, FoodParam)>): seq<(string, FoodParam)> {
    if d == [] then []
    else
      var n := |d| - 1;
      HighEntries(tax, d[..n]) + (if LowLevel(tax, d[n].0) then [] else [d[n]])
  }

  lemma {:induction false} HighMembers(tax: seq<Row>, d: seq<(string, FoodParam)>, e: (string, FoodParam))
    ensures e in HighEntries(tax, d) <==> e in d && !LowLevel(tax, e.0)
  {
    if d != [] {
      var n := |d| - 1;
      HighMembers(tax, d[..n], e);
      assert d == d[..n] + [d[n]];
    }
  }

  /** The entries kept before position `j` have other keys than entry `j`. */
  lemma HighKeysBefore(tax: seq<Row>, s: seq<(string, FoodParam)>, j: nat)
    requires DistinctKeys(s) && j < |s|
    ensures forall e :: e in HighEntries(tax, s[..j]) ==> e.0 != s[j].0
  {
    forall e | e in HighEntries(tax, s[..j]) ensures e.0 != s[j].0 {
      HighMembers(tax, s[..j], e);
      var q :| 0 <= q < j && s[..j][q] == e;
    }
  }

  /**
   * One iteration of the first tier on the dictionary reached after the first `j` entries of
   * the snapshot `s`: the current key sits right after the kept entries, and deleting it (for
   * a low group) or keeping it gives the dictionary after `j + 1` entries.
   */
  lemma HighStep(tax: seq<Row>, s: seq<(string, FoodParam)>, j: nat)
    requires DistinctKeys(s) && j < |s|
    ensures var kept := HighEntries(tax, s[..j]);
      Find(kept + s[j..], s[j].0) == Some(|kept|) &&
      (LowLevel(tax, s[j].0) ==> Del(kept + s[j..], s[j].0) == HighEntries(tax, s[..j + 1]) + s[j + 1..]) &&
      (!LowLevel(tax, s[j].0) ==> kept + s[j..] == HighEntries(tax, s[..j + 1]) + s[j + 1..])
  {
    var kept := HighEntries(tax, s[..j]);
    HighKeysBefore(tax, s, j);
    FindAfter(kept, s[j..], s[j].0);
    assert s[..j + 1][..j] == s[..j];
    assert s[j..][1..] == s[j + 1..];
    if LowLevel(tax, s[j].0) {
      DelAfter(kept, s[j..], s[j].0);
    } else {
      assert kept + s[j..] == (kept + [s[j]]) + s[j + 1..];
    }
  }

  /** The items of the rows of a group, one per row. */
  function RowItems(rows: seq<Row>): (r: seq<Item>)
    ensures |r| == |rows| && forall j :: 0 <= j < |r| ==> r[j] == ItemOf(rows[j])
  {
    seq(|rows|, j requires 0 <= j < |rows| => ItemOf(rows[j]))
  }

  /**
   * `items` is what the first tier stages for entry `e`: nothing for a group at level 5 or
   * above; for a lower group with frequency `n`, exactly `n` items (none for `n <= 0`), which
   * are copies of the key for a single-row group and items of the group's rows otherwise.
   */
  predicate LowStaged(tax: seq<Row>, e: (string, FoodParam), items: seq<Item>) {
    var rows := Search(tax, e.0);
    rows != [] &&
    if rows[0].level >= 5 then items == []
    else
      e.1.Num? && |items| == (if e.1.n > 0 then e.1.n else 0) &&
      (|rows| == 1 ==> forall i :: 0 <= i < |items| ==> items[i] == Item(e.0, rows[0].dishType)) &&
      (|rows| >= 2 ==> forall i :: 0 <= i < |items| ==> items[i] in RowItems(rows))
  }

  /** What `DrawItems` promises for a group below level 5 is what the first tier stages for it. */
  lemma DrawnStaged(tax: seq<Row>, e: (string, FoodParam), items: seq<Item>, picks: seq<int>)
    requires var rows := Search(tax, e.0);
      rows != [] && rows[0].level < 5 && e.1.Num? && DrawDefined(|rows|, Some(e.1.n)) &&
      |items| == (if e.1.n > 0 then e.1.n else 0) &&
      (|rows| == 1 ==> forall i :: 0 <= i < |items| ==> items[i] == Item(e.0, rows[0].dishType)) &&
      (|rows| >= 2 ==>
        |picks| == |items| &&
        forall i :: 0 <= i < |picks| ==> 0 <= picks[i] < |rows| && items[i] == ItemOf(rows[picks[i]]))
    ensures LowStaged(tax, e, items)
  {
    var rows := Search(tax, e.0);
    if |rows| >= 2 {
      forall i | 0 <= i < |items| ensures items[i] in RowItems(rows) {
        assert RowItems(rows)[picks[i]] == items[i];
      }
    }
  }

  /** One more entry of the first tier. */
  lemma StagedSnoc(tax: seq<Row>, params: seq<(string, FoodParam)>, staged: seq<seq<Item>>, x: seq<Item>)
    requires |staged| < |params| && forall i :: 0 <= i < |staged| ==> LowStaged(tax, params[i], staged[i])
    requires LowStaged(tax, params[|staged|], x)
    ensures forall i :: 0 <= i < |staged| + 1 ==> LowStaged(tax, params[i], (staged + [x])[i])
  {
  }

  /** The runs of items one after the other. */
  function Flatten(runs: seq<seq<Item>>): seq<Item> {
    if runs == [] then [] else Flatten(runs[..|runs| - 1]) + runs[|runs| - 1]
  }

  lemma FlattenSnoc(runs: seq<seq<Item>>, x: seq<Item>)
    ensures Flatten(runs + [x]) == Flatten(runs) + x
  {
    assert (runs + [x])[..|runs|] == runs;
  }

  /**
   * The first tier can stage entry `e`: the group has taxonomy rows, and if it is below level 5
   * its frequency is a number, non-negative unless the group has a single row, and every row
   * names one of the seven categories.
   */
  predicate LowDefined(tax: seq<Row>, e: (string, FoodParam)) {
    var rows := Search(tax, e.0);
    rows != [] &&
    (rows[0].level < 5 ==>
      e.1.Num? && DrawDefined(|rows|, Some(e.1.n)) && forall j :: 0 <= j < |rows| ==> ParseType(rows[j].dishType).Some?)
  }

  /**
   * One food group of the first loop of `compute_subject_diet`: a group below level 5 is
   * drawn and staged in the pool (`Ok(true)`: its entry is then deleted); a group at level 5
   * or above is left for the second tier (`Ok(false)`). A group without taxonomy rows raises
   * IndexError; a frequency that is not a number raises TypeError.
   */
  method LowGroup(rng: Rng, tax: seq<Row>, e: (string, FoodParam), pool: Dish)
    returns (r: Result<bool>, ghost items: seq<Item>)
    modifies rng, pool
    ensures r.Ok? ==> r.value == LowLevel(tax, e.0) && LowStaged(tax, e, items)
    ensures r.Ok? ==> AddItems(old(pool.Value()), items) == Ok(pool.Value())
    ensures Search(tax, e.0) == [] ==> r == Err(IndexError("single positional indexer is out-of-bounds"))
    ensures LowDefined(tax, e) ==> r.Ok?
    ensures r.Err? ==> r.error.IndexError? || r.error.TypeError? || r.error.ValueError?
  {
    items := [];
    var rows := Search(tax, e.0);
    if rows == [] {
      return Err(IndexError("single positional indexer is out-of-bounds")), items;
    }
    if rows[0].level >= 5 {
      assert AddItems(old(pool.Value()), []) == Ok(pool.Value());
      return Ok(false), items;
    }
    var f := if e.1.Num? then Some(e.1.n) else None;
    var drawn, picks := DrawItems(rng, rows, e.0, f);
    if drawn.Err? {
      return Err(drawn.error), items;
    }
    DrawnStaged(tax, e, drawn.value, picks);
    if LowDefined(tax, e) {
      RowsAccepted(rows, e.0, drawn.value);
    }
    var added := StageInPool(pool, drawn.value);
    if added.Err? {
      return Err(added.error), items;
    }
    items := drawn.value;
    r := Ok(true);
  }

  /**
   * The first loop of `compute_subject_diet`: every group below level 5 is staged in the
   * pool and deleted from `food_parameters`, which keeps the other entries in order.
   */
  method LowTier(rng: Rng, tax: seq<Row>, params: seq<(string, FoodParam)>, pool: Dish)
    returns (r: Result<seq<(string, FoodParam)>>, ghost staged: seq<seq<Item>>)
    requires DistinctKeys(params)
    modifies rng, pool
    ensures r.Ok? ==> r.value == HighEntries(tax, params)
    ensures r.Ok? ==> |staged| == |params| && forall i :: 0 <= i < |params| ==> LowStaged(tax, params[i], staged[i])
    ensures r.Ok? ==> AddItems(old(pool.Value()), Flatten(staged)) == Ok(pool.Value())
    ensures (exists i :: 0 <= i < |params| && Search(tax, params[i].0) == []) ==> r.Err?
    ensures (forall i :: 0 <= i < |params| ==> LowDefined(tax, params[i])) ==> r.Ok?
    ensures r.Err? ==> r.error.IndexError? || r.error.TypeError? || r.error.ValueError?
  {
    var foodParams := params;
    staged := [];
    var j := 0;
    while j < |params|
      invariant 0 <= j <= |params| && |staged| == j
      invariant foodParams == HighEntries(tax, params[..j]) + params[j..]
      invariant forall i :: 0 <= i < j ==> LowStaged(tax, params[i], staged[i])
      invariant AddItems(old(pool.Value()), Flatten(staged)) == Ok(pool.Value())
    {
      var key := params[j].0;
      var low, items := LowGroup(rng, tax, params[j], pool);
      if low.Err? {
        return Err(low.error), staged;
      }
      HighStep(tax, params, j);
      if low.value {
        foodParams := Del(foodParams, key);
      }
      AddItemsAppend(old(pool.Value()), Flatten(staged), items);
      FlattenSnoc(staged, items);
      StagedSnoc(tax, params, staged, items);
      staged := staged + [items];
      j := j + 1;
    }
    assert params[..j] == params;
    r := Ok(foodParams);
  }

  // ---------------------------------------------------------------------------------------
  // The pool spread over the days

  /** The dishes of `order` whose drawn day is `day`, in order. */
  function Chosen(order: seq<string>, lst: seq<int>, day: int): seq<string>
    requires |order| == |lst|
  {
    if order == [] then []
    else
      var n := |order| - 1;
      Chosen(order[..n], lst[..n], day) + (if lst[n] == day then [order[n]] else [])
  }

  /** A day receives as many dishes as its number occurs among the drawn days. */
  lemma {:induction false} ChosenCount(order: seq<string>, lst: seq<int>, day: int)
    requires |order| == |lst|
    ensures |Chosen(order, lst, day)| == multiset(lst)[day]
  {
    if order != [] {
      var n := |order| - 1;
      ChosenCount(order[..n], lst[..n], day);
      assert lst == lst[..n] + [lst[n]];
    }
  }

  /** The days that receive one dish more than the others. */
  function Fuller(d: int, order: seq<string>, lst: seq<int>): set<int>
    requires d >= 1 && |order| == |lst|
  {
    set day | 1 <= day <= d && |Chosen(order, lst, day)| == |order| / d + 1
  }

  /**
   * For `c` dishes of one category over `d` days: with `c >= d` every day receives
   * `c / d` or `c / d + 1` of them, and exactly `c % d` days receive the extra one; with
   * `c < d` no day receives more than one.
   */
  lemma ChosenSpread(d: int, order: seq<string>, lst: seq<int>)
    requires d >= 1 && |order| == |lst| && IsSelection(d, |order|, 1, lst)
    ensures |order| >= d ==> forall day :: 1 <= day <= d ==>
      |Chosen(order, lst, day)| == |order| / d || |Chosen(order, lst, day)| == |order| / d + 1
    ensures |order| >= d ==> |Fuller(d, order, lst)| == |order| % d
    ensures |order| < d ==> forall day :: 1 <= day <= d ==> |Chosen(order, lst, day)| <= 1
  {
    var c := |order|;
    forall day | 1 <= day <= d ensures |Chosen(order, lst, day)| == multiset(lst)[day] {
      ChosenCount(order, lst, day);
    }
    if c >= d {
      SelectionExtras(d, c, 1, lst);
      forall x ensures x in Fuller(d, order, lst) <==> x in Extras(d, c, 1, lst) {
        ChosenCount(order, lst, x);
      }
      assert Fuller(d, order, lst) == Extras(d, c, 1, lst);
    } else {
      forall day | 1 <= day <= d ensures multiset(lst)[day] <= 1 {
        SelectionUnder(d, c, 1, lst);
        DistinctCount(lst, day);
      }
    }
  }

  /** The dishes the days `1..d` receive, together. */
  function Gathered(order: seq<string>, lst: seq<int>, d: nat): multiset<string>
    requires |order| == |lst|
  {
    if d == 0 then multiset{} else Gathered(order, lst, d - 1) + multiset(Chosen(order, lst, d))
  }

  lemma {:induction false} GatheredSnoc(order: seq<string>, lst: seq<int>, n: nat, d: nat, z: string)
    requires |order| == |lst| == n + 1
    ensures Gathered(order, lst, d)[z] ==
      Gathered(order[..n], lst[..n], d)[z] + (if 1 <= lst[n] <= d && order[n] == z then 1 else 0)
  {
    if d > 0 {
      var e := d - 1;
      GatheredSnoc(order, lst, n, e, z);
      SnocStep(order, lst, n, e, z);
    }
  }

  /** One more day in the count of `z`. */
  lemma SnocStep(order: seq<string>, lst: seq<int>, n: nat, e: nat, z: string)
    requires |order| == |lst| == n + 1
    requires Gathered(order, lst, e)[z] ==
      Gathered(order[..n], lst[..n], e)[z] + (if 1 <= lst[n] <= e && order[n] == z then 1 else 0)
    ensures Gathered(order, lst, e + 1)[z] ==
      Gathered(order[..n], lst[..n], e + 1)[z] + (if 1 <= lst[n] <= e + 1 && order[n] == z then 1 else 0)
  {
    var d := e + 1;
    ChosenLast(order, lst, n, d, z);
    GatheredUnfold(order, lst, d, z);
    GatheredUnfold(order[..n], lst[..n], d, z);
  }

  /** The count of `z` over days `1..d` is its count over days `1..d - 1` and on day `d`. */
  lemma GatheredUnfold(order: seq<string>, lst: seq<int>, d: nat, z: string)
    requires |order| == |lst| && d > 0
    ensures Gathered(order, lst, d)[z] == Gathered(order, lst, d - 1)[z] + multiset(Chosen(order, lst, d))[z]
  {
  }

  /** The last dish adds one to the count of `z` on its drawn day. */
  lemma ChosenLast(order: seq<string>, lst: seq<int>, n: nat, d: int, z: string)
    requires |order| == |lst| == n + 1
    ensures multiset(Chosen(order, lst, d))[z] ==
      multiset(Chosen(order[..n], lst[..n], d))[z] + (if lst[n] == d && order[n] == z then 1 else 0)
  {
    var c := Chosen(order[..n], lst[..n], d);
    var extra := if lst[n] == d then [order[n]] else [];
    assert Chosen(order, lst, d) == c + extra;
    assert multiset(c + extra) == multiset(c) + multiset(extra);
  }

  /** Every dish whose drawn day lies in `1..d` lands on exactly one of those days: none is lost or duplicated. */
  lemma {:induction false} ChosenPartition(order: seq<string>, lst: seq<int>, d: nat)
    requires |order| == |lst| && forall j :: 0 <= j < |lst| ==> 1 <= lst[j] <= d
    ensures Gathered(order, lst, d) == multiset(order)
  {
    forall z ensures Gathered(order, lst, d)[z] == multiset(order)[z] {
      GatheredCount(order, lst, d, z);
    }
  }

  lemma {:induction false} GatheredCount(order: seq<string>, lst: seq<int>, d: nat, z: string)
    requires |order| == |lst| && forall j :: 0 <= j < |lst| ==> 1 <= lst[j] <= d
    ensures Gathered(order, lst, d)[z] == multiset(order)[z]
  {
    if order == [] {
      GatheredEmpty(order, lst, d);
    } else {
      var n := |order| - 1;
      GatheredSnoc(order, lst, n, d, z);
      GatheredCount(order[..n], lst[..n], d, z);
      MultisetLast(order, z);
    }
  }

  lemma MultisetLast(s: seq<string>, z: string)
    requires s != []
    ensures multiset(s)[z] == multiset(s[..|s| - 1])[z] + (if s[|s| - 1] == z then 1 else 0)
  {
    assert s == s[..|s| - 1] + [s[|s| - 1]];
  }

  lemma {:induction false} GatheredEmpty(order: seq<string>, lst: seq<int>, d: nat)
    requires |order| == |lst| && order == []
    ensures Gathered(order, lst, d) == multiset{}
  {
    if d > 0 {
      GatheredEmpty(order, lst, d - 1);
    }
  }

  /** `after` is `before` with `names` appended to the staged list of category `t`, and nothing else changed. */
  predicate Received(before: Day, after: Day, t: DishType, names: seq<string>) {
    before.preDishes.Some? && after.preDishes.Some? && after.meals == before.meals &&
    after.preDishes.value.Get(t) == before.preDishes.value.Get(t) + names &&
    forall u :: u != t ==> after.preDishes.value.Get(u) == before.preDishes.value.Get(u)
  }

  /** Every day of the week holds its staging bucket. */
  predicate Staged(days: seq<Day>) {
    forall k :: 0 <= k < |days| ==> days[k].preDishes.Some?
  }

  /** One more dish on its drawn day. */
  lemma ReceivedStep(before: Day, cur: Day, t: DishType, typeName: string, names: seq<string>, x: string)
    requires ParseType(typeName) == Some(t) && Received(before, cur, t, names)
    ensures AddNewPredish(cur, x, typeName).Ok?
    ensures Received(before, AddNewPredish(cur, x, typeName).value, t, names + [x])
  {
    assert before.preDishes.value.Get(t) + names + [x] == before.preDishes.value.Get(t) + (names + [x]);
  }

  /**
   * One category of the pool spread over the week: the dishes are shuffled, the days drawn
   * with `select_values_from_n_freq(days_week, len(dishes), 1)`, and each dish staged on the
   * day `lst_days.pop(0)` gives it. A week of 0 days divides by zero; a negative day count
   * draws no days, so any dish raises ValueError or IndexError.
   */
  method DistributeType(rng: Rng, days: seq<Day>, daysWeek: int, t: DishType, dishes: seq<string>)
    returns (r: Result<seq<Day>>, ghost order: seq<string>, ghost lst: seq<int>)
    requires |days| == (if daysWeek > 0 then daysWeek else 0) && Staged(days)
    modifies rng
    ensures r.Ok? <==> daysWeek >= 1 || (daysWeek < 0 && dishes == [])
    ensures daysWeek == 0 ==> r == Err(ZeroDivisionError)
    ensures daysWeek < 0 && dishes != [] ==>
      r.Err? && (if |dishes| % -daysWeek == 0 then r.error.IndexError? else r.error.ValueError?)
    ensures r.Ok? ==> multiset(order) == multiset(dishes) && |lst| == |order|
    ensures r.Ok? && daysWeek >= 1 ==> IsSelection(daysWeek, |dishes|, 1, lst)
    ensures r.Ok? ==> forall j :: 0 <= j < |lst| ==> 1 <= lst[j] <= daysWeek
    ensures r.Ok? ==> |r.value| == |days| && forall k :: 0 <= k < |days| ==>
      Received(days[k], r.value[k], t, Chosen(order, lst, k + 1))
  {
    var shuffled := rng.Shuffle(dishes);
    assert |shuffled| == |multiset(shuffled)| == |dishes|;
    order, lst := shuffled, [];
    if daysWeek == 0 {
      return Err(ZeroDivisionError), order, lst;
    }
    if daysWeek < 0 {
      if dishes == [] {
        return Ok(days), order, lst;
      }
      if |dishes| % -daysWeek == 0 {
        return Err(IndexError("pop from empty list")), order, lst;
      }
      return Err(ValueError("Sample larger than population or is negative")), order, lst;
    }
    var sel := SelectValuesFromNFreq(rng, daysWeek, |shuffled|, 1);
    var drawn := sel.value;
    SelectionLength(daysWeek, |shuffled|, 1, drawn);
    SelectionBounds(daysWeek, |shuffled|, 1, drawn);
    lst := drawn;
    ParseName(t);
    var staged := StageDrawn(days, t, Name(t), shuffled, drawn);
    r := Ok(staged);
  }

  /** After the first `j` dishes of `order`, every day has received the ones drawn for it. */
  predicate ReceivedAll(days: seq<Day>, r: seq<Day>, t: DishType, order: seq<string>, lst: seq<int>, j: nat)
    requires j <= |order| == |lst|
  {
    |r| == |days| && forall k :: 0 <= k < |days| ==> Received(days[k], r[k], t, Chosen(order[..j], lst[..j], k + 1))
  }

  /** The loop `add_new_predish(dish, t)` on day `lst_days.pop(0)`, for each shuffled dish. */
  method StageDrawn(days: seq<Day>, t: DishType, typeName: string, order: seq<string>, lst: seq<int>)
    returns (r: seq<Day>)
    requires ParseType(typeName) == Some(t) && Staged(days) && |order| == |lst|
    requires forall j :: 0 <= j < |lst| ==> 1 <= lst[j] <= |days|
    ensures |r| == |days| && forall k :: 0 <= k < |days| ==> Received(days[k], r[k], t, Chosen(order, lst, k + 1))
  {
    r := days;
    var j := 0;
    StagedStart(days, t, order, lst);
    while j < |order|
      invariant 0 <= j <= |order| && ReceivedAll(days, r, t, order, lst, j)
    {
      // the `j`-th `lst_days.pop(0)`
      var k := lst[j] - 1;
      StagedStep(days, r, t, typeName, order, lst, j);
      var next := AddNewPredish(r[k], order[j], typeName);
      r := r[k := next.value];
      j := j + 1;
    }
    assert order[..j] == order && lst[..j] == lst;
  }

  /** Before the first dish, every day has received nothing. */
  lemma StagedStart(days: seq<Day>, t: DishType, order: seq<string>, lst: seq<int>)
    requires Staged(days) && |order| == |lst|
    ensures ReceivedAll(days, days, t, order, lst, 0)
  {
    forall k | 0 <= k < |days| ensures Received(days[k], days[k], t, Chosen(order[..0], lst[..0], k + 1)) {
      assert days[k].preDishes.value.Get(t) + [] == days[k].preDishes.value.Get(t);
    }
  }

  /** Staging dish `j` on its drawn day extends what every day has received. */
  lemma StagedStep(days: seq<Day>, r: seq<Day>, t: DishType, typeName: string, order: seq<string>, lst: seq<int>, j: nat)
    requires ParseType(typeName) == Some(t)
    requires j < |order| == |lst| && 1 <= lst[j] <= |days| && ReceivedAll(days, r, t, order, lst, j)
    ensures AddNewPredish(r[lst[j] - 1], order[j], typeName).Ok?
    ensures ReceivedAll(days, r[lst[j] - 1 := AddNewPredish(r[lst[j] - 1], order[j], typeName).value], t, order, lst, j + 1)
  {
    var d := lst[j] - 1;
    ReceivedStep(days[d], r[d], t, typeName, Chosen(order[..j], lst[..j], d + 1), order[j]);
    var r' := r[d := AddNewPredish(r[d], order[j], typeName).value];
    forall k | 0 <= k < |days| ensures Received(days[k], r'[k], t, Chosen(order[..j + 1], lst[..j + 1], k + 1)) {
      StagedDay(days[k], r[k], r'[k], t, typeName, order, lst, j, k + 1);
    }
  }

  /** What one day has received after dish `j`: the dish itself if it was drawn for that day. */
  lemma StagedDay(before: Day, cur: Day, next: Day, t: DishType, typeName: string, order: seq<string>, lst: seq<int>,
                  j: nat, day: int)
    requires ParseType(typeName) == Some(t) && j < |order| == |lst|
    requires Received(before, cur, t, Chosen(order[..j], lst[..j], day))
    requires next == if lst[j] == day then AddNewPredish(cur, order[j], typeName).value else cur
    ensures Received(before, next, t, Chosen(order[..j + 1], lst[..j + 1], day))
  {
    if lst[j] == day {
      ReceivedStep(before, cur, t, typeName, Chosen(order[..j], lst[..j], day), order[j]);
      ChosenSnoc(order, lst, j, day);
    } else {
      ChosenOther(order, lst, j, day);
    }
  }

  /** Dish `j` does not change what the other days receive. */
  lemma ChosenOther(order: seq<string>, lst: seq<int>, j: nat, day: int)
    requires j < |order| == |lst| && lst[j] != day
    ensures Chosen(order[..j + 1], lst[..j + 1], day) == Chosen(order[..j], lst[..j], day)
  {
    ChosenSnoc(order, lst, j, day);
    assert Chosen(order[..j], lst[..j], day) + [] == Chosen(order[..j], lst[..j], day);
  }

  /** The dishes drawn among the first `j + 1` are those among the first `j`, and the next one if it fell on `day`. */
  lemma ChosenSnoc(order: seq<string>, lst: seq<int>, j: nat, day: int)
    requires j < |order| == |lst|
    ensures Chosen(order[..j + 1], lst[..j + 1], day) ==
      Chosen(order[..j], lst[..j], day) + (if lst[j] == day then [order[j]] else [])
  {
    assert order[..j + 1][..j] == order[..j] && lst[..j + 1][..j] == lst[..j];
  }

  /** Distinct positions of `AllTypes` hold distinct categories. */
  lemma AllTypesDistinct(p: nat, q: nat)
    requires p < |AllTypes| && q < |AllTypes| && p != q
    ensures AllTypes[p] != AllTypes[q]
  {
    if p == 0 {} else if p == 1 {} else if p == 2 {} else if p == 3 {} else if p == 4 {} else if p == 5 {} else {}
  }

  /**
   * Day `k` after the first `|orders|` categories: it keeps its meals and its bucket, each
   * category already spread holds the dishes drawn for that day, and the others are untouched.
   */
  predicate DaySpread(before: Day, after: Day, orders: seq<seq<string>>, lsts: seq<seq<int>>, k: nat)
    requires |orders| == |lsts| && forall p :: 0 <= p < |orders| ==> |orders[p]| == |lsts[p]|
  {
    before.preDishes.Some? && after.preDishes.Some? && after.meals == before.meals &&
    forall p :: 0 <= p < |AllTypes| ==>
      after.preDishes.value.Get(AllTypes[p]) == before.preDishes.value.Get(AllTypes[p]) +
        (if p < |orders| then Chosen(orders[p], lsts[p], k + 1) else [])
  }

  /** The draws recorded for the first categories: a shuffled order and its drawn days for each. */
  predicate Draws(orders: seq<seq<string>>, lsts: seq<seq<int>>) {
    |orders| == |lsts| <= |AllTypes| && forall p :: 0 <= p < |orders| ==> |orders[p]| == |lsts[p]|
  }

  /** Every day after the first `|orders|` categories. */
  predicate Spread(days: seq<Day>, current: seq<Day>, orders: seq<seq<string>>, lsts: seq<seq<int>>) {
    Draws(orders, lsts) && |current| == |days| &&
    forall k :: 0 <= k < |days| ==> DaySpread(days[k], current[k], orders, lsts, k)
  }

  /** Spreading the next category on one day. */
  lemma DaySpreadStep(before: Day, cur: Day, next: Day, orders: seq<seq<string>>, lsts: seq<seq<int>>,
                      k: nat, order: seq<string>, lst: seq<int>)
    requires Draws(orders, lsts) && |orders| < |AllTypes| && DaySpread(before, cur, orders, lsts, k)
    requires |order| == |lst| && Received(cur, next, AllTypes[|orders|], Chosen(order, lst, k + 1))
    ensures Draws(orders + [order], lsts + [lst])
    ensures DaySpread(before, next, orders + [order], lsts + [lst], k)
  {
    var i := |orders|;
    var orders', lsts' := orders + [order], lsts + [lst];
    var b, c, n := before.preDishes.value, cur.preDishes.value, next.preDishes.value;
    forall p | 0 <= p < |AllTypes|
      ensures n.Get(AllTypes[p]) == b.Get(AllTypes[p]) +
        (if p < i + 1 then Chosen(orders'[p], lsts'[p], k + 1) else [])
    {
      var u := AllTypes[p];
      if p == i {
        assert b.Get(u) + [] == b.Get(u);
      } else {
        AllTypesDistinct(p, i);
        if p < i {
          assert orders'[p] == orders[p] && lsts'[p] == lsts[p];
        }
      }
    }
  }

  /** Spreading the next category extends the spread. */
  lemma SpreadStep(days: seq<Day>, current: seq<Day>, next: seq<Day>, orders: seq<seq<string>>,
                   lsts: seq<seq<int>>, order: seq<string>, lst: seq<int>)
    requires Spread(days, current, orders, lsts) && |orders| < |AllTypes|
    requires |order| == |lst| && |next| == |current|
    requires forall k :: 0 <= k < |current| ==> Received(current[k], next[k], AllTypes[|orders|], Chosen(order, lst, k + 1))
    ensures Spread(days, next, orders + [order], lsts + [lst])
  {
    assert Draws(orders + [order], lsts + [lst]);
    forall k | 0 <= k < |days| ensures DaySpread(days[k], next[k], orders + [order], lsts + [lst], k) {
      DaySpreadStep(days[k], current[k], next[k], orders, lsts, k, order, lst);
    }
  }

  /**
   * The pool spread over the week category by category, in the order `get_all_dishes`
   * lists them (`orders[p]` and `lsts[p]` are the shuffle and the drawn days of category
   * `AllTypes[p]`): each day receives, in every category, exactly the dishes drawn for it.
   * The spread succeeds exactly when the week has days, or has a negative day count and an
   * empty pool; a week of 0 days raises ZeroDivisionError.
   */
  method Distribute(rng: Rng, days: seq<Day>, daysWeek: int, pool: Bucket)
    returns (r: Result<seq<Day>>, ghost orders: seq<seq<string>>, ghost lsts: seq<seq<int>>)
    requires |days| == (if daysWeek > 0 then daysWeek else 0) && Staged(days)
    modifies rng
    ensures r.Ok? <==> daysWeek >= 1 || (daysWeek < 0 && pool.Count() == 0)
    ensures daysWeek == 0 ==> r == Err(ZeroDivisionError)
    ensures r.Ok? ==> |orders| == |AllTypes| && Spread(days, r.value, orders, lsts) && Staged(r.value)
    ensures r.Ok? ==> forall p :: 0 <= p < |orders| ==>
      multiset(orders[p]) == multiset(pool.Get(AllTypes[p])) &&
      (daysWeek >= 1 ==> IsSelection(daysWeek, |pool.Get(AllTypes[p])|, 1, lsts[p]))
  {
    orders, lsts := [], [];
    var current := days;
    forall k | 0 <= k < |days| ensures DaySpread(days[k], current[k], orders, lsts, k) {
      forall p | 0 <= p < |AllTypes| ensures current[k].preDishes.value.Get(AllTypes[p]) ==
        days[k].preDishes.value.Get(AllTypes[p]) + []
      {
      }
    }
    var i := 0;
    while i < |AllTypes|
      invariant i == |orders| <= |AllTypes| && Spread(days, current, orders, lsts)
      invariant daysWeek == 0 ==> orders == []
      invariant daysWeek < 0 ==> forall p :: 0 <= p < |orders| ==> pool.Get(AllTypes[p]) == []
      invariant forall p :: 0 <= p < |orders| ==>
        multiset(orders[p]) == multiset(pool.Get(AllTypes[p])) &&
        (daysWeek >= 1 ==> IsSelection(daysWeek, |pool.Get(AllTypes[p])|, 1, lsts[p]))
    {
      var t := AllTypes[i];
      var next, order, lst := DistributeType(rng, current, daysWeek, t, pool.Get(t));
      if next.Err? {
        CountZero(pool);
        return next, orders, lsts;
      }
      SpreadStep(days, current, next.value, orders, lsts, order, lst);
      orders, lsts := orders + [order], lsts + [lst];
      current := next.value;
      i := i + 1;
    }
    if daysWeek < 0 {
      CountZero(pool);
      forall t ensures pool.Get(t) == [] {
        AllTypesComplete(t);
      }
    }
    r := Ok(current);
  }

  // ---------------------------------------------------------------------------------------
  // Second tier: the groups at level 5 or above, drawn day by day

  /**
   * `freq[0] != -1` on an entry left for the second tier: a number or None cannot be
   * subscripted (TypeError), an empty list or string has no first element (IndexError), and
   * the first character of a string is never the number -1.
   */
  function Leads(freq: FoodParam): (r: Result<bool>)
    ensures r == Ok(false) <==> freq.Raw? && freq.value.Numbers? && freq.value.items != [] && freq.value.items[0] == -1
    ensures r.Err? <==> !freq.Raw? || freq.value == Numbers([]) || freq.value == Label([])
    ensures r.Err? ==> (r.error.TypeError? <==> !freq.Raw?) && (r.error.IndexError? <==> freq.Raw?)
  {
    match freq
    case Num(_) => Err(TypeError("'int' object is not subscriptable"))
    case NoValue => Err(TypeError("'NoneType' object is not subscriptable"))
    case Raw(Numbers(xs)) => if xs == [] then Err(IndexError("list index out of range")) else Ok(xs[0] != -1)
    case Raw(Label(text)) => if text == [] then Err(IndexError("string index out of range")) else Ok(true)
  }

  /**
   * `items` is what the second tier stages for group `key` on one day, for a configuration
   * value `v`: `v` is a range `[lo, hi]`, the number of items lies between `max(lo, 0)` and
   * `max(hi, 0)`, and the items are copies of the key for a single-row group and items of the
   * group's rows otherwise.
   */
  predicate HighStaged(tax: seq<Row>, key: string, v: ConfValue, items: seq<Item>) {
    var rows := Search(tax, key);
    rows != [] && v.Numbers? && |v.items| == 2 && v.items[0] <= v.items[1] &&
    (if v.items[0] > 0 then v.items[0] else 0) <= |items| <= (if v.items[1] > 0 then v.items[1] else 0) &&
    (|rows| == 1 ==> forall i :: 0 <= i < |items| ==> items[i] == Item(key, rows[0].dishType)) &&
    (|rows| >= 2 ==> forall i :: 0 <= i < |items| ==> items[i] in RowItems(rows))
  }

  /** A day of the second tier cannot fail: a range of non-negative counts, and rows whose categories are known. */
  predicate HighDefined(tax: seq<Row>, key: string, v: ConfValue) {
    var rows := Search(tax, key);
    v.Numbers? && |v.items| == 2 && 0 <= v.items[0] <= v.items[1] && rows != [] &&
    forall j :: 0 <= j < |rows| ==> ParseType(rows[j].dishType).Some?
  }

  /** The items drawn from rows whose categories are all known are accepted by `add_dish`. */
  lemma RowsAccepted(rows: seq<Row>, key: string, items: seq<Item>)
    requires rows != [] && forall j :: 0 <= j < |rows| ==> ParseType(rows[j].dishType).Some?
    requires |rows| == 1 ==> forall i :: 0 <= i < |items| ==> items[i] == Item(key, rows[0].dishType)
    requires |rows| >= 2 ==> forall i :: 0 <= i < |items| ==> items[i] in RowItems(rows)
    ensures Accepted(items)
  {
    forall i | 0 <= i < |items| ensures ParseType(items[i].dishType).Some? {
      if |rows| >= 2 {
        var j :| 0 <= j < |rows| && RowItems(rows)[j] == items[i];
      }
    }
  }

  /**
   * One day of the second tier for group `key`: `select_random_number(freq)`, the draw of
   * that many items, and `add_new_predish` for each of them.
   */
  method HighDay(rng: Rng, tax: seq<Row>, key: string, v: ConfValue, day: Day)
    returns (r: Result<Day>, ghost items: seq<Item>)
    requires day.preDishes.Some?
    modifies rng
    ensures r.Ok? ==> HighStaged(tax, key, v, items)
    ensures r.Ok? ==> Grown(day, r.value, items)
    ensures !(v.Numbers? && |v.items| == 2) ==> r.Err? && r.error.TypeError?
    ensures v.Numbers? && |v.items| == 2 && v.items[0] > v.items[1] ==> r.Err? && r.error.ValueError?
    ensures Search(tax, key) == [] ==> r.Err?
    ensures HighDefined(tax, key, v) ==> r.Ok?
  {
    items := [];
    var n := SelectRandomNumber(rng, v);
    if n.Err? {
      return Err(n.error), items;
    }
    var rows := Search(tax, key);
    var drawn, picks := DrawItems(rng, rows, key, n.value);
    if drawn.Err? {
      return Err(drawn.error), items;
    }
    if |rows| >= 2 {
      forall i | 0 <= i < |drawn.value| ensures drawn.value[i] in RowItems(rows) {
        assert RowItems(rows)[picks[i]] == drawn.value[i];
      }
    }
    if HighDefined(tax, key, v) {
      RowsAccepted(rows, key, drawn.value);
    }
    items := drawn.value;
    r := StageOnDay(day, drawn.value);
  }

  /** Day `k` after some groups of the second tier: same meals, and its bucket grown by the staged items. */
  predicate Grown(before: Day, after: Day, items: seq<Item>) {
    before.preDishes.Some? && after.preDishes.Some? && after.meals == before.meals &&
    AddItems(before.preDishes.value, items) == Ok(after.preDishes.value)
  }

  /** What the second tier stages for entry `e` on every day of the week. */
  predicate GroupStaged(tax: seq<Row>, e: (string, FoodParam), staged: seq<seq<Item>>, numDays: nat) {
    |staged| == numDays &&
    match Leads(e.1)
    case Err(_) => false
    case Ok(leads) =>
      forall k :: 0 <= k < numDays ==> if leads then HighStaged(tax, e.0, e.1.value, staged[k]) else staged[k] == []
  }

  /**
   * One group of the second loop of `compute_subject_diet`: unless its first element is -1,
   * every day of the week draws and stages its own items.
   */
  method HighGroup(rng: Rng, tax: seq<Row>, days: seq<Day>, e: (string, FoodParam))
    returns (r: Result<seq<Day>>, ghost staged: seq<seq<Item>>)
    requires Staged(days)
    modifies rng
    ensures Leads(e.1).Err? ==> r == Err(Leads(e.1).error)
    ensures Leads(e.1) == Ok(false) ==> r == Ok(days)
    ensures r.Ok? ==> GroupStaged(tax, e, staged, |days|)
    ensures r.Ok? ==> |r.value| == |days| && forall k :: 0 <= k < |days| ==> Grown(days[k], r.value[k], staged[k])
    ensures Leads(e.1) == Ok(true) && days != [] && !(e.1.value.Numbers? && |e.1.value.items| == 2) ==>
      r.Err? && r.error.TypeError?
    ensures Leads(e.1) == Ok(true) && days != [] && Search(tax, e.0) == [] ==> r.Err?
    ensures Leads(e.1) == Ok(true) && HighDefined(tax, e.0, e.1.value) ==> r.Ok?
  {
    staged := seq(|days|, _ => []);
    var leads := Leads(e.1);
    if leads.Err? {
      return Err(leads.error), staged;
    }
    forall k | 0 <= k < |days| ensures Grown(days[k], days[k], []) {
    }
    if !leads.value {
      return Ok(days), staged;
    }
    var v := e.1.value;
    var current := days;
    staged := [];
    var k := 0;
    while k < |days|
      invariant 0 <= k <= |days| && |current| == |days| && |staged| == k && Staged(current)
      invariant forall i :: 0 <= i < k ==> HighStaged(tax, e.0, v, staged[i]) && Grown(days[i], current[i], staged[i])
      invariant forall i :: k <= i < |days| ==> current[i] == days[i]
    {
      var next, items := HighDay(rng, tax, e.0, v, current[k]);
      if next.Err? {
        if k > 0 {
          assert HighStaged(tax, e.0, v, staged[0]);
        }
        return Err(next.error), staged;
      }
      current := current[k := next.value];
      staged := staged + [items];
      k := k + 1;
    }
    if days != [] {
      assert HighStaged(tax, e.0, v, staged[0]);
    }
    r := Ok(current);
  }

  /** The items staged on day `k` by the groups of `staged`, group after group. */
  function Column(staged: seq<seq<seq<Item>>>, k: nat): seq<Item>
    requires forall g :: 0 <= g < |staged| ==> k < |staged[g]|
  {
    if staged == [] then []
    else
      var n := |staged| - 1;
      Column(staged[..n], k) + staged[n][k]
  }

  /** One more group of the second tier on day `k`. */
  lemma ColumnStep(staged: seq<seq<seq<Item>>>, x: seq<seq<Item>>, k: nat, d0: Day, d1: Day, d2: Day)
    requires forall g :: 0 <= g < |staged| ==> k < |staged[g]|
    requires k < |x| && Grown(d0, d1, Column(staged, k)) && Grown(d1, d2, x[k])
    ensures forall g :: 0 <= g < |staged + [x]| ==> k < |(staged + [x])[g]|
    ensures Grown(d0, d2, Column(staged + [x], k))
  {
    assert (staged + [x])[..|staged|] == staged;
    AddItemsAppend(d0.preDishes.value, Column(staged, k), x[k]);
  }

  /** The second tier can stage entry `e`: it is skipped with -1, or it leads with a usable range over known rows. */
  predicate HighReady(tax: seq<Row>, e: (string, FoodParam)) {
    Leads(e.1) == Ok(false) || (Leads(e.1) == Ok(true) && HighDefined(tax, e.0, e.1.value))
  }

  /**
   * The second loop of `compute_subject_diet` over the entries the first loop left: each
   * day's bucket grows by what every group staged on it, group after group.
   */
  method HighTier(rng: Rng, tax: seq<Row>, days: seq<Day>, entries: seq<(string, FoodParam)>)
    returns (r: Result<seq<Day>>, ghost staged: seq<seq<seq<Item>>>)
    requires Staged(days)
    modifies rng
    ensures r.Ok? ==> |staged| == |entries| && forall g :: 0 <= g < |entries| ==> GroupStaged(tax, entries[g], staged[g], |days|)
    ensures r.Ok? ==> forall g :: 0 <= g < |staged| ==> |staged[g]| == |days|
    ensures r.Ok? ==> |r.value| == |days| && forall k :: 0 <= k < |days| ==> Grown(days[k], r.value[k], Column(staged, k))
    ensures (exists g :: 0 <= g < |entries| && Leads(entries[g].1).Err?) ==> r.Err?
    ensures (forall g :: 0 <= g < |entries| ==> HighReady(tax, entries[g])) ==> r.Ok?
  {
    var current := days;
    staged := [];
    forall k | 0 <= k < |days| ensures Grown(days[k], days[k], Column(staged, k)) {
    }
    var g := 0;
    while g < |entries|
      invariant 0 <= g <= |entries| && |staged| == g && |current| == |days| && Staged(current)
      invariant forall i :: 0 <= i < g ==> GroupStaged(tax, entries[i], staged[i], |days|) && |staged[i]| == |days|
      invariant forall i :: 0 <= i < g ==> Leads(entries[i].1).Ok?
      invariant forall k :: 0 <= k < |days| ==> Grown(days[k], current[k], Column(staged, k))
    {
      var next, items := HighGroup(rng, tax, current, entries[g]);
      if next.Err? {
        return next, staged;
      }
      forall k | 0 <= k < |days| ensures Grown(days[k], next.value[k], Column(staged + [items], k)) {
        ColumnStep(staged, items, k, days[k], current[k], next.value[k]);
      }
      current := next.value;
      staged := staged + [items];
      g := g + 1;
    }
    r := Ok(current);
  }
}
