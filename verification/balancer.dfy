/**
 * `balance_subject_diet` (AI4FoodNutritionFW.py): every day's staged dishes are placed
 * into its meals, mains first under a per-meal capacity and a drawn list of meals, then
 * one bread, side, dessert, drink, appetizer and snack per meal where the main/no-main
 * rule allows; what finds no meal is dropped, the staging bucket is deleted and the empty
 * meals are removed.
 *
 * The day's meals are the `Meal` constructor's "meal_1" to "meal_n" (`Contiguous`), so
 * meal number `n` sits at position `n - 1` and the key lists of the source become lists of
 * meal numbers. Most facts are stated on a `Column`: the lists of one category, meal by meal.
 */
module Balancer {
  import opened Wrappers
  import opened Seqs
  import opened Keys
  import opened Dicts
  import opened Dishes
  import opened Days
  import opened Random
  import opened Selection
  import opened Profile
  import opened Subjects

  /** The meals are numbered 1, 2, ... in order. */
  predicate Contiguous<V>(meals: seq<(nat, V)>) {
    forall i :: 0 <= i < |meals| ==> meals[i].0 == i + 1
  }

  /** The lists of category `t`, meal by meal. */
  function Column(meals: seq<(nat, Bucket)>, t: DishType): (r: seq<seq<string>>)
    ensures |r| == |meals| && forall i :: 0 <= i < |meals| ==> r[i] == meals[i].1.Get(t)
  {
    seq(|meals|, i requires 0 <= i < |meals| => meals[i].1.Get(t))
  }

  /** Everything the lists hold together. */
  function Bag(lists: seq<seq<string>>): multiset<string> {
    if lists == [] then multiset{}
    else
      var n := |lists| - 1;
      Bag(lists[..n]) + multiset(lists[n])
  }

  /** `meals` with `x` appended to the list of category `t` of meal number `n`. */
  function Put(meals: seq<(nat, Bucket)>, t: DishType, n: nat, x: string): (r: seq<(nat, Bucket)>)
    requires 1 <= n <= |meals|
    ensures |r| == |meals|
  {
    meals[n - 1 := (meals[n - 1].0, meals[n - 1].1.Add(t, x))]
  }

  /** Adding a dish to a meal appends it to one list of that meal's column and touches no other column. */
  lemma ColumnPut(meals: seq<(nat, Bucket)>, t: DishType, n: nat, x: string, u: DishType)
    requires 1 <= n <= |meals|
    ensures var c := Column(meals, u);
      Column(Put(meals, t, n, x), u) == if u == t then c[n - 1 := c[n - 1] + [x]] else c
  {
  }

  /** Appending to one list adds one element to what the lists hold together. */
  lemma {:induction false} BagAppend(lists: seq<seq<string>>, k: nat, x: string)
    requires k < |lists|
    ensures Bag(lists[k := lists[k] + [x]]) == Bag(lists) + multiset{x}
  {
    var m := |lists| - 1;
    var r := lists[k := lists[k] + [x]];
    assert Bag(r) == Bag(r[..m]) + multiset(r[m]);
    assert Bag(lists) == Bag(lists[..m]) + multiset(lists[m]);
    if k < m {
      assert r[..m] == lists[..m][k := lists[k] + [x]];
      BagAppend(lists[..m], k, x);
      assert r[m] == lists[m];
      assert Bag(r) == (Bag(lists[..m]) + multiset{x}) + multiset(lists[m]);
    } else {
      assert r[..m] == lists[..m];
      assert multiset(r[m]) == multiset(lists[m]) + multiset{x};
      assert Bag(r) == Bag(lists[..m]) + (multiset(lists[m]) + multiset{x});
    }
  }

  /** Two runs of lists hold together what each holds. */
  lemma {:induction false} BagConcat(a: seq<seq<string>>, b: seq<seq<string>>)
    ensures Bag(a + b) == Bag(a) + Bag(b)
  {
    if b == [] {
      assert a + b == a;
    } else {
      var n := |b| - 1;
      BagConcat(a, b[..n]);
      assert (a + b)[..|a + b| - 1] == a + b[..n];
    }
  }

  /** One more element of a prefix adds that element to what the prefix holds. */
  lemma TakeOneMore(s: seq<string>, k: nat)
    requires k < |s|
    ensures multiset(s[..k + 1]) == multiset(s[..k]) + multiset{s[k]}
  {
    assert s[..k + 1] == s[..k] + [s[k]];
  }

  /** The meals of a contiguous day have distinct keys. */
  lemma ContiguousKeys<V>(meals: seq<(nat, V)>)
    requires Contiguous(meals)
    ensures DistinctKeys(meals) && WellNumbered(meals)
  {
  }

  /** The key "meal_<n>" names the meal at position `n - 1`. */
  lemma KeyOfMeal(meals: seq<(nat, Bucket)>, n: nat)
    requires Contiguous(meals) && 1 <= n <= |meals|
    ensures Locate(meals, RefKey(Key(MealInStr(n)))) == Some(n - 1)
  {
    MealKeyRef(n);
    ContiguousKeys(meals);
    LocateComplete(meals, MealInStr(n), n - 1);
  }

  /** The key "meal_<n>" contains "meal", so `meal_in2_str` is not applied to it again. */
  lemma MealKeyRef(n: nat)
    ensures RefKey(Key(MealInStr(n))) == MealInStr(n)
  {
    var key := MealInStr(n);
    assert key[..4] == "meal";
  }

  /** `get_num_current_dishes(t, "meal_<n>")` on a contiguous day is the length of that list. */
  lemma CountAt(day: Day, t: DishType, n: nat)
    requires Contiguous(day.meals) && 1 <= n <= |day.meals|
    ensures GetNumCurrentDishes(day, Name(t), Key(MealInStr(n))) == Ok(|day.meals[n - 1].1.Get(t)|)
  {
    KeyOfMeal(day.meals, n);
    ExactName(t);
  }

  /** `add_new_dish(x, t, "meal_<n>")` on a contiguous day appends `x` to that list. */
  lemma AddAt(day: Day, x: string, t: DishType, n: nat)
    requires Contiguous(day.meals) && 1 <= n <= |day.meals|
    ensures AddNewDish(day, x, Name(t), Key(MealInStr(n))) == Ok(day.(meals := Put(day.meals, t, n, x)))
  {
    KeyOfMeal(day.meals, n);
    ParseName(t);
  }

  /** `get_num_current_dishes(t, "meal_<n>")` on a contiguous day: the length of that list. */
  method CurrentCount(day: Day, t: DishType, n: nat) returns (count: nat)
    requires Contiguous(day.meals) && 1 <= n <= |day.meals|
    ensures count == |day.meals[n - 1].1.Get(t)|
  {
    CountAt(day, t, n);
    var r := GetNumCurrentDishes(day, Name(t), Key(MealInStr(n)));
    count := r.value;
  }

  /** `add_new_dish(x, t, "meal_<n>")` on a contiguous day: `x` joins that list. */
  method AddToMeal(day: Day, x: string, t: DishType, n: nat) returns (r: Day)
    requires Contiguous(day.meals) && 1 <= n <= |day.meals|
    ensures r == day.(meals := Put(day.meals, t, n, x))
  {
    AddAt(day, x, t, n);
    var added := AddNewDish(day, x, Name(t), Key(MealInStr(n)));
    r := added.value;
  }

  /** Each list of `after` extends the list of `before` at the same position. */
  predicate Extends(before: seq<seq<string>>, after: seq<seq<string>>) {
    |after| == |before| && forall i :: 0 <= i < |before| ==> before[i] <= after[i]
  }

  /** The meal numbers stay, the lists of category `t` only grow, and no other category changes. */
  predicate Grows(before: seq<(nat, Bucket)>, after: seq<(nat, Bucket)>, t: DishType) {
    |after| == |before| &&
    (forall i :: 0 <= i < |before| ==> after[i].0 == before[i].0) &&
    Extends(Column(before, t), Column(after, t)) &&
    forall u :: u != t ==> Column(after, u) == Column(before, u)
  }

  /** Growing by one dish keeps growing. */
  lemma GrowsPut(before: seq<(nat, Bucket)>, cur: seq<(nat, Bucket)>, t: DishType, n: nat, x: string)
    requires Grows(before, cur, t) && 1 <= n <= |cur|
    ensures Grows(before, Put(cur, t, n, x), t)
  {
    var next := Put(cur, t, n, x);
    forall u | u != t ensures Column(next, u) == Column(before, u) {
      ColumnPut(cur, t, n, x, u);
    }
    ColumnPut(cur, t, n, x, t);
  }

  /** The meals a pass may serve: those holding a main, any meal, or those without one. */
  datatype Zone = WithMain | Anywhere | WithoutMain

  /** Meal number `n` is in the zone, given the meals that received a main. */
  predicate InZone(zone: Zone, mainMeals: seq<nat>, n: nat) {
    match zone
    case WithMain => n in mainMeals
    case Anywhere => true
    case WithoutMain => n !in mainMeals
  }

  /** The zone of each category's pass: bread and sides with a main, appetizers and snacks without. */
  function ZoneOf(t: DishType): Zone {
    match t
    case Bread => WithMain
    case Side => WithMain
    case Appetizer => WithoutMain
    case Snack => WithoutMain
    case _ => Anywhere
  }

  /** Meal number `n` lies in the zone and its list in `col` is still empty. */
  predicate IsFree(col: seq<seq<string>>, zone: Zone, mainMeals: seq<nat>, n: nat) {
    1 <= n <= |col| && InZone(zone, mainMeals, n) && col[n - 1] == []
  }

  /** The meals of the zone whose list in `col` is still empty. */
  function Free(col: seq<seq<string>>, zone: Zone, mainMeals: seq<nat>): set<nat> {
    set n | 1 <= n <= |col| && IsFree(col, zone, mainMeals, n)
  }

  /** No meal is free when none of the numbered meals is. */
  lemma FreeNone(col: seq<seq<string>>, zone: Zone, mainMeals: seq<nat>)
    requires forall n :: 1 <= n <= |col| ==> !IsFree(col, zone, mainMeals, n)
    ensures Free(col, zone, mainMeals) == {}
  {
  }

  /** Serving a free meal takes it out of the free meals. */
  lemma FreePut(col: seq<seq<string>>, zone: Zone, mainMeals: seq<nat>, n: nat, x: string)
    requires IsFree(col, zone, mainMeals, n)
    ensures Free(col[n - 1 := col[n - 1] + [x]], zone, mainMeals) == Free(col, zone, mainMeals) - {n}
    ensures |Free(col[n - 1 := col[n - 1] + [x]], zone, mainMeals)| == |Free(col, zone, mainMeals)| - 1
  {
    var next := col[n - 1 := col[n - 1] + [x]];
    assert next[n - 1] == [x];
    assert Free(next, zone, mainMeals) == Free(col, zone, mainMeals) - {n};
    assert n in Free(col, zone, mainMeals);
  }

  /** In an untouched column every meal is free for a pass that may serve any meal. */
  lemma FreeAnywhere(col: seq<seq<string>>, mainMeals: seq<nat>)
    requires forall i :: 0 <= i < |col| ==> col[i] == []
    ensures |Free(col, Anywhere, mainMeals)| == |col|
  {
    var all := Range(1, |col| + 1);
    assert Free(col, Anywhere, mainMeals) == Elems(all) by {
      forall n: nat ensures n in Elems(all) <==> 1 <= n <= |col| {
        if 1 <= n <= |col| {
          assert all[n - 1] == n;
        }
      }
    }
    assert Distinct(all);
    ElemsBound(all);
  }

  /** In an untouched column exactly the meals with a main are free for bread and sides. */
  lemma FreeWithMain(col: seq<seq<string>>, mainMeals: seq<nat>)
    requires forall i :: 0 <= i < |col| ==> col[i] == []
    requires Distinct(mainMeals) && forall k :: 0 <= k < |mainMeals| ==> 1 <= mainMeals[k] <= |col|
    ensures |Free(col, WithMain, mainMeals)| == |mainMeals|
  {
    assert Free(col, WithMain, mainMeals) == Elems(mainMeals);
    ElemsBound(mainMeals);
  }

  /** The meals free for appetizers and snacks are the free meals without the ones free for bread. */
  lemma FreeWithoutMain(col: seq<seq<string>>, mainMeals: seq<nat>)
    ensures |Free(col, WithoutMain, mainMeals)| == |Free(col, Anywhere, mainMeals)| - |Free(col, WithMain, mainMeals)|
  {
    var any, with := Free(col, Anywhere, mainMeals), Free(col, WithMain, mainMeals);
    assert Free(col, WithoutMain, mainMeals) == any - with;
    assert any == (any - with) + with;
  }

  /** The meals of an untouched column that a zone offers: all, those with a main, or the others. */
  lemma FreeCount(col: seq<seq<string>>, zone: Zone, mainMeals: seq<nat>)
    requires forall i :: 0 <= i < |col| ==> col[i] == []
    requires Distinct(mainMeals) && forall k :: 0 <= k < |mainMeals| ==> 1 <= mainMeals[k] <= |col|
    ensures |Free(col, zone, mainMeals)| == match zone
      case Anywhere => |col|
      case WithMain => |mainMeals|
      case WithoutMain => |col| - |mainMeals|
  {
    FreeAnywhere(col, mainMeals);
    FreeWithMain(col, mainMeals);
    FreeWithoutMain(col, mainMeals);
  }

  function Min(a: int, b: int): int {
    if a <= b then a else b
  }

  /** Every list of `after` that differs from `before` was empty, holds one dish, and lies in the zone. */
  predicate OnePerMeal(before: seq<seq<string>>, after: seq<seq<string>>, zone: Zone, mainMeals: seq<nat>) {
    |after| == |before| &&
    forall i :: 0 <= i < |after| && after[i] != before[i] ==>
      before[i] == [] && |after[i]| == 1 && InZone(zone, mainMeals, i + 1)
  }

  /**
   * A pass of `items` over the column `before` gave `after`: at most one new dish per meal,
   * only in the zone's free meals, and exactly the first `min(|items|, free meals)` items placed.
   */
  predicate Filled(before: seq<seq<string>>, after: seq<seq<string>>, items: seq<string>, zone: Zone, mainMeals: seq<nat>) {
    OnePerMeal(before, after, zone, mainMeals) &&
    Bag(after) == Bag(before) + multiset(items[..Min(|items|, |Free(before, zone, mainMeals)|)])
  }

  /**
   * The state of a pass after `j` items: `placed` of them are in the column, at most one per
   * free meal, and each placement took one free meal.
   */
  predicate Placing(before: seq<seq<string>>, col: seq<seq<string>>, items: seq<string>, zone: Zone, mainMeals: seq<nat>,
                    j: nat, placed: nat) {
    j <= |items| && placed <= j && Extends(before, col) && OnePerMeal(before, col, zone, mainMeals) &&
    |Free(col, zone, mainMeals)| == |Free(before, zone, mainMeals)| - placed &&
    placed == Min(j, |Free(before, zone, mainMeals)|) &&
    Bag(col) == Bag(before) + multiset(items[..placed])
  }

  /** Placing item `j` in a free meal `n` moves the pass on by one item and one placement. */
  lemma PlaceStep(before: seq<seq<string>>, col: seq<seq<string>>, items: seq<string>, zone: Zone, mainMeals: seq<nat>,
                  j: nat, placed: nat, n: nat)
    requires Placing(before, col, items, zone, mainMeals, j, placed) && j < |items| && IsFree(col, zone, mainMeals, n)
    ensures Placing(before, col[n - 1 := col[n - 1] + [items[j]]], items, zone, mainMeals, j + 1, placed + 1)
  {
    var next := col[n - 1 := col[n - 1] + [items[j]]];
    FreePut(col, zone, mainMeals, n, items[j]);
    assert placed == j;
    BagStep(before, col, items, j, n - 1);
    OnePerMealPut(before, col, zone, mainMeals, n, items[j]);
    assert |Free(next, zone, mainMeals)| == |Free(before, zone, mainMeals)| - (placed + 1);
  }

  /** One more item appended to list `k` of the column: the column holds one more item of the run. */
  lemma BagStep(before: seq<seq<string>>, col: seq<seq<string>>, items: seq<string>, j: nat, k: nat)
    requires j < |items| && k < |col| && Bag(col) == Bag(before) + multiset(items[..j])
    ensures Bag(col[k := col[k] + [items[j]]]) == Bag(before) + multiset(items[..j + 1])
  {
    BagAppend(col, k, items[j]);
    TakeOneMore(items, j);
  }

  /** A dish in a free meal keeps the column growing, one dish per meal of the zone. */
  lemma OnePerMealPut(before: seq<seq<string>>, col: seq<seq<string>>, zone: Zone, mainMeals: seq<nat>, n: nat, x: string)
    requires Extends(before, col) && OnePerMeal(before, col, zone, mainMeals) && IsFree(col, zone, mainMeals, n)
    ensures var next := col[n - 1 := col[n - 1] + [x]];
      Extends(before, next) && OnePerMeal(before, next, zone, mainMeals)
  {
    assert before[n - 1] == [] by {
      assert before[n - 1] <= col[n - 1];
    }
  }

  /** An item that finds no free meal is dropped: the pass moves on by one item only. */
  lemma PlaceSkip(before: seq<seq<string>>, col: seq<seq<string>>, items: seq<string>, zone: Zone, mainMeals: seq<nat>,
                  j: nat, placed: nat)
    requires Placing(before, col, items, zone, mainMeals, j, placed) && j < |items|
    requires forall n :: 1 <= n <= |col| ==> !IsFree(col, zone, mainMeals, n)
    ensures Placing(before, col, items, zone, mainMeals, j + 1, placed)
  {
    FreeNone(col, zone, mainMeals);
  }

  /** The list `order` holds the meal numbers 1 to `n`, each at least once, and nothing else. */
  predicate Covers(order: seq<nat>, n: nat) {
    (forall k :: 0 <= k < |order| ==> 1 <= order[k] <= n) && forall m :: 1 <= m <= n ==> m in order
  }

  /** Shuffling keeps the meals covered. */
  lemma CoversShuffle(order: seq<nat>, shuffled: seq<nat>, n: nat)
    requires Covers(order, n) && multiset(shuffled) == multiset(order)
    ensures Covers(shuffled, n)
  {
    forall k | 0 <= k < |shuffled| ensures 1 <= shuffled[k] <= n {
      assert shuffled[k] in multiset(order);
    }
    forall m | 1 <= m <= n ensures m in shuffled {
      assert m in order;
      assert m in multiset(order);
    }
  }

  /**
   * The inner loop of a pass: the first meal of `order` in the zone whose list of category
   * `t` is empty, by `get_num_current_dishes(t, meal) == 0`; None when every meal is taken.
   */
  method FirstFree(day: Day, t: DishType, order: seq<nat>, mainMeals: seq<nat>, zone: Zone) returns (r: Option<nat>)
    requires Contiguous(day.meals) && Covers(order, |day.meals|)
    ensures r.Some? ==> IsFree(Column(day.meals, t), zone, mainMeals, r.value)
    ensures r.None? ==> forall n :: 1 <= n <= |day.meals| ==> !IsFree(Column(day.meals, t), zone, mainMeals, n)
  {
    var k := 0;
    while k < |order|
      invariant 0 <= k <= |order|
      invariant forall q :: 0 <= q < k ==> !IsFree(Column(day.meals, t), zone, mainMeals, order[q])
    {
      var n := order[k];
      if InZone(zone, mainMeals, n) {
        var count := CurrentCount(day, t, n);
        if count == 0 {
          return Some(n);
        }
      }
      assert !IsFree(Column(day.meals, t), zone, mainMeals, order[k]);
      k := k + 1;
    }
    forall n | 1 <= n <= |day.meals| ensures !IsFree(Column(day.meals, t), zone, mainMeals, n) {
      assert n in order;
      var q :| 0 <= q < |order| && order[q] == n;
    }
    r := None;
  }

  /**
   * One of the six loops `for item in items: for current_meal in total_meals: ...`: each
   * item goes to the first meal of `order` that lies in the zone and has no dish of
   * category `t` yet; an item that finds none is dropped.
   */
  method PlaceEach(day: Day, items: seq<string>, t: DishType, order: seq<nat>, mainMeals: seq<nat>, zone: Zone)
    returns (r: Day)
    requires Contiguous(day.meals) && Covers(order, |day.meals|)
    ensures r.preDishes == day.preDishes && Contiguous(r.meals) && Grows(day.meals, r.meals, t)
    ensures Filled(Column(day.meals, t), Column(r.meals, t), items, zone, mainMeals)
  {
    r := day;
    ghost var placed := 0;
    var j := 0;
    while j < |items|
      invariant 0 <= j <= |items|
      invariant r.preDishes == day.preDishes && Contiguous(r.meals) && Grows(day.meals, r.meals, t)
      invariant Placing(Column(day.meals, t), Column(r.meals, t), items, zone, mainMeals, j, placed)
    {
      r, placed := PlaceItem(day, r, items, j, t, order, mainMeals, zone, placed);
      j := j + 1;
    }
  }

  /** The body of a pass for item `j`: the first free meal of `order` receives it, if any. */
  method PlaceItem(day: Day, cur: Day, items: seq<string>, j: nat, t: DishType, order: seq<nat>, mainMeals: seq<nat>, zone: Zone,
                   ghost placed: nat)
    returns (r: Day, ghost placed': nat)
    requires Contiguous(cur.meals) && Covers(order, |cur.meals|) && Grows(day.meals, cur.meals, t) && j < |items|
    requires Placing(Column(day.meals, t), Column(cur.meals, t), items, zone, mainMeals, j, placed)
    ensures r.preDishes == cur.preDishes && Contiguous(r.meals) && Grows(day.meals, r.meals, t)
    ensures Placing(Column(day.meals, t), Column(r.meals, t), items, zone, mainMeals, j + 1, placed')
  {
    var n := FirstFree(cur, t, order, mainMeals, zone);
    if n.Some? {
      var k := n.value;
      PlaceStep(Column(day.meals, t), Column(cur.meals, t), items, zone, mainMeals, j, placed, k);
      GrowsPut(day.meals, cur.meals, t, k, items[j]);
      ColumnPut(cur.meals, t, k, items[j], t);
      r := AddToMeal(cur, items[j], t, k);
      placed' := placed + 1;
    } else {
      PlaceSkip(Column(day.meals, t), Column(cur.meals, t), items, zone, mainMeals, j, placed);
      r, placed' := cur, placed;
    }
  }

  /** Every meal whose list of mains changed holds at most `cap` of them. */
  predicate Capped(before: seq<seq<string>>, after: seq<seq<string>>, cap: Option<int>) {
    |after| == |before| &&
    forall i :: 0 <= i < |after| && after[i] != before[i] ==> cap.Some? && |after[i]| <= cap.value
  }

  /** Every meal whose list of mains changed is one of `queue`. */
  predicate Queued(before: seq<seq<string>>, after: seq<seq<string>>, queue: seq<int>) {
    |after| == |before| &&
    forall i :: 0 <= i < |after| && after[i] != before[i] ==> i + 1 in queue
  }

  /** `mainMeals` lists, once each, the meals whose list of mains changed. */
  predicate Marked(before: seq<seq<string>>, after: seq<seq<string>>, mainMeals: seq<nat>) {
    |after| == |before| && Distinct(mainMeals) &&
    (forall k :: 0 <= k < |mainMeals| ==> 1 <= mainMeals[k] <= |after| && after[mainMeals[k] - 1] != before[mainMeals[k] - 1]) &&
    forall i :: 0 <= i < |after| && after[i] != before[i] ==> i + 1 in mainMeals
  }

  /**
   * The column of mains after the first `placed` mains were seated: it grew, only in meals of
   * the queue, never past the cap, `mainMeals` lists the meals that grew, and it holds the
   * first `placed` mains on top of what it held.
   */
  predicate MainColumn(before: seq<seq<string>>, col: seq<seq<string>>, queue: seq<int>, cap: Option<int>, mainMeals: seq<nat>,
                       mains: seq<string>, placed: nat) {
    placed <= |mains| &&
    Extends(before, col) && Capped(before, col, cap) && Queued(before, col, queue) && Marked(before, col, mainMeals) &&
    Bag(col) == Bag(before) + multiset(mains[..placed])
  }

  /** A main placed in meal `n` of the queue, below the cap, keeps the column capped, queued and marked. */
  lemma MarkStep(before: seq<seq<string>>, col: seq<seq<string>>, queue: seq<int>, cap: Option<int>, mainMeals: seq<nat>,
                 n: nat, x: string)
    requires Extends(before, col) && Capped(before, col, cap) && Queued(before, col, queue) && Marked(before, col, mainMeals)
    requires 1 <= n <= |col| && n in queue && cap.Some? && |col[n - 1]| < cap.value
    ensures var next := col[n - 1 := col[n - 1] + [x]];
      Extends(before, next) && Capped(before, next, cap) && Queued(before, next, queue) &&
      Marked(before, next, if n in mainMeals then mainMeals else mainMeals + [n])
  {
    var next := col[n - 1 := col[n - 1] + [x]];
    assert next[n - 1] != before[n - 1] by {
      assert |next[n - 1]| > |col[n - 1]| >= |before[n - 1]|;
    }
    if n !in mainMeals {
      var mm := mainMeals + [n];
      forall p, q | 0 <= p < q < |mm| ensures mm[p] != mm[q] {
        if q == |mainMeals| {
          assert mm[p] == mainMeals[p];
        }
      }
    }
  }

  /** Seating the next main adds it to what the column holds. */
  lemma MainBag(before: seq<seq<string>>, col: seq<seq<string>>, mains: seq<string>, placed: nat, n: nat)
    requires placed < |mains| && 1 <= n <= |col| && Bag(col) == Bag(before) + multiset(mains[..placed])
    ensures Bag(col[n - 1 := col[n - 1] + [mains[placed]]]) == Bag(before) + multiset(mains[..placed + 1])
  {
    BagAppend(col, n - 1, mains[placed]);
    TakeOneMore(mains, placed);
  }

  /** The next main, placed in meal `n` of the queue below the cap, keeps the column of mains in shape. */
  lemma MainStep(before: seq<seq<string>>, col: seq<seq<string>>, queue: seq<int>, cap: Option<int>, mainMeals: seq<nat>,
                 mains: seq<string>, placed: nat, n: nat)
    requires MainColumn(before, col, queue, cap, mainMeals, mains, placed) && placed < |mains|
    requires 1 <= n <= |col| && n in queue && cap.Some? && |col[n - 1]| < cap.value
    ensures MainColumn(before, col[n - 1 := col[n - 1] + [mains[placed]]], queue, cap,
                       if n in mainMeals then mainMeals else mainMeals + [n], mains, placed + 1)
  {
    var next := col[n - 1 := col[n - 1] + [mains[placed]]];
    var mm := if n in mainMeals then mainMeals else mainMeals + [n];
    assert Extends(before, next) && Capped(before, next, cap) && Queued(before, next, queue) && Marked(before, next, mm) by {
      MarkStep(before, col, queue, cap, mainMeals, n, mains[placed]);
    }
    MainBag(before, col, mains, placed, n);
  }

  /** Meal number `n` already holds `cap` mains: `get_num_current_dishes("main", meal) < cap` fails there. */
  predicate Full(meals: seq<(nat, Bucket)>, cap: Option<int>, n: int) {
    cap.Some? && 1 <= n <= |meals| && |meals[n - 1].1.Get(Main)| >= cap.value
  }

  /** The meals one round of the `while flag_break` loop has tried: `first`, then those popped from `left` until `rest` was left. */
  function Tried(first: int, left: seq<int>, rest: seq<int>): (r: seq<int>)
    requires |rest| <= |left|
    ensures |r| == |left| - |rest| + 1 && r[0] == first
  {
    [first] + left[..|left| - |rest|]
  }

  /**
   * How one round of the `while flag_break` loop ends: every meal tried before the last was
   * full; the main is seated in the last meal tried, which had room, or it is dropped because
   * that meal was full too and the queue is empty.
   */
  predicate Seated(meals: seq<(nat, Bucket)>, x: string, first: int, left: seq<int>, cap: Option<int>, rest: seq<int>,
                   seat: Option<nat>, next: seq<(nat, Bucket)>) {
    |rest| <= |left| &&
    var tried := Tried(first, left, rest);
    (forall k :: 0 <= k < |tried| - 1 ==> Full(meals, cap, tried[k])) &&
    (seat.None? ==> next == meals && rest == [] && Full(meals, cap, tried[|tried| - 1])) &&
    (seat.Some? ==>
      seat.value == tried[|tried| - 1] && 1 <= seat.value <= |meals| && cap.Some? &&
      |meals[seat.value - 1].1.Get(Main)| < cap.value && next == Put(meals, Main, seat.value, x))
  }

  /** A round whose last meal tried has room seats the main there. */
  lemma SeatFound(meals: seq<(nat, Bucket)>, x: string, first: int, left: seq<int>, cap: Option<int>, rest: seq<int>, n: nat)
    requires |rest| <= |left| && n == Tried(first, left, rest)[|Tried(first, left, rest)| - 1]
    requires forall k :: 0 <= k < |Tried(first, left, rest)| - 1 ==> Full(meals, cap, Tried(first, left, rest)[k])
    requires 1 <= n <= |meals| && cap.Some? && |meals[n - 1].1.Get(Main)| < cap.value
    ensures Seated(meals, x, first, left, cap, rest, Some(n), Put(meals, Main, n, x))
  {
  }

  /** A round that runs out of queue on a full meal drops the main. */
  lemma SeatMissing(meals: seq<(nat, Bucket)>, x: string, first: int, left: seq<int>, cap: Option<int>, n: nat)
    requires n == Tried(first, left, [])[|Tried(first, left, [])| - 1]
    requires forall k :: 0 <= k < |Tried(first, left, [])| - 1 ==> Full(meals, cap, Tried(first, left, [])[k])
    requires Full(meals, cap, n)
    ensures Seated(meals, x, first, left, cap, [], None, meals)
  {
  }

  /** Popping one more meal after a full one adds it to the meals tried. */
  lemma TriedPop(first: int, left: seq<int>, rest: seq<int>)
    requires |rest| <= |left| && rest != [] && rest == left[|left| - |rest|..]
    ensures Tried(first, left, rest[1..]) == Tried(first, left, rest) + [rest[0]]
  {
    assert left[..|left| - |rest| + 1] == left[..|left| - |rest|] + [left[|left| - |rest|]];
  }

  /**
   * The `while flag_break` loop for one main: try meal `first`, then the meals popped from
   * `left` in turn, until one holds fewer than `cap` mains; the main goes there, or is
   * dropped once `left` runs out. Comparing a count with a missing cap raises TypeError.
   */
  method SeatMain(day: Day, x: string, first: nat, left: seq<int>, cap: Option<int>)
    returns (r: Result<Day>, rest: seq<int>, seat: Option<nat>)
    requires Contiguous(day.meals) && 1 <= first <= |day.meals|
    requires forall k :: 0 <= k < |left| ==> 1 <= left[k] <= |day.meals|
    ensures r.Err? <==> cap.None?
    ensures r.Err? ==> r.error.TypeError?
    ensures |rest| <= |left| && rest == left[|left| - |rest|..]
    ensures r.Ok? ==> r.value.preDishes == day.preDishes && Seated(day.meals, x, first, left, cap, rest, seat, r.value.meals)
  {
    rest := left;
    seat := None;
    r := Ok(day);
    if cap.None? {
      return Err(TypeError("'<' not supported between instances of 'int' and 'NoneType'")), rest, seat;
    }
    var meal: nat := first;
    var searching := true;
    while searching
      invariant |rest| <= |left| && rest == left[|left| - |rest|..]
      invariant 1 <= meal <= |day.meals| && meal == Tried(first, left, rest)[|Tried(first, left, rest)| - 1]
      invariant forall k :: 0 <= k < |Tried(first, left, rest)| - 1 ==> Full(day.meals, cap, Tried(first, left, rest)[k])
      invariant searching ==> r == Ok(day) && seat.None?
      invariant !searching ==> r.Ok? && r.value.preDishes == day.preDishes && Seated(day.meals, x, first, left, cap, rest, seat, r.value.meals)
      decreases |rest| + if searching then 1 else 0
    {
      var count := CurrentCount(day, Main, meal);
      if count < cap.value {
        var added := AddToMeal(day, x, Main, meal);
        SeatFound(day.meals, x, first, left, cap, rest, meal);
        r := Ok(added);
        seat := Some(meal);
        searching := false;
      } else if rest != [] {
        assert Full(day.meals, cap, meal);
        TriedPop(first, left, rest);
        assert rest[0] == left[|left| - |rest|];
        meal := rest[0];
        assert rest[1..] == left[|left| - |rest| + 1..];
        rest := rest[1..];
      } else {
        SeatMissing(day.meals, x, first, left, cap, meal);
        searching := false;
      }
    }
  }

  /**
   * The state of the main pass after `j` mains: `placed` of them sit in the column, they are
   * the first `placed`, each took at least one entry of the queue, `left` is what the queue
   * still holds, and once a main is dropped the queue is empty.
   */
  predicate Seating(before: seq<seq<string>>, col: seq<seq<string>>, queue: seq<int>, cap: Option<int>, mainMeals: seq<nat>,
                    mains: seq<string>, j: nat, placed: nat, left: seq<int>) {
    j <= |mains| && placed <= j && Suffix(queue, left) &&
    placed + |left| <= |queue| && (placed == j || left == []) &&
    MainColumn(before, col, queue, cap, mainMeals, mains, placed)
  }

  /** `rest` is what is left of `queue` after popping its first `|queue| - |rest|` entries. */
  predicate Suffix(queue: seq<int>, rest: seq<int>) {
    |rest| <= |queue| && rest == queue[|queue| - |rest|..]
  }

  /** The meals still in the queue are meals of the day. */
  lemma SuffixBounds(queue: seq<int>, left: seq<int>, n: nat)
    requires Suffix(queue, left) && left != [] && forall k :: 0 <= k < |queue| ==> 1 <= queue[k] <= n
    ensures 1 <= left[0] <= n && forall k :: 0 <= k < |left[1..]| ==> 1 <= left[1..][k] <= n
  {
    var d := |queue| - |left|;
    assert left[0] == queue[d];
    assert forall k :: 0 <= k < |left[1..]| ==> left[1..][k] == queue[d + 1 + k];
  }

  /** Dropping main `j` once the queue runs out moves the main pass on by one main. */
  lemma DropStep(before: seq<seq<string>>, col: seq<seq<string>>, queue: seq<int>, cap: Option<int>, mainMeals: seq<nat>,
                 mains: seq<string>, j: nat, placed: nat, left: seq<int>)
    requires Seating(before, col, queue, cap, mainMeals, mains, j, placed, left) && j < |mains|
    ensures Seating(before, col, queue, cap, mainMeals, mains, j + 1, placed, [])
  {
    assert queue[|queue|..] == [];
  }

  /** Seating main `j` in meal `n` moves the main pass on by one main and one placement. */
  lemma SeatingStep(before: seq<seq<string>>, col: seq<seq<string>>, queue: seq<int>, cap: Option<int>, mainMeals: seq<nat>,
                    mains: seq<string>, j: nat, placed: nat, left: seq<int>, rest: seq<int>, n: nat)
    requires Seating(before, col, queue, cap, mainMeals, mains, j, placed, left) && j < |mains| && left != []
    requires Suffix(queue, rest) && |rest| < |left| && n in queue
    requires 1 <= n <= |col| && cap.Some? && |col[n - 1]| < cap.value
    ensures Seating(before, col[n - 1 := col[n - 1] + [mains[j]]], queue, cap,
                    if n in mainMeals then mainMeals else mainMeals + [n], mains, j + 1, placed + 1, rest)
  {
    assert placed == j;
    MainStep(before, col, queue, cap, mainMeals, mains, placed, n);
  }

  /** Seating main `j` in meal `n` of the day's meals, stated on the meals. */
  lemma SeatStep(day: seq<(nat, Bucket)>, cur: seq<(nat, Bucket)>, queue: seq<int>, cap: Option<int>, mainMeals: seq<nat>,
                 mains: seq<string>, j: nat, placed: nat, left: seq<int>, rest: seq<int>, n: nat)
    requires Contiguous(cur) && Grows(day, cur, Main) && j < |mains| && left != []
    requires Seating(Column(day, Main), Column(cur, Main), queue, cap, mainMeals, mains, j, placed, left)
    requires Suffix(queue, rest) && |rest| < |left| && n in queue
    requires 1 <= n <= |cur| && cap.Some? && |cur[n - 1].1.Get(Main)| < cap.value
    ensures var next := Put(cur, Main, n, mains[j]);
      Contiguous(next) && Grows(day, next, Main) &&
      Seating(Column(day, Main), Column(next, Main), queue, cap,
              if n in mainMeals then mainMeals else mainMeals + [n], mains, j + 1, placed + 1, rest)
  {
    SeatingStep(Column(day, Main), Column(cur, Main), queue, cap, mainMeals, mains, j, placed, left, rest, n);
    GrowsPut(day, cur, Main, n, mains[j]);
    ColumnPut(cur, Main, n, mains[j], Main);
  }

  /** Meal number `n` received a main in this pass, or holds `cap` of them: no further main is seated there by its queue entry. */
  predicate Spent(before: seq<seq<string>>, col: seq<seq<string>>, cap: Option<int>, n: int) {
    1 <= n <= |col| && n <= |before| && (|col[n - 1]| > |before[n - 1]| || (cap.Some? && |col[n - 1]| >= cap.value))
  }

  /** Every meal named in `meals` is spent. */
  predicate AllSpent(before: seq<seq<string>>, col: seq<seq<string>>, cap: Option<int>, meals: seq<int>) {
    forall k :: 0 <= k < |meals| ==> Spent(before, col, cap, meals[k])
  }

  /** No list of `col` is longer than its list in `next`. */
  predicate Lengthens(col: seq<seq<string>>, next: seq<seq<string>>) {
    |next| == |col| && forall i :: 0 <= i < |col| ==> |col[i]| <= |next[i]|
  }

  /** Spent meals stay spent while the lists grow. */
  lemma SpentGrows(before: seq<seq<string>>, col: seq<seq<string>>, next: seq<seq<string>>, cap: Option<int>, meals: seq<int>)
    requires AllSpent(before, col, cap, meals) && Lengthens(col, next)
    ensures AllSpent(before, next, cap, meals)
  {
    forall k | 0 <= k < |meals| ensures Spent(before, next, cap, meals[k]) {
      assert Spent(before, col, cap, meals[k]);
    }
  }

  /** The meals tried by one round are the entries of the queue it popped. */
  lemma TriedInQueue(queue: seq<int>, left: seq<int>, rest: seq<int>)
    requires Suffix(queue, left) && left != [] && |rest| <= |left| - 1 && rest == left[1..][|left| - 1 - |rest|..]
    ensures Suffix(queue, rest)
    ensures Tried(left[0], left[1..], rest) == queue[|queue| - |left|..|queue| - |rest|]
    ensures queue[..|queue| - |rest|] == queue[..|queue| - |left|] + Tried(left[0], left[1..], rest)
  {
    var c := |queue| - |left|;
    assert left == queue[c..];
    assert Tried(left[0], left[1..], rest) == left[..|left| - |rest|];
    assert rest == queue[|queue| - |rest|..];
  }

  /** Two runs of spent meals make one. */
  lemma SpentAppend(before: seq<seq<string>>, col: seq<seq<string>>, cap: Option<int>, xs: seq<int>, ys: seq<int>)
    requires AllSpent(before, col, cap, xs) && AllSpent(before, col, cap, ys)
    ensures AllSpent(before, col, cap, xs + ys)
  {
    forall k | 0 <= k < |xs + ys| ensures Spent(before, col, cap, (xs + ys)[k]) {
      if k >= |xs| {
        assert (xs + ys)[k] == ys[k - |xs|];
      }
    }
  }

  /** Every meal of `tried` but the last holds `cap` mains. */
  predicate FullBeforeLast(col: seq<seq<string>>, cap: Option<int>, tried: seq<int>) {
    forall k :: 0 <= k < |tried| - 1 ==> 1 <= tried[k] <= |col| && cap.Some? && |col[tried[k] - 1]| >= cap.value
  }

  /** The last meal of `tried` received a main between `col` and `next`, or holds `cap` mains. */
  predicate LastSeatedOrFull(col: seq<seq<string>>, next: seq<seq<string>>, cap: Option<int>, tried: seq<int>) {
    tried != [] && |next| == |col| &&
    var n := tried[|tried| - 1];
    1 <= n <= |col| && (|next[n - 1]| > |col[n - 1]| || (cap.Some? && |col[n - 1]| >= cap.value))
  }

  /**
   * The meals one round tried are spent: all but the last were full, and the last was full
   * too or received the main.
   */
  lemma TriedSpent(before: seq<seq<string>>, col: seq<seq<string>>, next: seq<seq<string>>, cap: Option<int>, tried: seq<int>)
    requires Extends(before, col) && Lengthens(col, next)
    requires FullBeforeLast(col, cap, tried) && LastSeatedOrFull(col, next, cap, tried)
    ensures AllSpent(before, next, cap, tried)
  {
    forall k | 0 <= k < |tried| ensures Spent(before, next, cap, tried[k]) {
      var n := tried[k];
      assert 1 <= n <= |col| && |before[n - 1]| <= |col[n - 1]| <= |next[n - 1]|;
    }
  }

  /** One round only lengthens the lists of mains: by one main in the seat, if any. */
  lemma SeatedGrows(cur: seq<(nat, Bucket)>, x: string, first: int, left: seq<int>, cap: Option<int>, rest: seq<int>,
                    seat: Option<nat>, next: seq<(nat, Bucket)>)
    requires Seated(cur, x, first, left, cap, rest, seat, next)
    ensures Lengthens(Column(cur, Main), Column(next, Main))
    ensures seat.Some? ==> |Column(next, Main)[seat.value - 1]| > |Column(cur, Main)[seat.value - 1]|
  {
    if seat.Some? {
      ColumnPut(cur, Main, seat.value, x, Main);
    }
  }

  /** The meals one round tried before its last were full. */
  lemma SeatedFull(cur: seq<(nat, Bucket)>, x: string, first: int, left: seq<int>, cap: Option<int>, rest: seq<int>,
                   seat: Option<nat>, next: seq<(nat, Bucket)>)
    requires Seated(cur, x, first, left, cap, rest, seat, next)
    ensures FullBeforeLast(Column(cur, Main), cap, Tried(first, left, rest))
  {
    var tried := Tried(first, left, rest);
    forall k | 0 <= k < |tried| - 1 ensures 1 <= tried[k] <= |cur| && cap.Some? && |Column(cur, Main)[tried[k] - 1]| >= cap.value {
      assert Full(cur, cap, tried[k]);
    }
  }

  /** The last meal one round tried received the main or was full. */
  lemma SeatedLast(cur: seq<(nat, Bucket)>, x: string, first: int, left: seq<int>, cap: Option<int>, rest: seq<int>,
                   seat: Option<nat>, next: seq<(nat, Bucket)>)
    requires Seated(cur, x, first, left, cap, rest, seat, next)
    ensures LastSeatedOrFull(Column(cur, Main), Column(next, Main), cap, Tried(first, left, rest))
  {
    var tried := Tried(first, left, rest);
    var n := tried[|tried| - 1];
    var c, d := Column(cur, Main), Column(next, Main);
    if seat.Some? {
      ColumnPut(cur, Main, n, x, Main);
      assert |d[n - 1]| == |c[n - 1]| + 1;
    } else {
      assert Full(cur, cap, n);
      assert |c[n - 1]| >= cap.value;
    }
  }

  /** After one round, every queue entry popped so far names a spent meal. */
  lemma SpentStep(day: seq<(nat, Bucket)>, cur: seq<(nat, Bucket)>, next: seq<(nat, Bucket)>, queue: seq<int>, cap: Option<int>,
                  left: seq<int>, rest: seq<int>)
    requires Grows(day, cur, Main) && Suffix(queue, left) && left != []
    requires |rest| <= |left| - 1 && rest == left[1..][|left| - 1 - |rest|..]
    requires AllSpent(Column(day, Main), Column(cur, Main), cap, queue[..|queue| - |left|])
    requires var c, tried := Column(cur, Main), Tried(left[0], left[1..], rest);
      Lengthens(c, Column(next, Main)) && FullBeforeLast(c, cap, tried) && LastSeatedOrFull(c, Column(next, Main), cap, tried)
    ensures AllSpent(Column(day, Main), Column(next, Main), cap, queue[..|queue| - |rest|])
  {
    TriedInQueue(queue, left, rest);
    var b, c, d := Column(day, Main), Column(cur, Main), Column(next, Main);
    var done, tried := queue[..|queue| - |left|], Tried(left[0], left[1..], rest);
    SpentGrows(b, c, d, cap, done);
    TriedSpent(b, c, d, cap, tried);
    SpentAppend(b, d, cap, done, tried);
  }

  /** The state of the main pass, on the meals of the day: also, every queue entry popped so far names a spent meal. */
  predicate MainPass(day: seq<(nat, Bucket)>, cur: seq<(nat, Bucket)>, queue: seq<int>, cap: Option<int>, mainMeals: seq<nat>,
                     mains: seq<string>, j: nat, placed: nat, left: seq<int>) {
    Contiguous(cur) && Grows(day, cur, Main) && Seating(Column(day, Main), Column(cur, Main), queue, cap, mainMeals, mains, j, placed, left) &&
    AllSpent(Column(day, Main), Column(cur, Main), cap, queue[..|queue| - |left|])
  }

  /** `main_meals` after a round: the meal the main was seated in, listed once. */
  function Listed(mainMeals: seq<nat>, seat: Option<nat>): seq<nat> {
    if seat.Some? && seat.value !in mainMeals then mainMeals + [seat.value] else mainMeals
  }

  /** What a round that seats main `x` leaves behind: its seat is the last entry it popped, and that meal had room. */
  predicate SeatedAt(cur: seq<(nat, Bucket)>, next: seq<(nat, Bucket)>, queue: seq<int>, cap: Option<int>, x: string,
                     rest: seq<int>, n: nat) {
    |rest| < |queue| && n == queue[|queue| - |rest| - 1] && 1 <= n <= |cur| && cap.Some? &&
    |cur[n - 1].1.Get(Main)| < cap.value && next == Put(cur, Main, n, x)
  }

  /** A round that seats the main: its seat is the last meal it tried, which had room. */
  lemma SeatedSome(cur: seq<(nat, Bucket)>, next: seq<(nat, Bucket)>, queue: seq<int>, cap: Option<int>, x: string,
                   left: seq<int>, rest: seq<int>, seat: Option<nat>)
    requires Suffix(queue, left) && left != [] && |rest| <= |left| - 1 && rest == left[1..][|left| - 1 - |rest|..]
    requires Seated(cur, x, left[0], left[1..], cap, rest, seat, next) && seat.Some?
    ensures SeatedAt(cur, next, queue, cap, x, rest, seat.value)
  {
    TriedInQueue(queue, left, rest);
    var tried := Tried(left[0], left[1..], rest);
    assert tried[|tried| - 1] == queue[|queue| - |left|..|queue| - |rest|][|tried| - 1];
  }

  /** Seating main `j` moves the main pass on by one main and one placement. */
  lemma SeatRound(day: seq<(nat, Bucket)>, cur: seq<(nat, Bucket)>, next: seq<(nat, Bucket)>, queue: seq<int>,
                  cap: Option<int>, mainMeals: seq<nat>, mains: seq<string>, j: nat, placed: nat, left: seq<int>,
                  rest: seq<int>, seat: Option<nat>)
    requires MainPass(day, cur, queue, cap, mainMeals, mains, j, placed, left) && j < |mains| && left != []
    requires Suffix(queue, rest) && |rest| < |left| && seat.Some? && SeatedAt(cur, next, queue, cap, mains[j], rest, seat.value)
    requires AllSpent(Column(day, Main), Column(next, Main), cap, queue[..|queue| - |rest|])
    ensures MainPass(day, next, queue, cap, Listed(mainMeals, seat),
                     mains, j + 1, placed + if seat.Some? then 1 else 0, rest)
  {
    SeatStep(day, cur, queue, cap, mainMeals, mains, j, placed, left, rest, seat.value);
  }

  /** Dropping main `j` once the queue is used up moves the main pass on by one main. */
  lemma DropRound(day: seq<(nat, Bucket)>, cur: seq<(nat, Bucket)>, next: seq<(nat, Bucket)>, queue: seq<int>,
                  cap: Option<int>, mainMeals: seq<nat>, mains: seq<string>, j: nat, placed: nat, left: seq<int>,
                  rest: seq<int>, seat: Option<nat>)
    requires MainPass(day, cur, queue, cap, mainMeals, mains, j, placed, left) && j < |mains|
    requires seat.None? && next == cur && rest == []
    requires AllSpent(Column(day, Main), Column(next, Main), cap, queue[..|queue| - |rest|])
    ensures MainPass(day, next, queue, cap, Listed(mainMeals, seat),
                     mains, j + 1, placed + if seat.Some? then 1 else 0, rest)
  {
    assert queue[..|queue| - |rest|] == queue;
    DropStep(Column(day, Main), Column(cur, Main), queue, cap, mainMeals, mains, j, placed, left);
  }

  /** A main met by an empty queue is dropped without a round of the loop. */
  lemma SkipMain(day: seq<(nat, Bucket)>, cur: seq<(nat, Bucket)>, queue: seq<int>, cap: Option<int>, mainMeals: seq<nat>,
                 mains: seq<string>, j: nat, placed: nat)
    requires MainPass(day, cur, queue, cap, mainMeals, mains, j, placed, []) && j < |mains|
    ensures MainPass(day, cur, queue, cap, mainMeals, mains, j + 1, placed, [])
  {
    DropStep(Column(day, Main), Column(cur, Main), queue, cap, mainMeals, mains, j, placed, []);
  }

  /**
   * What one round of the `while flag_break` loop leaves behind, as separate facts: the lists
   * of mains only grew, the meals tried before the last were full, the last one was full or
   * took the main, and the round either seated the main or used up the queue.
   */
  predicate RoundDone(cur: seq<(nat, Bucket)>, next: seq<(nat, Bucket)>, queue: seq<int>, cap: Option<int>, x: string,
                      left: seq<int>, rest: seq<int>, seat: Option<nat>) {
    left != [] && |rest| <= |left| - 1 &&
    var c, d, tried := Column(cur, Main), Column(next, Main), Tried(left[0], left[1..], rest);
    Lengthens(c, d) && FullBeforeLast(c, cap, tried) && LastSeatedOrFull(c, d, cap, tried) &&
    (seat.Some? ==> SeatedAt(cur, next, queue, cap, x, rest, seat.value)) &&
    (seat.None? ==> next == cur && rest == [])
  }

  /** A round of `SeatMain` leaves those facts behind. */
  lemma SeatedRound(cur: seq<(nat, Bucket)>, next: seq<(nat, Bucket)>, queue: seq<int>, cap: Option<int>, x: string,
                    left: seq<int>, rest: seq<int>, seat: Option<nat>)
    requires Suffix(queue, left) && left != [] && |rest| <= |left| - 1 && rest == left[1..][|left| - 1 - |rest|..]
    requires Seated(cur, x, left[0], left[1..], cap, rest, seat, next)
    ensures RoundDone(cur, next, queue, cap, x, left, rest, seat)
  {
    SeatedGrows(cur, x, left[0], left[1..], cap, rest, seat, next);
    SeatedFull(cur, x, left[0], left[1..], cap, rest, seat, next);
    SeatedLast(cur, x, left[0], left[1..], cap, rest, seat, next);
    if seat.Some? {
      SeatedSome(cur, next, queue, cap, x, left, rest, seat);
    }
  }

  /** After one round of the `while flag_break` loop the main pass has moved on by one main. */
  lemma SeatOrDrop(day: seq<(nat, Bucket)>, cur: seq<(nat, Bucket)>, next: seq<(nat, Bucket)>, queue: seq<int>,
                   cap: Option<int>, mainMeals: seq<nat>, mains: seq<string>, j: nat, placed: nat, left: seq<int>,
                   rest: seq<int>, seat: Option<nat>)
    requires MainPass(day, cur, queue, cap, mainMeals, mains, j, placed, left) && j < |mains| && left != []
    requires |rest| <= |left| - 1 && rest == left[1..][|left| - 1 - |rest|..]
    requires RoundDone(cur, next, queue, cap, mains[j], left, rest, seat)
    ensures MainPass(day, next, queue, cap, Listed(mainMeals, seat), mains, j + 1, placed + if seat.Some? then 1 else 0, rest)
  {
    TriedInQueue(queue, left, rest);
    SpentStep(day, cur, next, queue, cap, left, rest);
    if seat.Some? {
      SeatRound(day, cur, next, queue, cap, mainMeals, mains, j, placed, left, rest, seat);
    } else {
      DropRound(day, cur, next, queue, cap, mainMeals, mains, j, placed, left, rest, seat);
    }
  }

  /** One turn of the loop of `PlaceMains`: main `j` seated by `PlaceMain`, or dropped once the queue is spent. */
  method MainNext(day: Day, cur: Day, mains: seq<string>, j: nat, queue: seq<int>, left: seq<int>, cap: Option<int>,
                  mainMeals: seq<nat>, ghost placed: nat)
    returns (r: Result<Day>, left': seq<int>, mainMeals': seq<nat>, ghost placed': nat)
    requires j < |mains| && forall k :: 0 <= k < |queue| ==> 1 <= queue[k] <= |day.meals|
    requires MainPass(day.meals, cur.meals, queue, cap, mainMeals, mains, j, placed, left)
    requires cap.None? ==> left == queue && (j > 0 ==> queue == [])
    ensures r.Err? <==> cap.None? && queue != []
    ensures r.Err? ==> r.error.TypeError?
    ensures r.Ok? ==> r.value.preDishes == cur.preDishes
    ensures r.Ok? ==> MainPass(day.meals, r.value.meals, queue, cap, mainMeals', mains, j + 1, placed', left')
    ensures r.Ok? && cap.None? ==> left' == queue && queue == []
  {
    if left != [] {
      r, left', mainMeals', placed' := PlaceMain(day, cur, mains, j, queue, left, cap, mainMeals, placed);
    } else {
      SkipMain(day.meals, cur.meals, queue, cap, mainMeals, mains, j, placed);
      r, left', mainMeals', placed' := Ok(cur), left, mainMeals, placed;
    }
  }

  /**
   * The body of `for current_dish in main_dishes` for main `j`, with a non-empty queue: pop
   * a meal and seat the main there or further down the queue.
   */
  method PlaceMain(day: Day, cur: Day, mains: seq<string>, j: nat, queue: seq<int>, left: seq<int>, cap: Option<int>,
                   mainMeals: seq<nat>, ghost placed: nat)
    returns (r: Result<Day>, left': seq<int>, mainMeals': seq<nat>, ghost placed': nat)
    requires j < |mains| && left != [] && forall k :: 0 <= k < |queue| ==> 1 <= queue[k] <= |day.meals|
    requires MainPass(day.meals, cur.meals, queue, cap, mainMeals, mains, j, placed, left)
    ensures r.Err? <==> cap.None?
    ensures r.Err? ==> r.error.TypeError?
    ensures r.Ok? ==> r.value.preDishes == cur.preDishes
    ensures r.Ok? ==> MainPass(day.meals, r.value.meals, queue, cap, mainMeals', mains, j + 1, placed', left')
  {
    var first := left[0];
    SuffixBounds(queue, left, |cur.meals|);
    var seat;
    r, left', seat := SeatMain(cur, mains[j], first, left[1..], cap);
    mainMeals' := Listed(mainMeals, seat);
    placed' := placed + if seat.Some? then 1 else 0;
    if r.Ok? {
      SeatedRound(cur.meals, r.value.meals, queue, cap, mains[j], left, left', seat);
      SeatOrDrop(day.meals, cur.meals, r.value.meals, queue, cap, mainMeals, mains, j, placed, left, left', seat);
    }
  }

  /** Before the first main the column is untouched and the whole queue is left. */
  lemma MainPassStart(day: seq<(nat, Bucket)>, queue: seq<int>, cap: Option<int>, mains: seq<string>)
    requires Contiguous(day)
    ensures MainPass(day, day, queue, cap, [], mains, 0, 0, queue)
  {
    var c := Column(day, Main);
    assert queue[..|queue| - |queue|] == [];
    assert mains[..0] == [];
    assert Extends(c, c);
  }

  /** Once every main has had its turn, the main pass has left the column of mains in shape. */
  lemma MainPassDone(day: seq<(nat, Bucket)>, cur: seq<(nat, Bucket)>, queue: seq<int>, cap: Option<int>, mainMeals: seq<nat>,
                     mains: seq<string>, placed: nat, left: seq<int>)
    requires MainPass(day, cur, queue, cap, mainMeals, mains, |mains|, placed, left)
    ensures Contiguous(cur) && Grows(day, cur, Main)
    ensures var before, after := Column(day, Main), Column(cur, Main);
      Capped(before, after, cap) && Queued(before, after, queue) && Marked(before, after, mainMeals) &&
      placed <= |mains| && placed <= |queue| && Bag(after) == Bag(before) + multiset(mains[..placed])
    ensures placed == |mains| || AllSpent(Column(day, Main), Column(cur, Main), cap, queue)
  {
    assert left == [] ==> queue[..|queue| - |left|] == queue;
  }

  /**
   * The main pass of a day: each main in turn takes the next meal of `queue` (the drawn
   * meals, repeated), moving down the queue past meals already holding `cap` mains; a main
   * finds no meal once the queue is empty and is dropped. The placed mains are the first
   * ones, each took a queue entry, and every meal they went to is listed once in `mainMeals`.
   */
  method PlaceMains(day: Day, mains: seq<string>, queue: seq<int>, cap: Option<int>)
    returns (r: Result<Day>, mainMeals: seq<nat>, ghost placed: nat)
    requires Contiguous(day.meals)
    requires forall k :: 0 <= k < |queue| ==> 1 <= queue[k] <= |day.meals|
    ensures r.Err? <==> cap.None? && mains != [] && queue != []
    ensures r.Err? ==> r.error.TypeError?
    ensures r.Ok? ==> r.value.preDishes == day.preDishes && Contiguous(r.value.meals) && Grows(day.meals, r.value.meals, Main)
    ensures r.Ok? ==> var before, after := Column(day.meals, Main), Column(r.value.meals, Main);
      Capped(before, after, cap) && Queued(before, after, queue) && Marked(before, after, mainMeals) &&
      placed <= |mains| && placed <= |queue| && Bag(after) == Bag(before) + multiset(mains[..placed])
    ensures r.Ok? ==> placed == |mains| || AllSpent(Column(day.meals, Main), Column(r.value.meals, Main), cap, queue)
  {
    var cur := day;
    var left := queue;
    mainMeals := [];
    placed := 0;
    var j := 0;
    MainPassStart(day.meals, queue, cap, mains);
    while j < |mains|
      invariant 0 <= j <= |mains|
      invariant cur.preDishes == day.preDishes && MainPass(day.meals, cur.meals, queue, cap, mainMeals, mains, j, placed, left)
      invariant cap.None? ==> left == queue && (j > 0 ==> queue == [])
    {
      var next;
      next, left, mainMeals, placed := MainNext(day, cur, mains, j, queue, left, cap, mainMeals, placed);
      if next.Err? {
        return next, mainMeals, placed;
      }
      cur := next.value;
      j := j + 1;
    }
    MainPassDone(day.meals, cur.meals, queue, cap, mainMeals, mains, placed, left);
    r := Ok(cur);
  }

  /** One pass of the bread to snack passes: `random.shuffle(total_meals)`, then the loop over the items. */
  method PlacePass(rng: Rng, day: Day, order: seq<nat>, items: seq<string>, t: DishType, mainMeals: seq<nat>)
    returns (r: Day, shuffled: seq<nat>)
    requires Contiguous(day.meals) && Covers(order, |day.meals|)
    modifies rng
    ensures Covers(shuffled, |day.meals|)
    ensures r.preDishes == day.preDishes && Contiguous(r.meals) && Grows(day.meals, r.meals, t)
    ensures Filled(Column(day.meals, t), Column(r.meals, t), items, ZoneOf(t), mainMeals)
  {
    shuffled := rng.Shuffle(order);
    CoversShuffle(order, shuffled, |day.meals|);
    r := PlaceEach(day, items, t, shuffled, mainMeals, ZoneOf(t));
  }

  /** The meal numbers 1 to `n` in order: the keys of `get_meals()` on a contiguous day. */
  function MealNumbers(n: nat): (r: seq<nat>)
    ensures |r| == n && forall i :: 0 <= i < n ==> r[i] == i + 1
  {
    seq(n, i requires 0 <= i < n => i + 1)
  }

  /** The meal numbers 1 to `n` cover the meals of a day with `n` meals. */
  lemma MealNumbersCover(n: nat)
    ensures Covers(MealNumbers(n), n)
  {
    forall m | 1 <= m <= n ensures m in MealNumbers(n) {
      assert MealNumbers(n)[m - 1] == m;
    }
  }

  /** The categories placed after the mains. */
  const Others: set<DishType> := {Bread, Side, Dessert, Drinks, Appetizer, Snack}

  /** The six passes, one after the other, cover the categories after the mains. */
  lemma OthersInOrder()
    ensures {} + {Bread} + {Side} + {Dessert} + {Drinks} + {Appetizer} + {Snack} == Others
  {
  }

  /** The passes over the categories `done` are finished on `cur`; the other columns are those of `day`. */
  predicate Passed(day: seq<(nat, Bucket)>, cur: seq<(nat, Bucket)>, pre: Bucket, mainMeals: seq<nat>, done: set<DishType>) {
    |cur| == |day| &&
    (forall u {:trigger Column(cur, u)} :: u in done ==> Filled(Column(day, u), Column(cur, u), pre.Get(u), ZoneOf(u), mainMeals)) &&
    forall u {:trigger Column(cur, u)} :: u !in done ==> Column(cur, u) == Column(day, u)
  }

  /** A pass over a new category `t` finishes that category and leaves the finished ones alone. */
  lemma PassedStep(day: seq<(nat, Bucket)>, cur: seq<(nat, Bucket)>, next: seq<(nat, Bucket)>, pre: Bucket, mainMeals: seq<nat>,
                   done: set<DishType>, t: DishType)
    requires Passed(day, cur, pre, mainMeals, done) && t !in done && Grows(cur, next, t)
    requires Filled(Column(cur, t), Column(next, t), pre.Get(t), ZoneOf(t), mainMeals)
    ensures Passed(day, next, pre, mainMeals, done + {t})
  {
    assert Column(cur, t) == Column(day, t);
    forall u | u in done ensures Filled(Column(day, u), Column(next, u), pre.Get(u), ZoneOf(u), mainMeals) {
      assert Column(next, u) == Column(cur, u);
    }
  }

  /** The pass over category `t`, on a day where the passes over `done` are finished. */
  method PassOn(rng: Rng, ghost day: Day, cur: Day, order: seq<nat>, pre: Bucket, mainMeals: seq<nat>, ghost done: set<DishType>,
               t: DishType)
    returns (next: Day, shuffled: seq<nat>)
    requires Contiguous(cur.meals) && Covers(order, |cur.meals|) && Passed(day.meals, cur.meals, pre, mainMeals, done) && t !in done
    modifies rng
    ensures Covers(shuffled, |next.meals|) && next.preDishes == cur.preDishes && Contiguous(next.meals)
    ensures Passed(day.meals, next.meals, pre, mainMeals, done + {t})
  {
    next, shuffled := PlacePass(rng, cur, order, pre.Get(t), t, mainMeals);
    PassedStep(day.meals, cur.meals, next.meals, pre, mainMeals, done, t);
  }

  /**
   * The six passes after the mains, in the order of the source: bread, side, dessert, drinks,
   * appetizer, snack. Each shuffles the meal order again and fills only its own category; the
   * mains stay as they were.
   */
  method PlaceOthers(rng: Rng, day: Day, pre: Bucket, mainMeals: seq<nat>) returns (r: Day)
    requires Contiguous(day.meals)
    modifies rng
    ensures r.preDishes == day.preDishes && Contiguous(r.meals) && |r.meals| == |day.meals|
    ensures Passed(day.meals, r.meals, pre, mainMeals, Others)
  {
    var order := MealNumbers(|day.meals|);
    MealNumbersCover(|day.meals|);
    ghost var done: set<DishType> := {};
    r := day;
    r, order := PassOn(rng, day, r, order, pre, mainMeals, done, Bread);
    done := done + {Bread};
    r, order := PassOn(rng, day, r, order, pre, mainMeals, done, Side);
    done := done + {Side};
    r, order := PassOn(rng, day, r, order, pre, mainMeals, done, Dessert);
    done := done + {Dessert};
    r, order := PassOn(rng, day, r, order, pre, mainMeals, done, Drinks);
    done := done + {Drinks};
    r, order := PassOn(rng, day, r, order, pre, mainMeals, done, Appetizer);
    done := done + {Appetizer};
    r, order := PassOn(rng, day, r, order, pre, mainMeals, done, Snack);
    done := done + {Snack};
    OthersInOrder();
  }

  /** The meals drawn for the mains, repeated `k` times, are meal numbers of the day. */
  lemma QueueBounds(n: nat, k: int, sel: seq<int>)
    requires 1 <= n && IsSelection(n, k, 1, sel)
    ensures forall i :: 0 <= i < |Repeat(sel, k)| ==> 1 <= Repeat(sel, k)[i] <= n
  {
    SelectionBounds(n, k, 1, sel);
    forall i | 0 <= i < |Repeat(sel, k)| ensures 1 <= Repeat(sel, k)[i] <= n {
      var x := Repeat(sel, k)[i];
      RepeatElems(sel, k, x);
      var j :| 0 <= j < |sel| && sel[j] == x;
    }
  }

  /** The drawn meals, repeated, are at most `k` different meals. */
  lemma QueueSpread(n: nat, k: int, sel: seq<int>)
    requires 1 <= n && IsSelection(n, k, 1, sel)
    ensures |Elems(Repeat(sel, k))| <= k
  {
    assert Elems(Repeat(sel, k)) <= Elems(sel) by {
      forall x | x in Elems(Repeat(sel, k)) ensures x in Elems(sel) {
        RepeatElems(sel, k, x);
      }
    }
    SubsetCard(Elems(Repeat(sel, k)), Elems(sel));
    SelectionSpread(n, k, 1, sel);
  }

  /** Every meal listed as holding mains is one of the queue's, so there are at most as many as the queue names. */
  lemma MainMealsBound(before: seq<seq<string>>, after: seq<seq<string>>, queue: seq<int>, mainMeals: seq<nat>)
    requires Queued(before, after, queue) && Marked(before, after, mainMeals)
    ensures |mainMeals| <= |Elems(queue)|
  {
    assert Elems(mainMeals) <= Elems(queue) by {
      forall x | x in Elems(mainMeals) ensures x in Elems(queue) {
        var p :| 0 <= p < |mainMeals| && mainMeals[p] == x;
      }
    }
    SubsetCard(Elems(mainMeals), Elems(queue));
    ElemsBound(mainMeals);
  }

  /** What the first `placed` mains of a shuffle hold is part of the staged mains. */
  lemma PlacedMains(mains: seq<string>, staged: seq<string>, placed: nat)
    requires multiset(mains) == multiset(staged) && placed <= |mains|
    ensures multiset(mains[..placed]) <= multiset(staged)
  {
    assert mains == mains[..placed] + mains[placed..];
  }

  /**
   * A balanced day: `mid` holds the day's meals after the seven passes, before the empty meals
   * are removed. The mains went to at most `k` meals listed in `mainMeals`, never past `cap`
   * per meal, and are some of the staged mains; every other category was filled by its pass.
   */
  predicate Balanced(before: seq<(nat, Bucket)>, mid: seq<(nat, Bucket)>, pre: Bucket, mainMeals: seq<nat>, k: int,
                     cap: Option<int>) {
    var b, a := Column(before, Main), Column(mid, Main);
    |mid| == |before| && Contiguous(mid) &&
    Capped(b, a, cap) && Marked(b, a, mainMeals) && |mainMeals| <= k &&
    Bag(b) <= Bag(a) && Bag(a) - Bag(b) <= multiset(pre.Get(Main)) &&
    forall u {:trigger Column(mid, u)} :: u in Others ==>
      Filled(Column(before, u), Column(mid, u), pre.Get(u), ZoneOf(u), mainMeals)
  }

  /** The passes after the mains start from the column each category had before the mains. */
  lemma OthersFromStart(before: seq<(nat, Bucket)>, withMains: seq<(nat, Bucket)>, mid: seq<(nat, Bucket)>, pre: Bucket,
                        mainMeals: seq<nat>)
    requires Grows(before, withMains, Main) && Passed(withMains, mid, pre, mainMeals, Others)
    ensures Column(mid, Main) == Column(withMains, Main)
    ensures forall u {:trigger Column(mid, u)} :: u in Others ==>
      Filled(Column(before, u), Column(mid, u), pre.Get(u), ZoneOf(u), mainMeals)
  {
    assert Main !in Others;
    forall u | u in Others ensures Filled(Column(before, u), Column(mid, u), pre.Get(u), ZoneOf(u), mainMeals) {
      OtherFromStart(before, withMains, mid, pre, mainMeals, u);
    }
  }

  /** The pass of one category `u` after the mains started from the column `u` had before the mains. */
  lemma OtherFromStart(before: seq<(nat, Bucket)>, withMains: seq<(nat, Bucket)>, mid: seq<(nat, Bucket)>, pre: Bucket,
                       mainMeals: seq<nat>, u: DishType)
    requires Grows(before, withMains, Main) && Passed(withMains, mid, pre, mainMeals, Others) && u in Others
    ensures Filled(Column(before, u), Column(mid, u), pre.Get(u), ZoneOf(u), mainMeals)
  {
    assert u != Main;
    assert Column(withMains, u) == Column(before, u);
    assert Filled(Column(withMains, u), Column(mid, u), pre.Get(u), ZoneOf(u), mainMeals);
  }

  /**
   * The mains seated along `queue`: only meals of the queue received mains, and unless every
   * staged main was seated, every meal the queue names received a main or holds `cap` of them.
   */
  predicate MainsSeated(before: seq<seq<string>>, after: seq<seq<string>>, staged: seq<string>, queue: seq<int>,
                        cap: Option<int>) {
    Queued(before, after, queue) &&
    (Bag(after) - Bag(before) == multiset(staged) || AllSpent(before, after, cap, queue))
  }

  /**
   * `lst_meals = select_values_from_n_freq(len_meals, k, sum_value=1)` followed by
   * `lst_meals *= k`: meal numbers of the day, at most `k` different ones, and none at all
   * exactly when `k` is 0. A negative `k` raises ValueError.
   */
  method DrawQueue(rng: Rng, n: nat, k: int) returns (queue: Result<seq<int>>, ghost sel: seq<int>)
    requires 1 <= n
    modifies rng
    ensures queue.Ok? <==> k >= 0
    ensures queue.Ok? ==> IsSelection(n, k, 1, sel) && queue.value == Repeat(sel, k)
    ensures queue.Err? ==> queue.error.ValueError?
    ensures queue.Ok? ==> (forall i :: 0 <= i < |queue.value| ==> 1 <= queue.value[i] <= n) && |Elems(queue.value)| <= k
    ensures queue.Ok? ==> (queue.value == [] <==> k == 0)
  {
    var drawn := SelectValuesFromNFreq(rng, n, k, 1);
    sel := [];
    if drawn.Err? {
      return Err(drawn.error), sel;
    }
    sel := drawn.value;
    QueueBounds(n, k, sel);
    QueueSpread(n, k, sel);
    SelectionLength(n, k, 1, sel);
    RepeatLength(sel, k);
    queue := Ok(Repeat(drawn.value, k));
  }

  /**
   * The mains seated along `queue`, then the six other passes, on a day whose staged dishes
   * are `pre` and whose mains were shuffled into `mains`.
   */
  method SeatAndPlace(rng: Rng, day: Day, pre: Bucket, mains: seq<string>, queue: seq<int>, cap: Option<int>, ghost k: int)
    returns (r: Result<Day>, mainMeals: seq<nat>)
    requires Contiguous(day.meals) && multiset(mains) == multiset(pre.Get(Main))
    requires (forall i :: 0 <= i < |queue| ==> 1 <= queue[i] <= |day.meals|) && |Elems(queue)| <= k
    modifies rng
    ensures r.Err? <==> cap.None? && mains != [] && queue != []
    ensures r.Err? ==> r.error.TypeError?
    ensures r.Ok? ==> r.value.preDishes == day.preDishes && Balanced(day.meals, r.value.meals, pre, mainMeals, k, cap)
    ensures r.Ok? ==> MainsSeated(Column(day.meals, Main), Column(r.value.meals, Main), pre.Get(Main), queue, cap)
  {
    ghost var placed;
    var seated;
    seated, mainMeals, placed := PlaceMains(day, mains, queue, cap);
    if seated.Err? {
      return seated, mainMeals;
    }
    var withMains := seated.value;
    MainMealsBound(Column(day.meals, Main), Column(withMains.meals, Main), queue, mainMeals);
    PlacedMains(mains, pre.Get(Main), placed);
    var balanced := PlaceOthers(rng, withMains, pre, mainMeals);
    OthersFromStart(day.meals, withMains.meals, balanced.meals, pre, mainMeals);
    if placed == |mains| {
      assert mains[..placed] == mains;
    }
    r := Ok(balanced);
  }

  /** `del pre_dishes`, then `remove_empty_meals()`. */
  method Finish(day: Day) returns (r: Day)
    requires Contiguous(day.meals)
    ensures r == Day(Compact(day.meals), None)
  {
    ContiguousKeys(day.meals);
    r := RemoveEmptyMeals(Day(day.meals, None));
  }

  /** The exception `balance_subject_diet` raises for a day, in the order the source meets them. */
  predicate DayFault(day: Day, k: Option<int>, e: Error) {
    if day.preDishes.None? then e.AttributeError?
    else if k.None? then e.TypeError?
    else if |day.meals| == 0 && k.value >= 0 then e.ZeroDivisionError?
    else if k.value < 0 then e.ValueError?
    else e.TypeError?
  }

  /** The day fails: no staged dishes, no usable `k`, no meals, or mains to seat with no cap. */
  predicate DayFails(day: Day, k: Option<int>, cap: Option<int>) {
    day.preDishes.None? || k.None? || k.value < 0 || |day.meals| == 0 ||
    (cap.None? && k.value > 0 && day.preDishes.value.Get(Main) != [])
  }

  /**
   * The body of the day loop of `balance_subject_diet` with `k` meals with mains and `cap`
   * mains per meal: shuffle the mains, draw `k` meals with `select_values_from_n_freq(n, k, 1)`,
   * repeat the list `k` times and seat the mains along it; then the six other passes; then
   * `del pre_dishes` and `remove_empty_meals`.
   */
  method BalanceDay(rng: Rng, day: Day, k: Option<int>, cap: Option<int>)
    returns (r: Result<Day>, ghost mid: seq<(nat, Bucket)>, mainMeals: seq<nat>, ghost sel: seq<int>)
    requires Contiguous(day.meals)
    modifies rng
    ensures r.Err? <==> DayFails(day, k, cap)
    ensures r.Err? ==> DayFault(day, k, r.error)
    ensures r.Err? || (r.value == Day(Compact(mid), None) && Balanced(day.meals, mid, day.preDishes.value, mainMeals, k.value, cap))
    ensures r.Err? || MainsDrawn(day.meals, mid, day.preDishes.value, k.value, cap, sel)
  {
    mid, mainMeals, sel := day.meals, [], [];
    if day.preDishes.None? {
      return Err(AttributeError("pre_dishes")), mid, mainMeals, sel;
    }
    var pre := day.preDishes.value;
    var mains := rng.Shuffle(pre.Get(Main));
    if k.None? {
      return Err(TypeError("'>=' not supported between instances of 'NoneType' and 'int'")), mid, mainMeals, sel;
    }
    var n := |day.meals|;
    if n == 0 {
      if k.value >= 0 {
        return Err(ZeroDivisionError), mid, mainMeals, sel;
      }
      return Err(ValueError("Sample larger than population or is negative")), mid, mainMeals, sel;
    }
    var queue;
    queue, sel := DrawQueue(rng, n, k.value);
    if queue.Err? {
      return Err(queue.error), mid, mainMeals, sel;
    }
    var balanced;
    balanced, mainMeals := SeatAndPlace(rng, day, pre, mains, queue.value, cap, k.value);
    if balanced.Err? {
      return balanced, mid, mainMeals, sel;
    }
    mid := balanced.value.meals;
    var final := Finish(balanced.value);
    r := Ok(final);
  }

  /** The first day of `days` from position `from` on that makes `BalanceDay` raise for limits `k` and `cap`. */
  function FirstFailing(days: seq<Day>, k: Option<int>, cap: Option<int>, from: nat): (r: Option<nat>)
    decreases |days| - from
    ensures r.Some? ==> from <= r.value < |days| && DayFails(days[r.value], k, cap)
  {
    if from >= |days| then None
    else if DayFails(days[from], k, cap) then Some(from)
    else FirstFailing(days, k, cap, from + 1)
  }

  /** `FirstFailing` finds nothing exactly when no day fails, and otherwise no earlier day fails. */
  lemma {:induction false} FirstFailingMeans(days: seq<Day>, k: Option<int>, cap: Option<int>, from: nat)
    decreases |days| - from
    ensures FirstFailing(days, k, cap, from).None? <==> forall d :: from <= d < |days| ==> !DayFails(days[d], k, cap)
    ensures FirstFailing(days, k, cap, from).Some? ==>
      forall d :: from <= d < FirstFailing(days, k, cap, from).value ==> !DayFails(days[d], k, cap)
  {
    if from < |days| && !DayFails(days[from], k, cap) {
      FirstFailingMeans(days, k, cap, from + 1);
    }
  }

  /** The first day of `days` that raises does so with exception `e`. */
  predicate FirstFault(days: seq<Day>, k: Option<int>, cap: Option<int>, e: Error) {
    var f := FirstFailing(days, k, cap, 0);
    f.Some? && DayFault(days[f.value], k, e)
  }

  /** The outcomes of balancing one day: its meals before the empty ones are removed, and the meals given a main dish. */
  datatype DayPlan = DayPlan(mid: seq<(nat, Bucket)>, mainMeals: seq<nat>, sel: seq<int>)

  /** Day `after` is day `before` balanced with outcomes `plan`. */
  predicate BalancedDay(k: Option<int>, cap: Option<int>, before: Day, after: Day, plan: DayPlan) {
    before.preDishes.Some? && k.Some? && after == Day(Compact(plan.mid), None) &&
    Balanced(before.meals, plan.mid, before.preDishes.value, plan.mainMeals, k.value, cap) &&
    MainsDrawn(before.meals, plan.mid, before.preDishes.value, k.value, cap, plan.sel)
  }

  /**
   * The mains of `pre` were seated along the queue made of the meals `sel` drawn, each
   * repeated `k` times.
   */
  predicate MainsDrawn(before: seq<(nat, Bucket)>, mid: seq<(nat, Bucket)>, pre: Bucket, k: int, cap: Option<int>, sel: seq<int>) {
    1 <= |before| && IsSelection(|before|, k, 1, sel) &&
    MainsSeated(Column(before, Main), Column(mid, Main), pre.Get(Main), Repeat(sel, k), cap)
  }

  /** `BalancedDay` as a relation, for `Pointwise`. */
  function DayBalanced(k: Option<int>, cap: Option<int>): (Day, Day, DayPlan) -> bool {
    (before: Day, after: Day, plan: DayPlan) => BalancedDay(k, cap, before, after, plan)
  }

  /** A week the balancer can walk: one day per day of the week, each with meals "meal_1" to "meal_n". */
  predicate Ready(w: Week) {
    |w.days| == (if w.daysWeek > 0 then w.daysWeek else 0) &&
    forall d :: 0 <= d < |w.days| ==> Contiguous(w.days[d].meals)
  }

  /** Week `after` is week `before` with every day balanced, day `d` with outcomes `plans[d]`. */
  predicate BalancedWeek(k: Option<int>, cap: Option<int>, before: Week, after: Week, plans: seq<DayPlan>) {
    after.dietType == before.dietType && after.daysWeek == before.daysWeek &&
    |after.days| == |before.days| && Pointwise(DayBalanced(k, cap), before.days, after.days, plans)
  }

  /** `BalancedWeek` as a relation, for `Pointwise`. */
  function WeekBalanced(k: Option<int>, cap: Option<int>): (Week, Week, seq<DayPlan>) -> bool {
    (before: Week, after: Week, plans: seq<DayPlan>) => BalancedWeek(k, cap, before, after, plans)
  }

  /** `BalanceDay` on the day after a balanced run of days, extending the run. */
  method BalanceNext(rng: Rng, day: Day, k: Option<int>, cap: Option<int>,
                     ghost before: seq<Day>, ghost done: seq<Day>, ghost plans: seq<DayPlan>)
    returns (r: Result<Day>, ghost plan: DayPlan)
    requires Pointwise(DayBalanced(k, cap), before, done, plans) && |done| < |before| && before[|done|] == day
    requires Contiguous(day.meals)
    modifies rng
    ensures r.Err? <==> DayFails(day, k, cap)
    ensures r.Err? ==> DayFault(day, k, r.error)
    ensures r.Ok? ==> Pointwise(DayBalanced(k, cap), before, done + [r.value], plans + [plan])
  {
    ghost var mid, sel;
    var mainMeals;
    r, mid, mainMeals, sel := BalanceDay(rng, day, k, cap);
    plan := DayPlan(mid, mainMeals, sel);
    if r.Ok? {
      assert BalancedDay(k, cap, day, r.value, plan);
      PointwiseSnoc(DayBalanced(k, cap), before, done, plans, r.value, plan);
    }
  }

  /** The inner loop of `balance_subject_diet`: days "day_1" to "day_<days_week>" of one week, in turn. */
  method BalanceWeek(rng: Rng, w: Week, k: Option<int>, cap: Option<int>) returns (r: Result<Week>, ghost plans: seq<DayPlan>)
    requires Ready(w)
    modifies rng
    ensures r.Ok? <==> FirstFailing(w.days, k, cap, 0).None?
    ensures r.Err? ==> FirstFault(w.days, k, cap, r.error)
    ensures r.Ok? ==> BalancedWeek(k, cap, w, r.value, plans)
  {
    var days: seq<Day> := [];
    plans := [];
    var d := 0;
    while d < |w.days|
      invariant 0 <= d <= |w.days| && |days| == d
      invariant FirstFailing(w.days, k, cap, 0) == FirstFailing(w.days, k, cap, d)
      invariant Pointwise(DayBalanced(k, cap), w.days, days, plans)
    {
      var day, plan := BalanceNext(rng, w.days[d], k, cap, w.days, days, plans);
      if day.Err? {
        return Err(day.error), plans;
      }
      days, plans := days + [day.value], plans + [plan];
      d := d + 1;
    }
    assert w.days[..d] == w.days;
    r := Ok(Week(w.dietType, w.daysWeek, days));
  }

  /** `BalanceWeek` on the week after a balanced run of weeks, extending the run. */
  method WeekNext(rng: Rng, w: Week, k: Option<int>, cap: Option<int>,
                  ghost before: seq<Week>, ghost done: seq<Week>, ghost plans: seq<seq<DayPlan>>)
    returns (r: Result<Week>, ghost plan: seq<DayPlan>)
    requires Pointwise(WeekBalanced(k, cap), before, done, plans) && |done| < |before| && before[|done|] == w
    requires Ready(w)
    modifies rng
    ensures r.Ok? <==> FirstFailing(w.days, k, cap, 0).None?
    ensures r.Err? ==> FirstFault(w.days, k, cap, r.error)
    ensures r.Ok? ==> FirstFailingWeek(before, k, cap, |done|) == FirstFailingWeek(before, k, cap, |done| + 1)
    ensures r.Err? ==> FirstFailingWeek(before, k, cap, |done|) == Some(|done|)
    ensures r.Ok? ==> Pointwise(WeekBalanced(k, cap), before, done + [r.value], plans + [plan])
  {
    r, plan := BalanceWeek(rng, w, k, cap);
    if r.Ok? {
      PointwiseSnoc(WeekBalanced(k, cap), before, done, plans, r.value, plan);
    }
  }

  /** The configuration key of the number of meals that may get a main dish. */
  const MealsKey := "max_meals_with_main_dishes"

  /** The configuration key of the number of main dishes a meal may hold. */
  const MainsKey := "max_main_dishes_per_meal"

  /** `select_random_number(v)` raises: `v` is a two-element list with its bounds inverted. */
  predicate Inverted(v: ConfValue) {
    v.Numbers? && |v.items| == 2 && v.items[0] > v.items[1]
  }

  /** `x` is a value `select_random_number(v)` can return. */
  predicate LimitOf(v: ConfValue, x: Option<int>) {
    if v.Numbers? && |v.items| == 2 then x.Some? && v.items[0] <= x.value <= v.items[1] else x.None?
  }

  /** Both limits can be drawn from the configuration. */
  predicate LimitsDefined(conf: map<string, ConfValue>) {
    MealsKey in conf && MainsKey in conf && !Inverted(conf[MealsKey]) && !Inverted(conf[MainsKey])
  }

  /** The exception the two draws raise, in the order the source makes them. */
  predicate LimitsFault(conf: map<string, ConfValue>, e: Error) {
    if MealsKey !in conf then e == KeyError(MealsKey)
    else if Inverted(conf[MealsKey]) then e.ValueError?
    else if MainsKey !in conf then e == KeyError(MainsKey)
    else e.ValueError?
  }

  /** One limit, drawn with `select_random_number(profile_conf[key])`. */
  method DrawLimit(rng: Rng, conf: map<string, ConfValue>, key: string) returns (r: Result<Option<int>>)
    modifies rng
    ensures r.Ok? <==> key in conf && !Inverted(conf[key])
    ensures r.Err? ==> if key !in conf then r.error == KeyError(key) else r.error.ValueError?
    ensures r.Ok? ==> LimitOf(conf[key], r.value)
  {
    if key !in conf {
      return Err(KeyError(key));
    }
    r := SelectRandomNumber(rng, conf[key]);
  }

  /** The first week of `diets` from position `from` on with a day that makes `BalanceDay` raise. */
  function FirstFailingWeek(diets: seq<Week>, k: Option<int>, cap: Option<int>, from: nat): (r: Option<nat>)
    decreases |diets| - from
    ensures r.Some? ==> from <= r.value < |diets| && FirstFailing(diets[r.value].days, k, cap, 0).Some?
  {
    if from >= |diets| then None
    else if FirstFailing(diets[from].days, k, cap, 0).Some? then Some(from)
    else FirstFailingWeek(diets, k, cap, from + 1)
  }

  /** `FirstFailingWeek` finds nothing exactly when no day of any week fails. */
  lemma {:induction false} FirstFailingWeekMeans(diets: seq<Week>, k: Option<int>, cap: Option<int>, from: nat)
    decreases |diets| - from
    ensures FirstFailingWeek(diets, k, cap, from).None? <==>
      forall w, d :: from <= w < |diets| && 0 <= d < |diets[w].days| ==> !DayFails(diets[w].days[d], k, cap)
  {
    if from < |diets| {
      FirstFailingMeans(diets[from].days, k, cap, 0);
      FirstFailingWeekMeans(diets, k, cap, from + 1);
    }
  }

  /** The first failing week of `diets` raises `e` at its first failing day. */
  predicate WeeksFault(diets: seq<Week>, k: Option<int>, cap: Option<int>, e: Error) {
    var f := FirstFailingWeek(diets, k, cap, 0);
    f.Some? && FirstFault(diets[f.value].days, k, cap, e)
  }

  /**
   * The outer loop of `balance_subject_diet` with limits `k` and `cap`: weeks "week_1" to
   * "week_<weeks>" balanced in turn. An exception stops the loop.
   */
  method BalanceWeeks(rng: Rng, s: Subject, k: Option<int>, cap: Option<int>) returns (r: Result<()>, ghost plans: seq<seq<DayPlan>>)
    requires forall w :: 0 <= w < |s.diets| ==> Ready(s.diets[w])
    modifies rng, s
    ensures s.id == old(s.id) && s.region == old(s.region) && s.profileConf == old(s.profileConf)
    ensures s.weeks == old(s.weeks) && |s.diets| == |old(s.diets)|
    ensures r.Ok? <==> FirstFailingWeek(old(s.diets), k, cap, 0).None?
    ensures r.Err? ==> WeeksFault(old(s.diets), k, cap, r.error)
    ensures r.Ok? ==> Pointwise(WeekBalanced(k, cap), old(s.diets), s.diets, plans)
  {
    var diets := s.diets;
    var done;
    r, done, plans := BalanceEach(rng, diets, k, cap);
    // the weeks balanced before an exception stay updated in place
    s.diets := done + diets[|done|..];
    if r.Ok? {
      assert diets[|done|..] == [];
      assert s.diets == done;
    }
  }

  /** The loop of `BalanceWeeks` over the weeks' values: `done` is the prefix balanced so far. */
  method BalanceEach(rng: Rng, diets: seq<Week>, k: Option<int>, cap: Option<int>)
    returns (r: Result<()>, done: seq<Week>, ghost plans: seq<seq<DayPlan>>)
    requires forall w :: 0 <= w < |diets| ==> Ready(diets[w])
    modifies rng
    ensures |done| <= |diets| && (r.Ok? ==> |done| == |diets|)
    ensures r.Ok? <==> FirstFailingWeek(diets, k, cap, 0).None?
    ensures r.Err? ==> WeeksFault(diets, k, cap, r.error)
    ensures r.Ok? ==> Pointwise(WeekBalanced(k, cap), diets, done, plans)
  {
    plans, done := [], [];
    var w := 0;
    while w < |diets|
      invariant 0 <= w <= |diets| && |done| == w
      invariant FirstFailingWeek(diets, k, cap, 0) == FirstFailingWeek(diets, k, cap, w)
      invariant Pointwise(WeekBalanced(k, cap), diets, done, plans)
    {
      var week, plan := WeekNext(rng, diets[w], k, cap, diets, done, plans);
      if week.Err? {
        return Err(week.error), done, plans + [plan];
      }
      done, plans := done + [week.value], plans + [plan];
      w := w + 1;
    }
    r := Ok(());
  }

  /**
   * `balance_subject_diet(subject_diet, profile_conf)`: the two limits are drawn once, then
   * the weeks are balanced in turn.
   */
  method BalanceSubjectDiet(rng: Rng, s: Subject, conf: ProfileConf)
    returns (r: Result<()>, k: Option<int>, cap: Option<int>, ghost plans: seq<seq<DayPlan>>)
    requires |s.diets| == (if s.weeks > 0 then s.weeks else 0)
    requires forall w :: 0 <= w < |s.diets| ==> Ready(s.diets[w])
    modifies rng, s
    ensures s.id == old(s.id) && s.region == old(s.region) && s.profileConf == old(s.profileConf)
    ensures s.weeks == old(s.weeks) && |s.diets| == |old(s.diets)|
    ensures !LimitsDefined(conf.entries) ==> r.Err? && LimitsFault(conf.entries, r.error) && s.diets == old(s.diets)
    ensures LimitsDefined(conf.entries) ==> LimitOf(conf.entries[MealsKey], k) && LimitOf(conf.entries[MainsKey], cap)
    ensures LimitsDefined(conf.entries) ==> (r.Ok? <==> FirstFailingWeek(old(s.diets), k, cap, 0).None?)
    ensures LimitsDefined(conf.entries) && r.Err? ==> WeeksFault(old(s.diets), k, cap, r.error)
    ensures r.Ok? ==> Pointwise(WeekBalanced(k, cap), old(s.diets), s.diets, plans)
  {
    plans := [];
    k, cap := None, None;
    var meals := DrawLimit(rng, conf.entries, MealsKey);
    if meals.Err? {
      return Err(meals.error), k, cap, plans;
    }
    var mains := DrawLimit(rng, conf.entries, MainsKey);
    if mains.Err? {
      return Err(mains.error), k, cap, plans;
    }
    k, cap := meals.value, mains.value;
    r, plans := BalanceWeeks(rng, s, k, cap);
  }
}
