/**
 * What `balance_subject_diet` (AI4FoodNutritionFW.py) leaves in a day, stated on the meals
 * before the passes, the meals after them (`mid`) and the day after `remove_empty_meals`:
 * the main/no-main rule, the number of dishes each pass places, where the dishes come from,
 * and that compaction loses no dish.
 */
module Outcomes {
  import opened Wrappers
  import opened Seqs
  import opened Dishes
  import opened Days
  import opened Balancer
  import opened Selection

  /** The lists of category `t` of a sequence of buckets. */
  function Lists(bs: seq<Bucket>, t: DishType): (r: seq<seq<string>>)
    ensures |r| == |bs| && forall i :: 0 <= i < |bs| ==> r[i] == bs[i].Get(t)
  {
    seq(|bs|, i requires 0 <= i < |bs| => bs[i].Get(t))
  }

  /** Lists that are all empty hold nothing together. */
  lemma {:induction false} BagOfEmpty(lists: seq<seq<string>>)
    requires forall i :: 0 <= i < |lists| ==> lists[i] == []
    ensures Bag(lists) == multiset{}
  {
    if lists != [] {
      BagOfEmpty(lists[..|lists| - 1]);
    }
  }

  /** A prefix holds part of what the whole sequence holds. */
  lemma PrefixBag(items: seq<string>, m: nat)
    requires m <= |items|
    ensures multiset(items[..m]) <= multiset(items)
  {
    assert items == items[..m] + items[m..];
  }

  /** The dishes of a column are those of all meals but the last, then those of the last. */
  lemma ColumnBagLast(meals: seq<(nat, Bucket)>, t: DishType)
    requires meals != []
    ensures var n := |meals| - 1;
      Bag(Column(meals, t)) == Bag(Column(meals[..n], t)) + multiset(meals[n].1.Get(t))
  {
    var n := |meals| - 1;
    assert Column(meals, t)[..n] == Column(meals[..n], t);
  }

  /** The dishes of the lists of some buckets and one more bucket. */
  lemma ListsBagLast(bs: seq<Bucket>, b: Bucket, t: DishType)
    ensures Bag(Lists(bs + [b], t)) == Bag(Lists(bs, t)) + multiset(b.Get(t))
  {
    assert Lists(bs + [b], t)[..|bs|] == Lists(bs, t);
  }

  /** The buckets that compaction keeps hold every dish of the meals: the dropped meals held none. */
  lemma {:induction false} KeptBag(meals: seq<(nat, Bucket)>, t: DishType)
    ensures Bag(Lists(Kept(meals, NonEmpty), t)) == Bag(Column(meals, t))
  {
    if meals != [] {
      var n := |meals| - 1;
      KeptBag(meals[..n], t);
      ColumnBagLast(meals, t);
      var ks := Kept(meals[..n], NonEmpty);
      if NonEmpty(meals[n].1) {
        assert Kept(meals, NonEmpty) == ks + [meals[n].1];
        ListsBagLast(ks, meals[n].1, t);
      } else {
        assert Kept(meals, NonEmpty) == ks;
        CountZero(meals[n].1);
        assert meals[n].1.Get(t) == [];
      }
    }
  }

  /** `remove_empty_meals` keeps every dish: each category holds the same dishes as before. */
  lemma CompactBag(meals: seq<(nat, Bucket)>, t: DishType)
    ensures Bag(Column(Compact(meals), t)) == Bag(Column(meals, t))
  {
    CompactMeaning(meals);
    assert Column(Compact(meals), t) == Lists(Kept(meals, NonEmpty), t);
    KeptBag(meals, t);
  }

  /** `mainMeals` lists exactly the meals whose mains changed. */
  lemma MainMealsMeaning(before: seq<(nat, Bucket)>, mid: seq<(nat, Bucket)>, pre: Bucket, mainMeals: seq<nat>, k: int,
                         cap: Option<int>, i: nat)
    requires Balanced(before, mid, pre, mainMeals, k, cap) && i < |before|
    ensures i + 1 in mainMeals <==> Column(mid, Main)[i] != Column(before, Main)[i]
  {
    var b, a := Column(before, Main), Column(mid, Main);
    assert Marked(b, a, mainMeals);
    if i + 1 in mainMeals {
      var j :| 0 <= j < |mainMeals| && mainMeals[j] == i + 1;
      assert a[mainMeals[j] - 1] != b[mainMeals[j] - 1];
    }
  }

  /** The pass of category `u` changed only meals of its zone. */
  lemma InItsZone(before: seq<(nat, Bucket)>, mid: seq<(nat, Bucket)>, pre: Bucket, mainMeals: seq<nat>, k: int,
                  cap: Option<int>, u: DishType, i: nat)
    requires Balanced(before, mid, pre, mainMeals, k, cap) && u in Others && i < |before|
    ensures Column(mid, u)[i] != Column(before, u)[i] ==> InZone(ZoneOf(u), mainMeals, i + 1)
  {
    assert OnePerMeal(Column(before, u), Column(mid, u), ZoneOf(u), mainMeals);
  }

  /**
   * The main/no-main rule: a meal that received bread or a side (the categories served with
   * a main) also received a main, and a meal that received an appetizer or a snack (served
   * without one) received none.
   */
  lemma MainRule(before: seq<(nat, Bucket)>, mid: seq<(nat, Bucket)>, pre: Bucket, mainMeals: seq<nat>, k: int,
                 cap: Option<int>, u: DishType, i: nat)
    requires Balanced(before, mid, pre, mainMeals, k, cap) && u in Others && i < |before|
    ensures Column(mid, u)[i] != Column(before, u)[i] && ZoneOf(u) == WithMain ==>
      Column(mid, Main)[i] != Column(before, Main)[i]
    ensures Column(mid, u)[i] != Column(before, u)[i] && ZoneOf(u) == WithoutMain ==>
      Column(mid, Main)[i] == Column(before, Main)[i]
  {
    MainMealsMeaning(before, mid, pre, mainMeals, k, cap, i);
    InItsZone(before, mid, pre, mainMeals, k, cap, u, i);
  }

  /** At most `k` meals and at most every meal receive a main. */
  lemma MainMealCount(before: seq<(nat, Bucket)>, mid: seq<(nat, Bucket)>, pre: Bucket, mainMeals: seq<nat>, k: int,
                      cap: Option<int>)
    requires Balanced(before, mid, pre, mainMeals, k, cap)
    ensures |mainMeals| <= k && |mainMeals| <= |before|
  {
    ElemsBound(mainMeals);
    var meals: set<int> := Elems(mainMeals);
    IntervalCard(meals, 1, |before| + 1);
  }

  /**
   * Every dish a day's meals gained comes from its staging bucket, in the same category:
   * each category only gains, and what it gains is part of the staged list of that category.
   */
  lemma FromStaging(before: seq<(nat, Bucket)>, mid: seq<(nat, Bucket)>, pre: Bucket, mainMeals: seq<nat>, k: int,
                    cap: Option<int>, t: DishType)
    requires Balanced(before, mid, pre, mainMeals, k, cap)
    ensures Bag(Column(before, t)) <= Bag(Column(mid, t))
    ensures Bag(Column(mid, t)) - Bag(Column(before, t)) <= multiset(pre.Get(t))
  {
    if t != Main {
      assert t in Others;
      var col := Column(before, t);
      PrefixBag(pre.Get(t), Min(|pre.Get(t)|, |Free(col, ZoneOf(t), mainMeals)|));
    }
  }

  /**
   * On meals that held no dish of category `u`, its pass places `min(staged, meals it may
   * serve)` dishes: every meal for desserts and drinks, the meals with a main for bread and
   * sides, the others for appetizers and snacks.
   */
  lemma PassCount(before: seq<(nat, Bucket)>, mid: seq<(nat, Bucket)>, pre: Bucket, mainMeals: seq<nat>, k: int,
                  cap: Option<int>, u: DishType)
    requires Balanced(before, mid, pre, mainMeals, k, cap) && u in Others
    requires forall i :: 0 <= i < |before| ==> before[i].1.Get(u) == []
    ensures |Bag(Column(mid, u))| == Min(|pre.Get(u)|, match ZoneOf(u)
      case Anywhere => |before|
      case WithMain => |mainMeals|
      case WithoutMain => |before| - |mainMeals|)
  {
    var col := Column(before, u);
    assert Filled(col, Column(mid, u), pre.Get(u), ZoneOf(u), mainMeals);
    BagOfEmpty(col);
    FreeCount(col, ZoneOf(u), mainMeals);
  }

  /**
   * A balanced day: staging deleted, meals "meal_1" to "meal_K" with K at most the former
   * number, none empty, and each category holding its former dishes plus staged ones.
   */
  lemma DayOutcome(k: Option<int>, cap: Option<int>, before: Day, after: Day, plan: DayPlan, t: DishType)
    requires BalancedDay(k, cap, before, after, plan)
    ensures after.preDishes.None? && |after.meals| <= |before.meals|
    ensures Contiguous(after.meals) && forall i :: 0 <= i < |after.meals| ==> after.meals[i].1.Count() > 0
    ensures Bag(Column(before.meals, t)) <= Bag(Column(after.meals, t))
    ensures Bag(Column(after.meals, t)) - Bag(Column(before.meals, t)) <= multiset(before.preDishes.value.Get(t))
  {
    CompactMeaning(plan.mid);
    CompactBag(plan.mid, t);
    FromStaging(before.meals, plan.mid, before.preDishes.value, plan.mainMeals, k.value, cap, t);
  }

  /**
   * Mains are dropped only when there was no room for them: unless the day's meals hold every
   * staged main, each meal the draw picked received a main or holds `max_main_dishes_per_meal`
   * of them, and when `max_meals_with_main_dishes` is at least the number of meals, that holds
   * for every meal of the day.
   */
  lemma MainsDropped(k: Option<int>, cap: Option<int>, before: Day, after: Day, plan: DayPlan, n: int)
    requires BalancedDay(k, cap, before, after, plan)
    requires Bag(Column(after.meals, Main)) - Bag(Column(before.meals, Main)) != multiset(before.preDishes.value.Get(Main))
    ensures n in plan.sel && k.value > 0 ==> Spent(Column(before.meals, Main), Column(plan.mid, Main), cap, n)
    ensures k.value >= |before.meals| && 1 <= n <= |before.meals| ==>
      Spent(Column(before.meals, Main), Column(plan.mid, Main), cap, n)
  {
    CompactBag(plan.mid, Main);
    assert MainsDrawn(before.meals, plan.mid, before.preDishes.value, k.value, cap, plan.sel);
    SpentWhereDrawn(Column(before.meals, Main), Column(plan.mid, Main), before.preDishes.value.Get(Main),
                    |before.meals|, k.value, cap, plan.sel, n);
  }

  /** `MainsDropped` on the columns of mains: a meal drawn, or any meal when every meal is drawn, is spent. */
  lemma SpentWhereDrawn(before: seq<seq<string>>, after: seq<seq<string>>, staged: seq<string>, num: int, k: int,
                        cap: Option<int>, sel: seq<int>, n: int)
    requires 1 <= num && IsSelection(num, k, 1, sel) && MainsSeated(before, after, staged, Repeat(sel, k), cap)
    requires Bag(after) - Bag(before) != multiset(staged)
    ensures n in sel && k > 0 ==> Spent(before, after, cap, n)
    ensures k >= num && 1 <= n <= num ==> Spent(before, after, cap, n)
  {
    var queue := Repeat(sel, k);
    assert AllSpent(before, after, cap, queue);
    if k >= num && 1 <= n <= num {
      EveryMealDrawn(num, k, sel, n);
    }
    if n in sel && k > 0 {
      RepeatElems(sel, k, n);
      var j :| 0 <= j < |queue| && queue[j] == n;
      assert Spent(before, after, cap, queue[j]);
    }
  }

  /** When at least as many meals are asked for as there are, the draw names every meal. */
  lemma EveryMealDrawn(num: int, k: int, sel: seq<int>, n: int)
    requires 1 <= num <= k && IsSelection(num, k, 1, sel) && 1 <= n <= num
    ensures n in sel
  {
    SelectionCounts(num, k, 1, sel, n);
    QuotientPositive(k, num);
    assert n in multiset(sel);
  }

  lemma QuotientPositive(a: int, b: int)
    requires 1 <= b <= a
    ensures a / b >= 1
  {
    assert a / b * b + a % b == a;
  }
}
