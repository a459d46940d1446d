/**
 * The `Meal` object of src/AI4FoodNutritionFW_classes.py, which holds one day: its meals
 * in an ordered dictionary keyed "meal_1", "meal_2", ... and the staging bucket
 * `pre_dishes` that the allocator fills and the balancer empties.
 *
 * A meal key is always `meal_in2_str(n)` for a positive `n`, so a slot stores the number
 * `n`; `LocateComplete` shows that looking a key string up by its number finds exactly
 * the slot whose key is that string.
 */
module Days {
  import opened Wrappers
  import opened Keys
  import opened Dicts
  import opened Dishes

  /** One day: its meal slots (meal number, dishes) in dictionary order, and `pre_dishes` (None once deleted). */
  datatype Day = Day(meals: seq<(nat, Bucket)>, preDishes: Option<Bucket>)

  /** The meal numbers start at 1 or above and strictly increase. */
  predicate WellNumbered<V>(meals: seq<(nat, V)>) {
    (forall i :: 0 <= i < |meals| ==> meals[i].0 >= 1) &&
    (forall i, j :: 0 <= i < j < |meals| ==> meals[i].0 < meals[j].0)
  }

  /** In a well-numbered day the `i`-th meal's number is at least `i + 1`. */
  lemma {:induction false} WellNumberedBound<V>(meals: seq<(nat, V)>, i: nat)
    requires WellNumbered(meals) && i < |meals|
    ensures meals[i].0 >= i + 1
  {
    if i > 0 {
      WellNumberedBound(meals, i - 1);
    }
  }

  /** `Meal(num_meals)`: empty meals "meal_1" to "meal_n" and an empty staging bucket. */
  method NewMeal(numMeals: int) returns (d: Day)
    ensures |d.meals| == if numMeals > 0 then numMeals else 0
    ensures forall i :: 0 <= i < |d.meals| ==> d.meals[i] == (i + 1, EmptyBucket)
    ensures d.preDishes == Some(EmptyBucket)
    ensures WellNumbered(d.meals) && DistinctKeys(d.meals)
  {
    var meals: seq<(nat, Bucket)> := [];
    var current := 1;
    while current <= numMeals
      invariant 1 <= current && (numMeals >= 1 ==> current <= numMeals + 1) && (numMeals < 1 ==> current == 1)
      invariant |meals| == current - 1
      invariant forall i :: 0 <= i < |meals| ==> meals[i] == (i + 1, EmptyBucket)
    {
      assert Find(meals, current).None?;
      meals := Assign(meals, current, EmptyBucket);
      current := current + 1;
    }
    d := Day(meals, Some(EmptyBucket));
  }

  /** How a caller names a meal: a key string or a meal number. */
  datatype MealRef = Key(text: string) | Number(n: int)

  /** The text contains "meal". */
  predicate HasMeal(s: string)
    decreases |s|
  {
    |s| >= 4 && (s[..4] == "meal" || HasMeal(s[1..]))
  }

  /** `str(n)` for an integer. */
  function IntText(n: int): string {
    if n >= 0 then NatToString(n) else "-" + NatToString(-n)
  }

  /** The key a reference stands for: a text containing "meal" as is, anything else through `meal_in2_str`. */
  function RefKey(ref: MealRef): string {
    match ref
    case Key(s) => if HasMeal(s) then s else "meal_" + ZFill(s, 1)
    case Number(n) => "meal_" + ZFill(IntText(n), 1)
  }

  /** A meal number names the key `meal_in2_str` builds for it. */
  lemma RefKeyNumber(n: nat)
    ensures RefKey(Number(n)) == MealInStr(n)
  {
  }

  /** The position of the meal whose key is `key`. */
  function Locate(meals: seq<(nat, Bucket)>, key: string): (r: Option<nat>)
    ensures r.Some? ==> r.value < |meals| && MealInStr(meals[r.value].0) == key
  {
    match KeyNumber(key)
    case None => None
    case Some(m) => if MealInStr(m) == key then Find(meals, m) else None
  }

  /** The lookup finds every meal whose key is `key`, and in a dictionary that meal only. */
  lemma LocateComplete(meals: seq<(nat, Bucket)>, key: string, i: nat)
    requires i < |meals| && MealInStr(meals[i].0) == key
    ensures Locate(meals, key).Some?
    ensures DistinctKeys(meals) ==> Locate(meals, key) == Some(i)
  {
    MealKeyRoundTrip(meals[i].0);
  }

  /** `add_new_dish`: `add_dish` on the named meal; KeyError for an unknown meal. */
  function AddNewDish(day: Day, dish: string, dishType: string, ref: MealRef): (r: Result<Day>)
    ensures r.Ok? <==> Locate(day.meals, RefKey(ref)).Some? && ParseType(dishType).Some?
    ensures Locate(day.meals, RefKey(ref)).None? ==> r.Err? && r.error.KeyError?
    ensures ParseType(dishType).None? && Locate(day.meals, RefKey(ref)).Some? ==> r.Err? && r.error.ValueError?
    ensures r.Ok? ==> var i := Locate(day.meals, RefKey(ref)).value;
      r.value == day.(meals := day.meals[i := (day.meals[i].0, day.meals[i].1.Add(ParseType(dishType).value, dish))])
  {
    var key := RefKey(ref);
    match Locate(day.meals, key)
    case None => Err(KeyError(key))
    case Some(i) =>
      match AddByName(day.meals[i].1, dish, dishType)
      case Err(e) => Err(e)
      case Ok(b) => Ok(day.(meals := day.meals[i := (day.meals[i].0, b)]))
  }

  /** `add_new_predish`: `add_dish` on the staging bucket, which no longer exists once deleted. */
  function AddNewPredish(day: Day, dish: string, dishType: string): (r: Result<Day>)
    ensures day.preDishes.None? ==> r.Err? && r.error.AttributeError?
    ensures day.preDishes.Some? ==> (r.Ok? <==> ParseType(dishType).Some?)
    ensures day.preDishes.Some? && r.Err? ==> r.error.ValueError?
    ensures r.Ok? ==> (r.value.meals == day.meals && r.value.preDishes.Some? &&
                       AddByName(day.preDishes.value, dish, dishType) == Ok(r.value.preDishes.value))
  {
    match day.preDishes
    case None => Err(AttributeError("pre_dishes"))
    case Some(b) =>
      var b' :- AddByName(b, dish, dishType);
      Ok(day.(preDishes := Some(b')))
  }

  /** `remove_dish` on a meal: KeyError for an unknown meal, otherwise `Dish.remove_dish`. */
  function RemoveMealDish(day: Day, dish: string, dishType: string, ref: MealRef): (r: Result<(bool, Day)>)
    ensures r.Err? <==> Locate(day.meals, RefKey(ref)).None?
    ensures r.Ok? ==> var i := Locate(day.meals, RefKey(ref)).value;
      r.value.0 == ExactType(dishType).Some? &&
      r.value.1 == day.(meals := day.meals[i := (day.meals[i].0, RemoveByName(day.meals[i].1, dish, dishType).1)])
  {
    match Locate(day.meals, RefKey(ref))
    case None => Err(KeyError(RefKey(ref)))
    case Some(i) =>
      var (known, b) := RemoveByName(day.meals[i].1, dish, dishType);
      Ok((known, day.(meals := day.meals[i := (day.meals[i].0, b)])))
  }

  /**
   * `get_num_current_dishes`: the length of the named list of the named meal. The category
   * is checked first (ValueError), the meal only for a known category (KeyError).
   */
  function GetNumCurrentDishes(day: Day, dishType: string, ref: MealRef): (r: Result<nat>)
    ensures ExactType(dishType).None? ==> r.Err? && r.error.ValueError?
    ensures ExactType(dishType).Some? && Locate(day.meals, RefKey(ref)).None? ==> r.Err? && r.error.KeyError?
    ensures r.Ok? ==> r.value == |day.meals[Locate(day.meals, RefKey(ref)).value].1.Get(ExactType(dishType).value)|
  {
    match ExactType(dishType)
    case None => Err(ValueError("Dish type not recognized"))
    case Some(t) =>
      match Locate(day.meals, RefKey(ref))
      case None => Err(KeyError(RefKey(ref)))
      case Some(i) => Ok(|day.meals[i].1.Get(t)|)
  }

  /** The meal holds at least one dish. */
  predicate NonEmpty(b: Bucket) {
    b.Count() > 0
  }

  /** Slots numbered from 1 in order, with the buckets of `s`. */
  function Renumber<V>(s: seq<(nat, V)>): (r: seq<(nat, V)>)
    ensures |r| == |s|
    ensures forall i :: 0 <= i < |r| ==> r[i] == (i + 1, s[i].1)
  {
    seq(|s|, i requires 0 <= i < |s| => (i + 1, s[i].1))
  }

  /** What `remove_empty_meals` leaves: the non-empty meals, in order, renumbered from 1. */
  function Compact(meals: seq<(nat, Bucket)>): seq<(nat, Bucket)> {
    Renumber(FilterValues(meals, NonEmpty))
  }

  /** The values of `meals` that satisfy `keep`, in order. */
  function Kept<V>(meals: seq<(nat, V)>, keep: V -> bool): seq<V> {
    if meals == [] then []
    else
      var n := |meals| - 1;
      Kept(meals[..n], keep) + (if keep(meals[n].1) then [meals[n].1] else [])
  }

  /** The values of the filtered slots are the kept values, in order. */
  lemma {:induction false} FilterKept<V>(meals: seq<(nat, V)>, keep: V -> bool)
    ensures var f := FilterValues(meals, keep);
      |f| == |Kept(meals, keep)| && forall i :: 0 <= i < |f| ==> f[i].1 == Kept(meals, keep)[i]
  {
    if meals != [] {
      var n := |meals| - 1;
      FilterKept(meals[..n], keep);
    }
  }

  /**
   * After compaction every meal has a dish, the keys are exactly "meal_1" to "meal_K" in
   * order with K at most the former number of meals, and the meals are the former
   * non-empty ones with their contents, in their former order.
   */
  lemma CompactMeaning(meals: seq<(nat, Bucket)>)
    ensures |Compact(meals)| <= |meals|
    ensures |Compact(meals)| == |Kept(meals, NonEmpty)|
    ensures forall i :: 0 <= i < |Compact(meals)| ==>
      Compact(meals)[i].0 == i + 1 && Compact(meals)[i].1 == Kept(meals, NonEmpty)[i] && Compact(meals)[i].1.Count() > 0
    ensures WellNumbered(Compact(meals))
  {
    FilterLength(meals, NonEmpty);
    FilterKept(meals, NonEmpty);
    forall i | 0 <= i < |Compact(meals)| ensures Compact(meals)[i].1.Count() > 0 {
      var f := FilterValues(meals, NonEmpty);
      assert f[i] in f;
      FilterMembers(meals, NonEmpty, f[i]);
    }
  }

  /** A meal is dropped exactly when it is empty. */
  lemma CompactKeeps(meals: seq<(nat, Bucket)>, i: nat)
    requires i < |meals|
    ensures meals[i].1.Count() > 0 <==> meals[i] in FilterValues(meals, NonEmpty)
  {
    FilterMembers(meals, NonEmpty, meals[i]);
  }

  /** `remove_empty_meals`: deletes the meals without dishes, then renumbers the rest from 1 in order. */
  method RemoveEmptyMeals(day: Day) returns (r: Day)
    requires WellNumbered(day.meals)
    ensures r == day.(meals := Compact(day.meals))
  {
    var meals := DropEmptyMeals(day.meals, NonEmpty);
    FilterSubsequence(day.meals, NonEmpty);
    meals := RenumberMeals(meals);
    r := day.(meals := meals);
  }

  /** The first loop of `remove_empty_meals`: `del` of every meal without dishes. */
  method DropEmptyMeals<V>(snapshot: seq<(nat, V)>, nonEmpty: V -> bool) returns (meals: seq<(nat, V)>)
    requires WellNumbered(snapshot)
    ensures meals == FilterValues(snapshot, nonEmpty)
  {
    meals := snapshot;
    WellNumberedDistinct(snapshot);
    var j := 0;
    while j < |snapshot|
      invariant 0 <= j <= |snapshot|
      invariant meals == FilterValues(snapshot[..j], nonEmpty) + snapshot[j..]
    {
      FilterStep(snapshot, nonEmpty, j);
      var at := Find(meals, snapshot[j].0).value;
      if !nonEmpty(meals[at].1) {
        meals := Del(meals, snapshot[j].0);
      }
      j := j + 1;
    }
    assert snapshot[..j] == snapshot;
  }

  /**
   * The second loop of `remove_empty_meals`: walks the keys with a running `count` from 1
   * and moves each meal whose number differs from `count` to the key "meal_<count>"
   * (`d[new] = d.pop(old)`, which appends).
   */
  method RenumberMeals<V>(s: seq<(nat, V)>) returns (meals: seq<(nat, V)>)
    requires WellNumbered(s)
    ensures meals == Renumber(s)
  {
    meals := s;
    var count: nat := 1;
    var j := 0;
    while j < |s|
      invariant 0 <= j <= |s| && count == j + 1
      invariant meals == Walked(s, j)
    {
      MealKeyRoundTrip(s[j].0);
      var mealNumber := KeyNumber(MealInStr(s[j].0)).value;
      if mealNumber != count {
        WalkedFind(s, j);
        meals := Rekey(meals, s[j].0, count);
      }
      count := count + 1;
      j := j + 1;
    }
    WalkedDone(s);
  }

  /**
   * The meals once the renumbering loop has visited the first `j` keys: the `j`-th key
   * (counting from 1) keeps its place when its number is `j`, and is otherwise moved to
   * the key numbered `j`.
   */
  function Walked<V>(s: seq<(nat, V)>, j: nat): seq<(nat, V)>
    requires j <= |s|
  {
    if j == 0 then s
    else
      var prev := Walked(s, j - 1);
      if s[j - 1].0 != j && Find(prev, s[j - 1].0).Some? then Rekey(prev, s[j - 1].0, j) else prev
  }

  /** How many leading meals the walk of the first `j` keys leaves in place. */
  function InPlace<V>(s: seq<(nat, V)>, j: nat): (q: nat)
    requires j <= |s|
    ensures q <= j
  {
    if j == 0 then 0
    else if InPlace(s, j - 1) == j - 1 && s[j - 1].0 == j then j
    else InPlace(s, j - 1)
  }

  /**
   * The walk of the first `j` keys leaves the meals already numbered by rank in place,
   * keeps the unvisited ones after them and re-inserts the visited others, renumbered.
   */
  lemma {:induction false} WalkedShape<V>(s: seq<(nat, V)>, j: nat)
    requires WellNumbered(s) && j <= |s|
    ensures WalkShape(s, j)
  {
    if j == 0 {
      WalkedStart(s);
    } else {
      WalkedShape(s, j - 1);
      if s[j - 1].0 == j {
        WalkedKeep(s, j);
      } else {
        WalkedMove(s, j);
      }
    }
  }

  /** The shape of the meals after the first `j` keys, with `InPlace(s, j)` meals left in place. */
  ghost predicate WalkShape<V>(s: seq<(nat, V)>, j: nat)
    requires j <= |s|
  {
    var q := InPlace(s, j);
    Settled(s, q) && (q < j ==> s[q].0 > q + 1) && Walked(s, j) == Renumbering(s, q, j)
  }

  lemma WalkedStart<V>(s: seq<(nat, V)>)
    ensures WalkShape(s, 0)
  {
    assert Ranked(s, 0, 0) == [] && s[..0] + s[0..] == s;
  }

  lemma WalkedKeep<V>(s: seq<(nat, V)>, j: nat)
    requires WellNumbered(s) && 0 < j <= |s| && s[j - 1].0 == j
    requires WalkShape(s, j - 1)
    ensures WalkShape(s, j)
  {
    RenumberKeep(s, InPlace(s, j - 1), j - 1);
  }

  lemma WalkedMove<V>(s: seq<(nat, V)>, j: nat)
    requires WellNumbered(s) && 0 < j <= |s| && s[j - 1].0 != j
    requires WalkShape(s, j - 1)
    ensures WalkShape(s, j)
  {
    var q := InPlace(s, j - 1);
    var prev := Walked(s, j - 1);
    RenumberMove(s, q, j - 1, prev, j);
    assert Walked(s, j) == Rekey(prev, s[j - 1].0, j);
  }

  /** Each visited key is still present when the walk reaches it. */
  lemma WalkedFind<V>(s: seq<(nat, V)>, j: nat)
    requires WellNumbered(s) && j < |s|
    ensures Find(Walked(s, j), s[j].0).Some?
  {
    WalkedShape(s, j);
    RenumberFind(s, InPlace(s, j), j);
    assert Walked(s, j) == Renumbering(s, InPlace(s, j), j);
  }

  /** After the last key, the meals are all renumbered by rank. */
  lemma WalkedDone<V>(s: seq<(nat, V)>)
    requires WellNumbered(s)
    ensures Walked(s, |s|) == Renumber(s)
  {
    WalkedShape(s, |s|);
    RenumberDone(s, InPlace(s, |s|));
  }

  lemma WellNumberedDistinct<V>(meals: seq<(nat, V)>)
    requires WellNumbered(meals)
    ensures DistinctKeys(meals)
  {
  }

  /** The non-empty meals of a well-numbered day are well numbered. */
  lemma {:induction false} FilterSubsequence<V>(meals: seq<(nat, V)>, keep: V -> bool)
    requires WellNumbered(meals)
    ensures WellNumbered(FilterValues(meals, keep))
  {
    if meals != [] {
      var n := |meals| - 1;
      assert WellNumbered(meals[..n]);
      FilterSubsequence(meals[..n], keep);
      var f := FilterValues(meals[..n], keep);
      forall e | e in f ensures e.0 < meals[n].0 {
        FilterMembers(meals[..n], keep, e);
        var i :| 0 <= i < n && meals[..n][i] == e;
      }
      if keep(meals[n].1) {
        WellNumberedSnoc(f, meals[n]);
      }
    }
  }

  /** Appending a meal numbered above all others keeps a day well numbered. */
  lemma WellNumberedSnoc<V>(a: seq<(nat, V)>, x: (nat, V))
    requires WellNumbered(a) && x.0 >= 1
    requires forall e :: e in a ==> e.0 < x.0
    ensures WellNumbered(a + [x])
  {
    var b := a + [x];
    forall i, j | 0 <= i < j < |b| ensures b[i].0 < b[j].0 {
      assert b[i] == a[i];
      if j < |a| {
        assert b[j] == a[j];
      } else {
        assert a[i] in a;
      }
    }
  }

  /** The first `q` meals already carry their ranks: in a well-numbered day, the `q`-th one suffices. */
  predicate Settled<V>(s: seq<(nat, V)>, q: nat) {
    q <= |s| && (q > 0 ==> s[q - 1].0 == q)
  }

  lemma SettledPrefix<V>(s: seq<(nat, V)>, q: nat)
    requires WellNumbered(s) && Settled(s, q)
    ensures forall i :: 0 <= i < q ==> s[i].0 == i + 1
  {
    forall i | 0 <= i < q ensures s[i].0 == i + 1 {
      WellNumberedBound(s, i);
      NumberGap(s, i, q - 1);
    }
  }

  /** Numbers grow at least as fast as positions. */
  lemma NumberGap<V>(s: seq<(nat, V)>, i: nat, k: nat)
    requires WellNumbered(s) && i <= k < |s|
    ensures s[k].0 - s[i].0 >= k - i
    decreases k - i
  {
    if i < k {
      NumberGap(s, i, k - 1);
    }
  }

  /** Slots `q` to `j - 1` of `s`, numbered with their ranks `q + 1` to `j`. */
  function Ranked<V>(s: seq<(nat, V)>, q: nat, j: nat): (r: seq<(nat, V)>)
    requires q <= j <= |s|
    ensures |r| == j - q
    ensures forall k :: 0 <= k < |r| ==> r[k] == (q + k + 1, s[q + k].1)
  {
    seq(j - q, k requires 0 <= k < j - q => ((q + k + 1) as nat, s[q + k].1))
  }

  /** The loop state while renumbering: the meals left in place, the meals not yet visited, the moved meals. */
  function Renumbering<V>(s: seq<(nat, V)>, q: nat, j: nat): seq<(nat, V)>
    requires q <= j <= |s|
  {
    s[..q] + s[j..] + Ranked(s, q, j)
  }

  /** The state once `s[j]` is popped. */
  function Popped<V>(s: seq<(nat, V)>, q: nat, j: nat): seq<(nat, V)>
    requires q <= j < |s|
  {
    s[..q] + s[j + 1..] + Ranked(s, q, j)
  }

  /** At rank `j` the loop finds the meal `s[j]` right after the meals left in place. */
  lemma RenumberFind<V>(s: seq<(nat, V)>, q: nat, j: nat)
    requires WellNumbered(s) && q <= j < |s|
    requires Settled(s, q)
    ensures Find(Renumbering(s, q, j), s[j].0) == Some(q) && Renumbering(s, q, j)[q] == s[j]
  {
    SettledPrefix(s, q);
    forall e | e in s[..q] ensures e.0 != s[j].0 {
      var i :| 0 <= i < q && s[..q][i] == e;
    }
    assert Renumbering(s, q, j) == s[..q] + (s[j..] + Ranked(s, q, j));
    FindAfter(s[..q], s[j..] + Ranked(s, q, j), s[j].0);
  }

  /** A meal already numbered with its rank stays; then nothing was moved before it. */
  lemma RenumberKeep<V>(s: seq<(nat, V)>, q: nat, j: nat)
    requires WellNumbered(s) && q <= j < |s| && s[j].0 == j + 1
    requires q < j ==> s[q].0 > q + 1
    ensures q == j && Renumbering(s, q, j) == Renumbering(s, j + 1, j + 1)
  {
    if q < j {
      GapPersists(s, q, j);
    }
    assert s[..j] + s[j..] == s[..j + 1] + s[j + 1..];
  }

  /**
   * A meal numbered above its rank is popped from its place and re-inserted after
   * everything else under the number of its rank, which no other meal holds.
   */
  lemma RenumberMove<V>(s: seq<(nat, V)>, q: nat, j: nat, meals: seq<(nat, V)>, count: nat)
    requires WellNumbered(s) && q <= j < |s| && s[j].0 != j + 1
    requires Settled(s, q)
    requires q < j ==> s[q].0 > q + 1
    requires meals == Renumbering(s, q, j) && count == j + 1
    ensures Find(meals, s[j].0).Some?
    ensures Rekey(meals, s[j].0, count) == Renumbering(s, q, j + 1)
    ensures s[q].0 > q + 1
  {
    WellNumberedBound(s, j);
    if q < j {
      GapPersists(s, q, j);
    }
    RenumberFind(s, q, j);
    PoppedSplit(s, q, j);
    RenumberFree(s, q, j);
    RekeyAt(meals, s[j].0, count, q);
    PoppedPush(s, q, j);
  }

  /** The popped state with `s[j]` appended under number `j + 1` is the next loop state. */
  lemma PoppedPush<V>(s: seq<(nat, V)>, q: nat, j: nat)
    requires q <= j < |s|
    ensures Popped(s, q, j) + [(j + 1, s[j].1)] == Renumbering(s, q, j + 1)
  {
    RankedSnoc(s, q, j);
    assert Popped(s, q, j) + [(j + 1, s[j].1)] == s[..q] + s[j + 1..] + (Ranked(s, q, j) + [(j + 1, s[j].1)]);
  }

  /** Taking out position `q` of the loop state leaves the popped state. */
  lemma PoppedSplit<V>(s: seq<(nat, V)>, q: nat, j: nat)
    requires q <= j < |s|
    ensures Renumbering(s, q, j)[q] == s[j]
    ensures Renumbering(s, q, j)[..q] + Renumbering(s, q, j)[q + 1..] == Popped(s, q, j)
  {
    var m := Renumbering(s, q, j);
    assert m == s[..q] + ([s[j]] + (s[j + 1..] + Ranked(s, q, j)));
    assert m[..q] == s[..q];
    assert m[q + 1..] == s[j + 1..] + Ranked(s, q, j);
  }

  lemma RankedSnoc<V>(s: seq<(nat, V)>, q: nat, j: nat)
    requires q <= j < |s|
    ensures Ranked(s, q, j + 1) == Ranked(s, q, j) + [(j + 1, s[j].1)]
  {
    var a := Ranked(s, q, j + 1);
    var b := Ranked(s, q, j) + [(j + 1, s[j].1)];
    assert |a| == |b|;
    forall k | 0 <= k < |a| ensures a[k] == b[k] {
      if k < j - q {
        assert b[k] == Ranked(s, q, j)[k];
      }
    }
  }

  /** No meal outside the moved block holds the number `j + 1`. */
  lemma RenumberFree<V>(s: seq<(nat, V)>, q: nat, j: nat)
    requires WellNumbered(s) && q <= j < |s| && s[j].0 != j + 1
    requires Settled(s, q)
    ensures forall i :: 0 <= i < |Popped(s, q, j)| ==> Popped(s, q, j)[i].0 != j + 1
    ensures forall e :: e in Popped(s, q, j) ==> e.0 != j + 1
  {
    SettledPrefix(s, q);
    var rest := Popped(s, q, j);
    WellNumberedBound(s, j);
    forall i | 0 <= i < |rest| ensures rest[i].0 != j + 1 {
      if i < q {
        assert rest[i] == s[i];
      } else if i < q + (|s| - j - 1) {
        assert rest[i] == s[j + 1 + (i - q)];
        WellNumberedBound(s, j + 1 + (i - q));
      } else {
        assert rest[i] == Ranked(s, q, j)[i - q - (|s| - j - 1)];
      }
    }
  }

  /** When the walk ends, the meals left in place followed by the moved ones are all the meals, numbered by rank. */
  lemma RenumberDone<V>(s: seq<(nat, V)>, q: nat)
    requires WellNumbered(s)
    requires q <= |s|
    requires Settled(s, q)
    ensures Renumbering(s, q, |s|) == Renumber(s)
  {
    SettledPrefix(s, q);
    var r := Renumbering(s, q, |s|);
    assert |r| == |s|;
    forall i | 0 <= i < |s| ensures r[i] == Renumber(s)[i] {
      if i < q {
        assert r[i] == s[i];
      } else {
        assert r[i] == Ranked(s, q, |s|)[i - q];
      }
    }
  }

  /** Once a meal is above its rank, every later meal is too. */
  lemma GapPersists<V>(s: seq<(nat, V)>, q: nat, j: nat)
    requires WellNumbered(s) && q <= j < |s| && s[q].0 > q + 1
    ensures s[j].0 > j + 1
    decreases j - q
  {
    if q < j {
      GapPersists(s, q, j - 1);
    }
  }
}
