/**
 * Staging items with `add_dish` and `add_new_predish`, and the taxonomy-row draw that
 * `compute_subject_diet` (AI4FoodNutritionFW.py) makes for one food group and frequency.
 */
module Staging {
  import opened Wrappers
  import opened Seqs
  import opened Dishes
  import opened Days
  import opened Random
  import opened Selection
  import opened Taxonomy

  /** A dish waiting to be staged: the name and the category string passed to `add_dish`. */
  datatype Item = Item(name: string, dishType: string)

  /** The item a taxonomy row stands for: its subcategory under its dish type. */
  function ItemOf(row: Row): Item {
    Item(row.subcategory, row.dishType)
  }

  /** `add_dish` for each item in turn; the first unknown category raises ValueError. */
  function AddItems(b: Bucket, items: seq<Item>): Result<Bucket> {
    if items == [] then Ok(b)
    else
      var n := |items| - 1;
      match AddItems(b, items[..n])
      case Err(e) => Err(e)
      case Ok(c) => AddByName(c, items[n].name, items[n].dishType)
  }

  /** Every item names one of the seven categories, in any case. */
  predicate Accepted(items: seq<Item>) {
    forall i :: 0 <= i < |items| ==> ParseType(items[i].dishType).Some?
  }

  /** The names of the items filed under category `t`, in order. */
  function NamesOf(items: seq<Item>, t: DishType): seq<string> {
    if items == [] then []
    else
      var n := |items| - 1;
      NamesOf(items[..n], t) + (if ParseType(items[n].dishType) == Some(t) then [items[n].name] else [])
  }

  /** Staging succeeds exactly when every category is known, and otherwise raises ValueError. */
  lemma {:induction false} AddItemsDefined(b: Bucket, items: seq<Item>)
    ensures AddItems(b, items).Ok? <==> Accepted(items)
    ensures AddItems(b, items).Err? ==> AddItems(b, items).error.ValueError?
  {
    if items != [] {
      var n := |items| - 1;
      AddItemsDefined(b, items[..n]);
      AcceptedLast(items);
    }
  }

  /** The items are all accepted exactly when those before the last are and the last is. */
  lemma AcceptedLast(items: seq<Item>)
    requires items != []
    ensures Accepted(items) <==> Accepted(items[..|items| - 1]) && ParseType(items[|items| - 1].dishType).Some?
  {
    var n := |items| - 1;
    assert forall i :: 0 <= i < n ==> items[..n][i] == items[i];
  }

  /** Staging adds one dish per item. */
  lemma {:induction false} AddItemsCount(b: Bucket, items: seq<Item>)
    requires AddItems(b, items).Ok?
    ensures AddItems(b, items).value.Count() == b.Count() + |items|
  {
    if items != [] {
      AddItemsCount(b, items[..|items| - 1]);
    }
  }

  /** Staging appends to each list the names filed under it, in order. */
  lemma {:induction false} AddItemsLists(b: Bucket, items: seq<Item>, t: DishType)
    requires AddItems(b, items).Ok?
    ensures AddItems(b, items).value.Get(t) == b.Get(t) + NamesOf(items, t)
  {
    if items != [] {
      var n := |items| - 1;
      AddItemsLists(b, items[..n], t);
      var c := AddItems(b, items[..n]).value;
      assert AddItems(b, items) == AddByName(c, items[n].name, items[n].dishType);
    }
  }

  /** Staging two runs of items is staging the first run, then the second. */
  lemma {:induction false} AddItemsAppend(b: Bucket, a: seq<Item>, c: seq<Item>)
    ensures AddItems(b, a + c) == match AddItems(b, a) case Err(e) => Err(e) case Ok(x) => AddItems(x, c)
  {
    if c == [] {
      assert a + c == a;
    } else {
      var n := |c| - 1;
      AddItemsAppend(b, a, c[..n]);
      assert (a + c)[..|a + c| - 1] == a + c[..n];
    }
  }

  /** The names `names`, each tagged with the name of category `t`. */
  function Tagged(names: seq<string>, t: DishType): (r: seq<Item>)
    ensures |r| == |names|
  {
    seq(|names|, i requires 0 <= i < |names| => Item(names[i], Name(t)))
  }

  /** The names filed under `t` by two runs of items are those of the first run, then those of the second. */
  lemma {:induction false} NamesAppend(a: seq<Item>, c: seq<Item>, t: DishType)
    ensures NamesOf(a + c, t) == NamesOf(a, t) + NamesOf(c, t)
  {
    if c == [] {
      assert a + c == a;
    } else {
      var n := |c| - 1;
      NamesAppend(a, c[..n], t);
      assert (a + c)[..|a + c| - 1] == a + c[..n];
    }
  }

  /** Names tagged with category `u` are filed under `u` only. */
  lemma {:induction false} NamesTagged(names: seq<string>, u: DishType, t: DishType)
    ensures NamesOf(Tagged(names, u), t) == if u == t then names else []
  {
    if names != [] {
      var n := |names| - 1;
      var tagged := Tagged(names, u);
      assert tagged[..n] == Tagged(names[..n], u);
      NamesTagged(names[..n], u, t);
      assert ParseType(tagged[n].dishType) == Some(u) by {
        ParseName(u);
      }
      if u == t {
        assert names[..n] + [names[n]] == names;
      }
    }
  }

  /** Names tagged with a category are accepted by `add_dish`. */
  lemma TaggedAccepted(names: seq<string>, u: DishType)
    ensures Accepted(Tagged(names, u))
  {
    ParseName(u);
  }

  /** The `add_dish` calls that fill the week's pool, one per item. */
  method StageInPool(pool: Dish, items: seq<Item>) returns (r: Result<()>)
    modifies pool
    ensures r.Ok? <==> Accepted(items)
    ensures r.Err? ==> r.error.ValueError?
    ensures r.Ok? ==> Ok(pool.Value()) == AddItems(old(pool.Value()), items)
  {
    var i := 0;
    while i < |items|
      invariant 0 <= i <= |items|
      invariant AddItems(old(pool.Value()), items[..i]) == Ok(pool.Value())
    {
      assert items[..i + 1][..i] == items[..i];
      var added := pool.AddDish(items[i].name, items[i].dishType);
      if added.Err? {
        return added;
      }
      i := i + 1;
    }
    assert items[..i] == items;
    AddItemsDefined(old(pool.Value()), items);
    r := Ok(());
  }

  /** The `add_new_predish` calls on one day, one per item. */
  method StageOnDay(day: Day, items: seq<Item>) returns (r: Result<Day>)
    ensures items == [] ==> r == Ok(day)
    ensures items != [] && day.preDishes.None? ==> r.Err? && r.error.AttributeError?
    ensures day.preDishes.Some? ==> (r.Ok? <==> Accepted(items))
    ensures day.preDishes.Some? && r.Err? ==> r.error.ValueError?
    ensures r.Ok? && day.preDishes.Some? ==>
      r.value.meals == day.meals && r.value.preDishes.Some? &&
      AddItems(day.preDishes.value, items) == Ok(r.value.preDishes.value)
  {
    var current := day;
    var i := 0;
    while i < |items|
      invariant 0 <= i <= |items| && current.meals == day.meals
      invariant day.preDishes.None? ==> current == day && i == 0
      invariant day.preDishes.Some? ==>
        current.preDishes.Some? && AddItems(day.preDishes.value, items[..i]) == Ok(current.preDishes.value)
    {
      var next := AddNewPredish(current, items[i].name, items[i].dishType);
      if next.Err? {
        assert day.preDishes.Some? ==> ParseType(items[i].dishType).None?;
        return next;
      }
      PredishStep(day.preDishes.value, items, i, current.preDishes.value);
      current := next.value;
      i := i + 1;
    }
    assert items[..i] == items;
    if day.preDishes.Some? {
      AddItemsDefined(day.preDishes.value, items);
    }
    r := Ok(current);
  }

  /** One more `add_new_predish` call stages one more item. */
  lemma PredishStep(pre0: Bucket, items: seq<Item>, i: nat, pre: Bucket)
    requires i < |items| && AddItems(pre0, items[..i]) == Ok(pre)
    ensures AddItems(pre0, items[..i + 1]) == AddByName(pre, items[i].name, items[i].dishType)
  {
    assert items[..i + 1][..i] == items[..i];
  }

  /** The row draw succeeds: a frequency is present, and a group without exactly one row has a usable one. */
  predicate DrawDefined(numRows: nat, f: Option<int>) {
    f.Some? && (numRows == 1 || (numRows >= 2 && f.value >= 0))
  }

  /** The exception a failed draw raises. */
  predicate DrawFault(numRows: nat, f: Option<int>, e: Error) {
    if f.None? then e.TypeError?
    else if numRows == 0 && f.value >= 0 && f.value != 1 then e.ZeroDivisionError?
    else e.ValueError?
  }

  /**
   * The items one group stages for frequency `f`: `f` copies of the group key when the group
   * has a single row; otherwise one row drawn with `randint` for `f == 1` and the rows of
   * `select_values_from_n_freq(num_rows, f, 0)` for any other `f`. No frequency (None)
   * raises TypeError, a group without rows ValueError or ZeroDivisionError.
   */
  method DrawItems(rng: Rng, rows: seq<Row>, key: string, f: Option<int>) returns (r: Result<seq<Item>>, ghost picks: seq<int>)
    modifies rng
    ensures r.Ok? <==> DrawDefined(|rows|, f)
    ensures r.Err? ==> DrawFault(|rows|, f, r.error)
    ensures r.Ok? ==> |r.value| == if f.value > 0 then f.value else 0
    ensures r.Ok? && |rows| == 1 ==> forall i :: 0 <= i < |r.value| ==> r.value[i] == Item(key, rows[0].dishType)
    ensures r.Ok? && |rows| >= 2 ==>
      |picks| == |r.value| &&
      forall i :: 0 <= i < |picks| ==> 0 <= picks[i] < |rows| && r.value[i] == ItemOf(rows[picks[i]])
    ensures r.Ok? && |rows| >= 2 && f.value != 1 ==> IsSelection(|rows|, f.value, 0, picks)
  {
    picks := [];
    if f.None? {
      return Err(TypeError("unsupported operand type(s)")), picks;
    }
    var n := f.value;
    if |rows| == 1 {
      var count := if n > 0 then n else 0;
      r := Ok(seq(count, _ => Item(key, rows[0].dishType)));
    } else if n == 1 {
      if |rows| == 0 {
        return Err(ValueError("empty range for randrange()")), picks;
      }
      var i := rng.RandInt(0, |rows| - 1);
      picks := [i];
      r := Ok([ItemOf(rows[i])]);
    } else if |rows| == 0 {
      if n >= 0 {
        return Err(ZeroDivisionError), picks;
      }
      return Err(ValueError("Sample larger than population or is negative")), picks;
    } else {
      var sel := SelectValuesFromNFreq(rng, |rows|, n, 0);
      if sel.Err? {
        return Err(sel.error), picks;
      }
      SelectionLength(|rows|, n, 0, sel.value);
      SelectionBounds(|rows|, n, 0, sel.value);
      var chosen := sel.value;
      picks := chosen;
      r := Ok(seq(|chosen|, i requires 0 <= i < |chosen| => ItemOf(rows[chosen[i]])));
    }
  }
}
