/**
 * The nutritional-level taxonomy as an in-memory table, the food-group lookup
 * (`search_food_group_in_taxonomy`, `find_food_group`) and the plate classification of
 * `get_user_diets` (src/utils.py).
 */
module Taxonomy {
  import opened Wrappers

  /** One line of the taxonomy table. */
  datatype Row = Row(root: string, category: string, subcategory: string, level: int, dishType: string)

  /** A row belongs to food group `key` when its root, category or subcategory is `key`. */
  predicate Matches(r: Row, key: string) {
    r.root == key || r.category == key || r.subcategory == key
  }

  /** The rows of food group `key`, in table order; an unknown key gives no rows, not an error. */
  function Search(tax: seq<Row>, key: string): (rows: seq<Row>)
    ensures |rows| <= |tax|
  {
    if tax == [] then []
    else (if Matches(tax[0], key) then [tax[0]] else []) + Search(tax[1..], key)
  }

  /** A row is found exactly when it is in the table and matches the key. */
  lemma {:induction false} SearchMembers(tax: seq<Row>, key: string, r: Row)
    ensures r in Search(tax, key) <==> r in tax && Matches(r, key)
  {
    if tax != [] {
      SearchMembers(tax[1..], key, r);
      assert tax == [tax[0]] + tax[1..];
    }
  }

  /** The result keeps table order: searching a table in two parts gives the two results one after the other. */
  lemma {:induction false} SearchOrder(a: seq<Row>, b: seq<Row>, key: string)
    ensures Search(a + b, key) == Search(a, key) + Search(b, key)
  {
    if a != [] {
      SearchOrder(a[1..], b, key);
      assert (a + b)[1..] == a[1..] + b;
    } else {
      assert a + b == b;
    }
  }

  /** `num_rows` counts exactly the matching lines of the table. */
  function MatchCount(tax: seq<Row>, key: string): nat {
    if tax == [] then 0 else (if Matches(tax[0], key) then 1 else 0) + MatchCount(tax[1..], key)
  }

  lemma {:induction false} SearchCount(tax: seq<Row>, key: string)
    ensures |Search(tax, key)| == MatchCount(tax, key)
    ensures MatchCount(tax, key) == 0 <==> forall i :: 0 <= i < |tax| ==> !Matches(tax[i], key)
  {
    if tax != [] {
      SearchCount(tax[1..], key);
      assert forall i :: 1 <= i < |tax| ==> tax[i] == tax[1..][i - 1];
    }
  }

  /** `search_food_group_in_taxonomy`: the rows and their number. */
  function SearchFoodGroup(tax: seq<Row>, key: string): (r: (seq<Row>, nat))
    ensures r.1 == |r.0|
  {
    var rows := Search(tax, key);
    (rows, |rows|)
  }

  /** The nine counters of `get_user_diets`. */
  datatype Counter = Fruits | Vegetables | Cereals | Meat | FishAndSeafood | Eggs | Legumes
                   | FirstLevelProducts | SecondLevelProducts

  const AllCounters: seq<Counter> :=
    [Fruits, Vegetables, Cereals, Meat, FishAndSeafood, Eggs, Legumes, FirstLevelProducts, SecondLevelProducts]

  /**
   * The first-match chain on the first row of the plate's food group: the counter it
   * increments, or None when no test holds. A plate with no rows fails at `loc[0, ...]`
   * with KeyError.
   */
  function Classify(rows: seq<Row>): (r: Result<Option<Counter>>)
    ensures r.Err? <==> rows == []
    ensures r.Ok? && r.value == Some(Fruits) <==> rows != [] && rows[0].category == "Fruits"
  {
    if rows == [] then Err(KeyError("0"))
    else
      var g := rows[0];
      if g.category == "Fruits" then Ok(Some(Fruits))
      else if g.category == "Vegetables" then Ok(Some(Vegetables))
      else if g.root == "Sixth Level" then Ok(Some(Cereals))
      else if g.category == "Fatty Meat" || g.subcategory == "White Meat" then Ok(Some(Meat))
      else if g.category == "Fish and Seafood" then Ok(Some(FishAndSeafood))
      else if g.category == "Eggs" then Ok(Some(Eggs))
      else if g.category == "Beans" then Ok(Some(Legumes))
      else if g.root == "First Level" then Ok(Some(FirstLevelProducts))
      else if g.root == "Second Level" then Ok(Some(SecondLevelProducts))
      else Ok(None)
  }

  /** Earlier tests win: a Fruits row under the Sixth Level root counts as fruit, not cereal. */
  lemma ClassifyFirstMatch(g: Row)
    requires g.category == "Fruits" && g.root == "Sixth Level"
    ensures Classify([g]) == Ok(Some(Fruits))
  {
  }

  /** The plates of `plates` the chain sends to counter `c`. */
  function Tally(tax: seq<Row>, plates: seq<string>, c: Counter): nat {
    if plates == [] then 0
    else Tally(tax, plates[..|plates| - 1], c) + (if Classify(Search(tax, plates[|plates| - 1])) == Ok(Some(c)) then 1 else 0)
  }

  /** The plates no test matches. */
  function Unmatched(tax: seq<Row>, plates: seq<string>): nat {
    if plates == [] then 0
    else Unmatched(tax, plates[..|plates| - 1]) + (if Classify(Search(tax, plates[|plates| - 1])) == Ok(None) then 1 else 0)
  }

  /** The sum of the tallies of the counters `cs`. */
  function TallySum(tax: seq<Row>, plates: seq<string>, cs: seq<Counter>): nat {
    if cs == [] then 0 else Tally(tax, plates, cs[0]) + TallySum(tax, plates, cs[1..])
  }

  /** Every plate found in the taxonomy lands in exactly one of the nine counters or in none. */
  lemma {:induction false} TallyTotal(tax: seq<Row>, plates: seq<string>)
    requires forall i :: 0 <= i < |plates| ==> Search(tax, plates[i]) != []
    ensures TallySum(tax, plates, AllCounters) + Unmatched(tax, plates) == |plates|
  {
    if plates != [] {
      var n := |plates| - 1;
      assert forall i :: 0 <= i < n ==> plates[..n][i] == plates[i];
      TallyTotal(tax, plates[..n]);
      TallySumSnoc(tax, plates, AllCounters);
      assert Search(tax, plates[n]) != [];
      var r := Classify(Search(tax, plates[n]));
      assert Unmatched(tax, plates) == Unmatched(tax, plates[..n]) + (if r == Ok(None) then 1 else 0);
      if r.value.Some? {
        OneCounter(r.value.value, AllCounters);
      } else {
        NoCounter(r, AllCounters);
        assert r == Ok(None);
      }
    } else {
      TallySumEmpty(tax, AllCounters);
    }
  }

  lemma {:induction false} TallySumEmpty(tax: seq<Row>, cs: seq<Counter>)
    ensures TallySum(tax, [], cs) == 0
  {
    if cs != [] {
      TallySumEmpty(tax, cs[1..]);
    }
  }

  /** Adding one plate adds, to the sum over `cs`, one for each counter of `cs` it is classified under. */
  lemma {:induction false} TallySumSnoc(tax: seq<Row>, plates: seq<string>, cs: seq<Counter>)
    requires plates != []
    ensures var n := |plates| - 1;
      TallySum(tax, plates, cs) == TallySum(tax, plates[..n], cs) + Hits(Classify(Search(tax, plates[n])), cs)
  {
    if cs != [] {
      TallySumSnoc(tax, plates, cs[1..]);
    }
  }

  /** The number of entries of `cs` equal to the classification `r`. */
  function Hits(r: Result<Option<Counter>>, cs: seq<Counter>): nat {
    if cs == [] then 0 else (if r == Ok(Some(cs[0])) then 1 else 0) + Hits(r, cs[1..])
  }

  lemma OneCounter(c: Counter, cs: seq<Counter>)
    requires cs == AllCounters
    ensures Hits(Ok(Some(c)), cs) == 1
  {
    CountersDistinct();
    HitsOnce(c, cs);
    assert cs[Position(c)] == c;
  }

  /** The position of each counter in `AllCounters`. */
  function Position(c: Counter): (i: nat)
    ensures i < |AllCounters| && AllCounters[i] == c
  {
    match c
    case Fruits => 0
    case Vegetables => 1
    case Cereals => 2
    case Meat => 3
    case FishAndSeafood => 4
    case Eggs => 5
    case Legumes => 6
    case FirstLevelProducts => 7
    case SecondLevelProducts => 8
  }

  lemma CountersDistinct()
    ensures forall i, j :: 0 <= i < j < |AllCounters| ==> AllCounters[i] != AllCounters[j]
  {
    forall i, j | 0 <= i < j < |AllCounters| ensures AllCounters[i] != AllCounters[j] {
      PositionOf(i);
      PositionOf(j);
    }
  }

  lemma PositionOf(i: nat)
    requires i < |AllCounters|
    ensures Position(AllCounters[i]) == i
  {
  }

  /** In a list without repetitions a counter is hit once if listed and never otherwise. */
  lemma {:induction false} HitsOnce(c: Counter, cs: seq<Counter>)
    requires forall i, j :: 0 <= i < j < |cs| ==> cs[i] != cs[j]
    ensures Hits(Ok(Some(c)), cs) == if c in cs then 1 else 0
  {
    if cs != [] {
      HitsOnce(c, cs[1..]);
      assert cs == [cs[0]] + cs[1..];
      if cs[0] == c {
        assert c !in cs[1..];
      }
    }
  }

  lemma {:induction false} NoCounter(r: Result<Option<Counter>>, cs: seq<Counter>)
    requires !(r.Ok? && r.value.Some?)
    ensures Hits(r, cs) == 0
  {
    if cs != [] {
      NoCounter(r, cs[1..]);
    }
  }

  /** The nine counters of one week, all starting at zero. */
  datatype Counts = Counts(tally: map<Counter, nat>)

  const ZeroCounts: Counts := Counts(map c: Counter | true :: 0)

  /** Counting one plate: KeyError when its food group has no rows, otherwise one more for its counter, if any. */
  function CountPlate(m: map<Counter, nat>, tax: seq<Row>, plate: string): (r: Result<map<Counter, nat>>)
    ensures r.Ok? <==> Search(tax, plate) != []
    ensures r.Err? ==> r.error.KeyError?
  {
    match Classify(Search(tax, plate))
    case Err(e) => Err(e)
    case Ok(None) => Ok(m)
    case Ok(Some(c)) => Ok(if c in m then m[c := m[c] + 1] else m)
  }

  /** The nine counters after the plates `plates`, counted front to back (plates without rows count for nothing). */
  function TallyMap(tax: seq<Row>, plates: seq<string>): (m: map<Counter, nat>)
    ensures forall c :: c in m
  {
    if plates == [] then ZeroCounts.tally
    else
      var m := TallyMap(tax, plates[..|plates| - 1]);
      match CountPlate(m, tax, plates[|plates| - 1])
      case Ok(m') => m'
      case Err(_) => m
  }

  /** Counting front to back gives every counter its tally. */
  lemma {:induction false} TallyMapMeaning(tax: seq<Row>, plates: seq<string>)
    ensures forall c :: c in TallyMap(tax, plates) && TallyMap(tax, plates)[c] == Tally(tax, plates, c)
  {
    if plates != [] {
      TallyMapMeaning(tax, plates[..|plates| - 1]);
    }
  }

  /**
   * The counting loop of `get_user_diets` over the plates of one week: each plate's
   * food group is looked up and the first matching counter incremented.
   */
  method CountPlates(tax: seq<Row>, plates: seq<string>) returns (r: Result<Counts>)
    ensures r.Ok? <==> forall i :: 0 <= i < |plates| ==> Search(tax, plates[i]) != []
    ensures r.Err? ==> r.error.KeyError?
    ensures r.Ok? ==> forall c :: c in r.value.tally && r.value.tally[c] == Tally(tax, plates, c)
  {
    var counts := ZeroCounts.tally;
    var i := 0;
    while i < |plates|
      invariant 0 <= i <= |plates|
      invariant forall j :: 0 <= j < i ==> Search(tax, plates[j]) != []
      invariant counts == TallyMap(tax, plates[..i])
    {
      var next := CountPlate(counts, tax, plates[i]);
      if next.Err? {
        return Err(next.error);
      }
      assert plates[..i + 1][..i] == plates[..i];
      counts := next.value;
      i := i + 1;
    }
    assert plates[..i] == plates;
    TallyMapMeaning(tax, plates);
    r := Ok(Counts(counts));
  }
}
