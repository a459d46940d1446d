/**
 * `select_values_from_n_freq` (src/utils.py): the index-selection policy that picks
 * taxonomy rows, days of the week and meals of the day.
 */
module Selection {
  import opened Wrappers
  import opened Seqs
  import opened Random

  /** `random.sample` raises ValueError unless `0 <= freq <= len(range(1, num + sum))`; the other branch never fails. */
  predicate Defined(num: int, freq: int, sum: int) {
    freq >= num || 0 <= freq <= |Range(1, num + sum)|
  }

  /** The number of whole copies of the range in an oversubscribed selection. */
  function Times(num: int, freq: int): int
    requires num >= 1
  {
    freq / num
  }

  /** The rounds of `range(sum, num + sum)` an oversubscribed selection starts with. */
  function Base(num: int, freq: int, sum: int): seq<int>
    requires num >= 1
  {
    Repeat(Range(sum, num + sum), Times(num, freq))
  }

  /**
   * The lists `select_values_from_n_freq(num, freq, sum)` can return:
   * with `freq >= num`, `freq / num` whole rounds of `range(sum, num + sum)` followed by
   * `freq % num` distinct values of that range; otherwise `freq` distinct values of
   * `range(1, num + sum)`.
   */
  predicate IsSelection(num: int, freq: int, sum: int, r: seq<int>)
    requires num >= 1
  {
    if freq >= num then
      var b := Base(num, freq, sum);
      |b| <= |r| && r[..|b|] == b && |r| - |b| == freq % num
      && Distinct(r[|b|..]) && (forall i :: |b| <= i < |r| ==> sum <= r[i] < num + sum)
    else
      |r| == freq && Distinct(r) && (forall i :: 0 <= i < |r| ==> 1 <= r[i] < num + sum)
  }

  /** The draw: `Err(ValueError)` exactly when `random.sample` would reject its count. */
  method SelectValuesFromNFreq(rng: Rng, num: int, freq: int, sum: int) returns (r: Result<seq<int>>)
    requires num >= 1
    modifies rng
    ensures r.Ok? <==> Defined(num, freq, sum)
    ensures r.Ok? ==> IsSelection(num, freq, sum, r.value)
    ensures r.Err? ==> r.error.ValueError?
  {
    if freq >= num {
      var times := freq / num;
      var rest := freq % num;
      var rounds := Repeat(Range(sum, num + sum), times);
      var extra := rng.Sample(sum, num + sum, rest);
      assert (rounds + extra)[..|rounds|] == rounds;
      assert (rounds + extra)[|rounds|..] == extra;
      r := Ok(rounds + extra);
    } else if freq < 0 || freq > |Range(1, num + sum)| {
      r := Err(ValueError("Sample larger than population or is negative"));
    } else {
      var s := rng.Sample(1, num + sum, freq);
      r := Ok(s);
    }
  }

  /** A selection always has exactly `freq` values. */
  lemma {:induction false} SelectionLength(num: int, freq: int, sum: int, r: seq<int>)
    requires num >= 1 && IsSelection(num, freq, sum, r)
    ensures |r| == freq
  {
    if freq >= num {
      RepeatLength(Range(sum, num + sum), Times(num, freq));
      assert |Base(num, freq, sum)| == freq / num * num;
    }
  }

  /** How often `x` occurs in the whole rounds of an oversubscribed selection. */
  lemma BaseCount(num: int, freq: int, sum: int, x: int)
    requires 1 <= num <= freq
    ensures multiset(Base(num, freq, sum))[x] == if sum <= x < num + sum then freq / num else 0
  {
    var k := freq / num;
    RepeatCount(Range(sum, num + sum), k, x);
    RangeCount(sum, num + sum, x);
    if sum <= x < num + sum {
      assert k * 1 == k;
    } else {
      assert k * 0 == 0;
    }
  }

  /**
   * Oversubscribed: every value of `range(sum, num + sum)` occurs `freq / num` times,
   * plus once more exactly when it is one of the extra draws; nothing else occurs.
   */
  lemma {:induction false} SelectionCounts(num: int, freq: int, sum: int, r: seq<int>, x: int)
    requires 1 <= num <= freq && IsSelection(num, freq, sum, r)
    ensures sum <= x < num + sum ==>
      multiset(r)[x] == freq / num + (if x in r[|Base(num, freq, sum)|..] then 1 else 0)
    ensures !(sum <= x < num + sum) ==> multiset(r)[x] == 0
  {
    var b := Base(num, freq, sum);
    var extra := r[|b|..];
    assert r == b + extra;
    BaseCount(num, freq, sum, x);
    DistinctCount(extra, x);
    if x in extra {
      var i :| 0 <= i < |extra| && extra[i] == x;
      assert r[|b| + i] == x;
    }
  }

  /** A value occurs at most once in a list without repetitions. */
  lemma {:induction false} DistinctCount(s: seq<int>, x: int)
    requires Distinct(s)
    ensures multiset(s)[x] == if x in s then 1 else 0
  {
    if s != [] {
      DistinctCount(s[1..], x);
      assert s == [s[0]] + s[1..];
      assert s[0] !in s[1..];
    }
  }

  /** The values of `range(sum, num + sum)` that received the extra copy. */
  function Extras(num: int, freq: int, sum: int, r: seq<int>): set<int>
    requires num >= 1
  {
    set x | sum <= x < num + sum && multiset(r)[x] == freq / num + 1
  }

  /** Oversubscribed: exactly `freq % num` values get `freq / num + 1` copies, the others `freq / num`. */
  lemma {:induction false} SelectionExtras(num: int, freq: int, sum: int, r: seq<int>)
    requires 1 <= num <= freq && IsSelection(num, freq, sum, r)
    ensures |Extras(num, freq, sum, r)| == freq % num
    ensures forall x :: sum <= x < num + sum ==>
      multiset(r)[x] == freq / num || multiset(r)[x] == freq / num + 1
  {
    var extra := r[|Base(num, freq, sum)|..];
    forall x | sum <= x < num + sum
      ensures multiset(r)[x] == freq / num || multiset(r)[x] == freq / num + 1
    {
      SelectionCounts(num, freq, sum, r, x);
    }
    assert Extras(num, freq, sum, r) == Elems(extra) by {
      forall x ensures x in Extras(num, freq, sum, r) <==> x in Elems(extra) {
        SelectionCounts(num, freq, sum, r, x);
        if x in extra {
          var i :| 0 <= i < |extra| && extra[i] == x;
          assert r[|Base(num, freq, sum)| + i] == x;
        }
      }
    }
    ElemsBound(extra);
  }

  /**
   * Undersubscribed: the values are pairwise distinct and drawn from `[1, num + sum - 1]`,
   * whatever `sum` is; with `sum == 0` the value 0 never occurs.
   */
  lemma SelectionUnder(num: int, freq: int, sum: int, r: seq<int>)
    requires 1 <= num && freq < num && IsSelection(num, freq, sum, r)
    ensures |r| == freq && Distinct(r)
    ensures forall i :: 0 <= i < |r| ==> 1 <= r[i] <= num + sum - 1
    ensures sum == 0 ==> 0 !in r
  {
  }

  /**
   * With `sum` 0 or 1 (row indices and day or meal numbers) every selected value lies in
   * `[sum, num + sum)`: a valid row index, or a valid 1-based day or meal number.
   */
  lemma {:induction false} SelectionBounds(num: int, freq: int, sum: int, r: seq<int>)
    requires 1 <= num && 0 <= sum <= 1 && IsSelection(num, freq, sum, r)
    ensures forall i :: 0 <= i < |r| ==> sum <= r[i] < num + sum
  {
    if freq >= num {
      var b := Base(num, freq, sum);
      forall i | 0 <= i < |r| ensures sum <= r[i] < num + sum {
        if i < |b| {
          assert r[i] == b[i];
          RepeatElems(Range(sum, num + sum), Times(num, freq), r[i]);
          var j :| 0 <= j < |Range(sum, num + sum)| && Range(sum, num + sum)[j] == r[i];
        }
      }
    }
  }

  /** At most `min(freq, num)` different values are selected (`freq >= 0`). */
  lemma {:induction false} SelectionSpread(num: int, freq: int, sum: int, r: seq<int>)
    requires 1 <= num && 0 <= sum <= 1 && IsSelection(num, freq, sum, r)
    ensures |Elems(r)| <= freq && |Elems(r)| <= num
  {
    SelectionLength(num, freq, sum, r);
    SelectionBounds(num, freq, sum, r);
    ElemsBound(r);
    IntervalCard(Elems(r), sum, num + sum);
  }
}
