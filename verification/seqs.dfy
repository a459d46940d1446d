/** Sequence vocabulary shared by the model: ranges, repetition, distinctness. */
module Seqs {

  /** Python's `list(range(lo, hi))`. */
  function Range(lo: int, hi: int): (r: seq<int>)
    ensures |r| == if lo < hi then hi - lo else 0
    ensures forall i :: 0 <= i < |r| ==> r[i] == lo + i
    decreases hi - lo
  {
    if lo >= hi then [] else [lo] + Range(lo + 1, hi)
  }

  /** Python's `lst * k`: `k` copies of `s` back to back (none when `k <= 0`). */
  function Repeat<T>(s: seq<T>, k: int): (r: seq<T>)
    decreases if k < 0 then 0 else k
  {
    if k <= 0 then [] else s + Repeat(s, k - 1)
  }

  /** No element occurs twice. */
  predicate Distinct<T(==)>(s: seq<T>) {
    forall p, q :: 0 <= p < q < |s| ==> s[p] != s[q]
  }

  /** The set of elements of `s`. */
  function Elems<T>(s: seq<T>): set<T> {
    set x | x in s
  }

  /** `x` falls in `[lo, hi)`. */
  predicate InRange(x: int, lo: int, hi: int) {
    lo <= x < hi
  }

  lemma {:induction false} RepeatLength<T>(s: seq<T>, k: nat)
    ensures |Repeat(s, k)| == k * |s|
  {
    if k > 0 {
      RepeatLength(s, k - 1);
      assert k * |s| == (k - 1) * |s| + |s|;
    }
  }

  lemma {:induction false} RepeatCount<T>(s: seq<T>, k: nat, x: T)
    ensures multiset(Repeat(s, k))[x] == k * multiset(s)[x]
  {
    if k > 0 {
      RepeatCount(s, k - 1, x);
      assert multiset(Repeat(s, k)) == multiset(s) + multiset(Repeat(s, k - 1));
      assert k * multiset(s)[x] == (k - 1) * multiset(s)[x] + multiset(s)[x];
    }
  }

  lemma {:induction false} RepeatElems<T>(s: seq<T>, k: int, x: T)
    ensures x in Repeat(s, k) <==> k > 0 && x in s
    decreases if k < 0 then 0 else k
  {
    if k > 0 {
      RepeatElems(s, k - 1, x);
    }
  }

  lemma {:induction false} RangeCount(lo: int, hi: int, x: int)
    ensures multiset(Range(lo, hi))[x] == if lo <= x < hi then 1 else 0
    decreases hi - lo
  {
    if lo < hi {
      RangeCount(lo + 1, hi, x);
      assert Range(lo, hi) == [lo] + Range(lo + 1, hi);
    }
  }

  lemma {:induction false} ElemsBound<T>(s: seq<T>)
    ensures |Elems(s)| <= |s|
    ensures Distinct(s) ==> |Elems(s)| == |s|
  {
    if s != [] {
      ElemsBound(s[1..]);
      assert Elems(s) == {s[0]} + Elems(s[1..]);
      if Distinct(s) {
        assert s[0] !in Elems(s[1..]);
      }
    }
  }

  lemma SubsetCard<T>(a: set<T>, b: set<T>)
    requires a <= b
    ensures |a| <= |b|
  {
    assert b == a + (b - a);
  }

  /** A set of integers drawn from `[lo, hi)` has at most `hi - lo` members. */
  lemma IntervalCard(a: set<int>, lo: int, hi: int)
    requires lo <= hi
    requires forall x :: x in a ==> lo <= x < hi
    ensures |a| <= hi - lo
  {
    assert a <= Elems(Range(lo, hi)) by {
      forall x | x in a ensures x in Elems(Range(lo, hi)) {
        assert Range(lo, hi)[x - lo] == x;
      }
    }
    SubsetCard(a, Elems(Range(lo, hi)));
    ElemsBound(Range(lo, hi));
  }

  /** `ok(xs[i], ys[i], zs[i])` holds at every position `i` of `ys`, which runs along a prefix of `xs`. */
  predicate Pointwise<A, B, C>(ok: (A, B, C) -> bool, xs: seq<A>, ys: seq<B>, zs: seq<C>) {
    |ys| == |zs| <= |xs| &&
    (ys != [] ==>
       var n := |ys| - 1;
       Pointwise(ok, xs, ys[..n], zs[..n]) && ok(xs[n], ys[n], zs[n]))
  }

  /** The relation holds at each position of a pointwise run. */
  lemma {:induction false} PointwiseAt<A, B, C>(ok: (A, B, C) -> bool, xs: seq<A>, ys: seq<B>, zs: seq<C>, i: nat)
    requires Pointwise(ok, xs, ys, zs) && i < |ys|
    ensures ok(xs[i], ys[i], zs[i])
  {
    var n := |ys| - 1;
    if i < n {
      PointwiseAt(ok, xs, ys[..n], zs[..n], i);
      assert ys[..n][i] == ys[i] && zs[..n][i] == zs[i];
    }
  }

  /** A pointwise run extends by one position where the relation holds. */
  lemma PointwiseSnoc<A, B, C>(ok: (A, B, C) -> bool, xs: seq<A>, ys: seq<B>, zs: seq<C>, y: B, z: C)
    requires Pointwise(ok, xs, ys, zs) && |ys| < |xs| && ok(xs[|ys|], y, z)
    ensures Pointwise(ok, xs, ys + [y], zs + [z])
  {
    assert (ys + [y])[..|ys|] == ys && (zs + [z])[..|zs|] == zs;
  }

  /** Overwriting the first element after a prefix `done` moves the new value into the prefix. */
  lemma UpdateAfterPrefix<T>(xs: seq<T>, done: seq<T>, rest: seq<T>, x: T)
    requires xs == done + rest && rest != []
    ensures xs[|done| := x] == (done + [x]) + rest[1..]
  {
  }
}
