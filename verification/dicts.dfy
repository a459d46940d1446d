/**
 * Python's insertion-ordered dictionaries (`collections.OrderedDict` and `dict`) as
 * sequences of key/value pairs: lookup, `d[k] = v`, `del d[k]` and `d.pop(k)`.
 */
module Dicts {
  import opened Wrappers

  /** No key occurs twice: the representation invariant of a dictionary. */
  predicate DistinctKeys<K(==), V>(d: seq<(K, V)>) {
    forall i, j :: 0 <= i < j < |d| ==> d[i].0 != d[j].0
  }

  /** The position of key `k`, if present. */
  function Find<K(==), V>(d: seq<(K, V)>, k: K): (r: Option<nat>)
    ensures r.Some? ==> r.value < |d| && d[r.value].0 == k
    ensures r.Some? ==> forall i :: 0 <= i < r.value ==> d[i].0 != k
    ensures r.None? ==> forall i :: 0 <= i < |d| ==> d[i].0 != k
  {
    if d == [] then None
    else if d[0].0 == k then Some(0)
    else match Find(d[1..], k)
      case None => None
      case Some(i) => Some(i + 1)
  }

  /** In a dictionary the entry holding `k` is the one `Find` returns. */
  lemma FindUnique<K, V>(d: seq<(K, V)>, i: nat)
    requires DistinctKeys(d) && i < |d|
    ensures Find(d, d[i].0) == Some(i)
  {
  }

  /** `d[k] = v`: an existing key keeps its place and takes the new value; a new key goes last. */
  function Assign<K(==), V>(d: seq<(K, V)>, k: K, v: V): (r: seq<(K, V)>)
    ensures DistinctKeys(d) ==> DistinctKeys(r)
    ensures Find(d, k).None? ==> r == d + [(k, v)]
    ensures Find(d, k).Some? ==> r == d[Find(d, k).value := (k, v)]
  {
    match Find(d, k)
    case None => d + [(k, v)]
    case Some(i) => d[i := (k, v)]
  }

  /** `del d[k]` for a present key: the entry goes, the others keep their order. */
  function Del<K(==), V>(d: seq<(K, V)>, k: K): (r: seq<(K, V)>)
    requires Find(d, k).Some?
    ensures |r| == |d| - 1
    ensures DistinctKeys(d) ==> DistinctKeys(r) && Find(r, k).None?
  {
    var i := Find(d, k).value;
    d[..i] + d[i + 1..]
  }

  /** `d[to] = d.pop(from)`: the entry of `from` leaves its place and comes back under `to`. */
  function Rekey<K(==), V>(d: seq<(K, V)>, from: K, to: K): seq<(K, V)>
    requires Find(d, from).Some?
  {
    Assign(Del(d, from), to, d[Find(d, from).value].1)
  }

  /** Re-keying the entry at position `i` to a key no other entry holds moves it to the end. */
  lemma RekeyAt<K, V>(d: seq<(K, V)>, from: K, to: K, i: nat)
    requires Find(d, from) == Some(i)
    requires forall e :: e in d[..i] + d[i + 1..] ==> e.0 != to
    ensures Rekey(d, from, to) == d[..i] + d[i + 1..] + [(to, d[i].1)]
  {
    var rest := d[..i] + d[i + 1..];
    assert Del(d, from) == rest;
    assert forall k :: 0 <= k < |rest| ==> rest[k] in rest;
  }

  /** The entries whose value satisfies `keep`, in their order. */
  function FilterValues<K, V>(d: seq<(K, V)>, keep: V -> bool): seq<(K, V)> {
    if d == [] then []
    else
      var n := |d| - 1;
      FilterValues(d[..n], keep) + (if keep(d[n].1) then [d[n]] else [])
  }

  /** An entry survives the filter exactly when its value satisfies `keep`. */
  lemma {:induction false} FilterMembers<K, V>(d: seq<(K, V)>, keep: V -> bool, e: (K, V))
    ensures e in FilterValues(d, keep) <==> e in d && keep(e.1)
  {
    if d != [] {
      var n := |d| - 1;
      FilterMembers(d[..n], keep, e);
      assert d == d[..n] + [d[n]];
    }
  }

  /** Filtering keeps a dictionary a dictionary. */
  lemma {:induction false} FilterDistinct<K, V>(d: seq<(K, V)>, keep: V -> bool)
    requires DistinctKeys(d)
    ensures DistinctKeys(FilterValues(d, keep))
  {
    if d != [] {
      var n := |d| - 1;
      FilterDistinct(d[..n], keep);
      forall e | e in FilterValues(d[..n], keep) ensures e.0 != d[n].0 {
        FilterMembers(d[..n], keep, e);
        var i :| 0 <= i < n && d[..n][i] == e;
      }
    }
  }

  /** Filtering never lengthens. */
  lemma {:induction false} FilterLength<K, V>(d: seq<(K, V)>, keep: V -> bool)
    ensures |FilterValues(d, keep)| <= |d|
  {
    if d != [] {
      FilterLength(d[..|d| - 1], keep);
    }
  }

  lemma FilterSnoc<K, V>(d: seq<(K, V)>, keep: V -> bool, j: nat)
    requires j < |d|
    ensures FilterValues(d[..j + 1], keep) == FilterValues(d[..j], keep) + (if keep(d[j].1) then [d[j]] else [])
  {
    assert d[..j + 1][..j] == d[..j];
  }

  /** Looking up the first key after a block of other keys finds it right after the block. */
  lemma FindAfter<K, V>(kept: seq<(K, V)>, rest: seq<(K, V)>, k: K)
    requires forall e :: e in kept ==> e.0 != k
    requires rest != [] && rest[0].0 == k
    ensures Find(kept + rest, k) == Some(|kept|)
  {
    var d := kept + rest;
    assert d[|kept|].0 == k;
    assert forall i :: 0 <= i < |kept| ==> d[i] in kept;
  }

  /** Deleting that key leaves the block and the rest after it. */
  lemma DelAfter<K, V>(kept: seq<(K, V)>, rest: seq<(K, V)>, k: K)
    requires rest != [] && Find(kept + rest, k) == Some(|kept|)
    ensures Del(kept + rest, k) == kept + rest[1..]
  {
    var d := kept + rest;
    assert d[..|kept|] == kept;
    assert d[|kept| + 1..] == rest[1..];
  }

  /**
   * One iteration of "for key in list(d.keys()): if not keep(d[key]): del d[key]" on the
   * state reached after the first `j` keys of the snapshot `s`.
   */
  lemma FilterStep<K, V>(s: seq<(K, V)>, keep: V -> bool, j: nat)
    requires DistinctKeys(s) && j < |s|
    ensures var cur := FilterValues(s[..j], keep) + s[j..];
      Find(cur, s[j].0) == Some(|FilterValues(s[..j], keep)|) && cur[|FilterValues(s[..j], keep)|] == s[j] &&
      (!keep(s[j].1) ==> Del(cur, s[j].0) == FilterValues(s[..j + 1], keep) + s[j + 1..]) &&
      (keep(s[j].1) ==> cur == FilterValues(s[..j + 1], keep) + s[j + 1..])
  {
    var kept := FilterValues(s[..j], keep);
    forall e | e in kept ensures e.0 != s[j].0 {
      FilterMembers(s[..j], keep, e);
      var q :| 0 <= q < j && s[..j][q] == e;
    }
    FindAfter(kept, s[j..], s[j].0);
    FilterSnoc(s, keep, j);
    assert s[j..][1..] == s[j + 1..];
    if !keep(s[j].1) {
      DelAfter(kept, s[j..], s[j].0);
    } else {
      assert kept + s[j..] == (kept + [s[j]]) + s[j + 1..];
    }
  }
}
