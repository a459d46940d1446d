/**
 * The process-wide random source of the modelled program, made an explicit handle.
 * Every method promises only the support of the corresponding Python call
 * (`random.randint`, `random.sample`, `random.shuffle`, `random.choice`);
 * no caller's proof depends on how a value is picked inside that support.
 */
module Random {
  import opened Seqs

  class Rng {
    var state: nat

    constructor (seed: nat)
      ensures state == seed
    {
      state := seed;
    }

    /** One step of a linear congruential generator. */
    method Next() returns (x: nat)
      modifies this
    {
      state := (state * 1103515245 + 12345) % 2147483648;
      x := state;
    }

    /** `random.randint(lo, hi)`: an integer of `[lo, hi]`, both ends included. */
    method RandInt(lo: int, hi: int) returns (r: int)
      requires lo <= hi
      modifies this
      ensures lo <= r <= hi
    {
      var x := Next();
      r := lo + x % (hi - lo + 1);
    }

    /**
     * `random.sample(range(lo, hi), k)`: `k` distinct integers of `[lo, hi)`; Python accepts any
     * `k` up to the length of the range, so `k == 0` on an empty range too.
     */
    method Sample(lo: int, hi: int, k: nat) returns (s: seq<int>)
      requires k <= |Range(lo, hi)|
      modifies this
      ensures |s| == k
      ensures Distinct(s)
      ensures forall i :: 0 <= i < |s| ==> lo <= s[i] < hi
    {
      var pool := Range(lo, hi);
      s := [];
      while |s| < k
        invariant |s| <= k && |s| + |pool| == |Range(lo, hi)|
        invariant Distinct(s) && Distinct(pool)
        invariant forall i :: 0 <= i < |s| ==> lo <= s[i] < hi
        invariant forall i :: 0 <= i < |pool| ==> lo <= pool[i] < hi
        invariant forall i, j :: 0 <= i < |s| && 0 <= j < |pool| ==> s[i] != pool[j]
        decreases k - |s|
      {
        var j := RandInt(0, |pool| - 1);
        s := s + [pool[j]];
        pool := pool[..j] + pool[j + 1..];
      }
    }

    /** `random.choice(s)`: one element of a non-empty list. */
    method Choice<T>(s: seq<T>) returns (x: T)
      requires s != []
      modifies this
      ensures x in s
    {
      var j := RandInt(0, |s| - 1);
      x := s[j];
    }

    /** `random.shuffle(s)`: a permutation of `s`. */
    method Shuffle<T>(s: seq<T>) returns (t: seq<T>)
      modifies this
      ensures multiset(t) == multiset(s)
    {
      var rest := s;
      t := [];
      while rest != []
        invariant multiset(t) + multiset(rest) == multiset(s)
        decreases |rest|
      {
        var j := RandInt(0, |rest| - 1);
        t := t + [rest[j]];
        assert rest == rest[..j] + [rest[j]] + rest[j + 1..];
        rest := rest[..j] + rest[j + 1..];
      }
    }
  }
}
