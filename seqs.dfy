/** Generic sequence builders for loops that append one value per step, and their index lemmas. */
module Seqs {

  /** `[f(0), .., f(m-1)]`, built by appending one value at a time. */
  function Tabulate<T>(f: nat -> T, m: nat): (r: seq<T>)
    ensures |r| == m
  {
    if m == 0 then [] else Tabulate(f, m - 1) + [f(m - 1)]
  }

  lemma {:induction false} TabulateAt<T>(f: nat -> T, m: nat, k: nat)
    requires k < m
    ensures Tabulate(f, m)[k] == f(k)
  {
    if k < m - 1 {
      TabulateAt(f, m - 1, k);
    }
  }

  /** The values `make(x)` of the elements `x` among the first `n` of `xs` that satisfy `keep`, in order. */
  function KeepIf<T, U>(xs: seq<T>, keep: T -> bool, make: T -> U, n: nat): (r: seq<U>)
    requires n <= |xs|
    ensures |r| <= n
  {
    if n == 0 then []
    else KeepIf(xs, keep, make, n - 1) + (if keep(xs[n - 1]) then [make(xs[n - 1])] else [])
  }

  /** Everything kept comes from an element that satisfies `keep`. */
  lemma {:induction false} KeepIfSound<T, U>(xs: seq<T>, keep: T -> bool, make: T -> U, n: nat, y: U)
    requires n <= |xs| && y in KeepIf(xs, keep, make, n)
    ensures exists i :: 0 <= i < n && keep(xs[i]) && y == make(xs[i])
  {
    var last := if keep(xs[n - 1]) then [make(xs[n - 1])] else [];
    if y !in last {
      KeepIfSound(xs, keep, make, n - 1, y);
    }
  }

  /** When every element satisfies `keep`, nothing is dropped. */
  lemma {:induction false} KeepIfAll<T, U>(xs: seq<T>, keep: T -> bool, make: T -> U, n: nat)
    requires n <= |xs|
    requires forall i :: 0 <= i < n ==> keep(xs[i])
    ensures |KeepIf(xs, keep, make, n)| == n
  {
    if n > 0 {
      KeepIfAll(xs, keep, make, n - 1);
    }
  }

  /** Every element that satisfies `keep` has its value kept. */
  lemma {:induction false} KeepIfComplete<T, U>(xs: seq<T>, keep: T -> bool, make: T -> U, n: nat, i: nat)
    requires i < n <= |xs| && keep(xs[i])
    ensures make(xs[i]) in KeepIf(xs, keep, make, n)
  {
    if i < n - 1 {
      KeepIfComplete(xs, keep, make, n - 1, i);
    }
  }

  /** Values whose keys grow with the position of their element stay in increasing key order. */
  lemma {:induction false} KeepIfOrdered<T, U>(xs: seq<T>, keep: T -> bool, make: T -> U, n: nat, key: U -> int)
    requires n <= |xs|
    requires forall i, j :: 0 <= i < j < n ==> key(make(xs[i])) < key(make(xs[j]))
    ensures forall a, b :: 0 <= a < b < |KeepIf(xs, keep, make, n)| ==>
              key(KeepIf(xs, keep, make, n)[a]) < key(KeepIf(xs, keep, make, n)[b])
  {
    if n > 0 {
      var init := KeepIf(xs, keep, make, n - 1);
      KeepIfOrdered(xs, keep, make, n - 1, key);
      if keep(xs[n - 1]) {
        var r := KeepIf(xs, keep, make, n);
        forall a, b | 0 <= a < b < |r| ensures key(r[a]) < key(r[b]) {
          if b == |init| {
            assert r[a] == init[a] && r[b] == make(xs[n - 1]);
            KeepIfSound(xs, keep, make, n - 1, init[a]);
            var i :| 0 <= i < n - 1 && keep(xs[i]) && init[a] == make(xs[i]);
            assert key(make(xs[i])) < key(make(xs[n - 1]));
          } else {
            assert r[a] == init[a] && r[b] == init[b];
          }
        }
      } else {
        assert KeepIf(xs, keep, make, n) == init;
      }
    }
  }

  /** `idx` picks the elements of `a` out of `b`, at strictly increasing positions. */
  ghost predicate Embedding<T>(idx: seq<nat>, a: seq<T>, b: seq<T>) {
    && |idx| == |a|
    && (forall k :: 0 <= k < |idx| ==> idx[k] < |b| && a[k] == b[idx[k]])
    && (forall k, l :: 0 <= k < l < |idx| ==> idx[k] < idx[l])
  }

  /** `a` is `b` with some elements left out and the rest in their original order. */
  ghost predicate SubsequenceOf<T>(a: seq<T>, b: seq<T>) {
    exists idx :: Embedding(idx, a, b)
  }

  /** The positions, below n and strictly increasing, of the elements whose values are kept. */
  lemma {:induction false} KeepIfPositions<T, U>(xs: seq<T>, keep: T -> bool, make: T -> U, n: nat)
    returns (idx: seq<nat>)
    requires n <= |xs|
    ensures |idx| == |KeepIf(xs, keep, make, n)|
    ensures forall k :: 0 <= k < |idx| ==>
              idx[k] < n && keep(xs[idx[k]]) && KeepIf(xs, keep, make, n)[k] == make(xs[idx[k]])
    ensures forall k, l :: 0 <= k < l < |idx| ==> idx[k] < idx[l]
  {
    if n == 0 {
      idx := [];
    } else {
      var prev := KeepIfPositions(xs, keep, make, n - 1);
      var kept := KeepIf(xs, keep, make, n - 1);
      if keep(xs[n - 1]) {
        idx := prev + [n - 1];
        assert KeepIf(xs, keep, make, n) == kept + [make(xs[n - 1])];
        forall k | 0 <= k < |idx|
          ensures idx[k] < n && keep(xs[idx[k]]) && KeepIf(xs, keep, make, n)[k] == make(xs[idx[k]])
        {
          if k < |prev| {
            assert idx[k] == prev[k] && KeepIf(xs, keep, make, n)[k] == kept[k];
          }
        }
      } else {
        idx := prev;
        assert KeepIf(xs, keep, make, n) == kept;
      }
    }
  }

  /** A filter that keeps the elements themselves yields a subsequence of its input. */
  lemma KeepIfSubsequence<T>(xs: seq<T>, keep: T -> bool, make: T -> T)
    requires forall x :: make(x) == x
    ensures SubsequenceOf(KeepIf(xs, keep, make, |xs|), xs)
  {
    var idx := KeepIfPositions(xs, keep, make, |xs|);
    assert Embedding(idx, KeepIf(xs, keep, make, |xs|), xs);
  }

  /** Every sequence is a subsequence of itself. */
  lemma SubsequenceOfSelf<T>(xs: seq<T>)
    ensures SubsequenceOf(xs, xs)
  {
    var idx: seq<nat> := seq(|xs|, k requires 0 <= k < |xs| => k);
    assert Embedding(idx, xs, xs);
  }

  /** Keeping the elements themselves, when every element passes, returns the input. */
  lemma {:induction false} KeepIfIdentity<T>(xs: seq<T>, keep: T -> bool, make: T -> T, n: nat)
    requires n <= |xs|
    requires forall x :: make(x) == x
    requires forall i :: 0 <= i < n ==> keep(xs[i])
    ensures KeepIf(xs, keep, make, n) == xs[..n]
  {
    if n > 0 {
      KeepIfIdentity(xs, keep, make, n - 1);
      assert xs[..n] == xs[..n - 1] + [xs[n - 1]];
    }
  }

  /** `f(xs[0]) + .. + f(xs[n-1])`, the `reduce((sum, x) => sum + f(x), 0)` over the first n elements. */
  function Total<T>(xs: seq<T>, f: T -> real, n: nat): real
    requires n <= |xs|
  {
    if n == 0 then 0.0 else Total(xs, f, n - 1) + f(xs[n - 1])
  }

  /** A sum of n terms, each between `lo` and `hi`, lies between `n * lo` and `n * hi`. */
  lemma {:induction false} TotalBounds<T>(xs: seq<T>, f: T -> real, n: nat, lo: real, hi: real)
    requires n <= |xs|
    requires forall i :: 0 <= i < n ==> lo <= f(xs[i]) <= hi
    ensures n as real * lo <= Total(xs, f, n) <= n as real * hi
  {
    if n > 0 {
      TotalBounds(xs, f, n - 1, lo, hi);
    }
  }
}
