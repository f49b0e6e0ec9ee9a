/**
 * Stable sorting by a comparator, as `Array.prototype.sort` does it (stability is
 * required since ES2019), and taking a prefix, as `slice(0, n)`.
 */
module Sorting {

  /** `le(a, b)` means "a may stay in front of b": a comparator returning <= 0. */
  ghost predicate IsTotalPreorder<T(!new)>(le: (T, T) -> bool) {
    && (forall a, b :: le(a, b) || le(b, a))
    && (forall a, b, c :: le(a, b) && le(b, c) ==> le(a, c))
  }

  ghost predicate SortedBy<T>(s: seq<T>, le: (T, T) -> bool) {
    forall i, j :: 0 <= i < j < |s| ==> le(s[i], s[j])
  }

  /**
   * Inserts `x`, which preceded every element of `s` in the input, in front of the
   * first element it may precede, so that equal elements keep their input order.
   */
  function Insert<T>(x: T, s: seq<T>, le: (T, T) -> bool): (r: seq<T>)
    ensures |r| == |s| + 1
    ensures multiset(r) == multiset(s) + multiset{x}
  {
    if s == [] || le(x, s[0]) then [x] + s
    else
      assert s == [s[0]] + s[1..];
      [s[0]] + Insert(x, s[1..], le)
  }

  /** Stable insertion sort. */
  function SortBy<T>(s: seq<T>, le: (T, T) -> bool): (r: seq<T>)
    ensures |r| == |s|
    ensures multiset(r) == multiset(s)
  {
    if s == [] then []
    else
      assert s == [s[0]] + s[1..];
      Insert(s[0], SortBy(s[1..], le), le)
  }

  lemma {:induction false} InsertSorted<T(!new)>(x: T, s: seq<T>, le: (T, T) -> bool)
    requires IsTotalPreorder(le)
    requires SortedBy(s, le)
    ensures SortedBy(Insert(x, s, le), le)
    decreases |s|
  {
    if s == [] || le(x, s[0]) {
      var r := [x] + s;
      forall i, j | 0 <= i < j < |r| ensures le(r[i], r[j]) {
        if i == 0 && j > 1 {
          assert le(s[0], s[j - 1]);
        }
      }
    } else {
      InsertSorted(x, s[1..], le);
      var rest := Insert(x, s[1..], le);
      var r := [s[0]] + rest;
      assert le(s[0], x);
      forall i, j | 0 <= i < j < |r| ensures le(r[i], r[j]) {
        if i == 0 {
          assert r[j] in multiset(rest);
          assert r[j] in multiset(s[1..]) + multiset{x};
          if r[j] != x {
            assert r[j] in s[1..];
            var k :| 0 <= k < |s[1..]| && s[1..][k] == r[j];
            assert le(s[0], s[k + 1]);
          }
        }
      }
    }
  }

  /** The result of SortBy is ordered by `le`. */
  lemma {:induction false} SortBySorted<T(!new)>(s: seq<T>, le: (T, T) -> bool)
    requires IsTotalPreorder(le)
    ensures SortedBy(SortBy(s, le), le)
    decreases |s|
  {
    if s != [] {
      SortBySorted(s[1..], le);
      InsertSorted(s[0], SortBy(s[1..], le), le);
    }
  }

  /** A comparator that never orders two elements apart leaves the sequence as it was. */
  lemma {:induction false} SortByAllEqual<T>(s: seq<T>, le: (T, T) -> bool)
    requires forall a, b :: le(a, b)
    ensures SortBy(s, le) == s
    decreases |s|
  {
    if s != [] {
      SortByAllEqual(s[1..], le);
      assert s == [s[0]] + s[1..];
    }
  }

  /** The elements of `s` that `le` cannot order apart from `e`, in their order in `s`. */
  function Equivalents<T>(s: seq<T>, e: T, le: (T, T) -> bool): seq<T> {
    if s == [] then []
    else (if le(s[0], e) && le(e, s[0]) then [s[0]] else []) + Equivalents(s[1..], e, le)
  }

  /** Inserting `x` keeps it in front of every element equivalent to it. */
  lemma {:induction false} InsertStable<T(!new)>(x: T, s: seq<T>, e: T, le: (T, T) -> bool)
    requires IsTotalPreorder(le)
    ensures Equivalents(Insert(x, s, le), e, le) == Equivalents([x] + s, e, le)
    decreases |s|
  {
    if s == [] || le(x, s[0]) {
      assert Insert(x, s, le) == [x] + s;
    } else {
      var y, rest := s[0], s[1..];
      InsertStable(x, rest, e, le);
      assert !(le(x, e) && le(e, y));
      var head := if le(y, e) && le(e, y) then [y] else [];
      var mid := if le(x, e) && le(e, x) then [x] else [];
      assert Equivalents(Insert(x, s, le), e, le) == head + Equivalents(Insert(x, rest, le), e, le) by {
        assert Insert(x, s, le) == [y] + Insert(x, rest, le);
        assert Insert(x, s, le)[1..] == Insert(x, rest, le);
      }
      assert Equivalents([x] + rest, e, le) == mid + Equivalents(rest, e, le) by {
        assert ([x] + rest)[1..] == rest;
      }
      assert Equivalents([x] + s, e, le) == mid + (head + Equivalents(rest, e, le)) by {
        assert ([x] + s)[1..] == s;
      }
    }
  }

  /**
   * SortBy is stable: the elements equivalent to any `e` come out in their input order,
   * as `Array.prototype.sort` guarantees.
   */
  lemma {:induction false} SortByStable<T(!new)>(s: seq<T>, e: T, le: (T, T) -> bool)
    requires IsTotalPreorder(le)
    ensures Equivalents(SortBy(s, le), e, le) == Equivalents(s, e, le)
    decreases |s|
  {
    if s != [] {
      SortByStable(s[1..], e, le);
      InsertStable(s[0], SortBy(s[1..], le), e, le);
      assert ([s[0]] + SortBy(s[1..], le))[1..] == SortBy(s[1..], le);
    }
  }

  /** The equivalents of a prefix are a prefix of the equivalents. */
  lemma {:induction false} EquivalentsPrefix<T>(t: seq<T>, s: seq<T>, e: T, le: (T, T) -> bool)
    requires t <= s
    ensures Equivalents(t, e, le) <= Equivalents(s, e, le)
    decreases |t|
  {
    if t != [] {
      assert t[0] == s[0];
      EquivalentsPrefix(t[1..], s[1..], e, le);
    }
  }

  /** `s.slice(0, n)`. */
  function Take<T>(s: seq<T>, n: nat): (r: seq<T>)
    ensures |r| == if n < |s| then n else |s|
    ensures r <= s
  {
    if n < |s| then s[..n] else s
  }
}
