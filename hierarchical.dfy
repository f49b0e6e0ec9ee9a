/**
 * `performHierarchical` of server/controllers/clustering.controller.js: agglomerative
 * clustering that starts with one cluster per point and, while there are more than `k`
 * clusters, merges the two whose centroids are closest.
 */
module Hierarchical {
  import opened Vectors

  /** `{ points, centroid }`: the indices of the member points and their centroid. */
  datatype Cluster = Cluster(members: seq<nat>, centroid: Vector)

  /** A pair of cluster slots `[i, j]` with `i < j`. */
  datatype Pair = Pair(i: nat, j: nat)

  /** The clusters' centroids, in cluster order. */
  function Centroids(clusters: seq<Cluster>): (cs: seq<Vector>)
    ensures |cs| == |clusters|
    ensures forall c :: 0 <= c < |clusters| ==> cs[c] == clusters[c].centroid
  {
    seq(|clusters|, c requires 0 <= c < |clusters| => clusters[c].centroid)
  }

  /** `mergedPoints.map(idx => points[idx])`. */
  function Gather(points: seq<Vector>, ms: seq<nat>): (r: seq<Vector>)
    requires forall t :: 0 <= t < |ms| ==> ms[t] < |points|
    ensures |r| == |ms|
    ensures forall t :: 0 <= t < |ms| ==> r[t] == points[ms[t]]
    ensures forall v :: v in r ==> v in points
  {
    seq(|ms|, t requires 0 <= t < |ms| => points[ms[t]])
  }

  /**
   * The clusters of a run over `points`: every cluster has members, every member is a
   * point index, and every centroid has the points' dimension.
   */
  predicate Valid(points: seq<Vector>, dim: nat, clusters: seq<Cluster>) {
    && Uniform(points, dim)
    && (forall c :: 0 <= c < |clusters| ==> |clusters[c].members| >= 1 && |clusters[c].centroid| == dim)
    && (forall c, t :: 0 <= c < |clusters| && 0 <= t < |clusters[c].members| ==> clusters[c].members[t] < |points|)
  }

  /** `points.map((point, i) => ({ points: [i], centroid: [...point] }))`. */
  function Singletons(points: seq<Vector>): (r: seq<Cluster>)
    ensures |r| == |points|
  {
    seq(|points|, i requires 0 <= i < |points| => Cluster([i], points[i]))
  }

  lemma SingletonsValid(points: seq<Vector>, dim: nat)
    requires Uniform(points, dim)
    ensures Valid(points, dim, Singletons(points))
  {
  }

  // ---------------------------------------------------------------------------
  // The closest pair, first in scan order
  // ---------------------------------------------------------------------------

  /** The squared distance between slots `a` and `b` of the centroid list. */
  function Dist(cs: seq<Vector>, a: nat, b: nat): real
    requires a < |cs| && b < |cs| && |cs[a]| == |cs[b]|
  {
    SqDist(cs[a], cs[b])
  }

  /** Scan order of the pair loops: row `a` before row `p.i`, or the same row and an earlier column. */
  predicate Before(a: int, b: int, p: Pair) {
    a < p.i || (a == p.i && b < p.j)
  }

  /**
   * The column the inner loop of row `i` settles on among `i+1 .. m-1`: a column at minimal
   * distance, and the first of those, since only a strictly smaller distance wins.
   */
  function RowBest(cs: seq<Vector>, dim: nat, i: nat, m: nat): (j: nat)
    requires Uniform(cs, dim) && i + 1 < m <= |cs|
    ensures i < j < m
  {
    if m == i + 2 then i + 1
    else
      var b := RowBest(cs, dim, i, m - 1);
      if Dist(cs, i, m - 1) < Dist(cs, i, b) then m - 1 else b
  }

  /** Row `i`'s column is at minimal distance among `i+1 .. m-1`. */
  lemma {:induction false} RowBestMinimal(cs: seq<Vector>, dim: nat, i: nat, m: nat)
    requires Uniform(cs, dim) && i + 1 < m <= |cs|
    ensures var j := RowBest(cs, dim, i, m);
            forall b :: i < b < m ==> Dist(cs, i, j) <= Dist(cs, i, b)
  {
    if m > i + 2 {
      RowBestMinimal(cs, dim, i, m - 1);
    }
  }

  /** Row `i`'s column is strictly closer than every earlier column of the row. */
  lemma {:induction false} RowBestFirst(cs: seq<Vector>, dim: nat, i: nat, m: nat)
    requires Uniform(cs, dim) && i + 1 < m <= |cs|
    ensures var j := RowBest(cs, dim, i, m);
            forall b :: i < b < j ==> Dist(cs, i, b) > Dist(cs, i, j)
  {
    if m > i + 2 {
      RowBestMinimal(cs, dim, i, m - 1);
      RowBestFirst(cs, dim, i, m - 1);
    }
  }

  /** The pair the two loops settle on after rows `0 .. r-1`. */
  function BestPair(cs: seq<Vector>, dim: nat, r: nat): (p: Pair)
    requires Uniform(cs, dim) && 1 <= r < |cs|
    ensures p.i < r && p.i < p.j < |cs|
  {
    var j := RowBest(cs, dim, r - 1, |cs|);
    if r == 1 then Pair(0, j)
    else
      var p := BestPair(cs, dim, r - 1);
      if Dist(cs, r - 1, j) < Dist(cs, p.i, p.j) then Pair(r - 1, j) else p
  }

  /** No pair in rows `0 .. r-1` is closer than `p`. */
  predicate MinimalInRows(cs: seq<Vector>, dim: nat, r: nat, p: Pair)
    requires Uniform(cs, dim) && p.i < p.j < |cs|
  {
    forall a, b :: 0 <= a < r && a < b < |cs| ==> Dist(cs, p.i, p.j) <= Dist(cs, a, b)
  }

  /** Every pair before `p` in scan order is strictly farther apart. */
  predicate FirstInScan(cs: seq<Vector>, dim: nat, p: Pair)
    requires Uniform(cs, dim) && p.i < p.j < |cs|
  {
    forall a, b :: 0 <= a < b < |cs| && Before(a, b, p) ==> Dist(cs, a, b) > Dist(cs, p.i, p.j)
  }

  /** After rows `0 .. r-1` the loops hold a pair at minimal distance among those rows. */
  lemma {:induction false} BestPairMinimal(cs: seq<Vector>, dim: nat, r: nat)
    requires Uniform(cs, dim) && 1 <= r < |cs|
    ensures MinimalInRows(cs, dim, r, BestPair(cs, dim, r))
  {
    var q := BestPair(cs, dim, r);
    var j := RowBest(cs, dim, r - 1, |cs|);
    var p := if r == 1 then q else BestPair(cs, dim, r - 1);
    if r > 1 {
      BestPairMinimal(cs, dim, r - 1);
    }
    RowBestMinimal(cs, dim, r - 1, |cs|);
    BestPairStep(cs, dim, r, p, q, j);
    MinimalStep(cs, dim, r - 1, p, q, j);
  }

  /**
   * Row `r-1` either keeps the pair `p` held so far or replaces it by its own closest pair
   * `(r-1, j)` when that one is strictly closer.
   */
  lemma BestPairStep(cs: seq<Vector>, dim: nat, r: nat, p: Pair, q: Pair, j: nat)
    requires Uniform(cs, dim) && 1 <= r < |cs|
    requires q == BestPair(cs, dim, r) && j == RowBest(cs, dim, r - 1, |cs|)
    requires p == if r == 1 then q else BestPair(cs, dim, r - 1)
    ensures Dist(cs, q.i, q.j) <= Dist(cs, p.i, p.j)
    ensures Dist(cs, q.i, q.j) <= Dist(cs, r - 1, j)
  {
  }

  /**
   * `q` is no farther apart than `p`, minimal over rows `0 .. i-1`, nor than row `i`'s
   * closest pair `(i, j)`: so it is minimal over rows `0 .. i`.
   */
  lemma MinimalStep(cs: seq<Vector>, dim: nat, i: nat, p: Pair, q: Pair, j: nat)
    requires Uniform(cs, dim) && i + 1 < |cs| && p.i < p.j < |cs| && q.i < q.j < |cs| && i < j < |cs|
    requires MinimalInRows(cs, dim, i, p)
    requires forall b :: i < b < |cs| ==> Dist(cs, i, j) <= Dist(cs, i, b)
    requires Dist(cs, q.i, q.j) <= Dist(cs, p.i, p.j)
    requires Dist(cs, q.i, q.j) <= Dist(cs, i, j)
    ensures MinimalInRows(cs, dim, i + 1, q)
  {
    forall a, b | 0 <= a < i + 1 && a < b < |cs| ensures Dist(cs, q.i, q.j) <= Dist(cs, a, b) {
      if a < i {
        assert Dist(cs, p.i, p.j) <= Dist(cs, a, b);
      }
    }
  }


  /** After rows `0 .. r-1` no pair before the one the loops hold, in scan order, is as close. */
  lemma {:induction false} BestPairFirstInScan(cs: seq<Vector>, dim: nat, r: nat)
    requires Uniform(cs, dim) && 1 <= r < |cs|
    ensures FirstInScan(cs, dim, BestPair(cs, dim, r))
  {
    var q := BestPair(cs, dim, r);
    var j := RowBest(cs, dim, r - 1, |cs|);
    RowBestFirst(cs, dim, r - 1, |cs|);
    if r > 1 {
      BestPairFirstInScan(cs, dim, r - 1);
      BestPairMinimal(cs, dim, r - 1);
      var p := BestPair(cs, dim, r - 1);
      if q != p {
        assert q == Pair(r - 1, j);
        FirstStep(cs, dim, r - 1, p, j);
      }
    }
  }

  /**
   * When row `i`'s closest pair `(i, j)` is strictly closer than `p`, minimal over rows
   * `0 .. i-1`, every pair before `(i, j)` in scan order is strictly farther apart.
   */
  lemma FirstStep(cs: seq<Vector>, dim: nat, i: nat, p: Pair, j: nat)
    requires Uniform(cs, dim) && i < j < |cs| && p.i < p.j < |cs|
    requires MinimalInRows(cs, dim, i, p)
    requires forall b :: i < b < j ==> Dist(cs, i, b) > Dist(cs, i, j)
    requires Dist(cs, i, j) < Dist(cs, p.i, p.j)
    ensures FirstInScan(cs, dim, Pair(i, j))
  {
    forall a, b | 0 <= a < b < |cs| && Before(a, b, Pair(i, j)) ensures Dist(cs, a, b) > Dist(cs, i, j) {
      if a < i {
        assert Dist(cs, p.i, p.j) <= Dist(cs, a, b);
      }
    }
  }

  /** `mergeIndices` after the full scan. */
  function ClosestPair(cs: seq<Vector>, dim: nat): (p: Pair)
    requires Uniform(cs, dim) && |cs| >= 2
    ensures p.i < p.j < |cs|
  {
    BestPair(cs, dim, |cs| - 1)
  }

  /** A pair at minimal distance with no equally close pair before it in scan order. */
  predicate FirstClosest(cs: seq<Vector>, dim: nat, p: Pair)
    requires Uniform(cs, dim)
  {
    p.i < p.j < |cs| && MinimalInRows(cs, dim, |cs|, p) && FirstInScan(cs, dim, p)
  }

  /** The merged pair is the closest one, and the first closest one in scan order is unique. */
  lemma ClosestPairIsFirstClosest(cs: seq<Vector>, dim: nat, q: Pair)
    requires Uniform(cs, dim) && |cs| >= 2
    ensures FirstClosest(cs, dim, ClosestPair(cs, dim))
    ensures FirstClosest(cs, dim, q) ==> q == ClosestPair(cs, dim)
  {
    var p := ClosestPair(cs, dim);
    BestPairMinimal(cs, dim, |cs| - 1);
    BestPairFirstInScan(cs, dim, |cs| - 1);
    if FirstClosest(cs, dim, q) {
      assert Dist(cs, q.i, q.j) <= Dist(cs, p.i, p.j) <= Dist(cs, q.i, q.j);
    }
  }

  /**
   * The inner loop over row `i`: `j` runs over `i+1 .. |cs|-1` and a pair replaces the best
   * so far when there is none yet (`minDistance` is still Infinity) or it is strictly closer.
   */
  method ScanRow(cs: seq<Vector>, dim: nat, i: nat, p0: Pair, minDistance0: real, found0: bool)
    returns (p: Pair, minDistance: real, found: bool)
    requires Uniform(cs, dim) && i < |cs| && p0.i < p0.j < |cs|
    requires found0 ==> minDistance0 == Dist(cs, p0.i, p0.j)
    ensures p.i < p.j < |cs| && (found ==> minDistance == Dist(cs, p.i, p.j))
    ensures i + 1 == |cs| ==> p == p0 && minDistance == minDistance0 && found == found0
    ensures i + 1 < |cs| ==> found && p == RowWinner(cs, dim, i, |cs|, p0, found0)
  {
    p, minDistance, found := p0, minDistance0, found0;
    for j := i + 1 to |cs|
      invariant p.i < p.j < |cs| && (found ==> minDistance == Dist(cs, p.i, p.j))
      invariant j == i + 1 ==> p == p0 && minDistance == minDistance0 && found == found0
      invariant i + 1 < j ==> found && p == RowWinner(cs, dim, i, j, p0, found0)
    {
      var distance := Dist(cs, i, j);
      if !found || distance < minDistance {
        minDistance := distance;
        p := Pair(i, j);
      }
      found := true;
    }
  }

  /**
   * The best pair once row `i` has been scanned up to column `m - 1`, starting from `p0`
   * (or from nothing when `found0` is false).
   */
  function RowWinner(cs: seq<Vector>, dim: nat, i: nat, m: nat, p0: Pair, found0: bool): Pair
    requires Uniform(cs, dim) && i + 1 < m <= |cs| && p0.i < p0.j < |cs|
  {
    var b := RowBest(cs, dim, i, m);
    if !found0 || Dist(cs, i, b) < Dist(cs, p0.i, p0.j) then Pair(i, b) else p0
  }

  /**
   * The two nested loops over `i < j`: `minDistance` starts at Infinity (`found` false)
   * and `mergeIndices` at `[0, 1]`.
   */
  method ClosestPairScan(cs: seq<Vector>, dim: nat) returns (p: Pair)
    requires Uniform(cs, dim) && |cs| >= 2
    ensures p == ClosestPair(cs, dim)
  {
    var minDistance: real := 0.0;
    var found := false;
    p := Pair(0, 1);
    for i := 0 to |cs|
      invariant found <==> i > 0
      invariant p.i < p.j < |cs| && (found ==> minDistance == Dist(cs, p.i, p.j))
      invariant 0 < i < |cs| ==> p == BestPair(cs, dim, i)
      invariant i == |cs| ==> p == BestPair(cs, dim, |cs| - 1)
    {
      p, minDistance, found := ScanRow(cs, dim, i, p, minDistance, found);
    }
  }

  // ---------------------------------------------------------------------------
  // Merging
  // ---------------------------------------------------------------------------

  /**
   * Merge slot `p.j` into slot `p.i`: the members of `p.i` followed by those of `p.j`, with
   * the centroid of all their points; then slot `p.j` is spliced out.
   */
  function Merge(points: seq<Vector>, clusters: seq<Cluster>, p: Pair): (r: seq<Cluster>)
    requires p.i < p.j < |clusters|
    requires forall c, t :: 0 <= c < |clusters| && 0 <= t < |clusters[c].members| ==> clusters[c].members[t] < |points|
    ensures |r| == |clusters| - 1
  {
    var merged := clusters[p.i].members + clusters[p.j].members;
    var updated := clusters[p.i := Cluster(merged, Centroid(Gather(points, merged)))];
    updated[..p.j] + updated[p.j + 1..]
  }

  lemma MergeValid(points: seq<Vector>, dim: nat, clusters: seq<Cluster>, p: Pair)
    requires Valid(points, dim, clusters) && p.i < p.j < |clusters|
    ensures Valid(points, dim, Merge(points, clusters, p))
  {
    var merged := clusters[p.i].members + clusters[p.j].members;
    assert Gather(points, merged)[0] == points[merged[0]];
    var r := Merge(points, clusters, p);
    forall c, t | 0 <= c < |r| && 0 <= t < |r[c].members| ensures r[c].members[t] < |points| {
      if c == p.i {
        if t < |clusters[p.i].members| {
          assert r[c].members[t] == clusters[p.i].members[t];
        } else {
          assert r[c].members[t] == clusters[p.j].members[t - |clusters[p.i].members|];
        }
      } else if c < p.j {
        assert r[c] == clusters[c];
      } else {
        assert r[c] == clusters[c + 1];
      }
    }
  }

  /**
   * The merge loop: while more than `k` clusters remain, merge the first closest pair of
   * centroids.
   */
  function Agglomerate(points: seq<Vector>, dim: nat, clusters: seq<Cluster>, k: nat): (r: seq<Cluster>)
    requires k >= 1 && Valid(points, dim, clusters)
    decreases |clusters|
  {
    if |clusters| <= k then clusters
    else
      var p := ClosestPair(Centroids(clusters), dim);
      MergeValid(points, dim, clusters, p);
      Agglomerate(points, dim, Merge(points, clusters, p), k)
  }

  /** The clusters `performHierarchical` ends with. */
  function HierarchicalClusters(points: seq<Vector>, k: nat): seq<Cluster>
    requires |points| >= 1 && Uniform(points, |points[0]|) && k >= 1
  {
    SingletonsValid(points, |points[0]|);
    Agglomerate(points, |points[0]|, Singletons(points), k)
  }

  // ---------------------------------------------------------------------------
  // Labelling
  // ---------------------------------------------------------------------------

  /** The label the `forEach` over clusters `0 .. m-1` leaves on point `q`: the last cluster holding it, -1 for none. */
  function LastClusterOf(clusters: seq<Cluster>, q: nat, m: nat): (c: int)
    requires m <= |clusters|
    ensures -1 <= c < m
  {
    if m == 0 then -1
    else if q in clusters[m - 1].members then m - 1
    else LastClusterOf(clusters, q, m - 1)
  }

  /** `labels[pointIndex] = clusterIndex` for every member of every cluster; -1 stands for an unset slot. */
  function Labels(clusters: seq<Cluster>, n: nat): (labels: seq<int>)
    ensures |labels| == n
  {
    seq(n, q requires 0 <= q < n => LastClusterOf(clusters, q, |clusters|))
  }

  /** The final `forEach`: label the members of every cluster with its index and collect the centroids. */
  method LabelPoints(clusters: seq<Cluster>, n: nat) returns (labels: seq<int>, centroids: seq<Vector>)
    requires forall c, t :: 0 <= c < |clusters| && 0 <= t < |clusters[c].members| ==> clusters[c].members[t] < n
    ensures labels == Labels(clusters, n)
    ensures centroids == Centroids(clusters)
  {
    labels := seq(n, _ => -1);
    centroids := [];
    for c := 0 to |clusters|
      invariant |labels| == n
      invariant forall q :: 0 <= q < n ==> labels[q] == LastClusterOf(clusters, q, c)
      invariant centroids == Centroids(clusters)[..c]
    {
      var ms := clusters[c].members;
      for t := 0 to |ms|
        invariant |labels| == n
        invariant forall q :: 0 <= q < n ==> labels[q] == if q in ms[..t] then c else LastClusterOf(clusters, q, c)
      {
        assert ms[..t + 1] == ms[..t] + [ms[t]];
        labels := labels[ms[t] := c];
      }
      assert ms[..|ms|] == ms;
      centroids := centroids + [clusters[c].centroid];
    }
  }

  /** `performHierarchical(points, k)` on the model's sequences in place of the source's arrays. */
  method PerformHierarchical(points: seq<Vector>, k: nat) returns (labels: seq<int>, centroids: seq<Vector>)
    requires |points| >= 1 && Uniform(points, |points[0]|) && k >= 1
    ensures labels == Labels(HierarchicalClusters(points, k), |points|)
    ensures centroids == Centroids(HierarchicalClusters(points, k))
  {
    var dim := |points[0]|;
    var clusters := seq(|points|, i requires 0 <= i < |points| => Cluster([i], points[i]));
    SingletonsValid(points, dim);
    ghost var goal := HierarchicalClusters(points, k);
    while |clusters| > k
      invariant Valid(points, dim, clusters)
      invariant Agglomerate(points, dim, clusters, k) == goal
      decreases |clusters|
    {
      var pair := ClosestPairScan(Centroids(clusters), dim);
      MergeValid(points, dim, clusters, pair);
      ghost var next := Merge(points, clusters, pair);
      var mergedPoints := clusters[pair.i].members + clusters[pair.j].members;
      var mergedCentroid := CalculateCentroid(Gather(points, mergedPoints));
      clusters := clusters[pair.i := Cluster(mergedPoints, mergedCentroid)];
      clusters := clusters[..pair.j] + clusters[pair.j + 1..];
      assert clusters == next;
    }
    labels, centroids := LabelPoints(clusters, |points|);
  }

  // ---------------------------------------------------------------------------
  // What the result satisfies
  // ---------------------------------------------------------------------------

  /** The loop ends with `min(n, k)` clusters. */
  lemma {:induction false} AgglomerateCount(points: seq<Vector>, dim: nat, clusters: seq<Cluster>, k: nat)
    requires k >= 1 && Valid(points, dim, clusters)
    ensures |Agglomerate(points, dim, clusters, k)| == if |clusters| <= k then |clusters| else k
    ensures Valid(points, dim, Agglomerate(points, dim, clusters, k))
    decreases |clusters|
  {
    if |clusters| > k {
      var p := ClosestPair(Centroids(clusters), dim);
      MergeValid(points, dim, clusters, p);
      AgglomerateCount(points, dim, Merge(points, clusters, p), k);
    }
  }

  /** All member indices of all clusters, with multiplicity. */
  function AllMembers(clusters: seq<Cluster>): multiset<nat> {
    MembersUpTo(clusters, |clusters|)
  }

  /** The member indices of clusters `0 .. m-1`. */
  function MembersUpTo(clusters: seq<Cluster>, m: nat): multiset<nat>
    requires m <= |clusters|
  {
    if m == 0 then multiset{} else MembersUpTo(clusters, m - 1) + multiset(clusters[m - 1].members)
  }

  /** Clusters that agree on slots `0 .. m-1` have the same members there. */
  lemma {:induction false} SameUpTo(s: seq<Cluster>, t: seq<Cluster>, m: nat)
    requires m <= |s| && m <= |t|
    requires forall c :: 0 <= c < m ==> s[c] == t[c]
    ensures MembersUpTo(s, m) == MembersUpTo(t, m)
  {
    if m > 0 {
      SameUpTo(s, t, m - 1);
    }
  }

  /** Replacing slot `i` by `x` swaps that slot's members for those of `x`. */
  lemma {:induction false} ReplaceMembers(s: seq<Cluster>, i: nat, x: Cluster, m: nat)
    requires i < m <= |s|
    ensures MembersUpTo(s[i := x], m) + multiset(s[i].members) == MembersUpTo(s, m) + multiset(x.members)
  {
    var t := s[i := x];
    if i == m - 1 {
      SameUpTo(s, t, m - 1);
    } else {
      ReplaceMembers(s, i, x, m - 1);
      assert t[m - 1] == s[m - 1];
      AddToBoth(MembersUpTo(t, m - 1), multiset(s[i].members), MembersUpTo(s, m - 1), multiset(x.members),
                multiset(s[m - 1].members));
    }
  }

  /** Adding the same `e` to both sides of an equation of sums keeps it. */
  lemma AddToBoth<T>(a: multiset<T>, b: multiset<T>, c: multiset<T>, d: multiset<T>, e: multiset<T>)
    requires a + b == c + d
    ensures (a + e) + b == (c + e) + d
  {
    assert forall y :: ((a + e) + b)[y] == (a + b)[y] + e[y];
    assert forall y :: ((c + e) + d)[y] == (c + d)[y] + e[y];
  }

  /** Removing slot `j`, the later slots moving down by one, takes away exactly that slot's members. */
  lemma {:induction false} RemoveMembers(s: seq<Cluster>, j: nat, r: seq<Cluster>, m: nat)
    requires j < |s| && |r| == |s| - 1 && j < m <= |r|
    requires forall c :: 0 <= c < j ==> r[c] == s[c]
    requires forall c :: j <= c < |r| ==> r[c] == s[c + 1]
    ensures MembersUpTo(r, m) + multiset(s[j].members) == MembersUpTo(s, m + 1)
  {
    if m == j + 1 {
      SameUpTo(r, s, j);
      assert r[j] == s[j + 1];
    } else {
      RemoveMembers(s, j, r, m - 1);
      assert r[m - 1] == s[m];
      AddToBoth(MembersUpTo(r, m - 1), multiset(s[j].members), MembersUpTo(s, m), multiset{},
                multiset(r[m - 1].members));
    }
  }

  /** The merged cluster of slots `p.i` and `p.j`. */
  function Merged(points: seq<Vector>, clusters: seq<Cluster>, p: Pair): Cluster
    requires p.i < p.j < |clusters|
    requires forall c, t :: 0 <= c < |clusters| && 0 <= t < |clusters[c].members| ==> clusters[c].members[t] < |points|
  {
    var merged := clusters[p.i].members + clusters[p.j].members;
    Cluster(merged, Centroid(Gather(points, merged)))
  }

  /** After a merge, slot `p.i` holds the merged cluster, earlier slots stay and later ones move down by one. */
  lemma MergeSlots(points: seq<Vector>, clusters: seq<Cluster>, p: Pair)
    requires p.i < p.j < |clusters|
    requires forall c, t :: 0 <= c < |clusters| && 0 <= t < |clusters[c].members| ==> clusters[c].members[t] < |points|
    ensures var r := Merge(points, clusters, p);
            var updated := clusters[p.i := Merged(points, clusters, p)];
            && (forall c :: 0 <= c < p.j ==> r[c] == updated[c])
            && (forall c :: p.j <= c < |r| ==> r[c] == updated[c + 1])
  {
  }

  /** `r + cj == u` and `u + ci == c + (ci + cj)` leave `r == c`. */
  lemma Cancel<T>(r: multiset<T>, u: multiset<T>, c: multiset<T>, ci: multiset<T>, cj: multiset<T>)
    requires r + cj == u && u + ci == c + (ci + cj)
    ensures r == c
  {
    assert forall y :: r[y] == c[y] by {
      forall y ensures r[y] == c[y] {
        assert (r + cj)[y] == u[y];
        assert (u + ci)[y] == (c + (ci + cj))[y];
      }
    }
  }

  /** A merge moves the members of slot `j` into slot `i`: no index is lost or duplicated. */
  lemma MergeMembers(points: seq<Vector>, clusters: seq<Cluster>, p: Pair)
    requires p.i < p.j < |clusters|
    requires forall c, t :: 0 <= c < |clusters| && 0 <= t < |clusters[c].members| ==> clusters[c].members[t] < |points|
    ensures AllMembers(Merge(points, clusters, p)) == AllMembers(clusters)
  {
    var i, j := p.i, p.j;
    var x := Merged(points, clusters, p);
    var updated := clusters[i := x];
    var r := Merge(points, clusters, p);
    MergeSlots(points, clusters, p);
    ReplaceMembers(clusters, i, x, |clusters|);
    if j < |r| {
      RemoveMembers(updated, j, r, |r|);
    } else {
      SameUpTo(r, updated, j);
    }
    assert updated[j] == clusters[j];
    Cancel(AllMembers(r), AllMembers(updated), AllMembers(clusters),
           multiset(clusters[i].members), multiset(clusters[j].members));
  }

  /** Merging never loses or duplicates a point index. */
  lemma {:induction false} AgglomerateMembers(points: seq<Vector>, dim: nat, clusters: seq<Cluster>, k: nat)
    requires k >= 1 && Valid(points, dim, clusters)
    ensures AllMembers(Agglomerate(points, dim, clusters, k)) == AllMembers(clusters)
    decreases |clusters|
  {
    if |clusters| > k {
      var p := ClosestPair(Centroids(clusters), dim);
      MergeValid(points, dim, clusters, p);
      MergeMembers(points, clusters, p);
      AgglomerateMembers(points, dim, Merge(points, clusters, p), k);
    }
  }

  /** The indices `0 .. n-1`, once each. */
  function Indices(n: nat): (r: seq<nat>)
    ensures |r| == n
  {
    if n == 0 then [] else Indices(n - 1) + [n - 1]
  }

  lemma {:induction false} SingletonsMembers(points: seq<Vector>, m: nat)
    requires m <= |points|
    ensures MembersUpTo(Singletons(points), m) == multiset(Indices(m))
  {
    if m > 0 {
      SingletonsMembers(points, m - 1);
    }
  }

  lemma {:induction false} IndicesOnce(n: nat, q: nat)
    ensures multiset(Indices(n))[q] == if q < n then 1 else 0
  {
    if n > 0 {
      IndicesOnce(n - 1, q);
    }
  }

  /** Every centroid is `calculateCentroid` of its members' points. */
  ghost predicate CentroidsFit(points: seq<Vector>, clusters: seq<Cluster>)
    requires forall c, t :: 0 <= c < |clusters| && 0 <= t < |clusters[c].members| ==> clusters[c].members[t] < |points|
  {
    forall c :: 0 <= c < |clusters| ==> clusters[c].centroid == Centroid(Gather(points, clusters[c].members))
  }

  lemma SingletonsFit(points: seq<Vector>)
    ensures CentroidsFit(points, Singletons(points))
  {
    forall c | 0 <= c < |points| ensures Singletons(points)[c].centroid == Centroid(Gather(points, [c])) {
      assert Gather(points, [c]) == [points[c]];
      CentroidSingleton(points[c]);
    }
  }

  lemma {:induction false} AgglomerateFit(points: seq<Vector>, dim: nat, clusters: seq<Cluster>, k: nat)
    requires k >= 1 && Valid(points, dim, clusters) && CentroidsFit(points, clusters)
    ensures Valid(points, dim, Agglomerate(points, dim, clusters, k))
    ensures CentroidsFit(points, Agglomerate(points, dim, clusters, k))
    decreases |clusters|
  {
    AgglomerateCount(points, dim, clusters, k);
    if |clusters| > k {
      var p := ClosestPair(Centroids(clusters), dim);
      MergeValid(points, dim, clusters, p);
      MergeFit(points, dim, clusters, p);
      AgglomerateFit(points, dim, Merge(points, clusters, p), k);
    }
  }

  /** A merge recomputes the merged slot's centroid and moves the others unchanged. */
  lemma MergeFit(points: seq<Vector>, dim: nat, clusters: seq<Cluster>, p: Pair)
    requires Valid(points, dim, clusters) && CentroidsFit(points, clusters) && p.i < p.j < |clusters|
    ensures Valid(points, dim, Merge(points, clusters, p))
    ensures CentroidsFit(points, Merge(points, clusters, p))
  {
    MergeValid(points, dim, clusters, p);
    var r := Merge(points, clusters, p);
    forall c | 0 <= c < |r| ensures r[c].centroid == Centroid(Gather(points, r[c].members)) {
      if c != p.i {
        assert r[c] == if c < p.j then clusters[c] else clusters[c + 1];
      }
    }
  }

  lemma {:induction false} MemberCounted(clusters: seq<Cluster>, q: nat, c: nat, m: nat)
    requires c < m <= |clusters| && q in clusters[c].members
    ensures MembersUpTo(clusters, m)[q] >= 1
  {
    if c < m - 1 {
      MemberCounted(clusters, q, c, m - 1);
    }
  }

  /**
   * The last cluster among `0 .. m-1` holding `q` holds it; when `q` is counted once it is
   * the only one.
   */
  lemma {:induction false} LastClusterOfHolds(clusters: seq<Cluster>, q: nat, m: nat)
    requires m <= |clusters|
    ensures MembersUpTo(clusters, m)[q] >= 1 ==> 0 <= LastClusterOf(clusters, q, m) && q in clusters[LastClusterOf(clusters, q, m)].members
    ensures MembersUpTo(clusters, m)[q] == 1 ==>
              forall c :: 0 <= c < m && q in clusters[c].members ==> LastClusterOf(clusters, q, m) == c
  {
    if m > 0 {
      LastClusterOfHolds(clusters, q, m - 1);
      if q in clusters[m - 1].members && MembersUpTo(clusters, m)[q] == 1 {
        forall c | 0 <= c < m - 1 && q in clusters[c].members ensures false {
          MemberCounted(clusters, q, c, m - 1);
        }
      }
    }
  }

  /** When the clusters share out `0 .. n-1`, every point is labelled with the one cluster holding it. */
  lemma LabelsHold(clusters: seq<Cluster>, n: nat)
    requires AllMembers(clusters) == multiset(Indices(n))
    ensures forall q :: 0 <= q < n ==> 0 <= Labels(clusters, n)[q] < |clusters| && q in clusters[Labels(clusters, n)[q]].members
    ensures forall q, c :: 0 <= q < n && 0 <= c < |clusters| && q in clusters[c].members ==> Labels(clusters, n)[q] == c
  {
    var labels := Labels(clusters, n);
    forall q | 0 <= q < n
      ensures 0 <= labels[q] < |clusters| && q in clusters[labels[q]].members
      ensures forall c :: 0 <= c < |clusters| && q in clusters[c].members ==> labels[q] == c
    {
      IndicesOnce(n, q);
      LastClusterOfHolds(clusters, q, |clusters|);
    }
  }

  /**
   * What `performHierarchical` returns: `min(n, k)` clusters that share out the point
   * indices, each point labelled with the one cluster that holds it, and every centroid
   * the mean of its cluster's points.
   */
  ghost predicate HierarchicalOutcome(points: seq<Vector>, k: nat, clusters: seq<Cluster>, labels: seq<int>)
    requires forall c, t :: 0 <= c < |clusters| && 0 <= t < |clusters[c].members| ==> clusters[c].members[t] < |points|
  {
    && |clusters| == (if |points| <= k then |points| else k)
    && AllMembers(clusters) == multiset(Indices(|points|))
    && |labels| == |points|
    && (forall q :: 0 <= q < |points| ==> 0 <= labels[q] < |clusters| && q in clusters[labels[q]].members)
    && (forall q, c :: 0 <= q < |points| && 0 <= c < |clusters| && q in clusters[c].members ==> labels[q] == c)
    && CentroidsFit(points, clusters)
  }

  lemma HierarchicalCorrect(points: seq<Vector>, k: nat)
    requires |points| >= 1 && Uniform(points, |points[0]|) && k >= 1
    ensures Valid(points, |points[0]|, HierarchicalClusters(points, k))
    ensures HierarchicalOutcome(points, k, HierarchicalClusters(points, k),
                                Labels(HierarchicalClusters(points, k), |points|))
  {
    var dim := |points[0]|;
    var init := Singletons(points);
    SingletonsValid(points, dim);
    var r := HierarchicalClusters(points, k);
    AgglomerateCount(points, dim, init, k);
    AgglomerateMembers(points, dim, init, k);
    SingletonsMembers(points, |points|);
    SingletonsFit(points);
    AgglomerateFit(points, dim, init, k);
    LabelsHold(r, |points|);
  }
}
