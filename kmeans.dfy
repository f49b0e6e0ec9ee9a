/**
 * `performKMeans` of server/controllers/clustering.controller.js, from given initial
 * centroids (the k-means++ seeding draws random numbers and is not part of this model):
 * assign every point to its nearest centroid, stop when no label changed, otherwise move
 * every non-empty cluster's centroid to the mean of its points, for at most
 * `maxIterations` rounds.
 */
module KMeans {
  import opened Vectors

  /** Every centroid has as many coordinates as `p`. */
  predicate Compatible(p: Vector, cs: seq<Vector>) {
    forall m :: 0 <= m < |cs| ==> |cs[m]| == |p|
  }

  /**
   * The index the scan over `cs[..m]` settles on: a centroid at minimal distance, and
   * the first of those, since only a strictly smaller distance replaces the best so far.
   */
  function NearestAmong(p: Vector, cs: seq<Vector>, m: nat): (j: nat)
    requires Compatible(p, cs) && 1 <= m <= |cs|
    ensures j < m
  {
    if m == 1 then 0
    else
      var b := NearestAmong(p, cs, m - 1);
      if SqDist(p, cs[m - 1]) < SqDist(p, cs[b]) then m - 1 else b
  }

  /** The scan's index is at minimal distance among `cs[..m]`, and strictly closer than every earlier centroid. */
  lemma {:induction false} NearestAmongMinimal(p: Vector, cs: seq<Vector>, m: nat)
    requires Compatible(p, cs) && 1 <= m <= |cs|
    ensures var j := NearestAmong(p, cs, m);
            && (forall i :: 0 <= i < m ==> SqDist(p, cs[j]) <= SqDist(p, cs[i]))
            && (forall i :: 0 <= i < j ==> SqDist(p, cs[i]) > SqDist(p, cs[j]))
  {
    if m > 1 {
      NearestAmongMinimal(p, cs, m - 1);
    }
  }

  function Nearest(p: Vector, cs: seq<Vector>): (j: nat)
    requires Compatible(p, cs) && |cs| >= 1
    ensures j < |cs|
  {
    NearestAmong(p, cs, |cs|)
  }

  /** Nearest is the only index that is at minimal distance and before every other such index. */
  lemma NearestUnique(p: Vector, cs: seq<Vector>, j: nat)
    requires Compatible(p, cs) && |cs| >= 1 && j < |cs|
    requires forall i :: 0 <= i < |cs| ==> SqDist(p, cs[j]) <= SqDist(p, cs[i])
    requires forall i :: 0 <= i < j ==> SqDist(p, cs[i]) > SqDist(p, cs[j])
    ensures j == Nearest(p, cs)
  {
    var n := Nearest(p, cs);
    NearestAmongMinimal(p, cs, |cs|);
    assert SqDist(p, cs[n]) <= SqDist(p, cs[j]) && SqDist(p, cs[j]) <= SqDist(p, cs[n]);
  }

  /**
   * The inner loop: `minDistance` starts at Infinity (`None`) and `nearestCentroid` at 0;
   * a centroid replaces the best so far only when it is strictly closer.
   */
  method NearestCentroid(p: Vector, cs: seq<Vector>) returns (j: nat)
    requires Compatible(p, cs) && |cs| >= 1
    ensures j == Nearest(p, cs)
  {
    var minDistance: real := 0.0;
    var found := false;
    j := 0;
    for m := 0 to |cs|
      invariant found <==> m > 0
      invariant m > 0 ==> j == NearestAmong(p, cs, m) && minDistance == SqDist(p, cs[j])
    {
      var d := SqDist(p, cs[m]);
      if !found || d < minDistance {
        minDistance := d;
        j := m;
      }
      found := true;
    }
  }

  predicate AllCompatible(points: seq<Vector>, cs: seq<Vector>) {
    forall i :: 0 <= i < |points| ==> Compatible(points[i], cs)
  }

  /** One assignment pass. */
  function Assign(points: seq<Vector>, cs: seq<Vector>): (labels: seq<nat>)
    requires AllCompatible(points, cs) && |cs| >= 1
    ensures |labels| == |points|
    ensures forall i :: 0 <= i < |points| ==> labels[i] < |cs|
  {
    AssignUpTo(points, cs, |points|)
  }

  /** The labels of the first `n` points. */
  function AssignUpTo(points: seq<Vector>, cs: seq<Vector>, n: nat): (labels: seq<nat>)
    requires AllCompatible(points, cs) && |cs| >= 1 && n <= |points|
    ensures |labels| == n
    ensures forall i :: 0 <= i < n ==> labels[i] < |cs|
  {
    if n == 0 then [] else AssignUpTo(points, cs, n - 1) + [Nearest(points[n - 1], cs)]
  }

  /** Point `i` is labelled with its nearest centroid. */
  lemma AssignNearest(points: seq<Vector>, cs: seq<Vector>)
    requires AllCompatible(points, cs) && |cs| >= 1
    ensures forall i :: 0 <= i < |points| ==> Assign(points, cs)[i] == Nearest(points[i], cs)
  {
    AssignUpToNearest(points, cs, |points|);
  }

  lemma {:induction false} AssignUpToNearest(points: seq<Vector>, cs: seq<Vector>, n: nat)
    requires AllCompatible(points, cs) && |cs| >= 1 && n <= |points|
    ensures forall i :: 0 <= i < n ==> AssignUpTo(points, cs, n)[i] == Nearest(points[i], cs)
  {
    if n > 0 {
      AssignUpToNearest(points, cs, n - 1);
    }
  }

  /** `points.filter((_, i) => labels[i] === j)`. */
  function Members(points: seq<Vector>, labels: seq<int>, j: int): (ms: seq<Vector>)
    requires |labels| == |points|
    ensures |ms| <= |points|
    ensures forall v :: v in ms ==> v in points
  {
    MembersUpTo(points, labels, j, |points|)
  }

  /** The points among the first `n` that carry label `j`, in order. */
  function MembersUpTo(points: seq<Vector>, labels: seq<int>, j: int, n: nat): (ms: seq<Vector>)
    requires |labels| == |points| && n <= |points|
    ensures |ms| <= n
    ensures forall v :: v in ms ==> v in points
  {
    if n == 0 then []
    else MembersUpTo(points, labels, j, n - 1) + (if labels[n - 1] == j then [points[n - 1]] else [])
  }

  /** A cluster has members exactly when some point carries its label. */
  lemma MembersNonEmpty(points: seq<Vector>, labels: seq<int>, j: int)
    requires |labels| == |points|
    ensures Members(points, labels, j) != [] <==> exists i :: 0 <= i < |labels| && labels[i] == j
  {
    MembersUpToNonEmpty(points, labels, j, |points|);
  }

  lemma {:induction false} MembersUpToNonEmpty(points: seq<Vector>, labels: seq<int>, j: int, n: nat)
    requires |labels| == |points| && n <= |points|
    ensures MembersUpTo(points, labels, j, n) != [] <==> exists i :: 0 <= i < n && labels[i] == j
  {
    if n > 0 {
      MembersUpToNonEmpty(points, labels, j, n - 1);
    }
  }

  /** The new centroid of cluster `j`, now at `c`: the mean of its members, or `c` when it has none. */
  function Moved(points: seq<Vector>, labels: seq<int>, c: Vector, j: int): Vector
    requires |labels| == |points|
  {
    var ms := Members(points, labels, j);
    if ms == [] then c else Centroid(ms)
  }

  /** The update step over every cluster. */
  function Update(points: seq<Vector>, labels: seq<int>, cs: seq<Vector>): (r: seq<Vector>)
    requires |labels| == |points|
    ensures |r| == |cs|
  {
    UpdateUpTo(points, labels, cs, |cs|)
  }

  /** The first `k` centroids after the update step. */
  function UpdateUpTo(points: seq<Vector>, labels: seq<int>, cs: seq<Vector>, k: nat): (r: seq<Vector>)
    requires |labels| == |points| && k <= |cs|
    ensures |r| == k
  {
    if k == 0 then [] else UpdateUpTo(points, labels, cs, k - 1) + [Moved(points, labels, cs[k - 1], k - 1)]
  }

  /** Centroid `j` after the update is cluster `j`'s moved centroid. */
  lemma UpdateAt(points: seq<Vector>, labels: seq<int>, cs: seq<Vector>)
    requires |labels| == |points|
    ensures forall j :: 0 <= j < |cs| ==> Update(points, labels, cs)[j] == Moved(points, labels, cs[j], j)
  {
    UpdateUpToAt(points, labels, cs, |cs|);
  }

  lemma {:induction false} UpdateUpToAt(points: seq<Vector>, labels: seq<int>, cs: seq<Vector>, k: nat)
    requires |labels| == |points| && k <= |cs|
    ensures forall j :: 0 <= j < k ==> UpdateUpTo(points, labels, cs, k)[j] == Moved(points, labels, cs[j], j)
  {
    if k > 0 {
      UpdateUpToAt(points, labels, cs, k - 1);
    }
  }

  lemma UpdateUniform(points: seq<Vector>, labels: seq<int>, cs: seq<Vector>, dim: nat)
    requires |labels| == |points| && Uniform(points, dim) && Uniform(cs, dim)
    ensures Uniform(Update(points, labels, cs), dim)
  {
    UpdateAt(points, labels, cs);
    forall j | 0 <= j < |cs| ensures |Update(points, labels, cs)[j]| == dim {
      var ms := Members(points, labels, j);
      if ms != [] {
        assert ms[0] in points;
      }
    }
  }

  /** `labels.every((label, i) => label === prevLabels[i])`. */
  predicate SameLabels(labels: seq<nat>, prev: seq<int>) {
    |labels| == |prev| && forall i :: 0 <= i < |labels| ==> labels[i] == prev[i]
  }

  datatype Outcome = Outcome(labels: seq<nat>, centroids: seq<Vector>, converged: bool)

  /** The iteration from centroids `cs`, previous labels `prev` and current labels, with `remaining` rounds left. */
  function Lloyd(points: seq<Vector>, dim: nat, cs: seq<Vector>, prev: seq<int>, labels: seq<nat>,
                 remaining: nat): Outcome
    requires Uniform(points, dim) && Uniform(cs, dim) && |cs| >= 1
    requires |prev| == |points| && |labels| == |points|
    decreases remaining
  {
    if remaining == 0 then Outcome(labels, cs, false)
    else
      var next := Assign(points, cs);
      if SameLabels(next, prev) then Outcome(next, cs, true)
      else
        UpdateUniform(points, next, cs, dim);
        Lloyd(points, dim, Update(points, next, cs), next, next, remaining - 1)
  }

  /** The whole of `performKMeans` from `init`: labels start at 0 and the previous labels at -1. */
  function KMeansResult(points: seq<Vector>, dim: nat, init: seq<Vector>, maxIterations: nat): Outcome
    requires Uniform(points, dim) && Uniform(init, dim) && |init| >= 1
  {
    Lloyd(points, dim, init, seq(|points|, _ => -1), seq(|points|, _ => 0), maxIterations)
  }

  /** The assignment step of `performKMeans`: each point gets the index of its nearest centroid. */
  method AssignAll(points: seq<Vector>, centroids: seq<Vector>) returns (labels: seq<nat>)
    requires AllCompatible(points, centroids) && |centroids| >= 1
    ensures labels == Assign(points, centroids)
  {
    labels := seq(|points|, _ => 0);
    for i := 0 to |points|
      invariant |labels| == |points|
      invariant forall m :: 0 <= m < i ==> labels[m] == Nearest(points[m], centroids)
    {
      var nearest := NearestCentroid(points[i], centroids);
      labels := labels[i := nearest];
    }
    AssignNearest(points, centroids);
  }

  /** The update step of `performKMeans`: the centroid of every non-empty cluster becomes its mean. */
  method UpdateCentroids(points: seq<Vector>, labels: seq<nat>, before: seq<Vector>) returns (centroids: seq<Vector>)
    requires |labels| == |points|
    ensures centroids == Update(points, labels, before)
  {
    centroids := before;
    UpdateAt(points, labels, before);
    for j := 0 to |before|
      invariant |centroids| == |before|
      invariant forall m :: 0 <= m < j ==> centroids[m] == Update(points, labels, before)[m]
      invariant forall m :: j <= m < |before| ==> centroids[m] == before[m]
    {
      var clusterPoints := Members(points, labels, j);
      if |clusterPoints| > 0 {
        centroids := centroids[j := Centroid(clusterPoints)];
      }
    }
  }

  /** The k-means loop, run on the model's sequences in place of the source's arrays. */
  method PerformKMeans(points: seq<Vector>, init: seq<Vector>, maxIterations: nat)
    returns (labels: seq<nat>, centroids: seq<Vector>)
    requires |points| >= 1 && |init| >= 1
    requires Uniform(points, |points[0]|) && Uniform(init, |points[0]|)
    ensures labels == KMeansResult(points, |points[0]|, init, maxIterations).labels
    ensures centroids == KMeansResult(points, |points[0]|, init, maxIterations).centroids
  {
    var n, k, dim := |points|, |init|, |points[0]|;
    centroids := init;
    labels := seq(n, _ => 0);
    var prevLabels: seq<int> := seq(n, _ => -1);
    ghost var goal := KMeansResult(points, dim, init, maxIterations);
    var iter := 0;
    while iter < maxIterations
      invariant iter <= maxIterations
      invariant |labels| == n && |prevLabels| == n && |centroids| == k && Uniform(centroids, dim)
      invariant Lloyd(points, dim, centroids, prevLabels, labels, maxIterations - iter) == goal
    {
      labels := AssignAll(points, centroids);
      if SameLabels(labels, prevLabels) {
        return;
      }
      prevLabels := labels;
      UpdateUniform(points, labels, centroids, dim);
      centroids := UpdateCentroids(points, labels, centroids);
      iter := iter + 1;
    }
  }

  /** `n` labels that each name one of `k` centroids, and `k` centroids of dimension `dim`. */
  predicate WellShaped(n: nat, dim: nat, k: nat, r: Outcome) {
    && |r.labels| == n && |r.centroids| == k && Uniform(r.centroids, dim)
    && forall i :: 0 <= i < n ==> r.labels[i] < k
  }

  /** Every label names one of the k centroids, and there are still k centroids of the same dimension. */
  lemma {:induction false} LloydShape(points: seq<Vector>, dim: nat, cs: seq<Vector>, prev: seq<int>,
                                      labels: seq<nat>, remaining: nat)
    requires Uniform(points, dim) && Uniform(cs, dim) && |cs| >= 1
    requires |prev| == |points| && |labels| == |points|
    requires forall i :: 0 <= i < |labels| ==> labels[i] < |cs|
    ensures WellShaped(|points|, dim, |cs|, Lloyd(points, dim, cs, prev, labels, remaining))
    decreases remaining
  {
    if remaining > 0 {
      var next := Assign(points, cs);
      if !SameLabels(next, prev) {
        var cs' := Update(points, next, cs);
        UpdateUniform(points, next, cs, dim);
        LloydShape(points, dim, cs', next, next, remaining - 1);
      }
    }
  }

  /** Every centroid of a non-empty cluster is the mean of its members. */
  ghost predicate CentroidsFit(points: seq<Vector>, labels: seq<int>, cs: seq<Vector>)
    requires |labels| == |points|
  {
    forall j :: 0 <= j < |cs| && Members(points, labels, j) != [] ==> cs[j] == Centroid(Members(points, labels, j))
  }

  /**
   * After the update step every non-empty cluster's centroid is the mean of its members,
   * and every empty cluster keeps its centroid.
   */
  lemma UpdateFits(points: seq<Vector>, labels: seq<int>, cs: seq<Vector>)
    requires |labels| == |points|
    ensures CentroidsFit(points, labels, Update(points, labels, cs))
    ensures forall j :: 0 <= j < |cs| && Members(points, labels, j) == [] ==> Update(points, labels, cs)[j] == cs[j]
  {
    UpdateAt(points, labels, cs);
  }

  /** Every label is the first nearest centroid and every non-empty cluster's centroid is its mean. */
  ghost predicate FixedPoint(points: seq<Vector>, r: Outcome) {
    && |r.labels| == |points| && |r.centroids| >= 1
    && AllCompatible(points, r.centroids)
    && (forall i :: 0 <= i < |points| ==> r.labels[i] == Nearest(points[i], r.centroids))
    && CentroidsFit(points, r.labels, r.centroids)
  }

  ghost predicate FixedPointIfConverged(points: seq<Vector>, r: Outcome) {
    r.converged ==> FixedPoint(points, r)
  }

  /** A converged outcome's labels are one assignment pass over its centroids, which fit those labels. */
  ghost predicate Settled(points: seq<Vector>, r: Outcome) {
    r.converged ==>
      && |r.labels| == |points| && |r.centroids| >= 1 && AllCompatible(points, r.centroids)
      && r.labels == Assign(points, r.centroids)
      && CentroidsFit(points, r.labels, r.centroids)
  }

  /**
   * When the loop stops because no label changed, its outcome `r` is settled: its labels
   * are one assignment pass over its centroids, and every non-empty cluster's centroid
   * is the mean of its points.
   */
  lemma {:induction false} LloydConverged(points: seq<Vector>, dim: nat, cs: seq<Vector>, prev: seq<int>,
                                          labels: seq<nat>, remaining: nat, r: Outcome)
    requires Uniform(points, dim) && Uniform(cs, dim) && |cs| >= 1
    requires |prev| == |points| && |labels| == |points| && |points| >= 1
    requires (forall i :: 0 <= i < |prev| ==> prev[i] == -1) || CentroidsFit(points, prev, cs)
    requires r == Lloyd(points, dim, cs, prev, labels, remaining)
    ensures Settled(points, r)
    decreases remaining, 1
  {
    if remaining > 0 {
      if SameLabels(Assign(points, cs), prev) {
        ConvergedRound(points, dim, cs, prev, labels, remaining, r);
      } else {
        ChangedRound(points, dim, cs, prev, labels, remaining, r);
      }
    }
  }

  /** A round in which some label changes: the update fits the centroids to the new labels, and the iteration goes on. */
  lemma {:induction false} ChangedRound(points: seq<Vector>, dim: nat, cs: seq<Vector>, prev: seq<int>,
                                        labels: seq<nat>, remaining: nat, r: Outcome)
    requires Uniform(points, dim) && Uniform(cs, dim) && |cs| >= 1
    requires |prev| == |points| && |labels| == |points| && |points| >= 1
    requires remaining > 0 && !SameLabels(Assign(points, cs), prev)
    requires r == Lloyd(points, dim, cs, prev, labels, remaining)
    ensures Settled(points, r)
    decreases remaining, 0
  {
    var next := Assign(points, cs);
    var cs' := Update(points, next, cs);
    LloydChanged(points, dim, cs, prev, labels, remaining, r);
    LloydConverged(points, dim, cs', next, next, remaining - 1, r);
  }

  /**
   * A round in which some label changes hands the new labels and the updated centroids,
   * which fit those labels, to the next round.
   */
  lemma LloydChanged(points: seq<Vector>, dim: nat, cs: seq<Vector>, prev: seq<int>,
                     labels: seq<nat>, remaining: nat, r: Outcome)
    requires Uniform(points, dim) && Uniform(cs, dim) && |cs| >= 1
    requires |prev| == |points| && |labels| == |points|
    requires remaining > 0 && !SameLabels(Assign(points, cs), prev)
    requires r == Lloyd(points, dim, cs, prev, labels, remaining)
    ensures var next := Assign(points, cs);
            var cs' := Update(points, next, cs);
            && Uniform(cs', dim) && |cs'| >= 1 && |next| == |points|
            && CentroidsFit(points, next, cs')
            && r == Lloyd(points, dim, cs', next, next, remaining - 1)
  {
    UpdateUniform(points, Assign(points, cs), cs, dim);
    UpdateFits(points, Assign(points, cs), cs);
  }

  /** The round in which no label changes: the previous update already fitted the centroids to these labels. */
  lemma ConvergedRound(points: seq<Vector>, dim: nat, cs: seq<Vector>, prev: seq<int>,
                       labels: seq<nat>, remaining: nat, r: Outcome)
    requires Uniform(points, dim) && Uniform(cs, dim) && |cs| >= 1
    requires |prev| == |points| && |labels| == |points| && |points| >= 1
    requires (forall i :: 0 <= i < |prev| ==> prev[i] == -1) || CentroidsFit(points, prev, cs)
    requires remaining > 0 && SameLabels(Assign(points, cs), prev)
    requires r == Lloyd(points, dim, cs, prev, labels, remaining)
    ensures Settled(points, r)
  {
    var next := Assign(points, cs);
    assert prev[0] == next[0];
    assert next == prev;
    assert r == Outcome(next, cs, true);
    assert AllCompatible(points, cs);
    assert CentroidsFit(points, next, cs);
  }

  /** The k-means result labels every point with one of the k clusters. */
  lemma KMeansLabelsInRange(points: seq<Vector>, dim: nat, init: seq<Vector>, maxIterations: nat)
    requires Uniform(points, dim) && Uniform(init, dim) && |init| >= 1
    ensures var r := KMeansResult(points, dim, init, maxIterations);
            |r.labels| == |points| && |r.centroids| == |init|
            && forall i :: 0 <= i < |points| ==> r.labels[i] < |init|
  {
    LloydShape(points, dim, init, seq(|points|, _ => -1), seq(|points|, _ => 0), maxIterations);
  }

  /**
   * When `performKMeans` stops because no label changed, every point carries the first
   * nearest centroid and every non-empty cluster's centroid is the mean of its points.
   */
  lemma KMeansFixedPoint(points: seq<Vector>, dim: nat, init: seq<Vector>, maxIterations: nat)
    requires Uniform(points, dim) && Uniform(init, dim) && |init| >= 1 && |points| >= 1
    ensures FixedPointIfConverged(points, KMeansResult(points, dim, init, maxIterations))
  {
    var r := KMeansResult(points, dim, init, maxIterations);
    LloydConverged(points, dim, init, seq(|points|, _ => -1), seq(|points|, _ => 0), maxIterations, r);
    if r.converged {
      AssignNearest(points, r.centroids);
    }
  }
}
