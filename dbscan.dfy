/**
 * `performDBSCAN` and `findNeighbors` of server/controllers/clustering.controller.js.
 *
 * In the source's seed loop, a neighbour still marked -1 is given the cluster id, and the
 * very next test `labels[neighbor] !== -1` then always holds, so the loop moves on before
 * it could look at the neighbour's own neighbours: the seed set never grows. A cluster is
 * therefore its seed point and those of the seed's direct neighbours that were still
 * unlabelled, which is what this model computes.
 */
module Dbscan {
  import opened Vectors
  import KMeans

  /** The defaults `eps = 0.3` and `minPts = 3`. */
  const DefaultEps: real := 0.3
  const DefaultMinPts: nat := 3

  /**
   * `euclideanDistance(a, b) <= eps`, decided on squared distances: a distance is never
   * negative, so a negative `eps` admits no neighbour.
   */
  predicate Near(a: Vector, b: Vector, eps: real)
    requires |a| == |b|
  {
    eps >= 0.0 && SqDist(a, b) <= eps * eps
  }

  /** `findNeighbors` over the candidates `0 .. m-1`: in index order, skipping `p` itself. */
  function NeighborsUpTo(points: seq<Vector>, dim: nat, p: nat, eps: real, m: nat): (nb: seq<nat>)
    requires Uniform(points, dim) && p < |points| && m <= |points|
    ensures forall t :: 0 <= t < |nb| ==> nb[t] < m
  {
    if m == 0 then []
    else
      var rest := NeighborsUpTo(points, dim, p, eps, m - 1);
      if m - 1 != p && Near(points[p], points[m - 1], eps) then rest + [m - 1] else rest
  }

  function Neighbors(points: seq<Vector>, dim: nat, p: nat, eps: real): (nb: seq<nat>)
    requires Uniform(points, dim) && p < |points|
    ensures forall t :: 0 <= t < |nb| ==> nb[t] < |points|
  {
    NeighborsUpTo(points, dim, p, eps, |points|)
  }

  /** The neighbours are exactly the other points within `eps`, in increasing index order. */
  lemma {:induction false} NeighborsExactly(points: seq<Vector>, dim: nat, p: nat, eps: real, m: nat)
    requires Uniform(points, dim) && p < |points| && m <= |points|
    ensures forall q: nat :: q in NeighborsUpTo(points, dim, p, eps, m) <==> q < m && q != p && Near(points[p], points[q], eps)
    ensures forall s, t :: 0 <= s < t < |NeighborsUpTo(points, dim, p, eps, m)| ==>
              NeighborsUpTo(points, dim, p, eps, m)[s] < NeighborsUpTo(points, dim, p, eps, m)[t]
  {
    if m > 0 {
      NeighborsExactly(points, dim, p, eps, m - 1);
    }
  }

  /** The loop of `findNeighbors`. */
  method FindNeighbors(points: seq<Vector>, dim: nat, p: nat, eps: real) returns (nb: seq<nat>)
    requires Uniform(points, dim) && p < |points|
    ensures nb == Neighbors(points, dim, p, eps)
  {
    nb := [];
    for i := 0 to |points|
      invariant nb == NeighborsUpTo(points, dim, p, eps, i)
    {
      if i != p {
        if eps >= 0.0 && SqDist(points[p], points[i]) <= eps * eps {
          nb := nb + [i];
        }
      }
    }
  }

  // ---------------------------------------------------------------------------
  // Growing clusters
  // ---------------------------------------------------------------------------

  /** The seed loop over `nb`: a neighbour still at -1 takes the id, every other keeps its label. */
  function Absorb(labels: seq<int>, nb: seq<nat>, id: int): (r: seq<int>)
    requires forall t :: 0 <= t < |nb| ==> nb[t] < |labels|
    ensures |r| == |labels|
  {
    if nb == [] then labels
    else
      var l := Absorb(labels, nb[..|nb| - 1], id);
      var q := nb[|nb| - 1];
      if l[q] == -1 then l[q := id] else l
  }

  /** Exactly the unlabelled neighbours get the id; every other label stays. */
  lemma {:induction false} AbsorbPointwise(labels: seq<int>, nb: seq<nat>, id: int)
    requires forall t :: 0 <= t < |nb| ==> nb[t] < |labels|
    requires id >= 0
    ensures forall q :: 0 <= q < |labels| ==>
              Absorb(labels, nb, id)[q] == if labels[q] == -1 && q in nb then id else labels[q]
  {
    if nb != [] {
      var n := |nb| - 1;
      AbsorbPointwise(labels, nb[..n], id);
      assert nb == nb[..n] + [nb[n]];
    }
  }

  /** The labels after the seed loop and the id the next cluster gets. */
  datatype Scan = Scan(labels: seq<int>, nextId: nat)

  /**
   * One pass of the outer loop at point `i`: a labelled point is skipped, a point with fewer
   * than `minPts` neighbours stays noise, and otherwise `i` seeds cluster `nextId`.
   */
  function Visit(points: seq<Vector>, dim: nat, eps: real, minPts: nat, i: nat, s: Scan): (r: Scan)
    requires Uniform(points, dim) && i < |points| && |s.labels| == |points|
    ensures |r.labels| == |points|
  {
    if s.labels[i] != -1 then s
    else
      var nb := Neighbors(points, dim, i, eps);
      if |nb| < minPts then s
      else Scan(Absorb(s.labels[i := s.nextId], nb, s.nextId), s.nextId + 1)
  }

  /** The state after the outer loop has visited points `0 .. m-1`. */
  function Grow(points: seq<Vector>, dim: nat, eps: real, minPts: nat, m: nat): (r: Scan)
    requires Uniform(points, dim) && m <= |points|
    ensures |r.labels| == |points|
  {
    if m == 0 then Scan(seq(|points|, _ => -1), 0)
    else Visit(points, dim, eps, minPts, m - 1, Grow(points, dim, eps, minPts, m - 1))
  }

  /**
   * A visit labels a new cluster only from an unlabelled point with at least `minPts`
   * neighbours; that cluster is the point and its unlabelled neighbours; no label already
   * set is changed.
   */
  lemma VisitSpec(points: seq<Vector>, dim: nat, eps: real, minPts: nat, i: nat, s: Scan)
    requires Uniform(points, dim) && i < |points| && |s.labels| == |points|
    ensures var r := Visit(points, dim, eps, minPts, i, s);
            var nb := Neighbors(points, dim, i, eps);
            if s.labels[i] != -1 || |nb| < minPts then r == s
            else r.nextId == s.nextId + 1
                 && forall q :: 0 <= q < |points| ==>
                      r.labels[q] == if q == i || (s.labels[q] == -1 && q in nb) then s.nextId else s.labels[q]
  {
    var nb := Neighbors(points, dim, i, eps);
    if s.labels[i] == -1 && |nb| >= minPts {
      AbsorbPointwise(s.labels[i := s.nextId], nb, s.nextId);
    }
  }

  /** Every label is -1 or an id handed out so far, and every id handed out labels some point. */
  predicate Consistent(s: Scan) {
    && (forall q :: 0 <= q < |s.labels| ==> -1 <= s.labels[q] < s.nextId)
    && (forall c :: 0 <= c < s.nextId ==> c in s.labels)
  }

  lemma VisitConsistent(points: seq<Vector>, dim: nat, eps: real, minPts: nat, i: nat, s: Scan)
    requires Uniform(points, dim) && i < |points| && |s.labels| == |points| && Consistent(s)
    ensures Consistent(Visit(points, dim, eps, minPts, i, s))
    ensures forall q :: 0 <= q < |points| && s.labels[q] != -1 ==> Visit(points, dim, eps, minPts, i, s).labels[q] == s.labels[q]
  {
    VisitSpec(points, dim, eps, minPts, i, s);
    var r := Visit(points, dim, eps, minPts, i, s);
    if r != s {
      assert r.labels[i] == s.nextId;
      forall c | 0 <= c < r.nextId ensures c in r.labels {
        if c < s.nextId {
          assert c in s.labels;
          var q :| 0 <= q < |s.labels| && s.labels[q] == c;
          assert r.labels[q] == c;
        }
      }
    }
  }

  lemma {:induction false} GrowConsistent(points: seq<Vector>, dim: nat, eps: real, minPts: nat, m: nat)
    requires Uniform(points, dim) && m <= |points|
    ensures Consistent(Grow(points, dim, eps, minPts, m))
  {
    if m > 0 {
      GrowConsistent(points, dim, eps, minPts, m - 1);
      VisitConsistent(points, dim, eps, minPts, m - 1, Grow(points, dim, eps, minPts, m - 1));
    }
  }

  /** Points already clustered are never relabelled by a later visit. */
  lemma {:induction false} GrowKeepsLabels(points: seq<Vector>, dim: nat, eps: real, minPts: nat, m1: nat, m2: nat, q: nat)
    requires Uniform(points, dim) && m1 <= m2 <= |points| && q < |points|
    requires Grow(points, dim, eps, minPts, m1).labels[q] != -1
    ensures Grow(points, dim, eps, minPts, m2).labels[q] == Grow(points, dim, eps, minPts, m1).labels[q]
    decreases m2
  {
    if m1 < m2 {
      GrowKeepsLabels(points, dim, eps, minPts, m1, m2 - 1, q);
      GrowConsistent(points, dim, eps, minPts, m2 - 1);
      VisitConsistent(points, dim, eps, minPts, m2 - 1, Grow(points, dim, eps, minPts, m2 - 1));
    }
  }

  /** The neighbour loop of one seed. */
  method AbsorbNeighbors(labels: seq<int>, nb: seq<nat>, id: int) returns (r: seq<int>)
    requires forall t :: 0 <= t < |nb| ==> nb[t] < |labels|
    ensures r == Absorb(labels, nb, id)
  {
    r := labels;
    for j := 0 to |nb|
      invariant r == Absorb(labels, nb[..j], id)
    {
      assert nb[..j + 1][..j] == nb[..j];
      var neighbor := nb[j];
      if r[neighbor] == -1 {
        r := r[neighbor := id];
      }
    }
    assert nb[..|nb|] == nb;
  }

  /** The outer loop: visit every point in order. */
  method GrowClusters(points: seq<Vector>, dim: nat, eps: real, minPts: nat) returns (labels: seq<int>, clusterId: nat)
    requires Uniform(points, dim)
    ensures Scan(labels, clusterId) == Grow(points, dim, eps, minPts, |points|)
  {
    labels := seq(|points|, _ => -1);
    clusterId := 0;
    for i := 0 to |points|
      invariant Scan(labels, clusterId) == Grow(points, dim, eps, minPts, i)
    {
      if labels[i] != -1 {
        continue;
      }
      var neighbors := FindNeighbors(points, dim, i, eps);
      if |neighbors| < minPts {
        labels := labels[i := -1];
        continue;
      }
      labels := labels[i := clusterId];
      labels := AbsorbNeighbors(labels, neighbors, clusterId);
      clusterId := clusterId + 1;
    }
  }

  // ---------------------------------------------------------------------------
  // Centroids and noise
  // ---------------------------------------------------------------------------

  /** `Math.max(...labels)` of a non-empty label list. */
  function MaxLabel(labels: seq<int>): (m: int)
    requires |labels| >= 1
    ensures m in labels
    ensures forall q :: 0 <= q < |labels| ==> labels[q] <= m
  {
    if |labels| == 1 then labels[0]
    else
      var rest := MaxLabel(labels[1..]);
      if labels[0] >= rest then labels[0] else rest
  }

  /** `numClusters = Math.max(...labels) + 1` is the number of ids handed out. */
  lemma NumClustersIsNextId(s: Scan)
    requires |s.labels| >= 1 && Consistent(s)
    ensures MaxLabel(s.labels) + 1 == s.nextId
  {
    var m := MaxLabel(s.labels);
    if s.nextId > 0 {
      assert s.nextId - 1 in s.labels;
    }
  }

  /** The centroid loop over ids `0 .. m-1`: an id with points contributes their centroid. */
  function ClusterCentroids(points: seq<Vector>, labels: seq<int>, m: nat): (cs: seq<Vector>)
    requires |labels| == |points|
    ensures |cs| <= m
  {
    if m == 0 then []
    else
      var ms := KMeans.Members(points, labels, m - 1);
      ClusterCentroids(points, labels, m - 1) + (if |ms| > 0 then [Centroid(ms)] else [])
  }

  /** Every id that labels some point yields one centroid, the mean of its points, at its own index. */
  lemma {:induction false} ClusterCentroidsAllUsed(points: seq<Vector>, labels: seq<int>, m: nat)
    requires |labels| == |points|
    requires forall c :: 0 <= c < m ==> c in labels
    ensures |ClusterCentroids(points, labels, m)| == m
    ensures forall c :: 0 <= c < m ==> ClusterCentroids(points, labels, m)[c] == Centroid(KMeans.Members(points, labels, c))
  {
    if m > 0 {
      ClusterCentroidsAllUsed(points, labels, m - 1);
      var prev := ClusterCentroids(points, labels, m - 1);
      var ms := KMeans.Members(points, labels, m - 1);
      assert m - 1 in labels;
      var q :| 0 <= q < |labels| && labels[q] == m - 1;
      KMeans.MembersNonEmpty(points, labels, m - 1);
      assert ClusterCentroids(points, labels, m) == prev + [Centroid(ms)];
      forall c | 0 <= c < m
        ensures ClusterCentroids(points, labels, m)[c] == Centroid(KMeans.Members(points, labels, c))
      {
        if c < m - 1 {
          assert ClusterCentroids(points, labels, m)[c] == prev[c];
        }
      }
    }
  }

  lemma {:induction false} ClusterCentroidsUniform(points: seq<Vector>, dim: nat, labels: seq<int>, m: nat)
    requires |labels| == |points| && Uniform(points, dim)
    ensures Uniform(ClusterCentroids(points, labels, m), dim)
  {
    if m > 0 {
      ClusterCentroidsUniform(points, dim, labels, m - 1);
      var ms := KMeans.Members(points, labels, m - 1);
      if |ms| > 0 {
        assert ms[0] in points;
      }
    }
  }

  /** Leftover noise goes to the nearest centroid when there is one; every other label stays. */
  function AssignNoise(points: seq<Vector>, labels: seq<int>, cs: seq<Vector>): (r: seq<int>)
    requires |labels| == |points| && KMeans.AllCompatible(points, cs)
    ensures |r| == |labels|
  {
    seq(|labels|, i requires 0 <= i < |labels| =>
      if labels[i] == -1 && |cs| > 0 then KMeans.Nearest(points[i], cs) as int else labels[i])
  }

  datatype Clustering = Clustering(labels: seq<int>, centroids: seq<Vector>)

  /** What `performDBSCAN(points, eps, minPts)` returns. */
  function DbscanResult(points: seq<Vector>, eps: real, minPts: nat): (r: Clustering)
    requires |points| >= 1 && Uniform(points, |points[0]|)
  {
    var dim := |points[0]|;
    var s := Grow(points, dim, eps, minPts, |points|);
    GrowConsistent(points, dim, eps, minPts, |points|);
    NumClustersIsNextId(s);
    var cs := ClusterCentroids(points, s.labels, MaxLabel(s.labels) + 1);
    ClusterCentroidsUniform(points, dim, s.labels, MaxLabel(s.labels) + 1);
    Clustering(AssignNoise(points, s.labels, cs), cs)
  }

  method PerformDBSCAN(points: seq<Vector>, eps: real, minPts: nat) returns (labels: seq<int>, centroids: seq<Vector>)
    requires |points| >= 1 && Uniform(points, |points[0]|)
    ensures Clustering(labels, centroids) == DbscanResult(points, eps, minPts)
  {
    var dim := |points[0]|;
    var clusterId;
    labels, clusterId := GrowClusters(points, dim, eps, minPts);
    GrowConsistent(points, dim, eps, minPts, |points|);
    NumClustersIsNextId(Scan(labels, clusterId));
    var numClusters := MaxLabel(labels) + 1;
    centroids := CentroidLoop(points, labels, numClusters);
    ClusterCentroidsUniform(points, dim, labels, numClusters);
    labels := NoiseLoop(points, labels, centroids);
  }

  /** The loop over ids `0 .. numClusters-1` that collects the centroid of every id with points. */
  method CentroidLoop(points: seq<Vector>, labels: seq<int>, numClusters: nat) returns (centroids: seq<Vector>)
    requires |labels| == |points|
    ensures centroids == ClusterCentroids(points, labels, numClusters)
  {
    centroids := [];
    for i := 0 to numClusters
      invariant centroids == ClusterCentroids(points, labels, i)
    {
      var clusterPoints := KMeans.Members(points, labels, i);
      if |clusterPoints| > 0 {
        var c := CalculateCentroid(clusterPoints);
        centroids := centroids + [c];
      }
    }
  }

  /** The loop that hands each leftover noise point to its nearest centroid. */
  method NoiseLoop(points: seq<Vector>, before: seq<int>, centroids: seq<Vector>) returns (labels: seq<int>)
    requires |before| == |points| && KMeans.AllCompatible(points, centroids)
    ensures labels == AssignNoise(points, before, centroids)
  {
    labels := before;
    for i := 0 to |points|
      invariant |labels| == |points|
      invariant forall q :: 0 <= q < i ==> labels[q] == AssignNoise(points, before, centroids)[q]
      invariant forall q :: i <= q < |points| ==> labels[q] == before[q]
    {
      if labels[i] == -1 && |centroids| > 0 {
        var nearestCluster := KMeans.NearestCentroid(points[i], centroids);
        labels := labels[i := nearestCluster];
      }
    }
  }

  /**
   * DBSCAN's outcome: one centroid per cluster found, the mean of that cluster's points
   * before noise is assigned; when a cluster exists every point ends in one of them,
   * otherwise every point stays noise; points clustered by the seed loop keep their label.
   */
  lemma DbscanOutcome(points: seq<Vector>, eps: real, minPts: nat)
    requires |points| >= 1 && Uniform(points, |points[0]|)
    ensures var s := Grow(points, |points[0]|, eps, minPts, |points|);
            var r := DbscanResult(points, eps, minPts);
            && |r.centroids| == s.nextId
            && (forall c :: 0 <= c < s.nextId ==> r.centroids[c] == Centroid(KMeans.Members(points, s.labels, c)))
            && |r.labels| == |points|
            && (s.nextId > 0 ==> forall q :: 0 <= q < |points| ==> 0 <= r.labels[q] < s.nextId)
            && (s.nextId == 0 ==> forall q :: 0 <= q < |points| ==> r.labels[q] == -1)
            && (forall q :: 0 <= q < |points| && s.labels[q] != -1 ==> r.labels[q] == s.labels[q])
  {
    var dim := |points[0]|;
    var s := Grow(points, dim, eps, minPts, |points|);
    GrowConsistent(points, dim, eps, minPts, |points|);
    NumClustersIsNextId(s);
    ClusterCentroidsAllUsed(points, s.labels, s.nextId);
  }
}
