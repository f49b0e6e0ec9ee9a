/**
 * Feature vectors of the clustering controller: squared Euclidean distance and the
 * coordinate-wise mean `calculateCentroid`.
 *
 * `euclideanDistance` takes a square root, but every caller only compares distances
 * with `<` or `<=`; since the square root is strictly increasing on non-negative
 * reals, comparing squared distances (and the squared radius) decides the same way.
 */
module Vectors {

  type Vector = seq<real>

  /** `point[i] || 0`: a missing coordinate reads as 0. */
  function Coord(p: Vector, i: nat): real {
    if i < |p| then p[i] else 0.0
  }

  function SumSquares(p: Vector, q: Vector, n: nat): (r: real)
    requires n <= |p| && n <= |q|
    ensures r >= 0.0
  {
    if n == 0 then 0.0 else SumSquares(p, q, n - 1) + (p[n - 1] - q[n - 1]) * (p[n - 1] - q[n - 1])
  }

  /** The square of `euclideanDistance(p, q)` for vectors of equal length. */
  function SqDist(p: Vector, q: Vector): (r: real)
    requires |p| == |q|
    ensures r >= 0.0
  {
    SumSquares(p, q, |p|)
  }

  lemma {:induction false} SumSquaresSymmetric(p: Vector, q: Vector, n: nat)
    requires n <= |p| && n <= |q|
    ensures SumSquares(p, q, n) == SumSquares(q, p, n)
  {
    if n > 0 {
      SumSquaresSymmetric(p, q, n - 1);
    }
  }

  lemma {:induction false} SumSquaresSelf(p: Vector, n: nat)
    requires n <= |p|
    ensures SumSquares(p, p, n) == 0.0
  {
    if n > 0 {
      SumSquaresSelf(p, n - 1);
    }
  }

  /** Distance is symmetric and a vector is at distance 0 from itself. */
  lemma SqDistProperties(p: Vector, q: Vector)
    requires |p| == |q|
    ensures SqDist(p, q) == SqDist(q, p)
    ensures SqDist(p, p) == 0.0
  {
    SumSquaresSymmetric(p, q, |p|);
    SumSquaresSelf(p, |p|);
  }

  /** Every vector in `points` has `dim` coordinates. */
  predicate Uniform(points: seq<Vector>, dim: nat) {
    forall i :: 0 <= i < |points| ==> |points[i]| == dim
  }

  /** Sum of coordinate `d` over the first `n` points. */
  function ColumnSum(points: seq<Vector>, d: nat, n: nat): real
    requires n <= |points|
  {
    if n == 0 then 0.0 else ColumnSum(points, d, n - 1) + Coord(points[n - 1], d)
  }

  /**
   * `calculateCentroid`: the empty vector for no points, otherwise the coordinate-wise
   * mean over as many coordinates as the first point has.
   */
  function Centroid(points: seq<Vector>): (c: Vector)
    ensures points == [] ==> c == []
    ensures points != [] ==> |c| == |points[0]|
  {
    if points == [] then []
    else seq(|points[0]|, d requires 0 <= d < |points[0]| => ColumnSum(points, d, |points|) / |points| as real)
  }

  /**
   * `calculateCentroid` as the source runs it: add every point into a zero vector
   * coordinate by coordinate, then divide every sum by the number of points.
   */
  method CalculateCentroid(points: seq<Vector>) returns (c: Vector)
    ensures c == Centroid(points)
  {
    if |points| == 0 {
      return [];
    }
    var dims := |points[0]|;
    var sums: seq<real> := seq(dims, _ => 0.0);
    for t := 0 to |points|
      invariant |sums| == dims
      invariant forall d :: 0 <= d < dims ==> sums[d] == ColumnSum(points, d, t)
    {
      for d := 0 to dims
        invariant |sums| == dims
        invariant forall e :: 0 <= e < d ==> sums[e] == ColumnSum(points, e, t + 1)
        invariant forall e :: d <= e < dims ==> sums[e] == ColumnSum(points, e, t)
      {
        sums := sums[d := sums[d] + Coord(points[t], d)];
      }
    }
    c := seq(dims, d requires 0 <= d < dims => sums[d] / |points| as real);
  }

  /** The centroid of a single point is that point. */
  lemma CentroidSingleton(p: Vector)
    ensures Centroid([p]) == p
  {
    var c := Centroid([p]);
    forall d | 0 <= d < |p| ensures c[d] == p[d] {
      assert ColumnSum([p], d, 1) == Coord(p, d);
    }
  }

  /** Every coordinate of a centroid lies between the smallest and largest coordinate of its points. */
  lemma {:induction false} ColumnSumBounds(points: seq<Vector>, d: nat, n: nat, lo: real, hi: real)
    requires n <= |points|
    requires forall i :: 0 <= i < n ==> lo <= Coord(points[i], d) <= hi
    ensures n as real * lo <= ColumnSum(points, d, n) <= n as real * hi
  {
    if n > 0 {
      ColumnSumBounds(points, d, n - 1, lo, hi);
    }
  }

  lemma CentroidWithinBounds(points: seq<Vector>, d: nat, lo: real, hi: real)
    requires points != [] && d < |points[0]|
    requires forall i :: 0 <= i < |points| ==> lo <= Coord(points[i], d) <= hi
    ensures lo <= Centroid(points)[d] <= hi
  {
    ColumnSumBounds(points, d, |points|, lo, hi);
    var n := |points| as real;
    var s := ColumnSum(points, d, |points|);
    assert n * lo <= s <= n * hi;
    DivBounds(s, n, lo, hi);
  }

  lemma DivBounds(s: real, n: real, lo: real, hi: real)
    requires n > 0.0 && n * lo <= s <= n * hi
    ensures lo <= s / n <= hi
  {
  }
}
