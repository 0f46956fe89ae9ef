/** The distance oracle: pairwise squared Euclidean distances between two point
    sets, computed in the expanded form |x|^2 + |y|^2 - 2<x, y>. */
module Distance {

  /** A point of the ambient space: its coordinates. */
  type Point = seq<real>

  /** A dense matrix stored row by row. */
  type Matrix = seq<seq<real>>

  /** Every point of `pts` has `d` coordinates. */
  predicate HasDim(pts: seq<Point>, d: nat)
  {
    forall k :: 0 <= k < |pts| ==> |pts[k]| == d
  }

  /** The width of the first point of `x`, or else of `y`. */
  function Width(x: seq<Point>, y: seq<Point>): nat
  {
    if |x| > 0 then |x[0]| else if |y| > 0 then |y[0]| else 0
  }

  /** Every point of `x` has as many coordinates as every point of `y`. */
  predicate SameWidth(x: seq<Point>, y: seq<Point>)
  {
    HasDim(x, Width(x, y)) && HasDim(y, Width(x, y))
  }

  lemma HasDimSameWidth(x: seq<Point>, y: seq<Point>, d: nat)
    requires HasDim(x, d) && HasDim(y, d)
    ensures SameWidth(x, y) && SameWidth(y, x)
  {
  }

  /** The inner product (over the common leading coordinates). */
  function Dot(a: Point, b: Point): real
  {
    if |a| == 0 || |b| == 0 then 0.0 else a[0] * b[0] + Dot(a[1..], b[1..])
  }

  /** Reference definition: the sum of squared coordinate differences (over
      the common leading coordinates; the points compared always have equal
      dimension). */
  function SqDiffSum(a: Point, b: Point): real
  {
    if |a| == 0 || |b| == 0 then 0.0 else (a[0] - b[0]) * (a[0] - b[0]) + SqDiffSum(a[1..], b[1..])
  }

  /** The entry `compute_distance` evaluates: |a|^2 + |b|^2 - 2<a, b>. */
  function Expanded(a: Point, b: Point): real
  {
    Dot(a, a) + Dot(b, b) - 2.0 * Dot(a, b)
  }

  /** Over the reals the expanded form is the sum of squared differences, hence non-negative. */
  lemma {:induction false} ExpandedIsSqDiffSum(a: Point, b: Point)
    requires |a| == |b|
    ensures Expanded(a, b) == SqDiffSum(a, b)
    ensures SqDiffSum(a, b) >= 0.0
  {
    if |a| > 0 {
      ExpandedIsSqDiffSum(a[1..], b[1..]);
      var d := a[0] - b[0];
      assert d * d == a[0] * a[0] + b[0] * b[0] - 2.0 * (a[0] * b[0]);
      assert d * d >= 0.0;
    }
  }

  lemma {:induction false} SqDiffSumSymmetric(a: Point, b: Point)
    requires |a| == |b|
    ensures SqDiffSum(a, b) == SqDiffSum(b, a)
  {
    if |a| > 0 {
      SqDiffSumSymmetric(a[1..], b[1..]);
      assert (a[0] - b[0]) * (a[0] - b[0]) == (b[0] - a[0]) * (b[0] - a[0]);
    }
  }

  lemma {:induction false} SqDiffSumSelf(a: Point)
    ensures SqDiffSum(a, a) == 0.0
  {
    if |a| > 0 {
      SqDiffSumSelf(a[1..]);
    }
  }

  lemma ExpandedAll(x: seq<Point>, y: seq<Point>)
    requires SameWidth(x, y)
    ensures forall i, j :: 0 <= i < |x| && 0 <= j < |y| ==>
              Expanded(x[i], y[j]) == SqDiffSum(x[i], y[j]) && SqDiffSum(x[i], y[j]) >= 0.0
  {
    forall i, j | 0 <= i < |x| && 0 <= j < |y|
      ensures Expanded(x[i], y[j]) == SqDiffSum(x[i], y[j]) && SqDiffSum(x[i], y[j]) >= 0.0
    {
      ExpandedIsSqDiffSum(x[i], y[j]);
    }
  }

  /** `compute_distance(x, y)`: a |x| by |y| matrix whose (i, j) entry is the
      squared distance between x_i and y_j. */
  function ComputeDistance(x: seq<Point>, y: seq<Point>): (d: Matrix)
    requires SameWidth(x, y)
    ensures |d| == |x|
    ensures forall i :: 0 <= i < |x| ==> |d[i]| == |y|
    ensures forall i, j :: 0 <= i < |x| && 0 <= j < |y| ==>
              d[i][j] == SqDiffSum(x[i], y[j]) && d[i][j] >= 0.0
  {
    ExpandedAll(x, y);
    seq(|x|, i requires 0 <= i < |x| =>
      seq(|y|, j requires 0 <= j < |y| => Expanded(x[i], y[j])))
  }

  /** Swapping the arguments of the oracle transposes its result. */
  lemma ComputeDistanceTransposes(x: seq<Point>, y: seq<Point>)
    requires SameWidth(x, y)
    ensures SameWidth(y, x)
    ensures forall i, j :: 0 <= i < |x| && 0 <= j < |y| ==>
              ComputeDistance(y, x)[j][i] == ComputeDistance(x, y)[i][j]
  {
    forall i, j | 0 <= i < |x| && 0 <= j < |y|
      ensures ComputeDistance(y, x)[j][i] == ComputeDistance(x, y)[i][j]
    {
      SqDiffSumSymmetric(x[i], y[j]);
    }
  }

  /** A point is at distance zero from itself: the diagonal of a self-distance matrix vanishes. */
  lemma ComputeDistanceDiagonal(x: seq<Point>)
    requires SameWidth(x, x)
    ensures forall i :: 0 <= i < |x| ==> ComputeDistance(x, x)[i][i] == 0.0
  {
    forall i | 0 <= i < |x|
      ensures ComputeDistance(x, x)[i][i] == 0.0
    {
      SqDiffSumSelf(x[i]);
    }
  }
}
