/**
 * Points, centroids and the nearest-centroid rule that the single-threaded,
 * multi-threaded and multi-process k-means runners all apply.
 *
 * A row of the data matrix is `{x, y, cluster}`; the cluster column is stored as
 * a double in the source and read back with an `(int)` cast, so it is an
 * `int` here. Coordinates are exact reals, and the Euclidean distance is
 * replaced by its square, which picks the same nearest centroid because the
 * square root is monotone.
 */
module Clustering {

  /** One row of the data matrix: the coordinates and the cluster label. */
  datatype Point = Point(x: real, y: real, cluster: int)

  /** One row of the centroid matrix. */
  datatype Centroid = Centroid(x: real, y: real)

  /** True when `p` and `q` agree on both coordinates (labels may differ). */
  predicate SameCoords(p: Point, q: Point)
  {
    p.x == q.x && p.y == q.y
  }

  function Sq(a: real): real
  {
    a * a
  }

  /** Squared Euclidean distance between a point and a centroid. */
  function SqDist(p: Point, c: Centroid): real
  {
    Sq(p.x - c.x) + Sq(p.y - c.y)
  }

  lemma PositiveProduct(a: real, b: real)
    requires a > 0.0 && b > 0.0
    ensures a * b > 0.0
  {
  }

  /** A square is never negative, and it is positive for a non-zero number. */
  lemma SquareSign(a: real)
    ensures Sq(a) >= 0.0
    ensures a != 0.0 ==> Sq(a) > 0.0
  {
    if a > 0.0 {
      PositiveProduct(a, a);
      calc {
        Sq(a);
        a * a;
      >
        0.0;
      }
    } else if a < 0.0 {
      PositiveProduct(-a, -a);
      calc {
        Sq(a);
        a * a;
        (-a) * (-a);
      >
        0.0;
      }
    }
  }

  /** The distance is never negative, and it is zero exactly when the point
      sits on the centroid. */
  lemma SqDistZero(p: Point, c: Centroid)
    ensures SqDist(p, c) >= 0.0
    ensures SqDist(p, c) == 0.0 <==> p.x == c.x && p.y == c.y
  {
    SquareSign(p.x - c.x);
    SquareSign(p.y - c.y);
  }

  /**
   * The running-minimum scan over `cs[0..n)`: index 0 is taken first, and
   * centroid `j` replaces the current choice only when it is strictly
   * closer. For `n == 0` the scan keeps its initial value 0.
   */
  function NearestUpTo(p: Point, cs: seq<Centroid>, n: nat): (r: nat)
    requires n <= |cs|
    ensures if n == 0 then r == 0 else r < n
  {
    if n <= 1 then 0
    else
      var r := NearestUpTo(p, cs, n - 1);
      if SqDist(p, cs[n - 1]) < SqDist(p, cs[r]) then n - 1 else r
  }

  /** The label the scan assigns to `p` given the first `k` centroids. */
  function Nearest(p: Point, cs: seq<Centroid>, k: nat): nat
    requires k <= |cs|
  {
    NearestUpTo(p, cs, k)
  }

  /**
   * What the scan promises: with no centroid the answer is 0; otherwise the
   * answer is a centroid index, no centroid is strictly closer, and every
   * lower index is strictly farther (ties go to the lowest index).
   */
  predicate IsNearest(p: Point, cs: seq<Centroid>, k: nat, r: int)
    requires k <= |cs|
  {
    if k == 0 then r == 0
    else
      && 0 <= r < k
      && (forall i :: 0 <= i < k ==> SqDist(p, cs[r]) <= SqDist(p, cs[i]))
      && (forall i :: 0 <= i < r ==> SqDist(p, cs[r]) < SqDist(p, cs[i]))
  }

  lemma {:induction false} NearestIsNearest(p: Point, cs: seq<Centroid>, k: nat)
    requires k <= |cs|
    ensures IsNearest(p, cs, k, Nearest(p, cs, k))
  {
    if k > 1 {
      NearestIsNearest(p, cs, k - 1);
    }
  }

  /** The nearest index is determined uniquely by `IsNearest`. */
  lemma NearestUnique(p: Point, cs: seq<Centroid>, k: nat, r: int)
    requires k <= |cs|
    requires IsNearest(p, cs, k, r)
    ensures r == Nearest(p, cs, k)
  {
    NearestIsNearest(p, cs, k);
  }

  /** Only the coordinates of a point decide its nearest centroid. */
  lemma NearestIgnoresLabel(p: Point, q: Point, cs: seq<Centroid>, k: nat)
    requires k <= |cs|
    requires SameCoords(p, q)
    ensures Nearest(p, cs, k) == Nearest(q, cs, k)
  {
    NearestIsNearest(p, cs, k);
    assert forall i :: 0 <= i < k ==> SqDist(p, cs[i]) == SqDist(q, cs[i]);
    NearestUnique(q, cs, k, Nearest(p, cs, k));
  }

  /** A point lying on centroid `j` gets a label no greater than `j`, and the
      centroid it gets is also at distance zero. */
  lemma NearestOnCentroid(p: Point, cs: seq<Centroid>, k: nat, j: nat)
    requires j < k <= |cs|
    requires p.x == cs[j].x && p.y == cs[j].y
    ensures Nearest(p, cs, k) <= j
    ensures SqDist(p, cs[Nearest(p, cs, k)]) == 0.0
  {
    NearestIsNearest(p, cs, k);
    var r := Nearest(p, cs, k);
    SqDistZero(p, cs[j]);
    SqDistZero(p, cs[r]);
  }

  /** Two equally near centroids: the lower index wins. */
  lemma TieGoesToLowest(p: Point, cs: seq<Centroid>, k: nat, i: nat, j: nat)
    requires i < j < k <= |cs|
    requires SqDist(p, cs[i]) == SqDist(p, cs[j])
    ensures Nearest(p, cs, k) != j
  {
    NearestIsNearest(p, cs, k);
  }

  /** The point with its label replaced by the index of its nearest centroid. */
  function Assign(p: Point, cs: seq<Centroid>, k: nat): Point
    requires k <= |cs|
  {
    p.(cluster := Nearest(p, cs, k))
  }

  /** One full assignment pass over all points. */
  function Relabel(pts: seq<Point>, cs: seq<Centroid>, k: nat): (r: seq<Point>)
    requires k <= |cs|
    ensures |r| == |pts|
  {
    seq(|pts|, i requires 0 <= i < |pts| => Assign(pts[i], cs, k))
  }

  /** All labels are cluster indices below `k`. */
  predicate InRange(pts: seq<Point>, k: nat)
  {
    forall i :: 0 <= i < |pts| ==> 0 <= pts[i].cluster < k
  }

  /** The label column of a sequence of points. */
  function Labels(pts: seq<Point>): (r: seq<int>)
    ensures |r| == |pts|
    ensures forall i :: 0 <= i < |pts| ==> r[i] == pts[i].cluster
  {
    seq(|pts|, i requires 0 <= i < |pts| => pts[i].cluster)
  }

  /**
   * What one assignment pass promises: the number of points and every
   * point's coordinates are unchanged, every label is the nearest centroid
   * in the sense of `IsNearest`, and with at least one centroid every label
   * is a cluster index.
   */
  lemma RelabelSpec(pts: seq<Point>, cs: seq<Centroid>, k: nat)
    requires k <= |cs|
    ensures |Relabel(pts, cs, k)| == |pts|
    ensures forall i :: 0 <= i < |pts| ==>
      SameCoords(Relabel(pts, cs, k)[i], pts[i]) &&
      IsNearest(pts[i], cs, k, Relabel(pts, cs, k)[i].cluster)
    ensures k > 0 ==> InRange(Relabel(pts, cs, k), k)
  {
    forall i | 0 <= i < |pts|
      ensures IsNearest(pts[i], cs, k, Relabel(pts, cs, k)[i].cluster)
    {
      NearestIsNearest(pts[i], cs, k);
    }
  }

  /** Relabelling does not depend on the labels the points had before. */
  lemma RelabelIgnoresLabels(pts: seq<Point>, qts: seq<Point>, cs: seq<Centroid>, k: nat)
    requires k <= |cs|
    requires |pts| == |qts|
    requires forall i :: 0 <= i < |pts| ==> SameCoords(pts[i], qts[i])
    ensures Relabel(pts, cs, k) == Relabel(qts, cs, k)
  {
    forall i | 0 <= i < |pts|
      ensures Relabel(pts, cs, k)[i] == Relabel(qts, cs, k)[i]
    {
      NearestIgnoresLabel(pts[i], qts[i], cs, k);
    }
  }

  /**
   * `findClosestCluster`: a linear scan with a running minimum. The source
   * starts `minDistance` at `Double.MAX_VALUE`, so the first centroid always
   * wins its comparison; here the first centroid is taken unconditionally.
   */
  method FindClosestCluster(point: Point, centroids: array<Centroid>, k: nat) returns (closest: nat)
    requires k <= centroids.Length
    ensures IsNearest(point, centroids[..], k, closest)
    ensures closest == Nearest(point, centroids[..], k)
  {
    closest := 0;
    var minDistance := 0.0;
    var j := 0;
    while j < k
      invariant 0 <= j <= k
      invariant closest == NearestUpTo(point, centroids[..], j)
      invariant j > 0 ==> minDistance == SqDist(point, centroids[closest])
    {
      var distance := SqDist(point, centroids[j]);
      if j == 0 || distance < minDistance {
        closest := j;
        minDistance := distance;
      }
      j := j + 1;
    }
    NearestIsNearest(point, centroids[..], k);
  }
}
