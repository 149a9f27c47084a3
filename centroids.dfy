/**
 * Centroid seeding and centroid recomputation, shared by the three runners,
 * and the whole fixed-iteration k-means loop as a specification.
 *
 * Recomputation sums the coordinates and counts the points of every cluster
 * and divides the sums of every non-empty cluster by its count. The new
 * centroid matrix starts zeroed and is not divided for an empty cluster, so
 * an empty cluster's centroid becomes (0, 0); it does not keep its previous
 * position.
 */
module Centroids {
  import opened Clustering

  /** The number of points labelled `c`. */
  function Count(pts: seq<Point>, c: int): nat
    decreases |pts|
  {
    if pts == [] then 0
    else Count(pts[..|pts| - 1], c) + (if pts[|pts| - 1].cluster == c then 1 else 0)
  }

  /** The sum of the x coordinates of the points labelled `c`. */
  function SumX(pts: seq<Point>, c: int): real
    decreases |pts|
  {
    if pts == [] then 0.0
    else SumX(pts[..|pts| - 1], c) + (if pts[|pts| - 1].cluster == c then pts[|pts| - 1].x else 0.0)
  }

  /** The sum of the y coordinates of the points labelled `c`. */
  function SumY(pts: seq<Point>, c: int): real
    decreases |pts|
  {
    if pts == [] then 0.0
    else SumY(pts[..|pts| - 1], c) + (if pts[|pts| - 1].cluster == c then pts[|pts| - 1].y else 0.0)
  }

  /** The recomputed centroid of cluster `c`: the mean of its points, or
      (0, 0) when no point is labelled `c`. */
  function NewCentroid(pts: seq<Point>, c: int): Centroid
  {
    var n := Count(pts, c);
    if n > 0 then Centroid(SumX(pts, c) / n as real, SumY(pts, c) / n as real)
    else Centroid(0.0, 0.0)
  }

  /** The centroid matrix after `updateCentroids`. */
  function UpdatedCentroids(pts: seq<Point>, k: nat): (cs: seq<Centroid>)
    ensures |cs| == k
  {
    seq(k, c requires 0 <= c < k => NewCentroid(pts, c))
  }

  /** The seed centroids: centroid `i` is the position of point `i`. */
  function Seeds(pts: seq<Point>, k: nat): (cs: seq<Centroid>)
    requires k <= |pts|
    ensures |cs| == k
  {
    seq(k, i requires 0 <= i < k => Centroid(pts[i].x, pts[i].y))
  }

  /** The histogram of labels `0..k-1`. */
  function Sizes(pts: seq<Point>, k: nat): (sizes: seq<nat>)
    ensures |sizes| == k
  {
    seq(k, c requires 0 <= c < k => Count(pts, c))
  }

  function Total(s: seq<nat>): nat
  {
    if s == [] then 0 else Total(s[..|s| - 1]) + s[|s| - 1]
  }

  lemma {:induction false} TotalIncrement(s: seq<nat>, i: nat)
    requires i < |s|
    ensures Total(s[i := s[i] + 1]) == Total(s) + 1
  {
    var t := s[i := s[i] + 1];
    if i < |s| - 1 {
      assert t[..|t| - 1] == s[..|s| - 1][i := s[i] + 1];
      TotalIncrement(s[..|s| - 1], i);
    } else {
      assert t[..|t| - 1] == s[..|s| - 1];
    }
  }

  lemma {:induction false} TotalOfZeros(s: seq<nat>)
    requires forall i :: 0 <= i < |s| ==> s[i] == 0
    ensures Total(s) == 0
  {
    if s != [] {
      TotalOfZeros(s[..|s| - 1]);
    }
  }

  /** The counts of one point more: only its own cluster's count grows. */
  lemma CountSnoc(pts: seq<Point>, p: Point, c: int)
    ensures Count(pts + [p], c) == Count(pts, c) + (if p.cluster == c then 1 else 0)
    ensures SumX(pts + [p], c) == SumX(pts, c) + (if p.cluster == c then p.x else 0.0)
    ensures SumY(pts + [p], c) == SumY(pts, c) + (if p.cluster == c then p.y else 0.0)
  {
    assert (pts + [p])[..|pts|] == pts;
  }

  /** When every label is below `k`, the cluster sizes add up to the number
      of points: every point is counted in exactly one cluster. */
  lemma {:induction false} SizesSumToLength(pts: seq<Point>, k: nat)
    requires InRange(pts, k)
    ensures Total(Sizes(pts, k)) == |pts|
  {
    if pts != [] {
      var init, p := pts[..|pts| - 1], pts[|pts| - 1];
      assert pts == init + [p];
      assert InRange(init, k);
      SizesSumToLength(init, k);
      assert Total(Sizes(init, k)) == |init|;
      forall c | 0 <= c < k
        ensures Sizes(pts, k)[c] == Sizes(init, k)[p.cluster := Sizes(init, k)[p.cluster] + 1][c]
      {
        CountSnoc(init, p, c);
      }
      assert Sizes(pts, k) == Sizes(init, k)[p.cluster := Sizes(init, k)[p.cluster] + 1];
      TotalIncrement(Sizes(init, k), p.cluster);
      assert Total(Sizes(pts, k)) == Total(Sizes(init, k)) + 1;
      assert |pts| == |init| + 1;
    } else {
      TotalOfZeros(Sizes(pts, k));
    }
  }

  lemma DivTimes(a: real, n: real)
    requires n != 0.0
    ensures (a / n) * n == a
  {
  }

  /**
   * What recomputation promises for every cluster index `c < k`: a
   * non-empty cluster's centroid times its size is its coordinate sum (the
   * centroid is the mean), and an empty cluster's centroid is (0, 0).
   */
  lemma UpdatedCentroidsSpec(pts: seq<Point>, k: nat)
    ensures forall c :: 0 <= c < k && Count(pts, c) > 0 ==>
      UpdatedCentroids(pts, k)[c].x * Count(pts, c) as real == SumX(pts, c) &&
      UpdatedCentroids(pts, k)[c].y * Count(pts, c) as real == SumY(pts, c)
    ensures forall c :: 0 <= c < k && Count(pts, c) == 0 ==> UpdatedCentroids(pts, k)[c] == Centroid(0.0, 0.0)
  {
    forall c | 0 <= c < k && Count(pts, c) > 0
      ensures UpdatedCentroids(pts, k)[c].x * Count(pts, c) as real == SumX(pts, c)
      ensures UpdatedCentroids(pts, k)[c].y * Count(pts, c) as real == SumY(pts, c)
    {
      DivTimes(SumX(pts, c), Count(pts, c) as real);
      DivTimes(SumY(pts, c), Count(pts, c) as real);
    }
  }

  /** A cluster without points has zero coordinate sums. */
  lemma {:induction false} EmptyClusterSums(pts: seq<Point>, c: int)
    requires Count(pts, c) == 0
    ensures SumX(pts, c) == 0.0 && SumY(pts, c) == 0.0
  {
    if pts != [] {
      EmptyClusterSums(pts[..|pts| - 1], c);
    }
  }

  /** A cluster of one point is centred on that point. */
  lemma {:induction false} SingletonCluster(pts: seq<Point>, c: int, j: nat)
    requires j < |pts| && pts[j].cluster == c
    requires forall i :: 0 <= i < |pts| && i != j ==> pts[i].cluster != c
    ensures Count(pts, c) == 1
    ensures NewCentroid(pts, c) == Centroid(pts[j].x, pts[j].y)
  {
    SingleCount(pts, c, j);
  }

  lemma {:induction false} SingleCount(pts: seq<Point>, c: int, j: nat)
    requires j < |pts| && pts[j].cluster == c
    requires forall i :: 0 <= i < |pts| && i != j ==> pts[i].cluster != c
    ensures Count(pts, c) == 1 && SumX(pts, c) == pts[j].x && SumY(pts, c) == pts[j].y
  {
    var init := pts[..|pts| - 1];
    if j < |pts| - 1 {
      SingleCount(init, c, j);
    } else {
      NoneCounted(init, c);
    }
  }

  lemma {:induction false} NoneCounted(pts: seq<Point>, c: int)
    requires forall i :: 0 <= i < |pts| ==> pts[i].cluster != c
    ensures Count(pts, c) == 0 && SumX(pts, c) == 0.0 && SumY(pts, c) == 0.0
  {
    if pts != [] {
      NoneCounted(pts[..|pts| - 1], c);
    }
  }

  /** When every point is labelled `c`, cluster `c` holds all of them. */
  lemma {:induction false} AllCounted(pts: seq<Point>, c: int)
    requires forall i :: 0 <= i < |pts| ==> pts[i].cluster == c
    ensures Count(pts, c) == |pts|
  {
    if pts != [] {
      AllCounted(pts[..|pts| - 1], c);
    }
  }

  /**
   * `initCentroids`: a fresh k-by-2 matrix whose row `i` copies the
   * coordinates of point `i`. Indexing point `i` for every `i < k` needs
   * `k` to be at most the number of points.
   */
  method InitCentroids(dataPoints: array<Point>, k: nat) returns (centroids: array<Centroid>)
    requires k <= dataPoints.Length
    ensures fresh(centroids) && centroids.Length == k
    ensures forall i :: 0 <= i < k ==>
      centroids[i].x == dataPoints[i].x && centroids[i].y == dataPoints[i].y
    ensures centroids[..] == Seeds(dataPoints[..], k)
  {
    centroids := new Centroid[k](_ => Centroid(0.0, 0.0));
    for i := 0 to k
      invariant forall j :: 0 <= j < i ==> centroids[j] == Centroid(dataPoints[j].x, dataPoints[j].y)
    {
      centroids[i] := Centroid(dataPoints[i].x, dataPoints[i].y);
    }
  }

  /**
   * The two loops of `updateCentroids`: accumulate per-cluster sums and
   * counts over all points, then divide the sums of every non-empty cluster.
   * Every label must be a valid index into the k-row matrix.
   */
  method ComputeCentroids(dataPoints: array<Point>, k: nat) returns (newCentroids: array<Centroid>)
    requires InRange(dataPoints[..], k)
    ensures fresh(newCentroids)
    ensures newCentroids[..] == UpdatedCentroids(dataPoints[..], k)
  {
    newCentroids := new Centroid[k](_ => Centroid(0.0, 0.0));
    var counts := new int[k](_ => 0);
    for i := 0 to dataPoints.Length
      invariant forall c :: 0 <= c < k ==>
        counts[c] == Count(dataPoints[..i], c) &&
        newCentroids[c] == Centroid(SumX(dataPoints[..i], c), SumY(dataPoints[..i], c))
    {
      var point := dataPoints[i];
      var cluster := point.cluster;
      assert dataPoints[..i + 1] == dataPoints[..i] + [point];
      forall c | 0 <= c < k {
        CountSnoc(dataPoints[..i], point, c);
      }
      newCentroids[cluster] := Centroid(newCentroids[cluster].x + point.x, newCentroids[cluster].y + point.y);
      counts[cluster] := counts[cluster] + 1;
    }
    assert dataPoints[..dataPoints.Length] == dataPoints[..];
    for i := 0 to k
      invariant forall c :: 0 <= c < i ==> newCentroids[c] == NewCentroid(dataPoints[..], c)
      invariant forall c :: i <= c < k ==>
        counts[c] == Count(dataPoints[..], c) &&
        newCentroids[c] == Centroid(SumX(dataPoints[..], c), SumY(dataPoints[..], c))
    {
      if counts[i] > 0 {
        newCentroids[i] := Centroid(newCentroids[i].x / counts[i] as real, newCentroids[i].y / counts[i] as real);
      } else {
        EmptyClusterSums(dataPoints[..], i);
      }
    }
  }

  /** One k-means iteration: an assignment pass over all points, then
      recomputation of the centroids from the new labels. */
  function Step(pts: seq<Point>, cs: seq<Centroid>, k: nat): (r: (seq<Point>, seq<Centroid>))
    requires k <= |cs|
    ensures |r.0| == |pts| && |r.1| == k
  {
    var labelled := Relabel(pts, cs, k);
    (labelled, UpdatedCentroids(labelled, k))
  }

  /** `n` iterations from the given points and centroids. */
  function Iterate(pts: seq<Point>, cs: seq<Centroid>, k: nat, n: nat): (r: (seq<Point>, seq<Centroid>))
    requires k <= |cs|
    ensures |r.0| == |pts| && k <= |r.1|
    ensures n > 0 ==> |r.1| == k
  {
    if n == 0 then (pts, cs)
    else
      var (pts', cs') := Iterate(pts, cs, k, n - 1);
      Step(pts', cs', k)
  }

  /** The number of iterations a loop `for (i = 0; i < iterations; i++)` runs. */
  function Rounds(iterations: int): nat
  {
    if iterations > 0 then iterations else 0
  }

  /**
   * Iterating never moves a point and never changes the number of points,
   * and after at least one iteration with at least one centroid every label
   * is a cluster index.
   */
  lemma {:induction false} IterateSpec(pts: seq<Point>, cs: seq<Centroid>, k: nat, n: nat)
    requires k <= |cs|
    ensures forall i :: 0 <= i < |pts| ==> SameCoords(Iterate(pts, cs, k, n).0[i], pts[i])
    ensures n > 0 && k > 0 ==> InRange(Iterate(pts, cs, k, n).0, k)
  {
    if n > 0 {
      var (pts', cs') := Iterate(pts, cs, k, n - 1);
      IterateSpec(pts, cs, k, n - 1);
      RelabelSpec(pts', cs', k);
    }
  }

  /**
   * Once the labels are stable (an assignment pass with the current
   * centroids changes no label) and the centroids are those recomputed
   * from these labels, one more iteration changes neither the points nor
   * the centroids, so the cluster sizes stay the same.
   */
  lemma StableIsFixedPoint(pts: seq<Point>, k: nat)
    requires Relabel(pts, UpdatedCentroids(pts, k), k) == pts
    ensures Iterate(pts, UpdatedCentroids(pts, k), k, 1) == (pts, UpdatedCentroids(pts, k))
    ensures Sizes(Iterate(pts, UpdatedCentroids(pts, k), k, 1).0, k) == Sizes(pts, k)
  {
  }

  /**
   * With as many clusters as points and pairwise distinct points, seeding
   * puts a centroid on every point, so one assignment pass gives every point
   * its own cluster and every cluster has exactly one point.
   */
  lemma EveryPointOwnCluster(pts: seq<Point>)
    requires forall i, j :: 0 <= i < j < |pts| ==> !SameCoords(pts[i], pts[j])
    ensures forall i :: 0 <= i < |pts| ==> Relabel(pts, Seeds(pts, |pts|), |pts|)[i].cluster == i
    ensures Sizes(Relabel(pts, Seeds(pts, |pts|), |pts|), |pts|) == seq(|pts|, _ => 1)
  {
    var n := |pts|;
    var cs := Seeds(pts, n);
    var r := Relabel(pts, cs, n);
    forall i | 0 <= i < n
      ensures r[i].cluster == i
    {
      forall j | 0 <= j < n
        ensures SqDist(pts[i], cs[i]) <= SqDist(pts[i], cs[j])
        ensures j != i ==> SqDist(pts[i], cs[i]) < SqDist(pts[i], cs[j])
      {
        SqDistZero(pts[i], cs[i]);
        SqDistZero(pts[i], cs[j]);
      }
      NearestUnique(pts[i], cs, n, i);
    }
    forall c | 0 <= c < n
      ensures Sizes(r, n)[c] == 1
    {
      SingleCount(r, c, c);
    }
  }
}
