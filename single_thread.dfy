/**
 * The single-threaded runner: seeds the centroids with the first k points,
 * then alternates a full assignment pass and a centroid update for the
 * requested number of iterations, and finally summarises the cluster sizes.
 */
module SingleThread {
  import opened Clustering
  import opened Centroids
  import opened Summary

  class KMeansSingleThread {
    /** The data matrix, shared with the caller; only its labels change. */
    const dataPoints: array<Point>
    const k: nat
    var centroids: array<Centroid>

    ghost predicate Valid()
      reads this
    {
      centroids.Length == k
    }

    /** Centroid `i` starts at point `i`; there must be at least k points. */
    constructor (dataPoints: array<Point>, k: nat)
      requires k <= dataPoints.Length
      ensures Valid() && this.dataPoints == dataPoints && this.k == k
      ensures fresh(centroids) && centroids[..] == Seeds(dataPoints[..], k)
    {
      this.dataPoints := dataPoints;
      this.k := k;
      new;
      centroids := InitCentroids(dataPoints, k);
    }

    /** The assignment pass of `run`: every point gets its nearest centroid. */
    method AssignAll()
      requires Valid()
      modifies dataPoints
      ensures dataPoints[..] == Relabel(old(dataPoints[..]), centroids[..], k)
    {
      ghost var before := dataPoints[..];
      for i := 0 to dataPoints.Length
        invariant forall j :: 0 <= j < i ==> dataPoints[j] == Assign(before[j], centroids[..], k)
        invariant forall j :: i <= j < dataPoints.Length ==> dataPoints[j] == before[j]
      {
        var point := dataPoints[i];
        var closestCluster := FindClosestCluster(point, centroids, k);
        dataPoints[i] := point.(cluster := closestCluster);
      }
    }

    /** `updateCentroids`: the centroid field is replaced by the cluster means. */
    method UpdateCentroids()
      requires Valid() && InRange(dataPoints[..], k)
      modifies this
      ensures Valid() && fresh(centroids)
      ensures centroids[..] == UpdatedCentroids(dataPoints[..], k)
    {
      centroids := ComputeCentroids(dataPoints, k);
    }

    /**
     * `run`: `iterations` rounds of assignment and update, then the summary.
     * Every label must be a cluster index when the summary or an update
     * reads it: with no iteration the labels the points came with are
     * counted, and with at least one iteration there must be a centroid
     * for the points to go to.
     */
    method Run(iterations: int) returns (result: string)
      requires Valid()
      requires if iterations > 0 then k > 0 || dataPoints.Length == 0 else InRange(dataPoints[..], k)
      modifies this, dataPoints
      ensures Valid()
      ensures (dataPoints[..], centroids[..]) == Iterate(old(dataPoints[..]), old(centroids[..]), k, Rounds(iterations))
      ensures result == Render(Sizes(dataPoints[..], k))
    {
      ghost var pts0, cs0 := dataPoints[..], centroids[..];
      var i := 0;
      while i < iterations
        invariant 0 <= i <= Rounds(iterations)
        invariant Valid()
        invariant (dataPoints[..], centroids[..]) == Iterate(pts0, cs0, k, i)
        invariant i == 0 ==> dataPoints[..] == pts0
      {
        AssignAll();
        RelabelSpec(Iterate(pts0, cs0, k, i).0, centroids[..], k);
        UpdateCentroids();
        i := i + 1;
      }
      if Rounds(iterations) > 0 && k > 0 {
        IterateSpec(pts0, cs0, k, Rounds(iterations));
      }
      result := BuildResult(dataPoints, k);
    }
  }
}
