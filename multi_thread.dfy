/**
 * The multi-threaded runner. Each iteration splits `[0, n)` into `threads`
 * ranges, relabels every range (the source hands each range to a pool
 * thread; here the ranges are processed one after the other), then
 * recomputes the centroids. The result is the same as the single-threaded
 * runner's, because the ranges tile `[0, n)`.
 */
module MultiThread {
  import opened Clustering
  import opened Centroids
  import opened Partition
  import opened Summary

  /** The points with those at indices in `[start, end)` relabelled. */
  function RelabelRange(pts: seq<Point>, cs: seq<Centroid>, k: nat, start: int, end: int): (r: seq<Point>)
    requires k <= |cs|
    ensures |r| == |pts|
  {
    seq(|pts|, i requires 0 <= i < |pts| => if start <= i < end then Assign(pts[i], cs, k) else pts[i])
  }

  /** The points after the ranges of workers `0..j-1` out of `p` have been
      relabelled, in worker order. */
  function AssignPartitions(pts: seq<Point>, cs: seq<Centroid>, k: nat, p: nat, j: nat): (r: seq<Point>)
    requires k <= |cs| && 1 <= p && j <= p
    ensures |r| == |pts|
  {
    if j == 0 then pts
    else
      RelabelRange(AssignPartitions(pts, cs, k, p, j - 1), cs, k,
                   RangeStart(|pts|, p, j - 1), RangeEnd(|pts|, p, j - 1))
  }

  /** After `j` ranges, exactly the points below the end of range `j - 1`
      are relabelled. */
  lemma {:induction false} AssignPartitionsPrefix(pts: seq<Point>, cs: seq<Centroid>, k: nat, p: nat, j: nat)
    requires k <= |cs| && 1 <= p && 1 <= j <= p
    ensures forall i :: 0 <= i < |pts| ==>
      AssignPartitions(pts, cs, k, p, j)[i] ==
        if i < RangeEnd(|pts|, p, j - 1) then Assign(pts[i], cs, k) else pts[i]
  {
    var n := |pts|;
    RangesContiguous(n, p);
    if j > 1 {
      AssignPartitionsPrefix(pts, cs, k, p, j - 1);
    }
  }

  /** Relabelling every range of the partition, in worker order, gives the
      same points as one full assignment pass with the same centroids. */
  lemma PartitionedPassIsFullPass(pts: seq<Point>, cs: seq<Centroid>, k: nat, p: nat)
    requires k <= |cs| && 1 <= p
    ensures AssignPartitions(pts, cs, k, p, p) == Relabel(pts, cs, k)
  {
    AssignPartitionsPrefix(pts, cs, k, p, p);
    RangesContiguous(|pts|, p);
  }

  class KMeansMultiThread {
    /** The data matrix, shared with the caller; only its labels change. */
    const dataPoints: array<Point>
    const k: nat
    var centroids: array<Centroid>

    ghost predicate Valid()
      reads this
    {
      centroids.Length == k
    }

    /** Centroid `i` starts at point `i`; there must be at least k points. */
    constructor (dataPoints: array<Point>, k: nat)
      requires k <= dataPoints.Length
      ensures Valid() && this.dataPoints == dataPoints && this.k == k
      ensures fresh(centroids) && centroids[..] == Seeds(dataPoints[..], k)
    {
      this.dataPoints := dataPoints;
      this.k := k;
      new;
      centroids := InitCentroids(dataPoints, k);
    }

    /**
     * `assignPointsToClusters(start, end)`: relabels the points with index
     * in `[start, end)`. Only those labels change; every coordinate and
     * every other point stays as it was.
     */
    method AssignPointsToClusters(start: int, end: int)
      requires Valid() && 0 <= start && end <= dataPoints.Length
      modifies dataPoints
      ensures dataPoints[..] == RelabelRange(old(dataPoints[..]), centroids[..], k, start, end)
      ensures forall i :: 0 <= i < dataPoints.Length ==>
        SameCoords(dataPoints[i], old(dataPoints[i])) &&
        (start <= i < end || dataPoints[i] == old(dataPoints[i]))
    {
      ghost var before := dataPoints[..];
      var i := start;
      while i < end
        invariant i == start || start <= i <= end
        invariant forall j :: 0 <= j < dataPoints.Length ==>
          dataPoints[j] == if start <= j < i then Assign(before[j], centroids[..], k) else before[j]
      {
        var point := dataPoints[i];
        var closestCluster := FindClosestCluster(point, centroids, k);
        dataPoints[i] := point.(cluster := closestCluster);
        i := i + 1;
      }
      assert start <= end ==> i == end;
      assert forall j :: 0 <= j < dataPoints.Length ==>
        dataPoints[..][j] == RelabelRange(before, centroids[..], k, start, end)[j];
    }

    /** `updateCentroids`: the centroid field is replaced by the cluster means. */
    method UpdateCentroids()
      requires Valid() && InRange(dataPoints[..], k)
      modifies this
      ensures Valid() && fresh(centroids)
      ensures centroids[..] == UpdatedCentroids(dataPoints[..], k)
    {
      centroids := ComputeCentroids(dataPoints, k);
    }

    /**
     * The partition loop of `run`: the ranges of the `threads` workers are
     * relabelled one after another, which amounts to one full pass.
     */
    method AssignPartitioned(threads: int)
      requires Valid() && threads >= 1
      modifies dataPoints
      ensures dataPoints[..] == Relabel(old(dataPoints[..]), centroids[..], k)
    {
      ghost var pts := dataPoints[..];
      var taskSize := dataPoints.Length / threads;
      for j := 0 to threads
        invariant dataPoints[..] == AssignPartitions(pts, centroids[..], k, threads, j)
      {
        var start := j * taskSize;
        var end := if j == threads - 1 then dataPoints.Length else (j + 1) * taskSize;
        RangesContiguous(dataPoints.Length, threads);
        AssignPointsToClusters(start, end);
      }
      PartitionedPassIsFullPass(pts, centroids[..], k, threads);
    }

    /**
     * `run`: per iteration, relabel the `threads` ranges and update the
     * centroids; then summarise. A pool needs at least one thread, and the
     * labels must be cluster indices whenever they are counted.
     */
    method Run(threads: int, iterations: int) returns (result: string)
      requires Valid() && threads >= 1
      requires if iterations > 0 then k > 0 || dataPoints.Length == 0 else InRange(dataPoints[..], k)
      modifies this, dataPoints
      ensures Valid()
      ensures (dataPoints[..], centroids[..]) == Iterate(old(dataPoints[..]), old(centroids[..]), k, Rounds(iterations))
      ensures result == Render(Sizes(dataPoints[..], k))
    {
      ghost var pts0, cs0 := dataPoints[..], centroids[..];
      var iter := 0;
      while iter < iterations
        invariant 0 <= iter <= Rounds(iterations)
        invariant Valid()
        invariant (dataPoints[..], centroids[..]) == Iterate(pts0, cs0, k, iter)
        invariant iter == 0 ==> dataPoints[..] == pts0
      {
        AssignPartitioned(threads);
        RelabelSpec(Iterate(pts0, cs0, k, iter).0, centroids[..], k);
        UpdateCentroids();
        iter := iter + 1;
      }
      if Rounds(iterations) > 0 && k > 0 {
        IterateSpec(pts0, cs0, k, Rounds(iterations));
      }
      result := BuildResult(dataPoints, k);
    }
  }
}
