/**
 * The clustering step a worker process performs on the slice it holds:
 * every point of the slice is relabelled in place with the index of its
 * nearest centroid, and the same array is handed back. The socket loop
 * around it is not part of this model.
 */
module ProcessTask {
  import opened Clustering

  /**
   * `performClustering`: relabels the slice in place and returns it. The
   * coordinates and the length are kept, and label `i` becomes the nearest
   * of the first `k` centroids to point `i` (see `Clustering.RelabelSpec`).
   */
  method PerformClustering(dataPointsSlice: array<Point>, centroids: array<Centroid>, k: nat)
    returns (processed: array<Point>)
    requires k <= centroids.Length
    modifies dataPointsSlice
    ensures processed == dataPointsSlice
    ensures dataPointsSlice[..] == Relabel(old(dataPointsSlice[..]), centroids[..], k)
  {
    ghost var before := dataPointsSlice[..];
    for i := 0 to dataPointsSlice.Length
      invariant forall j :: 0 <= j < i ==> dataPointsSlice[j] == Assign(before[j], centroids[..], k)
      invariant forall j :: i <= j < dataPointsSlice.Length ==> dataPointsSlice[j] == before[j]
    {
      var point := dataPointsSlice[i];
      var closest := FindClosestCluster(point, centroids, k);
      dataPointsSlice[i] := point.(cluster := closest);
    }
    processed := dataPointsSlice;
  }
}
