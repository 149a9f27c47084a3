/**
 * The `DataPoint` record: a mutable point with a cluster label, where -1
 * means "not assigned yet".
 */
module DataPoints {

  /** The label of a point that has not been assigned to a cluster. */
  const Unassigned: int := -1

  class DataPoint {
    var x: real
    var y: real
    var cluster: int

    /** A new point has the given coordinates and no cluster. */
    constructor (x: real, y: real)
      ensures this.x == x && this.y == y && cluster == Unassigned
    {
      this.x := x;
      this.y := y;
      cluster := Unassigned;
    }

    method GetX() returns (r: real)
      ensures r == x
    {
      return x;
    }

    /** Sets x; y and the cluster are left as they were. */
    method SetX(x: real)
      modifies this
      ensures this.x == x && y == old(y) && cluster == old(cluster)
    {
      this.x := x;
    }

    method GetY() returns (r: real)
      ensures r == y
    {
      return y;
    }

    /** Sets y; x and the cluster are left as they were. */
    method SetY(y: real)
      modifies this
      ensures this.y == y && x == old(x) && cluster == old(cluster)
    {
      this.y := y;
    }

    method GetCluster() returns (r: int)
      ensures r == cluster
    {
      return cluster;
    }

    /** Sets the cluster; the coordinates are left as they were. */
    method SetCluster(cluster: int)
      modifies this
      ensures this.cluster == cluster && x == old(x) && y == old(y)
    {
      this.cluster := cluster;
    }
  }
}
