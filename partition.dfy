/**
 * The static split of the point index range `[0, n)` among `p` workers
 * (threads or processes): `taskSize = n / p`, worker `j` gets
 * `[j * taskSize, (j + 1) * taskSize)`, and the last worker's range runs to
 * `n`, absorbing the remainder. Java's `/` on non-negative ints is the same
 * as Dafny's.
 */
module Partition {

  function TaskSize(n: nat, p: nat): nat
    requires p >= 1
  {
    n / p
  }

  /** The first index of worker `j`'s range. */
  function RangeStart(n: nat, p: nat, j: nat): nat
    requires j < p
  {
    j * TaskSize(n, p)
  }

  /** One past the last index of worker `j`'s range. */
  function RangeEnd(n: nat, p: nat, j: nat): nat
    requires j < p
  {
    if j == p - 1 then n else (j + 1) * TaskSize(n, p)
  }

  lemma MulMonotone(a: nat, b: nat, c: nat)
    requires a <= b
    ensures a * c <= b * c
  {
  }

  /** `p` whole task sizes fit in `n`. */
  lemma TaskSizesFit(n: nat, p: nat)
    requires p >= 1
    ensures p * TaskSize(n, p) <= n
    ensures n - p * TaskSize(n, p) < p
  {
  }

  /**
   * The ranges are well formed and laid end to end: the first starts at 0,
   * each one ends where the next begins, the last ends at `n`, and none
   * runs backwards or past `n`.
   */
  lemma RangesContiguous(n: nat, p: nat)
    requires p >= 1
    ensures RangeStart(n, p, 0) == 0
    ensures RangeEnd(n, p, p - 1) == n
    ensures forall j :: 0 <= j < p - 1 ==> RangeEnd(n, p, j) == RangeStart(n, p, j + 1)
    ensures forall j :: 0 <= j < p ==> RangeStart(n, p, j) <= RangeEnd(n, p, j) <= n
  {
    TaskSizesFit(n, p);
    forall j | 0 <= j < p
      ensures RangeStart(n, p, j) <= RangeEnd(n, p, j) <= n
    {
      MulMonotone(j, j + 1, TaskSize(n, p));
      if j < p - 1 {
        MulMonotone(j + 1, p, TaskSize(n, p));
      } else {
        MulMonotone(j, p, TaskSize(n, p));
      }
    }
  }

  /** Ranges of different workers do not overlap: an earlier range ends no
      later than a later one starts. */
  lemma RangesDisjoint(n: nat, p: nat, i: nat, j: nat)
    requires i < j < p
    ensures RangeEnd(n, p, i) <= RangeStart(n, p, j)
  {
    RangesContiguous(n, p);
    MulMonotone(i + 1, j, TaskSize(n, p));
  }

  /** The worker whose range holds index `i`. */
  function Owner(n: nat, p: nat, i: nat): (j: nat)
    requires p >= 1 && i < n
    ensures j < p
  {
    var t := TaskSize(n, p);
    if t == 0 || i / t >= p - 1 then p - 1 else i / t
  }

  /** Every index of `[0, n)` lies in the range of its owner and in no other
      worker's range: the ranges cover `[0, n)` exactly once. */
  lemma OwnerIsUnique(n: nat, p: nat, i: nat)
    requires p >= 1 && i < n
    ensures RangeStart(n, p, Owner(n, p, i)) <= i < RangeEnd(n, p, Owner(n, p, i))
    ensures forall j :: 0 <= j < p && RangeStart(n, p, j) <= i < RangeEnd(n, p, j) ==> j == Owner(n, p, i)
  {
    var o := Owner(n, p, i);
    RangesContiguous(n, p);
    OwnerContains(n, p, i);
    forall j | 0 <= j < p && RangeStart(n, p, j) <= i < RangeEnd(n, p, j)
      ensures j == o
    {
      if j < o {
        RangesDisjoint(n, p, j, o);
      } else if o < j {
        RangesDisjoint(n, p, o, j);
      }
    }
  }

  lemma OwnerContains(n: nat, p: nat, i: nat)
    requires p >= 1 && i < n
    ensures RangeStart(n, p, Owner(n, p, i)) <= i < RangeEnd(n, p, Owner(n, p, i))
  {
    var t, o := TaskSize(n, p), Owner(n, p, i);
    if t > 0 {
      var q := i / t;
      DivBounds(i, t);
      if q >= p - 1 {
        assert o == p - 1;
        MulMonotone(p - 1, q, t);
      } else {
        assert o == q;
      }
    }
  }

  lemma DivBounds(i: nat, t: nat)
    requires t > 0
    ensures (i / t) * t <= i < (i / t + 1) * t
  {
    var q, r := i / t, i % t;
    assert i == q * t + r;
    assert (q + 1) * t == q * t + t;
  }

  /** Ten points over three workers: [0, 3), [3, 6) and [6, 10), of sizes
      3, 3 and 4. */
  lemma TenPointsThreeWorkers()
    ensures RangeStart(10, 3, 0) == 0 && RangeEnd(10, 3, 0) == 3
    ensures RangeStart(10, 3, 1) == 3 && RangeEnd(10, 3, 1) == 6
    ensures RangeStart(10, 3, 2) == 6 && RangeEnd(10, 3, 2) == 10
  {
  }

  /** More workers than points: the task size is 0, every range but the last
      is empty, and the last one is all of `[0, n)`. */
  lemma MoreWorkersThanPoints(n: nat, p: nat)
    requires n < p
    ensures TaskSize(n, p) == 0
    ensures forall j :: 0 <= j < p - 1 ==> RangeStart(n, p, j) == RangeEnd(n, p, j) == 0
    ensures RangeStart(n, p, p - 1) == 0 && RangeEnd(n, p, p - 1) == n
  {
  }
}
