/**
 * The multi-process runner, with its worker processes abstracted. The
 * coordinator splits `[0, n)` into one range per worker, ships each worker
 * its slice of the points once, and then, every iteration, ships the
 * current centroids, merges each worker's label reply into its own range
 * and recomputes the centroids.
 *
 * One round trip with a worker is a function `worker(slice, centroids)`:
 * `Some(labels)` is the reply, `None` stands for an exchange that threw
 * (the coordinator prints the exception and goes on). Sockets, process
 * spawning and the thread pool are not part of this model; the handlers
 * are processed one after the other.
 */
module MultiProcess {
  import opened Wrappers
  import opened Clustering
  import opened Centroids
  import opened Partition
  import opened Summary

  /** The index range `[startIdx, endIdx)` a worker process is in charge of. */
  datatype Handler = Handler(startIdx: nat, endIdx: nat)

  /** What a message to a worker carries. */
  datatype Payload = SliceData | CentroidData

  /** A message written to the worker of handler `handler` during iteration
      `iteration`. */
  datatype Message = Send(handler: nat, iteration: nat, payload: Payload)

  /** One round trip with a worker: its reply to a slice and centroid set. */
  type Worker = (seq<Point>, seq<Centroid>) -> Option<seq<int>>

  /** The handlers for `p` workers over `n` points. */
  function Handlers(n: nat, p: nat): (hs: seq<Handler>)
    requires p >= 1
    ensures |hs| == p && Fits(hs, n)
  {
    RangesContiguous(n, p);
    seq(p, j requires 0 <= j < p => Handler(RangeStart(n, p, j), RangeEnd(n, p, j)))
  }

  /** Every handler range is a well-formed range of `[0, n)`. */
  predicate Fits(hs: seq<Handler>, n: nat)
  {
    forall h :: 0 <= h < |hs| ==> hs[h].startIdx <= hs[h].endIdx <= n
  }

  /** The handler ranges tile `[0, n)`: the first starts at 0, each one
      starts where the previous one ends, and the last ends at `n`. */
  lemma HandlersTile(n: nat, p: nat)
    requires p >= 1
    ensures Fits(Handlers(n, p), n)
    ensures Handlers(n, p)[0].startIdx == 0 && Handlers(n, p)[p - 1].endIdx == n
    ensures forall h :: 0 <= h < p - 1 ==> Handlers(n, p)[h].endIdx == Handlers(n, p)[h + 1].startIdx
  {
    RangesContiguous(n, p);
  }

  /** The merge loop of `clusterProcess`: label `j` becomes
      `processedData[j - startIdx]` for `j` in `[startIdx, endIdx)`. A reply
      shorter than the range stops the loop at its end (the out-of-bounds
      read throws), so only the labels the reply covers are written. */
  function Merge(pts: seq<Point>, startIdx: nat, endIdx: nat, processedData: seq<int>): (r: seq<Point>)
    ensures |r| == |pts|
  {
    seq(|pts|, j requires 0 <= j < |pts| =>
      if startIdx <= j < endIdx && j - startIdx < |processedData|
      then pts[j].(cluster := processedData[j - startIdx])
      else pts[j])
  }

  /** Merges the reply of handler `h`, if there is one. */
  function MergeReply(pts: seq<Point>, hs: seq<Handler>, replies: seq<Option<seq<int>>>, h: nat): (r: seq<Point>)
    requires h < |hs| && h < |replies|
    ensures |r| == |pts|
  {
    match replies[h]
    case None => pts
    case Some(processedData) => Merge(pts, hs[h].startIdx, hs[h].endIdx, processedData)
  }

  /** The handlers' indices, each a valid index. */
  predicate Below(order: seq<nat>, p: nat)
  {
    forall m :: 0 <= m < |order| ==> order[m] < p
  }

  /** Merges the replies of the handlers listed in `order`, in that order. */
  function MergeAll(pts: seq<Point>, hs: seq<Handler>, replies: seq<Option<seq<int>>>, order: seq<nat>): (r: seq<Point>)
    requires |replies| == |hs| && Below(order, |hs|)
    ensures |r| == |pts|
  {
    if order == [] then pts
    else MergeReply(MergeAll(pts, hs, replies, order[..|order| - 1]), hs, replies, order[|order| - 1])
  }

  /** The handler indices `0..p-1` in increasing order. */
  function Indices(p: nat): (r: seq<nat>)
    ensures |r| == p && Below(r, p)
    ensures forall h :: 0 <= h < p ==> r[h] == h
  {
    seq(p, h requires 0 <= h < p => h)
  }

  /** The slice of the points each handler's worker receives. */
  function DataSlices(pts: seq<Point>, hs: seq<Handler>): (slices: seq<seq<Point>>)
    requires Fits(hs, |pts|)
    ensures |slices| == |hs|
  {
    seq(|hs|, h requires 0 <= h < |hs| => pts[hs[h].startIdx..hs[h].endIdx])
  }

  /** Every worker's reply to its slice and the centroids `cs`. */
  function Replies(slices: seq<seq<Point>>, cs: seq<Centroid>, worker: Worker): (r: seq<Option<seq<int>>>)
    ensures |r| == |slices|
  {
    seq(|slices|, h requires 0 <= h < |slices| => worker(slices[h], cs))
  }

  /** One iteration of the coordinator: merge every reply in handler order,
      then recompute the centroids. */
  function ProcessStep(pts: seq<Point>, cs: seq<Centroid>, k: nat, hs: seq<Handler>,
                       slices: seq<seq<Point>>, worker: Worker): (r: (seq<Point>, seq<Centroid>))
    requires |slices| == |hs|
    ensures |r.0| == |pts| && |r.1| == k
  {
    var pts' := MergeAll(pts, hs, Replies(slices, cs, worker), Indices(|hs|));
    (pts', UpdatedCentroids(pts', k))
  }

  /** `n` iterations of the coordinator; the workers keep the slices they
      were sent in the first iteration. */
  function ProcessIterate(pts0: seq<Point>, cs0: seq<Centroid>, k: nat, hs: seq<Handler>,
                          worker: Worker, n: nat): (r: (seq<Point>, seq<Centroid>))
    requires Fits(hs, |pts0|)
    ensures |r.0| == |pts0|
    ensures n > 0 ==> |r.1| == k
  {
    if n == 0 then (pts0, cs0)
    else
      var (pts, cs) := ProcessIterate(pts0, cs0, k, hs, worker, n - 1);
      ProcessStep(pts, cs, k, hs, DataSlices(pts0, hs), worker)
  }

  /** The messages of one iteration, for handlers `0..m-1`: the slice first
      (only in iteration 0), then the centroids. */
  function RoundUpTo(iteration: nat, m: nat): (r: seq<Message>)
    ensures |r| == if iteration == 0 then 2 * m else m
  {
    if m == 0 then []
    else
      RoundUpTo(iteration, m - 1)
      + (if iteration == 0 then [Send(m - 1, 0, SliceData)] else [])
      + [Send(m - 1, iteration, CentroidData)]
  }

  /** The messages of `rounds` iterations with `p` handlers. */
  function Traffic(p: nat, rounds: nat): seq<Message>
  {
    if rounds == 0 then [] else Traffic(p, rounds - 1) + RoundUpTo(rounds - 1, p)
  }

  /** One more round of messages extends the log by that round. */
  lemma TrafficStep(log0: seq<Message>, before: seq<Message>, after: seq<Message>, p: nat, rounds: nat)
    requires before == log0 + Traffic(p, rounds)
    requires after == before + RoundUpTo(rounds, p)
    ensures after == log0 + Traffic(p, rounds + 1)
  {
  }

  lemma {:induction false} RoundUpToSpec(iteration: nat, m: nat)
    ensures forall msg :: msg in RoundUpTo(iteration, m) ==>
      msg.handler < m && msg.iteration == iteration &&
      (msg.payload == SliceData ==> iteration == 0)
    ensures forall h :: 0 <= h < m ==> Send(h, iteration, CentroidData) in RoundUpTo(iteration, m)
    ensures iteration == 0 ==> forall h :: 0 <= h < m ==> Send(h, 0, SliceData) in RoundUpTo(iteration, m)
  {
    if m > 0 {
      RoundUpToSpec(iteration, m - 1);
    }
  }

  /**
   * What the coordinator sends over `rounds` iterations with `p` workers:
   * every worker gets the centroids once per iteration, and its slice once,
   * in iteration 0 and never again; nothing else is sent.
   */
  lemma {:induction false} TrafficSpec(p: nat, rounds: nat)
    ensures |Traffic(p, rounds)| == rounds * p + (if rounds > 0 then p else 0)
    ensures forall msg :: msg in Traffic(p, rounds) ==>
      msg.handler < p && msg.iteration < rounds &&
      (msg.payload == SliceData ==> msg.iteration == 0)
    ensures forall h, i :: 0 <= h < p && 0 <= i < rounds ==> Send(h, i, CentroidData) in Traffic(p, rounds)
    ensures rounds > 0 ==> forall h :: 0 <= h < p ==> Send(h, 0, SliceData) in Traffic(p, rounds)
  {
    if rounds > 0 {
      TrafficSpec(p, rounds - 1);
      RoundUpToSpec(rounds - 1, p);
      if rounds > 1 {
        assert rounds * p == (rounds - 1) * p + p;
      }
    }
  }

  /** Every label in a reply is a cluster index. */
  predicate LabelsBelow(reply: Option<seq<int>>, k: nat)
  {
    reply.Some? ==> forall i :: 0 <= i < |reply.value| ==> 0 <= reply.value[i] < k
  }

  /** The worker only ever replies with cluster indices. */
  ghost predicate RepliesInRange(worker: Worker, k: nat)
  {
    forall s: seq<Point>, c: seq<Centroid> :: LabelsBelow(worker(s, c), k)
  }

  /**
   * With the partition's handlers, the label of point `i` after the merges
   * listed in `order` depends only on the reply of `i`'s owner: it is that
   * reply's entry for `i` when the owner's reply was merged and covers `i`,
   * and the old point otherwise. So every label is written by at most one
   * handler, whatever the order.
   */
  lemma {:induction false} MergeAllAt(pts: seq<Point>, p: nat, replies: seq<Option<seq<int>>>, order: seq<nat>, i: nat)
    requires p >= 1 && |replies| == p && Below(order, p) && i < |pts|
    ensures var h := Owner(|pts|, p, i);
      var s := RangeStart(|pts|, p, h);
      MergeAll(pts, Handlers(|pts|, p), replies, order)[i] ==
        if h in order && replies[h].Some? && i - s < |replies[h].value|
        then pts[i].(cluster := replies[h].value[i - s])
        else pts[i]
    decreases |order|
  {
    var n := |pts|;
    if order != [] {
      var init, last := order[..|order| - 1], order[|order| - 1];
      assert Below(init, p);
      assert order == init + [last];
      MergeAllAt(pts, p, replies, init, i);
      OwnerIsUnique(n, p, i);
    }
  }

  /** Merging the same set of replies in two different orders gives the
      same points. */
  lemma MergeOrderIrrelevant(pts: seq<Point>, p: nat, replies: seq<Option<seq<int>>>, o1: seq<nat>, o2: seq<nat>)
    requires p >= 1 && |replies| == p && Below(o1, p) && Below(o2, p)
    requires forall h :: h in o1 <==> h in o2
    ensures MergeAll(pts, Handlers(|pts|, p), replies, o1) == MergeAll(pts, Handlers(|pts|, p), replies, o2)
  {
    forall i | 0 <= i < |pts|
      ensures MergeAll(pts, Handlers(|pts|, p), replies, o1)[i] == MergeAll(pts, Handlers(|pts|, p), replies, o2)[i]
    {
      MergeAllAt(pts, p, replies, o1, i);
      MergeAllAt(pts, p, replies, o2, i);
    }
  }

  /** Merging replies whose labels are cluster indices keeps every label a
      cluster index. */
  lemma {:induction false} MergeAllInRange(pts: seq<Point>, hs: seq<Handler>, replies: seq<Option<seq<int>>>, order: seq<nat>, k: nat)
    requires |replies| == |hs| && Below(order, |hs|) && InRange(pts, k)
    requires forall h :: 0 <= h < |replies| ==> LabelsBelow(replies[h], k)
    ensures InRange(MergeAll(pts, hs, replies, order), k)
    decreases |order|
  {
    if order != [] {
      var init := order[..|order| - 1];
      assert Below(init, |hs|);
      MergeAllInRange(pts, hs, replies, init, k);
    }
  }

  /** A worker that does what `performClustering` does and replies with the
      label column of its relabelled slice. */
  function Honest(k: nat): Worker
  {
    (slice: seq<Point>, cs: seq<Centroid>) =>
      if k <= |cs| then Some(Labels(Relabel(slice, cs, k))) else None
  }

  /**
   * Merging the replies of honest workers, in any order that lists every
   * handler, relabels every point with its nearest centroid: the same as
   * one full assignment pass. The slices may carry old labels; only their
   * coordinates must match the points'.
   */
  lemma MergeEveryHonestReply(pts: seq<Point>, src: seq<Point>, cs: seq<Centroid>, k: nat, p: nat, order: seq<nat>)
    requires k <= |cs| && p >= 1 && |pts| == |src|
    requires forall i :: 0 <= i < |pts| ==> SameCoords(pts[i], src[i])
    requires Below(order, p) && forall h :: 0 <= h < p ==> h in order
    ensures MergeAll(pts, Handlers(|pts|, p), Replies(DataSlices(src, Handlers(|pts|, p)), cs, Honest(k)), order)
      == Relabel(pts, cs, k)
  {
    var n := |pts|;
    var hs := Handlers(n, p);
    var replies := Replies(DataSlices(src, hs), cs, Honest(k));
    forall i | 0 <= i < n
      ensures MergeAll(pts, hs, replies, order)[i] == Relabel(pts, cs, k)[i]
    {
      MergeAllAt(pts, p, replies, order, i);
      var h := Owner(n, p, i);
      OwnerIsUnique(n, p, i);
      var s, e := RangeStart(n, p, h), RangeEnd(n, p, h);
      var slice := src[s..e];
      assert replies[h] == Some(Labels(Relabel(slice, cs, k)));
      assert slice[i - s] == src[i];
      NearestIgnoresLabel(src[i], pts[i], cs, k);
    }
  }

  /** With honest workers the coordinator computes exactly what the
      single-threaded runner computes, iteration by iteration. */
  lemma {:induction false} HonestRunIsSequential(pts0: seq<Point>, cs0: seq<Centroid>, k: nat, p: nat, n: nat)
    requires k <= |cs0| && p >= 1
    ensures ProcessIterate(pts0, cs0, k, Handlers(|pts0|, p), Honest(k), n) == Iterate(pts0, cs0, k, n)
  {
    if n > 0 {
      HonestRunIsSequential(pts0, cs0, k, p, n - 1);
      var (pts, cs) := Iterate(pts0, cs0, k, n - 1);
      IterateSpec(pts0, cs0, k, n - 1);
      var order := Indices(p);
      forall h | 0 <= h < p
        ensures h in order
      {
        assert order[h] == h;
      }
      MergeEveryHonestReply(pts, pts0, cs, k, p, order);
    }
  }

  /** With at least one centroid, an honest worker replies only with cluster
      indices, so it meets the precondition of `KMeansMultiProcess.Run`. */
  lemma HonestRepliesInRange(k: nat)
    requires k >= 1
    ensures RepliesInRange(Honest(k), k)
  {
    forall s: seq<Point>, c: seq<Centroid>
      ensures LabelsBelow(Honest(k)(s, c), k)
    {
      if k <= |c| {
        RelabelSpec(s, c, k);
      }
    }
  }

  /** The coordinator as written: it casts every reply to a one-dimensional
      array, but the worker writes a two-dimensional one, so every exchange
      throws and no reply is ever merged. */
  function CastFails(): Worker
  {
    (slice: seq<Point>, cs: seq<Centroid>) => None
  }

  /** With no reply merged the labels never change: the summary counts the
      labels the points were read with. */
  lemma {:induction false} LostRepliesKeepLabels(pts0: seq<Point>, cs0: seq<Centroid>, k: nat, p: nat, n: nat)
    requires p >= 1
    ensures ProcessIterate(pts0, cs0, k, Handlers(|pts0|, p), CastFails(), n).0 == pts0
  {
    if n > 0 {
      LostRepliesKeepLabels(pts0, cs0, k, p, n - 1);
      var pts := ProcessIterate(pts0, cs0, k, Handlers(|pts0|, p), CastFails(), n - 1).0;
      NoReplyMerged(pts, Handlers(|pts0|, p), Replies(DataSlices(pts0, Handlers(|pts0|, p)), ProcessIterate(pts0, cs0, k, Handlers(|pts0|, p), CastFails(), n - 1).1, CastFails()), Indices(p));
    }
  }

  /**
   * The run as written, with points read from a file (every label 0): the
   * summary puts every point in cluster 1 and no point anywhere else,
   * whatever the data.
   */
  lemma AsWrittenSummary(pts0: seq<Point>, cs0: seq<Centroid>, k: nat, p: nat, n: nat)
    requires p >= 1 && k >= 1
    requires forall i :: 0 <= i < |pts0| ==> pts0[i].cluster == 0
    ensures Sizes(ProcessIterate(pts0, cs0, k, Handlers(|pts0|, p), CastFails(), n).0, k)
      == [|pts0|] + seq(k - 1, _ => 0)
  {
    LostRepliesKeepLabels(pts0, cs0, k, p, n);
    AllCounted(pts0, 0);
    forall c | 1 <= c < k
      ensures Count(pts0, c) == 0
    {
      NoneCounted(pts0, c);
    }
  }

  lemma {:induction false} NoReplyMerged(pts: seq<Point>, hs: seq<Handler>, replies: seq<Option<seq<int>>>, order: seq<nat>)
    requires |replies| == |hs| && Below(order, |hs|)
    requires forall h :: 0 <= h < |replies| ==> replies[h] == None
    ensures MergeAll(pts, hs, replies, order) == pts
    decreases |order|
  {
    if order != [] {
      var init := order[..|order| - 1];
      assert Below(init, |hs|);
      NoReplyMerged(pts, hs, replies, init);
    }
  }

  class KMeansMultiProcess {
    /** The data matrix, shared with the caller; only its labels change. */
    const dataPoints: array<Point>
    const k: nat
    var centroids: array<Centroid>
    /** Every message written to a worker so far, in order. */
    ghost var sent: seq<Message>
    /** How many times the centroids have been recomputed. */
    ghost var updates: nat

    ghost predicate Valid()
      reads this
    {
      centroids.Length == k
    }

    /** `initCentroids` seeds centroid `i` with point `i`; there must be at
        least k points. */
    constructor (dataPoints: array<Point>, k: nat)
      requires k <= dataPoints.Length
      ensures Valid() && this.dataPoints == dataPoints && this.k == k
      ensures fresh(centroids) && centroids[..] == Seeds(dataPoints[..], k)
      ensures sent == [] && updates == 0
    {
      this.dataPoints := dataPoints;
      this.k := k;
      sent := [];
      updates := 0;
      new;
      centroids := InitCentroids(dataPoints, k);
    }

    /** `createProcessHandlers`, range arithmetic only: handler `i` gets the
        `i`-th range of the partition of `[0, n)` into `processes` ranges. */
    method CreateProcessHandlers(processes: int) returns (handlers: seq<Handler>)
      requires processes >= 1
      ensures handlers == Handlers(dataPoints.Length, processes)
    {
      handlers := [];
      var taskSize := dataPoints.Length / processes;
      for i := 0 to processes
        invariant handlers == Handlers(dataPoints.Length, processes)[..i]
      {
        var start := i * taskSize;
        var end := if i == processes - 1 then dataPoints.Length else (i + 1) * taskSize;
        handlers := handlers + [Handler(start, end)];
      }
    }

    /** `getDataSlice(start, end)`: the points with index in `[start, end)`,
        in order. */
    function GetDataSlice(start: nat, end: nat): (slice: seq<Point>)
      reads dataPoints
      requires start <= end <= dataPoints.Length
      ensures |slice| == end - start
      ensures forall i :: 0 <= i < |slice| ==> slice[i] == dataPoints[start + i]
    {
      dataPoints[start..end]
    }

    /**
     * The merge loop of `clusterProcess` for one reply. It returns whether
     * the loop ran to the end of the range; `false` is the out-of-bounds
     * read of a short reply, after which the remaining labels are left
     * alone. Coordinates never change, nor do labels outside the range.
     */
    method MergeResponse(startIdx: nat, endIdx: nat, processedData: seq<int>) returns (complete: bool)
      requires startIdx <= endIdx <= dataPoints.Length
      modifies dataPoints
      ensures complete <==> endIdx - startIdx <= |processedData|
      ensures dataPoints[..] == Merge(old(dataPoints[..]), startIdx, endIdx, processedData)
      ensures forall j :: 0 <= j < dataPoints.Length ==>
        SameCoords(dataPoints[j], old(dataPoints[j])) &&
        (startIdx <= j < endIdx || dataPoints[j] == old(dataPoints[j]))
    {
      ghost var before := dataPoints[..];
      var j := startIdx;
      while j < endIdx
        invariant startIdx <= j <= endIdx && j - startIdx <= |processedData|
        invariant forall i :: 0 <= i < dataPoints.Length ==>
          dataPoints[i] == if startIdx <= i < j then before[i].(cluster := processedData[i - startIdx]) else before[i]
      {
        if j - startIdx == |processedData| {
          assert forall i :: 0 <= i < dataPoints.Length ==>
            dataPoints[..][i] == Merge(before, startIdx, endIdx, processedData)[i];
          return false;
        }
        dataPoints[j] := dataPoints[j].(cluster := processedData[j - startIdx]);
        j := j + 1;
      }
      assert forall i :: 0 <= i < dataPoints.Length ==>
        dataPoints[..][i] == Merge(before, startIdx, endIdx, processedData)[i];
      return true;
    }

    /**
     * `clusterProcess`: in the first iteration every worker is sent its
     * slice; in every iteration every worker is sent the centroids and its
     * reply, if any, is merged into its range. The slices are cut before
     * any reply is merged; since the handler ranges are disjoint, a merge
     * never touches another handler's slice. Returns the slices the workers
     * hold.
     */
    method ClusterProcess(handlers: seq<Handler>, isFirst: bool, iteration: nat,
                          held: seq<seq<Point>>, worker: Worker) returns (slices: seq<seq<Point>>)
      requires Valid() && Fits(handlers, dataPoints.Length)
      requires isFirst <==> iteration == 0
      requires !isFirst ==> |held| == |handlers|
      modifies this`sent, dataPoints
      ensures slices == if isFirst then DataSlices(old(dataPoints[..]), handlers) else held
      ensures dataPoints[..] == MergeAll(old(dataPoints[..]), handlers,
                                         Replies(slices, centroids[..], worker), Indices(|handlers|))
      ensures sent == old(sent) + RoundUpTo(iteration, |handlers|)
    {
      ghost var pts := dataPoints[..];
      if isFirst {
        slices := [];
        for h := 0 to |handlers|
          invariant slices == DataSlices(pts, handlers)[..h]
        {
          slices := slices + [GetDataSlice(handlers[h].startIdx, handlers[h].endIdx)];
        }
      } else {
        slices := held;
      }
      ghost var replies := Replies(slices, centroids[..], worker);
      for processIdx := 0 to |handlers|
        invariant dataPoints[..] == MergeAll(pts, handlers, replies, Indices(|handlers|)[..processIdx])
        invariant sent == old(sent) + RoundUpTo(iteration, processIdx)
      {
        var startIdx, endIdx := handlers[processIdx].startIdx, handlers[processIdx].endIdx;
        if isFirst {
          sent := sent + [Send(processIdx, iteration, SliceData)];
        }
        sent := sent + [Send(processIdx, iteration, CentroidData)];
        var processedData := worker(slices[processIdx], centroids[..]);
        if processedData.Some? {
          var _ := MergeResponse(startIdx, endIdx, processedData.value);
        }
        assert Indices(|handlers|)[..processIdx + 1][..processIdx] == Indices(|handlers|)[..processIdx];
      }
      assert Indices(|handlers|)[..|handlers|] == Indices(|handlers|);
    }

    /** `updateCentroids`: the centroid field is replaced by the cluster means. */
    method UpdateCentroids()
      requires Valid() && InRange(dataPoints[..], k)
      modifies this`centroids, this`updates
      ensures Valid() && fresh(centroids)
      ensures centroids[..] == UpdatedCentroids(dataPoints[..], k)
      ensures updates == old(updates) + 1
    {
      centroids := ComputeCentroids(dataPoints, k);
      updates := updates + 1;
    }

    /** One pass of the loop in `run`: the exchange with every worker, then
        the update. */
    method RunIteration(handlers: seq<Handler>, iter: nat, held: seq<seq<Point>>, worker: Worker,
                        ghost pts0: seq<Point>, ghost cs0: seq<Centroid>, ghost log0: seq<Message>)
      returns (slices: seq<seq<Point>>)
      requires Valid() && Fits(handlers, dataPoints.Length) && |pts0| == dataPoints.Length
      requires InRange(dataPoints[..], k) && RepliesInRange(worker, k)
      requires (dataPoints[..], centroids[..]) == ProcessIterate(pts0, cs0, k, handlers, worker, iter)
      requires iter == 0 ==> dataPoints[..] == pts0
      requires iter > 0 ==> held == DataSlices(pts0, handlers)
      requires sent == log0 + Traffic(|handlers|, iter)
      modifies this, dataPoints
      ensures Valid() && InRange(dataPoints[..], k)
      ensures slices == if iter == 0 then DataSlices(old(dataPoints[..]), handlers) else held
      ensures slices == DataSlices(pts0, handlers)
      ensures (dataPoints[..], centroids[..]) ==
        ProcessStep(old(dataPoints[..]), old(centroids[..]), k, handlers, slices, worker)
      ensures (dataPoints[..], centroids[..]) == ProcessIterate(pts0, cs0, k, handlers, worker, iter + 1)
      ensures updates == old(updates) + 1
      ensures sent == old(sent) + RoundUpTo(iter, |handlers|)
      ensures sent == log0 + Traffic(|handlers|, iter + 1)
    {
      ghost var pts, before := dataPoints[..], sent;
      var isFirst := iter == 0;
      slices := ClusterProcess(handlers, isFirst, iter, held, worker);
      MergeAllInRange(pts, handlers, Replies(slices, centroids[..], worker), Indices(|handlers|), k);
      UpdateCentroids();
      TrafficStep(log0, before, sent, |handlers|, iter);
    }

    /**
     * The iteration skeleton of `run`: `iterations` rounds of exchange,
     * merge and update, then the summary. The labels must be cluster
     * indices from the start and in every reply, since a label that is not
     * one would make the update index out of bounds.
     */
    method Run(processes: int, iterations: int, worker: Worker) returns (result: string)
      requires Valid() && processes >= 1
      requires InRange(dataPoints[..], k) && RepliesInRange(worker, k)
      modifies this, dataPoints
      ensures Valid()
      ensures (dataPoints[..], centroids[..]) ==
        ProcessIterate(old(dataPoints[..]), old(centroids[..]), k,
                       Handlers(dataPoints.Length, processes), worker, Rounds(iterations))
      ensures updates == old(updates) + Rounds(iterations)
      ensures sent == old(sent) + Traffic(processes, Rounds(iterations))
      ensures result == Render(Sizes(dataPoints[..], k))
    {
      var handlers := CreateProcessHandlers(processes);
      ghost var pts0, cs0 := dataPoints[..], centroids[..];
      var slices: seq<seq<Point>> := [];
      var iter := 0;
      while iter < iterations
        invariant 0 <= iter <= Rounds(iterations)
        invariant Valid() && InRange(dataPoints[..], k)
        invariant (dataPoints[..], centroids[..]) == ProcessIterate(pts0, cs0, k, handlers, worker, iter)
        invariant iter == 0 ==> dataPoints[..] == pts0
        invariant iter > 0 ==> slices == DataSlices(pts0, handlers)
        invariant updates == old(updates) + iter
        invariant sent == old(sent) + Traffic(processes, iter)
      {
        slices := RunIteration(handlers, iter, slices, worker, pts0, cs0, old(sent));
        iter := iter + 1;
      }
      result := BuildResult(dataPoints, k);
    }
  }
}
