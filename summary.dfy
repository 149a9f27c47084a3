/**
 * `buildResult`, common to the three runners: a histogram of the final
 * labels, rendered as one line `"Cluster <i+1>: <size>\n"` per cluster index
 * `i` in `0..k-1`. A parser for that text is given as the inverse of the
 * rendering, so that the text is shown to carry exactly the k sizes.
 */
module Summary {
  import opened Wrappers
  import opened Decimal
  import opened Clustering
  import opened Centroids

  /** The line for cluster index `i` (shown 1-based) holding `size` points. */
  function Line(i: nat, size: nat): string
  {
    "Cluster " + NatToString(i + 1) + ": " + NatToString(size) + "\n"
  }

  /** The lines for `sizes`, the first of them for cluster index `base`. */
  function RenderFrom(sizes: seq<nat>, base: nat): string
  {
    if sizes == [] then ""
    else RenderFrom(sizes[..|sizes| - 1], base) + Line(base + |sizes| - 1, sizes[|sizes| - 1])
  }

  /** The summary text for a histogram. */
  function Render(sizes: seq<nat>): string
  {
    RenderFrom(sizes, 0)
  }

  /** A decimal number at the front of `s`, and what follows it. */
  function ReadNat(s: string): (r: Option<(nat, string)>)
    ensures r.Some? ==> |r.value.1| < |s|
  {
    var d := DigitRun(s);
    if d == 0 then None else Some((DigitsValue(s[..d]), s[d..]))
  }

  /** Reads lines `"Cluster <base+1>: <size>\n"`, `"Cluster <base+2>: ..."`,
      and so on up to the end of `s`; any other text is rejected. */
  function ParseFrom(s: string, base: nat): Option<seq<nat>>
    decreases |s|
  {
    if s == [] then Some([])
    else if |s| < 8 || s[..8] != "Cluster " then None
    else match ReadNat(s[8..])
      case None => None
      case Some((index, afterIndex)) =>
        if index != base + 1 || |afterIndex| < 2 || afterIndex[..2] != ": " then None
        else match ReadNat(afterIndex[2..])
          case None => None
          case Some((size, afterSize)) =>
            if afterSize == [] || afterSize[0] != '\n' then None
            else match ParseFrom(afterSize[1..], base + 1)
              case None => None
              case Some(sizes) => Some([size] + sizes)
  }

  /** Reads a whole summary text back into its histogram. */
  function ParseSummary(s: string): Option<seq<nat>>
  {
    ParseFrom(s, 0)
  }

  lemma ReadNatOfNatToString(n: nat, rest: string)
    requires rest == [] || !IsDigit(rest[0])
    ensures ReadNat(NatToString(n) + rest) == Some((n, rest))
  {
    var ds := NatToString(n);
    DigitRunOfDigits(ds, rest);
    assert (ds + rest)[..|ds|] == ds;
    assert (ds + rest)[|ds|..] == rest;
    DigitsValueOfNatToString(n);
  }

  /** The rendering read from the front: the first line, then the rest. */
  lemma {:induction false} RenderFromCons(sizes: seq<nat>, base: nat)
    requires sizes != []
    ensures RenderFrom(sizes, base) == Line(base, sizes[0]) + RenderFrom(sizes[1..], base + 1)
    decreases |sizes|
  {
    if |sizes| > 1 {
      var init := sizes[..|sizes| - 1];
      RenderFromCons(init, base);
      assert init[1..] == sizes[1..][..|sizes| - 2];
    } else {
      assert sizes[1..] == [];
    }
  }

  /** One rendered line in front of any text is read as that line's size,
      followed by whatever the text parses to. */
  lemma ParseLine(base: nat, size: nat, tail: string)
    ensures ParseFrom(Line(base, size) + tail, base) ==
      match ParseFrom(tail, base + 1)
      case None => None
      case Some(sizes) => Some([size] + sizes)
  {
    var a, b := NatToString(base + 1), NatToString(size);
    var s := Line(base, size) + tail;
    var afterSize := "\n" + tail;
    var afterIndex := ": " + b + afterSize;
    assert s == "Cluster " + a + afterIndex;
    assert s[..8] == "Cluster ";
    assert s[8..] == a + afterIndex;
    ReadNatOfNatToString(base + 1, afterIndex);
    assert afterIndex[..2] == ": ";
    assert afterIndex[2..] == b + afterSize;
    ReadNatOfNatToString(size, afterSize);
    assert afterSize[1..] == tail;
  }

  /** Parsing the rendering of `sizes` from index `base` gives back `sizes`. */
  lemma {:induction false} ParseRenderFrom(sizes: seq<nat>, base: nat)
    ensures ParseFrom(RenderFrom(sizes, base), base) == Some(sizes)
    decreases |sizes|
  {
    if sizes != [] {
      var tail := RenderFrom(sizes[1..], base + 1);
      calc {
        ParseFrom(RenderFrom(sizes, base), base);
        { RenderFromCons(sizes, base); }
        ParseFrom(Line(base, sizes[0]) + tail, base);
        { ParseLine(base, sizes[0], tail);
          ParseRenderFrom(sizes[1..], base + 1); }
        Some([sizes[0]] + sizes[1..]);
        { assert [sizes[0]] + sizes[1..] == sizes; }
        Some(sizes);
      }
    }
  }

  /** The summary text determines the histogram: parsing it gives back the
      `k` sizes, in cluster order. */
  lemma ParseRender(sizes: seq<nat>)
    ensures ParseSummary(Render(sizes)) == Some(sizes)
  {
    ParseRenderFrom(sizes, 0);
  }

  /** The summary reports every point exactly once when every label is a
      cluster index: its k sizes add up to the number of points. */
  lemma SummaryAccountsForAllPoints(pts: seq<Point>, k: nat)
    requires InRange(pts, k)
    ensures ParseSummary(Render(Sizes(pts, k))) == Some(Sizes(pts, k))
    ensures |Sizes(pts, k)| == k && Total(Sizes(pts, k)) == |pts|
  {
    ParseRender(Sizes(pts, k));
    SizesSumToLength(pts, k);
  }

  /**
   * `buildResult`: count the points of every cluster, then append one line
   * per cluster. Every label must be a valid index into the k counters.
   */
  method BuildResult(dataPoints: array<Point>, k: nat) returns (result: string)
    requires InRange(dataPoints[..], k)
    ensures result == Render(Sizes(dataPoints[..], k))
  {
    var clusterSizes := new nat[k](_ => 0);
    for i := 0 to dataPoints.Length
      invariant clusterSizes[..] == Sizes(dataPoints[..i], k)
    {
      var point := dataPoints[i];
      assert dataPoints[..i + 1] == dataPoints[..i] + [point];
      forall c | 0 <= c < k {
        CountSnoc(dataPoints[..i], point, c);
      }
      clusterSizes[point.cluster] := clusterSizes[point.cluster] + 1;
    }
    assert dataPoints[..dataPoints.Length] == dataPoints[..];
    result := "";
    for i := 0 to k
      invariant result == Render(clusterSizes[..i])
    {
      assert clusterSizes[..i + 1][..i] == clusterSizes[..i];
      result := result + "Cluster " + NatToString(i + 1) + ": " + NatToString(clusterSizes[i]) + "\n";
    }
    assert clusterSizes[..k] == clusterSizes[..];
  }
}
