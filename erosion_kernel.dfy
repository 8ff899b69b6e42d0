/**
 * The erosion kernel of every vertex (the tables InitializeComponent fills): the vertices within
 * ErosionRadius of it, clipped to the grid, each with a linear distance falloff normalised so that
 * the weights of one vertex sum to 1. The square root is a parameter of the model.
 */
module ErosionKernel {
  import opened Grid
  import opened ErosionSettings

  /** One kept candidate of a kernel: grid coordinates and weight before normalisation. */
  datatype Tap = Tap(X: int, Y: int, Weight: real)

  /** Max(0, 1 - sqrt(dx^2 + dy^2) / ErosionRadius). */
  function DistanceWeight(cfg: Settings, sqrt: real -> real, dx: int, dy: int): real
    requires cfg.ErosionRadius > 0
  {
    Max(0.0, 1.0 - sqrt((dx * dx + dy * dy) as real) / cfg.ErosionRadius as real)
  }

  /** A candidate (x, y) of the kernel of (cx, cy) is kept when it is on the grid and its weight is not 0. */
  predicate Kept(cfg: Settings, sqrt: real -> real, cx: int, cy: int, x: int, y: int)
    requires cfg.ErosionRadius > 0
  {
    !(x < 0 || x > ErosionMapSize - 1 || y < 0 || y > ErosionMapSize - 1
      || DistanceWeight(cfg, sqrt, cx - x, cy - y) == 0.0)
  }

  function TapAt(cfg: Settings, sqrt: real -> real, cx: int, cy: int, x: int, y: int): seq<Tap>
    requires cfg.ErosionRadius > 0
  {
    if Kept(cfg, sqrt, cx, cy, x, y) then [Tap(x, y, DistanceWeight(cfg, sqrt, cx - x, cy - y))] else []
  }

  /** The taps of row y, columns cx - ErosionRadius up to x - 1, in the order the inner loop visits them. */
  function RowTaps(cfg: Settings, sqrt: real -> real, cx: int, cy: int, y: int, x: int): seq<Tap>
    requires cfg.ErosionRadius > 0
    decreases x - (cx - cfg.ErosionRadius)
  {
    if x <= cx - cfg.ErosionRadius then []
    else RowTaps(cfg, sqrt, cx, cy, y, x - 1) + TapAt(cfg, sqrt, cx, cy, x - 1, y)
  }

  /** The taps of the full rows cy - ErosionRadius up to y - 1. */
  function WindowTaps(cfg: Settings, sqrt: real -> real, cx: int, cy: int, y: int): seq<Tap>
    requires cfg.ErosionRadius > 0
    decreases y - (cy - cfg.ErosionRadius)
  {
    if y <= cy - cfg.ErosionRadius then []
    else WindowTaps(cfg, sqrt, cx, cy, y - 1) + RowTaps(cfg, sqrt, cx, cy, y - 1, cx + cfg.ErosionRadius + 1)
  }

  /** One more column of a row: the tap at (x, y) if it is kept. */
  lemma RowTapsNext(cfg: Settings, sqrt: real -> real, cx: int, cy: int, y: int, x: int, before: seq<Tap>)
    requires cfg.ErosionRadius > 0 && cx - cfg.ErosionRadius <= x
    ensures before + RowTaps(cfg, sqrt, cx, cy, y, x + 1) == before + RowTaps(cfg, sqrt, cx, cy, y, x) + TapAt(cfg, sqrt, cx, cy, x, y)
  {
    assert RowTaps(cfg, sqrt, cx, cy, y, x + 1) == RowTaps(cfg, sqrt, cx, cy, y, x) + TapAt(cfg, sqrt, cx, cy, x, y);
  }

  /** The tap at (x, y) in terms of the weight the loop has computed for it. */
  lemma TapAtWithWeight(cfg: Settings, sqrt: real -> real, cx: int, cy: int, x: int, y: int, w: real)
    requires cfg.ErosionRadius > 0 && w == DistanceWeight(cfg, sqrt, cx - x, cy - y)
    ensures TapAt(cfg, sqrt, cx, cy, x, y)
      == if x < 0 || x > ErosionMapSize - 1 || y < 0 || y > ErosionMapSize - 1 || w == 0.0 then [] else [Tap(x, y, w)]
  {
  }

  /** One more full row of the window. */
  lemma WindowTapsNext(cfg: Settings, sqrt: real -> real, cx: int, cy: int, y: int)
    requires cfg.ErosionRadius > 0 && cy - cfg.ErosionRadius <= y
    ensures WindowTaps(cfg, sqrt, cx, cy, y + 1)
      == WindowTaps(cfg, sqrt, cx, cy, y) + RowTaps(cfg, sqrt, cx, cy, y, cx + cfg.ErosionRadius + 1)
  {
  }

  /** All kept taps of vertex i (VertexOffsets and VertexWeights once the two loops are done). */
  function KernelTaps(cfg: Settings, sqrt: real -> real, i: int): seq<Tap>
    requires cfg.ErosionRadius > 0
  {
    var cx, cy := i % ErosionMapSize, i / ErosionMapSize;
    WindowTaps(cfg, sqrt, cx, cy, cy + cfg.ErosionRadius + 1)
  }

  function TapWeights(taps: seq<Tap>): seq<real> {
    seq(|taps|, j requires 0 <= j < |taps| => taps[j].Weight)
  }

  lemma TapWeightsAppend(taps: seq<Tap>, more: seq<Tap>)
    ensures TapWeights(taps + more) == TapWeights(taps) + TapWeights(more)
  {
  }

  /** Appending a tap adds its weight to the sum of the weights. */
  lemma SumTapWeightsAppend(taps: seq<Tap>, t: Tap)
    ensures Sum(TapWeights(taps + [t])) == Sum(TapWeights(taps)) + t.Weight
  {
    TapWeightsAppend(taps, [t]);
    assert TapWeights([t]) == [t.Weight];
    SumAppend(TapWeights(taps), t.Weight);
  }

  /**
   * One column of the inner kernel loop: a position the loop skips leaves the gathered taps as the
   * row so far, and a kept position appends its tap and adds its weight to the weighted sum.
   */
  lemma GatherColumn(cfg: Settings, sqrt: real -> real, cx: int, cy: int, y: int, x: int, taps0: seq<Tap>, taps: seq<Tap>, w: real)
    requires cfg.ErosionRadius > 0 && cx - cfg.ErosionRadius <= x
    requires taps == taps0 + RowTaps(cfg, sqrt, cx, cy, y, x) && w == DistanceWeight(cfg, sqrt, cx - x, cy - y)
    ensures x < 0 || x > ErosionMapSize - 1 || y < 0 || y > ErosionMapSize - 1 || w == 0.0 ==>
      taps == taps0 + RowTaps(cfg, sqrt, cx, cy, y, x + 1)
    ensures !(x < 0 || x > ErosionMapSize - 1 || y < 0 || y > ErosionMapSize - 1 || w == 0.0) ==>
      && taps + [Tap(x, y, w)] == taps0 + RowTaps(cfg, sqrt, cx, cy, y, x + 1)
      && Sum(TapWeights(taps + [Tap(x, y, w)])) == Sum(TapWeights(taps)) + w
  {
    RowTapsNext(cfg, sqrt, cx, cy, y, x, taps0);
    TapAtWithWeight(cfg, sqrt, cx, cy, x, y, w);
    SumTapWeightsAppend(taps, Tap(x, y, w));
  }

  /** The row-major vertex index of every tap. */
  function TapIndices(taps: seq<Tap>): seq<int> {
    seq(|taps|, j requires 0 <= j < |taps| => taps[j].X + taps[j].Y * ErosionMapSize)
  }

  /** Every weight divided by total. */
  function NormalisedWeights(taps: seq<Tap>, total: real): seq<real>
    requires total != 0.0
  {
    seq(|taps|, j requires 0 <= j < |taps| => taps[j].Weight / total)
  }

  /** Entry i of ErosionIndicesMap. */
  function KernelIndices(cfg: Settings, sqrt: real -> real, i: int): (r: seq<int>)
    requires cfg.ErosionRadius > 0
    ensures forall j :: 0 <= j < |r| ==> 0 <= r[j] < VertexCount
  {
    KernelTapIndicesInGrid(cfg, sqrt, i);
    TapIndices(KernelTaps(cfg, sqrt, i))
  }

  lemma KernelTapIndicesInGrid(cfg: Settings, sqrt: real -> real, i: int)
    requires cfg.ErosionRadius > 0
    ensures var idx := TapIndices(KernelTaps(cfg, sqrt, i)); forall j :: 0 <= j < |idx| ==> 0 <= idx[j] < VertexCount
  {
    var taps := KernelTaps(cfg, sqrt, i);
    KernelTapsSound(cfg, sqrt, i);
    forall j | 0 <= j < |taps| ensures 0 <= taps[j].X + taps[j].Y * ErosionMapSize < VertexCount {
      RowMajorInRange(taps[j].X, taps[j].Y, ErosionMapSize);
    }
  }

  /** Entry i of ErosionWeightsMap: every weight divided by the sum of the weights kept. */
  function KernelWeights(cfg: Settings, sqrt: real -> real, i: int): seq<real>
    requires cfg.ErosionRadius > 0 && sqrt(0.0) == 0.0 && 0 <= i < VertexCount
  {
    var taps := KernelTaps(cfg, sqrt, i);
    KernelContainsCentre(cfg, sqrt, i);
    NormalisedWeights(taps, Sum(TapWeights(taps)))
  }

  /** What every tap of a partial row satisfies: its row, its column range, on the grid, its weight. */
  ghost predicate TapOf(cfg: Settings, sqrt: real -> real, cx: int, cy: int, t: Tap)
    requires cfg.ErosionRadius > 0
  {
    && 0 <= t.X < ErosionMapSize && 0 <= t.Y < ErosionMapSize
    && cx - cfg.ErosionRadius <= t.X <= cx + cfg.ErosionRadius
    && cy - cfg.ErosionRadius <= t.Y <= cy + cfg.ErosionRadius
    && t.Weight == DistanceWeight(cfg, sqrt, cx - t.X, cy - t.Y)
    && t.Weight > 0.0
  }

  lemma {:induction false} RowTapsSound(cfg: Settings, sqrt: real -> real, cx: int, cy: int, y: int, x: int)
    requires cfg.ErosionRadius > 0
    requires cy - cfg.ErosionRadius <= y <= cy + cfg.ErosionRadius && x <= cx + cfg.ErosionRadius + 1
    ensures forall j :: 0 <= j < |RowTaps(cfg, sqrt, cx, cy, y, x)| ==>
      var t := RowTaps(cfg, sqrt, cx, cy, y, x)[j]; t.Y == y && t.X < x && TapOf(cfg, sqrt, cx, cy, t)
    decreases x - (cx - cfg.ErosionRadius)
  {
    if x > cx - cfg.ErosionRadius {
      RowTapsSound(cfg, sqrt, cx, cy, y, x - 1);
    }
  }

  lemma {:induction false} WindowTapsSound(cfg: Settings, sqrt: real -> real, cx: int, cy: int, y: int)
    requires cfg.ErosionRadius > 0 && y <= cy + cfg.ErosionRadius + 1
    ensures forall j :: 0 <= j < |WindowTaps(cfg, sqrt, cx, cy, y)| ==>
      var t := WindowTaps(cfg, sqrt, cx, cy, y)[j]; t.Y < y && TapOf(cfg, sqrt, cx, cy, t)
    decreases y - (cy - cfg.ErosionRadius)
  {
    if y > cy - cfg.ErosionRadius {
      WindowTapsSound(cfg, sqrt, cx, cy, y - 1);
      RowTapsSound(cfg, sqrt, cx, cy, y - 1, cx + cfg.ErosionRadius + 1);
    }
  }

  lemma {:induction false} RowTapsComplete(cfg: Settings, sqrt: real -> real, cx: int, cy: int, y: int, x: int, x': int)
    requires cfg.ErosionRadius > 0
    requires cx - cfg.ErosionRadius <= x' < x && Kept(cfg, sqrt, cx, cy, x', y)
    ensures Tap(x', y, DistanceWeight(cfg, sqrt, cx - x', cy - y)) in RowTaps(cfg, sqrt, cx, cy, y, x)
    decreases x - (cx - cfg.ErosionRadius)
  {
    if x' < x - 1 {
      RowTapsComplete(cfg, sqrt, cx, cy, y, x - 1, x');
    }
  }

  lemma {:induction false} WindowTapsComplete(cfg: Settings, sqrt: real -> real, cx: int, cy: int, y: int, x': int, y': int)
    requires cfg.ErosionRadius > 0
    requires cy - cfg.ErosionRadius <= y' < y && cx - cfg.ErosionRadius <= x' <= cx + cfg.ErosionRadius
    requires Kept(cfg, sqrt, cx, cy, x', y')
    ensures Tap(x', y', DistanceWeight(cfg, sqrt, cx - x', cy - y')) in WindowTaps(cfg, sqrt, cx, cy, y)
    decreases y - (cy - cfg.ErosionRadius)
  {
    if y' < y - 1 {
      WindowTapsComplete(cfg, sqrt, cx, cy, y - 1, x', y');
    } else {
      RowTapsComplete(cfg, sqrt, cx, cy, y', cx + cfg.ErosionRadius + 1, x');
    }
  }

  /** Every stored tap is on the grid, within ErosionRadius of the centre on both axes, with a positive weight. */
  lemma KernelTapsSound(cfg: Settings, sqrt: real -> real, i: int)
    requires cfg.ErosionRadius > 0
    ensures forall j :: 0 <= j < |KernelTaps(cfg, sqrt, i)| ==>
      TapOf(cfg, sqrt, i % ErosionMapSize, i / ErosionMapSize, KernelTaps(cfg, sqrt, i)[j])
  {
    WindowTapsSound(cfg, sqrt, i % ErosionMapSize, i / ErosionMapSize, i / ErosionMapSize + cfg.ErosionRadius + 1);
  }

  /**
   * Conversely, every vertex of the (2R+1)-square window around the centre that lies on the grid and
   * has a non-zero falloff weight is a tap of the kernel.
   */
  lemma KernelTapsComplete(cfg: Settings, sqrt: real -> real, cx: int, cy: int, x: int, y: int)
    requires cfg.ErosionRadius > 0 && 0 <= cx < ErosionMapSize && 0 <= cy < ErosionMapSize
    requires cx - cfg.ErosionRadius <= x <= cx + cfg.ErosionRadius
    requires cy - cfg.ErosionRadius <= y <= cy + cfg.ErosionRadius
    requires Kept(cfg, sqrt, cx, cy, x, y)
    ensures Tap(x, y, DistanceWeight(cfg, sqrt, cx - x, cy - y)) in KernelTaps(cfg, sqrt, cx + cy * ErosionMapSize)
  {
    WindowTapsComplete(cfg, sqrt, cx, cy, cy + cfg.ErosionRadius + 1, x, y);
    KernelTapsAt(cfg, sqrt, cx, cy);
  }

  /** The kernel of vertex cx + cy * ErosionMapSize is the full window around (cx, cy). */
  lemma KernelTapsAt(cfg: Settings, sqrt: real -> real, cx: int, cy: int)
    requires cfg.ErosionRadius > 0 && 0 <= cx < ErosionMapSize && 0 <= cy < ErosionMapSize
    ensures KernelTaps(cfg, sqrt, cx + cy * ErosionMapSize) == WindowTaps(cfg, sqrt, cx, cy, cy + cfg.ErosionRadius + 1)
  {
    RowMajor(cx, cy, ErosionMapSize);
  }

  /** The centre vertex is its own tap with weight 1, so the sum of the kept weights is at least 1. */
  lemma KernelContainsCentre(cfg: Settings, sqrt: real -> real, i: int)
    requires cfg.ErosionRadius > 0 && sqrt(0.0) == 0.0 && 0 <= i < VertexCount
    ensures Tap(i % ErosionMapSize, i / ErosionMapSize, 1.0) in KernelTaps(cfg, sqrt, i)
    ensures Sum(TapWeights(KernelTaps(cfg, sqrt, i))) >= 1.0
  {
    var cx, cy := i % ErosionMapSize, i / ErosionMapSize;
    IndexCoordinates(i, ErosionMapSize);
    CentreWeight(cfg, sqrt);
    KernelTapsComplete(cfg, sqrt, cx, cy, cx, cy);
    assert cx + cy * ErosionMapSize == i;
    KernelTapsSound(cfg, sqrt, i);
    SumWithUnitTap(KernelTaps(cfg, sqrt, i), Tap(cx, cy, 1.0), cx, cy, cfg, sqrt);
  }

  /** The centre itself has weight 1. */
  lemma CentreWeight(cfg: Settings, sqrt: real -> real)
    requires cfg.ErosionRadius > 0 && sqrt(0.0) == 0.0
    ensures DistanceWeight(cfg, sqrt, 0, 0) == 1.0
  {
  }

  /** Taps with positive weights, one of them of weight 1, have weights summing to at least 1. */
  lemma SumWithUnitTap(taps: seq<Tap>, t: Tap, cx: int, cy: int, cfg: Settings, sqrt: real -> real)
    requires cfg.ErosionRadius > 0
    requires t in taps && t.Weight == 1.0
    requires forall j :: 0 <= j < |taps| ==> TapOf(cfg, sqrt, cx, cy, taps[j])
    ensures Sum(TapWeights(taps)) >= 1.0
  {
    var j :| 0 <= j < |taps| && taps[j] == t;
    assert forall k :: 0 <= k < |TapWeights(taps)| ==> TapWeights(taps)[k] >= 0.0;
    SumAtLeastTerm(TapWeights(taps), j);
  }

  /** Every index of entry i lies on the grid, in a column and a row within ErosionRadius of vertex i. */
  lemma KernelIndicesInGrid(cfg: Settings, sqrt: real -> real, i: int)
    requires cfg.ErosionRadius > 0
    ensures forall j :: 0 <= j < |KernelIndices(cfg, sqrt, i)| ==>
      var k := KernelIndices(cfg, sqrt, i)[j];
      && 0 <= k < VertexCount
      && Abs((k % ErosionMapSize - i % ErosionMapSize) as real) <= cfg.ErosionRadius as real
      && Abs((k / ErosionMapSize - i / ErosionMapSize) as real) <= cfg.ErosionRadius as real
  {
    var taps := KernelTaps(cfg, sqrt, i);
    KernelTapsSound(cfg, sqrt, i);
    forall j | 0 <= j < |taps|
      ensures var k := taps[j].X + taps[j].Y * ErosionMapSize;
        k % ErosionMapSize == taps[j].X && k / ErosionMapSize == taps[j].Y && 0 <= k < VertexCount
    {
      RowMajor(taps[j].X, taps[j].Y, ErosionMapSize);
      RowMajorInRange(taps[j].X, taps[j].Y, ErosionMapSize);
    }
  }

  /** Entry i holds vertex i itself. */
  lemma KernelIndicesContainCentre(cfg: Settings, sqrt: real -> real, i: int)
    requires cfg.ErosionRadius > 0 && sqrt(0.0) == 0.0 && 0 <= i < VertexCount
    ensures i in KernelIndices(cfg, sqrt, i)
  {
    KernelContainsCentre(cfg, sqrt, i);
    var taps := KernelTaps(cfg, sqrt, i);
    var j :| 0 <= j < |taps| && taps[j] == Tap(i % ErosionMapSize, i / ErosionMapSize, 1.0);
    IndexCoordinates(i, ErosionMapSize);
    assert KernelIndices(cfg, sqrt, i)[j] == i;
  }

  /** The weights of entry i are as many as its indices, all positive, and they sum to 1. */
  lemma KernelWeightsNormalised(cfg: Settings, sqrt: real -> real, i: int)
    requires cfg.ErosionRadius > 0 && sqrt(0.0) == 0.0 && 0 <= i < VertexCount
    ensures |KernelWeights(cfg, sqrt, i)| == |KernelIndices(cfg, sqrt, i)| > 0
    ensures forall j :: 0 <= j < |KernelWeights(cfg, sqrt, i)| ==> KernelWeights(cfg, sqrt, i)[j] > 0.0
    ensures Sum(KernelWeights(cfg, sqrt, i)) == 1.0
  {
    var taps := KernelTaps(cfg, sqrt, i);
    KernelContainsCentre(cfg, sqrt, i);
    KernelTapsSound(cfg, sqrt, i);
    var total := Sum(TapWeights(taps));
    var w := KernelWeights(cfg, sqrt, i);
    forall j | 0 <= j < |w| ensures w[j] > 0.0 {
      assert TapOf(cfg, sqrt, i % ErosionMapSize, i / ErosionMapSize, taps[j]);
      PositiveQuotient(taps[j].Weight, total);
    }
    SumScaled(TapWeights(taps), w, total);
  }

  lemma PositiveQuotient(a: real, b: real)
    requires a > 0.0 && b > 0.0
    ensures a / b > 0.0
  {
  }
}
