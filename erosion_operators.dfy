/**
 * The three operations the simulator applies to a height map: depositing sediment on the four
 * corners of a cell (DepositSediment), eroding the kernel of a cell into the droplet (ErodeTerrain),
 * and the 3x3 mean filter (GaussianBlur). Each is stated here as a function on values; the
 * simulator class performs the same updates in place.
 */
module ErosionOperators {
  import opened Grid
  import opened ErosionSettings

  /** A height map together with the sediment a droplet carries once an operation is done. */
  datatype Exchange = Exchange(Heights: seq<Vector>, Sediment: real)

  function RaiseZ(v: Vector, dz: real): Vector {
    v.(Z := v.Z + dz)
  }

  function LowerZ(v: Vector, dz: real): Vector {
    v.(Z := v.Z - dz)
  }

  /** Two height maps of the same length whose entries agree on X and Y. */
  ghost predicate SameFootprint(h: seq<Vector>, h': seq<Vector>) {
    |h| == |h'| && forall k :: 0 <= k < |h| ==> h'[k].X == h[k].X && h'[k].Y == h[k].Y
  }

  lemma SameFootprintTransitive(h: seq<Vector>, h': seq<Vector>, h'': seq<Vector>)
    requires SameFootprint(h, h') && SameFootprint(h', h'')
    ensures SameFootprint(h, h'')
  {
  }

  // ---------------------------------------------------------------- deposition

  /** Going uphill the droplet fills at most the rise; otherwise it drops a share of its excess. */
  function DepositAmount(heightDelta: real, sediment: real, capacity: real, depositionSpeed: real): real {
    if heightDelta > 0.0 then Min(heightDelta, sediment) else (sediment - capacity) * depositionSpeed
  }

  function RaiseAt(h: seq<Vector>, k: int, dz: real): seq<Vector>
    requires 0 <= k < |h|
  {
    h[k := RaiseZ(h[k], dz)]
  }

  /** A quarter of the amount raises each corner of the cell whose north-west corner is c. */
  function RaiseCorners(h: seq<Vector>, c: int, amount: real): seq<Vector>
    requires 0 <= c && c + 1 + ErosionMapSize < |h|
  {
    seq(|h|, k requires 0 <= k < |h| => if IsCorner(c, k) then RaiseZ(h[k], amount * 0.25) else h[k])
  }

  /** The same map as the source's four writes: north-west, north-east, south-west, south-east. */
  lemma RaiseCornersInOrder(h: seq<Vector>, c: int, amount: real)
    requires 0 <= c && c + 1 + ErosionMapSize < |h|
    ensures var q := amount * 0.25;
      RaiseCorners(h, c, amount)
      == RaiseAt(RaiseAt(RaiseAt(RaiseAt(h, c, q), c + 1, q), c + ErosionMapSize, q), c + 1 + ErosionMapSize, q)
  {
    var q := amount * 0.25;
    var chain := RaiseAt(RaiseAt(RaiseAt(RaiseAt(h, c, q), c + 1, q), c + ErosionMapSize, q), c + 1 + ErosionMapSize, q);
    forall k | 0 <= k < |h|
      ensures RaiseCorners(h, c, amount)[k] == chain[k]
    {
    }
  }

  function Deposited(h: seq<Vector>, c: int, heightDelta: real, sediment: real, capacity: real, depositionSpeed: real): Exchange
    requires 0 <= c && c + 1 + ErosionMapSize < |h|
  {
    var amount := DepositAmount(heightDelta, sediment, capacity, depositionSpeed);
    Exchange(RaiseCorners(h, c, amount), sediment - amount)
  }

  predicate IsCorner(c: int, k: int) {
    k == c || k == c + 1 || k == c + ErosionMapSize || k == c + 1 + ErosionMapSize
  }

  /** Only the four corners change, each by a quarter of what the droplet lost; X and Y stay. */
  lemma DepositedTouchesOnlyCorners(h: seq<Vector>, c: int, heightDelta: real, sediment: real, capacity: real, depositionSpeed: real)
    requires 0 <= c && c + 1 + ErosionMapSize < |h|
    ensures var e := Deposited(h, c, heightDelta, sediment, capacity, depositionSpeed);
      && SameFootprint(h, e.Heights)
      && (forall k :: 0 <= k < |h| && !IsCorner(c, k) ==> e.Heights[k] == h[k])
      && (forall k :: 0 <= k < |h| && IsCorner(c, k) ==> e.Heights[k].Z == h[k].Z + (sediment - e.Sediment) * 0.25)
  {
  }

  /** What the droplet drops is what the corners gain: SumZ plus the carried sediment stays the same. */
  lemma DepositedConservesMass(h: seq<Vector>, c: int, heightDelta: real, sediment: real, capacity: real, depositionSpeed: real)
    requires 0 <= c && c + 1 + ErosionMapSize < |h|
    ensures var e := Deposited(h, c, heightDelta, sediment, capacity, depositionSpeed);
      SumZ(e.Heights) + e.Sediment == SumZ(h) + sediment
  {
    RaiseCornersSum(h, c, DepositAmount(heightDelta, sediment, capacity, depositionSpeed));
  }

  lemma RaiseCornersSum(h: seq<Vector>, c: int, amount: real)
    requires 0 <= c && c + 1 + ErosionMapSize < |h|
    ensures SumZ(RaiseCorners(h, c, amount)) == SumZ(h) + amount
  {
    RaiseCornersInOrder(h, c, amount);
    RaiseFourSum(h, c, c + 1, c + ErosionMapSize, c + 1 + ErosionMapSize, amount * 0.25);
  }

  lemma RaiseFourSum(h: seq<Vector>, k1: int, k2: int, k3: int, k4: int, q: real)
    requires 0 <= k1 < |h| && 0 <= k2 < |h| && 0 <= k3 < |h| && 0 <= k4 < |h|
    ensures SumZ(RaiseAt(RaiseAt(RaiseAt(RaiseAt(h, k1, q), k2, q), k3, q), k4, q)) == SumZ(h) + 4.0 * q
  {
    var h1 := RaiseAt(h, k1, q);
    var h2 := RaiseAt(h1, k2, q);
    var h3 := RaiseAt(h2, k3, q);
    SumZUpdate(h, k1, RaiseZ(h[k1], q));
    SumZUpdate(h1, k2, RaiseZ(h1[k2], q));
    SumZUpdate(h2, k3, RaiseZ(h2[k3], q));
    SumZUpdate(h3, k4, RaiseZ(h3[k4], q));
  }

  /**
   * When the simulator deposits (the droplet carries more than its capacity, or it moves uphill),
   * it drops between nothing and all of its sediment, and going uphill no more than the rise.
   */
  lemma DepositAmountBounds(heightDelta: real, sediment: real, capacity: real, depositionSpeed: real)
    requires sediment >= 0.0 && capacity >= 0.0 && 0.0 <= depositionSpeed <= 1.0
    requires sediment > capacity || heightDelta > 0.0
    ensures 0.0 <= DepositAmount(heightDelta, sediment, capacity, depositionSpeed) <= sediment
    ensures heightDelta > 0.0 ==> DepositAmount(heightDelta, sediment, capacity, depositionSpeed) <= heightDelta
  {
    if heightDelta <= 0.0 {
      ExcessShare(sediment, capacity, depositionSpeed);
    }
  }

  /** A share in [0, 1] of the excess over a non-negative capacity is at most the sediment. */
  lemma ExcessShare(sediment: real, capacity: real, share: real)
    requires sediment > capacity >= 0.0 && 0.0 <= share <= 1.0
    ensures 0.0 <= (sediment - capacity) * share <= sediment
  {
    var excess := sediment - capacity;
    assert excess - excess * share == excess * (1.0 - share);
    assert (sediment - capacity) * share == excess * share;
  }

  // ---------------------------------------------------------------- erosion

  /** What the droplet may take: its free capacity scaled by ErosionSpeed, at most the drop in height, at least 0. */
  function ErosionAmount(heightDelta: real, sediment: real, capacity: real, erosionSpeed: real): real {
    Max(Min((capacity - sediment) * erosionSpeed, -heightDelta), 0.0)
  }

  lemma ErosionAmountBounds(heightDelta: real, sediment: real, capacity: real, erosionSpeed: real)
    ensures 0.0 <= ErosionAmount(heightDelta, sediment, capacity, erosionSpeed)
    ensures heightDelta <= 0.0 ==> ErosionAmount(heightDelta, sediment, capacity, erosionSpeed) <= -heightDelta
    ensures ErosionAmount(heightDelta, sediment, capacity, erosionSpeed) > 0.0 ==>
      ErosionAmount(heightDelta, sediment, capacity, erosionSpeed) <= (capacity - sediment) * erosionSpeed
  {
  }

  /** Vertex k lies in the border band of width b: its row or column is within b of an edge. */
  predicate InBorderBand(k: int, b: int) {
    k / ErosionMapSize < b || k / ErosionMapSize > ErosionMapSize - (b + 1)
    || k % ErosionMapSize < b || k % ErosionMapSize > ErosionMapSize - (b + 1)
  }

  /** Erosion leaves a vertex alone when boundary blocking is on and the vertex is in the band. */
  predicate Skipped(cfg: Settings, k: int) {
    InBorderBand(k, cfg.BorderSize) && cfg.BlockBoundaryErosion
  }

  /** The indices an erosion is given are entries of the height map. */
  ghost predicate IndicesIn(idx: seq<int>, n: int) {
    forall j :: 0 <= j < |idx| ==> 0 <= idx[j] < n
  }

  /** The first n kernel taps in loop order: each one not skipped moves amount * w[j] from the vertex into the droplet. */
  function ErodeTaps(cfg: Settings, h: seq<Vector>, idx: seq<int>, w: seq<real>, amount: real, sediment: real, n: nat): (e: Exchange)
    requires |idx| <= |w| && n <= |idx| && IndicesIn(idx, |h|)
    ensures |e.Heights| == |h|
    decreases n
  {
    if n == 0 then Exchange(h, sediment)
    else
      var e := ErodeTaps(cfg, h, idx, w, amount, sediment, n - 1);
      var k := idx[n - 1];
      if Skipped(cfg, k) then e
      else
        var dz := amount * w[n - 1];
        Exchange(e.Heights[k := LowerZ(e.Heights[k], dz)], e.Sediment + dz)
  }

  /** The tap after the first n: skipped, or its vertex lowered by its share and the droplet credited with it. */
  lemma ErodeTapsNext(cfg: Settings, h: seq<Vector>, idx: seq<int>, w: seq<real>, amount: real, sediment: real, n: nat)
    requires |idx| <= |w| && n < |idx| && IndicesIn(idx, |h|)
    ensures var e := ErodeTaps(cfg, h, idx, w, amount, sediment, n);
      var k := idx[n];
      ErodeTaps(cfg, h, idx, w, amount, sediment, n + 1)
      == if Skipped(cfg, k) then e else Exchange(e.Heights[k := LowerZ(e.Heights[k], amount * w[n])], e.Sediment + amount * w[n])
  {
  }

  /** ErodeTerrain: the amount is fixed once, then spread over the kernel by its weights. */
  function Eroded(cfg: Settings, h: seq<Vector>, idx: seq<int>, w: seq<real>, heightDelta: real, sediment: real, capacity: real): Exchange
    requires |idx| <= |w| && IndicesIn(idx, |h|)
  {
    ErodeTaps(cfg, h, idx, w, ErosionAmount(heightDelta, sediment, capacity, cfg.ErosionSpeed), sediment, |idx|)
  }

  /** Every height removed goes into the droplet: SumZ plus the carried sediment stays the same. */
  lemma {:induction false} ErodeTapsConservesMass(cfg: Settings, h: seq<Vector>, idx: seq<int>, w: seq<real>, amount: real, sediment: real, n: nat)
    requires |idx| <= |w| && n <= |idx| && IndicesIn(idx, |h|)
    ensures var e := ErodeTaps(cfg, h, idx, w, amount, sediment, n);
      SumZ(e.Heights) + e.Sediment == SumZ(h) + sediment
    decreases n
  {
    if n > 0 {
      ErodeTapsConservesMass(cfg, h, idx, w, amount, sediment, n - 1);
      var e := ErodeTaps(cfg, h, idx, w, amount, sediment, n - 1);
      var k := idx[n - 1];
      if !Skipped(cfg, k) {
        SumZUpdate(e.Heights, k, LowerZ(e.Heights[k], amount * w[n - 1]));
      }
    }
  }

  /**
   * Only the vertices listed in the kernel change, and of them only those erosion does not skip;
   * X and Y never change.
   */
  lemma {:induction false} ErodeTapsTouchesOnlyKernel(cfg: Settings, h: seq<Vector>, idx: seq<int>, w: seq<real>, amount: real, sediment: real, n: nat)
    requires |idx| <= |w| && n <= |idx| && IndicesIn(idx, |h|)
    ensures var e := ErodeTaps(cfg, h, idx, w, amount, sediment, n);
      && SameFootprint(h, e.Heights)
      && forall k :: 0 <= k < |h| && (k !in idx[..n] || Skipped(cfg, k)) ==> e.Heights[k] == h[k]
    decreases n
  {
    if n > 0 {
      ErodeTapsTouchesOnlyKernel(cfg, h, idx, w, amount, sediment, n - 1);
      assert idx[..n] == idx[..n - 1] + [idx[n - 1]];
    }
  }

  /** With a non-negative amount and non-negative weights no vertex rises. */
  lemma {:induction false} ErodeTapsNeverRaises(cfg: Settings, h: seq<Vector>, idx: seq<int>, w: seq<real>, amount: real, sediment: real, n: nat)
    requires |idx| <= |w| && n <= |idx| && IndicesIn(idx, |h|)
    requires amount >= 0.0 && forall j :: 0 <= j < |w| ==> w[j] >= 0.0
    ensures var e := ErodeTaps(cfg, h, idx, w, amount, sediment, n);
      forall k :: 0 <= k < |h| ==> e.Heights[k].Z <= h[k].Z
    decreases n
  {
    if n > 0 {
      ErodeTapsNeverRaises(cfg, h, idx, w, amount, sediment, n - 1);
      NonnegativeScaled(amount, w[n - 1]);
    }
  }

  /**
   * With a non-negative amount and non-negative weights the droplet gains at least nothing and at
   * most amount times the sum of the weights visited.
   */
  lemma {:induction false} ErodeTapsGainBounds(cfg: Settings, h: seq<Vector>, idx: seq<int>, w: seq<real>, amount: real, sediment: real, n: nat)
    requires |idx| <= |w| && n <= |idx| && IndicesIn(idx, |h|)
    requires amount >= 0.0 && forall j :: 0 <= j < |w| ==> w[j] >= 0.0
    ensures sediment <= ErodeTaps(cfg, h, idx, w, amount, sediment, n).Sediment
    ensures ErodeTaps(cfg, h, idx, w, amount, sediment, n).Sediment <= sediment + amount * Sum(w[..n])
    decreases n
  {
    if n > 0 {
      ErodeTapsGainBounds(cfg, h, idx, w, amount, sediment, n - 1);
      NonnegativeScaled(amount, w[n - 1]);
      assert w[..n] == w[..n - 1] + [w[n - 1]];
      SumAppend(w[..n - 1], w[n - 1]);
      Distribute(amount, Sum(w[..n - 1]), w[n - 1]);
    }
  }

  /** Without boundary blocking the droplet gains exactly amount times the sum of the weights visited. */
  lemma {:induction false} ErodeTapsGainUnblocked(cfg: Settings, h: seq<Vector>, idx: seq<int>, w: seq<real>, amount: real, sediment: real, n: nat)
    requires |idx| <= |w| && n <= |idx| && IndicesIn(idx, |h|)
    requires !cfg.BlockBoundaryErosion
    ensures ErodeTaps(cfg, h, idx, w, amount, sediment, n).Sediment == sediment + amount * Sum(w[..n])
    decreases n
  {
    if n > 0 {
      ErodeTapsGainUnblocked(cfg, h, idx, w, amount, sediment, n - 1);
      assert w[..n] == w[..n - 1] + [w[n - 1]];
      SumAppend(w[..n - 1], w[n - 1]);
      Distribute(amount, Sum(w[..n - 1]), w[n - 1]);
    }
  }

  lemma NonnegativeScaled(a: real, b: real)
    requires a >= 0.0 && b >= 0.0
    ensures a * b >= 0.0
  {
  }

  lemma Distribute(a: real, b: real, c: real)
    ensures a * (b + c) == a * b + a * c
  {
  }

  /** With weights summing to 1 and no blocking, the droplet gains exactly the erosion amount. */
  lemma ErodedGainsAmount(cfg: Settings, h: seq<Vector>, idx: seq<int>, w: seq<real>, heightDelta: real, sediment: real, capacity: real)
    requires |idx| == |w| && IndicesIn(idx, |h|) && Sum(w) == 1.0 && !cfg.BlockBoundaryErosion
    ensures Eroded(cfg, h, idx, w, heightDelta, sediment, capacity).Sediment
         == sediment + ErosionAmount(heightDelta, sediment, capacity, cfg.ErosionSpeed)
  {
    ErodeTapsGainUnblocked(cfg, h, idx, w, ErosionAmount(heightDelta, sediment, capacity, cfg.ErosionSpeed), sediment, |idx|);
    assert w[..|idx|] == w;
  }

  // ---------------------------------------------------------------- blur

  /** One tap of the 3x3 window: a neighbour off the grid counts as the centre vertex itself. */
  function BlurTap(h: seq<Vector>, i: int, x: int, y: int): real
    requires |h| == VertexCount && 0 <= i < |h|
  {
    if x < 0 || x > ErosionMapSize - 1 || y < 0 || y > ErosionMapSize - 1 then h[i].Z
    else
      RowMajorInRange(x, y, ErosionMapSize);
      h[x + y * ErosionMapSize].Z
  }

  /** Sum of the taps of row y, columns cx - 1 up to x - 1. */
  function BlurRow(h: seq<Vector>, i: int, cx: int, y: int, x: int): real
    requires |h| == VertexCount && 0 <= i < |h|
    decreases x - (cx - 1)
  {
    if x <= cx - 1 then 0.0 else BlurRow(h, i, cx, y, x - 1) + BlurTap(h, i, x - 1, y)
  }

  /** Sum of the full rows cy - 1 up to y - 1. */
  function BlurWindow(h: seq<Vector>, i: int, cx: int, cy: int, y: int): real
    requires |h| == VertexCount && 0 <= i < |h|
    decreases y - (cy - 1)
  {
    if y <= cy - 1 then 0.0 else BlurWindow(h, i, cx, cy, y - 1) + BlurRow(h, i, cx, y - 1, cx + 2)
  }

  function BlurredZ(h: seq<Vector>, i: int): real
    requires |h| == VertexCount && 0 <= i < |h|
  {
    BlurWindow(h, i, i % ErosionMapSize, i / ErosionMapSize, i / ErosionMapSize + 2) / 9.0
  }

  /** GaussianBlur: every Z becomes the mean of its 3x3 window, all read from the map as it was before. */
  function Blurred(h: seq<Vector>): seq<Vector>
    requires |h| == VertexCount
  {
    seq(|h|, i requires 0 <= i < |h| => h[i].(Z := BlurredZ(h, i)))
  }

  /** The mean of the nine taps around vertex i, written out. */
  function WindowMean(h: seq<Vector>, i: int): real
    requires |h| == VertexCount && 0 <= i < |h|
  {
    var x, y := i % ErosionMapSize, i / ErosionMapSize;
    (BlurTap(h, i, x - 1, y - 1) + BlurTap(h, i, x, y - 1) + BlurTap(h, i, x + 1, y - 1)
     + BlurTap(h, i, x - 1, y) + BlurTap(h, i, x, y) + BlurTap(h, i, x + 1, y)
     + BlurTap(h, i, x - 1, y + 1) + BlurTap(h, i, x, y + 1) + BlurTap(h, i, x + 1, y + 1)) / 9.0
  }

  /** The loops of the filter visit exactly the nine taps of the window. */
  lemma BlurredIsWindowMean(h: seq<Vector>, i: int)
    requires |h| == VertexCount && 0 <= i < |h|
    ensures BlurredZ(h, i) == WindowMean(h, i)
  {
    var x, y := i % ErosionMapSize, i / ErosionMapSize;
    BlurRowOfThree(h, i, x, y - 1);
    BlurRowOfThree(h, i, x, y);
    BlurRowOfThree(h, i, x, y + 1);
    assert BlurWindow(h, i, x, y, y - 1) == 0.0;
    assert BlurWindow(h, i, x, y, y) == BlurRow(h, i, x, y - 1, x + 2);
    assert BlurWindow(h, i, x, y, y + 1) == BlurRow(h, i, x, y - 1, x + 2) + BlurRow(h, i, x, y, x + 2);
  }

  lemma BlurRowOfThree(h: seq<Vector>, i: int, x: int, y: int)
    requires |h| == VertexCount && 0 <= i < |h|
    ensures BlurRow(h, i, x, y, x + 2) == BlurTap(h, i, x - 1, y) + BlurTap(h, i, x, y) + BlurTap(h, i, x + 1, y)
  {
    assert BlurRow(h, i, x, y, x - 1) == 0.0;
    assert BlurRow(h, i, x, y, x) == BlurTap(h, i, x - 1, y);
    assert BlurRow(h, i, x, y, x + 1) == BlurTap(h, i, x - 1, y) + BlurTap(h, i, x, y);
  }

  /** Away from the edges the blurred height is the plain mean of the vertex and its eight neighbours. */
  lemma BlurInterior(h: seq<Vector>, i: int)
    requires |h| == VertexCount && 0 <= i < |h|
    requires 1 <= i % ErosionMapSize <= ErosionMapSize - 2 && 1 <= i / ErosionMapSize <= ErosionMapSize - 2
    ensures Blurred(h)[i].Z ==
      (h[i - ErosionMapSize - 1].Z + h[i - ErosionMapSize].Z + h[i - ErosionMapSize + 1].Z
       + h[i - 1].Z + h[i].Z + h[i + 1].Z
       + h[i + ErosionMapSize - 1].Z + h[i + ErosionMapSize].Z + h[i + ErosionMapSize + 1].Z) / 9.0
  {
    BlurredIsWindowMean(h, i);
    IndexCoordinates(i, ErosionMapSize);
  }

  /** The blur keeps every height within the bounds of the map it reads, and keeps X and Y. */
  lemma BlurStaysInRange(h: seq<Vector>, lo: real, hi: real)
    requires |h| == VertexCount
    requires forall k :: 0 <= k < |h| ==> lo <= h[k].Z <= hi
    ensures SameFootprint(h, Blurred(h))
    ensures forall i :: 0 <= i < |h| ==> lo <= Blurred(h)[i].Z <= hi
  {
    forall i | 0 <= i < |h| ensures lo <= Blurred(h)[i].Z <= hi {
      BlurredIsWindowMean(h, i);
    }
  }

  /** A map of constant height is a fixed point of the blur. */
  lemma BlurOfFlat(h: seq<Vector>, z: real)
    requires |h| == VertexCount
    requires forall k :: 0 <= k < |h| ==> h[k].Z == z
    ensures Blurred(h) == h
  {
    forall i | 0 <= i < |h| ensures Blurred(h)[i] == h[i] {
      BlurredIsWindowMean(h, i);
    }
  }
}
