/**
 * One droplet of SimulateErosion as functions on values: a step (inertia-weighted descent, the
 * break test, then a deposit or an erosion), a droplet's run of at most DropletLifetime steps,
 * the run of all droplets in spawn order, and the final optional blur.
 */
module Droplet {
  import opened Grid
  import opened ErosionSettings
  import opened ErosionSampler
  import opened ErosionKernel
  import opened ErosionOperators

  /** The settings and square root the simulation needs: a positive radius (it divides the falloff) and sqrt(0) = 0. */
  predicate Runnable(cfg: Settings, sqrt: real -> real) {
    cfg.ErosionRadius > 0 && sqrt(0.0) == 0.0
  }

  /** The position has left the chunk or entered its border band. */
  predicate OutsideChunk(cfg: Settings, px: real, py: real) {
    var b := cfg.BorderSize;
    px < b as real || px > (ErosionMapSize - (b + 1)) as real
    || py < b as real || py > (ErosionMapSize - (b + 1)) as real
  }

  /**
   * The break test of the droplet loop as written, negated: the droplet goes on unless its
   * direction vanished or, with boundary blocking on, it left the chunk; `&&` binds tighter than `||`.
   */
  predicate PassesChunkCheck(cfg: Settings, dx: real, dy: real, px: real, py: real) {
    !((dx == 0.0 && dy == 0.0) || (OutsideChunk(cfg, px, py) && cfg.BlockBoundaryErosion))
  }

  /** The guard the model uses: the source's test, and the new position must be one the sampler can read. */
  predicate KeepsFlowing(cfg: Settings, dx: real, dy: real, px: real, py: real) {
    PassesChunkCheck(cfg, dx, dy, px, py) && Sampleable(px, py)
  }

  function SedimentCapacity(cfg: Settings, heightDelta: real, speed: real, water: real): real {
    Max(-heightDelta, cfg.MinSedimentCapacity) * speed * water * cfg.SedimentCapacityFactor
  }

  /** The speed after a pass: proportional to the drop, never negative. */
  function FlowSpeed(cfg: Settings, heightDelta: real): real {
    Max(-heightDelta * cfg.BaseWaterSpeed, 0.0)
  }

  /** The water left after a pass evaporates its share. */
  function Evaporated(cfg: Settings, water: real): real {
    water * (1.0 - cfg.EvaporationSpeed)
  }

  /** Direction and position after the descent of one step. */
  datatype Heading = Heading(DirectionX: real, DirectionY: real, PositionX: real, PositionY: real)

  /**
   * The new direction blends the old one with the downhill gradient by Inertia, is divided by its
   * length (at least 0.01), and the droplet moves one unit along it.
   */
  function Descend(cfg: Settings, sqrt: real -> real, g: GradientAndHeight, d: DropletState): Heading {
    var dx := d.DirectionX * cfg.Inertia - g.GradientX * (1.0 - cfg.Inertia);
    var dy := d.DirectionY * cfg.Inertia - g.GradientY * (1.0 - cfg.Inertia);
    var len := Max(0.01, sqrt(dx * dx + dy * dy));
    Heading(dx / len, dy / len, d.PositionX + dx / len, d.PositionY + dy / len)
  }

  /** The height exchange of one step at cell c: a deposit when over capacity or uphill, an erosion otherwise. */
  function Transfer(cfg: Settings, sqrt: real -> real, h: seq<Vector>, c: int, heightDelta: real, sediment: real, capacity: real): (e: Exchange)
    requires Runnable(cfg, sqrt) && |h| == VertexCount && 0 <= c && c + 1 + ErosionMapSize < VertexCount
    ensures |e.Heights| == |h|
  {
    if sediment > capacity || heightDelta > 0.0 then
      Deposited(h, c, heightDelta, sediment, capacity, cfg.DepositionSpeed)
    else
      Eroded(cfg, h, KernelIndices(cfg, sqrt, c), KernelWeights(cfg, sqrt, c), heightDelta, sediment, capacity)
  }

  /** What one pass of the inner loop leaves: the droplet broke off, or the new map and droplet. */
  datatype StepResult = Stopped | Moved(Heights: seq<Vector>, Droplet: DropletState)

  /** One pass of the inner loop of SimulateErosion. */
  function Step(cfg: Settings, sqrt: real -> real, h: seq<Vector>, d: DropletState): (r: StepResult)
    requires Runnable(cfg, sqrt) && |h| == VertexCount && Sampleable(d.PositionX, d.PositionY)
    ensures r.Moved? ==> |r.Heights| == VertexCount && Sampleable(r.Droplet.PositionX, r.Droplet.PositionY)
  {
    var g := CalculateGradientAndHeight(h, d.PositionX, d.PositionY);
    Advance(cfg, sqrt, h, d, g, Descend(cfg, sqrt, g, d))
  }

  /** The rest of a pass once the new heading m is known: the break test, then the flow on to m. */
  function Advance(cfg: Settings, sqrt: real -> real, h: seq<Vector>, d: DropletState, g: GradientAndHeight, m: Heading): (r: StepResult)
    requires Runnable(cfg, sqrt) && |h| == VertexCount && Sampleable(d.PositionX, d.PositionY)
    ensures r.Moved? ==> |r.Heights| == VertexCount && Sampleable(r.Droplet.PositionX, r.Droplet.PositionY)
  {
    if !KeepsFlowing(cfg, m.DirectionX, m.DirectionY, m.PositionX, m.PositionY) then Stopped
    else Flow(cfg, sqrt, h, d, m, CalculateGradientAndHeight(h, m.PositionX, m.PositionY).Height - g.Height)
  }

  /**
   * A pass that did not break off, given the height difference between the new and the old position:
   * the exchange at the cell the droplet left, then the droplet at m with its new speed, water and sediment.
   */
  function Flow(cfg: Settings, sqrt: real -> real, h: seq<Vector>, d: DropletState, m: Heading, heightDelta: real): (r: StepResult)
    requires Runnable(cfg, sqrt) && |h| == VertexCount && Sampleable(d.PositionX, d.PositionY)
    requires Sampleable(m.PositionX, m.PositionY)
    ensures r.Moved? && |r.Heights| == VertexCount && Sampleable(r.Droplet.PositionX, r.Droplet.PositionY)
  {
    var capacity := SedimentCapacity(cfg, heightDelta, d.Speed, d.Water);
    CellCornersInGrid(d.PositionX, d.PositionY);
    var e := Transfer(cfg, sqrt, h, CellIndex(d.PositionX, d.PositionY), heightDelta, d.Sediment, capacity);
    Moved(e.Heights, DropletState(m.PositionX, m.PositionY, m.DirectionX, m.DirectionY,
      FlowSpeed(cfg, heightDelta), Evaporated(cfg, d.Water), e.Sediment))
  }

  /** Advance past the break test is Flow with the height difference it computes. */
  lemma AdvanceFlows(cfg: Settings, sqrt: real -> real, h: seq<Vector>, d: DropletState, g: GradientAndHeight, m: Heading, heightDelta: real)
    requires Runnable(cfg, sqrt) && |h| == VertexCount && Sampleable(d.PositionX, d.PositionY)
    requires KeepsFlowing(cfg, m.DirectionX, m.DirectionY, m.PositionX, m.PositionY)
    requires heightDelta == CalculateGradientAndHeight(h, m.PositionX, m.PositionY).Height - g.Height
    ensures Advance(cfg, sqrt, h, d, g, m) == Flow(cfg, sqrt, h, d, m, heightDelta)
  {
  }

  /** Flow yields the exchanged map and the droplet built from the exchange's sediment. */
  lemma FlowYields(cfg: Settings, sqrt: real -> real, h: seq<Vector>, d: DropletState, m: Heading, heightDelta: real,
                   e: Exchange, next: DropletState)
    requires Runnable(cfg, sqrt) && |h| == VertexCount && Sampleable(d.PositionX, d.PositionY)
    requires Sampleable(m.PositionX, m.PositionY)
    requires 0 <= CellIndex(d.PositionX, d.PositionY)
    requires CellIndex(d.PositionX, d.PositionY) + 1 + ErosionMapSize < VertexCount
    requires e == Transfer(cfg, sqrt, h, CellIndex(d.PositionX, d.PositionY), heightDelta, d.Sediment,
                           SedimentCapacity(cfg, heightDelta, d.Speed, d.Water))
    requires next == DropletState(m.PositionX, m.PositionY, m.DirectionX, m.DirectionY,
      FlowSpeed(cfg, heightDelta), Evaporated(cfg, d.Water), e.Sediment)
    ensures Flow(cfg, sqrt, h, d, m, heightDelta) == Moved(e.Heights, next)
  {
  }

  /** The exchange writes only Z. */
  lemma TransferKeepsFootprint(cfg: Settings, sqrt: real -> real, h: seq<Vector>, c: int, heightDelta: real, sediment: real, capacity: real)
    requires Runnable(cfg, sqrt) && |h| == VertexCount && 0 <= c && c + 1 + ErosionMapSize < VertexCount
    ensures SameFootprint(h, Transfer(cfg, sqrt, h, c, heightDelta, sediment, capacity).Heights)
  {
    KernelIndicesInGrid(cfg, sqrt, c);
    KernelWeightsNormalised(cfg, sqrt, c);
    if sediment > capacity || heightDelta > 0.0 {
      DepositedTouchesOnlyCorners(h, c, heightDelta, sediment, capacity, cfg.DepositionSpeed);
    } else {
      var idx, w := KernelIndices(cfg, sqrt, c), KernelWeights(cfg, sqrt, c);
      ErodeTapsTouchesOnlyKernel(cfg, h, idx, w, ErosionAmount(heightDelta, sediment, capacity, cfg.ErosionSpeed), sediment, |idx|);
    }
  }

  /** The exchange moves height between the map and the droplet and creates none. */
  lemma TransferConservesMass(cfg: Settings, sqrt: real -> real, h: seq<Vector>, c: int, heightDelta: real, sediment: real, capacity: real)
    requires Runnable(cfg, sqrt) && |h| == VertexCount && 0 <= c && c + 1 + ErosionMapSize < VertexCount
    ensures var e := Transfer(cfg, sqrt, h, c, heightDelta, sediment, capacity);
      SumZ(e.Heights) + e.Sediment == SumZ(h) + sediment
  {
    KernelIndicesInGrid(cfg, sqrt, c);
    KernelWeightsNormalised(cfg, sqrt, c);
    if sediment > capacity || heightDelta > 0.0 {
      DepositedConservesMass(h, c, heightDelta, sediment, capacity, cfg.DepositionSpeed);
    } else {
      var idx, w := KernelIndices(cfg, sqrt, c), KernelWeights(cfg, sqrt, c);
      ErodeTapsConservesMass(cfg, h, idx, w, ErosionAmount(heightDelta, sediment, capacity, cfg.ErosionSpeed), sediment, |idx|);
    }
  }

  /** With settings in their clamp ranges and a non-negative capacity, the carried sediment stays non-negative. */
  lemma TransferKeepsSedimentNonnegative(cfg: Settings, sqrt: real -> real, h: seq<Vector>, c: int, heightDelta: real, sediment: real, capacity: real)
    requires Runnable(cfg, sqrt) && |h| == VertexCount && 0 <= c && c + 1 + ErosionMapSize < VertexCount
    requires cfg.WithinClampRanges() && sediment >= 0.0 && capacity >= 0.0
    ensures Transfer(cfg, sqrt, h, c, heightDelta, sediment, capacity).Sediment >= 0.0
  {
    KernelIndicesInGrid(cfg, sqrt, c);
    KernelWeightsNormalised(cfg, sqrt, c);
    if sediment > capacity || heightDelta > 0.0 {
      DepositAmountBounds(heightDelta, sediment, capacity, cfg.DepositionSpeed);
    } else {
      var idx, w := KernelIndices(cfg, sqrt, c), KernelWeights(cfg, sqrt, c);
      var amount := ErosionAmount(heightDelta, sediment, capacity, cfg.ErosionSpeed);
      ErosionAmountBounds(heightDelta, sediment, capacity, cfg.ErosionSpeed);
      ErodeTapsGainBounds(cfg, h, idx, w, amount, sediment, |idx|);
    }
  }

  /** The droplet's run: at most fuel steps, ending early when a step breaks off. */
  datatype Flight = Flight(Heights: seq<Vector>, Droplet: DropletState, Steps: nat)

  /** A pass of the inner loop as a value: what it makes of a map and a droplet. */
  type Stepper = (seq<Vector>, DropletState) -> StepResult

  /** At most fuel passes of a stepper, ending early when a pass breaks off. */
  function Iterate(step: Stepper, h: seq<Vector>, d: DropletState, fuel: nat): Flight
    decreases fuel
  {
    if fuel == 0 then Flight(h, d, 0)
    else
      match step(h, d)
      case Stopped => Flight(h, d, 0)
      case Moved(h', d') =>
        var f := Iterate(step, h', d', fuel - 1);
        Flight(f.Heights, f.Droplet, f.Steps + 1)
  }

  /** A run whose first pass moves is that pass followed by a run with one pass fewer. */
  lemma IterateAfterMove(step: Stepper, h: seq<Vector>, d: DropletState, fuel: nat, h': seq<Vector>, d': DropletState, fuel': nat)
    requires fuel > 0 && fuel' == fuel - 1 && step(h, d) == Moved(h', d')
    ensures var f := Iterate(step, h', d', fuel');
      Iterate(step, h, d, fuel) == Flight(f.Heights, f.Droplet, f.Steps + 1)
  {
  }

  /** inv holds of what every moving pass leaves, whenever it held before. */
  ghost predicate Preserves(step: Stepper, inv: (seq<Vector>, DropletState) -> bool) {
    forall h, d :: inv(h, d) && step(h, d).Moved? ==> inv(step(h, d).Heights, step(h, d).Droplet)
  }

  lemma {:induction false} IteratePreserves(step: Stepper, inv: (seq<Vector>, DropletState) -> bool, h: seq<Vector>, d: DropletState, fuel: nat)
    requires Preserves(step, inv) && inv(h, d)
    ensures inv(Iterate(step, h, d, fuel).Heights, Iterate(step, h, d, fuel).Droplet)
    decreases fuel
  {
    if fuel > 0 && step(h, d).Moved? {
      IteratePreserves(step, inv, step(h, d).Heights, step(h, d).Droplet, fuel - 1);
    }
  }

  lemma {:induction false} IterateStepsBounded(step: Stepper, h: seq<Vector>, d: DropletState, fuel: nat)
    ensures Iterate(step, h, d, fuel).Steps <= fuel
    decreases fuel
  {
    if fuel > 0 && step(h, d).Moved? {
      IterateStepsBounded(step, step(h, d).Heights, step(h, d).Droplet, fuel - 1);
    }
  }

  /** Step, breaking off for a map of the wrong size or a position the sampler cannot read. */
  function StepOf(cfg: Settings, sqrt: real -> real): Stepper
    requires Runnable(cfg, sqrt)
  {
    (h: seq<Vector>, d: DropletState) =>
      if |h| == VertexCount && Sampleable(d.PositionX, d.PositionY) then Step(cfg, sqrt, h, d) else Stopped
  }

  /** The map keeps its size and the droplet a position the sampler can read. */
  ghost predicate InGrid(h: seq<Vector>, d: DropletState) {
    |h| == VertexCount && Sampleable(d.PositionX, d.PositionY)
  }

  lemma StepsStayInGrid(cfg: Settings, sqrt: real -> real)
    requires Runnable(cfg, sqrt)
    ensures Preserves(StepOf(cfg, sqrt), InGrid)
  {
  }

  function Run(cfg: Settings, sqrt: real -> real, h: seq<Vector>, d: DropletState, fuel: nat): Flight
    requires Runnable(cfg, sqrt) && |h| == VertexCount && Sampleable(d.PositionX, d.PositionY)
  {
    Iterate(StepOf(cfg, sqrt), h, d, fuel)
  }

  /** A run keeps the size of the map and leaves the droplet where the sampler can read. */
  lemma RunStaysInGrid(cfg: Settings, sqrt: real -> real, h: seq<Vector>, d: DropletState, fuel: nat)
    requires Runnable(cfg, sqrt) && |h| == VertexCount && Sampleable(d.PositionX, d.PositionY)
    ensures var f := Run(cfg, sqrt, h, d, fuel); |f.Heights| == VertexCount && Sampleable(f.Droplet.PositionX, f.Droplet.PositionY)
  {
    StepsStayInGrid(cfg, sqrt);
    IteratePreserves(StepOf(cfg, sqrt), InGrid, h, d, fuel);
  }

  /** A run whose first pass moves goes on from the moved state with one pass less. */
  lemma RunAfterMove(cfg: Settings, sqrt: real -> real, h: seq<Vector>, d: DropletState, fuel: nat,
                     h': seq<Vector>, d': DropletState, fuel': nat)
    requires Runnable(cfg, sqrt) && |h| == VertexCount && Sampleable(d.PositionX, d.PositionY)
    requires fuel > 0 && fuel' == fuel - 1 && Step(cfg, sqrt, h, d) == Moved(h', d')
    ensures |h'| == VertexCount && Sampleable(d'.PositionX, d'.PositionY)
    ensures var f := Run(cfg, sqrt, h', d', fuel');
      Run(cfg, sqrt, h, d, fuel) == Flight(f.Heights, f.Droplet, f.Steps + 1)
  {
    assert StepOf(cfg, sqrt)(h, d) == Moved(h', d');
    IterateAfterMove(StepOf(cfg, sqrt), h, d, fuel, h', d', fuel');
  }

  lemma RunAfterStop(cfg: Settings, sqrt: real -> real, h: seq<Vector>, d: DropletState, fuel: nat)
    requires Runnable(cfg, sqrt) && |h| == VertexCount && Sampleable(d.PositionX, d.PositionY)
    requires Step(cfg, sqrt, h, d).Stopped?
    ensures Run(cfg, sqrt, h, d, fuel) == Flight(h, d, 0)
  {
  }

  /** A run without passes left leaves map and droplet as they were. */
  lemma RunOutOfFuel(cfg: Settings, sqrt: real -> real, h: seq<Vector>, d: DropletState)
    requires Runnable(cfg, sqrt) && |h| == VertexCount && Sampleable(d.PositionX, d.PositionY)
    ensures Run(cfg, sqrt, h, d, 0) == Flight(h, d, 0)
  {
  }

  /**
   * The droplet loop after done passes: the run of the whole lifetime, flight, is what is left of
   * the run from (h, d) with fuel passes, done passes later.
   */
  ghost predicate RunContinues(cfg: Settings, sqrt: real -> real, flight: Flight, h: seq<Vector>, d: DropletState, fuel: nat, done: nat)
    requires Runnable(cfg, sqrt) && |h| == VertexCount && Sampleable(d.PositionX, d.PositionY)
  {
    var f := Run(cfg, sqrt, h, d, fuel);
    flight == Flight(f.Heights, f.Droplet, f.Steps + done)
  }

  lemma ContinuesAtStart(cfg: Settings, sqrt: real -> real, h: seq<Vector>, d: DropletState, fuel: nat)
    requires Runnable(cfg, sqrt) && |h| == VertexCount && Sampleable(d.PositionX, d.PositionY)
    ensures RunContinues(cfg, sqrt, Run(cfg, sqrt, h, d, fuel), h, d, fuel, 0)
  {
  }

  lemma ContinuesAfterMove(cfg: Settings, sqrt: real -> real, flight: Flight, h: seq<Vector>, d: DropletState, fuel: nat, done: nat,
                           h': seq<Vector>, d': DropletState, fuel': nat, done': nat)
    requires Runnable(cfg, sqrt) && |h| == VertexCount && Sampleable(d.PositionX, d.PositionY)
    requires RunContinues(cfg, sqrt, flight, h, d, fuel, done)
    requires fuel > 0 && Step(cfg, sqrt, h, d) == Moved(h', d') && fuel' == fuel - 1 && done' == done + 1
    ensures |h'| == VertexCount && Sampleable(d'.PositionX, d'.PositionY)
    ensures RunContinues(cfg, sqrt, flight, h', d', fuel', done')
  {
    RunAfterMove(cfg, sqrt, h, d, fuel, h', d', fuel');
  }

  lemma ContinuesAfterStop(cfg: Settings, sqrt: real -> real, flight: Flight, h: seq<Vector>, d: DropletState, fuel: nat, done: nat)
    requires Runnable(cfg, sqrt) && |h| == VertexCount && Sampleable(d.PositionX, d.PositionY)
    requires RunContinues(cfg, sqrt, flight, h, d, fuel, done) && Step(cfg, sqrt, h, d) == Stopped
    ensures flight == Flight(h, d, done)
  {
    RunAfterStop(cfg, sqrt, h, d, fuel);
  }

  lemma ContinuesOutOfFuel(cfg: Settings, sqrt: real -> real, flight: Flight, h: seq<Vector>, d: DropletState, done: nat)
    requires Runnable(cfg, sqrt) && |h| == VertexCount && Sampleable(d.PositionX, d.PositionY)
    requires RunContinues(cfg, sqrt, flight, h, d, 0, done)
    ensures flight == Flight(h, d, done)
  {
    RunOutOfFuel(cfg, sqrt, h, d);
  }

  /** The number of passes the inner loop may make. */
  function Lifetime(cfg: Settings): nat {
    if cfg.DropletLifetime > 0 then cfg.DropletLifetime else 0
  }

  /** One iteration of the outer loop: a droplet spawned at p runs its lifetime. */
  function RunDroplet(cfg: Settings, sqrt: real -> real, h: seq<Vector>, p: SpawnPoint): Flight
    requires Runnable(cfg, sqrt) && |h| == VertexCount && SpawnInRange(cfg, p)
  {
    Run(cfg, sqrt, h, Spawn(cfg, p), Lifetime(cfg))
  }

  ghost predicate AllInRange(cfg: Settings, spawns: seq<SpawnPoint>) {
    forall j :: 0 <= j < |spawns| ==> SpawnInRange(cfg, spawns[j])
  }

  /** The droplets run one after another on the same map, in spawn order. */
  function RunAll(cfg: Settings, sqrt: real -> real, h: seq<Vector>, spawns: seq<SpawnPoint>): (r: seq<Vector>)
    requires Runnable(cfg, sqrt) && |h| == VertexCount && AllInRange(cfg, spawns)
    ensures |r| == VertexCount
    decreases |spawns|
  {
    if |spawns| == 0 then h
    else
      var n := |spawns| - 1;
      var before := RunAll(cfg, sqrt, h, spawns[..n]);
      RunStaysInGrid(cfg, sqrt, before, Spawn(cfg, spawns[n]), Lifetime(cfg));
      RunDroplet(cfg, sqrt, before, spawns[n]).Heights
  }

  /** One more droplet: the spawns up to i + 1 run on what the spawns up to i left. */
  lemma RunAllNext(cfg: Settings, sqrt: real -> real, h: seq<Vector>, spawns: seq<SpawnPoint>, i: int)
    requires Runnable(cfg, sqrt) && |h| == VertexCount && AllInRange(cfg, spawns) && 0 <= i < |spawns|
    ensures RunAll(cfg, sqrt, h, spawns[..i + 1]) == RunDroplet(cfg, sqrt, RunAll(cfg, sqrt, h, spawns[..i]), spawns[i]).Heights
  {
    assert spawns[..i + 1][..i] == spawns[..i];
  }

  /** SimulateErosion: all droplets, then the blur when ApplyBlur is set. */
  function Simulated(cfg: Settings, sqrt: real -> real, h: seq<Vector>, spawns: seq<SpawnPoint>): seq<Vector>
    requires Runnable(cfg, sqrt) && |h| == VertexCount && AllInRange(cfg, spawns)
  {
    var eroded := RunAll(cfg, sqrt, h, spawns);
    if cfg.ApplyBlur then Blurred(eroded) else eroded
  }

  // ---------------------------------------------------------------- the break test

  /**
   * With boundary blocking on and a border of at least one vertex, every position the source's test
   * lets through can be sampled, so the added sampleability requirement changes nothing.
   */
  lemma GuardAgreesWithSourceWhenBlocking(cfg: Settings, dx: real, dy: real, px: real, py: real)
    requires cfg.BlockBoundaryErosion && cfg.BorderSize >= 1
    ensures KeepsFlowing(cfg, dx, dy, px, py) <==> PassesChunkCheck(cfg, dx, dy, px, py)
  {
  }

  /**
   * As written, with boundary blocking off a droplet moving to (100, 258.5) passes the test, yet the
   * south corners of its cell lie past the end of the height map.
   */
  lemma ChunkCheckAdmitsEdgePosition(cfg: Settings)
    requires !cfg.BlockBoundaryErosion
    ensures PassesChunkCheck(cfg, 0.0, 1.0, 100.0, 258.5)
    ensures CellIndex(100.0, 258.5) + ErosionMapSize >= VertexCount
  {
    assert (258.5).Floor == 258;
    assert (100.0).Floor == 100;
  }

  /**
   * As written, with boundary blocking off a droplet moving to (258.5, 100) on the last column passes the
   * test. Its reads stay inside the map, but the east corners are column 0 of the next row. The model's
   * guard stops the droplet there.
   */
  lemma ChunkCheckWrapsAtLastColumn(cfg: Settings)
    requires !cfg.BlockBoundaryErosion
    ensures PassesChunkCheck(cfg, 1.0, 0.0, 258.5, 100.0)
    ensures CellIndex(258.5, 100.0) + 1 + ErosionMapSize < VertexCount
    ensures (CellIndex(258.5, 100.0) + 1) % ErosionMapSize == 0
    ensures !KeepsFlowing(cfg, 1.0, 0.0, 258.5, 100.0)
  {
    assert (258.5).Floor == 258;
    assert (100.0).Floor == 100;
  }

  /** With blocking on but a border of 0, the position 258 on the last row also passes and reads past the end. */
  lemma ChunkCheckAdmitsLastRowWithoutBorder(cfg: Settings)
    requires cfg.BlockBoundaryErosion && cfg.BorderSize == 0
    ensures PassesChunkCheck(cfg, 0.0, 1.0, 100.0, 258.0)
    ensures CellIndex(100.0, 258.0) + ErosionMapSize >= VertexCount
  {
    assert (258.0).Floor == 258;
    assert (100.0).Floor == 100;
  }

  // ---------------------------------------------------------------- droplet bounds

  /** The settings within their clamp ranges and a non-negative base speed. */
  predicate Plausible(cfg: Settings, sqrt: real -> real) {
    Runnable(cfg, sqrt) && cfg.WithinClampRanges() && cfg.BaseWaterSpeed >= 0.0
  }

  /** Speed is non-negative, water in [0, 1], sediment non-negative. */
  predicate Physical(d: DropletState) {
    d.Speed >= 0.0 && 0.0 <= d.Water <= 1.0 && d.Sediment >= 0.0
  }

  lemma SpawnIsPhysical(cfg: Settings, p: SpawnPoint)
    requires cfg.BaseWaterSpeed >= 0.0
    ensures Physical(Spawn(cfg, p))
  {
  }

  /** With non-negative speed, water and settings the capacity is non-negative. */
  lemma CapacityNonnegative(cfg: Settings, heightDelta: real, speed: real, water: real)
    requires cfg.WithinClampRanges() && speed >= 0.0 && water >= 0.0
    ensures SedimentCapacity(cfg, heightDelta, speed, water) >= 0.0
  {
    var m := Max(-heightDelta, cfg.MinSedimentCapacity);
    NonnegativeScaled(m, speed);
    NonnegativeScaled(m * speed, water);
    NonnegativeScaled(m * speed * water, cfg.SedimentCapacityFactor);
  }

  /** Water only evaporates: it stays in [0, 1]. */
  lemma EvaporationKeepsWaterInRange(water: real, evaporationSpeed: real)
    requires 0.0 <= water <= 1.0 && 0.0 <= evaporationSpeed <= 1.0
    ensures 0.0 <= water * (1.0 - evaporationSpeed) <= water
  {
    var keep := 1.0 - evaporationSpeed;
    assert water - water * keep == water * evaporationSpeed;
    NonnegativeScaled(water, evaporationSpeed);
    NonnegativeScaled(water, keep);
  }

  /** A step keeps speed non-negative, water in [0, 1] and sediment non-negative, through either branch. */
  lemma StepKeepsPhysical(cfg: Settings, sqrt: real -> real, h: seq<Vector>, d: DropletState)
    requires Plausible(cfg, sqrt) && |h| == VertexCount && Sampleable(d.PositionX, d.PositionY) && Physical(d)
    ensures Step(cfg, sqrt, h, d).Moved? ==> Physical(Step(cfg, sqrt, h, d).Droplet)
  {
    var g := CalculateGradientAndHeight(h, d.PositionX, d.PositionY);
    AdvanceKeepsPhysical(cfg, sqrt, h, d, g, Descend(cfg, sqrt, g, d));
  }

  lemma AdvanceKeepsPhysical(cfg: Settings, sqrt: real -> real, h: seq<Vector>, d: DropletState, g: GradientAndHeight, m: Heading)
    requires Plausible(cfg, sqrt) && |h| == VertexCount && Sampleable(d.PositionX, d.PositionY) && Physical(d)
    ensures Advance(cfg, sqrt, h, d, g, m).Moved? ==> Physical(Advance(cfg, sqrt, h, d, g, m).Droplet)
  {
    if KeepsFlowing(cfg, m.DirectionX, m.DirectionY, m.PositionX, m.PositionY) {
      FlowKeepsPhysical(cfg, sqrt, h, d, m, CalculateGradientAndHeight(h, m.PositionX, m.PositionY).Height - g.Height);
    }
  }

  lemma FlowKeepsPhysical(cfg: Settings, sqrt: real -> real, h: seq<Vector>, d: DropletState, m: Heading, heightDelta: real)
    requires Plausible(cfg, sqrt) && |h| == VertexCount && Sampleable(d.PositionX, d.PositionY) && Physical(d)
    requires Sampleable(m.PositionX, m.PositionY)
    ensures Physical(Flow(cfg, sqrt, h, d, m, heightDelta).Droplet)
  {
    var capacity := SedimentCapacity(cfg, heightDelta, d.Speed, d.Water);
    CellCornersInGrid(d.PositionX, d.PositionY);
    CapacityNonnegative(cfg, heightDelta, d.Speed, d.Water);
    EvaporationKeepsWaterInRange(d.Water, cfg.EvaporationSpeed);
    TransferKeepsSedimentNonnegative(cfg, sqrt, h, CellIndex(d.PositionX, d.PositionY), heightDelta, d.Sediment, capacity);
  }

  // ---------------------------------------------------------------- mass

  /** A step only moves height between the map and the droplet: SumZ plus the carried sediment stays the same. */
  lemma StepConservesMass(cfg: Settings, sqrt: real -> real, h: seq<Vector>, d: DropletState)
    requires Runnable(cfg, sqrt) && |h| == VertexCount && Sampleable(d.PositionX, d.PositionY)
    ensures var r := Step(cfg, sqrt, h, d);
      r.Moved? ==> SumZ(r.Heights) + r.Droplet.Sediment == SumZ(h) + d.Sediment
  {
    var g := CalculateGradientAndHeight(h, d.PositionX, d.PositionY);
    var m := Descend(cfg, sqrt, g, d);
    if KeepsFlowing(cfg, m.DirectionX, m.DirectionY, m.PositionX, m.PositionY) {
      FlowConservesMass(cfg, sqrt, h, d, m, CalculateGradientAndHeight(h, m.PositionX, m.PositionY).Height - g.Height);
    }
  }

  lemma FlowConservesMass(cfg: Settings, sqrt: real -> real, h: seq<Vector>, d: DropletState, m: Heading, heightDelta: real)
    requires Runnable(cfg, sqrt) && |h| == VertexCount && Sampleable(d.PositionX, d.PositionY)
    requires Sampleable(m.PositionX, m.PositionY)
    ensures var r := Flow(cfg, sqrt, h, d, m, heightDelta); SumZ(r.Heights) + r.Droplet.Sediment == SumZ(h) + d.Sediment
  {
    CellCornersInGrid(d.PositionX, d.PositionY);
    TransferConservesMass(cfg, sqrt, h, CellIndex(d.PositionX, d.PositionY), heightDelta, d.Sediment,
                          SedimentCapacity(cfg, heightDelta, d.Speed, d.Water));
  }

  /** Over a whole run the map loses exactly the sediment the droplet still carries at the end. */
  lemma RunConservesMass(cfg: Settings, sqrt: real -> real, h: seq<Vector>, d: DropletState, fuel: nat)
    requires Runnable(cfg, sqrt) && |h| == VertexCount && Sampleable(d.PositionX, d.PositionY)
    ensures var f := Run(cfg, sqrt, h, d, fuel); SumZ(f.Heights) + f.Droplet.Sediment == SumZ(h) + d.Sediment
  {
    var total := SumZ(h) + d.Sediment;
    var inv := (h': seq<Vector>, d': DropletState) => InGrid(h', d') && SumZ(h') + d'.Sediment == total;
    forall h', d' | inv(h', d') && StepOf(cfg, sqrt)(h', d').Moved?
      ensures inv(StepOf(cfg, sqrt)(h', d').Heights, StepOf(cfg, sqrt)(h', d').Droplet)
    {
      StepConservesMass(cfg, sqrt, h', d');
    }
    IteratePreserves(StepOf(cfg, sqrt), inv, h, d, fuel);
  }

  /** A run keeps the droplet physical. */
  lemma RunKeepsPhysical(cfg: Settings, sqrt: real -> real, h: seq<Vector>, d: DropletState, fuel: nat)
    requires Plausible(cfg, sqrt) && |h| == VertexCount && Sampleable(d.PositionX, d.PositionY) && Physical(d)
    ensures Physical(Run(cfg, sqrt, h, d, fuel).Droplet)
  {
    var inv := (h': seq<Vector>, d': DropletState) => InGrid(h', d') && Physical(d');
    forall h', d' | inv(h', d') && StepOf(cfg, sqrt)(h', d').Moved?
      ensures inv(StepOf(cfg, sqrt)(h', d').Heights, StepOf(cfg, sqrt)(h', d').Droplet)
    {
      StepKeepsPhysical(cfg, sqrt, h', d');
    }
    IteratePreserves(StepOf(cfg, sqrt), inv, h, d, fuel);
  }

  /** A run takes at most fuel steps. */
  lemma RunStepsBounded(cfg: Settings, sqrt: real -> real, h: seq<Vector>, d: DropletState, fuel: nat)
    requires Runnable(cfg, sqrt) && |h| == VertexCount && Sampleable(d.PositionX, d.PositionY)
    ensures Run(cfg, sqrt, h, d, fuel).Steps <= fuel
  {
    IterateStepsBounded(StepOf(cfg, sqrt), h, d, fuel);
  }

  /** The passes all droplets make together, each on the map the ones before it left. */
  function TotalSteps(cfg: Settings, sqrt: real -> real, h: seq<Vector>, spawns: seq<SpawnPoint>): nat
    requires Runnable(cfg, sqrt) && |h| == VertexCount && AllInRange(cfg, spawns)
    decreases |spawns|
  {
    if |spawns| == 0 then 0
    else
      var n := |spawns| - 1;
      TotalSteps(cfg, sqrt, h, spawns[..n]) + RunDroplet(cfg, sqrt, RunAll(cfg, sqrt, h, spawns[..n]), spawns[n]).Steps
  }

  /** The whole simulation makes at most one lifetime of passes per droplet. */
  lemma {:induction false} TotalStepsBounded(cfg: Settings, sqrt: real -> real, h: seq<Vector>, spawns: seq<SpawnPoint>)
    requires Runnable(cfg, sqrt) && |h| == VertexCount && AllInRange(cfg, spawns)
    ensures TotalSteps(cfg, sqrt, h, spawns) <= |spawns| * Lifetime(cfg)
    decreases |spawns|
  {
    if |spawns| > 0 {
      var n, life := |spawns| - 1, Lifetime(cfg);
      var before := RunAll(cfg, sqrt, h, spawns[..n]);
      TotalStepsBounded(cfg, sqrt, h, spawns[..n]);
      SpawnIsSampleable(cfg, spawns[n]);
      RunStepsBounded(cfg, sqrt, before, Spawn(cfg, spawns[n]), life);
      assert RunDroplet(cfg, sqrt, before, spawns[n]).Steps <= life;
      assert |spawns[..n]| == n;
      NextRow(n, life);
    }
  }

  /**
   * A droplet never adds height: the map ends lower by exactly the sediment the droplet still carries
   * when it stops, and that sediment is dropped.
   */
  lemma DropletLosesFinalSediment(cfg: Settings, sqrt: real -> real, h: seq<Vector>, p: SpawnPoint)
    requires Plausible(cfg, sqrt) && |h| == VertexCount && SpawnInRange(cfg, p)
    ensures var f := RunDroplet(cfg, sqrt, h, p);
      && SumZ(h) - SumZ(f.Heights) == f.Droplet.Sediment
      && SumZ(f.Heights) <= SumZ(h)
      && f.Steps <= cfg.DropletLifetime
  {
    SpawnIsSampleable(cfg, p);
    SpawnIsPhysical(cfg, p);
    RunConservesMass(cfg, sqrt, h, Spawn(cfg, p), Lifetime(cfg));
    RunKeepsPhysical(cfg, sqrt, h, Spawn(cfg, p), Lifetime(cfg));
    RunStepsBounded(cfg, sqrt, h, Spawn(cfg, p), Lifetime(cfg));
  }

  /** The droplets together never add height to the map. */
  lemma {:induction false} RunAllNeverAddsHeight(cfg: Settings, sqrt: real -> real, h: seq<Vector>, spawns: seq<SpawnPoint>)
    requires Plausible(cfg, sqrt) && |h| == VertexCount && AllInRange(cfg, spawns)
    ensures SumZ(RunAll(cfg, sqrt, h, spawns)) <= SumZ(h)
    decreases |spawns|
  {
    if |spawns| > 0 {
      var n := |spawns| - 1;
      RunAllNeverAddsHeight(cfg, sqrt, h, spawns[..n]);
      DropletLosesFinalSediment(cfg, sqrt, RunAll(cfg, sqrt, h, spawns[..n]), spawns[n]);
    }
  }

  // ---------------------------------------------------------------- footprint

  lemma StepKeepsFootprint(cfg: Settings, sqrt: real -> real, h: seq<Vector>, d: DropletState)
    requires Runnable(cfg, sqrt) && |h| == VertexCount && Sampleable(d.PositionX, d.PositionY)
    ensures var r := Step(cfg, sqrt, h, d); r.Moved? ==> SameFootprint(h, r.Heights)
  {
    var g := CalculateGradientAndHeight(h, d.PositionX, d.PositionY);
    var m := Descend(cfg, sqrt, g, d);
    if KeepsFlowing(cfg, m.DirectionX, m.DirectionY, m.PositionX, m.PositionY) {
      FlowKeepsFootprint(cfg, sqrt, h, d, m, CalculateGradientAndHeight(h, m.PositionX, m.PositionY).Height - g.Height);
    }
  }

  lemma FlowKeepsFootprint(cfg: Settings, sqrt: real -> real, h: seq<Vector>, d: DropletState, m: Heading, heightDelta: real)
    requires Runnable(cfg, sqrt) && |h| == VertexCount && Sampleable(d.PositionX, d.PositionY)
    requires Sampleable(m.PositionX, m.PositionY)
    ensures SameFootprint(h, Flow(cfg, sqrt, h, d, m, heightDelta).Heights)
  {
    CellCornersInGrid(d.PositionX, d.PositionY);
    TransferKeepsFootprint(cfg, sqrt, h, CellIndex(d.PositionX, d.PositionY), heightDelta, d.Sediment,
                           SedimentCapacity(cfg, heightDelta, d.Speed, d.Water));
  }

  lemma RunKeepsFootprint(cfg: Settings, sqrt: real -> real, h: seq<Vector>, d: DropletState, fuel: nat)
    requires Runnable(cfg, sqrt) && |h| == VertexCount && Sampleable(d.PositionX, d.PositionY)
    ensures SameFootprint(h, Run(cfg, sqrt, h, d, fuel).Heights)
  {
    var inv := (h': seq<Vector>, d': DropletState) => InGrid(h', d') && SameFootprint(h, h');
    forall h', d' | inv(h', d') && StepOf(cfg, sqrt)(h', d').Moved?
      ensures inv(StepOf(cfg, sqrt)(h', d').Heights, StepOf(cfg, sqrt)(h', d').Droplet)
    {
      StepKeepsFootprint(cfg, sqrt, h', d');
      SameFootprintTransitive(h, h', StepOf(cfg, sqrt)(h', d').Heights);
    }
    assert InGrid(h, d) && SameFootprint(h, h);
    assert inv(h, d);
    IteratePreserves(StepOf(cfg, sqrt), inv, h, d, fuel);
  }

  lemma {:induction false} RunAllKeepsFootprint(cfg: Settings, sqrt: real -> real, h: seq<Vector>, spawns: seq<SpawnPoint>)
    requires Runnable(cfg, sqrt) && |h| == VertexCount && AllInRange(cfg, spawns)
    ensures SameFootprint(h, RunAll(cfg, sqrt, h, spawns))
    decreases |spawns|
  {
    if |spawns| > 0 {
      var n := |spawns| - 1;
      var before := RunAll(cfg, sqrt, h, spawns[..n]);
      RunAllKeepsFootprint(cfg, sqrt, h, spawns[..n]);
      SpawnIsSampleable(cfg, spawns[n]);
      RunKeepsFootprint(cfg, sqrt, before, Spawn(cfg, spawns[n]), Lifetime(cfg));
      SameFootprintTransitive(h, before, RunAll(cfg, sqrt, h, spawns));
    }
  }

  /** The simulation writes only Z: every vertex keeps its X and Y. */
  lemma SimulationKeepsFootprint(cfg: Settings, sqrt: real -> real, h: seq<Vector>, spawns: seq<SpawnPoint>)
    requires Runnable(cfg, sqrt) && |h| == VertexCount && AllInRange(cfg, spawns)
    ensures SameFootprint(h, Simulated(cfg, sqrt, h, spawns))
  {
    var eroded := RunAll(cfg, sqrt, h, spawns);
    RunAllKeepsFootprint(cfg, sqrt, h, spawns);
    if cfg.ApplyBlur {
      assert SameFootprint(eroded, Blurred(eroded));
      SameFootprintTransitive(h, eroded, Blurred(eroded));
    }
  }

  // ---------------------------------------------------------------- flat terrain

  ghost predicate Flat(h: seq<Vector>, z: real) {
    forall k :: 0 <= k < |h| ==> h[k].Z == z
  }

  /** On a flat map a droplet at rest finds no gradient and breaks off before changing anything. */
  lemma FlatStepStops(cfg: Settings, sqrt: real -> real, h: seq<Vector>, z: real, d: DropletState)
    requires Runnable(cfg, sqrt) && |h| == VertexCount && Sampleable(d.PositionX, d.PositionY) && Flat(h, z)
    requires d.DirectionX == 0.0 && d.DirectionY == 0.0
    ensures Step(cfg, sqrt, h, d) == Stopped
  {
    SamplerOnFlatGrid(h, z, d.PositionX, d.PositionY);
    var g := CalculateGradientAndHeight(h, d.PositionX, d.PositionY);
    DescendFromRest(cfg, sqrt, g, d);
  }

  /** Without a gradient a droplet at rest keeps a zero direction. */
  lemma DescendFromRest(cfg: Settings, sqrt: real -> real, g: GradientAndHeight, d: DropletState)
    requires g.GradientX == 0.0 && g.GradientY == 0.0 && d.DirectionX == 0.0 && d.DirectionY == 0.0
    ensures Descend(cfg, sqrt, g, d).DirectionX == 0.0 && Descend(cfg, sqrt, g, d).DirectionY == 0.0
  {
  }

  /** Hence running all droplets over a flat map leaves it unchanged, and so does the whole simulation. */
  lemma {:induction false} FlatMapUnchanged(cfg: Settings, sqrt: real -> real, h: seq<Vector>, z: real, spawns: seq<SpawnPoint>)
    requires Runnable(cfg, sqrt) && |h| == VertexCount && AllInRange(cfg, spawns) && Flat(h, z)
    ensures RunAll(cfg, sqrt, h, spawns) == h
    ensures Simulated(cfg, sqrt, h, spawns) == h
    decreases |spawns|
  {
    if |spawns| > 0 {
      var n := |spawns| - 1;
      FlatMapUnchanged(cfg, sqrt, h, z, spawns[..n]);
      SpawnIsSampleable(cfg, spawns[n]);
      if Lifetime(cfg) > 0 {
        FlatStepStops(cfg, sqrt, h, z, Spawn(cfg, spawns[n]));
      }
    }
    BlurOfFlat(h, z);
  }
}
