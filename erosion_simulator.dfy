/**
 * UErosionSimulator: the component that precomputes the erosion kernel of every vertex and then
 * lets droplets run over a height map in place. Every method is proved against the value-level
 * model: the kernel tables against KernelIndices and KernelWeights, the map operators against
 * Deposited, ErodeTaps and Blurred, and SimulateErosion against Simulated.
 */
module Erosion {
  import opened Grid
  import opened ErosionSettings
  import opened ErosionSampler
  import opened ErosionKernel
  import opened ErosionOperators
  import opened Droplet

  class ErosionSimulator {
    /** The editable settings of the component. */
    const Config: Settings
    /** The square root the simulation uses (FMath::Sqrt). */
    const Sqrt: real -> real

    /** Index of the droplet being simulated; after SimulateErosion the number of droplets. */
    var IterationIndex: int
    /** Index of the pass of the current droplet; after SimulateErosion the passes the last droplet moved. */
    var DropletLifeIndex: int
    /** Entry i: the vertices eroded around vertex i. */
    var ErosionIndicesMap: seq<seq<int>>
    /** Entry i: the weight of each of those vertices. */
    var ErosionWeightsMap: seq<seq<real>>

    /** A new component: the kernel tables are still empty. */
    constructor (cfg: Settings, sqrt: real -> real)
      ensures Config == cfg && Sqrt == sqrt
      ensures ErosionIndicesMap == [] && ErosionWeightsMap == []
      ensures IterationIndex == 0 && DropletLifeIndex == 0
    {
      Config := cfg;
      Sqrt := sqrt;
      IterationIndex := 0;
      DropletLifeIndex := 0;
      ErosionIndicesMap := [];
      ErosionWeightsMap := [];
    }

    /** The first VertexCount entries of both tables are the kernels of the model. */
    predicate TablesReady()
      reads this`ErosionIndicesMap, this`ErosionWeightsMap
    {
      && Runnable(Config, Sqrt)
      && |ErosionIndicesMap| >= VertexCount && |ErosionWeightsMap| >= VertexCount
      && (forall i :: 0 <= i < VertexCount ==> ErosionIndicesMap[i] == KernelIndices(Config, Sqrt, i))
      && (forall i :: 0 <= i < VertexCount ==> ErosionWeightsMap[i] == KernelWeights(Config, Sqrt, i))
    }

    /**
     * Fills the kernel tables. For each vertex the taps are gathered row by row, then a default entry
     * is appended to each table and entry i is written; so entries beyond the first VertexCount keep
     * what they held or are the appended empty ones.
     */
    method InitializeComponent()
      requires Runnable(Config, Sqrt)
      modifies this`ErosionIndicesMap, this`ErosionWeightsMap
      ensures |ErosionIndicesMap| == |old(ErosionIndicesMap)| + VertexCount
      ensures |ErosionWeightsMap| == |old(ErosionWeightsMap)| + VertexCount
      ensures forall i :: 0 <= i < VertexCount ==> ErosionIndicesMap[i] == KernelIndices(Config, Sqrt, i)
      ensures forall i :: 0 <= i < VertexCount ==> ErosionWeightsMap[i] == KernelWeights(Config, Sqrt, i)
      ensures forall i :: VertexCount <= i < |ErosionIndicesMap| ==>
        ErosionIndicesMap[i] == if i < |old(ErosionIndicesMap)| then old(ErosionIndicesMap)[i] else []
      ensures forall i :: VertexCount <= i < |ErosionWeightsMap| ==>
        ErosionWeightsMap[i] == if i < |old(ErosionWeightsMap)| then old(ErosionWeightsMap)[i] else []
      ensures TablesReady()
    {
      var i := 0;
      while i < VertexCount
        invariant 0 <= i <= VertexCount
        invariant |ErosionIndicesMap| == |old(ErosionIndicesMap)| + i
        invariant |ErosionWeightsMap| == |old(ErosionWeightsMap)| + i
        invariant forall k :: 0 <= k < i ==> ErosionIndicesMap[k] == KernelIndices(Config, Sqrt, k)
        invariant forall k :: 0 <= k < i ==> ErosionWeightsMap[k] == KernelWeights(Config, Sqrt, k)
        invariant forall k :: i <= k < |ErosionIndicesMap| ==>
          ErosionIndicesMap[k] == if k < |old(ErosionIndicesMap)| then old(ErosionIndicesMap)[k] else []
        invariant forall k :: i <= k < |ErosionWeightsMap| ==>
          ErosionWeightsMap[k] == if k < |old(ErosionWeightsMap)| then old(ErosionWeightsMap)[k] else []
      {
        var taps, weightedSum := GatherTaps(i);
        KernelContainsCentre(Config, Sqrt, i);
        ErosionIndicesMap := ErosionIndicesMap + [[]];
        ErosionIndicesMap := ErosionIndicesMap[i := seq(|taps|, _ => 0)];
        ErosionWeightsMap := ErosionWeightsMap + [[]];
        ErosionWeightsMap := ErosionWeightsMap[i := seq(|taps|, _ => 0.0)];
        WriteEntry(i, taps, weightedSum);
        i := i + 1;
      }
    }

    /** The loop over j that writes entry i of both tables from the gathered taps. */
    method WriteEntry(i: int, taps: seq<Tap>, weightedSum: real)
      requires 0 <= i < |ErosionIndicesMap| && i < |ErosionWeightsMap| && weightedSum != 0.0
      requires |ErosionIndicesMap[i]| == |taps| && |ErosionWeightsMap[i]| == |taps|
      modifies this`ErosionIndicesMap, this`ErosionWeightsMap
      ensures ErosionIndicesMap == old(ErosionIndicesMap)[i := TapIndices(taps)]
      ensures ErosionWeightsMap == old(ErosionWeightsMap)[i := NormalisedWeights(taps, weightedSum)]
    {
      var j := 0;
      while j < |taps|
        invariant 0 <= j <= |taps|
        invariant |ErosionIndicesMap| == |old(ErosionIndicesMap)| && |ErosionWeightsMap| == |old(ErosionWeightsMap)|
        invariant ErosionIndicesMap == old(ErosionIndicesMap)[i := ErosionIndicesMap[i]]
        invariant ErosionWeightsMap == old(ErosionWeightsMap)[i := ErosionWeightsMap[i]]
        invariant |ErosionIndicesMap[i]| == |taps| && |ErosionWeightsMap[i]| == |taps|
        invariant forall m :: 0 <= m < j ==> ErosionIndicesMap[i][m] == taps[m].X + taps[m].Y * ErosionMapSize
        invariant forall m :: 0 <= m < j ==> ErosionWeightsMap[i][m] == taps[m].Weight / weightedSum
      {
        ErosionIndicesMap := ErosionIndicesMap[i := ErosionIndicesMap[i][j := taps[j].X + taps[j].Y * ErosionMapSize]];
        ErosionWeightsMap := ErosionWeightsMap[i := ErosionWeightsMap[i][j := taps[j].Weight / weightedSum]];
        j := j + 1;
      }
      assert ErosionIndicesMap[i] == TapIndices(taps);
      assert ErosionWeightsMap[i] == NormalisedWeights(taps, weightedSum);
    }

    /**
     * The two loops over the window of vertex i: the kept candidates in visiting order
     * (VertexOffsets with VertexWeights) and the sum of their weights (WeightedSum).
     */
    method GatherTaps(i: int) returns (taps: seq<Tap>, weightedSum: real)
      requires Runnable(Config, Sqrt) && 0 <= i < VertexCount
      ensures taps == KernelTaps(Config, Sqrt, i)
      ensures weightedSum == Sum(TapWeights(taps))
    {
      var r := Config.ErosionRadius;
      var cx, cy := i % ErosionMapSize, i / ErosionMapSize;
      taps, weightedSum := [], 0.0;
      var y := cy - r;
      while y <= cy + r
        invariant cy - r <= y <= cy + r + 1
        invariant taps == WindowTaps(Config, Sqrt, cx, cy, y)
        invariant weightedSum == Sum(TapWeights(taps))
      {
        taps, weightedSum := GatherRow(cx, cy, y, taps, weightedSum);
        WindowTapsNext(Config, Sqrt, cx, cy, y);
        y := y + 1;
      }
    }

    /** The inner loop over row y of the window of (cx, cy): appends the kept candidates of that row. */
    method GatherRow(cx: int, cy: int, y: int, taps0: seq<Tap>, weightedSum0: real) returns (taps: seq<Tap>, weightedSum: real)
      requires Runnable(Config, Sqrt) && weightedSum0 == Sum(TapWeights(taps0))
      ensures taps == taps0 + RowTaps(Config, Sqrt, cx, cy, y, cx + Config.ErosionRadius + 1)
      ensures weightedSum == Sum(TapWeights(taps))
    {
      var r := Config.ErosionRadius;
      taps, weightedSum := taps0, weightedSum0;
      var x := cx - r;
      while x <= cx + r
        invariant cx - r <= x <= cx + r + 1
        invariant taps == taps0 + RowTaps(Config, Sqrt, cx, cy, y, x)
        invariant weightedSum == Sum(TapWeights(taps))
      {
        var distanceWeight := DistanceWeight(Config, Sqrt, cx - x, cy - y);
        GatherColumn(Config, Sqrt, cx, cy, y, x, taps0, taps, distanceWeight);
        if !(x < 0 || x > ErosionMapSize - 1 || y < 0 || y > ErosionMapSize - 1 || distanceWeight == 0.0) {
          taps := taps + [Tap(x, y, distanceWeight)];
          weightedSum := weightedSum + distanceWeight;
        }
        x := x + 1;
      }
    }

    /** Every Z becomes the mean of its 3x3 window, read from a copy of the map taken first. */
    method GaussianBlur(heightMap: array<Vector>)
      requires heightMap.Length == VertexCount
      modifies heightMap
      ensures heightMap[..] == Blurred(old(heightMap[..]))
    {
      var heightMapCopy := heightMap[..];
      ghost var blurred := Blurred(heightMapCopy);
      var combinedIndex := 0;
      while combinedIndex < VertexCount
        invariant 0 <= combinedIndex <= VertexCount
        invariant forall k :: 0 <= k < combinedIndex ==> heightMap[k] == blurred[k]
        invariant forall k :: combinedIndex <= k < VertexCount ==> heightMap[k] == heightMapCopy[k]
      {
        var newValue := WindowSum(heightMapCopy, combinedIndex);
        assert blurred[combinedIndex] == heightMapCopy[combinedIndex].(Z := newValue / 9.0);
        heightMap[combinedIndex] := heightMap[combinedIndex].(Z := newValue / 9.0);
        combinedIndex := combinedIndex + 1;
      }
      assert heightMap[..] == blurred;
    }

    /** The sum of the nine taps of the 3x3 window around a vertex, visited row by row. */
    method WindowSum(heightMapCopy: seq<Vector>, combinedIndex: int) returns (newValue: real)
      requires |heightMapCopy| == VertexCount && 0 <= combinedIndex < VertexCount
      ensures newValue / 9.0 == BlurredZ(heightMapCopy, combinedIndex)
    {
      var indexX, indexY := combinedIndex % ErosionMapSize, combinedIndex / ErosionMapSize;
      newValue := 0.0;
      var y := indexY - 1;
      while y <= indexY + 1
        invariant indexY - 1 <= y <= indexY + 2
        invariant newValue == BlurWindow(heightMapCopy, combinedIndex, indexX, indexY, y)
      {
        var x := indexX - 1;
        while x <= indexX + 1
          invariant indexX - 1 <= x <= indexX + 2
          invariant newValue == BlurWindow(heightMapCopy, combinedIndex, indexX, indexY, y)
            + BlurRow(heightMapCopy, combinedIndex, indexX, y, x)
        {
          if x < 0 || x > ErosionMapSize - 1 || y < 0 || y > ErosionMapSize - 1 {
            newValue := newValue + heightMapCopy[combinedIndex].Z;
          } else {
            RowMajorInRange(x, y, ErosionMapSize);
            newValue := newValue + heightMapCopy[x + y * ErosionMapSize].Z;
          }
          x := x + 1;
        }
        y := y + 1;
      }
    }

    /** Drops sediment on the four corners of cell c and returns what the droplet still carries. */
    method DepositSediment(heightMap: array<Vector>, c: int, heightDelta: real, sediment: real, capacity: real)
      returns (sedimentLeft: real)
      requires 0 <= c && c + 1 + ErosionMapSize < heightMap.Length
      modifies heightMap
      ensures var e := Deposited(old(heightMap[..]), c, heightDelta, sediment, capacity, Config.DepositionSpeed);
        heightMap[..] == e.Heights && sedimentLeft == e.Sediment
    {
      ghost var before := heightMap[..];
      var depositAmount := DepositAmount(heightDelta, sediment, capacity, Config.DepositionSpeed);
      sedimentLeft := sediment - depositAmount;
      heightMap[c] := RaiseZ(heightMap[c], depositAmount * 0.25);
      heightMap[c + 1] := RaiseZ(heightMap[c + 1], depositAmount * 0.25);
      heightMap[c + ErosionMapSize] := RaiseZ(heightMap[c + ErosionMapSize], depositAmount * 0.25);
      heightMap[c + 1 + ErosionMapSize] := RaiseZ(heightMap[c + 1 + ErosionMapSize], depositAmount * 0.25);
      RaiseCornersInOrder(before, c, depositAmount);
    }

    /**
     * Erodes the kernel entry of cell c: the amount is fixed once, then every listed vertex the
     * border does not protect gives its weighted share to the droplet; returns the new sediment.
     */
    method ErodeTerrain(heightMap: array<Vector>, c: int, heightDelta: real, sediment: real, capacity: real)
      returns (sedimentGained: real)
      requires 0 <= c < |ErosionIndicesMap| && c < |ErosionWeightsMap|
      requires |ErosionIndicesMap[c]| <= |ErosionWeightsMap[c]| && IndicesIn(ErosionIndicesMap[c], heightMap.Length)
      modifies heightMap
      ensures var e := ErodeTaps(Config, old(heightMap[..]), ErosionIndicesMap[c], ErosionWeightsMap[c],
                                 ErosionAmount(heightDelta, sediment, capacity, Config.ErosionSpeed), sediment, |ErosionIndicesMap[c]|);
        heightMap[..] == e.Heights && sedimentGained == e.Sediment
    {
      ghost var before := heightMap[..];
      var erosionAmount := ErosionAmount(heightDelta, sediment, capacity, Config.ErosionSpeed);
      var indices, weights := ErosionIndicesMap[c], ErosionWeightsMap[c];
      sedimentGained := sediment;
      var i := 0;
      while i < |indices|
        invariant 0 <= i <= |indices|
        invariant var e := ErodeTaps(Config, before, indices, weights, erosionAmount, sediment, i);
          heightMap[..] == e.Heights && sedimentGained == e.Sediment
      {
        ghost var e := ErodeTaps(Config, before, indices, weights, erosionAmount, sediment, i);
        ErodeTapsNext(Config, before, indices, weights, erosionAmount, sediment, i);
        var erodedVertex := indices[i];
        if !Skipped(Config, erodedVertex) {
          var sedimentDelta := erosionAmount * weights[i];
          heightMap[erodedVertex] := LowerZ(heightMap[erodedVertex], sedimentDelta);
          sedimentGained := sedimentGained + sedimentDelta;
          assert heightMap[..] == e.Heights[erodedVertex := LowerZ(e.Heights[erodedVertex], sedimentDelta)];
        }
        i := i + 1;
      }
    }

    /**
     * One pass of the droplet loop on the live map: descend, test for the break, then deposit or
     * erode at the cell the droplet left and update speed and water. Returns whether the droplet
     * moved on, and its new state.
     */
    method MoveDroplet(heightMap: array<Vector>, d: DropletState) returns (moved: bool, next: DropletState)
      requires TablesReady() && heightMap.Length == VertexCount && Sampleable(d.PositionX, d.PositionY)
      modifies heightMap
      ensures moved ==> Step(Config, Sqrt, old(heightMap[..]), d) == Moved(heightMap[..], next)
      ensures !moved ==> Step(Config, Sqrt, old(heightMap[..]), d) == Stopped && heightMap[..] == old(heightMap[..])
    {
      var current := CalculateGradientAndHeight(heightMap[..], d.PositionX, d.PositionY);
      var m := Descend(Config, Sqrt, current, d);
      if !KeepsFlowing(Config, m.DirectionX, m.DirectionY, m.PositionX, m.PositionY) {
        return false, d;
      }
      moved := true;
      next := ExchangeAt(heightMap, d, current, m);
    }

    /**
     * The part of a pass after the break test: the height difference and capacity, the deposit or
     * erosion at the cell the droplet left, and the new droplet.
     */
    method ExchangeAt(heightMap: array<Vector>, d: DropletState, current: GradientAndHeight, m: Heading) returns (next: DropletState)
      requires TablesReady() && heightMap.Length == VertexCount && Sampleable(d.PositionX, d.PositionY)
      requires KeepsFlowing(Config, m.DirectionX, m.DirectionY, m.PositionX, m.PositionY)
      modifies heightMap
      ensures Advance(Config, Sqrt, old(heightMap[..]), d, current, m) == Moved(heightMap[..], next)
    {
      ghost var before := heightMap[..];
      var combinedIndexPosition := CellIndex(d.PositionX, d.PositionY);
      var updated := CalculateGradientAndHeight(heightMap[..], m.PositionX, m.PositionY);
      var heightDelta := updated.Height - current.Height;
      var capacity := SedimentCapacity(Config, heightDelta, d.Speed, d.Water);
      CellCornersInGrid(d.PositionX, d.PositionY);
      KernelIndicesInGrid(Config, Sqrt, combinedIndexPosition);
      KernelWeightsNormalised(Config, Sqrt, combinedIndexPosition);
      var sediment;
      if d.Sediment > capacity || heightDelta > 0.0 {
        sediment := DepositSediment(heightMap, combinedIndexPosition, heightDelta, d.Sediment, capacity);
      } else {
        sediment := ErodeTerrain(heightMap, combinedIndexPosition, heightDelta, d.Sediment, capacity);
      }
      ghost var e := Transfer(Config, Sqrt, before, combinedIndexPosition, heightDelta, d.Sediment, capacity);
      assert heightMap[..] == e.Heights && sediment == e.Sediment;
      next := DropletState(m.PositionX, m.PositionY, m.DirectionX, m.DirectionY,
                           FlowSpeed(Config, heightDelta), Evaporated(Config, d.Water), sediment);
      FlowYields(Config, Sqrt, before, d, m, heightDelta, e, next);
      AdvanceFlows(Config, Sqrt, before, d, current, m, heightDelta);
    }

    /**
     * Runs one droplet per spawn position, each for at most DropletLifetime passes, on the live map,
     * then blurs the map when ApplyBlur is set. The spawn positions are those the random stream
     * seeded with ErosionSeed yields, one pair per droplet.
     */
    method SimulateErosion(heightMap: array<Vector>, spawns: seq<SpawnPoint>)
      requires TablesReady() && heightMap.Length == VertexCount
      requires |spawns| == Config.IterationNumber && AllInRange(Config, spawns)
      modifies heightMap, this`IterationIndex, this`DropletLifeIndex
      ensures heightMap[..] == Simulated(Config, Sqrt, old(heightMap[..]), spawns)
      ensures IterationIndex == |spawns|
      ensures |spawns| == 0 ==> DropletLifeIndex == old(DropletLifeIndex)
      ensures |spawns| > 0 ==>
        DropletLifeIndex == RunDroplet(Config, Sqrt, RunAll(Config, Sqrt, old(heightMap[..]), spawns[..|spawns| - 1]), spawns[|spawns| - 1]).Steps
    {
      ghost var initial := heightMap[..];
      IterationIndex := 0;
      while IterationIndex < Config.IterationNumber
        invariant 0 <= IterationIndex <= |spawns|
        invariant heightMap[..] == RunAll(Config, Sqrt, initial, spawns[..IterationIndex])
        invariant IterationIndex == 0 ==> DropletLifeIndex == old(DropletLifeIndex)
        invariant IterationIndex > 0 ==>
          DropletLifeIndex == RunDroplet(Config, Sqrt, RunAll(Config, Sqrt, initial, spawns[..IterationIndex - 1]), spawns[IterationIndex - 1]).Steps
      {
        SimulateDroplet(heightMap, spawns[IterationIndex]);
        RunAllNext(Config, Sqrt, initial, spawns, IterationIndex);
        IterationIndex := IterationIndex + 1;
      }
      assert spawns[..IterationIndex] == spawns;
      if Config.ApplyBlur {
        GaussianBlur(heightMap);
      }
    }

    /**
     * The inner loop of SimulateErosion for the droplet spawned at p: at most DropletLifetime passes,
     * leaving it early at the break. DropletLifeIndex ends as the number of passes the droplet moved.
     */
    method SimulateDroplet(heightMap: array<Vector>, p: SpawnPoint)
      requires TablesReady() && heightMap.Length == VertexCount && SpawnInRange(Config, p)
      modifies heightMap, this`DropletLifeIndex
      ensures heightMap[..] == RunDroplet(Config, Sqrt, old(heightMap[..]), p).Heights
      ensures DropletLifeIndex == RunDroplet(Config, Sqrt, old(heightMap[..]), p).Steps
    {
      var droplet := Spawn(Config, p);
      SpawnIsSampleable(Config, p);
      ghost var flight := RunDroplet(Config, Sqrt, heightMap[..], p);
      ghost var remaining: nat := Lifetime(Config);
      ContinuesAtStart(Config, Sqrt, heightMap[..], droplet, remaining);
      DropletLifeIndex := 0;
      while DropletLifeIndex < Config.DropletLifetime
        invariant 0 <= DropletLifeIndex <= Lifetime(Config) && remaining == Lifetime(Config) - DropletLifeIndex
        invariant Sampleable(droplet.PositionX, droplet.PositionY)
        invariant RunContinues(Config, Sqrt, flight, heightMap[..], droplet, remaining, DropletLifeIndex)
      {
        ghost var h, d, k, r := heightMap[..], droplet, DropletLifeIndex, remaining;
        var moved, next := MoveDroplet(heightMap, droplet);
        if !moved {
          ContinuesAfterStop(Config, Sqrt, flight, h, droplet, remaining, DropletLifeIndex);
          break;
        }
        droplet := next;
        DropletLifeIndex := DropletLifeIndex + 1;
        remaining := remaining - 1;
        ContinuesAfterMove(Config, Sqrt, flight, h, d, r, k, heightMap[..], droplet, remaining, DropletLifeIndex);
      }
      if remaining == 0 {
        ContinuesOutOfFuel(Config, Sqrt, flight, heightMap[..], droplet, DropletLifeIndex);
      }
    }
  }
}
