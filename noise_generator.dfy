/**
 * ANoiseGenerator, the terrain actor: the fixed chunk geometry, the noise array of one chunk and
 * the falloff map of the whole world. The noise library is a parameter: `noise(x, y)` is the value
 * the configured FastNoiseLite generator returns at sample position (x, y).
 */
module NoiseGenerator {
  import opened Wrappers
  import opened Grid
  import opened ErosionSettings

  /** Rendered squares per chunk side. */
  const MapArraySize: int := 256
  /** One extra vertex on each side, for the normals at the chunk edge. */
  const EdgeArraySize: int := MapArraySize + 2
  /** Vertices, and noise values, per chunk side. */
  const NoiseArraySize: int := EdgeArraySize + 1
  const VertexSize: real := 100.0
  const HeightMultiplier: real := VertexSize * 10.0
  /** The centring offset of a sample: NoiseArraySize / 2 is an integer division, 129, then a float. */
  const HalfNoiseArraySize: real := (NoiseArraySize / 2) as real

  /** The erosion component works on the chunk's vertex array: both grids are 259 a side. */
  lemma SimulatorGridIsChunkGrid()
    ensures ErosionMapSize == NoiseArraySize && VertexCount == NoiseArraySize * NoiseArraySize
    ensures HalfNoiseArraySize == 129.0
  {
  }

  /** The actor's settings that the modelled code reads; bApplyErosion is read but not declared with them. */
  datatype NoiseSettings = NoiseSettings(
    GlobalOffsetX: int,
    GlobalOffsetY: int,
    NoiseScale: real,
    ApplyFalloffMap: bool,
    MapSize: nat,
    ApplyErosion: bool)
  {
    predicate WithinClampRanges() {
      NoiseScale >= 0.0001 && 1 <= MapSize <= 20
    }
  }

  // ---------------------------------------------------------------- noise data

  /** The noise position of column (or row) i of a chunk whose own offset is localOffset. */
  function SampleCoordinate(i: int, localOffset: real, scale: real, globalOffset: int): real {
    (i as real + localOffset - HalfNoiseArraySize) * scale + globalOffset as real
  }

  /** The value stored for sample (x, y): the noise at its position moved from [-1, 1] to [0, 1]. */
  function NoiseValue(s: NoiseSettings, noise: (real, real) -> real, localOffsetX: real, localOffsetY: real, x: int, y: int): real {
    (noise(SampleCoordinate(x, localOffsetX, s.NoiseScale, s.GlobalOffsetX),
           SampleCoordinate(y, localOffsetY, s.NoiseScale, s.GlobalOffsetY)) + 1.0) / 2.0
  }

  /**
   * CreateNoiseData: one value per vertex, appended row by row, so that sample (x, y) is entry
   * x + y * NoiseArraySize.
   */
  method CreateNoiseData(s: NoiseSettings, noise: (real, real) -> real, localOffsetX: real, localOffsetY: real)
    returns (noiseData: seq<real>)
    ensures |noiseData| == NoiseArraySize * NoiseArraySize
    ensures forall x, y | 0 <= x < NoiseArraySize && 0 <= y < NoiseArraySize ::
      noiseData[x + y * NoiseArraySize] == NoiseValue(s, noise, localOffsetX, localOffsetY, x, y)
  {
    noiseData := [];
    var y := 0;
    while y < NoiseArraySize
      invariant 0 <= y <= NoiseArraySize && |noiseData| == y * NoiseArraySize
      invariant forall xx, yy | 0 <= xx < NoiseArraySize && 0 <= yy < y ::
        noiseData[xx + yy * NoiseArraySize] == NoiseValue(s, noise, localOffsetX, localOffsetY, xx, yy)
    {
      var x := 0;
      while x < NoiseArraySize
        invariant 0 <= x <= NoiseArraySize && |noiseData| == y * NoiseArraySize + x
        invariant forall xx, yy | 0 <= xx < NoiseArraySize && 0 <= yy < y ::
          noiseData[xx + yy * NoiseArraySize] == NoiseValue(s, noise, localOffsetX, localOffsetY, xx, yy)
        invariant forall xx | 0 <= xx < x ::
          noiseData[xx + y * NoiseArraySize] == NoiseValue(s, noise, localOffsetX, localOffsetY, xx, y)
      {
        var sampleX := SampleCoordinate(x, localOffsetX, s.NoiseScale, s.GlobalOffsetX);
        var sampleY := SampleCoordinate(y, localOffsetY, s.NoiseScale, s.GlobalOffsetY);
        var noiseValue := noise(sampleX, sampleY);
        noiseData := noiseData + [(noiseValue + 1.0) / 2.0];
        x := x + 1;
      }
      y := y + 1;
    }
  }

  /** With the noise in [-1, 1] every stored value lies in [0, 1], and the noise is recovered from it. */
  lemma NoiseValueInUnitRange(s: NoiseSettings, noise: (real, real) -> real, localOffsetX: real, localOffsetY: real, x: int, y: int)
    requires forall a, b :: -1.0 <= noise(a, b) <= 1.0
    ensures 0.0 <= NoiseValue(s, noise, localOffsetX, localOffsetY, x, y) <= 1.0
    ensures 2.0 * NoiseValue(s, noise, localOffsetX, localOffsetY, x, y) - 1.0 ==
      noise(SampleCoordinate(x, localOffsetX, s.NoiseScale, s.GlobalOffsetX),
            SampleCoordinate(y, localOffsetY, s.NoiseScale, s.GlobalOffsetY))
  {
  }

  /** The offset of a chunk's noise: chunk number times the rendered squares per side. */
  function ChunkOffset(chunkNumber: int): real {
    (chunkNumber * MapArraySize) as real
  }

  /**
   * Neighbouring chunks sample the same noise where they overlap: the last three columns of chunk
   * cx are the first three of chunk cx + 1, and likewise for rows.
   */
  lemma NeighbouringChunksAgree(s: NoiseSettings, noise: (real, real) -> real, cx: int, cy: int, x: int, y: int)
    requires 0 <= x < NoiseArraySize - MapArraySize && 0 <= y < NoiseArraySize
    ensures NoiseValue(s, noise, ChunkOffset(cx), ChunkOffset(cy), x + MapArraySize, y) ==
            NoiseValue(s, noise, ChunkOffset(cx + 1), ChunkOffset(cy), x, y)
    ensures NoiseValue(s, noise, ChunkOffset(cy), ChunkOffset(cx), y, x + MapArraySize) ==
            NoiseValue(s, noise, ChunkOffset(cy), ChunkOffset(cx + 1), y, x)
  {
    assert SampleCoordinate(x + MapArraySize, ChunkOffset(cx), s.NoiseScale, s.GlobalOffsetX) ==
           SampleCoordinate(x, ChunkOffset(cx + 1), s.NoiseScale, s.GlobalOffsetX);
    assert SampleCoordinate(x + MapArraySize, ChunkOffset(cx), s.NoiseScale, s.GlobalOffsetY) ==
           SampleCoordinate(x, ChunkOffset(cx + 1), s.NoiseScale, s.GlobalOffsetY);
  }

  // ---------------------------------------------------------------- falloff map

  /** Side of the falloff map: one chunk of vertices per chunk of the world, on each axis. */
  function FalloffSide(mapSize: nat): nat {
    NoiseArraySize * mapSize
  }

  function HalfSide(mapSize: nat): real {
    FalloffSide(mapSize) as real / 2.0
  }

  /** The larger of the distances of (x, y) to the centre of the map along the two axes. */
  function CentreDistance(mapSize: nat, x: int, y: int): real {
    Max(Abs(x as real - HalfSide(mapSize)), Abs(y as real - HalfSide(mapSize)))
  }

  /**
   * The value the falloff map holds at (x, y): rising from 0 to 1 over the outer band of 100
   * (the border mountains), falling from 1 to 0 over the band inside it (the sea, reshaped by
   * SeaHeightCurve when one is set), a peak falling from 1 to 0 within 50 of the centre, and 0
   * elsewhere.
   */
  function FalloffValue(mapSize: nat, seaHeightCurve: Option<real -> real>, x: int, y: int): real {
    var half := HalfSide(mapSize);
    var d := CentreDistance(mapSize, x, y);
    if d >= half - 100.0 then d / 100.0 - (half - 100.0) / 100.0
    else if d >= half - 200.0 then
      var v := (half - 100.0) / 100.0 - d / 100.0;
      if seaHeightCurve.Some? then seaHeightCurve.value(v) else v
    else if d <= 50.0 then 1.0 - d / 50.0
    else 0.0
  }

  /** Appending one value after k = x + y * n entries of an n-wide grid puts it at (x, y). */
  lemma AppendedAt(x: int, y: int, n: int)
    requires 0 <= x < n && 0 <= y
    ensures (x + y * n) % n == x && (x + y * n) / n == y && 0 <= x + y * n
  {
    RowMajor(x, y, n);
  }

  /** The body of CreateFalloffMap's loop: the region tests for one position. */
  method FalloffData(mapSize: nat, seaHeightCurve: Option<real -> real>, borderMountainSquareBoundary: real,
                     waterSquareBoundary: real, halfSquareSide: real, x: int, y: int) returns (dataValue: real)
    requires halfSquareSide == HalfSide(mapSize)
    requires borderMountainSquareBoundary == halfSquareSide - 100.0 && waterSquareBoundary == halfSquareSide - 200.0
    ensures dataValue == FalloffValue(mapSize, seaHeightCurve, x, y)
  {
    var distance := Max(Abs(x as real - halfSquareSide), Abs(y as real - halfSquareSide));
    dataValue := 0.0;
    if distance >= borderMountainSquareBoundary {
      dataValue := distance / 100.0 - (halfSquareSide - 100.0) / 100.0;
    } else if distance >= waterSquareBoundary {
      dataValue := (halfSquareSide - 100.0) / 100.0 - distance / 100.0;
      if seaHeightCurve.Some? {
        dataValue := seaHeightCurve.value(dataValue);
      }
    } else if distance <= 50.0 {
      dataValue := 1.0 - distance / 50.0;
    }
  }

  /** CreateFalloffMap: FalloffSide(MapSize) squared values, appended row by row. */
  method CreateFalloffMap(mapSize: nat, seaHeightCurve: Option<real -> real>) returns (mapData: seq<real>)
    ensures |mapData| == FalloffSide(mapSize) * FalloffSide(mapSize)
    ensures forall x, y | 0 <= x < FalloffSide(mapSize) && 0 <= y < FalloffSide(mapSize) ::
      x + y * FalloffSide(mapSize) < |mapData| && mapData[x + y * FalloffSide(mapSize)] == FalloffValue(mapSize, seaHeightCurve, x, y)
  {
    var squareSideLength := FalloffSide(mapSize);
    var borderMountainSquareBoundary := HalfSide(mapSize) - 100.0;
    var waterSquareBoundary := HalfSide(mapSize) - 200.0;
    var halfSquareSide := HalfSide(mapSize);
    mapData := [];
    var y := 0;
    while y < squareSideLength
      invariant 0 <= y <= squareSideLength && |mapData| == y * squareSideLength
      invariant forall k | 0 <= k < |mapData| ::
        mapData[k] == FalloffValue(mapSize, seaHeightCurve, k % squareSideLength, k / squareSideLength)
    {
      var x := 0;
      while x < squareSideLength
        invariant 0 <= x <= squareSideLength && |mapData| == y * squareSideLength + x
        invariant forall k | 0 <= k < |mapData| ::
          mapData[k] == FalloffValue(mapSize, seaHeightCurve, k % squareSideLength, k / squareSideLength)
      {
        var dataValue := FalloffData(mapSize, seaHeightCurve, borderMountainSquareBoundary, waterSquareBoundary, halfSquareSide, x, y);
        AppendedAt(x, y, squareSideLength);
        mapData := mapData + [dataValue];
        x := x + 1;
      }
      NextRow(y, squareSideLength);
      y := y + 1;
    }
    FalloffLayout(mapSize, seaHeightCurve, mapData, y);
  }

  /** A finished map read back by position. */
  lemma FalloffLayout(mapSize: nat, seaHeightCurve: Option<real -> real>, mapData: seq<real>, rows: int)
    requires rows == FalloffSide(mapSize) && |mapData| == rows * FalloffSide(mapSize)
    requires FalloffSide(mapSize) == 0 ==> |mapData| == 0
    requires forall k | 0 <= k < |mapData| ::
      mapData[k] == FalloffValue(mapSize, seaHeightCurve, k % FalloffSide(mapSize), k / FalloffSide(mapSize))
    ensures |mapData| == FalloffSide(mapSize) * FalloffSide(mapSize)
    ensures forall x, y | 0 <= x < FalloffSide(mapSize) && 0 <= y < FalloffSide(mapSize) ::
      x + y * FalloffSide(mapSize) < |mapData| && mapData[x + y * FalloffSide(mapSize)] == FalloffValue(mapSize, seaHeightCurve, x, y)
  {
    var n := FalloffSide(mapSize);
    forall x, y | 0 <= x < n && 0 <= y < n
      ensures x + y * n < |mapData| && mapData[x + y * n] == FalloffValue(mapSize, seaHeightCurve, x, y)
    {
      AppendedAt(x, y, n);
      RowMajorInRange(x, y, n);
    }
  }

  /** Within 50 of the centre, and inside the sea band, the map peaks: 1 at the centre, falling linearly. */
  lemma FalloffCentrePeak(mapSize: nat, seaHeightCurve: Option<real -> real>, x: int, y: int)
    requires CentreDistance(mapSize, x, y) <= 50.0 && CentreDistance(mapSize, x, y) < HalfSide(mapSize) - 200.0
    ensures FalloffValue(mapSize, seaHeightCurve, x, y) == 1.0 - CentreDistance(mapSize, x, y) / 50.0
    ensures 0.0 <= FalloffValue(mapSize, seaHeightCurve, x, y) <= 1.0
  {
  }

  /** Between the peak and the sea band the map is flat at 0. */
  lemma FalloffPlain(mapSize: nat, seaHeightCurve: Option<real -> real>, x: int, y: int)
    requires 50.0 < CentreDistance(mapSize, x, y) < HalfSide(mapSize) - 200.0
    ensures FalloffValue(mapSize, seaHeightCurve, x, y) == 0.0
  {
  }

  /** Every position of the map lies within half a side of the centre on both axes. */
  lemma CentreDistanceBounded(mapSize: nat, x: int, y: int)
    requires 0 <= x < FalloffSide(mapSize) && 0 <= y < FalloffSide(mapSize)
    ensures 0.0 <= CentreDistance(mapSize, x, y) <= HalfSide(mapSize)
  {
  }

  /** The border mountains rise from 0 at the inner edge of their band to 1 at the map's edge. */
  lemma FalloffMountainBand(mapSize: nat, seaHeightCurve: Option<real -> real>, x: int, y: int)
    requires 0 <= x < FalloffSide(mapSize) && 0 <= y < FalloffSide(mapSize)
    requires CentreDistance(mapSize, x, y) >= HalfSide(mapSize) - 100.0
    ensures 0.0 <= FalloffValue(mapSize, seaHeightCurve, x, y) <= 1.0
    ensures FalloffValue(mapSize, seaHeightCurve, x, y) == (CentreDistance(mapSize, x, y) - (HalfSide(mapSize) - 100.0)) / 100.0
  {
    CentreDistanceBounded(mapSize, x, y);
  }

  /** Without a sea curve every value of the map lies in [0, 1]. */
  lemma FalloffInUnitRange(mapSize: nat, x: int, y: int)
    requires 0 <= x < FalloffSide(mapSize) && 0 <= y < FalloffSide(mapSize)
    ensures 0.0 <= FalloffValue(mapSize, None, x, y) <= 1.0
  {
    CentreDistanceBounded(mapSize, x, y);
  }

  /**
   * A one-chunk world is too small for the inner regions: half its side is 129.5, so the sea band
   * reaches the centre and, without a sea curve, the map is a V of slope 1/100 around the inner
   * edge of the mountains.
   */
  lemma SingleChunkWorldHasNoCentre(x: int, y: int)
    requires 0 <= x < FalloffSide(1) && 0 <= y < FalloffSide(1)
    ensures CentreDistance(1, x, y) >= HalfSide(1) - 200.0
    ensures FalloffValue(1, None, x, y) == Abs(CentreDistance(1, x, y) - (HalfSide(1) - 100.0)) / 100.0
  {
  }
}
