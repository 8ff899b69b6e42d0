/**
 * ANoiseGenerator::GenerateTerrain: the vertex grid of one chunk, its erosion, the smooth normals,
 * the filter that drops the one-vertex border, and the triangle list of the mesh section.
 */
module TerrainMesh {
  import opened Wrappers
  import opened Grid
  import opened ErosionSettings
  import opened NoiseGenerator
  import ErosionOperators
  import Droplet
  import Erosion

  /** What GenerateTerrain reads of a chunk's properties. */
  datatype ChunkProperties = ChunkProperties(ChunkNumberX: int, ChunkNumberY: int, HeightCurve: Option<real -> real>)

  /** The arrays handed to the terrain mesh section (0) and the water mesh section (1). */
  datatype TerrainSections = TerrainSections(
    TrueVertices: seq<Vector>,
    TrueNormals: seq<Vector>,
    UV: seq<Vector2>,
    WaterVertices: seq<Vector>,
    WaterNormals: seq<Vector>,
    Triangles: seq<int>)

  /** Vertices in the chunk's grid. */
  const GridLength: int := NoiseArraySize * NoiseArraySize
  /** Vertices per side of the rendered mesh: the grid without its one-vertex border. */
  const MeshSize: int := MapArraySize + 1

  // ---------------------------------------------------------------- vertices

  /** The world position of the chunk's first column (or row); chunk 0 starts at 0. */
  function StartingPosition(chunkNumber: int): real {
    if chunkNumber != 0 then ChunkOffset(chunkNumber) * VertexSize else 0.0
  }

  /** The texture coordinate of the chunk's first column (or row). */
  function UVStartingPosition(chunkNumber: int): real {
    if chunkNumber != 0 then ChunkOffset(chunkNumber) * 1.0 else 0.0
  }

  /**
   * The entry of the world's falloff map that the source reads under vertex (x, y) of the chunk: the
   * chunk's block starts NoiseArraySize columns (and rows) after the previous chunk's.
   */
  function FalloffIndexAsWritten(mapSize: nat, chunk: ChunkProperties, x: int, y: int): int {
    x + chunk.ChunkNumberX * NoiseArraySize + (y + chunk.ChunkNumberY * NoiseArraySize) * FalloffSide(mapSize)
  }

  /**
   * The vertex a chunk shares with its right-hand neighbour reads two different falloff entries, three
   * columns apart: the noise and the vertex positions stride by MapArraySize per chunk, the falloff
   * index by NoiseArraySize.
   */
  lemma SharedEdgeReadsTwoFalloffEntries(mapSize: nat, chunk: ChunkProperties, chunk': ChunkProperties, x: int, y: int)
    requires chunk'.ChunkNumberX == chunk.ChunkNumberX + 1 && chunk'.ChunkNumberY == chunk.ChunkNumberY
    ensures FalloffIndexAsWritten(mapSize, chunk', x, y) == FalloffIndexAsWritten(mapSize, chunk, x + MapArraySize, y) + 3
  {
  }

  /**
   * An instance: in a world of 2 x 2 chunks, chunks (0, 0) and (1, 0) both draw vertex 257 of the first, 1
   * of the second, at one position with one noise value, but add 0.96 and 0.98 of falloff to it.
   */
  lemma FalloffSeamExample(worldMap: seq<real>)
    requires |worldMap| == FalloffSide(2) * FalloffSide(2)
    requires forall x, y | 0 <= x < FalloffSide(2) && 0 <= y < FalloffSide(2) ::
      x + y * FalloffSide(2) < |worldMap| && worldMap[x + y * FalloffSide(2)] == FalloffValue(2, None, x, y)
    ensures FalloffIndexAsWritten(2, ChunkProperties(0, 0, None), 257, 258) == 257 + 258 * FalloffSide(2)
    ensures FalloffIndexAsWritten(2, ChunkProperties(1, 0, None), 1, 258) == 260 + 258 * FalloffSide(2)
    ensures worldMap[257 + 258 * FalloffSide(2)] == 0.96 && worldMap[260 + 258 * FalloffSide(2)] == 0.98
  {
    assert worldMap[257 + 258 * FalloffSide(2)] == FalloffValue(2, None, 257, 258);
    assert worldMap[260 + 258 * FalloffSide(2)] == FalloffValue(2, None, 260, 258);
  }

  /**
   * The falloff entry under vertex (x, y) of the chunk, with the chunk's block starting MapArraySize
   * columns (and rows) after the previous chunk's, the stride of the noise and of the vertex positions.
   */
  function FalloffIndex(mapSize: nat, chunk: ChunkProperties, x: int, y: int): int {
    x + chunk.ChunkNumberX * MapArraySize + (y + chunk.ChunkNumberY * MapArraySize) * FalloffSide(mapSize)
  }

  /** Neighbouring chunks read one falloff entry for each vertex they share. */
  lemma NeighboursShareFalloff(mapSize: nat, chunk: ChunkProperties, chunk': ChunkProperties, x: int, y: int)
    ensures chunk'.ChunkNumberX == chunk.ChunkNumberX + 1 && chunk'.ChunkNumberY == chunk.ChunkNumberY ==>
      FalloffIndex(mapSize, chunk', x, y) == FalloffIndex(mapSize, chunk, x + MapArraySize, y)
    ensures chunk'.ChunkNumberX == chunk.ChunkNumberX && chunk'.ChunkNumberY == chunk.ChunkNumberY + 1 ==>
      FalloffIndex(mapSize, chunk', x, y) == FalloffIndex(mapSize, chunk, x, y + MapArraySize)
  {
  }

  /** The chunk is one of the world's and the falloff map covers the world, as the world setup makes them. */
  predicate FalloffCovers(s: NoiseSettings, chunk: ChunkProperties, worldMap: seq<real>) {
    && 0 <= chunk.ChunkNumberX < s.MapSize
    && 0 <= chunk.ChunkNumberY < s.MapSize
    && |worldMap| == FalloffSide(s.MapSize) * FalloffSide(s.MapSize)
  }

  /** Every vertex of a chunk of the world reads an entry of the falloff map. */
  lemma FalloffIndexInRange(s: NoiseSettings, chunk: ChunkProperties, worldMap: seq<real>, x: int, y: int)
    requires FalloffCovers(s, chunk, worldMap)
    requires 0 <= x < NoiseArraySize && 0 <= y < NoiseArraySize
    ensures 0 <= FalloffIndex(s.MapSize, chunk, x, y) < |worldMap|
  {
    var side := FalloffSide(s.MapSize);
    MulMonotone(chunk.ChunkNumberX, s.MapSize - 1, MapArraySize);
    MulMonotone(chunk.ChunkNumberY, s.MapSize - 1, MapArraySize);
    assert 0 <= chunk.ChunkNumberX * MapArraySize && 0 <= chunk.ChunkNumberY * MapArraySize;
    RowMajorInRange(x + chunk.ChunkNumberX * MapArraySize, y + chunk.ChunkNumberY * MapArraySize, side);
  }

  /**
   * The price of the corrected stride: the chunks of the world read only columns and rows up to
   * MapArraySize * MapSize + 2 of the falloff map, so with two or more chunks a side the last
   * 3 * MapSize - 3 columns and rows, part of the far mountain band, are never read.
   */
  lemma CorrectedStrideLeavesFarBandUnread(s: NoiseSettings, chunk: ChunkProperties, worldMap: seq<real>, x: int, y: int)
    requires FalloffCovers(s, chunk, worldMap)
    requires 0 <= x < NoiseArraySize && 0 <= y < NoiseArraySize
    ensures var column, row := x + chunk.ChunkNumberX * MapArraySize, y + chunk.ChunkNumberY * MapArraySize;
      && FalloffIndex(s.MapSize, chunk, x, y) == column + row * FalloffSide(s.MapSize)
      && 0 <= column <= MapArraySize * s.MapSize + 2
      && 0 <= row <= MapArraySize * s.MapSize + 2
    ensures MapArraySize * s.MapSize + 2 < FalloffSide(s.MapSize) - 1 <==> s.MapSize >= 2
  {
    MulMonotone(chunk.ChunkNumberX, s.MapSize - 1, MapArraySize);
    MulMonotone(chunk.ChunkNumberY, s.MapSize - 1, MapArraySize);
  }

  /**
   * An instance: in a world of 2 x 2 chunks, the furthest entry of row 258 any chunk reads, column 514,
   * holds 0.96, while the map's edges on that row hold 1.0 (column 0) and 0.99 (column 517).
   */
  lemma CorrectedStrideFarBandExample(worldMap: seq<real>)
    requires |worldMap| == FalloffSide(2) * FalloffSide(2)
    requires forall x, y | 0 <= x < FalloffSide(2) && 0 <= y < FalloffSide(2) ::
      x + y * FalloffSide(2) < |worldMap| && worldMap[x + y * FalloffSide(2)] == FalloffValue(2, None, x, y)
    ensures FalloffIndex(2, ChunkProperties(1, 0, None), NoiseArraySize - 1, 258) == 514 + 258 * FalloffSide(2)
    ensures worldMap[514 + 258 * FalloffSide(2)] == 0.96
    ensures worldMap[258 * FalloffSide(2)] == 1.0 && worldMap[517 + 258 * FalloffSide(2)] == 0.99
  {
    assert worldMap[514 + 258 * FalloffSide(2)] == FalloffValue(2, None, 514, 258);
    assert worldMap[0 + 258 * FalloffSide(2)] == FalloffValue(2, None, 0, 258);
    assert worldMap[517 + 258 * FalloffSide(2)] == FalloffValue(2, None, 517, 258);
  }

  /** The height of vertex (x, y): the noise, plus the falloff when it is applied, through the height curve. */
  function VertexHeight(s: NoiseSettings, heightCurve: real -> real, noiseArray: seq<real>, worldMap: seq<real>,
                        chunk: ChunkProperties, x: int, y: int): real
    requires |noiseArray| == GridLength && 0 <= x < NoiseArraySize && 0 <= y < NoiseArraySize
    requires s.ApplyFalloffMap ==> FalloffCovers(s, chunk, worldMap)
  {
    if s.ApplyFalloffMap then
      FalloffIndexInRange(s, chunk, worldMap, x, y);
      HeightMultiplier * heightCurve(noiseArray[x + y * NoiseArraySize] + worldMap[FalloffIndex(s.MapSize, chunk, x, y)])
    else
      HeightMultiplier * heightCurve(noiseArray[x + y * NoiseArraySize])
  }

  /** Vertex (x, y) of the chunk, one vertex spacing per column, the first column one spacing before the start. */
  function ChunkVertex(s: NoiseSettings, heightCurve: real -> real, noiseArray: seq<real>, worldMap: seq<real>,
                       chunk: ChunkProperties, x: int, y: int): Vector
    requires |noiseArray| == GridLength && 0 <= x < NoiseArraySize && 0 <= y < NoiseArraySize
    requires s.ApplyFalloffMap ==> FalloffCovers(s, chunk, worldMap)
  {
    Vector(StartingPosition(chunk.ChunkNumberX) + VertexSize * (x - 1) as real,
           StartingPosition(chunk.ChunkNumberY) + VertexSize * (y - 1) as real,
           VertexHeight(s, heightCurve, noiseArray, worldMap, chunk, x, y))
  }

  /** The chunk's vertex grid before erosion, entry by entry. */
  function ChunkGrid(s: NoiseSettings, heightCurve: real -> real, noiseArray: seq<real>, worldMap: seq<real>,
                     chunk: ChunkProperties): (r: seq<Vector>)
    requires |noiseArray| == GridLength
    requires s.ApplyFalloffMap ==> FalloffCovers(s, chunk, worldMap)
    ensures |r| == GridLength
  {
    seq(GridLength, i requires 0 <= i < GridLength =>
      ChunkVertex(s, heightCurve, noiseArray, worldMap, chunk, i % NoiseArraySize, i / NoiseArraySize))
  }

  /** The vertex loop of GenerateTerrain: one vertex per noise value, appended row by row. */
  method BuildVertices(s: NoiseSettings, heightCurve: real -> real, noiseArray: seq<real>, worldMap: seq<real>,
                       chunk: ChunkProperties) returns (vertices: seq<Vector>)
    requires |noiseArray| == GridLength
    requires s.ApplyFalloffMap ==> FalloffCovers(s, chunk, worldMap)
    ensures vertices == ChunkGrid(s, heightCurve, noiseArray, worldMap, chunk)
  {
    var startingPositionX := StartingPosition(chunk.ChunkNumberX);
    var startingPositionY := StartingPosition(chunk.ChunkNumberY);
    vertices := [];
    var y := 0;
    while y < NoiseArraySize
      invariant 0 <= y <= NoiseArraySize && |vertices| == y * NoiseArraySize
      invariant forall k | 0 <= k < |vertices| ::
        vertices[k] == ChunkVertex(s, heightCurve, noiseArray, worldMap, chunk, k % NoiseArraySize, k / NoiseArraySize)
    {
      var x := 0;
      while x < NoiseArraySize
        invariant 0 <= x <= NoiseArraySize && |vertices| == y * NoiseArraySize + x
        invariant forall k | 0 <= k < |vertices| ::
          vertices[k] == ChunkVertex(s, heightCurve, noiseArray, worldMap, chunk, k % NoiseArraySize, k / NoiseArraySize)
      {
        AppendedAt(x, y, NoiseArraySize);
        RowMajorInRange(x, y, NoiseArraySize);
        var height;
        if s.ApplyFalloffMap {
          FalloffIndexInRange(s, chunk, worldMap, x, y);
          height := HeightMultiplier * heightCurve(noiseArray[x + y * NoiseArraySize] + worldMap[FalloffIndex(s.MapSize, chunk, x, y)]);
        } else {
          height := HeightMultiplier * heightCurve(noiseArray[x + y * NoiseArraySize]);
        }
        assert height == VertexHeight(s, heightCurve, noiseArray, worldMap, chunk, x, y);
        vertices := vertices + [Vector(startingPositionX + VertexSize * (x - 1) as real,
                                       startingPositionY + VertexSize * (y - 1) as real, height)];
        x := x + 1;
      }
      NextRow(y, NoiseArraySize);
      y := y + 1;
    }
  }

  /** Neighbouring vertices of a chunk are one vertex spacing apart in X, and the first kept column sits at the start. */
  lemma VertexSpacing(s: NoiseSettings, heightCurve: real -> real, noiseArray: seq<real>, worldMap: seq<real>,
                      chunk: ChunkProperties, x: int, y: int)
    requires |noiseArray| == GridLength && 0 <= x < NoiseArraySize - 1 && 0 <= y < NoiseArraySize
    requires s.ApplyFalloffMap ==> FalloffCovers(s, chunk, worldMap)
    ensures ChunkVertex(s, heightCurve, noiseArray, worldMap, chunk, x + 1, y).X
            == ChunkVertex(s, heightCurve, noiseArray, worldMap, chunk, x, y).X + VertexSize
    ensures ChunkVertex(s, heightCurve, noiseArray, worldMap, chunk, 1, y).X == StartingPosition(chunk.ChunkNumberX)
  {
  }

  // ---------------------------------------------------------------- triangles

  /** The two triangles of mesh square (x, y), as indices into the kept vertices. */
  function CellTriangles(x: int, y: int): seq<int> {
    var topLeft := x + y * MeshSize;
    var bottomLeft := x + (y + 1) * MeshSize;
    var topRight := x + 1 + y * MeshSize;
    var bottomRight := x + 1 + (y + 1) * MeshSize;
    [topLeft, bottomLeft, topRight, topRight, bottomLeft, bottomRight]
  }

  /** The triangle list: six indices per square of the chunk, square by square in row-major order. */
  function MeshTriangles(): seq<int> {
    seq(6 * (MapArraySize * MapArraySize), j requires 0 <= j < 6 * (MapArraySize * MapArraySize) =>
      CellTriangles((j / 6) % MapArraySize, (j / 6) / MapArraySize)[j % 6])
  }

  /** Entry j of a list of six-index groups is entry j % 6 of group j / 6. */
  lemma InGroupOfSix(c: int, r: int)
    requires 0 <= c && 0 <= r < 6
    ensures (6 * c + r) / 6 == c && (6 * c + r) % 6 == r
  {
  }

  /** The triangle loop of GenerateTerrain. */
  method BuildTriangles() returns (triangles: seq<int>)
    ensures triangles == MeshTriangles()
  {
    triangles := [];
    var y := 0;
    while y < MapArraySize
      invariant 0 <= y <= MapArraySize && |triangles| == 6 * (y * MapArraySize)
      invariant forall j | 0 <= j < |triangles| :: triangles[j] == CellTriangles((j / 6) % MapArraySize, (j / 6) / MapArraySize)[j % 6]
    {
      var x := 0;
      while x < MapArraySize
        invariant 0 <= x <= MapArraySize && |triangles| == 6 * (y * MapArraySize + x)
        invariant forall j | 0 <= j < |triangles| :: triangles[j] == CellTriangles((j / 6) % MapArraySize, (j / 6) / MapArraySize)[j % 6]
      {
        AppendedAt(x, y, MapArraySize);
        ghost var c := x + y * MapArraySize;
        InGroupOfSix(c, 0); InGroupOfSix(c, 1); InGroupOfSix(c, 2);
        InGroupOfSix(c, 3); InGroupOfSix(c, 4); InGroupOfSix(c, 5);
        var topLeft := x + y * (MapArraySize + 1);
        var bottomLeft := x + (y + 1) * (MapArraySize + 1);
        var topRight := x + 1 + y * (MapArraySize + 1);
        var bottomRight := x + 1 + (y + 1) * (MapArraySize + 1);
        triangles := triangles + [topLeft, bottomLeft, topRight, topRight, bottomLeft, bottomRight];
        x := x + 1;
      }
      NextRow(y, MapArraySize);
      y := y + 1;
    }
  }

  /** Square (x, y) owns entries 6 * (x + y * MapArraySize) to 6 * (x + y * MapArraySize) + 5 of the list. */
  lemma TrianglesOfSquare(x: int, y: int)
    requires 0 <= x < MapArraySize && 0 <= y < MapArraySize
    ensures 6 * (x + y * MapArraySize) + 6 <= |MeshTriangles()|
    ensures MeshTriangles()[6 * (x + y * MapArraySize) .. 6 * (x + y * MapArraySize) + 6] == CellTriangles(x, y)
  {
    var c := x + y * MapArraySize;
    AppendedAt(x, y, MapArraySize);
    RowMajorInRange(x, y, MapArraySize);
    forall r | 0 <= r < 6 ensures MeshTriangles()[6 * c + r] == CellTriangles(x, y)[r] {
      InGroupOfSix(c, r);
    }
  }

  /** Square (x, y) of the mesh is grid cell (x + 1, y + 1): its corners are that cell's four kept vertices. */
  lemma SquareCorners(x: int, y: int)
    requires 0 <= x < MapArraySize && 0 <= y < MapArraySize
    ensures CellTriangles(x, y) == [KeptIndex(x + 1, y + 1), KeptIndex(x + 1, y + 2), KeptIndex(x + 2, y + 1),
                                    KeptIndex(x + 2, y + 1), KeptIndex(x + 1, y + 2), KeptIndex(x + 2, y + 2)]
  {
  }

  /** Every index in the triangle list names one of the kept vertices. */
  lemma TrianglesIndexKeptVertices(j: int)
    requires 0 <= j < |MeshTriangles()|
    ensures 0 <= MeshTriangles()[j] < MeshSize * MeshSize
  {
    var c := j / 6;
    IndexCoordinates(c, MapArraySize);
    var x, y := c % MapArraySize, c / MapArraySize;
    RowMajorInRange(x + 1, y + 1, MeshSize);
  }

  // ---------------------------------------------------------------- smooth normals

  /** Cell (x, y) of the normal loop: the square whose top-left vertex is (x, y). */
  predicate IsCell(x: int, y: int) {
    0 <= x < EdgeArraySize && 0 <= y < EdgeArraySize
  }

  /** The four vertices a cell of the normal loop reads and writes lie in the chunk's grid. */
  lemma NormalLoopInRange(x: int, y: int)
    requires IsCell(x, y)
    ensures 0 <= x + y * NoiseArraySize && x + 1 + (y + 1) * NoiseArraySize < GridLength
  {
    MulMonotone(y + 1, NoiseArraySize - 1, NoiseArraySize);
  }

  /** The (unnormalised) face normal of the cell's first triangle, at X, X+1 and Y+1. */
  function FaceNormal1(vs: seq<Vector>, x: int, y: int): Vector
    requires |vs| == GridLength && IsCell(x, y)
  {
    var vertexX := vs[x + y * NoiseArraySize];
    Cross(Sub(vs[x + 1 + y * NoiseArraySize], vertexX), Sub(vs[x + (y + 1) * NoiseArraySize], vertexX))
  }

  /** The face normal of the cell's second triangle, at X+1, Y+1 and XY+1. */
  function FaceNormal2(vs: seq<Vector>, x: int, y: int): Vector
    requires |vs| == GridLength && IsCell(x, y)
  {
    var vertexYp1 := vs[x + (y + 1) * NoiseArraySize];
    Cross(Sub(vs[x + 1 + y * NoiseArraySize], vertexYp1), Sub(vs[x + 1 + (y + 1) * NoiseArraySize], vertexYp1))
  }

  /** What cell (x, y) adds to entry i of the normal array. */
  function CellAddition(vs: seq<Vector>, x: int, y: int, i: int): Vector
    requires |vs| == GridLength && IsCell(x, y)
  {
    if i == x + y * NoiseArraySize then FaceNormal1(vs, x, y)
    else if i == x + 1 + y * NoiseArraySize || i == x + (y + 1) * NoiseArraySize then
      Add(FaceNormal1(vs, x, y), FaceNormal2(vs, x, y))
    else if i == x + 1 + (y + 1) * NoiseArraySize then FaceNormal2(vs, x, y)
    else ZeroVector
  }

  /** What the faces of cell (x, y) add to the normal of vertex (vx, vy): the faces the vertex is a corner of. */
  function CellContribution(vs: seq<Vector>, x: int, y: int, vx: int, vy: int): Vector
    requires |vs| == GridLength && IsCell(x, y)
  {
    if vx == x && vy == y then FaceNormal1(vs, x, y)
    else if (vx == x + 1 && vy == y) || (vx == x && vy == y + 1) then Add(FaceNormal1(vs, x, y), FaceNormal2(vs, x, y))
    else if vx == x + 1 && vy == y + 1 then FaceNormal2(vs, x, y)
    else ZeroVector
  }

  /** The six writes of a cell land on the vertices the cell's two triangles touch. */
  lemma AdditionIsContribution(vs: seq<Vector>, x: int, y: int, i: int)
    requires |vs| == GridLength && IsCell(x, y) && 0 <= i < GridLength
    ensures CellAddition(vs, x, y, i) == CellContribution(vs, x, y, i % NoiseArraySize, i / NoiseArraySize)
  {
    IndexCoordinates(i, NoiseArraySize);
    RowMajor(i % NoiseArraySize, i / NoiseArraySize, NoiseArraySize);
    RowMajor(x, y, NoiseArraySize);
    RowMajor(x + 1, y, NoiseArraySize);
    RowMajor(x, y + 1, NoiseArraySize);
    RowMajor(x + 1, y + 1, NoiseArraySize);
  }

  /** The contribution of cell (x, y) to vertex (vx, vy) once the loop has done its first `done` cells. */
  function Processed(vs: seq<Vector>, x: int, y: int, vx: int, vy: int, done: int): Vector
    requires |vs| == GridLength
  {
    if IsCell(x, y) && x + y * EdgeArraySize < done then CellContribution(vs, x, y, vx, vy) else ZeroVector
  }

  /** The normal of vertex (vx, vy) after `done` cells: only the four cells around it can have added to it. */
  function NormalAfter(vs: seq<Vector>, vx: int, vy: int, done: int): Vector
    requires |vs| == GridLength
  {
    Add(Add(Add(Processed(vs, vx - 1, vy - 1, vx, vy, done), Processed(vs, vx, vy - 1, vx, vy, done)),
            Processed(vs, vx - 1, vy, vx, vy, done)),
        Processed(vs, vx, vy, vx, vy, done))
  }

  /**
   * The smooth normal of a vertex inside the border: the sum of the face normals of the six triangles
   * that have it as a corner.
   */
  function InteriorNormal(vs: seq<Vector>, vx: int, vy: int): Vector
    requires |vs| == GridLength && 1 <= vx < EdgeArraySize && 1 <= vy < EdgeArraySize
  {
    Add(Add(Add(FaceNormal2(vs, vx - 1, vy - 1), Add(FaceNormal1(vs, vx, vy - 1), FaceNormal2(vs, vx, vy - 1))),
            Add(FaceNormal1(vs, vx - 1, vy), FaceNormal2(vs, vx - 1, vy))),
        FaceNormal1(vs, vx, vy))
  }

  /** Before the loop no cell has contributed. */
  lemma NothingProcessed(vs: seq<Vector>, vx: int, vy: int)
    requires |vs| == GridLength
    ensures NormalAfter(vs, vx, vy, 0) == ZeroVector
  {
  }

  /** Doing cell (x, y) changes what candidate cell (cx, cy) has contributed only when the two are the same cell. */
  lemma ProcessedAfterCell(vs: seq<Vector>, cx: int, cy: int, x: int, y: int, vx: int, vy: int, done: int, done': int)
    requires |vs| == GridLength && IsCell(x, y)
    requires done == x + y * EdgeArraySize && done' == done + 1
    ensures cx == x && cy == y ==> Processed(vs, cx, cy, vx, vy, done') == CellContribution(vs, x, y, vx, vy)
    ensures cx == x && cy == y ==> Processed(vs, cx, cy, vx, vy, done) == ZeroVector
    ensures !(cx == x && cy == y) ==> Processed(vs, cx, cy, vx, vy, done') == Processed(vs, cx, cy, vx, vy, done)
  {
    RowMajor(x, y, EdgeArraySize);
    if IsCell(cx, cy) {
      RowMajor(cx, cy, EdgeArraySize);
    }
  }

  /** A cell that is none of the four around a vertex has none of its faces at that vertex. */
  lemma FarCellContributesNothing(vs: seq<Vector>, x: int, y: int, vx: int, vy: int)
    requires |vs| == GridLength && IsCell(x, y)
    requires !(x == vx - 1 && y == vy - 1) && !(x == vx && y == vy - 1) && !(x == vx - 1 && y == vy) && !(x == vx && y == vy)
    ensures CellContribution(vs, x, y, vx, vy) == ZeroVector
  {
  }

  /** Adding e to one of the four terms of a sum adds e to the sum. */
  lemma AddToTerm(a: Vector, b: Vector, c: Vector, d: Vector, a': Vector, b': Vector, c': Vector, d': Vector, e: Vector)
    requires (a' == Add(a, e) && b' == b && c' == c && d' == d) || (a' == a && b' == Add(b, e) && c' == c && d' == d)
          || (a' == a && b' == b && c' == Add(c, e) && d' == d) || (a' == a && b' == b && c' == c && d' == Add(d, e))
          || (a' == a && b' == b && c' == c && d' == d && e == ZeroVector)
    ensures Add(Add(Add(a', b'), c'), d') == Add(Add(Add(Add(a, b), c), d), e)
  {
  }

  /** Doing cell (x, y) adds that cell's contribution and leaves the others as they were. */
  lemma NormalAfterCell(vs: seq<Vector>, x: int, y: int, vx: int, vy: int, done: int, done': int)
    requires |vs| == GridLength && IsCell(x, y)
    requires done == x + y * EdgeArraySize && done' == done + 1
    ensures NormalAfter(vs, vx, vy, done') == Add(NormalAfter(vs, vx, vy, done), CellContribution(vs, x, y, vx, vy))
  {
    ProcessedAfterCell(vs, vx - 1, vy - 1, x, y, vx, vy, done, done');
    ProcessedAfterCell(vs, vx, vy - 1, x, y, vx, vy, done, done');
    ProcessedAfterCell(vs, vx - 1, vy, x, y, vx, vy, done, done');
    ProcessedAfterCell(vs, vx, vy, x, y, vx, vy, done, done');
    if !(x == vx - 1 && y == vy - 1) && !(x == vx && y == vy - 1) && !(x == vx - 1 && y == vy) && !(x == vx && y == vy) {
      FarCellContributesNothing(vs, x, y, vx, vy);
    }
    AddToTerm(Processed(vs, vx - 1, vy - 1, vx, vy, done), Processed(vs, vx, vy - 1, vx, vy, done),
              Processed(vs, vx - 1, vy, vx, vy, done), Processed(vs, vx, vy, vx, vy, done),
              Processed(vs, vx - 1, vy - 1, vx, vy, done'), Processed(vs, vx, vy - 1, vx, vy, done'),
              Processed(vs, vx - 1, vy, vx, vy, done'), Processed(vs, vx, vy, vx, vy, done'),
              CellContribution(vs, x, y, vx, vy));
  }

  /**
   * A vertex inside the border is complete once its own cell is done, which is when the loop copies it:
   * the three other cells around it come earlier in row-major order.
   */
  lemma NormalCompleteAtOwnCell(vs: seq<Vector>, x: int, y: int, done': int)
    requires |vs| == GridLength && 1 <= x < EdgeArraySize && 1 <= y < EdgeArraySize
    requires done' == x + y * EdgeArraySize + 1
    ensures NormalAfter(vs, x, y, done') == InteriorNormal(vs, x, y)
  {
  }

  /** After the six writes of cell (x, y) every vertex's normal holds one more cell's contribution. */
  lemma AccumulatedNormals(vs: seq<Vector>, before: seq<Vector>, after: seq<Vector>, x: int, y: int, done: int, done': int)
    requires |vs| == GridLength && IsCell(x, y) && |before| == GridLength && |after| == GridLength
    requires done == x + y * EdgeArraySize && done' == done + 1
    requires forall i | 0 <= i < GridLength :: before[i] == NormalAfter(vs, i % NoiseArraySize, i / NoiseArraySize, done)
    requires forall i | 0 <= i < GridLength :: after[i] == Add(before[i], CellAddition(vs, x, y, i))
    ensures forall i | 0 <= i < GridLength :: after[i] == NormalAfter(vs, i % NoiseArraySize, i / NoiseArraySize, done')
  {
    forall i | 0 <= i < GridLength ensures after[i] == NormalAfter(vs, i % NoiseArraySize, i / NoiseArraySize, done') {
      AdditionIsContribution(vs, x, y, i);
      NormalAfterCell(vs, x, y, i % NoiseArraySize, i / NoiseArraySize, done, done');
    }
  }

  /** The six += lines of cell (x, y) of the normal loop. */
  method AccumulateCell(normals: seq<Vector>, vs: seq<Vector>, x: int, y: int) returns (normals': seq<Vector>)
    requires |normals| == GridLength && |vs| == GridLength && IsCell(x, y)
    ensures |normals'| == GridLength
    ensures forall i | 0 <= i < GridLength :: normals'[i] == Add(normals[i], CellAddition(vs, x, y, i))
  {
    var vertexX := vs[x + y * NoiseArraySize];
    var vertexXp1 := vs[x + 1 + y * NoiseArraySize];
    var vertexYp1 := vs[x + (y + 1) * NoiseArraySize];
    var vertexXYp1 := vs[x + 1 + (y + 1) * NoiseArraySize];
    var crossProduct1 := Cross(Sub(vertexXp1, vertexX), Sub(vertexYp1, vertexX));
    var crossProduct2 := Cross(Sub(vertexXp1, vertexYp1), Sub(vertexXYp1, vertexYp1));
    assert crossProduct1 == FaceNormal1(vs, x, y) && crossProduct2 == FaceNormal2(vs, x, y);
    normals' := normals;
    normals' := normals'[x + y * NoiseArraySize := Add(normals'[x + y * NoiseArraySize], crossProduct1)];
    normals' := normals'[x + 1 + y * NoiseArraySize := Add(normals'[x + 1 + y * NoiseArraySize], crossProduct1)];
    normals' := normals'[x + (y + 1) * NoiseArraySize := Add(normals'[x + (y + 1) * NoiseArraySize], crossProduct1)];
    normals' := normals'[x + 1 + y * NoiseArraySize := Add(normals'[x + 1 + y * NoiseArraySize], crossProduct2)];
    normals' := normals'[x + (y + 1) * NoiseArraySize := Add(normals'[x + (y + 1) * NoiseArraySize], crossProduct2)];
    normals' := normals'[x + 1 + (y + 1) * NoiseArraySize := Add(normals'[x + 1 + (y + 1) * NoiseArraySize], crossProduct2)];
  }

  // ---------------------------------------------------------------- the mesh sections

  /** Where kept vertex (x, y) goes in the mesh arrays: the grid without its first row and column. */
  function KeptIndex(x: int, y: int): int {
    (x - 1) + (y - 1) * MeshSize
  }

  /** How many vertices the filter has kept before cell (x, y). */
  function KeptCount(x: int, y: int): int {
    if y == 0 then 0 else (y - 1) * MeshSize + (if x == 0 then 0 else x - 1)
  }

  /** The texture coordinate of kept vertex (x, y): one unit per vertex. */
  function MeshUV(chunk: ChunkProperties, x: int, y: int): Vector2 {
    Vector2(UVStartingPosition(chunk.ChunkNumberX) + (x - 1) as real * 1.0,
            UVStartingPosition(chunk.ChunkNumberY) + (y - 1) as real * 1.0)
  }

  /** The water vertex under kept vertex (x, y): the same X and Y, at height zero. */
  function WaterVertex(chunk: ChunkProperties, x: int, y: int): Vector {
    Vector(StartingPosition(chunk.ChunkNumberX) + VertexSize * (x - 1) as real,
           StartingPosition(chunk.ChunkNumberY) + VertexSize * (y - 1) as real, 0.0)
  }

  /** The water surface is flat: all its normals point straight up. */
  const UpNormal := Vector(0.0, 0.0, 1.0)

  /** The five mesh arrays hold the entries for kept vertex (x, y). */
  predicate KeptEntry(vs: seq<Vector>, chunk: ChunkProperties, trueVertices: seq<Vector>, trueNormals: seq<Vector>,
                      uv: seq<Vector2>, waterVertices: seq<Vector>, waterNormals: seq<Vector>, x: int, y: int)
    requires |vs| == GridLength && 1 <= x < EdgeArraySize && 1 <= y < EdgeArraySize
  {
    var k := KeptIndex(x, y);
    && k < |trueVertices| && trueVertices[k] == vs[x + y * NoiseArraySize]
    && k < |trueNormals| && trueNormals[k] == InteriorNormal(vs, x, y)
    && k < |uv| && uv[k] == MeshUV(chunk, x, y)
    && k < |waterVertices| && waterVertices[k] == WaterVertex(chunk, x, y)
    && k < |waterNormals| && waterNormals[k] == UpNormal
  }

  /** Kept vertices are stored one per entry: different vertices have different places. */
  lemma KeptIndexInjective(x: int, y: int, x': int, y': int)
    requires 1 <= x < EdgeArraySize && 1 <= y < EdgeArraySize && 1 <= x' < EdgeArraySize && 1 <= y' < EdgeArraySize
    requires KeptIndex(x, y) == KeptIndex(x', y')
    ensures x == x' && y == y'
  {
    RowMajor(x - 1, y - 1, MeshSize);
    RowMajor(x' - 1, y' - 1, MeshSize);
  }

  /** Appending kept vertex (x, y) at its place keeps every entry stored so far and stores its own. */
  lemma KeepVertex(vs: seq<Vector>, chunk: ChunkProperties,
                   trueVertices: seq<Vector>, trueNormals: seq<Vector>, uv: seq<Vector2>, waterVertices: seq<Vector>, waterNormals: seq<Vector>,
                   trueVertices': seq<Vector>, trueNormals': seq<Vector>, uv': seq<Vector2>, waterVertices': seq<Vector>, waterNormals': seq<Vector>,
                   x: int, y: int)
    requires |vs| == GridLength && 1 <= x < EdgeArraySize && 1 <= y < EdgeArraySize
    requires |trueVertices| == |trueNormals| == |uv| == |waterVertices| == |waterNormals| == KeptIndex(x, y)
    requires forall xx, yy | 1 <= xx < EdgeArraySize && 1 <= yy < EdgeArraySize && KeptIndex(xx, yy) < |trueVertices| ::
      KeptEntry(vs, chunk, trueVertices, trueNormals, uv, waterVertices, waterNormals, xx, yy)
    requires trueVertices' == trueVertices + [vs[x + y * NoiseArraySize]]
    requires trueNormals' == trueNormals + [InteriorNormal(vs, x, y)]
    requires uv' == uv + [MeshUV(chunk, x, y)]
    requires waterVertices' == waterVertices + [WaterVertex(chunk, x, y)]
    requires waterNormals' == waterNormals + [UpNormal]
    ensures forall xx, yy | 1 <= xx < EdgeArraySize && 1 <= yy < EdgeArraySize && KeptIndex(xx, yy) < |trueVertices'| ::
      KeptEntry(vs, chunk, trueVertices', trueNormals', uv', waterVertices', waterNormals', xx, yy)
  {
    forall xx, yy | 1 <= xx < EdgeArraySize && 1 <= yy < EdgeArraySize && KeptIndex(xx, yy) < |trueVertices'|
      ensures KeptEntry(vs, chunk, trueVertices', trueNormals', uv', waterVertices', waterNormals', xx, yy)
    {
      if KeptIndex(xx, yy) == KeptIndex(x, y) {
        KeptIndexInjective(xx, yy, x, y);
      } else {
        assert KeptEntry(vs, chunk, trueVertices, trueNormals, uv, waterVertices, waterNormals, xx, yy);
      }
    }
  }

  /** The filter's test x * y > 0 keeps exactly the cells off the first row and the first column. */
  lemma ProductPositive(x: int, y: int)
    requires 0 <= x && 0 <= y
    ensures x * y > 0 <==> 1 <= x && 1 <= y
  {
    if 1 <= x && 1 <= y {
      MulMonotone(1, x, y);
    }
  }

  /**
   * The filter of the normal loop at cell (x, y): a cell off the first row and column appends its
   * top-left vertex, that vertex's normal, its water vertex, the upward water normal and its texture
   * coordinate.
   */
  method KeepCell(vs: seq<Vector>, chunk: ChunkProperties, normal: Vector,
                  trueVertices: seq<Vector>, trueNormals: seq<Vector>, uv: seq<Vector2>, waterVertices: seq<Vector>, waterNormals: seq<Vector>,
                  x: int, y: int)
    returns (trueVertices': seq<Vector>, trueNormals': seq<Vector>, uv': seq<Vector2>, waterVertices': seq<Vector>, waterNormals': seq<Vector>)
    requires |vs| == GridLength && IsCell(x, y)
    requires |trueVertices| == |trueNormals| == |uv| == |waterVertices| == |waterNormals| == KeptCount(x, y)
    requires 1 <= x && 1 <= y ==> normal == InteriorNormal(vs, x, y)
    requires forall xx, yy | 1 <= xx < EdgeArraySize && 1 <= yy < EdgeArraySize && KeptIndex(xx, yy) < |trueVertices| ::
      KeptEntry(vs, chunk, trueVertices, trueNormals, uv, waterVertices, waterNormals, xx, yy)
    ensures |trueVertices'| == |trueNormals'| == |uv'| == |waterVertices'| == |waterNormals'| == KeptCount(x + 1, y)
    ensures forall xx, yy | 1 <= xx < EdgeArraySize && 1 <= yy < EdgeArraySize && KeptIndex(xx, yy) < |trueVertices'| ::
      KeptEntry(vs, chunk, trueVertices', trueNormals', uv', waterVertices', waterNormals', xx, yy)
  {
    trueVertices', trueNormals', uv', waterVertices', waterNormals' := trueVertices, trueNormals, uv, waterVertices, waterNormals;
    ProductPositive(x, y);
    if x * y > 0 {
      waterVertices' := waterVertices + [Vector(StartingPosition(chunk.ChunkNumberX) + VertexSize * (x - 1) as real,
                                                StartingPosition(chunk.ChunkNumberY) + VertexSize * (y - 1) as real, 0.0)];
      waterNormals' := waterNormals + [Vector(0.0, 0.0, 1.0)];
      trueVertices' := trueVertices + [vs[x + y * NoiseArraySize]];
      trueNormals' := trueNormals + [normal];
      uv' := uv + [Vector2(UVStartingPosition(chunk.ChunkNumberX) + (x - 1) as real * 1.0,
                           UVStartingPosition(chunk.ChunkNumberY) + (y - 1) as real * 1.0)];
      KeepVertex(vs, chunk, trueVertices, trueNormals, uv, waterVertices, waterNormals,
                 trueVertices', trueNormals', uv', waterVertices', waterNormals', x, y);
    }
  }

  /**
   * The normal loop of GenerateTerrain: every cell adds its two face normals to its four corners, and
   * every cell off the first row and column copies its top-left vertex, that vertex's normal, texture
   * coordinate and water vertex into the mesh arrays.
   */
  method BuildSections(vs: seq<Vector>, chunk: ChunkProperties)
    returns (trueVertices: seq<Vector>, trueNormals: seq<Vector>, uv: seq<Vector2>, waterVertices: seq<Vector>,
             waterNormals: seq<Vector>)
    requires |vs| == GridLength
    ensures |trueVertices| == |trueNormals| == |uv| == |waterVertices| == |waterNormals| == MeshSize * MeshSize
    ensures forall x, y | 1 <= x < EdgeArraySize && 1 <= y < EdgeArraySize ::
      KeptEntry(vs, chunk, trueVertices, trueNormals, uv, waterVertices, waterNormals, x, y)
  {
    var normals := seq(GridLength, _ => ZeroVector);
    forall i | 0 <= i < GridLength ensures normals[i] == NormalAfter(vs, i % NoiseArraySize, i / NoiseArraySize, 0) {
      NothingProcessed(vs, i % NoiseArraySize, i / NoiseArraySize);
    }
    trueVertices, trueNormals, uv, waterVertices, waterNormals := [], [], [], [], [];
    ghost var done := 0;
    var y := 0;
    while y < EdgeArraySize
      invariant 0 <= y <= EdgeArraySize && done == y * EdgeArraySize && |normals| == GridLength
      invariant forall i | 0 <= i < GridLength :: normals[i] == NormalAfter(vs, i % NoiseArraySize, i / NoiseArraySize, done)
      invariant |trueVertices| == |trueNormals| == |uv| == |waterVertices| == |waterNormals| == KeptCount(0, y)
      invariant forall xx, yy | 1 <= xx < EdgeArraySize && 1 <= yy < EdgeArraySize && KeptIndex(xx, yy) < |trueVertices| ::
        KeptEntry(vs, chunk, trueVertices, trueNormals, uv, waterVertices, waterNormals, xx, yy)
    {
      var x := 0;
      while x < EdgeArraySize
        invariant 0 <= x <= EdgeArraySize && done == x + y * EdgeArraySize && |normals| == GridLength
        invariant forall i | 0 <= i < GridLength :: normals[i] == NormalAfter(vs, i % NoiseArraySize, i / NoiseArraySize, done)
        invariant |trueVertices| == |trueNormals| == |uv| == |waterVertices| == |waterNormals| == KeptCount(x, y)
        invariant forall xx, yy | 1 <= xx < EdgeArraySize && 1 <= yy < EdgeArraySize && KeptIndex(xx, yy) < |trueVertices| ::
          KeptEntry(vs, chunk, trueVertices, trueNormals, uv, waterVertices, waterNormals, xx, yy)
      {
        ghost var done', before := done + 1, normals;
        normals := AccumulateCell(normals, vs, x, y);
        AccumulatedNormals(vs, before, normals, x, y, done, done');
        RowMajorInRange(x, y, NoiseArraySize);
        RowMajor(x, y, NoiseArraySize);
        if 1 <= x && 1 <= y {
          NormalCompleteAtOwnCell(vs, x, y, done');
        }
        trueVertices, trueNormals, uv, waterVertices, waterNormals :=
          KeepCell(vs, chunk, normals[x + y * NoiseArraySize], trueVertices, trueNormals, uv, waterVertices, waterNormals, x, y);
        x := x + 1;
        done := done';
      }
      y := y + 1;
    }
  }

  // ---------------------------------------------------------------- the chunk, read back

  /** The chunk's noise array, entry by entry. */
  function ChunkNoise(s: NoiseSettings, noise: (real, real) -> real, chunk: ChunkProperties): (r: seq<real>)
    ensures |r| == GridLength
  {
    seq(GridLength, i requires 0 <= i < GridLength =>
      NoiseValue(s, noise, ChunkOffset(chunk.ChunkNumberX), ChunkOffset(chunk.ChunkNumberY), i % NoiseArraySize, i / NoiseArraySize))
  }

  /** The vertex grid after the erosion step, which runs only when bApplyErosion is set. */
  function Eroded(s: NoiseSettings, cfg: Settings, sqrt: real -> real, spawns: seq<SpawnPoint>, vs: seq<Vector>): (r: seq<Vector>)
    requires |vs| == GridLength
    requires s.ApplyErosion ==> Droplet.Runnable(cfg, sqrt) && Droplet.AllInRange(cfg, spawns)
    ensures |r| == GridLength
  {
    if s.ApplyErosion then Droplet.Simulated(cfg, sqrt, vs, spawns) else vs
  }

  /** The kept vertices: entry k is grid vertex (k % MeshSize + 1, k / MeshSize + 1). */
  function KeptVertices(vs: seq<Vector>): seq<Vector>
    requires |vs| == GridLength
  {
    seq(MeshSize * MeshSize, k requires 0 <= k < MeshSize * MeshSize =>
      vs[(k % MeshSize + 1) + (k / MeshSize + 1) * NoiseArraySize])
  }

  function KeptNormals(vs: seq<Vector>): seq<Vector>
    requires |vs| == GridLength
  {
    seq(MeshSize * MeshSize, k requires 0 <= k < MeshSize * MeshSize => InteriorNormal(vs, k % MeshSize + 1, k / MeshSize + 1))
  }

  function KeptUVs(chunk: ChunkProperties): seq<Vector2> {
    seq(MeshSize * MeshSize, k requires 0 <= k < MeshSize * MeshSize => MeshUV(chunk, k % MeshSize + 1, k / MeshSize + 1))
  }

  function WaterSurface(chunk: ChunkProperties): seq<Vector> {
    seq(MeshSize * MeshSize, k requires 0 <= k < MeshSize * MeshSize => WaterVertex(chunk, k % MeshSize + 1, k / MeshSize + 1))
  }

  /** The two mesh sections of a chunk whose eroded vertex grid is vs. */
  function ChunkSections(vs: seq<Vector>, chunk: ChunkProperties): TerrainSections
    requires |vs| == GridLength
  {
    TerrainSections(KeptVertices(vs), KeptNormals(vs), KeptUVs(chunk), WaterSurface(chunk),
                    seq(MeshSize * MeshSize, _ => UpNormal), MeshTriangles())
  }

  /** A grid in row-major order is the grid read entry by entry. */
  lemma NoiseDataIsChunkNoise(s: NoiseSettings, noise: (real, real) -> real, chunk: ChunkProperties, noiseData: seq<real>)
    requires |noiseData| == GridLength
    requires forall x, y | 0 <= x < NoiseArraySize && 0 <= y < NoiseArraySize ::
      noiseData[x + y * NoiseArraySize] == NoiseValue(s, noise, ChunkOffset(chunk.ChunkNumberX), ChunkOffset(chunk.ChunkNumberY), x, y)
    ensures noiseData == ChunkNoise(s, noise, chunk)
  {
    forall i | 0 <= i < GridLength ensures noiseData[i] == ChunkNoise(s, noise, chunk)[i] {
      IndexCoordinates(i, NoiseArraySize);
    }
  }

  /** The five arrays of the normal loop are the kept vertices, their normals, texture coordinates and water. */
  lemma SectionsLayout(vs: seq<Vector>, chunk: ChunkProperties, trueVertices: seq<Vector>, trueNormals: seq<Vector>,
                       uv: seq<Vector2>, waterVertices: seq<Vector>, waterNormals: seq<Vector>)
    requires |vs| == GridLength
    requires |trueVertices| == |trueNormals| == |uv| == |waterVertices| == |waterNormals| == MeshSize * MeshSize
    requires forall x, y | 1 <= x < EdgeArraySize && 1 <= y < EdgeArraySize ::
      KeptEntry(vs, chunk, trueVertices, trueNormals, uv, waterVertices, waterNormals, x, y)
    ensures trueVertices == KeptVertices(vs) && trueNormals == KeptNormals(vs) && uv == KeptUVs(chunk)
    ensures waterVertices == WaterSurface(chunk) && waterNormals == seq(MeshSize * MeshSize, _ => UpNormal)
  {
    forall k | 0 <= k < MeshSize * MeshSize
      ensures trueVertices[k] == KeptVertices(vs)[k] && trueNormals[k] == KeptNormals(vs)[k] && uv[k] == KeptUVs(chunk)[k]
      ensures waterVertices[k] == WaterSurface(chunk)[k] && waterNormals[k] == UpNormal
    {
      IndexCoordinates(k, MeshSize);
      assert KeptIndex(k % MeshSize + 1, k / MeshSize + 1) == k;
      assert KeptEntry(vs, chunk, trueVertices, trueNormals, uv, waterVertices, waterNormals, k % MeshSize + 1, k / MeshSize + 1);
    }
  }

  // ---------------------------------------------------------------- GenerateTerrain

  /** The erosion component is set up and the droplets' spawn points are drawn, one per iteration. */
  ghost predicate ErosionReady(sim: Erosion.ErosionSimulator, spawns: seq<SpawnPoint>)
    reads sim`ErosionIndicesMap, sim`ErosionWeightsMap
  {
    sim.TablesReady() && |spawns| == sim.Config.IterationNumber && Droplet.AllInRange(sim.Config, spawns)
  }

  /**
   * GenerateTerrain for one chunk: without a height curve nothing is built; otherwise the sections
   * are those of the chunk's grid, eroded when erosion is on.
   */
  method GenerateTerrain(s: NoiseSettings, noise: (real, real) -> real, worldMap: seq<real>, chunk: ChunkProperties,
                         sim: Erosion.ErosionSimulator, spawns: seq<SpawnPoint>) returns (sections: Option<TerrainSections>)
    requires s.ApplyFalloffMap ==> FalloffCovers(s, chunk, worldMap)
    requires s.ApplyErosion ==> ErosionReady(sim, spawns)
    modifies sim`IterationIndex, sim`DropletLifeIndex
    ensures chunk.HeightCurve.None? ==> sections == None
    ensures chunk.HeightCurve.Some? ==> sections == Some(ChunkSections(
      Eroded(s, sim.Config, sim.Sqrt, spawns, ChunkGrid(s, chunk.HeightCurve.value, ChunkNoise(s, noise, chunk), worldMap, chunk)), chunk))
    ensures s.ApplyErosion && chunk.HeightCurve.Some? ==> sim.IterationIndex == |spawns|
    ensures s.ApplyErosion && chunk.HeightCurve.Some? && |spawns| > 0 ==>
      sim.DropletLifeIndex == Droplet.RunDroplet(sim.Config, sim.Sqrt, Droplet.RunAll(sim.Config, sim.Sqrt,
        ChunkGrid(s, chunk.HeightCurve.value, ChunkNoise(s, noise, chunk), worldMap, chunk), spawns[..|spawns| - 1]),
        spawns[|spawns| - 1]).Steps
    ensures !(s.ApplyErosion && chunk.HeightCurve.Some?) ==> sim.IterationIndex == old(sim.IterationIndex)
    ensures !(s.ApplyErosion && chunk.HeightCurve.Some? && |spawns| > 0) ==> sim.DropletLifeIndex == old(sim.DropletLifeIndex)
  {
    var noiseArray := CreateNoiseData(s, noise, ChunkOffset(chunk.ChunkNumberX), ChunkOffset(chunk.ChunkNumberY));
    if chunk.HeightCurve.None? {
      return None;
    }
    NoiseDataIsChunkNoise(s, noise, chunk, noiseArray);
    var vertices := BuildVertices(s, chunk.HeightCurve.value, noiseArray, worldMap, chunk);
    if s.ApplyErosion {
      var heightMap := new Vector[GridLength](i requires 0 <= i < GridLength => vertices[i]);
      assert heightMap[..] == vertices;
      sim.SimulateErosion(heightMap, spawns);
      vertices := heightMap[..];
    }
    var trueVertices, trueNormals, uv, waterVertices, waterNormals := BuildSections(vertices, chunk);
    var triangles := BuildTriangles();
    SectionsLayout(vertices, chunk, trueVertices, trueNormals, uv, waterVertices, waterNormals);
    sections := Some(TerrainSections(trueVertices, trueNormals, uv, waterVertices, waterNormals, triangles));
  }

  // ---------------------------------------------------------------- properties of the chunk

  /** Vertex i of the grid lies on the chunk's regular grid of positions; only its height is free. */
  ghost predicate RegularFootprint(vs: seq<Vector>, chunk: ChunkProperties) {
    |vs| == GridLength &&
    forall i | 0 <= i < GridLength ::
      && vs[i].X == StartingPosition(chunk.ChunkNumberX) + VertexSize * (i % NoiseArraySize - 1) as real
      && vs[i].Y == StartingPosition(chunk.ChunkNumberY) + VertexSize * (i / NoiseArraySize - 1) as real
  }

  /** The Z component of the first face's normal: its edges run one spacing along X and one along Y. */
  lemma RisingCross1(a: Vector, b: Vector)
    requires a.X == VertexSize && a.Y == 0.0 && b.X == 0.0 && b.Y == VertexSize
    ensures Cross(a, b).Z == VertexSize * VertexSize
  {
  }

  /** The Z component of the second face's normal: its edges run along the diagonal and along X. */
  lemma RisingCross2(a: Vector, b: Vector)
    requires a.X == VertexSize && a.Y == -VertexSize && b.X == VertexSize && b.Y == 0.0
    ensures Cross(a, b).Z == VertexSize * VertexSize
  {
  }

  /** On the regular grid both faces of a cell rise: their normals have Z component VertexSize squared. */
  lemma FaceNormalsRise(vs: seq<Vector>, chunk: ChunkProperties, x: int, y: int)
    requires RegularFootprint(vs, chunk) && IsCell(x, y)
    ensures FaceNormal1(vs, x, y).Z == VertexSize * VertexSize && FaceNormal2(vs, x, y).Z == VertexSize * VertexSize
  {
    var i, ix, iy, ixy := x + y * NoiseArraySize, x + 1 + y * NoiseArraySize, x + (y + 1) * NoiseArraySize, x + 1 + (y + 1) * NoiseArraySize;
    RowMajor(x, y, NoiseArraySize);
    RowMajor(x + 1, y, NoiseArraySize);
    RowMajor(x, y + 1, NoiseArraySize);
    RowMajor(x + 1, y + 1, NoiseArraySize);
    RowMajorInRange(x + 1, y + 1, NoiseArraySize);
    assert vs[ix].X == vs[i].X + VertexSize && vs[ix].Y == vs[i].Y;
    assert vs[iy].X == vs[i].X && vs[iy].Y == vs[i].Y + VertexSize;
    assert vs[ixy].X == vs[iy].X + VertexSize && vs[ixy].Y == vs[iy].Y;
    RisingCross1(Sub(vs[ix], vs[i]), Sub(vs[iy], vs[i]));
    RisingCross2(Sub(vs[ix], vs[iy]), Sub(vs[ixy], vs[iy]));
  }

  /** Whatever the heights, every smooth normal of the mesh points up: its Z is six faces' VertexSize squared. */
  lemma InteriorNormalRises(vs: seq<Vector>, chunk: ChunkProperties, x: int, y: int)
    requires RegularFootprint(vs, chunk) && 1 <= x < EdgeArraySize && 1 <= y < EdgeArraySize
    ensures InteriorNormal(vs, x, y).Z == 6.0 * VertexSize * VertexSize
  {
    FaceNormalsRise(vs, chunk, x - 1, y - 1);
    FaceNormalsRise(vs, chunk, x, y - 1);
    FaceNormalsRise(vs, chunk, x - 1, y);
    FaceNormalsRise(vs, chunk, x, y);
  }

  /** The vertex loop puts every vertex on the chunk's regular grid. */
  lemma ChunkGridIsRegular(s: NoiseSettings, heightCurve: real -> real, noiseArray: seq<real>, worldMap: seq<real>,
                           chunk: ChunkProperties)
    requires |noiseArray| == GridLength
    requires s.ApplyFalloffMap ==> FalloffCovers(s, chunk, worldMap)
    ensures RegularFootprint(ChunkGrid(s, heightCurve, noiseArray, worldMap, chunk), chunk)
  {
  }

  /** Moving vertices only up and down keeps the grid regular. */
  lemma RegularFootprintKept(vs: seq<Vector>, vs': seq<Vector>, chunk: ChunkProperties)
    requires RegularFootprint(vs, chunk) && ErosionOperators.SameFootprint(vs, vs')
    ensures RegularFootprint(vs', chunk)
  {
  }

  /** On a regular grid every normal of the terrain section points up. */
  lemma KeptNormalsRise(vs: seq<Vector>, chunk: ChunkProperties, k: int)
    requires RegularFootprint(vs, chunk) && 0 <= k < MeshSize * MeshSize
    ensures KeptNormals(vs)[k].Z == 6.0 * VertexSize * VertexSize
  {
    IndexCoordinates(k, MeshSize);
    InteriorNormalRises(vs, chunk, k % MeshSize + 1, k / MeshSize + 1);
  }

  /** Erosion moves vertices only up and down, so the eroded grid is still regular. */
  lemma ErodedGridIsRegular(s: NoiseSettings, cfg: Settings, sqrt: real -> real, spawns: seq<SpawnPoint>, grid: seq<Vector>,
                            chunk: ChunkProperties)
    requires RegularFootprint(grid, chunk)
    requires s.ApplyErosion ==> Droplet.Runnable(cfg, sqrt) && Droplet.AllInRange(cfg, spawns)
    ensures RegularFootprint(Eroded(s, cfg, sqrt, spawns, grid), chunk)
  {
    if s.ApplyErosion {
      Droplet.SimulationKeepsFootprint(cfg, sqrt, grid, spawns);
      RegularFootprintKept(grid, Eroded(s, cfg, sqrt, spawns, grid), chunk);
    }
  }

  /**
   * Every normal of a chunk's terrain section points upwards: the grid is regular and erosion moves
   * vertices only up and down.
   */
  lemma TerrainNormalsPointUp(s: NoiseSettings, cfg: Settings, sqrt: real -> real, spawns: seq<SpawnPoint>,
                              heightCurve: real -> real, noiseArray: seq<real>, worldMap: seq<real>, chunk: ChunkProperties, k: int)
    requires |noiseArray| == GridLength
    requires s.ApplyFalloffMap ==> FalloffCovers(s, chunk, worldMap)
    requires s.ApplyErosion ==> Droplet.Runnable(cfg, sqrt) && Droplet.AllInRange(cfg, spawns)
    requires 0 <= k < MeshSize * MeshSize
    ensures KeptNormals(Eroded(s, cfg, sqrt, spawns, ChunkGrid(s, heightCurve, noiseArray, worldMap, chunk)))[k].Z
            == 6.0 * VertexSize * VertexSize
  {
    var grid := ChunkGrid(s, heightCurve, noiseArray, worldMap, chunk);
    ChunkGridIsRegular(s, heightCurve, noiseArray, worldMap, chunk);
    ErodedGridIsRegular(s, cfg, sqrt, spawns, grid, chunk);
    KeptNormalsRise(Eroded(s, cfg, sqrt, spawns, grid), chunk, k);
  }

  /** The right-hand neighbour starts MapArraySize vertex spacings further along. */
  lemma NeighbourStart(chunkNumber: int)
    ensures StartingPosition(chunkNumber) + VertexSize * MapArraySize as real == StartingPosition(chunkNumber + 1)
  {
  }

  /** The noise a chunk stores under a vertex it shares with its right-hand neighbour is the neighbour's. */
  lemma NeighbourNoise(s: NoiseSettings, noise: (real, real) -> real, chunk: ChunkProperties, chunk': ChunkProperties, x: int, y: int)
    requires chunk'.ChunkNumberX == chunk.ChunkNumberX + 1 && chunk'.ChunkNumberY == chunk.ChunkNumberY
    requires 0 <= x < NoiseArraySize - MapArraySize && 0 <= y < NoiseArraySize
    ensures x + MapArraySize + y * NoiseArraySize < GridLength && x + y * NoiseArraySize < GridLength
    ensures ChunkNoise(s, noise, chunk)[x + MapArraySize + y * NoiseArraySize] == ChunkNoise(s, noise, chunk')[x + y * NoiseArraySize]
  {
    RowMajor(x + MapArraySize, y, NoiseArraySize);
    RowMajor(x, y, NoiseArraySize);
    RowMajorInRange(x + MapArraySize, y, NoiseArraySize);
    RowMajorInRange(x, y, NoiseArraySize);
    NeighbouringChunksAgree(s, noise, chunk.ChunkNumberX, chunk.ChunkNumberY, x, y);
  }

  /**
   * Neighbouring chunks meet without a seam: the vertices a chunk shares with its right-hand
   * neighbour, its last three columns, are that neighbour's first three, at the same position and
   * the same height.
   */
  lemma NeighbouringChunksMeet(s: NoiseSettings, noise: (real, real) -> real, heightCurve: real -> real, worldMap: seq<real>,
                               chunk: ChunkProperties, chunk': ChunkProperties, x: int, y: int)
    requires chunk'.ChunkNumberX == chunk.ChunkNumberX + 1 && chunk'.ChunkNumberY == chunk.ChunkNumberY
    requires s.ApplyFalloffMap ==> FalloffCovers(s, chunk, worldMap) && FalloffCovers(s, chunk', worldMap)
    requires 0 <= x < NoiseArraySize - MapArraySize && 0 <= y < NoiseArraySize
    ensures ChunkVertex(s, heightCurve, ChunkNoise(s, noise, chunk), worldMap, chunk, x + MapArraySize, y)
         == ChunkVertex(s, heightCurve, ChunkNoise(s, noise, chunk'), worldMap, chunk', x, y)
  {
    NeighbourStart(chunk.ChunkNumberX);
    NeighbourNoise(s, noise, chunk, chunk', x, y);
    NeighboursShareFalloff(s.MapSize, chunk, chunk', x, y);
  }
}
