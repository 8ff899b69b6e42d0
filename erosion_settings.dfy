/**
 * Configuration of the erosion component: the editable settings with the clamp ranges the
 * editor enforces, the fixed grid size, the result type of the sampler and the droplet state.
 */
module ErosionSettings {

  /** The simulator works on a square grid of ErosionMapSize vertices a side. */
  const ErosionMapSize: int := 259

  /** Number of vertices of the grid, and the length of every height map handed to the simulator. */
  const VertexCount: int := ErosionMapSize * ErosionMapSize

  /**
   * The settings of the component. BorderSize, BlockBoundaryErosion, ApplyBlur and BaseWaterSpeed
   * are read by the simulator but are not declared with the others, so they carry no clamp range.
   * Gravity and VertexSize are declared but never read by the simulation.
   */
  datatype Settings = Settings(
    ErosionSeed: int,
    Inertia: real,
    Gravity: real,
    SedimentCapacityFactor: real,
    MinSedimentCapacity: real,
    ErosionRadius: int,
    ErosionSpeed: real,
    DepositionSpeed: real,
    EvaporationSpeed: real,
    DropletLifetime: int,
    IterationNumber: int,
    VertexSize: real,
    BorderSize: int,
    BlockBoundaryErosion: bool,
    ApplyBlur: bool,
    BaseWaterSpeed: real)
  {
    /** The ClampMin/ClampMax metadata of the editable settings. */
    predicate WithinClampRanges() {
      && 0.0 <= Inertia <= 1.0
      && 0.0 <= Gravity <= 10.0
      && 0.0 <= SedimentCapacityFactor <= 10.0
      && 0.0 <= MinSedimentCapacity <= 10.0
      && 2 <= ErosionRadius <= 10
      && 0.0 <= ErosionSpeed <= 1.0
      && 0.0 <= DepositionSpeed <= 1.0
      && 0.0 <= EvaporationSpeed <= 1.0
      && 1 <= DropletLifetime <= 100
      && 1 <= IterationNumber <= 1000000
    }
  }

  /** The defaults written in the class declaration, completed by the four undeclared settings. */
  function DefaultSettings(borderSize: int, blockBoundaryErosion: bool, applyBlur: bool, baseWaterSpeed: real): Settings {
    Settings(1337, 0.4, 4.0, 4.0, 0.01, 6, 0.9, 0.1, 0.1, 30, 70000, 100.0,
             borderSize, blockBoundaryErosion, applyBlur, baseWaterSpeed)
  }

  /** FGradientAndHeight: the sampler's result. */
  datatype GradientAndHeight = GradientAndHeight(GradientX: real, GradientY: real, Height: real)

  /** A spawn position drawn from the random stream, X first and Y second. */
  datatype SpawnPoint = SpawnPoint(X: real, Y: real)

  /** FRandRange(ErosionRadius, ErosionMapSize - ErosionRadius) on both axes. */
  predicate SpawnInRange(cfg: Settings, p: SpawnPoint) {
    var r := cfg.ErosionRadius as real;
    r <= p.X < ErosionMapSize as real - r && r <= p.Y < ErosionMapSize as real - r
  }

  /** The state of one droplet, local to one iteration of the simulation. */
  datatype DropletState = DropletState(
    PositionX: real, PositionY: real,
    DirectionX: real, DirectionY: real,
    Speed: real, Water: real, Sediment: real)

  /** The state a droplet starts from. */
  function Spawn(cfg: Settings, p: SpawnPoint): DropletState {
    DropletState(p.X, p.Y, 0.0, 0.0, cfg.BaseWaterSpeed, 1.0, 0.0)
  }
}
