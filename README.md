# ProceduralWorld erosion and terrain core in Dafny

This project models the hydraulic-erosion component `UErosionSimulator` of ProceduralWorld, an
Unreal Engine plugin that builds tileable terrain chunks. It also models the index loops of the
terrain actor `ANoiseGenerator`. The model proves properties of both. Floats are modelled as
reals. The noise library, the height curves and the square root are function parameters. The
random spawn positions are an input sequence.

Modules, in dependency order:

- `Wrappers` (`wrappers.dfy`): `Option`.
- `Grid` (`grid.dfy`): `FVector` / `FVector2D` as `Vector` / `Vector2`, vector sum, difference and
  cross product, the sum of heights `SumZ`, and row-major index arithmetic.
- `ErosionSettings` (`erosion_settings.dfy`): the settings of the component with their editor
  clamp ranges, the fixed grid side `ErosionMapSize` = 259, `FGradientAndHeight`, a spawn point and
  the droplet state.
- `ErosionSampler` (`erosion_sampler.dfy`): `CalculateGradientAndHeight` (ErosionSimulator.cpp:103-127),
  bilinear sampling of the cell that holds a position.
- `ErosionKernel` (`erosion_kernel.dfy`): the erosion kernel of a vertex. These are the taps within
  the radius, clipped to the grid, with non-zero weight, gathered row by row and normalised.
- `ErosionOperators` (`erosion_operators.dfy`): deposit, erosion and box blur as functions on
  height sequences: `Deposited`, `Eroded` and `Blurred`.
- `Droplet` (`droplet.dfy`): the new heading `Descend` (ErosionSimulator.cpp:196-206), one pass of
  a droplet `Step`, a droplet's run `Run` and `RunDroplet`, all droplets in spawn order `RunAll`,
  and the whole simulation with the final blur `Simulated`.
- `Erosion` (`erosion_simulator.dfy`): the class `ErosionSimulator`. Its fields are the two kernel
  tables and the two loop indices. Its methods work in place on an `array<Vector>` and are each
  proved equal to the value-level model.
- `NoiseGenerator` (`noise_generator.dfy`): chunk geometry, `CreateNoiseData` with the value
  `NoiseValue` of each sample, and `CreateFalloffMap` with the value `FalloffValue` of each cell.
- `TerrainMesh` (`terrain_mesh.dfy`): `GenerateTerrain`. It covers the vertex loop, the call into
  the erosion simulator, the smooth-normal loop with its `x * y > 0` filter, and the triangle loop.
  The value-level definitions are `FalloffIndex` (the falloff entry under a vertex), `ChunkGrid`
  (the vertex array), `InteriorNormal` (a vertex's summed normal) and `MeshTriangles` (the triangle
  list).

Four behaviours of the code that the model keeps as written:

- The border band is not excluded when the kernel is built. It is skipped only when
  `ErodeTerrain` writes (ErosionSimulator.cpp:155-159).
- Deposits are never masked (ErosionSimulator.cpp:138-141). The model therefore does not claim
  that band vertices never change. It proves which vertices each operator touches.
- The speed update is the proportional form (ErosionSimulator.cpp:229). Gravity is never read.
- The falloff map is read at a chunk stride the code got wrong. See "## Findings".

## Model

| member | source | states |
|---|---|---|
| NoiseGenerator.SimulatorGridIsChunkGrid | Source/ProceduralWorld/Public/NoiseGenerator.h:89-94 | the simulator's 259-vertex grid is exactly the chunk's NoiseArraySize grid, so the Vertices array it erodes has VertexCount entries; and the centring offset HalfNoiseArraySize of CreateNoiseData (NoiseGenerator.cpp:71) is the integer half 129 |
| ErosionSampler.CellCornersInGrid | Source/ProceduralWorld/Private/ErosionSimulator.cpp:107-118 | for a sampleable position the four corner reads c, c+1, c+S, c+S+1 of its cell are inside the grid |
| ErosionSampler.SamplerReadsOnlyCellCorners | Source/ProceduralWorld/Private/ErosionSimulator.cpp:113-124 | two maps that agree on the Z of the four corners give the same gradient and height: nothing else is read |
| ErosionSampler.SamplerOnFlatGrid | Source/ProceduralWorld/Private/ErosionSimulator.cpp:120-124 | on a constant grid both gradients are 0 and the height is the constant |
| ErosionSampler.BilinearOfConstant | Source/ProceduralWorld/Private/ErosionSimulator.cpp:120-124 | four equal corner heights give zero gradient and that height, for any offsets |
| ErosionSampler.BilinearWeightsSumToOne | Source/ProceduralWorld/Private/ErosionSimulator.cpp:123-124 | the four bilinear weights sum to 1 |
| ErosionSampler.BilinearHeightBetweenCorners | Source/ProceduralWorld/Private/ErosionSimulator.cpp:123-124 | with offsets in [0,1] the interpolated height lies between the lowest and the highest corner |
| ErosionSampler.SampledHeightBetweenCorners | Source/ProceduralWorld/Private/ErosionSimulator.cpp:110-124 | the sampled height at any sampleable position lies between its cell's lowest and highest corner |
| ErosionSampler.SpawnIsSampleable | Source/ProceduralWorld/Private/ErosionSimulator.cpp:177-178 | for any positive radius R, every spawn in [R, S-R) on both axes can be sampled |
| ErosionSampler.SpawnRangeNonEmpty | Source/ProceduralWorld/Public/ErosionSimulator.h:79-80 | with ErosionRadius in [2,10] and S = 259 the spawn range is non-empty and inside the grid, and its lower corner is a spawn in range |
| ErosionKernel.RowTapsNext | Source/ProceduralWorld/Private/ErosionSimulator.cpp:38-51 | one more column of the inner kernel loop appends exactly that column's tap, if it has one |
| ErosionKernel.TapAtWithWeight | Source/ProceduralWorld/Private/ErosionSimulator.cpp:40-50 | a position yields a tap of its distance weight unless it is off the grid or its weight is 0 (the `continue` test) |
| ErosionKernel.WindowTapsNext | Source/ProceduralWorld/Private/ErosionSimulator.cpp:36-52 | one more row of the kernel loop appends the whole row's taps |
| ErosionKernel.KernelIndices | Source/ProceduralWorld/Private/ErosionSimulator.cpp:62 | every stored index x + y*S lies in [0, S*S) |
| ErosionKernel.KernelTapIndicesInGrid | Source/ProceduralWorld/Private/ErosionSimulator.cpp:45-62 | the index of every gathered tap is inside the grid |
| ErosionKernel.RowTapsSound | Source/ProceduralWorld/Private/ErosionSimulator.cpp:38-50 | every tap of a row lies in that row, left of the loop's column, and is a kept position within the radius with its distance weight |
| ErosionKernel.WindowTapsSound | Source/ProceduralWorld/Private/ErosionSimulator.cpp:36-52 | every tap gathered so far lies above the loop's row and is a kept position within the radius with its distance weight |
| ErosionKernel.RowTapsComplete | Source/ProceduralWorld/Private/ErosionSimulator.cpp:38-50 | every kept position already passed in the row is among the row's taps |
| ErosionKernel.WindowTapsComplete | Source/ProceduralWorld/Private/ErosionSimulator.cpp:36-52 | every kept position of the rows already passed is among the taps |
| ErosionKernel.KernelTapsSound | Source/ProceduralWorld/Private/ErosionSimulator.cpp:29-52 | every tap of vertex i's kernel is a kept position within R of i's column and row |
| ErosionKernel.KernelTapsComplete | Source/ProceduralWorld/Private/ErosionSimulator.cpp:29-52 | every kept position within R, on both axes, of the centre (cx, cy) is a tap of the kernel of vertex cx + cy*S, carrying its distance weight |
| ErosionKernel.KernelTapsAt | Source/ProceduralWorld/Private/ErosionSimulator.cpp:29-38 | the kernel of vertex cx + cy*S is the whole window of rows cy - R .. cy + R around (cx, cy) |
| ErosionKernel.GatherColumn | Source/ProceduralWorld/Private/ErosionSimulator.cpp:40-50 | one column of the gathering loop: a skipped position leaves the taps of the row unchanged, a kept one appends its tap and adds its weight to the weight sum |
| ErosionKernel.KernelContainsCentre | Source/ProceduralWorld/Private/ErosionSimulator.cpp:40-50 | the centre is a tap of weight 1, so the weighted sum is at least 1 and the division is safe |
| ErosionKernel.SumWithUnitTap | Source/ProceduralWorld/Private/ErosionSimulator.cpp:40-50 | kernel taps, all of positive weight, one of which has weight 1, have a weight sum of at least 1 |
| ErosionKernel.KernelIndicesInGrid | Source/ProceduralWorld/Private/ErosionSimulator.cpp:36-62 | every stored index is in [0, S*S) and its column and row are each within R of vertex i's |
| ErosionKernel.KernelIndicesContainCentre | Source/ProceduralWorld/Private/ErosionSimulator.cpp:54-62 | vertex i is among its own kernel indices |
| ErosionKernel.KernelWeightsNormalised | Source/ProceduralWorld/Private/ErosionSimulator.cpp:54-63 | a non-empty entry with one weight per index, every weight > 0, and the weights sum to 1 |
| ErosionOperators.RaiseCornersInOrder | Source/ProceduralWorld/Private/ErosionSimulator.cpp:138-141 | raising the four corners is the source's four writes of amount*0.25, in order |
| ErosionOperators.DepositedTouchesOnlyCorners | Source/ProceduralWorld/Private/ErosionSimulator.cpp:133-141 | a deposit changes only Z, leaves every non-corner entry unchanged, and raises each corner by a quarter of the sediment the droplet lost |
| ErosionOperators.DepositedConservesMass | Source/ProceduralWorld/Private/ErosionSimulator.cpp:133-141 | the height added equals the sediment removed |
| ErosionOperators.RaiseCornersSum | Source/ProceduralWorld/Private/ErosionSimulator.cpp:138-141 | the four quarter raises add exactly the amount to the total height |
| ErosionOperators.DepositAmountBounds | Source/ProceduralWorld/Private/ErosionSimulator.cpp:133-136 | when a deposit happens, its amount lies in [0, Sediment], and uphill it is at most HeightDelta, so sediment stays non-negative |
| ErosionOperators.ErosionAmountBounds | Source/ProceduralWorld/Private/ErosionSimulator.cpp:148 | the erosion amount is at least 0, at most -HeightDelta downhill, and when positive at most (capacity - sediment) * ErosionSpeed |
| ErosionOperators.ErodeTaps | Source/ProceduralWorld/Private/ErosionSimulator.cpp:151-166 | the erosion loop keeps the map's length |
| ErosionOperators.ErodeTapsNext | Source/ProceduralWorld/Private/ErosionSimulator.cpp:151-166 | one more tap is skipped when it lies in the blocked border band; otherwise it lowers that vertex by amount*weight and adds that much sediment |
| ErosionOperators.ErodeTapsConservesMass | Source/ProceduralWorld/Private/ErosionSimulator.cpp:160-165 | the height removed equals the sediment gained |
| ErosionOperators.ErodeTapsTouchesOnlyKernel | Source/ProceduralWorld/Private/ErosionSimulator.cpp:151-164 | only Z changes, and only at kernel vertices; a skipped band vertex is unchanged |
| ErosionOperators.ErodeTapsNeverRaises | Source/ProceduralWorld/Private/ErosionSimulator.cpp:161-164 | with a non-negative amount and weights, no vertex gets higher |
| ErosionOperators.ErodeTapsGainBounds | Source/ProceduralWorld/Private/ErosionSimulator.cpp:161-165 | the sediment gained lies between 0 and amount times the sum of the weights used |
| ErosionOperators.ErodeTapsGainUnblocked | Source/ProceduralWorld/Private/ErosionSimulator.cpp:155-165 | without boundary blocking the gain is exactly amount times the sum of the weights |
| ErosionOperators.ErodedGainsAmount | Source/ProceduralWorld/Private/ErosionSimulator.cpp:148-166 | without blocking, and with normalised weights, the droplet gains exactly the erosion amount |
| ErosionOperators.BlurredIsWindowMean | Source/ProceduralWorld/Private/ErosionSimulator.cpp:76-98 | each blurred height is the mean of the 3x3 window of the frozen copy, where an off-grid neighbour counts as the centre |
| ErosionOperators.BlurRowOfThree | Source/ProceduralWorld/Private/ErosionSimulator.cpp:87-96 | a row of the blur window sums its three taps |
| ErosionOperators.BlurInterior | Source/ProceduralWorld/Private/ErosionSimulator.cpp:85-98 | away from the edge the blurred height is the mean of the nine neighbours |
| ErosionOperators.BlurStaysInRange | Source/ProceduralWorld/Private/ErosionSimulator.cpp:79-99 | the blur changes only Z and keeps every height within bounds that held before |
| ErosionOperators.BlurOfFlat | Source/ProceduralWorld/Private/ErosionSimulator.cpp:79-99 | a constant grid is a fixed point of the blur |
| Droplet.Transfer | Source/ProceduralWorld/Private/ErosionSimulator.cpp:223-226 | the deposit-or-erode exchange keeps the map's length |
| Droplet.Step | Source/ProceduralWorld/Private/ErosionSimulator.cpp:185-230 | a pass that does not break off leaves a full map and a droplet that can still be sampled |
| Droplet.Advance | Source/ProceduralWorld/Private/ErosionSimulator.cpp:205-230 | after the break test, a droplet that moves stays in the grid |
| Droplet.Flow | Source/ProceduralWorld/Private/ErosionSimulator.cpp:214-230 | a pass that passed the break test always moves, and lands in the grid |
| Droplet.AdvanceFlows | Source/ProceduralWorld/Private/ErosionSimulator.cpp:209-226 | when the break test passes, the pass continues with HeightDelta = new height - old height |
| Droplet.FlowYields | Source/ProceduralWorld/Private/ErosionSimulator.cpp:218-230 | the pass moves the droplet to the new heading, with the new speed, evaporated water and the exchanged sediment, on the exchanged map |
| Droplet.TransferKeepsFootprint | Source/ProceduralWorld/Private/ErosionSimulator.cpp:223-226 | either branch changes only Z |
| Droplet.TransferConservesMass | Source/ProceduralWorld/Private/ErosionSimulator.cpp:223-226 | either branch keeps height plus carried sediment constant |
| Droplet.TransferKeepsSedimentNonnegative | Source/ProceduralWorld/Private/ErosionSimulator.cpp:223-226 | with settings in their clamp ranges and non-negative sediment and capacity, sediment stays >= 0 |
| Droplet.IterateAfterMove | Source/ProceduralWorld/Private/ErosionSimulator.cpp:185-231 | the lifetime loop after a moving pass is the loop on the new state, one step longer |
| Droplet.IteratePreserves | Source/ProceduralWorld/Private/ErosionSimulator.cpp:185-231 | an invariant every pass keeps holds at the end of the loop |
| Droplet.IterateStepsBounded | Source/ProceduralWorld/Private/ErosionSimulator.cpp:185 | the loop never makes more passes than its fuel |
| Droplet.StepsStayInGrid | Source/ProceduralWorld/Private/ErosionSimulator.cpp:205-216 | every pass keeps a full map and a sampleable position |
| Droplet.RunStaysInGrid | Source/ProceduralWorld/Private/ErosionSimulator.cpp:185-231 | a whole run keeps a full map and a sampleable position |
| Droplet.RunAfterMove | Source/ProceduralWorld/Private/ErosionSimulator.cpp:185-231 | a run whose first pass moves is that pass followed by the rest of the run |
| Droplet.RunAfterStop | Source/ProceduralWorld/Private/ErosionSimulator.cpp:209-212 | a run whose first pass breaks off changes nothing and takes no steps |
| Droplet.RunOutOfFuel | Source/ProceduralWorld/Private/ErosionSimulator.cpp:185 | a run with no lifetime left changes nothing |
| Droplet.ContinuesAtStart | Source/ProceduralWorld/Private/ErosionSimulator.cpp:185 | before the first pass, the remaining run is the whole run |
| Droplet.ContinuesAfterMove | Source/ProceduralWorld/Private/ErosionSimulator.cpp:185-231 | after a moving pass, the remaining run continues from the new state with one more step done |
| Droplet.ContinuesAfterStop | Source/ProceduralWorld/Private/ErosionSimulator.cpp:209-212 | when the loop breaks, the run's result is the current map and droplet and the steps done |
| Droplet.ContinuesOutOfFuel | Source/ProceduralWorld/Private/ErosionSimulator.cpp:185 | when the lifetime is used up, the run's result is the current state |
| Droplet.RunAll | Source/ProceduralWorld/Private/ErosionSimulator.cpp:175-232 | running the droplets in order keeps a full map |
| Droplet.RunAllNext | Source/ProceduralWorld/Private/ErosionSimulator.cpp:175-232 | droplet i runs on the map the droplets before it left |
| Droplet.TotalStepsBounded | Source/ProceduralWorld/Private/ErosionSimulator.cpp:175-185 | all droplets together make at most one lifetime of passes each, so at most IterationNumber x DropletLifetime |
| Droplet.GuardAgreesWithSourceWhenBlocking | Source/ProceduralWorld/Private/ErosionSimulator.cpp:209-212 | with blocking on and BorderSize >= 1, the model's guard is exactly the source's break test |
| Droplet.ChunkCheckAdmitsEdgePosition | Source/ProceduralWorld/Private/ErosionSimulator.cpp:209-218 | with blocking off, the break test lets through (100, 258.5), whose cell corners lie outside the grid (see Findings) |
| Droplet.ChunkCheckAdmitsLastRowWithoutBorder | Source/ProceduralWorld/Private/ErosionSimulator.cpp:209-218 | with blocking on and BorderSize 0, the break test lets through (100, 258), whose lower corners lie outside the grid (see Findings) |
| Droplet.ChunkCheckWrapsAtLastColumn | Source/ProceduralWorld/Private/ErosionSimulator.cpp:115-118 | with blocking off, the break test lets through (258.5, 100) on the last column: its reads stay in the map but its east corners are column 0 of the next row, and the model's guard stops the droplet there |
| Droplet.SpawnIsPhysical | Source/ProceduralWorld/Private/ErosionSimulator.cpp:179-183 | a fresh droplet has water 1, no sediment and non-negative speed |
| Droplet.CapacityNonnegative | Source/ProceduralWorld/Private/ErosionSimulator.cpp:220-221 | the sediment capacity is >= 0 for non-negative speed and water |
| Droplet.EvaporationKeepsWaterInRange | Source/ProceduralWorld/Private/ErosionSimulator.cpp:230 | with EvaporationSpeed in [0,1], water stays in [0, previous water] |
| Droplet.StepKeepsPhysical | Source/ProceduralWorld/Private/ErosionSimulator.cpp:185-230 | a pass keeps speed >= 0, water in [0,1] and sediment >= 0 |
| Droplet.AdvanceKeepsPhysical | Source/ProceduralWorld/Private/ErosionSimulator.cpp:205-230 | the rest of a pass keeps speed >= 0, water in [0,1] and sediment >= 0 |
| Droplet.FlowKeepsPhysical | Source/ProceduralWorld/Private/ErosionSimulator.cpp:218-230 | the exchange and the speed and water updates keep the droplet physical |
| Droplet.StepConservesMass | Source/ProceduralWorld/Private/ErosionSimulator.cpp:185-230 | a moving pass keeps height plus carried sediment constant |
| Droplet.FlowConservesMass | Source/ProceduralWorld/Private/ErosionSimulator.cpp:218-230 | the exchange keeps height plus carried sediment constant |
| Droplet.RunConservesMass | Source/ProceduralWorld/Private/ErosionSimulator.cpp:185-231 | a whole run keeps height plus carried sediment constant |
| Droplet.RunKeepsPhysical | Source/ProceduralWorld/Private/ErosionSimulator.cpp:185-231 | speed, water and sediment stay in range for the whole run |
| Droplet.RunStepsBounded | Source/ProceduralWorld/Private/ErosionSimulator.cpp:185 | a run makes at most its lifetime of passes |
| Droplet.DropletLosesFinalSediment | Source/ProceduralWorld/Private/ErosionSimulator.cpp:175-231 | a droplet lowers the map by exactly the sediment it still carries when it stops, which is dropped; it never adds height and makes at most DropletLifetime passes |
| Droplet.RunAllNeverAddsHeight | Source/ProceduralWorld/Private/ErosionSimulator.cpp:175-232 | all droplets together never raise the total height |
| Droplet.StepKeepsFootprint | Source/ProceduralWorld/Private/ErosionSimulator.cpp:185-230 | a pass changes only Z |
| Droplet.FlowKeepsFootprint | Source/ProceduralWorld/Private/ErosionSimulator.cpp:218-230 | the exchange of a pass changes only Z |
| Droplet.RunKeepsFootprint | Source/ProceduralWorld/Private/ErosionSimulator.cpp:185-231 | a run changes only Z |
| Droplet.RunAllKeepsFootprint | Source/ProceduralWorld/Private/ErosionSimulator.cpp:175-232 | all droplets change only Z |
| Droplet.SimulationKeepsFootprint | Source/ProceduralWorld/Private/ErosionSimulator.cpp:170-234 | SimulateErosion, blur included, changes only Z |
| Droplet.FlatStepStops | Source/ProceduralWorld/Private/ErosionSimulator.cpp:196-212 | on a flat grid a droplet at rest breaks off on its first pass, without touching the map |
| Droplet.DescendFromRest | Source/ProceduralWorld/Private/ErosionSimulator.cpp:196-203 | zero gradient and zero direction give zero direction after normalisation |
| Droplet.FlatMapUnchanged | Source/ProceduralWorld/Private/ErosionSimulator.cpp:170-234 | on a flat grid SimulateErosion leaves the map unchanged, with or without the blur |
| Erosion.ErosionSimulator.constructor | Source/ProceduralWorld/Public/ErosionSimulator.h:106-112 | a new component has empty kernel tables and both loop indices at 0 |
| Erosion.ErosionSimulator.InitializeComponent | Source/ProceduralWorld/Private/ErosionSimulator.cpp:13-69 | each table grows by S*S entries; entry i of the indices and weights tables is vertex i's kernel; later entries are old or appended empty ones; the tables are ready |
| Erosion.ErosionSimulator.WriteEntry | Source/ProceduralWorld/Private/ErosionSimulator.cpp:54-64 | entry i of the tables becomes the taps' indices and their weights divided by the weighted sum; nothing else changes |
| Erosion.ErosionSimulator.GatherTaps | Source/ProceduralWorld/Private/ErosionSimulator.cpp:29-52 | the nested loops gather exactly vertex i's kernel taps and their weighted sum |
| Erosion.ErosionSimulator.GatherRow | Source/ProceduralWorld/Private/ErosionSimulator.cpp:38-51 | one row of the inner loop appends that row's taps and keeps the weighted sum equal to the sum of the weights |
| Erosion.ErosionSimulator.GaussianBlur | Source/ProceduralWorld/Private/ErosionSimulator.cpp:72-100 | the array becomes the blur of its old contents, read from the frozen copy |
| Erosion.ErosionSimulator.WindowSum | Source/ProceduralWorld/Private/ErosionSimulator.cpp:83-97 | the window loop's total, divided by 9, is the blurred height of the vertex |
| Erosion.ErosionSimulator.DepositSediment | Source/ProceduralWorld/Private/ErosionSimulator.cpp:130-142 | the array becomes the deposited map and the returned sediment is what the droplet keeps |
| Erosion.ErosionSimulator.ErodeTerrain | Source/ProceduralWorld/Private/ErosionSimulator.cpp:145-167 | the array becomes the map eroded over stored kernel entry c by the erosion amount, and the returned sediment is the droplet's sediment plus what the erosion removed |
| Erosion.ErosionSimulator.MoveDroplet | Source/ProceduralWorld/Private/ErosionSimulator.cpp:187-230 | one pass in place: when it moves, the array and the droplet are the model's pass; when it breaks, the array is unchanged |
| Erosion.ErosionSimulator.ExchangeAt | Source/ProceduralWorld/Private/ErosionSimulator.cpp:214-230 | the part of a pass after the break test, in place, equals the model's |
| Erosion.ErosionSimulator.SimulateErosion | Source/ProceduralWorld/Private/ErosionSimulator.cpp:170-234 | the array becomes Simulated of its old contents; IterationIndex ends at the number of droplets and DropletLifeIndex at the last droplet's passes |
| Erosion.ErosionSimulator.SimulateDroplet | Source/ProceduralWorld/Private/ErosionSimulator.cpp:179-231 | one droplet's lifetime loop in place equals its run in the model, and DropletLifeIndex ends at the passes it made |
| NoiseGenerator.CreateNoiseData | Source/ProceduralWorld/Private/NoiseGenerator.cpp:64-88 | N*N values appended row by row: entry x + y*N is the noise of sample (x, y) |
| NoiseGenerator.NoiseValueInUnitRange | Source/ProceduralWorld/Private/NoiseGenerator.cpp:79-83 | a noise value in [-1,1] is stored as (n+1)/2 in [0,1], and the mapping can be inverted |
| NoiseGenerator.NeighbouringChunksAgree | Source/ProceduralWorld/Private/NoiseGenerator.cpp:79-80 | with offsets of chunk number x 256, the last three columns (rows) of a chunk sample the same noise as the first three of its right (lower) neighbour |
| NoiseGenerator.FalloffData | Source/ProceduralWorld/Private/NoiseGenerator.cpp:143-166 | the per-cell classification computes the falloff value of (x, y) |
| NoiseGenerator.CreateFalloffMap | Source/ProceduralWorld/Private/NoiseGenerator.cpp:127-173 | side*side values appended row by row: entry x + y*side is the falloff value of (x, y) |
| NoiseGenerator.FalloffLayout | Source/ProceduralWorld/Private/NoiseGenerator.cpp:139-170 | a row-major sequence of falloff values holds the value of (x, y) at x + y*side |
| NoiseGenerator.FalloffCentrePeak | Source/ProceduralWorld/Private/NoiseGenerator.cpp:162-166 | within 50 of the centre, and inside the sea band, the value is 1 - d/50, in [0,1] |
| NoiseGenerator.FalloffPlain | Source/ProceduralWorld/Private/NoiseGenerator.cpp:143-166 | between the centre peak and the sea band the value is 0 |
| NoiseGenerator.CentreDistanceBounded | Source/ProceduralWorld/Private/NoiseGenerator.cpp:146 | on the map, the Chebyshev distance to the centre lies in [0, half side] |
| NoiseGenerator.FalloffMountainBand | Source/ProceduralWorld/Private/NoiseGenerator.cpp:146-149 | in the outer band of 100 the value rises linearly from 0 to 1 |
| NoiseGenerator.FalloffInUnitRange | Source/ProceduralWorld/Private/NoiseGenerator.cpp:143-166 | without a sea curve every falloff value lies in [0,1] |
| NoiseGenerator.SingleChunkWorldHasNoCentre | Source/ProceduralWorld/Private/NoiseGenerator.cpp:130-166 | in a one-chunk world every point is in the sea or mountain bands, and the value is the distance from the band boundary / 100 |
| TerrainMesh.SharedEdgeReadsTwoFalloffEntries | Source/ProceduralWorld/Private/NoiseGenerator.cpp:284-286 | with the source's stride, a vertex shared by horizontal neighbours is read 3 entries apart by the two chunks (see Findings) |
| TerrainMesh.FalloffSeamExample | Source/ProceduralWorld/Private/NoiseGenerator.cpp:284-286 | in a 2x2 world, shared vertex 257 of row 258 reads 0.96 in chunk (0,0) and 0.98 in chunk (1,0) (see Findings) |
| TerrainMesh.NeighboursShareFalloff | Source/ProceduralWorld/Private/NoiseGenerator.cpp:284-286 | with the corrected stride, horizontal and vertical neighbours read the same entry for every shared vertex |
| TerrainMesh.FalloffIndexInRange | Source/ProceduralWorld/Private/NoiseGenerator.cpp:284-286 | for a chunk of the world, every corrected falloff index of the vertex loop is inside the falloff map |
| TerrainMesh.CorrectedStrideLeavesFarBandUnread | Source/ProceduralWorld/Private/NoiseGenerator.cpp:284-286 | with the corrected stride, the chunks read falloff columns and rows 0 .. 256*MapSize+2 only, which stops short of the map's last column and row exactly when MapSize >= 2 |
| TerrainMesh.CorrectedStrideFarBandExample | Source/ProceduralWorld/Private/NoiseGenerator.cpp:130 | in a 2x2 world, the furthest entry any chunk reads on row 258 holds 0.96, while the map's edges on that row hold 1.0 and 0.99 |
| TerrainMesh.ChunkGrid | Source/ProceduralWorld/Private/NoiseGenerator.cpp:276-298 | the vertex grid has N*N entries |
| TerrainMesh.BuildVertices | Source/ProceduralWorld/Private/NoiseGenerator.cpp:276-298 | the vertex loop appends row by row; entry k is the vertex of column k % N and row k / N, at the starting position plus spacing times (x-1, y-1), with the curve's height |
| TerrainMesh.VertexSpacing | Source/ProceduralWorld/Private/NoiseGenerator.cpp:295-296 | neighbouring columns are VertexSize apart, and column 1 sits at the chunk's starting position |
| TerrainMesh.BuildTriangles | Source/ProceduralWorld/Private/NoiseGenerator.cpp:338-355 | the triangle loop emits 6*M*M indices: for each square, in row-major order, TL, BL, TR, TR, BL, BR with row width M+1 |
| TerrainMesh.TrianglesOfSquare | Source/ProceduralWorld/Private/NoiseGenerator.cpp:340-353 | the six indices of square (x, y) sit at 6*(x + y*M) |
| TerrainMesh.SquareCorners | Source/ProceduralWorld/Private/NoiseGenerator.cpp:325-353 | the triangle indices of square (x, y) are the kept positions of grid vertices (x+1, y+1), (x+1, y+2), (x+2, y+1), (x+2, y+2) |
| TerrainMesh.TrianglesIndexKeptVertices | Source/ProceduralWorld/Private/NoiseGenerator.cpp:325-355 | every triangle index is below (M+1)^2, the number of vertices the filter keeps |
| TerrainMesh.NormalLoopInRange | Source/ProceduralWorld/Private/NoiseGenerator.cpp:309-323 | the four vertices a cell of the normal loop reads and writes are inside the N*N grid |
| TerrainMesh.AdditionIsContribution | Source/ProceduralWorld/Private/NoiseGenerator.cpp:317-323 | the six `+=` of a cell add face normal 1 at (x, y), both at (x+1, y) and (x, y+1), face normal 2 at (x+1, y+1), and nothing elsewhere |
| TerrainMesh.NothingProcessed | Source/ProceduralWorld/Private/NoiseGenerator.cpp:257 | before the loop every normal is zero |
| TerrainMesh.ProcessedAfterCell | Source/ProceduralWorld/Private/NoiseGenerator.cpp:303-323 | processing cell (x, y) adds that cell's contribution and changes no other cell's |
| TerrainMesh.FarCellContributesNothing | Source/ProceduralWorld/Private/NoiseGenerator.cpp:317-323 | a cell adds nothing to a vertex that is not one of its four corners |
| TerrainMesh.NormalAfterCell | Source/ProceduralWorld/Private/NoiseGenerator.cpp:303-323 | after one more cell a vertex's normal is the old one plus that cell's contribution |
| TerrainMesh.NormalCompleteAtOwnCell | Source/ProceduralWorld/Private/NoiseGenerator.cpp:317-331 | when the loop reaches cell (x, y) of an interior vertex, that vertex's normal is already the sum of its six incident face normals, so the value the filter copies is final |
| TerrainMesh.AccumulatedNormals | Source/ProceduralWorld/Private/NoiseGenerator.cpp:317-323 | after a cell's writes, every normal is the sum over the cells processed so far |
| TerrainMesh.AccumulateCell | Source/ProceduralWorld/Private/NoiseGenerator.cpp:309-323 | the six writes of a cell add its contribution to every entry and keep the length |
| TerrainMesh.KeptIndexInjective | Source/ProceduralWorld/Private/NoiseGenerator.cpp:325-333 | two interior vertices never share an output position |
| TerrainMesh.KeepVertex | Source/ProceduralWorld/Private/NoiseGenerator.cpp:325-333 | appending an interior vertex's five entries keeps every kept entry where the layout puts it |
| TerrainMesh.ProductPositive | Source/ProceduralWorld/Private/NoiseGenerator.cpp:325 | for x, y >= 0 the filter x*y > 0 holds exactly when both are at least 1 |
| TerrainMesh.KeepCell | Source/ProceduralWorld/Private/NoiseGenerator.cpp:325-333 | the filter appends the five entries of vertex (x, y) exactly when x*y > 0, keeping the count and every kept entry in place |
| TerrainMesh.BuildSections | Source/ProceduralWorld/Private/NoiseGenerator.cpp:303-335 | the loop keeps (M+1)^2 vertices; at position (x-1)+(y-1)*(M+1) it stores the grid vertex, its full smooth normal, its UV, the water vertex at height 0 and the up normal |
| TerrainMesh.ChunkNoise | Source/ProceduralWorld/Private/NoiseGenerator.cpp:226-231 | the chunk's noise array has N*N entries |
| TerrainMesh.Eroded | Source/ProceduralWorld/Private/NoiseGenerator.cpp:300-301 | erosion, when switched on, keeps the grid's length |
| TerrainMesh.NoiseDataIsChunkNoise | Source/ProceduralWorld/Private/NoiseGenerator.cpp:226-231 | the noise data fetched with offsets chunk number x 256 is the chunk's noise |
| TerrainMesh.SectionsLayout | Source/ProceduralWorld/Private/NoiseGenerator.cpp:325-333 | the arrays the filter built are the interior vertices and normals, the UVs, the water surface and the up normals, in row-major order |
| TerrainMesh.GenerateTerrain | Source/ProceduralWorld/Private/NoiseGenerator.cpp:212-355 | without a height curve nothing is built; otherwise the sections are those of the chunk's grid after erosion, and the triangle list; when erosion runs, the simulator's IterationIndex ends at the number of droplets and its DropletLifeIndex at the last droplet's step count, and otherwise both keep their old values |
| TerrainMesh.FaceNormalsRise | Source/ProceduralWorld/Private/NoiseGenerator.cpp:314-315 | on a regular footprint both face normals of a cell point up, with Z = VertexSize^2 |
| TerrainMesh.InteriorNormalRises | Source/ProceduralWorld/Private/NoiseGenerator.cpp:317-323 | an interior vertex's smooth normal has Z = 6 VertexSize^2, whatever the heights |
| TerrainMesh.ChunkGridIsRegular | Source/ProceduralWorld/Private/NoiseGenerator.cpp:295-296 | the vertex grid has the regular X/Y footprint of the chunk |
| TerrainMesh.RegularFootprintKept | Source/ProceduralWorld/Private/NoiseGenerator.cpp:300-301 | a map whose X and Y are unchanged keeps the regular footprint |
| TerrainMesh.KeptNormalsRise | Source/ProceduralWorld/Private/NoiseGenerator.cpp:331 | every normal handed to the terrain section points up |
| TerrainMesh.ErodedGridIsRegular | Source/ProceduralWorld/Private/NoiseGenerator.cpp:300-301 | erosion keeps the grid's regular footprint |
| TerrainMesh.TerrainNormalsPointUp | Source/ProceduralWorld/Private/NoiseGenerator.cpp:276-331 | with or without erosion every terrain normal points up with Z = 6 VertexSize^2 |
| TerrainMesh.NeighbourStart | Source/ProceduralWorld/Private/NoiseGenerator.cpp:295-296 | a chunk's starting position plus MapArraySize vertex widths is the starting position of the next chunk |
| TerrainMesh.NeighbourNoise | Source/ProceduralWorld/Private/NoiseGenerator.cpp:284-288 | column x + MapArraySize of a chunk's noise array equals column x of its right-hand neighbour's, at indices inside both arrays |
| TerrainMesh.NeighbouringChunksMeet | Source/ProceduralWorld/Private/NoiseGenerator.cpp:276-298 | with the corrected falloff stride, a vertex a chunk shares with its right-hand neighbour has the same position and height in both |

## Left out

- I/O and engine plumbing: logging, `BeginPlay`, `Tick`, `UpdateWorld`, actor construction, the mesh
  and material calls, and the game-thread upload (NoiseGenerator.cpp:364-375). These are engine
  calls with no logic of the core. `GenerateTerrain` returns the arrays it would upload.
- The texture utilities `CreateNoiseTexture` and `CreateFalloffTexture`, and the Visualization
  files. They are engine texture and bulk-memory I/O.
- `FRandomStream`: the spawn positions are an input sequence in [R, S-R) on both axes.
  `ErosionSeed` is carried but not interpreted.
- FastNoiseLite, `UCurveFloat` and `FMath::Sqrt` are function parameters (`noise`, `heightCurve`,
  `seaHeightCurve`, `sqrt`). The only fact assumed of `sqrt` is sqrt(0) = 0. The octave and
  lacunarity setup of the noise generator is part of the noise parameter.
- Floating point: heights, weights and positions are reals, with no rounding or NaN. The float to
  int truncations of the sampler are floor on the non-negative positions the model admits.
- The falloff map index is computed in float in the source. The model computes it exactly in
  integers.
- `abs` in `CreateFalloffMap` is the float overload.
- Normal normalisation (NoiseGenerator.cpp:357-362) is not modelled. The model keeps the unnormalised
  sums and proves their direction.
- The defaults of `FGradientAndHeight` are never observed, because the sampler assigns all three
  fields. The heap allocation that is never freed (ErosionSimulator.cpp:106) is modelled as a returned
  value.
- The `DepositSediment` prototype in ErosionSimulator.h:103 does not match the body. The body is
  modelled.
- `Gravity` and `VertexSize` of the simulator are carried in the settings but never read.
- `BaseWaterSpeed`, `BorderSize`, `bBlockBoundaryErosion` and `bApplyBlur` are read by
  ErosionSimulator.cpp (lines 156-158, 181, 209-211, 229 and 233) but are not declared in
  ErosionSimulator.h. They therefore have no clamp range. The model takes them as free settings.
- Droplet.Plausible: the lemmas on physical bounds (`SpawnIsPhysical`, `StepKeepsPhysical`,
  `RunKeepsPhysical`, `DropletLosesFinalSediment`, `RunAllNeverAddsHeight`) assume
  `BaseWaterSpeed >= 0`. The source enforces no such bound. With a negative base speed the first
  pass's capacity is negative, and the deposit branch (ErosionSimulator.cpp:135) drives the
  sediment below 0.
- Concurrency: the async dispatch of `GenerateTerrain` and the actor mutex.
- Droplet.KeepsFlowing: the break test of the model adds one condition to the source's test. The
  new position must be sampleable. With blocking on and `BorderSize >= 1` this is the source's test
  (`GuardAgreesWithSourceWhenBlocking`). Otherwise the source's test lets through positions the
  sampler cannot read properly. On the last row the sampler reads past the end of the map (see
  Findings). On the last column its east corners wrap to column 0 of the next row
  (`ChunkCheckWrapsAtLastColumn`). Just left of column 0 the truncation to int gives column 0, so the
  sampler extrapolates from that cell. The model stops the droplet in all of these cases.
- Erosion.ErosionSimulator.ErodeTerrain: requires the kernel tables to hold an entry for the cell.
  The source assumes `InitializeComponent` has run.
- TerrainMesh.GenerateTerrain: the vertex array is a `seq`, copied into a fresh `array` for
  `SimulateErosion` and read back. Aliasing with other arrays is not modelled.
- TerrainMesh.GenerateTerrain: `Normals` is a local `seq` that the cell loop rebuilds with
  sequence updates. It is not an array updated in place.
- TerrainMesh.GenerateTerrain: the bodies of the normal loop and the filter are split into the
  helper methods `AccumulateCell` and `KeepCell`.
- TerrainMesh.GenerateTerrain, TerrainMesh.ChunkGrid, TerrainMesh.BuildVertices,
  TerrainMesh.VertexHeight: the vertex loop reads the falloff map at the corrected chunk
  stride `FalloffIndex`, not at the source's stride (see Findings). The correction has a cost: with
  two or more chunks a side, the chunks never read the last 3*MapSize - 3 columns and rows of the
  falloff map, so the far side's ring of border mountains is cut short
  (`CorrectedStrideLeavesFarBandUnread`, `CorrectedStrideFarBandExample`). A full fix would also
  shrink the map to side 256*MapSize + 3. The model does not make that change, because
  `CreateFalloffMap` is modelled as written.
- TerrainMesh.GenerateTerrain: `World[TerrainIndex]` is passed in as the chunk's properties.
  The world map is an input that covers the chunk.
- Erosion.ErosionSimulator.SimulateErosion: `DropletLifeIndex` is stated only for the last droplet.
  The total number of passes is bounded by `Droplet.TotalStepsBounded`.

## Findings

| source | as written | input that shows it | evidently intended | confidence | as-written member | corrected member |
|---|---|---|---|---|---|---|
| Source/ProceduralWorld/Private/ErosionSimulator.cpp:209-218 | the break test can let a droplet through at a position where the sampler then reads past the end of the map: this happens when boundary blocking is off, or when it is on with BorderSize 0 | blocking off, new position (100, 258.5): the cell index plus S is past the end of the 259x259 map; blocking on with BorderSize 0, position (100, 258) also passes | a droplet stops before its cell would leave the map; the model adds that condition to the break test | high for blocking off, medium for BorderSize 0; not executed | Droplet.ChunkCheckAdmitsEdgePosition | Droplet.StepsStayInGrid, Droplet.GuardAgreesWithSourceWhenBlocking |
| Source/ProceduralWorld/Private/NoiseGenerator.cpp:228 | the falloff map is read at chunk offset ChunkNumberX x NoiseArraySize (259) for columns and ChunkNumberY x NoiseArraySize for rows (lines 284-286), while the noise and vertex positions of neighbouring chunks overlap by three columns (offsets of 256) | a 2x2 world, chunks (0,0) and (1,0): the vertex they share at column 257 of chunk (0,0), which is column 1 of chunk (1,0), row 258, reads falloff entries 257 and 260 of that row, holding 0.96 and 0.98; the shared vertex gets two heights | the falloff stride equals the noise stride (MapArraySize) so that neighbouring chunks meet without a seam; with that stride alone the last 3*MapSize - 3 columns and rows of the map go unread, so a full fix also shrinks the map to side 256*MapSize + 3, which the model does not do | medium; not executed | TerrainMesh.FalloffSeamExample | TerrainMesh.NeighboursShareFalloff |

In the first row, `Droplet.PassesChunkCheck` is the source's test as written.
`Droplet.ChunkCheckAdmitsLastRowWithoutBorder` gives the BorderSize-0 input.
`Droplet.KeepsFlowing` is the corrected guard. `Droplet.StepsStayInGrid` proves that it keeps every
read in range. `Droplet.GuardAgreesWithSourceWhenBlocking` proves that it matches the source when
blocking is on with a border.

In the second row, `TerrainMesh.FalloffIndexAsWritten` is the source's index.
`TerrainMesh.SharedEdgeReadsTwoFalloffEntries` proves the off-by-three for every shared vertex.
`TerrainMesh.FalloffIndex` is the corrected index. `TerrainMesh.FalloffIndexInRange` and
`TerrainMesh.NeighbouringChunksMeet` prove its range and the seamless meeting of chunks.
`TerrainMesh.CorrectedStrideLeavesFarBandUnread` states what that index leaves unread.
