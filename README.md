# Terrain streaming for the Unity terrain generator, in Dafny

This project models the core of a Unity terrain generator that streams terrain around the camera.

- **WorldGenerator.** Each terrain chunk is a WorldGenerator. It lays out an `(m+1)×(m+1)` vertex grid whose heights come from octave noise plus a detail layer, clamped into `[0, heightMultiplier]`. It triangulates the grid into `6·m²` indices, gives every vertex a UV, a biome label and a biome colour, accumulates face normals, and darkens the colours by a ring-count ambient-occlusion factor. It also answers bilinear height queries over its grid.
- **BiomeGenerator.** Classifies a point as snow, mountain, desert, forest or plains with a priority chain. The chain reads a clamped normalised height and two clamped two-layer noise values. Each label maps to a colour and a texture.
- **ChunkManager.** Floor-divides the camera position into a chunk coordinate. It reconciles its dictionary of chunks with the `(2d+1)²` square of keys around that coordinate: missing keys are created, keys outside the square are removed, and the rest are left alone. Each created chunk gets an origin, a grid size and a noise offset.
- **WaterGenerator.** Keeps a 3×3 square of water tiles around the camera's chunk. It periodically lifts each tile to the average non-zero terrain height found under a 5×5 lattice of probes.

Modules, one file each:

- `UnityMath`: vectors, colours and the `Mathf` helpers. `Mathf.PerlinNoise` is the type `PerlinNoise`: any function of two reals with values in `[0,1]`.
- `Biomes`: BiomeGenerator, as pure functions.
- `TerrainNoise`: the height field. `GenerateOctaveNoise` and `GenerateHeight` are methods proved to compute the functions `OctaveNoise` and `TerrainHeight`.
- `MeshGrid`: the vertex and triangle index arithmetic.
- `HeightSampling`: `GetHeightAtPosition` as a function of a `Grid` value. An index past the end of the vertex array is an `IndexOutOfRange` fault.
- `World`: the class `WorldGenerator`, with its six arrays and its build passes.
- `Streaming`: the square of keys and the reconciliation that both streamers perform.
- `Chunks`: the class `ChunkManager`, whose `activeChunks` is a `map` field.
- `Water`: the class `WaterGenerator`, whose `waterChunks` is a `map` field.

Floats are modelled as mathematical reals. Every build member requires its settings to be well formed (`TerrainSettings.WellFormed`, `BiomeSettings.WellFormed`): the divisors are non-zero, `mapSize` is positive and the octave amplitude sum is non-zero. The function `OctaveNoise` alone returns `None` on a zero amplitude sum, which is how `NoOctavesNoHeight` and `CancellingPersistence` state that case.

Three behaviours of the source are modelled as written and stated as properties:

- The detail noise ignores the chunk offset, so it repeats in every chunk and breaks at the seams. See `Chunks.DetailLayerRepeats` and `Chunks.DetailLayerBreaksAtSeams`.
- A height query on the far row passes the bounds test and then reads past the vertex array. See `HeightSampling.FaultExactlyOnFarEdge`.
- `isInitialized` is still false while both builds run, so the occlusion pass never darkens a colour. See `World.WorldGenerator.FirstBuildKeepsBiomeColors` and `World.WorldGenerator.Start`.

## Model

| member | source | states |
|---|---|---|
| Biomes.Start | Assets/Components/BiomeGenerator.cs:30-34 | an offset that Unity's `Vector2 ==` counts as zero (squared length below 1e-10) is replaced by the random one; any other offset and every other field are kept |
| Biomes.TinyOffsetReplaced | Assets/Components/BiomeGenerator.cs:31-33 | an offset of 1e-6 on one axis is replaced by the random draw; one of 1e-5 is kept |
| Biomes.NormalizedHeight | Assets/Components/BiomeGenerator.cs:41 | the normalised height lies in [0,1] and equals height / biomeHeightMultiplier whenever that ratio is already in [0,1] |
| Biomes.TwoLayerNoise | Assets/Components/BiomeGenerator.cs:66-69 | the two-layer sample lies in [0,1] and is either the unclamped sum or the upper clamp 1 |
| Biomes.GenerateTemperature | Assets/Components/BiomeGenerator.cs:61-70 | temperature lies in [0,1] |
| Biomes.GenerateMoisture | Assets/Components/BiomeGenerator.cs:72-81 | moisture lies in [0,1] |
| Biomes.Classify | Assets/Components/BiomeGenerator.cs:44-58 | the priority chain always yields one of the five named biomes |
| Biomes.GetBiomeAtPosition | Assets/Components/BiomeGenerator.cs:36-59 | the classifier yields a named biome for every position, height and noise |
| Biomes.GetBiomeColor | Assets/Components/BiomeGenerator.cs:83-98 | each of the five labels gets its own configured colour (desert → desertColor, plains → plainsColor, and so on); a value outside the enum gets white |
| Biomes.GetBiomeTexture | Assets/Components/BiomeGenerator.cs:100-108 | plains, forest, desert and mountain each get their own configured texture slot; snow and out-of-enum values get no texture |
| Biomes.SnowWhateverTheClimate | Assets/Components/BiomeGenerator.cs:44-45 | above the snow threshold the result is Snow for any noise and any position |
| Biomes.MountainExactly | Assets/Components/BiomeGenerator.cs:47-48 | Mountain iff the height is not above the snow threshold but is above the mountain threshold |
| Biomes.DesertIgnoresMoisture | Assets/Components/BiomeGenerator.cs:50-51 | Desert iff the height is at or below both thresholds and the temperature is above the desert threshold, whatever the moisture |
| Biomes.ForestExactly | Assets/Components/BiomeGenerator.cs:53-55 | Forest iff the first three tests fail and the moisture is above the forest threshold |
| Biomes.PlainsExactly | Assets/Components/BiomeGenerator.cs:56-58 | Plains iff all four tests fail |
| Biomes.MoistureIsShiftedTemperature | Assets/Components/BiomeGenerator.cs:72-81 | moisture is the temperature formula at the position moved by 1000 on x and z, read at the moisture scale |
| Biomes.DefaultsMakeHalfHeightSnow | Assets/Components/BiomeGenerator.cs:41-45 | with the default settings a height of 15 (half the terrain's default 30) is already Snow, because the classifier divides by its own multiplier 20 |
| Biomes.ColorDeterminesNamedBiome | Assets/Components/BiomeGenerator.cs:83-98 | when the five colours are distinct, the colour of a named biome determines the biome |
| TerrainNoise.OctaveNoise | Assets/Components/WorldGenerator.cs:229-248 | the base layer is undefined exactly when the amplitude sum of the octaves that run is zero |
| TerrainNoise.GenerateOctaveNoise | Assets/Components/WorldGenerator.cs:229-248 | the octave loop, with running amplitude, frequency and amplitude sum, computes OctaveNoise |
| TerrainNoise.OctaveNoiseBounded | Assets/Components/WorldGenerator.cs:229-248 | with octaves ≥ 1 and persistence > 0 the base layer is defined and lies in [-heightMultiplier, heightMultiplier] |
| TerrainNoise.NoOctavesNoHeight | Assets/Components/WorldGenerator.cs:235-247 | with octaves ≤ 0 the loop never runs and the final division is by a zero amplitude sum |
| TerrainNoise.CancellingPersistence | Assets/Components/WorldGenerator.cs:235-247 | two octaves with persistence -1 also leave a zero amplitude sum |
| TerrainNoise.AmplitudeSumPositive | Assets/Components/WorldGenerator.cs:241-243 | with positive persistence and at least one octave the amplitude sum is positive |
| TerrainNoise.WeightedSumWithin | Assets/Components/WorldGenerator.cs:235-245 | the weighted noise sum lies within ± the amplitude sum |
| TerrainNoise.OctaveTermWithin | Assets/Components/WorldGenerator.cs:236-240 | one octave contributes at most its amplitude in absolute value |
| TerrainNoise.GenerateDetailNoise | Assets/Components/WorldGenerator.cs:250-256 | the detail layer lies within ± detailNoiseStrength for a non-negative strength |
| TerrainNoise.TerrainHeight | Assets/Components/WorldGenerator.cs:221-227 | the vertex height lies in [0, heightMultiplier] for a non-negative multiplier; with a negative one it is 0 or the multiplier |
| TerrainNoise.GenerateHeight | Assets/Components/WorldGenerator.cs:221-227 | computes TerrainHeight: base plus detail, clamped |
| MeshGrid.UVInUnitSquare | Assets/Components/WorldGenerator.cs:117-121 | every UV (x/m, z/m) lies in the unit square for m > 0 |
| MeshGrid.VertexAt | Assets/Components/WorldGenerator.cs:87-92 | vertex z(m+1)+x sits at column x = i mod (m+1) and row z = i div (m+1) |
| MeshGrid.VertexStep | Assets/Components/WorldGenerator.cs:87-92 | the running counter i at (x, z) is in range and names column x, row z |
| MeshGrid.TriangleStep | Assets/Components/WorldGenerator.cs:101-111 | at cell (x, z), with vert = z(m+1)+x and tris = 6(zm+x), the six slots lie below 6m² and hold vert, vert+m+1, vert+1, vert+1, vert+m+1, vert+m+2 |
| MeshGrid.FirstTriangle | Assets/Components/WorldGenerator.cs:103-105 | slots tris..tris+2 of cell (x, z) hold vert, vert+m+1, vert+1 |
| MeshGrid.SecondTriangle | Assets/Components/WorldGenerator.cs:106-108 | slots tris+3..tris+5 of cell (x, z) hold vert+1, vert+m+1, vert+m+2 |
| MeshGrid.EntryOfCell | Assets/Components/WorldGenerator.cs:103-108 | slot k of cell (x, z) is the k-th corner of that cell |
| MeshGrid.TriangleEntryInRange | Assets/Components/WorldGenerator.cs:103-108 | every triangle index lies in [0, (m+1)²), the length of vertices |
| MeshGrid.EveryVertexCovered | Assets/Components/WorldGenerator.cs:103-108 | for m ≥ 1 every vertex index appears in some triangle slot |
| MeshGrid.CoveringSlot | Assets/Components/WorldGenerator.cs:103-108 | names, for vertex (x, z), a slot below 6m² that holds z(m+1)+x |
| HeightSampling.ZeroOffGrid | Assets/Components/WorldGenerator.cs:258-266 | an uninitialised grid, or a position outside [0,m]², answers 0 |
| HeightSampling.InteriorBetweenCorners | Assets/Components/WorldGenerator.cs:268-282 | inside [0,m)² all four corner reads are in range and the height lies between the lowest and the highest corner |
| HeightSampling.FaultExactlyOnFarEdge | Assets/Components/WorldGenerator.cs:263-274 | inside the bounds test the query reads past the array iff the floored z is m, or x is m and z is m-1 |
| HeightSampling.GridPointHeight | Assets/Components/WorldGenerator.cs:268-282 | at a grid point that does not fault, the answer is that vertex's height |
| HeightSampling.CornerIndices | Assets/Components/WorldGenerator.cs:271-274 | which of the four corner indices of cell (x, z) fall inside (m+1)² |
| World.AccumulatedStep | Assets/Components/WorldGenerator.cs:151-165 | one more face adds its normal at its three corners |
| World.OcclusionHits | Assets/Components/WorldGenerator.cs:180-192 | after j samples the hit count is at most j |
| World.WorldGenerator.GetHeightAtPosition | Assets/Components/WorldGenerator.cs:258-283 | 0 before initialisation; over a complete grid, inside the bounds test, it faults exactly on the far row and the far column's last cell |
| World.WorldGenerator.GenerateTerrain | Assets/Components/WorldGenerator.cs:52-82 | rebuilds vertices, triangles, UVs, biome labels and normals. Colours are the biome colours shaded by each vertex's hit count. A faulting height read aborts before the shading. Before initialisation nothing faults |
| World.WorldGenerator.Start | Assets/Components/WorldGenerator.cs:38-50 | rebuilds every array as GenerateTerrain does: vertices, triangles, UVs, labels and normals. Colours are shaded by the hit counts against the grid as it was during the build. The build completes iff no sample faults, and always on the first build; completion sets isInitialized. A first build with heights ≥ 0 leaves every colour equal to its biome colour |
| World.WorldGenerator.FirstBuildKeepsBiomeColors | Assets/Components/WorldGenerator.cs:173-207 | while isInitialized is false every sample reads 0, which is never above a vertex, so every hit count is 0 |
| World.WorldGenerator.CreateVertices | Assets/Components/WorldGenerator.cs:84-94 | vertices has (m+1)² entries and entry i is (column, height, row) of i |
| World.WorldGenerator.SetVertex | Assets/Components/WorldGenerator.cs:89-91 | writes vertex i from GenerateHeight and keeps the earlier ones |
| World.WorldGenerator.CreateTriangles | Assets/Components/WorldGenerator.cs:96-115 | triangles has 6m² entries and each slot holds its closed-form corner |
| World.WorldGenerator.FillCell | Assets/Components/WorldGenerator.cs:103-108 | the six writes of one cell keep every earlier slot and fill the next six |
| World.WorldGenerator.CreateUVs | Assets/Components/WorldGenerator.cs:117-122 | one UV per vertex, each (x/m, z/m) |
| World.WorldGenerator.CreateBiomeTypes | Assets/Components/WorldGenerator.cs:124-130 | one label per vertex, the classifier's label at its world position, always a named biome |
| World.WorldGenerator.CreateColors | Assets/Components/WorldGenerator.cs:132-140 | one colour per vertex, the colour of its classifier label |
| World.WorldGenerator.CalculateNormals | Assets/Components/WorldGenerator.cs:142-171 | each normal is the normalised sum of the face normals of the triangles touching that vertex |
| World.WorldGenerator.ClearNormals | Assets/Components/WorldGenerator.cs:143-148 | a fresh array of zero vectors, one per vertex |
| World.WorldGenerator.AccumulateFaceNormals | Assets/Components/WorldGenerator.cs:151-165 | after the face loop, normals are the accumulated face normals of all faces |
| World.WorldGenerator.AddFaceNormal | Assets/Components/WorldGenerator.cs:162-164 | adds the face normal at the three corners and nowhere else |
| World.WorldGenerator.NormalizeNormals | Assets/Components/WorldGenerator.cs:168-170 | each normal is replaced by its normalisation |
| World.WorldGenerator.CalculateAmbientOcclusion | Assets/Components/WorldGenerator.cs:173-207 | completes iff no sample faults. Each colour then has its rgb scaled by 1 - (hits/8)·strength and keeps its alpha. A fault leaves colors unchanged |
| World.WorldGenerator.CountOcclusionHits | Assets/Components/WorldGenerator.cs:180-192 | counts the samples strictly above the vertex, or reports the first faulting read |
| World.HitsFaultPersists | Assets/Components/WorldGenerator.cs:180-192 | once a sample faults, every longer ring faults |
| World.UninitializedNoHits | Assets/Components/WorldGenerator.cs:188-191 | while not initialised, a vertex at height ≥ 0 has no hits |
| World.UninitializedNeverFaults | Assets/Components/WorldGenerator.cs:259 | while not initialised no sample faults |
| World.UninitializedAllSampled | Assets/Components/WorldGenerator.cs:173-207 | while not initialised the occlusion pass completes for every vertex |
| World.BuiltTrianglesAreFaces | Assets/Components/WorldGenerator.cs:96-115 | the built triangle array has 3·(2m²) entries, whole triangles, every index a vertex |
| World.NoHitsNoShade | Assets/Components/WorldGenerator.cs:194-203 | zero hits leave the colour unchanged |
| World.ShadeFactorRange | Assets/Components/WorldGenerator.cs:194 | with 0..8 hits and strength in [0,1] the factor lies in [1 - strength, 1] |
| World.AccumulatedIsFaceSum | Assets/Components/WorldGenerator.cs:151-165 | the accumulated normal of a vertex is the sum of the normals of the faces having it as a corner |
| World.UntouchedStaysZero | Assets/Components/WorldGenerator.cs:146-165 | a vertex in no triangle keeps a zero accumulated normal |
| Streaming.SquareMembers | Assets/Components/ChunkManager.cs:70-82 | the nested loops' keys are exactly those within d of the centre on both axes |
| Streaming.ReconciledKeys | Assets/Components/ChunkManager.cs:66-101 | after a pass a key is present iff it is in the square and it was present or its creation succeeded |
| Streaming.ReconciledValues | Assets/Components/ChunkManager.cs:77-80 | entries already present are kept unchanged; new entries are what creation made |
| Streaming.CreatedKeysAreKeep | Assets/Components/ChunkManager.cs:66-101 | when every creation succeeds the key set equals the square |
| Streaming.FailedCreationLeavesGap | Assets/Components/ChunkManager.cs:114-142 | a missing key whose creation fails leaves the key set a strict subset of the square |
| Streaming.ReconcileIdempotent | Assets/Components/ChunkManager.cs:50-55 | a second pass over the same square changes nothing, which is why Update may skip it |
| Streaming.RemoveThenCreate | Assets/Components/WaterGenerator.cs:54-72 | removing before creating leaves the same map as creating before removing |
| Streaming.WithCreatedStep | Assets/Components/ChunkManager.cs:74-80 | one more kept key adds an entry exactly when it was missing and creation succeeds |
| Chunks.ChunkFor | Assets/Components/ChunkManager.cs:103-143 | creation fails exactly when the prefab has no WorldGenerator |
| Chunks.ChunkManager.Start | Assets/Components/ChunkManager.cs:26-44 | without a camera nothing changes. Otherwise it sets the random world offset and the camera's chunk, and reconciles the map with the square around it |
| Chunks.ChunkManager.Update | Assets/Components/ChunkManager.cs:46-56 | reconciles only when the camera's chunk coordinate changed, otherwise state is untouched |
| Chunks.ChunkManager.GetChunkPosition | Assets/Components/ChunkManager.cs:58-64 | returns c with c·size ≤ p < (c+1)·size on x and z |
| Chunks.ChunkManager.GenerateChunks | Assets/Components/ChunkManager.cs:66-101 | the map becomes the reconciliation of the old map with the square around lastChunkPosition |
| Chunks.ChunkManager.CreateMissingChunks | Assets/Components/ChunkManager.cs:68-82 | the kept set is the square; every missing key of it is created |
| Chunks.ChunkManager.RemoveChunksOutside | Assets/Components/ChunkManager.cs:84-100 | exactly the keys outside the kept set are removed |
| Chunks.ChunkManager.CreateChunk | Assets/Components/ChunkManager.cs:103-143 | adds the key with origin key·size, mapSize = size, the copied settings and offset worldOffset + key·size; nothing without a WorldGenerator |
| Chunks.Lookup | Assets/Components/ChunkManager.cs:145-153 | a chunk is found iff the position's floor-divided key is in the map, and then it is that key's chunk; the water probes use the same function |
| Chunks.ChunkManager.GetChunkFromPosition | Assets/Components/ChunkManager.cs:145-153 | returns a chunk iff the floor-divided key is active, and then that key's chunk |
| Chunks.ChunkCoordinateBounds | Assets/Components/ChunkManager.cs:58-64 | floor division by a positive size brackets the position on both axes |
| Chunks.FoundChunkContainsPosition | Assets/Components/ChunkManager.cs:145-153 | a chunk found for a position, made by CreateChunk, has the position within its square |
| Chunks.WeightedSumIgnoresOffset | Assets/Components/WorldGenerator.cs:235-245 | the octave sum depends on the sample point, scale, lacunarity and persistence only |
| Chunks.BaseLayerSeams | Assets/Components/ChunkManager.cs:128-131 | column m of a chunk and column 0 of its east neighbour sample the same base noise; row m and the north neighbour's row 0 likewise |
| Chunks.DetailLayerRepeats | Assets/Components/WorldGenerator.cs:250-256 | every chunk has the same detail value at the same local column and row |
| Chunks.DetailLayerBreaksAtSeams | Assets/Components/WorldGenerator.cs:250-256 | for some noise the two chunks meeting at a seam get different detail values at the same world point |
| Chunks.MoveEastByOne | Assets/Components/ChunkManager.cs:66-101 | with view distance 2, moving from (0,0) to (1,0) adds exactly (3,-2)..(3,2) and drops exactly (-2,-2)..(-2,2) |
| Water.WaterGenerator.Start | Assets/Components/WaterGenerator.cs:19-25 | the manager becomes whatever the scene search found, null included |
| Water.WaterGenerator.Update | Assets/Components/WaterGenerator.cs:27-36 | without a manager neither the tiles nor the timestamp change. Otherwise tiles are re-streamed, and heights are re-measured only once the interval has passed. The timestamp moves only when that pass completes. An aborted pass leaves the streamed keys, with each tile either as it was or already moved |
| Water.WaterGenerator.UpdateWaterChunks | Assets/Components/WaterGenerator.cs:38-73 | the tile map becomes the reconciliation of the old one with the 3×3 square around the camera's chunk |
| Water.WaterGenerator.KeptSquare | Assets/Components/WaterGenerator.cs:46-52 | the kept set is the 3×3 square |
| Water.WaterGenerator.RemoveTilesOutside | Assets/Components/WaterGenerator.cs:54-66 | exactly the tiles outside the kept set are removed |
| Water.WaterGenerator.CreateMissingTiles | Assets/Components/WaterGenerator.cs:68-72 | every missing key of the kept set gets a new tile; present tiles are untouched |
| Water.WaterGenerator.CreateWaterChunk | Assets/Components/WaterGenerator.cs:75-85 | adds a tile centred at key·size + size/2 on x and z, y = 0, scale (size, 1, size) |
| Water.WaterGenerator.UpdateWaterPositions | Assets/Components/WaterGenerator.cs:87-93 | keys are kept. If no tile faults, every live tile is updated and null entries stay null. A fault is reported iff some tile faults, and it is that tile's fault; each tile is then as it was or already moved |
| Water.WaterGenerator.SampleProbe | Assets/Components/WaterGenerator.cs:107-115 | one probe through the manager's own GetChunkFromPosition: no chunk or a height of exactly 0 gives nothing, a faulting query gives its fault, and any height returned is non-zero |
| Water.WaterGenerator.UpdateWaterPosition | Assets/Components/WaterGenerator.cs:95-124 | the lattice loop accumulates the valid heights. The tile moves to their average plus the offset, or stays when there is none. A faulting read aborts the update |
| Water.SampledFaultPersists | Assets/Components/WaterGenerator.cs:102-116 | once a probe faults, the whole pass faults with that fault |
| Water.SeqMin | Assets/Components/WaterGenerator.cs:118-119 | the smallest valid height is one of them and at most each |
| Water.SeqMax | Assets/Components/WaterGenerator.cs:118-119 | the largest valid height is one of them and at least each |
| Water.SumWithin | Assets/Components/WaterGenerator.cs:111-112 | a total of n heights in [lo, hi] lies in [n·lo, n·hi] |
| Water.AverageWithinSamples | Assets/Components/WaterGenerator.cs:118-119 | the average lies between the smallest and the largest valid height |
| Water.AverageWithin | Assets/Components/WaterGenerator.cs:118-119 | the average of values in [lo, hi] lies in [lo, hi] |
| Water.MovedTileStaysOverSamples | Assets/Components/WaterGenerator.cs:118-123 | an update keeps x, z and scale; a new height is the offset above a value between the lowest and highest valid probe |
| Water.ZeroHeightsExcluded | Assets/Components/WaterGenerator.cs:110-113 | no valid height is 0 |
| Water.ProbesStayInOwnChunk | Assets/Components/WaterGenerator.cs:104-107 | probes of a tile at its chunk's centre sit at key·size + size·i/5 and floor-divide back to the tile's own key |
| Water.NoFaultOverMatchingGrids | Assets/Components/WaterGenerator.cs:102-116 | when each chunk's grid stands at its key's origin with mapSize = size, a centred tile's probes never fault |
| Water.ProbeNeverFaults | Assets/Components/WaterGenerator.cs:107-109 | one probe of a centred tile lands in [0,size)² of its own chunk and does not fault |
| Water.LatticeInsideChunk | Assets/Components/WaterGenerator.cs:104-105 | the probe offset size·i/5 lies in [0, size) |
| Water.NewTileCoversChunk | Assets/Components/WaterGenerator.cs:76-83 | a new tile's half-width back from its centre is the chunk origin, on both axes |
| Water.WaterKeysAreSquare | Assets/Components/WaterGenerator.cs:38-73 | tile creation never fails, so the key set becomes exactly the 3×3 square |
| Water.WaterInsideTerrain | Assets/Components/WaterGenerator.cs:47-48 | with a view distance of at least 1, the water square lies inside the terrain square |

## Left out

- Floating point: every float is a mathematical real. There is no rounding, no NaN and no infinity. Divisions by an inspector value (noise scales, the detail scale, chunkSize, the biome multiplier) require it to be non-zero instead of producing NaN or infinity.
- TerrainNoise.TerrainHeight: requires `WellFormed`, so the octave amplitude sum is non-zero. So `octaves <= 0`, or a persistence that cancels the sum (such as -1 with two octaves), is excluded from every build: TerrainHeight, GenerateHeight, CreateVertices, GenerateTerrain and World.WorldGenerator.Start. In C# `(noiseHeight / amplitudeSum) * heightMultiplier` then divides by zero. With `octaves <= 0` the sum of samples is 0 too, so every height is 0/0 = NaN, and `Mathf.Clamp` passes NaN through. With a cancelling persistence the sum of samples is almost never 0. The quotient is then ±Infinity, and the clamp, which tests the lower bound first, makes the vertex 0 or `heightMultiplier`: a two-level terrain. NaN appears there only where the samples cancel exactly or `heightMultiplier` is 0. The model states the zero sum only through OctaveNoise, NoOctavesNoHeight and CancellingPersistence.
- World.WorldGenerator.GenerateTerrain: requires `WellFormed`, so `mapSize` is positive. With 0 the C# builds a one-vertex mesh and divides by zero in CreateUVs; a negative size gives empty or mis-sized arrays. Neither case is modelled.
- 32-bit integers: index products such as `z * (mapSize + 1)` and `chunkPos.x * chunkSize` are unbounded; overflow is not modelled.
- `Mathf.PerlinNoise` internals: noise is any function into [0,1]. `Random.Range` draws are parameters.
- The occlusion ring positions (`Mathf.Cos`/`Mathf.Sin` of the sample angle times the radius) are a parameter `ring`. `.normalized` is a parameter `normalized`; the normal properties are about which faces are summed, not about lengths.
- `transform.TransformPoint` is a translation by the generator's position.
- Engine plumbing is not modelled: GetComponent/AddComponent, the mesh and collider set-up in GenerateTerrain, UpdateMesh, transform parenting, Instantiate, Destroy and Debug.LogError. Destroy is modelled as removal from the map.
- World.WorldGenerator.Start: BiomeGenerator lookup and creation is not modelled; the generator always has biome settings.
- Chunks.ChunkManager.Start: the null-prefab early return is not modelled; the manager always has a prefab. `Instantiate` of a null prefab is therefore not modelled either.
- Chunks.ChunkManager.CreateChunk: the chunk records its settings and origin. The build that `generator.GenerateTerrain()` runs on them is modelled by World.WorldGenerator.GenerateTerrain, not linked to the map entry.
- Chunks.PositiveInt: `chunkSize` is assumed positive. The inspector could set 0, which makes the C# divide by zero.
- Water.WaterGenerator.UpdateWaterPosition: the height source is a parameter `grids` giving each chunk's vertex grid, queried with the same HeightQuery that models GetHeightAtPosition.
- Water.WaterGenerator.UpdateWaterChunks: `Camera.main` is assumed present; the camera's position is a parameter.
- Water.WaterGenerator.Start: `FindFirstObjectByType` is a parameter `found`.
- `UpdateWaveEffect` is never called and only sets material properties. Time is a parameter.
- CameraController and SkyboxController are input handling and rendering set-up, not part of this model.
- The order in which C# enumerates a Dictionary or HashSet is not modelled. Keys are taken in an arbitrary order, and the results are proved for any order.
