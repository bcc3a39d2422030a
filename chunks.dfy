/** `ChunkManager`: the square of terrain chunks around the camera's chunk,
    each chunk a WorldGenerator placed at `key * chunkSize` whose noise is
    offset by the same amount. */
module Chunks {
  import opened UnityMath
  import opened TerrainNoise
  import opened Streaming

  type PositiveInt = n: int | n > 0 witness 1

  /** `new Vector2Int(FloorToInt(p.x / size), FloorToInt(p.z / size))`. */
  function ChunkCoordinate(p: Vector3, size: PositiveInt): Vector2Int {
    Vector2Int(FloorToInt(p.x / size as real), FloorToInt(p.z / size as real))
  }

  /** The eight inspector fields ChunkManager copies into every chunk. */
  datatype GenerationSettings = GenerationSettings(
    noiseScale: real,
    octaves: int,
    persistence: real,
    lacunarity: real,
    heightMultiplier: real,
    detailNoiseScale: real,
    detailNoiseStrength: real,
    detailNoiseOffset: real)

  /** The chunk prefab; `generator` is its WorldGenerator's inspector values,
      `None` when the prefab has no WorldGenerator. */
  datatype Prefab = Prefab(generator: Option<TerrainSettings>)

  /** An instantiated chunk: where it stands and what its generator builds. */
  datatype Chunk = Chunk(origin: Vector3, settings: TerrainSettings)

  /** `new Vector3(chunkPos.x * chunkSize, 0, chunkPos.y * chunkSize)`. */
  function ChunkOrigin(k: Vector2Int, size: int): Vector3 {
    Vector3((k.x * size) as real, 0.0, (k.y * size) as real)
  }

  /** The prefab's generator with the copied fields, `mapSize = chunkSize`
      and `offset = worldOffset + chunkPos * chunkSize`. */
  function ChunkSettings(prefab: TerrainSettings, g: GenerationSettings, size: int, worldOffset: Vector2, k: Vector2Int)
    : TerrainSettings
  {
    prefab.(mapSize := size, noiseScale := g.noiseScale, octaves := g.octaves, persistence := g.persistence,
            lacunarity := g.lacunarity, heightMultiplier := g.heightMultiplier,
            detailNoiseScale := g.detailNoiseScale, detailNoiseStrength := g.detailNoiseStrength,
            detailNoiseOffset := g.detailNoiseOffset,
            offset := Vector2(worldOffset.x + (k.x * size) as real, worldOffset.y + (k.y * size) as real))
  }

  /** What `CreateChunk(k)` adds: nothing when the prefab has no WorldGenerator. */
  function ChunkFor(prefab: Prefab, g: GenerationSettings, size: int, worldOffset: Vector2, k: Vector2Int): Option<Chunk> {
    match prefab.generator
    case None => None
    case Some(p) => Some(Chunk(ChunkOrigin(k, size), ChunkSettings(p, g, size, worldOffset, k)))
  }

  /** The chunk registered under the chunk coordinate of `p`, or null. */
  function Lookup(chunks: map<Vector2Int, Chunk>, size: PositiveInt, p: Vector3): (r: Option<Chunk>)
    ensures r.Some? <==> ChunkCoordinate(p, size) in chunks
    ensures r.Some? ==> r.value == chunks[ChunkCoordinate(p, size)]
  {
    var k := ChunkCoordinate(p, size);
    if k in chunks then Some(chunks[k]) else None
  }

  class ChunkManager {
    const chunkPrefab: Prefab
    const chunkSize: PositiveInt
    const viewDistance: int
    const generation: GenerationSettings

    var activeChunks: map<Vector2Int, Chunk>
    var lastChunkPosition: Vector2Int
    var worldOffset: Vector2
    /** `mainCamera != null`. */
    var hasCamera: bool

    constructor (chunkPrefab: Prefab, chunkSize: PositiveInt, viewDistance: int, generation: GenerationSettings)
      ensures this.chunkPrefab == chunkPrefab && this.chunkSize == chunkSize
      ensures this.viewDistance == viewDistance && this.generation == generation
      ensures activeChunks == map[] && !hasCamera
      ensures lastChunkPosition == Vector2Int(0, 0) && worldOffset == Vector2(0.0, 0.0)
    {
      this.chunkPrefab := chunkPrefab;
      this.chunkSize := chunkSize;
      this.viewDistance := viewDistance;
      this.generation := generation;
      activeChunks := map[];
      lastChunkPosition := Vector2Int(0, 0);
      worldOffset := Vector2(0.0, 0.0);
      hasCamera := false;
    }

    /** `CreateChunk` as a function of the key, for the current world offset. */
    function Creator(): Vector2Int -> Option<Chunk>
      reads this`worldOffset
    {
      var offset := worldOffset;
      k => ChunkFor(chunkPrefab, generation, chunkSize, offset, k)
    }

    /** `Start`: find the camera, draw the world offset, stream the first
      square. `camera` is `Camera.main`'s position (`None` when there is no
      main camera); `randomOffset` is the two `Random.Range` draws. */
    method Start(camera: Option<Vector3>, randomOffset: Vector2)
      requires -10000.0 <= randomOffset.x <= 10000.0 && -10000.0 <= randomOffset.y <= 10000.0
      modifies this`activeChunks, this`lastChunkPosition, this`worldOffset, this`hasCamera
      ensures hasCamera == camera.Some?
      ensures camera.None? ==> activeChunks == old(activeChunks) && lastChunkPosition == old(lastChunkPosition)
                               && worldOffset == old(worldOffset)
      ensures camera.Some? ==> worldOffset == randomOffset
                               && lastChunkPosition == ChunkCoordinate(camera.value, chunkSize)
                               && activeChunks == Reconciled(old(activeChunks), Square(lastChunkPosition, viewDistance), Creator())
    {
      hasCamera := camera.Some?;
      if camera.None? {
        return;
      }
      worldOffset := randomOffset;
      lastChunkPosition := GetChunkPosition(camera.value);
      GenerateChunks();
    }

    /** `Update`: re-stream only when the camera's chunk coordinate changed. */
    method Update(cameraPos: Vector3)
      modifies this`activeChunks, this`lastChunkPosition
      ensures !hasCamera || ChunkCoordinate(cameraPos, chunkSize) == old(lastChunkPosition) ==>
                activeChunks == old(activeChunks) && lastChunkPosition == old(lastChunkPosition)
      ensures hasCamera && ChunkCoordinate(cameraPos, chunkSize) != old(lastChunkPosition) ==>
                lastChunkPosition == ChunkCoordinate(cameraPos, chunkSize)
                && activeChunks == Reconciled(old(activeChunks), Square(lastChunkPosition, viewDistance), Creator())
    {
      if !hasCamera {
        return;
      }
      var currentChunkPosition := GetChunkPosition(cameraPos);
      if currentChunkPosition != lastChunkPosition {
        lastChunkPosition := currentChunkPosition;
        GenerateChunks();
      }
    }

    /** `GetChunkPosition`: the chunk whose square contains `p`. */
    function GetChunkPosition(p: Vector3): (c: Vector2Int)
      ensures c.x as real * chunkSize as real <= p.x < (c.x + 1) as real * chunkSize as real
      ensures c.y as real * chunkSize as real <= p.z < (c.y + 1) as real * chunkSize as real
    {
      ChunkCoordinateBounds(p, chunkSize);
      ChunkCoordinate(p, chunkSize)
    }

    /** `GenerateChunks`: create the missing keys of the square around
      `lastChunkPosition`, then collect and destroy every key outside it. */
    method GenerateChunks()
      modifies this`activeChunks
      ensures activeChunks == Reconciled(old(activeChunks), Square(lastChunkPosition, viewDistance), Creator())
    {
      var chunksToKeep := CreateMissingChunks();
      RemoveChunksOutside(chunksToKeep);
    }

    /** The nested loops of `GenerateChunks`: every key of the square is
      added to `chunksToKeep` and created when absent. */
    method CreateMissingChunks() returns (chunksToKeep: set<Vector2Int>)
      modifies this`activeChunks
      ensures chunksToKeep == Square(lastChunkPosition, viewDistance)
      ensures activeChunks == WithCreated(old(activeChunks), chunksToKeep, Creator())
    {
      var c, d := lastChunkPosition, viewDistance;
      ghost var before := activeChunks;
      chunksToKeep := {};
      var x := -d;
      while x <= d
        invariant -d <= x && (x <= d + 1 || d < 0)
        invariant forall k :: k in chunksToKeep <==> -d <= k.x - c.x < x && -d <= k.y - c.y <= d
        invariant activeChunks == WithCreated(before, chunksToKeep, Creator())
      {
        var z := -d;
        while z <= d
          invariant -d <= z <= d + 1
          invariant forall k :: k in chunksToKeep <==>
                      (-d <= k.x - c.x < x && -d <= k.y - c.y <= d) || (k.x - c.x == x && -d <= k.y - c.y < z)
          invariant activeChunks == WithCreated(before, chunksToKeep, Creator())
        {
          var chunkPos := Shift(c, x, z);
          WithCreatedStep(before, chunksToKeep, Creator(), chunkPos);
          chunksToKeep := chunksToKeep + {chunkPos};
          if chunkPos !in activeChunks {
            CreateChunk(chunkPos);
          }
          z := z + 1;
        }
        x := x + 1;
      }
      forall k
        ensures k in chunksToKeep <==> k in Square(c, d)
      {
        SquareMembers(c, d, k);
      }
    }

    /** The two `foreach` loops of `GenerateChunks`: collect the keys outside
      `chunksToKeep`, then destroy and remove each. */
    method RemoveChunksOutside(chunksToKeep: set<Vector2Int>)
      modifies this`activeChunks
      ensures activeChunks == Restricted(old(activeChunks), chunksToKeep)
    {
      ghost var before := activeChunks;
      var chunksToRemove: seq<Vector2Int> := [];
      var pending := activeChunks.Keys;
      while pending != {}
        decreases |pending|
        invariant pending <= before.Keys
        invariant forall k :: k in chunksToRemove <==> k in before && k !in pending && k !in chunksToKeep
      {
        var chunk :| chunk in pending;
        if chunk !in chunksToKeep {
          chunksToRemove := chunksToRemove + [chunk];
        }
        pending := pending - {chunk};
      }
      var i := 0;
      while i < |chunksToRemove|
        invariant 0 <= i <= |chunksToRemove|
        invariant forall k :: k in activeChunks <==> k in before && k !in chunksToRemove[..i]
        invariant forall k :: k in activeChunks ==> activeChunks[k] == before[k]
      {
        var chunkPos := chunksToRemove[i];
        if chunkPos in activeChunks {
          activeChunks := activeChunks - {chunkPos};
        }
        assert chunksToRemove[..i + 1] == chunksToRemove[..i] + [chunkPos];
        i := i + 1;
      }
      assert chunksToRemove[..i] == chunksToRemove;
    }

    /** `CreateChunk`: instantiate the prefab at the chunk's origin, copy the
      settings, and register it; a prefab without a WorldGenerator is
      destroyed again and nothing is registered. `Dictionary.Add` throws
      on a present key, which `GenerateChunks` never passes. */
    method CreateChunk(chunkPos: Vector2Int)
      requires chunkPos !in activeChunks
      modifies this`activeChunks
      ensures chunkPrefab.generator.None? ==> activeChunks == old(activeChunks)
      ensures chunkPrefab.generator.Some? ==>
                activeChunks == old(activeChunks)[chunkPos := Creator()(chunkPos).value]
      ensures chunkPrefab.generator.Some? ==>
                && activeChunks[chunkPos].origin == ChunkOrigin(chunkPos, chunkSize)
                && activeChunks[chunkPos].settings.mapSize == chunkSize
                && activeChunks[chunkPos].settings.offset
                   == Vector2(worldOffset.x + (chunkPos.x * chunkSize) as real, worldOffset.y + (chunkPos.y * chunkSize) as real)
                && activeChunks[chunkPos].settings.noiseScale == generation.noiseScale
                && activeChunks[chunkPos].settings.detailNoiseOffset == generation.detailNoiseOffset
    {
      var worldPos := Vector3((chunkPos.x * chunkSize) as real, 0.0, (chunkPos.y * chunkSize) as real);
      match chunkPrefab.generator {
        case None =>
          return;
        case Some(generator) =>
          var g := generation;
          var settings := generator.(mapSize := chunkSize, noiseScale := g.noiseScale, octaves := g.octaves,
                                     persistence := g.persistence, lacunarity := g.lacunarity,
                                     heightMultiplier := g.heightMultiplier, detailNoiseScale := g.detailNoiseScale,
                                     detailNoiseStrength := g.detailNoiseStrength, detailNoiseOffset := g.detailNoiseOffset,
                                     offset := Vector2(worldOffset.x + (chunkPos.x * chunkSize) as real,
                                                       worldOffset.y + (chunkPos.y * chunkSize) as real));
          activeChunks := activeChunks[chunkPos := Chunk(worldPos, settings)];
      }
    }

    /** `GetChunkFromPosition`: `Lookup` over the active chunks. */
    function GetChunkFromPosition(worldPosition: Vector3): (r: Option<Chunk>)
      reads this`activeChunks
      ensures r.Some? <==> ChunkCoordinate(worldPosition, chunkSize) in activeChunks
      ensures r.Some? ==> r.value == activeChunks[ChunkCoordinate(worldPosition, chunkSize)]
    {
      Lookup(activeChunks, chunkSize, worldPosition)
    }
  }

  // ---------------------------------------------------------------------
  // Properties

  /** Floor division: `c * size <= p < (c + 1) * size` on both axes. */
  lemma ChunkCoordinateBounds(p: Vector3, size: PositiveInt)
    ensures var c := ChunkCoordinate(p, size);
            && c.x as real * size as real <= p.x < (c.x + 1) as real * size as real
            && c.y as real * size as real <= p.z < (c.y + 1) as real * size as real
  {
    var c := ChunkCoordinate(p, size);
    FloorScaled(p.x, size as real, c.x);
    FloorScaled(p.z, size as real, c.y);
  }

  lemma FloorScaled(v: real, s: real, c: int)
    requires s > 0.0 && c as real <= v / s < c as real + 1.0
    ensures c as real * s <= v < (c + 1) as real * s
  {
    var q := v / s;
    assert q * s == v;
    ProductNonNegative(q - c as real, s);
    ProductPositive((c + 1) as real - q, s);
    assert (q - c as real) * s == v - c as real * s;
    var upper := (c + 1) as real;
    assert upper == c as real + 1.0;
    assert (upper - q) * s == upper * s - q * s;
    assert 0.0 < (upper - q) * s;
    assert 0.0 < upper * s - v;
    assert v < upper * s;
  }

  /** A registered chunk made by `CreateChunk` covers the positions that
      `GetChunkFromPosition` maps to it: its origin is the lower corner of
      their chunk square. */
  lemma FoundChunkContainsPosition(m: ChunkManager, p: Vector3)
    requires m.GetChunkFromPosition(p).Some?
    requires m.GetChunkFromPosition(p) == m.Creator()(ChunkCoordinate(p, m.chunkSize))
    ensures var o := m.GetChunkFromPosition(p).value.origin;
            && o.x <= p.x < o.x + m.chunkSize as real
            && o.z <= p.z < o.z + m.chunkSize as real
  {
    var k := ChunkCoordinate(p, m.chunkSize);
    ChunkCoordinateBounds(p, m.chunkSize);
    assert (k.x + 1) as real * m.chunkSize as real == (k.x * m.chunkSize) as real + m.chunkSize as real;
    assert (k.y + 1) as real * m.chunkSize as real == (k.y * m.chunkSize) as real + m.chunkSize as real;
  }

  /** The base layer does not read the chunk's position beyond its offset:
      two settings that agree on scale, lacunarity and persistence give the
      same weighted octave sum at the same sample point. */
  lemma {:induction false} WeightedSumIgnoresOffset(s1: TerrainSettings, s2: TerrainSettings, noise: PerlinNoise,
                                                    sx: real, sz: real, n: nat)
    requires s1.noiseScale == s2.noiseScale != 0.0
    requires s1.lacunarity == s2.lacunarity && s1.persistence == s2.persistence
    ensures WeightedSum(s1, noise, sx, sz, n) == WeightedSum(s2, noise, sx, sz, n)
  {
    if n > 0 {
      WeightedSumIgnoresOffset(s1, s2, noise, sx, sz, n - 1);
      assert OctaveTerm(s1, noise, sx, sz, n - 1) == OctaveTerm(s2, noise, sx, sz, n - 1);
    }
  }

  /** Seams of the base layer close: column `size` of chunk k samples the
      same point as column 0 of the chunk to its east, and row `size` the
      same point as row 0 of the chunk to its north. */
  lemma BaseLayerSeams(prefab: TerrainSettings, g: GenerationSettings, size: PositiveInt, worldOffset: Vector2,
                       k: Vector2Int, noise: PerlinNoise, i: int)
    requires g.noiseScale != 0.0
    ensures OctaveNoise(ChunkSettings(prefab, g, size, worldOffset, k), noise, size, i)
         == OctaveNoise(ChunkSettings(prefab, g, size, worldOffset, Shift(k, 1, 0)), noise, 0, i)
    ensures OctaveNoise(ChunkSettings(prefab, g, size, worldOffset, k), noise, i, size)
         == OctaveNoise(ChunkSettings(prefab, g, size, worldOffset, Shift(k, 0, 1)), noise, i, 0)
  {
    var here := ChunkSettings(prefab, g, size, worldOffset, k);
    var east := ChunkSettings(prefab, g, size, worldOffset, Shift(k, 1, 0));
    var north := ChunkSettings(prefab, g, size, worldOffset, Shift(k, 0, 1));
    var n := OctaveCount(g.octaves);
    assert (k.x + 1) * size == k.x * size + size;
    assert (k.y + 1) * size == k.y * size + size;
    assert size as real + here.offset.x == 0 as real + east.offset.x;
    assert size as real + here.offset.y == 0 as real + north.offset.y;
    WeightedSumIgnoresOffset(here, east, noise, size as real + here.offset.x, i as real + here.offset.y, n);
    WeightedSumIgnoresOffset(here, north, noise, i as real + here.offset.x, size as real + here.offset.y, n);
  }

  /** The detail layer reads no chunk position: every chunk gets the same
      detail value at the same local column and row. */
  lemma DetailLayerRepeats(prefab: TerrainSettings, g: GenerationSettings, size: PositiveInt, worldOffset: Vector2,
                           k1: Vector2Int, k2: Vector2Int, noise: PerlinNoise, x: int, z: int)
    requires g.detailNoiseScale != 0.0
    ensures GenerateDetailNoise(ChunkSettings(prefab, g, size, worldOffset, k1), noise, x, z)
         == GenerateDetailNoise(ChunkSettings(prefab, g, size, worldOffset, k2), noise, x, z)
  {
  }

  /** ... so for some noise the detail layer breaks at every east seam:
      column `size` of chunk k and column 0 of its east neighbour stand on
      the same world point but get different detail values. */
  lemma DetailLayerBreaksAtSeams(prefab: TerrainSettings, g: GenerationSettings, size: PositiveInt, worldOffset: Vector2,
                                 k: Vector2Int, z: int)
    requires g.detailNoiseScale != 0.0 && g.detailNoiseStrength != 0.0
    ensures exists noise: PerlinNoise ::
              GenerateDetailNoise(ChunkSettings(prefab, g, size, worldOffset, k), noise, size, z)
              != GenerateDetailNoise(ChunkSettings(prefab, g, size, worldOffset, Shift(k, 1, 0)), noise, 0, z)
  {
    var s := ChunkSettings(prefab, g, size, worldOffset, k);
    var seamX := (0 as real + g.detailNoiseOffset) / g.detailNoiseScale;
    var noise: PerlinNoise := (a: real, b: real) => if a == seamX then 1.0 else 0.0;
    assert (size as real + g.detailNoiseOffset) / g.detailNoiseScale != seamX by {
      DivisionInjective(size as real + g.detailNoiseOffset, 0 as real + g.detailNoiseOffset, g.detailNoiseScale);
    }
    assert GenerateDetailNoise(s, noise, size, z) == -g.detailNoiseStrength;
    assert GenerateDetailNoise(ChunkSettings(prefab, g, size, worldOffset, Shift(k, 1, 0)), noise, 0, z)
        == g.detailNoiseStrength;
  }

  lemma DivisionInjective(a: real, b: real, s: real)
    requires s != 0.0 && a != b
    ensures a / s != b / s
  {
    assert (a / s) * s == a;
    assert (b / s) * s == b;
  }

  /** With a view distance of 2, the camera moving from chunk (0,0) to
      (1,0) adds exactly the column x = 3 and drops exactly the column
      x = -2. */
  lemma MoveEastByOne()
    ensures Square(Vector2Int(1, 0), 2) - Square(Vector2Int(0, 0), 2) == set z | -2 <= z <= 2 :: Vector2Int(3, z)
    ensures Square(Vector2Int(0, 0), 2) - Square(Vector2Int(1, 0), 2) == set z | -2 <= z <= 2 :: Vector2Int(-2, z)
  {
    var added := Square(Vector2Int(1, 0), 2) - Square(Vector2Int(0, 0), 2);
    var dropped := Square(Vector2Int(0, 0), 2) - Square(Vector2Int(1, 0), 2);
    forall k
      ensures k in added <==> k in (set z | -2 <= z <= 2 :: Vector2Int(3, z))
      ensures k in dropped <==> k in (set z | -2 <= z <= 2 :: Vector2Int(-2, z))
    {
      SquareMembers(Vector2Int(1, 0), 2, k);
      SquareMembers(Vector2Int(0, 0), 2, k);
      if k.x == 3 && -2 <= k.y <= 2 {
        assert k == Vector2Int(3, k.y);
      }
      if k.x == -2 && -2 <= k.y <= 2 {
        assert k == Vector2Int(-2, k.y);
      }
    }
  }
}
