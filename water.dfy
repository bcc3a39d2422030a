/** `WaterGenerator`: a 3x3 square of water tiles around the camera's chunk,
    each raised to the average non-zero terrain height under it. */
module Water {
  import opened UnityMath
  import opened Streaming
  import opened Chunks
  import opened HeightSampling
  import TerrainNoise

  /** An instantiated water prefab: its transform's position and scale. */
  datatype WaterTile = WaterTile(position: Vector3, scale: Vector3)

  /** `samples`: the tile is probed on a 5x5 lattice. */
  const Samples := 5

  /** `updateInterval`: seconds between two height passes. */
  const UpdateInterval := 0.5

  /** The centre of chunk k: `k * chunkSize + chunkSize / 2f` on x and z. */
  function TileCentre(k: Vector2Int, size: int): Vector3 {
    Vector3((k.x * size) as real + size as real / 2.0, 0.0, (k.y * size) as real + size as real / 2.0)
  }

  /** What `CreateWaterChunk(k)` registers: a tile at the chunk's centre,
      scaled to `(chunkSize, 1, chunkSize)`. */
  function NewTile(k: Vector2Int, size: int): WaterTile {
    WaterTile(TileCentre(k, size), Vector3(size as real, 1.0, size as real))
  }

  /** `CreateWaterChunk` as a function of the key. */
  function TileCreator(size: int): Vector2Int -> Option<Option<WaterTile>> {
    k => Some(Some(NewTile(k, size)))
  }

  /** Probe (i, j) of a tile centred at `centre`. */
  function SamplePoint(centre: Vector3, size: int, i: int, j: int): Vector3 {
    Vector3(centre.x - size as real / 2.0 + size as real * (i as real / Samples as real),
            0.0,
            centre.z - size as real / 2.0 + size as real * (j as real / Samples as real))
  }

  /** One probe: no chunk, or a height of exactly 0, contributes nothing;
      a faulting height query aborts the pass. `grids` gives the vertex grid
      each chunk's WorldGenerator built. */
  function SampleHeight(chunks: map<Vector2Int, Chunk>, size: PositiveInt, grids: Chunk -> Grid, p: Vector3)
    : Result<Option<real>>
  {
    match Lookup(chunks, size, p)
    case None => Ok(None)
    case Some(chunk) =>
      match HeightQuery(grids(chunk), p)
      case Err(f) => Err(f)
      case Ok(h) => if h != 0.0 then Ok(Some(h)) else Ok(None)
  }

  /** The valid heights of the first `n` probes, row by row (`i` outer,
      `j` inner), or the first fault. */
  function Sampled(chunks: map<Vector2Int, Chunk>, size: PositiveInt, grids: Chunk -> Grid, centre: Vector3, n: nat)
    : Result<seq<real>>
  {
    if n == 0 then Ok([])
    else
      match Sampled(chunks, size, grids, centre, n - 1)
      case Err(f) => Err(f)
      case Ok(heights) =>
        match SampleHeight(chunks, size, grids, SamplePoint(centre, size, (n - 1) / Samples, (n - 1) % Samples))
        case Err(f) => Err(f)
        case Ok(None) => Ok(heights)
        case Ok(Some(h)) => Ok(heights + [h])
  }

  function Sum(s: seq<real>): real {
    if s == [] then 0.0 else Sum(s[..|s| - 1]) + s[|s| - 1]
  }

  /** `UpdateWaterPosition` as a function of the tile: its height becomes the
      average valid height plus `waterLevelOffset`; nothing moves without a
      valid probe. */
  function UpdatedTile(tile: WaterTile, chunks: map<Vector2Int, Chunk>, size: PositiveInt, grids: Chunk -> Grid,
                       waterLevelOffset: real): Result<WaterTile>
  {
    match Sampled(chunks, size, grids, tile.position, Samples * Samples)
    case Err(f) => Err(f)
    case Ok(heights) =>
      if |heights| == 0 then Ok(tile)
      else Ok(tile.(position := tile.position.(y := Sum(heights) / |heights| as real + waterLevelOffset)))
  }

  /** No live tile of `tiles` faults. */
  predicate NoFault(tiles: map<Vector2Int, Option<WaterTile>>, chunks: map<Vector2Int, Chunk>, size: PositiveInt,
                    grids: Chunk -> Grid, waterLevelOffset: real)
  {
    forall k :: k in tiles && tiles[k].Some? ==> UpdatedTile(tiles[k].value, chunks, size, grids, waterLevelOffset).Ok?
  }

  /** `UpdateWaterPositions` as a function of the tiles: every live tile
      updated, destroyed (null) entries left alone. */
  function Repositioned(tiles: map<Vector2Int, Option<WaterTile>>, chunks: map<Vector2Int, Chunk>, size: PositiveInt,
                        grids: Chunk -> Grid, waterLevelOffset: real): map<Vector2Int, Option<WaterTile>>
    requires NoFault(tiles, chunks, size, grids, waterLevelOffset)
  {
    map k | k in tiles ::
      if tiles[k].None? then None else Some(UpdatedTile(tiles[k].value, chunks, size, grids, waterLevelOffset).value)
  }

  /** The state an aborted `UpdateWaterPositions` leaves: the same keys, and
      each entry either as it was or, for a live tile visited before the
      fault, already moved. */
  predicate PartlyRepositioned(before: map<Vector2Int, Option<WaterTile>>, after: map<Vector2Int, Option<WaterTile>>,
                               chunks: map<Vector2Int, Chunk>, size: PositiveInt, grids: Chunk -> Grid,
                               waterLevelOffset: real)
  {
    && after.Keys == before.Keys
    && forall k :: k in before ==>
         || after[k] == before[k]
         || (&& before[k].Some?
             && UpdatedTile(before[k].value, chunks, size, grids, waterLevelOffset).Ok?
             && after[k] == Some(UpdatedTile(before[k].value, chunks, size, grids, waterLevelOffset).value))
  }

  class WaterGenerator {
    const waterLevelOffset: real
    var chunkManager: ChunkManager?
    /** `waterChunks`; `None` is a tile destroyed behind the script's back. */
    var waterChunks: map<Vector2Int, Option<WaterTile>>
    var lastUpdateTime: real

    constructor (waterLevelOffset: real)
      ensures this.waterLevelOffset == waterLevelOffset
      ensures chunkManager == null && waterChunks == map[] && lastUpdateTime == 0.0
    {
      this.waterLevelOffset := waterLevelOffset;
      chunkManager := null;
      waterChunks := map[];
      lastUpdateTime := 0.0;
    }

    /** `Start`: `found` is what `FindFirstObjectByType<ChunkManager>` returns. */
    method Start(found: ChunkManager?)
      modifies this`chunkManager
      ensures chunkManager == found
    {
      chunkManager := found;
    }

    /** `Update`: re-stream the tiles every frame, re-measure their heights
      when `updateInterval` has passed since the last measurement. `now` is
      `Time.time`; a fault is the exception a height query raised. */
    method Update(cameraPos: Vector3, now: real, grids: Chunk -> Grid) returns (fault: Option<Fault>)
      modifies this`waterChunks, this`lastUpdateTime
      ensures chunkManager == null ==> waterChunks == old(waterChunks) && lastUpdateTime == old(lastUpdateTime) && fault.None?
      ensures now - old(lastUpdateTime) < UpdateInterval || fault.Some? ==> lastUpdateTime == old(lastUpdateTime)
      ensures chunkManager != null && now - old(lastUpdateTime) < UpdateInterval ==>
                waterChunks == Reconciled(old(waterChunks), Square(ChunkCoordinate(cameraPos, chunkManager.chunkSize), 1),
                                          TileCreator(chunkManager.chunkSize))
                && fault.None?
      ensures chunkManager != null && now - old(lastUpdateTime) >= UpdateInterval && fault.None? ==>
                var streamed := Reconciled(old(waterChunks), Square(ChunkCoordinate(cameraPos, chunkManager.chunkSize), 1),
                                           TileCreator(chunkManager.chunkSize));
                && NoFault(streamed, chunkManager.activeChunks, chunkManager.chunkSize, grids, waterLevelOffset)
                && waterChunks == Repositioned(streamed, chunkManager.activeChunks, chunkManager.chunkSize, grids,
                                               waterLevelOffset)
                && lastUpdateTime == now
      ensures chunkManager != null && fault.Some? ==>
                var streamed := Reconciled(old(waterChunks), Square(ChunkCoordinate(cameraPos, chunkManager.chunkSize), 1),
                                           TileCreator(chunkManager.chunkSize));
                && waterChunks.Keys == streamed.Keys
                && PartlyRepositioned(streamed, waterChunks, chunkManager.activeChunks, chunkManager.chunkSize, grids,
                                      waterLevelOffset)
    {
      fault := None;
      if chunkManager == null {
        return;
      }
      UpdateWaterChunks(cameraPos);
      if now - lastUpdateTime >= UpdateInterval {
        fault := UpdateWaterPositions(grids);
        if fault.None? {
          lastUpdateTime := now;
        }
      }
    }

    /** `UpdateWaterChunks`: keep the 3x3 square around the camera's chunk,
      destroy the tiles outside it, then create the missing ones. */
    method UpdateWaterChunks(cameraPos: Vector3)
      requires chunkManager != null
      modifies this`waterChunks
      ensures waterChunks == Reconciled(old(waterChunks), Square(ChunkCoordinate(cameraPos, chunkManager.chunkSize), 1),
                                        TileCreator(chunkManager.chunkSize))
    {
      var currentChunk := chunkManager.GetChunkPosition(cameraPos);
      var chunksToKeep := KeptSquare(currentChunk);
      RemoveTilesOutside(chunksToKeep);
      CreateMissingTiles(chunksToKeep);
      RemoveThenCreate(old(waterChunks), chunksToKeep, TileCreator(chunkManager.chunkSize));
    }

    /** The nested loops adding `currentChunk + (x, z)`, x and z in -1..1. */
    static method KeptSquare(currentChunk: Vector2Int) returns (chunksToKeep: set<Vector2Int>)
      ensures chunksToKeep == Square(currentChunk, 1)
    {
      chunksToKeep := {};
      var x := -1;
      while x <= 1
        invariant -1 <= x <= 2
        invariant forall k :: k in chunksToKeep <==> -1 <= k.x - currentChunk.x < x && -1 <= k.y - currentChunk.y <= 1
      {
        var z := -1;
        while z <= 1
          invariant -1 <= z <= 2
          invariant forall k :: k in chunksToKeep <==>
                      (-1 <= k.x - currentChunk.x < x && -1 <= k.y - currentChunk.y <= 1)
                      || (k.x - currentChunk.x == x && -1 <= k.y - currentChunk.y < z)
        {
          chunksToKeep := chunksToKeep + {Shift(currentChunk, x, z)};
          z := z + 1;
        }
        x := x + 1;
      }
      forall k
        ensures k in chunksToKeep <==> k in Square(currentChunk, 1)
      {
        SquareMembers(currentChunk, 1, k);
      }
    }

    /** Collect the keys outside `chunksToKeep`, then destroy and remove each. */
    method RemoveTilesOutside(chunksToKeep: set<Vector2Int>)
      modifies this`waterChunks
      ensures waterChunks == Restricted(old(waterChunks), chunksToKeep)
    {
      ghost var before := waterChunks;
      var chunksToRemove: seq<Vector2Int> := [];
      var pending := waterChunks.Keys;
      while pending != {}
        decreases |pending|
        invariant pending <= before.Keys
        invariant forall k :: k in chunksToRemove <==> k in before && k !in pending && k !in chunksToKeep
      {
        var chunk :| chunk in pending;
        if chunk !in chunksToKeep {
          chunksToRemove := chunksToRemove + [chunk];
        }
        pending := pending - {chunk};
      }
      var i := 0;
      while i < |chunksToRemove|
        invariant 0 <= i <= |chunksToRemove|
        invariant forall k :: k in waterChunks <==> k in before && k !in chunksToRemove[..i]
        invariant forall k :: k in waterChunks ==> waterChunks[k] == before[k]
      {
        var chunkPos := chunksToRemove[i];
        if chunkPos in waterChunks {
          waterChunks := waterChunks - {chunkPos};
        }
        assert chunksToRemove[..i + 1] == chunksToRemove[..i] + [chunkPos];
        i := i + 1;
      }
      assert chunksToRemove[..i] == chunksToRemove;
    }

    /** `foreach (chunkPos in chunksToKeep)`: create each missing tile. */
    method CreateMissingTiles(chunksToKeep: set<Vector2Int>)
      requires chunkManager != null
      modifies this`waterChunks
      ensures waterChunks == WithCreated(old(waterChunks), chunksToKeep, TileCreator(chunkManager.chunkSize))
    {
      ghost var before := waterChunks;
      ghost var create := TileCreator(chunkManager.chunkSize);
      ghost var done: set<Vector2Int> := {};
      var pending := chunksToKeep;
      while pending != {}
        decreases |pending|
        invariant forall k :: k in chunksToKeep <==> k in done || k in pending
        invariant forall k :: k in pending ==> k !in done
        invariant waterChunks == WithCreated(before, done, create)
      {
        var chunkPos :| chunkPos in pending;
        WithCreatedStep(before, done, create, chunkPos);
        if chunkPos !in waterChunks {
          CreateWaterChunk(chunkPos);
        }
        done := done + {chunkPos};
        pending := pending - {chunkPos};
      }
      assert done == chunksToKeep;
    }

    /** `CreateWaterChunk`: a tile at the chunk's centre, as wide as the
      chunk. `Dictionary.Add` throws on a present key, which
      `UpdateWaterChunks` never passes. */
    method CreateWaterChunk(chunkPos: Vector2Int)
      requires chunkManager != null && chunkPos !in waterChunks
      modifies this`waterChunks
      ensures waterChunks == old(waterChunks)[chunkPos := Some(NewTile(chunkPos, chunkManager.chunkSize))]
    {
      var size := chunkManager.chunkSize;
      var worldPos := Vector3((chunkPos.x * size) as real + size as real / 2.0, 0.0,
                              (chunkPos.y * size) as real + size as real / 2.0);
      var scale := Vector3(size as real, 1.0, size as real);
      waterChunks := waterChunks[chunkPos := Some(WaterTile(worldPos, scale))];
    }

    /** `UpdateWaterPositions`: update every live tile; a fault in one
      tile's height query aborts the pass. */
    method UpdateWaterPositions(grids: Chunk -> Grid) returns (fault: Option<Fault>)
      requires chunkManager != null
      modifies this`waterChunks
      ensures waterChunks.Keys == old(waterChunks).Keys
      ensures fault.None? <==> NoFault(old(waterChunks), chunkManager.activeChunks, chunkManager.chunkSize, grids,
                                       waterLevelOffset)
      ensures fault.None? ==>
                waterChunks == Repositioned(old(waterChunks), chunkManager.activeChunks, chunkManager.chunkSize, grids,
                                            waterLevelOffset)
      ensures fault.Some? ==>
                PartlyRepositioned(old(waterChunks), waterChunks, chunkManager.activeChunks, chunkManager.chunkSize, grids,
                                   waterLevelOffset)
                && (exists k :: k in old(waterChunks) && old(waterChunks)[k].Some?
                      && UpdatedTile(old(waterChunks)[k].value, chunkManager.activeChunks, chunkManager.chunkSize, grids,
                                     waterLevelOffset) == Err(fault.value))
    {
      ghost var before := waterChunks;
      ghost var chunks, size := chunkManager.activeChunks, chunkManager.chunkSize;
      var pending := waterChunks.Keys;
      while pending != {}
        decreases |pending|
        invariant pending <= before.Keys && waterChunks.Keys == before.Keys
        invariant forall k :: k in pending ==> waterChunks[k] == before[k]
        invariant forall k :: k in before && k !in pending && before[k].Some? ==>
                    UpdatedTile(before[k].value, chunks, size, grids, waterLevelOffset).Ok?
                    && waterChunks[k] == Some(UpdatedTile(before[k].value, chunks, size, grids, waterLevelOffset).value)
        invariant forall k :: k in before && k !in pending && before[k].None? ==> waterChunks[k] == None
      {
        var chunkPos :| chunkPos in pending;
        if waterChunks[chunkPos].Some? {
          fault := UpdateWaterPosition(chunkPos, grids);
          if fault.Some? {
            assert UpdatedTile(before[chunkPos].value, chunks, size, grids, waterLevelOffset) == Err(fault.value);
            assert PartlyRepositioned(before, waterChunks, chunks, size, grids, waterLevelOffset);
            return;
          }
        }
        pending := pending - {chunkPos};
      }
      fault := None;
    }

    /** One probe of `UpdateWaterPosition`'s lattice: the chunk under `p`
      and, if there is one, its height there unless that is exactly 0. */
    method SampleProbe(p: Vector3, grids: Chunk -> Grid) returns (r: Result<Option<real>>)
      requires chunkManager != null
      ensures r == SampleHeight(chunkManager.activeChunks, chunkManager.chunkSize, grids, p)
      ensures r.Ok? && r.value.Some? ==> r.value.value != 0.0
    {
      var chunk := chunkManager.GetChunkFromPosition(p);
      if chunk.Some? {
        var height := HeightQuery(grids(chunk.value), p);
        if height.Err? {
          return Err(height.fault);
        }
        if height.value != 0.0 {
          return Ok(Some(height.value));
        }
      }
      return Ok(None);
    }

    /** `UpdateWaterPosition`: probe the 5x5 lattice over the tile and move
      it to the average valid height plus `waterLevelOffset`. */
    method UpdateWaterPosition(chunkPos: Vector2Int, grids: Chunk -> Grid) returns (fault: Option<Fault>)
      requires chunkManager != null && chunkPos in waterChunks && waterChunks[chunkPos].Some?
      modifies this`waterChunks
      ensures var r := UpdatedTile(old(waterChunks)[chunkPos].value, chunkManager.activeChunks, chunkManager.chunkSize,
                                   grids, waterLevelOffset);
              && (fault.None? <==> r.Ok?)
              && (r.Ok? ==> waterChunks == old(waterChunks)[chunkPos := Some(r.value)])
              && (r.Err? ==> fault == Some(r.fault) && waterChunks == old(waterChunks))
    {
      var tile := waterChunks[chunkPos].value;
      var chunkCenter := tile.position;
      var chunks, size := chunkManager.activeChunks, chunkManager.chunkSize;
      var totalHeight := 0.0;
      var validSamples := 0;
      ghost var heights: seq<real> := [];
      var i := 0;
      while i < Samples
        invariant 0 <= i <= Samples
        invariant waterChunks == old(waterChunks)
        invariant Sampled(chunks, size, grids, chunkCenter, Samples * i) == Ok(heights)
        invariant totalHeight == Sum(heights) && validSamples == |heights|
      {
        var j := 0;
        while j < Samples
          invariant 0 <= j <= Samples
          invariant waterChunks == old(waterChunks)
          invariant Sampled(chunks, size, grids, chunkCenter, Samples * i + j) == Ok(heights)
          invariant totalHeight == Sum(heights) && validSamples == |heights|
        {
          var p := SamplePoint(chunkCenter, size, i, j);
          SampledStep(chunks, size, grids, chunkCenter, i, j);
          var probe := SampleProbe(p, grids);
          if probe.Err? {
            SampledFaultPersists(chunks, size, grids, chunkCenter, Samples * i + j + 1, Samples * Samples);
            assert UpdatedTile(tile, chunks, size, grids, waterLevelOffset) == Err(probe.fault);
            return Some(probe.fault);
          }
          if probe.value.Some? {
            SumAppend(heights, probe.value.value);
            totalHeight := totalHeight + probe.value.value;
            validSamples := validSamples + 1;
            heights := heights + [probe.value.value];
          }
          j := j + 1;
        }
        i := i + 1;
      }
      assert Sampled(chunks, size, grids, chunkCenter, Samples * Samples) == Ok(heights);
      if validSamples > 0 {
        var averageHeight := totalHeight / validSamples as real;
        var pos := chunkCenter.(y := averageHeight + waterLevelOffset);
        assert UpdatedTile(tile, chunks, size, grids, waterLevelOffset) == Ok(tile.(position := pos));
        waterChunks := waterChunks[chunkPos := Some(tile.(position := pos))];
      } else {
        assert UpdatedTile(tile, chunks, size, grids, waterLevelOffset) == Ok(tile);
      }
      return None;
    }
  }

  // ---------------------------------------------------------------------
  // Properties

  /** Probe (i, j) is the `5 i + j`-th of the row-by-row order. */
  lemma SampledStep(chunks: map<Vector2Int, Chunk>, size: PositiveInt, grids: Chunk -> Grid, centre: Vector3,
                    i: int, j: int)
    requires 0 <= i < Samples && 0 <= j < Samples
    ensures var before := Sampled(chunks, size, grids, centre, Samples * i + j);
            Sampled(chunks, size, grids, centre, Samples * i + j + 1)
            == match before
               case Err(f) => Err(f)
               case Ok(heights) =>
                 match SampleHeight(chunks, size, grids, SamplePoint(centre, size, i, j))
                 case Err(f) => Err(f)
                 case Ok(None) => Ok(heights)
                 case Ok(Some(h)) => Ok(heights + [h])
  {
    var n := Samples * i + j;
    assert n / Samples == i && n % Samples == j;
  }

  /** Once a probe faults, every longer prefix of the pass faults the same way. */
  lemma {:induction false} SampledFaultPersists(chunks: map<Vector2Int, Chunk>, size: PositiveInt, grids: Chunk -> Grid,
                                                centre: Vector3, n: nat, m: nat)
    requires n <= m && Sampled(chunks, size, grids, centre, n).Err?
    ensures Sampled(chunks, size, grids, centre, m) == Sampled(chunks, size, grids, centre, n)
    decreases m - n
  {
    if n < m {
      SampledFaultPersists(chunks, size, grids, centre, n, m - 1);
    }
  }

  lemma SumAppend(s: seq<real>, h: real)
    ensures Sum(s + [h]) == Sum(s) + h
  {
    assert (s + [h])[..|s|] == s;
  }

  /** The smallest and the largest of a non-empty sequence. */
  function SeqMin(s: seq<real>): (r: real)
    requires |s| > 0
    ensures r in s && forall h :: h in s ==> r <= h
  {
    if |s| == 1 then s[0]
    else
      var m := SeqMin(s[..|s| - 1]);
      assert forall h :: h in s ==> h in s[..|s| - 1] || h == s[|s| - 1];
      Min(m, s[|s| - 1])
  }

  function SeqMax(s: seq<real>): (r: real)
    requires |s| > 0
    ensures r in s && forall h :: h in s ==> h <= r
  {
    if |s| == 1 then s[0]
    else
      var m := SeqMax(s[..|s| - 1]);
      assert forall h :: h in s ==> h in s[..|s| - 1] || h == s[|s| - 1];
      Max(m, s[|s| - 1])
  }

  /** A sum of values in [lo, hi] lies in [n lo, n hi]. */
  lemma {:induction false} SumWithin(s: seq<real>, lo: real, hi: real)
    requires forall h :: h in s ==> lo <= h <= hi
    ensures |s| as real * lo <= Sum(s) <= |s| as real * hi
  {
    if s != [] {
      var init := s[..|s| - 1];
      assert forall h :: h in init ==> h in s;
      SumWithin(init, lo, hi);
      assert s[|s| - 1] in s;
    }
  }

  /** The average of the valid probes lies between the lowest and the
      highest of them. */
  lemma AverageWithinSamples(heights: seq<real>)
    requires |heights| > 0
    ensures SeqMin(heights) <= Sum(heights) / |heights| as real <= SeqMax(heights)
  {
    AverageWithin(heights, SeqMin(heights), SeqMax(heights));
  }

  /** The average of values in [lo, hi] lies in [lo, hi]. */
  lemma AverageWithin(s: seq<real>, lo: real, hi: real)
    requires |s| > 0 && forall h :: h in s ==> lo <= h <= hi
    ensures lo <= Sum(s) / |s| as real <= hi
  {
    SumWithin(s, lo, hi);
    AverageAbove(Sum(s), |s| as real, lo);
    AverageBelow(Sum(s), |s| as real, hi);
  }

  lemma AverageAbove(total: real, n: real, lo: real)
    requires n > 0.0 && n * lo <= total
    ensures lo <= total / n
  {
    var avg := total / n;
    assert avg * n == total;
    if avg < lo {
      ScaleStrict(avg, lo, n);
    }
  }

  lemma AverageBelow(total: real, n: real, hi: real)
    requires n > 0.0 && total <= n * hi
    ensures total / n <= hi
  {
    var avg := total / n;
    assert avg * n == total;
    if avg > hi {
      ScaleStrict(hi, avg, n);
    }
  }

  lemma ScaleStrict(a: real, b: real, n: real)
    requires a < b && n > 0.0
    ensures a * n < b * n
  {
    assert b * n - a * n == (b - a) * n;
  }

  /** A tile that moves keeps its x, z and scale; its new height is the
      offset above an average lying between the lowest and the highest
      valid probe. */
  lemma MovedTileStaysOverSamples(tile: WaterTile, chunks: map<Vector2Int, Chunk>, size: PositiveInt,
                                  grids: Chunk -> Grid, waterLevelOffset: real)
    requires UpdatedTile(tile, chunks, size, grids, waterLevelOffset).Ok?
    ensures var moved := UpdatedTile(tile, chunks, size, grids, waterLevelOffset).value;
            && moved.scale == tile.scale && moved.position.x == tile.position.x && moved.position.z == tile.position.z
            && (moved.position.y != tile.position.y ==>
                  var heights := Sampled(chunks, size, grids, tile.position, Samples * Samples).value;
                  |heights| > 0
                  && SeqMin(heights) <= moved.position.y - waterLevelOffset <= SeqMax(heights))
  {
    var heights := Sampled(chunks, size, grids, tile.position, Samples * Samples).value;
    if |heights| > 0 {
      AverageWithinSamples(heights);
    }
  }

  /** Zero heights never count as valid probes. */
  lemma {:induction false} ZeroHeightsExcluded(chunks: map<Vector2Int, Chunk>, size: PositiveInt, grids: Chunk -> Grid,
                                               centre: Vector3, n: nat)
    requires Sampled(chunks, size, grids, centre, n).Ok?
    ensures forall h :: h in Sampled(chunks, size, grids, centre, n).value ==> h != 0.0
  {
    if n > 0 {
      ZeroHeightsExcluded(chunks, size, grids, centre, n - 1);
    }
  }

  /** Every probe of a tile still at its chunk's centre lies in that chunk:
      at local offset `size * i / 5` on x and `size * j / 5` on z. */
  lemma ProbesStayInOwnChunk(k: Vector2Int, size: PositiveInt, i: int, j: int)
    requires 0 <= i < Samples && 0 <= j < Samples
    ensures var p := SamplePoint(TileCentre(k, size), size, i, j);
            && p.x == (k.x * size) as real + size as real * (i as real / Samples as real)
            && p.z == (k.y * size) as real + size as real * (j as real / Samples as real)
            && ChunkCoordinate(p, size) == k
  {
    var p := SamplePoint(TileCentre(k, size), size, i, j);
    FloorWithinChunk(k.x, size, i, p.x);
    FloorWithinChunk(k.y, size, j, p.z);
  }

  lemma FloorWithinChunk(c: int, size: PositiveInt, i: int, v: real)
    requires 0 <= i < Samples
    requires v == (c * size) as real + size as real * (i as real / Samples as real)
    ensures FloorToInt(v / size as real) == c
  {
    var s := size as real;
    var f := i as real / Samples as real;
    assert 0.0 <= f < 1.0;
    assert v == (c as real + f) * s;
    assert v / s == c as real + f;
  }

  /** Grids as ChunkManager and WorldGenerator leave them: each chunk's grid
      stands at its key's origin, spans `chunkSize`, and is complete once
      initialised. */
  predicate GridsMatch(chunks: map<Vector2Int, Chunk>, size: PositiveInt, grids: Chunk -> Grid) {
    forall k :: k in chunks ==>
      && grids(chunks[k]).origin == ChunkOrigin(k, size)
      && grids(chunks[k]).mapSize == size
      && (grids(chunks[k]).initialized ==> Complete(grids(chunks[k])))
  }

  /** Over matching grids the probes of a tile at its chunk's centre never
      fault: they all land in [0, size)^2 of their own chunk, inside the
      cells whose four corners exist. */
  lemma {:induction false} NoFaultOverMatchingGrids(chunks: map<Vector2Int, Chunk>, size: PositiveInt,
                                                   grids: Chunk -> Grid, k: Vector2Int, n: nat)
    requires GridsMatch(chunks, size, grids) && n <= Samples * Samples
    ensures Sampled(chunks, size, grids, TileCentre(k, size), n).Ok?
  {
    if n > 0 {
      NoFaultOverMatchingGrids(chunks, size, grids, k, n - 1);
      var i, j := (n - 1) / Samples, (n - 1) % Samples;
      ProbeNeverFaults(chunks, size, grids, k, i, j);
    }
  }

  lemma ProbeNeverFaults(chunks: map<Vector2Int, Chunk>, size: PositiveInt, grids: Chunk -> Grid, k: Vector2Int,
                         i: int, j: int)
    requires GridsMatch(chunks, size, grids) && 0 <= i < Samples && 0 <= j < Samples
    ensures SampleHeight(chunks, size, grids, SamplePoint(TileCentre(k, size), size, i, j)).Ok?
  {
    var p := SamplePoint(TileCentre(k, size), size, i, j);
    ProbesStayInOwnChunk(k, size, i, j);
    if k in chunks {
      var g := grids(chunks[k]);
      if g.initialized {
        var local := Local(g, p);
        LatticeInsideChunk(size, i);
        LatticeInsideChunk(size, j);
        InteriorBetweenCorners(g, p);
      }
    }
  }

  lemma LatticeInsideChunk(size: PositiveInt, i: int)
    requires 0 <= i < Samples
    ensures 0.0 <= size as real * (i as real / Samples as real) < size as real
  {
    var f := i as real / Samples as real;
    assert f < 1.0;
    ProductNonNegative(size as real, f);
    assert size as real - size as real * f == size as real * (1.0 - f);
    TerrainNoise.ProductPositive(size as real, 1.0 - f);
  }

  /** A new tile covers exactly its chunk's square: centred on it and as
      wide as it. */
  lemma NewTileCoversChunk(k: Vector2Int, size: PositiveInt)
    ensures var t := NewTile(k, size);
            && t.position.x - t.scale.x / 2.0 == ChunkOrigin(k, size).x
            && t.position.z - t.scale.z / 2.0 == ChunkOrigin(k, size).z
            && t.position.y == 0.0
  {
  }

  /** Tile creation never fails, so after `UpdateWaterChunks` the keys are
      exactly the 3x3 square around the camera's chunk. */
  lemma WaterKeysAreSquare(tiles: map<Vector2Int, Option<WaterTile>>, c: Vector2Int, size: int)
    ensures Reconciled(tiles, Square(c, 1), TileCreator(size)).Keys == Square(c, 1)
  {
    CreatedKeysAreKeep(tiles, Square(c, 1), TileCreator(size));
  }

  /** With a view distance of at least 1 the water square lies inside the
      terrain square around the same chunk. */
  lemma WaterInsideTerrain(c: Vector2Int, d: int)
    requires d >= 1
    ensures Square(c, 1) <= Square(c, d)
  {
    forall k | k in Square(c, 1)
      ensures k in Square(c, d)
    {
      SquareMembers(c, 1, k);
      SquareMembers(c, d, k);
    }
  }
}
