/** One terrain object (WorldGenerator): the build pass that fills the
    vertex, triangle, UV, biome, colour and normal arrays, the ambient
    occlusion pass over the colours, and the height query. */
module World {
  import opened UnityMath
  import opened Biomes
  import opened TerrainNoise
  import opened MeshGrid
  import opened HeightSampling

  /** How a pass that can raise ends. */
  datatype Outcome = Done | Failed(fault: Fault)

  /** The number of ring samples per vertex in the occlusion pass. */
  const OcclusionSamples: nat := 8

  // ---------------------------------------------------------------------
  // Specification of the arrays

  /** Vertex `i` of the grid: its column, its generated height, its row. */
  function GridVertex(s: TerrainSettings, noise: PerlinNoise, i: nat): Vector3
    requires s.WellFormed()
  {
    var x, z := Column(s.mapSize, i), Row(s.mapSize, i);
    Vector3(x as real, TerrainHeight(s, noise, x, z), z as real)
  }

  /** The label of a vertex: the classifier at its world position (the
      transform is a pure translation by `origin`) and its own height. */
  function VertexBiome(b: BiomeSettings, noise: PerlinNoise, origin: Vector3, v: Vector3): BiomeType
    requires b.WellFormed()
  {
    GetBiomeAtPosition(b, noise, origin.Plus(v), v.y)
  }

  /** `Vector3.Cross(b - a, c - a).normalized`; normalisation is a parameter. */
  function FaceNormal(normalized: Vector3 -> Vector3, a: Vector3, b: Vector3, c: Vector3): Vector3 {
    normalized(Cross(b.Minus(a), c.Minus(a)))
  }

  /** Every triangle entry addresses one of `n` vertices. */
  predicate Addresses(tris: seq<int>, n: int) {
    forall t :: 0 <= t < |tris| ==> 0 <= tris[t] < n
  }

  function AddAt(acc: seq<Vector3>, i: int, d: Vector3): (r: seq<Vector3>)
    requires 0 <= i < |acc|
    ensures |r| == |acc|
  {
    acc[i := acc[i].Plus(d)]
  }

  /** One triangle's face normal added at corner a, then b, then c. */
  function AddFace(acc: seq<Vector3>, verts: seq<Vector3>, normalized: Vector3 -> Vector3, a: int, b: int, c: int): (r: seq<Vector3>)
    requires 0 <= a < |acc| && 0 <= b < |acc| && 0 <= c < |acc|
    requires 0 <= a < |verts| && 0 <= b < |verts| && 0 <= c < |verts|
    ensures |r| == |acc|
  {
    var normal := FaceNormal(normalized, verts[a], verts[b], verts[c]);
    AddAt(AddAt(AddAt(acc, a, normal), b, normal), c, normal)
  }

  function Zeros(n: nat): (r: seq<Vector3>)
    ensures |r| == n
  {
    seq(n, _ => Vector3Zero)
  }

  /** The normal array after the first `k` triangles: zero everywhere, then
      each triangle's face normal added at its three corners in turn. */
  function Accumulated(verts: seq<Vector3>, tris: seq<int>, normalized: Vector3 -> Vector3, k: nat): (r: seq<Vector3>)
    requires 3 * k <= |tris| && Addresses(tris, |verts|)
    ensures |r| == |verts|
  {
    if k == 0 then Zeros(|verts|)
    else AddFace(Accumulated(verts, tris, normalized, k - 1), verts, normalized, tris[3 * k - 3], tris[3 * k - 2], tris[3 * k - 1])
  }

  /** Triangle `k` (slots 3k, 3k+1, 3k+2) added to the array after `k` triangles. */
  lemma AccumulatedStep(verts: seq<Vector3>, tris: seq<int>, normalized: Vector3 -> Vector3, k: nat)
    requires 3 * (k + 1) <= |tris| && Addresses(tris, |verts|)
    ensures Accumulated(verts, tris, normalized, k + 1)
         == AddFace(Accumulated(verts, tris, normalized, k), verts, normalized, tris[3 * k], tris[3 * k + 1], tris[3 * k + 2])
  {
  }

  function AddIf(v: Vector3, corner: bool, normal: Vector3): Vector3 {
    if corner then v.Plus(normal) else v
  }

  /** The same sum seen from one vertex: the face normals of the triangles
      among the first `k` that have `v` as a corner, once per corner. */
  function FaceSum(verts: seq<Vector3>, tris: seq<int>, normalized: Vector3 -> Vector3, k: nat, v: int): Vector3
    requires 3 * k <= |tris| && Addresses(tris, |verts|)
  {
    if k == 0 then Vector3Zero
    else
      var a, b, c := tris[3 * k - 3], tris[3 * k - 2], tris[3 * k - 1];
      var normal := FaceNormal(normalized, verts[a], verts[b], verts[c]);
      AddIf(AddIf(AddIf(FaceSum(verts, tris, normalized, k - 1, v), a == v, normal), b == v, normal), c == v, normal)
  }

  /** Ring sample `j` around a vertex: the vertex moved by the j-th offset
      on the horizontal circle of radius `ambientOcclusionRadius`. */
  function SamplePoint(v: Vector3, offset: Vector2): Vector3 {
    v.Plus(Vector3(offset.x, 0.0, offset.y))
  }

  /** How many of the first `j` ring samples read a height strictly above
      the vertex; the first faulting read aborts the count. */
  function OcclusionHits(g: Grid, v: Vector3, ring: int -> Vector2, j: nat): (r: Result<nat>)
    ensures r.Ok? ==> r.value <= j
  {
    if j == 0 then Ok(0)
    else
      match OcclusionHits(g, v, ring, j - 1)
      case Err(f) => Err(f)
      case Ok(hits) =>
        match HeightQuery(g, SamplePoint(v, ring(j - 1)))
        case Err(f) => Err(f)
        case Ok(sampleHeight) => Ok(if sampleHeight > v.y then hits + 1 else hits)
  }

  /** The occlusion factor `1 - (hits / samples) * strength`. */
  function OcclusionFactor(hits: real, samples: real, strength: real): real
    requires samples != 0.0
  {
    1.0 - (hits / samples) * strength
  }

  /** The rgb channels scaled by `ao`; alpha kept. */
  function Darken(c: Color, ao: real): Color {
    Color(c.r * ao, c.g * ao, c.b * ao, c.a)
  }

  /** A colour shaded by the occlusion factor of `hits`. */
  function Shade(c: Color, hits: nat, strength: real): Color {
    Darken(c, OcclusionFactor(hits as real, OcclusionSamples as real, strength))
  }

  /** Every vertex's eight samples read without a fault. */
  predicate AllSampled(g: Grid, verts: seq<Vector3>, ring: int -> Vector2) {
    forall i :: 0 <= i < |verts| ==> OcclusionHits(g, verts[i], ring, OcclusionSamples).Ok?
  }

  class WorldGenerator {
    const settings: TerrainSettings
    const biome: BiomeSettings
    const noise: PerlinNoise
    /** `transform.position`. */
    const position: Vector3
    /** The horizontal offsets of the eight occlusion samples. */
    const ring: int -> Vector2
    /** `Vector3.normalized`. */
    const normalized: Vector3 -> Vector3

    var vertices: array<Vector3>
    var triangles: array<int>
    var uvs: array<Vector2>
    var biomeTypes: array<BiomeType>
    var colors: array<Color>
    var normals: array<Vector3>
    var isInitialized: bool

    /** A fresh component: no mesh arrays yet, not initialised. */
    constructor (settings: TerrainSettings, biome: BiomeSettings, noise: PerlinNoise, position: Vector3,
                 ring: int -> Vector2, normalized: Vector3 -> Vector3)
      ensures this.settings == settings && this.biome == biome && this.noise == noise
      ensures this.position == position && this.ring == ring && this.normalized == normalized
      ensures !isInitialized
      ensures vertices.Length == 0 && triangles.Length == 0 && uvs.Length == 0
      ensures biomeTypes.Length == 0 && colors.Length == 0 && normals.Length == 0
    {
      this.settings := settings;
      this.biome := biome;
      this.noise := noise;
      this.position := position;
      this.ring := ring;
      this.normalized := normalized;
      vertices := new Vector3[0];
      triangles := new int[0];
      uvs := new Vector2[0];
      biomeTypes := new BiomeType[0];
      colors := new Color[0];
      normals := new Vector3[0];
      isInitialized := false;
    }

    /** What a height query reads of this object. */
    function CurrentGrid(): Grid
      reads this`isInitialized, this`vertices, vertices
    {
      Grid(isInitialized, position, settings.mapSize, vertices[..])
    }

    /** `GetHeightAtPosition`. */
    function GetHeightAtPosition(worldPos: Vector3): (r: Result<real>)
      reads this`isInitialized, this`vertices, vertices
      ensures !isInitialized ==> r == Ok(0.0)
      ensures settings.mapSize > 0 && vertices.Length == VertexCount(settings.mapSize) && isInitialized
              && WithinBounds(CurrentGrid(), Local(CurrentGrid(), worldPos))
              ==> (r.Err? <==> var local := Local(CurrentGrid(), worldPos);
                               FloorToInt(local.z) == settings.mapSize
                               || (FloorToInt(local.x) == settings.mapSize && FloorToInt(local.z) == settings.mapSize - 1))
    {
      if settings.mapSize > 0 && vertices.Length == VertexCount(settings.mapSize) && isInitialized
         && WithinBounds(CurrentGrid(), Local(CurrentGrid(), worldPos)) then
        FaultExactlyOnFarEdge(CurrentGrid(), worldPos);
        HeightQuery(CurrentGrid(), worldPos)
      else
        HeightQuery(CurrentGrid(), worldPos)
    }

    predicate VerticesBuilt()
      requires settings.WellFormed()
      reads this`vertices, vertices
    {
      && vertices.Length == VertexCount(settings.mapSize)
      && forall i :: 0 <= i < vertices.Length ==> vertices[i] == GridVertex(settings, noise, i)
    }

    predicate TrianglesBuilt()
      requires settings.WellFormed()
      reads this`triangles, triangles
    {
      && triangles.Length == TriangleSlots(settings.mapSize)
      && forall t :: 0 <= t < triangles.Length ==> triangles[t] == TriangleEntry(settings.mapSize, t)
    }

    /** `GenerateTerrain`: the seven build passes in order. A height read
      that raises in the occlusion pass aborts the build there, after the
      other arrays are rebuilt and before `colors` is shaded. */
    method GenerateTerrain() returns (outcome: Outcome)
      requires settings.WellFormed() && biome.WellFormed()
      modifies this`vertices, this`triangles, this`uvs, this`biomeTypes, this`colors, this`normals
      ensures fresh(vertices) && fresh(triangles) && fresh(uvs) && fresh(biomeTypes) && fresh(normals) && fresh(colors)
      ensures VerticesBuilt() && TrianglesBuilt() && UVsBuilt() && BiomesLabelled()
      ensures FacesAddressed() && NormalsBuilt()
      ensures outcome.Done? <==> AllSampled(CurrentGrid(), vertices[..], ring)
      ensures !isInitialized ==> outcome.Done?
      ensures outcome.Failed? ==> ColorsPainted()
      ensures outcome.Done? ==> colors.Length == vertices.Length
      ensures outcome.Done? ==> forall i :: 0 <= i < colors.Length ==>
                colors[i] == Shade(GetBiomeColor(biome, biomeTypes[i]),
                                   OcclusionHits(CurrentGrid(), vertices[i], ring, OcclusionSamples).value,
                                   settings.ambientOcclusionStrength)
    {
      BuildGeometry();
      BuildSurface();
      outcome := CalculateAmbientOcclusion();
      if !isInitialized {
        UninitializedAllSampled(CurrentGrid(), vertices[..], ring);
      }
    }

    /** The first three passes of `GenerateTerrain`. */
    method BuildGeometry()
      requires settings.WellFormed()
      modifies this`vertices, this`triangles, this`uvs
      ensures fresh(vertices) && fresh(triangles) && fresh(uvs)
      ensures VerticesBuilt() && TrianglesBuilt() && UVsBuilt() && FacesAddressed()
    {
      CreateVertices();
      CreateTriangles();
      BuiltTrianglesAreFaces(settings.mapSize, triangles[..]);
      CreateUVs();
    }

    /** The next three passes of `GenerateTerrain`. */
    method BuildSurface()
      requires biome.WellFormed() && FacesAddressed()
      modifies this`biomeTypes, this`colors, this`normals
      ensures fresh(biomeTypes) && fresh(colors) && fresh(normals)
      ensures BiomesLabelled() && ColorsPainted() && NormalsBuilt()
    {
      CreateBiomeTypes();
      CreateColors();
      CalculateNormals();
    }

    /** `Start`: build, then mark the component initialised; a build that
      raises never gets that far. */
    method Start() returns (outcome: Outcome)
      requires settings.WellFormed() && biome.WellFormed()
      modifies this`vertices, this`triangles, this`uvs, this`biomeTypes, this`colors, this`normals, this`isInitialized
      ensures fresh(vertices) && fresh(triangles) && fresh(uvs) && fresh(biomeTypes) && fresh(normals) && fresh(colors)
      ensures VerticesBuilt() && TrianglesBuilt() && UVsBuilt() && BiomesLabelled()
      ensures FacesAddressed() && NormalsBuilt()
      ensures !old(isInitialized) ==> outcome.Done?
      ensures outcome.Done? <==> AllSampled(Grid(old(isInitialized), position, settings.mapSize, vertices[..]), vertices[..], ring)
      ensures outcome.Done? ==> isInitialized
      ensures outcome.Failed? ==> isInitialized == old(isInitialized) && ColorsPainted()
      ensures outcome.Done? ==> colors.Length == vertices.Length
      ensures outcome.Done? ==> forall i :: 0 <= i < colors.Length ==>
                colors[i] == Shade(GetBiomeColor(biome, biomeTypes[i]),
                                   OcclusionHits(Grid(old(isInitialized), position, settings.mapSize, vertices[..]),
                                                 vertices[i], ring, OcclusionSamples).value,
                                   settings.ambientOcclusionStrength)
      ensures !old(isInitialized) && settings.heightMultiplier >= 0.0 ==>
                forall i :: 0 <= i < colors.Length ==> colors[i] == GetBiomeColor(biome, biomeTypes[i])
    {
      outcome := GenerateTerrain();
      if !isInitialized && settings.heightMultiplier >= 0.0 {
        FirstBuildKeepsBiomeColors();
        forall i | 0 <= i < colors.Length
          ensures colors[i] == GetBiomeColor(biome, biomeTypes[i])
        {
          NoHitsNoShade(GetBiomeColor(biome, biomeTypes[i]), settings.ambientOcclusionStrength);
        }
      }
      if outcome.Done? {
        isInitialized := true;
      }
    }

    /** On the first build (not yet initialised) with a non-negative height
      multiplier every sample reads 0, no vertex lies below it, and the
      occlusion pass leaves each biome colour as it is. */
    lemma FirstBuildKeepsBiomeColors()
      requires settings.WellFormed() && biome.WellFormed() && settings.heightMultiplier >= 0.0
      requires !isInitialized && VerticesBuilt()
      ensures forall i :: 0 <= i < vertices.Length ==>
                OcclusionHits(CurrentGrid(), vertices[i], ring, OcclusionSamples) == Ok(0)
    {
      forall i | 0 <= i < vertices.Length
        ensures OcclusionHits(CurrentGrid(), vertices[i], ring, OcclusionSamples) == Ok(0)
      {
        assert vertices[i].y == TerrainHeight(settings, noise, Column(settings.mapSize, i), Row(settings.mapSize, i));
        UninitializedNoHits(CurrentGrid(), vertices[i], ring, OcclusionSamples);
      }
    }

    predicate UVsBuilt()
      requires settings.WellFormed()
      reads this`uvs, uvs, this`vertices
    {
      && uvs.Length == vertices.Length
      && forall i :: 0 <= i < uvs.Length ==> uvs[i] == GridUV(settings.mapSize, i)
    }

    predicate BiomesLabelled()
      requires biome.WellFormed()
      reads this`biomeTypes, biomeTypes, this`vertices, vertices
    {
      && biomeTypes.Length == vertices.Length
      && forall i :: 0 <= i < biomeTypes.Length ==> biomeTypes[i] == VertexBiome(biome, noise, position, vertices[i])
    }

    /** Every vertex coloured by the label the classifier gives it. */
    predicate ColorsPainted()
      requires biome.WellFormed()
      reads this`colors, colors, this`vertices, vertices
    {
      && colors.Length == vertices.Length
      && forall i :: 0 <= i < colors.Length ==>
           colors[i] == GetBiomeColor(biome, VertexBiome(biome, noise, position, vertices[i]))
    }

    /** The triangle array holds whole triangles whose corners are vertices. */
    predicate FacesAddressed()
      reads this`triangles, triangles, this`vertices
    {
      triangles.Length % 3 == 0 && Addresses(triangles[..], vertices.Length)
    }

    predicate NormalsBuilt()
      requires FacesAddressed()
      reads this`normals, normals, this`vertices, vertices, this`triangles, triangles
    {
      && normals.Length == vertices.Length
      && forall i :: 0 <= i < normals.Length ==>
           normals[i] == normalized(Accumulated(vertices[..], triangles[..], normalized, triangles.Length / 3)[i])
    }

    /** `CreateVertices`: row by row, vertex `i` is (x, height(x, z), z). */
    method CreateVertices()
      requires settings.WellFormed()
      modifies this`vertices
      ensures fresh(vertices)
      ensures VerticesBuilt()
    {
      var m := settings.mapSize;
      vertices := new Vector3[(m + 1) * (m + 1)];
      var i := 0;
      var z := 0;
      while z <= m
        modifies vertices
        invariant 0 <= z <= m + 1
        invariant i == z * (m + 1) && i <= vertices.Length
        invariant forall j :: 0 <= j < i ==> vertices[j] == GridVertex(settings, noise, j)
      {
        var x := 0;
        while x <= m
          modifies vertices
          invariant 0 <= x <= m + 1
          invariant i == z * (m + 1) + x && i <= vertices.Length
          invariant forall j :: 0 <= j < i ==> vertices[j] == GridVertex(settings, noise, j)
        {
          VertexStep(m, x, z, i);
          SetVertex(m, x, z, i);
          i := i + 1;
          x := x + 1;
        }
        NextRow(m, z, i);
        z := z + 1;
      }
    }

    /** One pass of the inner vertex loop: the height at (x, z) stored at `i`. */
    method SetVertex(m: nat, x: nat, z: nat, i: int)
      requires settings.WellFormed() && m == settings.mapSize
      requires 0 <= i < vertices.Length && Column(m, i) == x && Row(m, i) == z
      requires forall j :: 0 <= j < i ==> vertices[j] == GridVertex(settings, noise, j)
      modifies vertices
      ensures forall j :: 0 <= j <= i ==> vertices[j] == GridVertex(settings, noise, j)
    {
      var y := GenerateHeight(settings, noise, x, z);
      vertices[i] := Vector3(x as real, y, z as real);
    }

    /** `CreateTriangles`: the running counters `vert` and `tris` fill every
      slot with its closed form. */
    method CreateTriangles()
      requires settings.WellFormed()
      modifies this`triangles
      ensures fresh(triangles)
      ensures TrianglesBuilt()
    {
      var m := settings.mapSize;
      triangles := new int[m * m * 6];
      var vert := 0;
      var tris := 0;
      var z := 0;
      while z < m
        modifies triangles
        invariant 0 <= z <= m
        invariant vert == z * (m + 1)
        invariant tris == 6 * (z * m) && 0 <= tris <= triangles.Length
        invariant forall t :: 0 <= t < tris ==> triangles[t] == TriangleEntry(m, t)
      {
        var x := 0;
        while x < m
          modifies triangles
          invariant 0 <= x <= m
          invariant vert == z * (m + 1) + x
          invariant tris == 6 * (z * m + x) && 0 <= tris <= triangles.Length
          invariant forall t :: 0 <= t < tris ==> triangles[t] == TriangleEntry(m, t)
        {
          TriangleStep(m, x, z, vert, tris);
          FillCell(m, vert, tris);
          vert := vert + 1;
          tris := tris + 6;
          x := x + 1;
        }
        NextCellRow(m, z, vert, tris);
        vert := vert + 1;
        z := z + 1;
      }
    }

    /** The six writes of one cell: its two triangles. */
    method FillCell(m: nat, vert: int, tris: int)
      requires m > 0 && 0 <= tris && tris + 6 <= triangles.Length
      requires TriangleEntry(m, tris) == vert && TriangleEntry(m, tris + 1) == vert + m + 1
      requires TriangleEntry(m, tris + 2) == vert + 1 && TriangleEntry(m, tris + 3) == vert + 1
      requires TriangleEntry(m, tris + 4) == vert + m + 1 && TriangleEntry(m, tris + 5) == vert + m + 2
      requires forall t :: 0 <= t < tris ==> triangles[t] == TriangleEntry(m, t)
      modifies triangles
      ensures forall t :: 0 <= t < tris + 6 ==> triangles[t] == TriangleEntry(m, t)
    {
      FillTriangle(m, tris, vert + 0, vert + m + 1, vert + 1);
      FillTriangle(m, tris + 3, vert + 1, vert + m + 1, vert + m + 2);
    }

    /** Three consecutive slots from `tris` set to the corners a, b, c. */
    method FillTriangle(m: nat, tris: int, a: int, b: int, c: int)
      requires m > 0 && 0 <= tris && tris + 3 <= triangles.Length
      requires TriangleEntry(m, tris) == a && TriangleEntry(m, tris + 1) == b && TriangleEntry(m, tris + 2) == c
      requires forall t :: 0 <= t < tris ==> triangles[t] == TriangleEntry(m, t)
      modifies triangles
      ensures forall t :: 0 <= t < tris + 3 ==> triangles[t] == TriangleEntry(m, t)
    {
      triangles[tris] := a;
      triangles[tris + 1] := b;
      triangles[tris + 2] := c;
    }

    /** `CreateUVs`: on the built grid, vertex `i` gets (x / m, z / m). */
    method CreateUVs()
      requires settings.WellFormed() && VerticesBuilt()
      modifies this`uvs
      ensures fresh(uvs)
      ensures UVsBuilt()
    {
      var m := settings.mapSize;
      uvs := new Vector2[vertices.Length];
      var i := 0;
      while i < vertices.Length
        modifies uvs
        invariant 0 <= i <= vertices.Length
        invariant forall j :: 0 <= j < i ==> uvs[j] == GridUV(m, j)
      {
        uvs[i] := Vector2(vertices[i].x / m as real, vertices[i].z / m as real);
        i := i + 1;
      }
    }

    /** `CreateBiomeTypes`: each vertex labelled at its world position. */
    method CreateBiomeTypes()
      requires biome.WellFormed()
      modifies this`biomeTypes
      ensures fresh(biomeTypes)
      ensures BiomesLabelled()
      ensures forall i :: 0 <= i < biomeTypes.Length ==> biomeTypes[i].IsNamed()
    {
      biomeTypes := new BiomeType[vertices.Length];
      var i := 0;
      while i < vertices.Length
        modifies biomeTypes
        invariant 0 <= i <= vertices.Length
        invariant forall j :: 0 <= j < i ==>
                    biomeTypes[j] == VertexBiome(biome, noise, position, vertices[j]) && biomeTypes[j].IsNamed()
      {
        var worldPos := position.Plus(vertices[i]);
        biomeTypes[i] := GetBiomeAtPosition(biome, noise, worldPos, vertices[i].y);
        i := i + 1;
      }
    }

    /** `CreateColors`: each vertex gets the colour of its label, the label
      classified afresh. */
    method CreateColors()
      requires biome.WellFormed()
      modifies this`colors
      ensures fresh(colors)
      ensures ColorsPainted()
    {
      colors := new Color[vertices.Length];
      var i := 0;
      while i < vertices.Length
        modifies colors
        invariant 0 <= i <= vertices.Length
        invariant forall j :: 0 <= j < i ==>
                    colors[j] == GetBiomeColor(biome, VertexBiome(biome, noise, position, vertices[j]))
      {
        var worldPos := position.Plus(vertices[i]);
        var biomeType := GetBiomeAtPosition(biome, noise, worldPos, vertices[i].y);
        colors[i] := GetBiomeColor(biome, biomeType);
        i := i + 1;
      }
    }

    /** `CalculateNormals`: zero, accumulate every triangle's face normal at
      its corners, normalise. */
    method CalculateNormals()
      requires FacesAddressed()
      modifies this`normals
      ensures fresh(normals)
      ensures NormalsBuilt()
    {
      normals := new Vector3[vertices.Length];
      ClearNormals();
      AccumulateFaceNormals(triangles.Length / 3);
      NormalizeNormals();
    }

    /** The first loop of `CalculateNormals`. */
    method ClearNormals()
      modifies normals
      ensures normals[..] == Zeros(normals.Length)
    {
      var i := 0;
      while i < normals.Length
        invariant 0 <= i <= normals.Length
        invariant forall j :: 0 <= j < i ==> normals[j] == Vector3Zero
      {
        normals[i] := Vector3Zero;
        i := i + 1;
      }
    }

    /** The second loop of `CalculateNormals`: triangle by triangle, the face
      normal is added at corner a, then b, then c. */
    method AccumulateFaceNormals(ghost count: nat)
      requires normals != vertices && normals.Length == vertices.Length
      requires triangles.Length == 3 * count && Addresses(triangles[..], vertices.Length)
      requires normals[..] == Zeros(vertices.Length)
      modifies normals
      ensures normals[..] == Accumulated(vertices[..], triangles[..], normalized, count)
    {
      ghost var verts, tris := vertices[..], triangles[..];
      var i := 0;
      ghost var k := 0;
      while i < triangles.Length
        invariant 0 <= k <= count && i == 3 * k
        invariant verts == vertices[..] && tris == triangles[..]
        invariant normals[..] == Accumulated(verts, tris, normalized, k)
      {
        AddTriangle(verts, tris, i, k);
        i := i + 3;
        k := k + 1;
      }
      assert k == count;
    }

    /** One pass of the second loop: triangle `k`, whose corners sit at
      `triangles[i]`, `triangles[i + 1]` and `triangles[i + 2]`. */
    method AddTriangle(ghost verts: seq<Vector3>, ghost tris: seq<int>, i: int, ghost k: nat)
      requires verts == vertices[..] && tris == triangles[..] && Addresses(tris, |verts|)
      requires normals != vertices && normals.Length == vertices.Length
      requires i == 3 * k && i + 3 <= triangles.Length
      requires normals[..] == Accumulated(verts, tris, normalized, k)
      modifies normals
      ensures normals[..] == Accumulated(verts, tris, normalized, k + 1)
    {
      var vertexIndexA := triangles[i];
      var vertexIndexB := triangles[i + 1];
      var vertexIndexC := triangles[i + 2];
      var normal := FaceNormal(normalized, vertices[vertexIndexA], vertices[vertexIndexB], vertices[vertexIndexC]);
      AccumulatedStep(verts, tris, normalized, k);
      AddFaceNormal(vertexIndexA, vertexIndexB, vertexIndexC, normal);
    }

    /** `normals[a] += normal; normals[b] += normal; normals[c] += normal;` */
    method AddFaceNormal(a: int, b: int, c: int, normal: Vector3)
      requires 0 <= a < normals.Length && 0 <= b < normals.Length && 0 <= c < normals.Length
      modifies normals
      ensures normals[..] == AddAt(AddAt(AddAt(old(normals[..]), a, normal), b, normal), c, normal)
    {
      normals[a] := normals[a].Plus(normal);
      normals[b] := normals[b].Plus(normal);
      normals[c] := normals[c].Plus(normal);
    }

    /** The third loop of `CalculateNormals`. */
    method NormalizeNormals()
      modifies normals
      ensures forall j :: 0 <= j < normals.Length ==> normals[j] == normalized(old(normals[j]))
    {
      ghost var sums := normals[..];
      var i := 0;
      while i < normals.Length
        invariant 0 <= i <= normals.Length
        invariant forall j :: 0 <= j < i ==> normals[j] == normalized(sums[j])
        invariant forall j :: i <= j < normals.Length ==> normals[j] == sums[j]
      {
        assert normals[i] == sums[i];
        normals[i] := normalized(normals[i]);
        assert normals[i] == normalized(sums[i]);
        i := i + 1;
      }
    }

    /** `CalculateAmbientOcclusion`: every vertex counts the ring samples
      above it and its colour is shaded by that count. A faulting height
      read aborts the pass and leaves `colors` as it was. */
    method CalculateAmbientOcclusion() returns (outcome: Outcome)
      requires colors.Length == vertices.Length
      modifies this`colors
      ensures outcome.Done? <==> AllSampled(CurrentGrid(), vertices[..], ring)
      ensures outcome.Failed? ==> colors == old(colors)
      ensures outcome.Done? ==> fresh(colors) && colors.Length == vertices.Length
      ensures outcome.Done? ==> forall i :: 0 <= i < colors.Length ==>
                colors[i] == Shade(old(colors[i]), OcclusionHits(CurrentGrid(), vertices[i], ring, OcclusionSamples).value,
                                   settings.ambientOcclusionStrength)
    {
      var aoColors := new Color[vertices.Length];
      ghost var g := CurrentGrid();
      var i := 0;
      while i < vertices.Length
        modifies aoColors
        invariant 0 <= i <= vertices.Length
        invariant forall k :: 0 <= k < i ==> OcclusionHits(g, vertices[k], ring, OcclusionSamples).Ok?
        invariant forall k :: 0 <= k < i ==>
                    aoColors[k] == Shade(colors[k], OcclusionHits(g, vertices[k], ring, OcclusionSamples).value,
                                         settings.ambientOcclusionStrength)
      {
        var samples := OcclusionSamples;
        var count := CountOcclusionHits(vertices[i]);
        if count.Err? {
          return Failed(count.fault);
        }
        var ao := OcclusionFactor(count.value, samples as real, settings.ambientOcclusionStrength);
        var biomeColor := colors[i];
        aoColors[i] := Darken(biomeColor, ao);
        i := i + 1;
      }
      colors := aoColors;
      return Done;
    }

    /** The inner loop of the occlusion pass for one vertex: the running
      count `ao` of ring samples strictly above it, or the fault of the
      first sample read that raises. */
    method CountOcclusionHits(v: Vector3) returns (r: Result<real>)
      ensures r.Ok? <==> OcclusionHits(CurrentGrid(), v, ring, OcclusionSamples).Ok?
      ensures r.Ok? ==> r.value == OcclusionHits(CurrentGrid(), v, ring, OcclusionSamples).value as real
    {
      ghost var g := CurrentGrid();
      var ao := 0.0;
      var samples := OcclusionSamples;
      var j := 0;
      while j < samples
        invariant 0 <= j <= samples
        invariant OcclusionHits(g, v, ring, j).Ok?
        invariant ao == OcclusionHits(g, v, ring, j).value as real
      {
        var samplePos := SamplePoint(v, ring(j));
        var sampleHeight := GetHeightAtPosition(samplePos);
        HitsStep(g, v, ring, j);
        assert sampleHeight == HeightQuery(g, samplePos);
        if sampleHeight.Err? {
          HitsFaultPersists(g, v, ring, j + 1, OcclusionSamples);
          return Err(sampleHeight.fault);
        }
        if sampleHeight.value > v.y {
          ao := ao + 1.0;
        }
        j := j + 1;
      }
      return Ok(ao);
    }
  }

  // ---------------------------------------------------------------------
  // Properties of the specification functions

  /** Sample `j` extends the count of the first `j` samples. */
  lemma HitsStep(g: Grid, v: Vector3, ring: int -> Vector2, j: nat)
    ensures OcclusionHits(g, v, ring, j + 1)
         == match OcclusionHits(g, v, ring, j)
            case Err(f) => Err(f)
            case Ok(hits) =>
              match HeightQuery(g, SamplePoint(v, ring(j)))
              case Err(f) => Err(f)
              case Ok(sampleHeight) => Ok(if sampleHeight > v.y then hits + 1 else hits)
  {
  }

  /** Once a sample faults, the count stays faulted. */
  lemma {:induction false} HitsFaultPersists(g: Grid, v: Vector3, ring: int -> Vector2, j: nat, k: nat)
    requires j <= k && OcclusionHits(g, v, ring, j).Err?
    ensures OcclusionHits(g, v, ring, k).Err?
  {
    if j < k {
      HitsFaultPersists(g, v, ring, j, k - 1);
    }
  }

  /** On an uninitialised grid every sample reads 0, which is never strictly
      above a vertex of non-negative height: no hits and no fault. */
  lemma {:induction false} UninitializedNoHits(g: Grid, v: Vector3, ring: int -> Vector2, j: nat)
    requires !g.initialized && v.y >= 0.0
    ensures OcclusionHits(g, v, ring, j) == Ok(0)
  {
    if j > 0 {
      UninitializedNoHits(g, v, ring, j - 1);
    }
  }

  /** An uninitialised grid answers every read with 0: no sample faults. */
  lemma {:induction false} UninitializedNeverFaults(g: Grid, v: Vector3, ring: int -> Vector2, j: nat)
    requires !g.initialized
    ensures OcclusionHits(g, v, ring, j).Ok?
  {
    if j > 0 {
      UninitializedNeverFaults(g, v, ring, j - 1);
    }
  }

  lemma UninitializedAllSampled(g: Grid, verts: seq<Vector3>, ring: int -> Vector2)
    requires !g.initialized
    ensures AllSampled(g, verts, ring)
  {
    forall i | 0 <= i < |verts|
      ensures OcclusionHits(g, verts[i], ring, OcclusionSamples).Ok?
    {
      UninitializedNeverFaults(g, verts[i], ring, OcclusionSamples);
    }
  }

  /** The triangle array CreateTriangles builds holds 2 m^2 whole triangles,
      each corner a vertex of the grid. */
  lemma BuiltTrianglesAreFaces(m: nat, tris: seq<int>)
    requires m > 0 && |tris| == TriangleSlots(m)
    requires forall t :: 0 <= t < |tris| ==> tris[t] == TriangleEntry(m, t)
    ensures |tris| == 3 * (2 * m * m) && |tris| % 3 == 0
    ensures Addresses(tris, VertexCount(m))
  {
    forall t | 0 <= t < |tris|
      ensures 0 <= tris[t] < VertexCount(m)
    {
      TriangleEntryInRange(m, t);
    }
  }

  /** No hits leave a colour as it is. */
  lemma NoHitsNoShade(c: Color, strength: real)
    ensures Shade(c, 0, strength) == c
  {
  }

  /** With a strength in [0, 1] the factor applied to rgb lies between
      `1 - strength` (all eight samples above) and 1 (none). */
  lemma ShadeFactorRange(hits: nat, strength: real)
    requires hits <= OcclusionSamples && 0.0 <= strength <= 1.0
    ensures 1.0 - strength <= OcclusionFactor(hits as real, OcclusionSamples as real, strength)
    ensures OcclusionFactor(hits as real, OcclusionSamples as real, strength) <= 1.0
  {
    var q := hits as real / OcclusionSamples as real;
    UnitFraction(hits as real, OcclusionSamples as real);
    ProductNonNegative(q, strength);
    ProductNonNegative(1.0 - q, strength);
    assert (1.0 - q) * strength == strength - q * strength;
  }

  /** The accumulated array, read at one vertex, is that vertex's face sum. */
  lemma {:induction false} AccumulatedIsFaceSum(verts: seq<Vector3>, tris: seq<int>, normalized: Vector3 -> Vector3,
                                                k: nat, v: int)
    requires 3 * k <= |tris| && Addresses(tris, |verts|) && 0 <= v < |verts|
    ensures Accumulated(verts, tris, normalized, k)[v] == FaceSum(verts, tris, normalized, k, v)
  {
    if k > 0 {
      AccumulatedIsFaceSum(verts, tris, normalized, k - 1, v);
    }
  }

  /** A vertex that is no triangle's corner keeps a zero sum. */
  lemma {:induction false} UntouchedStaysZero(verts: seq<Vector3>, tris: seq<int>, normalized: Vector3 -> Vector3,
                                              k: nat, v: int)
    requires 3 * k <= |tris| && Addresses(tris, |verts|)
    requires forall t :: 0 <= t < 3 * k ==> tris[t] != v
    ensures FaceSum(verts, tris, normalized, k, v) == Vector3Zero
  {
    if k > 0 {
      assert tris[3 * k - 3] != v && tris[3 * k - 2] != v && tris[3 * k - 1] != v;
      UntouchedStaysZero(verts, tris, normalized, k - 1, v);
    }
  }
}
