/** `WorldGenerator.GetHeightAtPosition`: a bilinear height query over the
    vertex grid of one terrain object. */
module HeightSampling {
  import opened UnityMath
  import opened MeshGrid

  /** The exception an out-of-bounds array read raises. */
  datatype Fault = IndexOutOfRange

  datatype Result<T> = Ok(value: T) | Err(fault: Fault)

  /** What a height query reads of its WorldGenerator: the `isInitialized`
      flag, the transform's position, `mapSize` and the vertex array. */
  datatype Grid = Grid(initialized: bool, origin: Vector3, mapSize: int, vertices: seq<Vector3>)

  /** The index of grid column x, row z: `z * (mapSize + 1) + x`. */
  function GridIndex(m: int, x: int, z: int): int {
    z * (m + 1) + x
  }

  predicate InGridArray(g: Grid, i: int) {
    0 <= i < |g.vertices|
  }

  /** The query position relative to the grid's origin. */
  function Local(g: Grid, worldPos: Vector3): Vector3 {
    worldPos.Minus(g.origin)
  }

  /** The script's bounds test: both local coordinates in [0, mapSize]. */
  predicate WithinBounds(g: Grid, local: Vector3) {
    !(local.x < 0.0 || local.x > g.mapSize as real || local.z < 0.0 || local.z > g.mapSize as real)
  }

  /** 0 when the grid is not initialised or the position lies outside the
      square; otherwise the four vertices around the floored position are
      read (an index past the array raises `IndexOutOfRange`) and blended,
      first along x, then along z. */
  function HeightQuery(g: Grid, worldPos: Vector3): Result<real> {
    if !g.initialized then Ok(0.0)
    else
      var local := Local(g, worldPos);
      if !WithinBounds(g, local) then Ok(0.0)
      else
        var x := FloorToInt(local.x);
        var z := FloorToInt(local.z);
        var i00 := GridIndex(g.mapSize, x, z);
        var i10 := GridIndex(g.mapSize, x + 1, z);
        var i01 := GridIndex(g.mapSize, x, z + 1);
        var i11 := GridIndex(g.mapSize, x + 1, z + 1);
        if !(InGridArray(g, i00) && InGridArray(g, i10) && InGridArray(g, i01) && InGridArray(g, i11)) then
          Err(IndexOutOfRange)
        else
          var u := local.x - x as real;
          var v := local.z - z as real;
          var height0 := Lerp(g.vertices[i00].y, g.vertices[i10].y, u);
          var height1 := Lerp(g.vertices[i01].y, g.vertices[i11].y, u);
          Ok(Lerp(height0, height1, v))
  }

  /** A grid as CreateVertices leaves it: (mapSize + 1)^2 vertices. */
  predicate Complete(g: Grid) {
    g.mapSize > 0 && |g.vertices| == VertexCount(g.mapSize)
  }

  function Min4(a: real, b: real, c: real, d: real): real {
    Min(Min(a, b), Min(c, d))
  }

  function Max4(a: real, b: real, c: real, d: real): real {
    Max(Max(a, b), Max(c, d))
  }

  // ---------------------------------------------------------------------
  // Properties

  /** An uninitialised grid, or a position outside [0, m]^2, answers 0. */
  lemma ZeroOffGrid(g: Grid, worldPos: Vector3)
    requires !g.initialized || !WithinBounds(g, Local(g, worldPos))
    ensures HeightQuery(g, worldPos) == Ok(0.0)
  {
  }

  /** Inside [0, m)^2 all four corner reads are in range and the answer lies
      between the lowest and the highest of the four corner heights. */
  lemma InteriorBetweenCorners(g: Grid, worldPos: Vector3)
    requires g.initialized && Complete(g)
    requires 0.0 <= Local(g, worldPos).x < g.mapSize as real
    requires 0.0 <= Local(g, worldPos).z < g.mapSize as real
    ensures var local := Local(g, worldPos);
            var x, z := FloorToInt(local.x), FloorToInt(local.z);
            && 0 <= GridIndex(g.mapSize, x, z)
            && GridIndex(g.mapSize, x + 1, z + 1) < |g.vertices|
            && HeightQuery(g, worldPos).Ok?
            && Min4(g.vertices[GridIndex(g.mapSize, x, z)].y, g.vertices[GridIndex(g.mapSize, x + 1, z)].y,
                    g.vertices[GridIndex(g.mapSize, x, z + 1)].y, g.vertices[GridIndex(g.mapSize, x + 1, z + 1)].y)
               <= HeightQuery(g, worldPos).value
            && HeightQuery(g, worldPos).value
               <= Max4(g.vertices[GridIndex(g.mapSize, x, z)].y, g.vertices[GridIndex(g.mapSize, x + 1, z)].y,
                       g.vertices[GridIndex(g.mapSize, x, z + 1)].y, g.vertices[GridIndex(g.mapSize, x + 1, z + 1)].y)
  {
    var local := Local(g, worldPos);
    var x, z := FloorToInt(local.x), FloorToInt(local.z);
    CornerIndices(g.mapSize, x, z);
  }

  /** Inside the square, the query faults exactly on the far row (floored
      z == m) and in the last cell of the far column (x == m, z == m - 1),
      where the `x + 1` corners run past the end of the array. */
  lemma FaultExactlyOnFarEdge(g: Grid, worldPos: Vector3)
    requires g.initialized && Complete(g) && WithinBounds(g, Local(g, worldPos))
    ensures var local := Local(g, worldPos);
            var x, z := FloorToInt(local.x), FloorToInt(local.z);
            (HeightQuery(g, worldPos).Err?
             <==> z == g.mapSize || (x == g.mapSize && z == g.mapSize - 1))
  {
    var local := Local(g, worldPos);
    var x, z := FloorToInt(local.x), FloorToInt(local.z);
    CornerIndices(g.mapSize, x, z);
  }

  /** At a grid point the answer is that vertex's height, including points
      of the last column below its last cell, whose `x + 1` corners wrap to
      the next row but get weight 0. */
  lemma GridPointHeight(g: Grid, x: int, z: int, y: real)
    requires g.initialized && Complete(g)
    requires 0 <= x <= g.mapSize && 0 <= z < g.mapSize && !(x == g.mapSize && z == g.mapSize - 1)
    ensures HeightQuery(g, g.origin.Plus(Vector3(x as real, y, z as real)))
         == Ok(g.vertices[GridIndex(g.mapSize, x, z)].y)
  {
    var worldPos := g.origin.Plus(Vector3(x as real, y, z as real));
    assert Local(g, worldPos) == Vector3(x as real, y, z as real);
    assert FloorToInt(x as real) == x;
    assert FloorToInt(z as real) == z;
    CornerIndices(g.mapSize, x, z);
  }

  /** The four corner indices of cell (x, z) against the array length. */
  lemma CornerIndices(m: int, x: int, z: int)
    requires m > 0 && 0 <= x <= m && 0 <= z <= m
    ensures 0 <= GridIndex(m, x, z)
    ensures GridIndex(m, x, z) < VertexCount(m)
    ensures GridIndex(m, x, z + 1) < VertexCount(m) <==> z < m
    ensures GridIndex(m, x + 1, z) < VertexCount(m) <==> !(z == m && x == m)
    ensures GridIndex(m, x + 1, z + 1) < VertexCount(m) <==> z < m && !(z == m - 1 && x == m)
  {
    var w := m + 1;
    assert VertexCount(m) == m * w + w;
    assert GridIndex(m, x, z + 1) == z * w + w + x;
    MulMonotone(0, z, w);
    if z == m {
    } else if z == m - 1 {
      assert z * w == m * w - w;
    } else {
      MulMonotone(z, m - 2, w);
      assert (m - 2) * w == m * w - w - w;
    }
  }

  lemma MulMonotone(a: int, b: int, w: int)
    requires a <= b && w >= 0
    ensures a * w <= b * w
  {
    NonNegativeProduct(b - a, w);
    assert (b - a) * w == b * w - a * w;
  }
}
