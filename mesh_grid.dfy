/** Index arithmetic of the grid mesh a WorldGenerator builds: an
    (m+1) x (m+1) vertex grid stored row by row, and 6 m^2 triangle indices,
    two triangles per cell, the cells stored row by row. */
module MeshGrid {
  import opened UnityMath

  /** The length of `vertices`: (m+1)^2. */
  function VertexCount(m: nat): nat {
    (m + 1) * (m + 1)
  }

  /** The length of `triangles`: 6 m^2. */
  function TriangleSlots(m: nat): nat {
    m * m * 6
  }

  /** The grid column (x) of vertex `i`. */
  function Column(m: nat, i: nat): nat {
    i % (m + 1)
  }

  /** The grid row (z) of vertex `i`. */
  function Row(m: nat, i: nat): nat {
    i / (m + 1)
  }

  /** The lower-left vertex of cell `c`, the cells numbered row by row. */
  function CellVertex(m: nat, c: nat): nat
    requires m > 0
  {
    (c / m) * (m + 1) + c % m
  }

  /** The closed form of triangle slot `t`: slot `k = t % 6` of cell `t / 6`,
      whose lower-left vertex is `v`, holds v, v+m+1, v+1, v+1, v+m+1, v+m+2. */
  function TriangleEntry(m: nat, t: nat): nat
    requires m > 0
  {
    var v := CellVertex(m, t / 6);
    var k := t % 6;
    if k == 0 then v
    else if k == 1 || k == 4 then v + m + 1
    else if k == 2 || k == 3 then v + 1
    else v + m + 2
  }

  /** `new Vector2(x / mapSize, z / mapSize)` for vertex `i`. */
  function GridUV(m: nat, i: nat): Vector2
    requires m > 0
  {
    Vector2(Column(m, i) as real / m as real, Row(m, i) as real / m as real)
  }

  /** Every UV lies in the unit square. */
  lemma UVInUnitSquare(m: nat, i: nat)
    requires m > 0 && i < VertexCount(m)
    ensures 0.0 <= GridUV(m, i).x <= 1.0
    ensures 0.0 <= GridUV(m, i).y <= 1.0
  {
    RowInRange(m, i);
    UnitFraction(Column(m, i) as real, m as real);
    UnitFraction(Row(m, i) as real, m as real);
  }

  // ---------------------------------------------------------------------
  // Layout

  /** Vertex `z (m+1) + x` sits at column x, row z: the running counter of
      the vertex loop and the (column, row) pair agree. */
  lemma VertexAt(m: nat, x: nat, z: nat)
    requires x <= m
    ensures Column(m, z * (m + 1) + x) == x
    ensures Row(m, z * (m + 1) + x) == z
  {
    DivMod(z, x, m + 1);
  }

  /** One step of the vertex loop: counter `i` at column x of row z. */
  lemma VertexStep(m: nat, x: nat, z: nat, i: int)
    requires x <= m && z <= m && i == z * (m + 1) + x
    ensures 0 <= i < VertexCount(m)
    ensures Column(m, i) == x && Row(m, i) == z
  {
    VertexAt(m, x, z);
    NonNegativeProduct(m - z, m + 1);
    assert VertexCount(m) == m * (m + 1) + m + 1;
  }

  /** The vertex counter after a whole row is the start of the next row. */
  lemma NextRow(m: nat, z: nat, i: int)
    requires i == z * (m + 1) + m + 1
    ensures i == (z + 1) * (m + 1)
  {
  }

  /** One step of the triangle loop: counters `vert` and `tris` at cell (x, z). */
  lemma TriangleStep(m: nat, x: nat, z: nat, vert: int, tris: int)
    requires m > 0 && x < m && z < m
    requires vert == z * (m + 1) + x && tris == 6 * (z * m + x)
    ensures 0 <= tris && tris + 5 < TriangleSlots(m)
    ensures TriangleEntry(m, tris) == vert
    ensures TriangleEntry(m, tris + 1) == vert + m + 1
    ensures TriangleEntry(m, tris + 2) == vert + 1
    ensures TriangleEntry(m, tris + 3) == vert + 1
    ensures TriangleEntry(m, tris + 4) == vert + m + 1
    ensures TriangleEntry(m, tris + 5) == vert + m + 2
  {
    assert 0 <= tris && tris + 5 < TriangleSlots(m) by {
      CellBelowSlots(m, x, z, 5);
    }
    FirstTriangle(m, x, z, vert, tris);
    SecondTriangle(m, x, z, vert, tris);
  }

  /** Slots 0..2 of cell (x, z): its lower-left triangle. */
  lemma FirstTriangle(m: nat, x: nat, z: nat, vert: int, tris: nat)
    requires m > 0 && x < m && vert == z * (m + 1) + x && tris == 6 * (z * m + x)
    ensures TriangleEntry(m, tris) == vert
    ensures TriangleEntry(m, tris + 1) == vert + m + 1
    ensures TriangleEntry(m, tris + 2) == vert + 1
  {
    EntryOfCell(m, x, z, vert, 0, tris);
    EntryOfCell(m, x, z, vert, 1, tris + 1);
    EntryOfCell(m, x, z, vert, 2, tris + 2);
  }

  /** Slots 3..5 of cell (x, z): its upper-right triangle. */
  lemma SecondTriangle(m: nat, x: nat, z: nat, vert: int, tris: nat)
    requires m > 0 && x < m && vert == z * (m + 1) + x && tris == 6 * (z * m + x)
    ensures TriangleEntry(m, tris + 3) == vert + 1
    ensures TriangleEntry(m, tris + 4) == vert + m + 1
    ensures TriangleEntry(m, tris + 5) == vert + m + 2
  {
    EntryOfCell(m, x, z, vert, 3, tris + 3);
    EntryOfCell(m, x, z, vert, 4, tris + 4);
    EntryOfCell(m, x, z, vert, 5, tris + 5);
  }

  /** Slot `k` of cell (x, z), in terms of the cell's lower-left vertex. */
  lemma EntryOfCell(m: nat, x: nat, z: nat, v: int, k: int, t: nat)
    requires m > 0 && x < m && 0 <= k < 6 && v == z * (m + 1) + x && t == 6 * (z * m + x) + k
    ensures TriangleEntry(m, t) == if k == 0 then v
                                   else if k == 1 || k == 4 then v + m + 1
                                   else if k == 2 || k == 3 then v + 1
                                   else v + m + 2
  {
    SlotOfCell(z * m + x, k, t);
    CellCorner(m, x, z);
  }

  /** The triangle counters after a whole row of cells: `vert` skips the
      row's last vertex and both counters start the next row. */
  lemma NextCellRow(m: nat, z: nat, vert: int, tris: int)
    requires vert == z * (m + 1) + m && tris == 6 * (z * m + m)
    ensures vert + 1 == (z + 1) * (m + 1)
    ensures tris == 6 * ((z + 1) * m)
  {
  }

  /** A vertex index below (m+1)^2 has a row of at most m. */
  lemma RowInRange(m: nat, i: nat)
    ensures i < VertexCount(m) ==> Row(m, i) <= m
    ensures Column(m, i) <= m
  {
    if i < VertexCount(m) && Row(m, i) > m {
      NonNegativeProduct(Row(m, i) - (m + 1), m + 1);
      assert false;
    }
  }

  /** Slot `t = 6 c + k` is slot `k` of cell `c`. */
  lemma SlotOfCell(c: int, k: int, t: int)
    requires 0 <= k < 6 && t == 6 * c + k
    ensures t / 6 == c && t % 6 == k
  {
    DivMod(c, k, 6);
  }

  /** Cell `z m + x` has lower-left vertex `z (m+1) + x`. */
  lemma CellCorner(m: nat, x: nat, z: nat)
    requires m > 0 && x < m
    ensures CellVertex(m, z * m + x) == z * (m + 1) + x
  {
    DivMod(z, x, m);
  }

  /** Every triangle index addresses a vertex: it lies in [0, (m+1)^2). */
  lemma TriangleEntryInRange(m: nat, t: nat)
    requires m > 0 && t < TriangleSlots(m)
    ensures TriangleEntry(m, t) < VertexCount(m)
  {
    var c := t / 6;
    assert c < m * m by {
      if c >= m * m {
        NonNegativeProduct(c - m * m, 6);
        assert false;
      }
    }
    var z, x := c / m, c % m;
    assert z < m by {
      if z >= m {
        NonNegativeProduct(z - m, m);
        assert false;
      }
    }
    assert CellVertex(m, c) == z * (m + 1) + x;
    assert TriangleEntry(m, t) <= z * (m + 1) + x + m + 2;
    NonNegativeProduct(m - 1 - z, m + 1);
    assert (m - 1) * (m + 1) + (m - 1) + m + 2 == VertexCount(m) - 1;
  }

  /** For m >= 1 every vertex is a corner of some triangle, so the normal
      accumulation reaches every vertex. */
  lemma EveryVertexCovered(m: nat, i: nat)
    requires m > 0 && i < VertexCount(m)
    ensures exists t: nat :: t < TriangleSlots(m) && TriangleEntry(m, t) == i
  {
    var x, z := Column(m, i), Row(m, i);
    RowInRange(m, i);
    assert i == z * (m + 1) + x;
    var t := CoveringSlot(m, x, z);
    assert TriangleEntry(m, t) == i;
  }

  /** A slot holding vertex (x, z): corner 0 of cell (x, z) inside the grid,
      corner 2 of the cell to its left on the last column, corner 1 of the cell
      below it on the last row, corner 5 of the last cell for the far corner. */
  function CoveringSlot(m: nat, x: nat, z: nat): (t: nat)
    requires m > 0 && x <= m && z <= m
    ensures t < TriangleSlots(m)
    ensures TriangleEntry(m, t) == z * (m + 1) + x
  {
    var cx := if x < m then x else m - 1;
    var cz := if z < m then z else m - 1;
    var k := if x < m && z < m then 0 else if z < m then 2 else if x < m then 1 else 5;
    var t := 6 * (cz * m + cx) + k;
    SlotOfCell(cz * m + cx, k, t);
    CellCorner(m, cx, cz);
    CellBelowSlots(m, cx, cz, k);
    CornerArithmetic(m, x, z);
    t
  }

  lemma CornerArithmetic(m: nat, x: nat, z: nat)
    requires m > 0
    ensures (m - 1) * (m + 1) + x + m + 1 == m * (m + 1) + x
    ensures (m - 1) * (m + 1) + (m - 1) + m + 2 == m * (m + 1) + m
  {
  }

  /** The slots of cell (x, z), for x, z < m, lie below 6 m^2. */
  lemma CellBelowSlots(m: nat, x: nat, z: nat, k: nat)
    requires m > 0 && x < m && z < m && k < 6
    ensures 6 * (z * m + x) + k < TriangleSlots(m)
  {
    NonNegativeProduct(m - 1 - z, m);
  }

  // ---------------------------------------------------------------------
  // Integer helpers

  /** Euclidean division undoes `q d + r` for a remainder in [0, d). */
  lemma DivMod(q: int, r: int, d: int)
    requires d > 0 && 0 <= r < d
    ensures (q * d + r) / d == q
    ensures (q * d + r) % d == r
  {
    var n := q * d + r;
    var k := n / d - q;
    assert k * d == r - n % d;
    NegativeFactor(k - 1, d);
    NegativeFactor(-1 - k, d);
  }

  lemma NegativeFactor(a: int, d: int)
    requires d > 0 && a * d < 0
    ensures a < 0
  {
  }

  lemma NonNegativeProduct(a: int, b: int)
    requires a >= 0 && b >= 0
    ensures a * b >= 0
  {
  }
}
