/** What a streaming pass of ChunkManager or WaterGenerator leaves behind:
    the keys of a square of chunk coordinates around the camera's chunk,
    existing entries kept, missing ones created, the rest removed. */
module Streaming {
  import opened UnityMath

  /** `centre + new Vector2Int(x, z)`. */
  function Shift(c: Vector2Int, x: int, z: int): Vector2Int {
    Vector2Int(c.x + x, c.y + z)
  }

  /** Key `k` is at most `d` chunks from `c` on each axis. */
  predicate InSquare(c: Vector2Int, d: int, k: Vector2Int) {
    -d <= k.x - c.x <= d && -d <= k.y - c.y <= d
  }

  /** The keys the nested `for (x = -d; x <= d; x++) for (z = -d; z <= d; z++)`
      loops add to `chunksToKeep`. */
  function Square(c: Vector2Int, d: int): set<Vector2Int> {
    set x: int, z: int | -d <= x <= d && -d <= z <= d :: Shift(c, x, z)
  }

  /** Entries of `active`, plus a created entry for every missing key of
      `keys` whose creation succeeds. */
  function WithCreated<V>(active: map<Vector2Int, V>, keys: set<Vector2Int>, create: Vector2Int -> Option<V>): (r: map<Vector2Int, V>)
  {
    map k | k in active.Keys + keys && (k in active || create(k).Some?) :: if k in active then active[k] else create(k).value
  }

  /** The entries of `active` whose key is in `keys`. */
  function Restricted<V>(active: map<Vector2Int, V>, keys: set<Vector2Int>): (r: map<Vector2Int, V>)
  {
    map k | k in active && k in keys :: active[k]
  }

  /** The map a streaming pass should leave: create the missing keys of
      `keep`, then drop every key outside `keep`. */
  function Reconciled<V>(active: map<Vector2Int, V>, keep: set<Vector2Int>, create: Vector2Int -> Option<V>): map<Vector2Int, V>
  {
    Restricted(WithCreated(active, keep, create), keep)
  }

  // ---------------------------------------------------------------------
  // Properties

  /** The square holds exactly the keys within `d` of the centre on both
      axes, (2d+1)^2 of them. */
  lemma SquareMembers(c: Vector2Int, d: int, k: Vector2Int)
    ensures k in Square(c, d) <==> InSquare(c, d, k)
  {
    if InSquare(c, d, k) {
      assert k == Shift(c, k.x - c.x, k.y - c.y);
    }
  }

  /** After a pass a key is present iff it is in `keep` and it was present
      before or its creation succeeds. */
  lemma ReconciledKeys<V>(active: map<Vector2Int, V>, keep: set<Vector2Int>, create: Vector2Int -> Option<V>, k: Vector2Int)
    ensures k in Reconciled(active, keep, create) <==> k in keep && (k in active || create(k).Some?)
  {
  }

  /** Entries inside `keep` are neither recreated nor replaced; created
      entries are what `create` made. */
  lemma ReconciledValues<V>(active: map<Vector2Int, V>, keep: set<Vector2Int>, create: Vector2Int -> Option<V>, k: Vector2Int)
    requires k in Reconciled(active, keep, create)
    ensures k in active ==> Reconciled(active, keep, create)[k] == active[k]
    ensures k !in active ==> create(k).Some? && Reconciled(active, keep, create)[k] == create(k).value
  {
  }

  /** When every creation succeeds the key set is exactly `keep`. */
  lemma CreatedKeysAreKeep<V>(active: map<Vector2Int, V>, keep: set<Vector2Int>, create: Vector2Int -> Option<V>)
    requires forall k :: k in keep ==> create(k).Some?
    ensures Reconciled(active, keep, create).Keys == keep
  {
  }

  /** A missing key whose creation fails leaves the key set a strict
      subset of `keep`. */
  lemma FailedCreationLeavesGap<V>(active: map<Vector2Int, V>, keep: set<Vector2Int>, create: Vector2Int -> Option<V>,
                                   k: Vector2Int)
    requires k in keep && k !in active && create(k).None?
    ensures Reconciled(active, keep, create).Keys < keep
  {
    assert k !in Reconciled(active, keep, create);
  }

  /** A second pass with the same square changes nothing. */
  lemma ReconcileIdempotent<V>(active: map<Vector2Int, V>, keep: set<Vector2Int>, create: Vector2Int -> Option<V>)
    ensures Reconciled(Reconciled(active, keep, create), keep, create) == Reconciled(active, keep, create)
  {
    var once := Reconciled(active, keep, create);
    var twice := Reconciled(once, keep, create);
    assert forall k :: k in twice <==> k in once;
  }

  /** Removing first and creating after (WaterGenerator's order) leaves the
      same map as creating first and removing after (ChunkManager's order). */
  lemma RemoveThenCreate<V>(active: map<Vector2Int, V>, keep: set<Vector2Int>, create: Vector2Int -> Option<V>)
    ensures WithCreated(Restricted(active, keep), keep, create) == Reconciled(active, keep, create)
  {
    var a := WithCreated(Restricted(active, keep), keep, create);
    var b := Reconciled(active, keep, create);
    assert forall k :: k in a <==> k in b;
  }

  /** Adding one more key to the created set: the entry appears exactly when
      it was missing and its creation succeeds. */
  lemma WithCreatedStep<V>(active: map<Vector2Int, V>, keys: set<Vector2Int>, create: Vector2Int -> Option<V>, k: Vector2Int)
    ensures var before := WithCreated(active, keys, create);
            WithCreated(active, keys + {k}, create)
            == if k in before || create(k).None? then before else before[k := create(k).value]
  {
    var before := WithCreated(active, keys, create);
    var after := WithCreated(active, keys + {k}, create);
    var expected := if k in before || create(k).None? then before else before[k := create(k).value];
    assert forall j :: j in after <==> j in expected;
  }
}
