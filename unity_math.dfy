/** Engine value types (Vector2, Vector3, Vector2Int, Color) and the Mathf
    helpers the terrain scripts use, over mathematical reals instead of
    single-precision floats. */
module UnityMath {

  datatype Option<+T> = None | Some(value: T)

  datatype Vector2 = Vector2(x: real, y: real) {
    /** Unity's `Vector2 ==`: true when the squared distance is below
        `kEpsilon * kEpsilon`, with `kEpsilon = 1e-5`. */
    predicate ApproximatelyEquals(o: Vector2) {
      (x - o.x) * (x - o.x) + (y - o.y) * (y - o.y) < 0.0000000001
    }
  }

  const Vector2Zero := Vector2(0.0, 0.0)

  datatype Vector3 = Vector3(x: real, y: real, z: real) {
    function Plus(o: Vector3): Vector3 { Vector3(x + o.x, y + o.y, z + o.z) }
    function Minus(o: Vector3): Vector3 { Vector3(x - o.x, y - o.y, z - o.z) }
  }

  const Vector3Zero := Vector3(0.0, 0.0, 0.0)

  /** `Vector3.Cross`. */
  function Cross(a: Vector3, b: Vector3): Vector3 {
    Vector3(a.y * b.z - a.z * b.y, a.z * b.x - a.x * b.z, a.x * b.y - a.y * b.x)
  }

  /** Integer pair; the chunk scripts use `y` for the world z axis. */
  datatype Vector2Int = Vector2Int(x: int, y: int)

  datatype Color = Color(r: real, g: real, b: real, a: real)

  const White := Color(1.0, 1.0, 1.0, 1.0)

  /** `Mathf.PerlinNoise`: deterministic, otherwise unknown, valued in [0, 1]. */
  type PerlinNoise = f: (real, real) -> real | forall x: real, y: real :: 0.0 <= f(x, y) <= 1.0
    witness (x: real, y: real) => 0.5

  /** `Mathf.Clamp`: the lower bound is tested first. */
  function Clamp(value: real, min: real, max: real): (r: real)
    ensures min <= max ==> min <= r <= max
    ensures min <= value <= max ==> r == value
    ensures value < min ==> r == min
  {
    if value < min then min else if value > max then max else value
  }

  function Clamp01(value: real): (r: real)
    ensures 0.0 <= r <= 1.0
    ensures 0.0 <= value <= 1.0 ==> r == value
  {
    Clamp(value, 0.0, 1.0)
  }

  /** `Mathf.Lerp(a, b, t) = a + (b - a) * Clamp01(t)`. */
  function Lerp(a: real, b: real, t: real): (r: real)
    ensures Min(a, b) <= r <= Max(a, b)
    ensures t <= 0.0 ==> r == a
    ensures t >= 1.0 ==> r == b
  {
    LerpBetween(a, b, Clamp01(t));
    a + (b - a) * Clamp01(t)
  }

  function Min(a: real, b: real): real { if a <= b then a else b }
  function Max(a: real, b: real): real { if a <= b then b else a }

  lemma LerpBetween(a: real, b: real, t: real)
    requires 0.0 <= t <= 1.0
    ensures Min(a, b) <= a + (b - a) * t
    ensures a + (b - a) * t <= Max(a, b)
  {
    var step := (b - a) * t;
    var rest := (b - a) * (1.0 - t);
    assert step + rest == b - a;
    if a <= b {
      ProductNonNegative(b - a, t);
      ProductNonNegative(b - a, 1.0 - t);
    } else {
      ProductNonNegative(a - b, t);
      ProductNonNegative(a - b, 1.0 - t);
      assert step == -((a - b) * t);
      assert rest == -((a - b) * (1.0 - t));
    }
  }

  lemma ProductNonNegative(x: real, y: real)
    requires 0.0 <= x && 0.0 <= y
    ensures 0.0 <= x * y
  {
  }

  /** A quotient of a value in [0, b] by a positive b lies in [0, 1]. */
  lemma UnitFraction(a: real, b: real)
    requires 0.0 <= a <= b && b > 0.0
    ensures 0.0 <= a / b
    ensures a / b <= 1.0
  {
    var q := a / b;
    assert q * b == a;
    assert (1.0 - q) * b == b - a;
    NonNegativeFactor(q, b);
    NonNegativeFactor(1.0 - q, b);
  }

  lemma NonNegativeFactor(x: real, t: real)
    requires t > 0.0 && x * t >= 0.0
    ensures x >= 0.0
  {
  }

  /** `Mathf.FloorToInt`; 32-bit overflow of the cast is not modelled. */
  function FloorToInt(v: real): (r: int)
    ensures r as real <= v < r as real + 1.0
  {
    v.Floor
  }
}
