/** The height field of one WorldGenerator: an amplitude-weighted average of
    Perlin octaves scaled by `heightMultiplier`, plus one detail layer,
    clamped into [0, heightMultiplier]. */
module TerrainNoise {
  import opened UnityMath

  /** The inspector fields of a WorldGenerator. `biomeNoiseScale` and
      `biomeHeightMultiplier` are declared by the script but never read. */
  datatype TerrainSettings = TerrainSettings(
    mapSize: int,
    noiseScale: real,
    octaves: int,
    persistence: real,
    lacunarity: real,
    heightMultiplier: real,
    offset: Vector2,
    detailNoiseScale: real,
    detailNoiseStrength: real,
    detailNoiseOffset: real,
    biomeNoiseScale: real,
    biomeHeightMultiplier: real,
    ambientOcclusionStrength: real,
    ambientOcclusionRadius: real)
  {
    /** A positive grid size and non-zero divisors: with a zero divisor the
        script produces single-precision infinities or NaN, which reals do
        not represent. */
    predicate WellFormed() {
      && mapSize > 0
      && noiseScale != 0.0
      && detailNoiseScale != 0.0
      && AmplitudeSum(persistence, OctaveCount(octaves)) != 0.0
    }
  }

  /** The inspector defaults (offset zero). */
  const DefaultSettings := TerrainSettings(100, 50.0, 6, 0.6, 2.0, 30.0, Vector2(0.0, 0.0),
                                           100.0, 5.0, 1000.0, 50.0, 20.0, 0.5, 1.0)

  /** The number of times `for (i = 0; i < octaves; i++)` runs. */
  function OctaveCount(octaves: int): nat {
    if octaves < 0 then 0 else octaves
  }

  function Power(base: real, n: nat): real {
    if n == 0 then 1.0 else Power(base, n - 1) * base
  }

  /** The sum of the first `n` amplitudes 1, p, p^2, ... */
  function AmplitudeSum(persistence: real, n: nat): real {
    if n == 0 then 0.0 else AmplitudeSum(persistence, n - 1) + Power(persistence, n - 1)
  }

  /** `PerlinNoise(..) * 2 - 1`, from [0, 1] onto [-1, 1]. */
  function Signed(p: real): real {
    p * 2.0 - 1.0
  }

  /** A coordinate divided by the noise scale and multiplied by an octave's frequency. */
  function SampleCoordinate(c: real, scale: real, frequency: real): real
    requires scale != 0.0
  {
    c / scale * frequency
  }

  /** Octave `i` at the offset sample position (sx, sz): its signed noise times its amplitude. */
  function OctaveTerm(s: TerrainSettings, noise: PerlinNoise, sx: real, sz: real, i: nat): real
    requires s.noiseScale != 0.0
  {
    Signed(noise(SampleCoordinate(sx, s.noiseScale, Power(s.lacunarity, i)),
                 SampleCoordinate(sz, s.noiseScale, Power(s.lacunarity, i)))) * Power(s.persistence, i)
  }

  /** The amplitude-weighted sum of the first `n` octaves. */
  function WeightedSum(s: TerrainSettings, noise: PerlinNoise, sx: real, sz: real, n: nat): real
    requires s.noiseScale != 0.0
  {
    if n == 0 then 0.0 else WeightedSum(s, noise, sx, sz, n - 1) + OctaveTerm(s, noise, sx, sz, n - 1)
  }

  /** A weighted sum divided by its amplitude sum and scaled by the height multiplier. */
  function Rescale(sum: real, total: real, multiplier: real): real
    requires total != 0.0
  {
    sum / total * multiplier
  }

  /** The base layer at grid column x, row z: the weighted average of the
      octaves at (x + offset.x, z + offset.y), times `heightMultiplier`.
      `None` when the amplitude sum is zero, where the script divides by zero. */
  function OctaveNoise(s: TerrainSettings, noise: PerlinNoise, x: int, z: int): (r: Option<real>)
    requires s.noiseScale != 0.0
    ensures r.None? <==> AmplitudeSum(s.persistence, OctaveCount(s.octaves)) == 0.0
  {
    var n := OctaveCount(s.octaves);
    var total := AmplitudeSum(s.persistence, n);
    if total == 0.0 then None
    else Some(Rescale(WeightedSum(s, noise, x as real + s.offset.x, z as real + s.offset.y, n), total, s.heightMultiplier))
  }

  /** `GenerateOctaveNoise`: the loop over octaves, proved to compute `OctaveNoise`. */
  method GenerateOctaveNoise(s: TerrainSettings, noise: PerlinNoise, x: int, z: int) returns (r: Option<real>)
    requires s.noiseScale != 0.0
    ensures r == OctaveNoise(s, noise, x, z)
  {
    var amplitude := 1.0;
    var frequency := 1.0;
    var noiseHeight := 0.0;
    var amplitudeSum := 0.0;
    var i := 0;
    while i < s.octaves
      invariant 0 <= i <= OctaveCount(s.octaves)
      invariant amplitude == Power(s.persistence, i)
      invariant frequency == Power(s.lacunarity, i)
      invariant noiseHeight == WeightedSum(s, noise, x as real + s.offset.x, z as real + s.offset.y, i)
      invariant amplitudeSum == AmplitudeSum(s.persistence, i)
    {
      var sampleX := (x as real + s.offset.x) / s.noiseScale * frequency;
      var sampleZ := (z as real + s.offset.y) / s.noiseScale * frequency;
      var perlinValue := noise(sampleX, sampleZ) * 2.0 - 1.0;
      assert sampleX == SampleCoordinate(x as real + s.offset.x, s.noiseScale, Power(s.lacunarity, i));
      assert sampleZ == SampleCoordinate(z as real + s.offset.y, s.noiseScale, Power(s.lacunarity, i));
      noiseHeight := noiseHeight + perlinValue * amplitude;
      amplitudeSum := amplitudeSum + amplitude;
      amplitude := amplitude * s.persistence;
      frequency := frequency * s.lacunarity;
      i := i + 1;
    }
    assert i == OctaveCount(s.octaves);
    if amplitudeSum == 0.0 {
      r := None;
    } else {
      var scaled := noiseHeight / amplitudeSum * s.heightMultiplier;
      assert scaled == Rescale(noiseHeight, amplitudeSum, s.heightMultiplier);
      r := Some(scaled);
    }
  }

  /** `GenerateDetailNoise`: one layer sampled at the local column and row
      moved by `detailNoiseOffset`. The chunk's `offset` plays no part. */
  function GenerateDetailNoise(s: TerrainSettings, noise: PerlinNoise, x: int, z: int): (r: real)
    requires s.detailNoiseScale != 0.0
    ensures s.detailNoiseStrength >= 0.0 ==> -s.detailNoiseStrength <= r
    ensures s.detailNoiseStrength >= 0.0 ==> r <= s.detailNoiseStrength
  {
    var p := noise((x as real + s.detailNoiseOffset) / s.detailNoiseScale,
                   (z as real + s.detailNoiseOffset) / s.detailNoiseScale);
    DetailWithin(p, s.detailNoiseStrength);
    Signed(p) * s.detailNoiseStrength
  }

  /** The height of grid vertex (x, z): base plus detail, clamped into
      [0, heightMultiplier] (the lower bound wins when heightMultiplier < 0). */
  function TerrainHeight(s: TerrainSettings, noise: PerlinNoise, x: int, z: int): (r: real)
    requires s.WellFormed()
    ensures s.heightMultiplier >= 0.0 ==> 0.0 <= r <= s.heightMultiplier
    ensures s.heightMultiplier < 0.0 ==> r == 0.0 || r == s.heightMultiplier
  {
    Clamp(OctaveNoise(s, noise, x, z).value + GenerateDetailNoise(s, noise, x, z), 0.0, s.heightMultiplier)
  }

  /** `GenerateHeight`, proved to compute `TerrainHeight`. */
  method GenerateHeight(s: TerrainSettings, noise: PerlinNoise, x: int, z: int) returns (h: real)
    requires s.WellFormed()
    ensures h == TerrainHeight(s, noise, x, z)
  {
    var baseNoise := GenerateOctaveNoise(s, noise, x, z);
    var detailNoise := GenerateDetailNoise(s, noise, x, z);
    var finalHeight := baseNoise.value + detailNoise;
    h := Clamp(finalHeight, 0.0, s.heightMultiplier);
  }

  // ---------------------------------------------------------------------
  // Range of the base layer

  /** With at least one octave and a positive persistence the base layer is
      defined and lies in [-heightMultiplier, heightMultiplier]. */
  lemma OctaveNoiseBounded(s: TerrainSettings, noise: PerlinNoise, x: int, z: int)
    requires s.noiseScale != 0.0 && s.octaves >= 1 && s.persistence > 0.0 && s.heightMultiplier >= 0.0
    ensures OctaveNoise(s, noise, x, z).Some?
    ensures -s.heightMultiplier <= OctaveNoise(s, noise, x, z).value <= s.heightMultiplier
  {
    var n := OctaveCount(s.octaves);
    var sx, sz := x as real + s.offset.x, z as real + s.offset.y;
    var total := AmplitudeSum(s.persistence, n);
    AmplitudeSumPositive(s.persistence, n);
    var w := WeightedSum(s, noise, sx, sz, n);
    WeightedSumWithin(s, noise, sx, sz, n);
    RatioWithinUnit(w, total);
    UnitTimesWeight(w / total, s.heightMultiplier);
    assert Rescale(w, total, s.heightMultiplier) == w / total * s.heightMultiplier;
  }

  /** Without any octave the amplitude sum is zero and the base layer undefined. */
  lemma NoOctavesNoHeight(s: TerrainSettings, noise: PerlinNoise, x: int, z: int)
    requires s.noiseScale != 0.0 && s.octaves <= 0
    ensures OctaveNoise(s, noise, x, z) == None
  {
  }

  /** Persistence -1 with two octaves cancels the amplitudes: the amplitude
      sum is zero although octaves > 0. */
  lemma CancellingPersistence(s: TerrainSettings, noise: PerlinNoise, x: int, z: int)
    requires s.noiseScale != 0.0 && s.octaves == 2 && s.persistence == -1.0
    ensures OctaveNoise(s, noise, x, z) == None
  {
    assert AmplitudeSum(-1.0, 2) == 0.0 by {
      assert Power(-1.0, 1) == -1.0 by { assert Power(-1.0, 0) == 1.0; }
    }
  }

  lemma {:induction false} PowerPositive(base: real, n: nat)
    requires base > 0.0
    ensures Power(base, n) > 0.0
  {
    if n > 0 {
      PowerPositive(base, n - 1);
      ProductPositive(Power(base, n - 1), base);
    }
  }

  lemma {:induction false} AmplitudeSumPositive(persistence: real, n: nat)
    requires persistence > 0.0 && n >= 1
    ensures AmplitudeSum(persistence, n) > 0.0
  {
    PowerPositive(persistence, n - 1);
    if n > 1 {
      AmplitudeSumPositive(persistence, n - 1);
    }
  }

  /** Every octave contributes at most its amplitude in absolute value. */
  lemma {:induction false} WeightedSumWithin(s: TerrainSettings, noise: PerlinNoise, sx: real, sz: real, n: nat)
    requires s.noiseScale != 0.0 && s.persistence > 0.0
    ensures -AmplitudeSum(s.persistence, n) <= WeightedSum(s, noise, sx, sz, n)
    ensures WeightedSum(s, noise, sx, sz, n) <= AmplitudeSum(s.persistence, n)
  {
    if n > 0 {
      WeightedSumWithin(s, noise, sx, sz, n - 1);
      OctaveTermWithin(s, noise, sx, sz, n - 1);
    }
  }

  /** One octave contributes at most its amplitude in absolute value. */
  lemma OctaveTermWithin(s: TerrainSettings, noise: PerlinNoise, sx: real, sz: real, i: nat)
    requires s.noiseScale != 0.0 && s.persistence > 0.0
    ensures -Power(s.persistence, i) <= OctaveTerm(s, noise, sx, sz, i)
    ensures OctaveTerm(s, noise, sx, sz, i) <= Power(s.persistence, i)
  {
    var frequency := Power(s.lacunarity, i);
    var p := noise(SampleCoordinate(sx, s.noiseScale, frequency), SampleCoordinate(sz, s.noiseScale, frequency));
    PowerPositive(s.persistence, i);
    UnitTimesWeight(Signed(p), Power(s.persistence, i));
  }

  // ---------------------------------------------------------------------
  // Real arithmetic helpers

  lemma ProductPositive(x: real, y: real)
    requires 0.0 < x && 0.0 < y
    ensures 0.0 < x * y
  {
  }

  /** A factor in [-1, 1] times a non-negative weight stays within the weight. */
  lemma UnitTimesWeight(u: real, w: real)
    requires -1.0 <= u <= 1.0 && w >= 0.0
    ensures -w <= u * w
    ensures u * w <= w
  {
    ProductNonNegative(1.0 - u, w);
    ProductNonNegative(1.0 + u, w);
    assert (1.0 - u) * w == w - u * w;
    assert (1.0 + u) * w == w + u * w;
  }

  /** A signed noise sample times a non-negative strength stays within the strength. */
  lemma DetailWithin(p: real, strength: real)
    requires 0.0 <= p <= 1.0
    ensures strength >= 0.0 ==> -strength <= Signed(p) * strength
    ensures strength >= 0.0 ==> Signed(p) * strength <= strength
  {
    UnitTimesAnyWeight(Signed(p), strength);
  }

  lemma UnitTimesAnyWeight(u: real, w: real)
    requires -1.0 <= u <= 1.0
    ensures w >= 0.0 ==> -w <= u * w
    ensures w >= 0.0 ==> u * w <= w
  {
    if w >= 0.0 {
      UnitTimesWeight(u, w);
    }
  }

  /** A value within [-t, t] divided by a positive t lies in [-1, 1]. */
  lemma RatioWithinUnit(v: real, t: real)
    requires t > 0.0 && -t <= v <= t
    ensures -1.0 <= v / t <= 1.0
  {
    var q := v / t;
    assert q * t == v;
    assert (1.0 - q) * t == t - v;
    assert (1.0 + q) * t == t + v;
    NonNegativeFactor(1.0 - q, t);
    NonNegativeFactor(1.0 + q, t);
  }
}
