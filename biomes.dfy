/** The biome classifier (BiomeGenerator): a priority chain over a clamped
    normalised height and two clamped two-layer noise fields, and the
    label-to-colour and label-to-texture lookups. */
module Biomes {
  import opened UnityMath

  /** `BiomeType`. A C# enum variable may hold an integer that names no
      member; `OutOfRange` stands for such a value. The classifier never
      produces one. */
  datatype BiomeType = Plains | Forest | Desert | Mountain | Snow | OutOfRange(code: int) {
    predicate IsNamed() { !OutOfRange? }
  }

  /** An assigned texture asset; an unassigned (null) slot is `None`. */
  datatype Texture2D = Texture2D(asset: nat)

  /** The inspector fields of a BiomeGenerator. `biomeNoiseScale` is declared
      by the script but never read. */
  datatype BiomeSettings = BiomeSettings(
    biomeNoiseScale: real,
    biomeHeightMultiplier: real,
    temperatureNoiseScale: real,
    moistureNoiseScale: real,
    biomeOffset: Vector2,
    snowHeightThreshold: real,
    mountainHeightThreshold: real,
    desertTemperatureThreshold: real,
    forestMoistureThreshold: real,
    desertColor: Color,
    plainsColor: Color,
    forestColor: Color,
    mountainColor: Color,
    snowColor: Color,
    plainsTexture: Option<Texture2D>,
    forestTexture: Option<Texture2D>,
    desertTexture: Option<Texture2D>,
    mountainTexture: Option<Texture2D>)
  {
    /** The divisors are non-zero (with zero the script divides by zero in
        single precision, which the real-valued model does not represent). */
    predicate WellFormed() {
      biomeHeightMultiplier != 0.0 && temperatureNoiseScale != 0.0 && moistureNoiseScale != 0.0
    }
  }

  /** The inspector defaults, with textures unassigned. */
  const DefaultSettings := BiomeSettings(
    50.0, 20.0, 100.0, 100.0, Vector2(0.0, 0.0),
    0.7, 0.5, 0.7, 0.6,
    Color(0.76, 0.7, 0.5, 1.0), Color(0.2, 0.8, 0.2, 1.0), Color(0.1, 0.5, 0.1, 1.0),
    Color(0.5, 0.5, 0.5, 1.0), Color(1.0, 1.0, 1.0, 1.0),
    None, None, None, None)

  /** `Start`: an offset that compares equal to `Vector2.zero` is replaced
      by a random one, passed in here. */
  function Start(b: BiomeSettings, randomOffset: Vector2): (r: BiomeSettings)
    ensures b.biomeOffset.ApproximatelyEquals(Vector2Zero) ==> r.biomeOffset == randomOffset
    ensures !b.biomeOffset.ApproximatelyEquals(Vector2Zero) ==> r == b
    ensures r.(biomeOffset := b.biomeOffset) == b
  {
    if b.biomeOffset.ApproximatelyEquals(Vector2Zero) then b.(biomeOffset := randomOffset) else b
  }

  /** Height divided by the classifier's own `biomeHeightMultiplier` (not the
      terrain's `heightMultiplier`), clamped into [0, 1]. */
  function NormalizedHeight(b: BiomeSettings, height: real): (r: real)
    requires b.WellFormed()
    ensures 0.0 <= r <= 1.0
    ensures 0.0 <= height / b.biomeHeightMultiplier <= 1.0 ==> r == height / b.biomeHeightMultiplier
  {
    Clamp01(height / b.biomeHeightMultiplier)
  }

  /** A base noise sample plus a half-weight sample at double frequency, clamped. */
  function TwoLayerNoise(noise: PerlinNoise, x: real, z: real): (r: real)
    ensures 0.0 <= r <= 1.0
    ensures r == noise(x, z) + noise(x * 2.0, z * 2.0) * 0.5 || r == 1.0
  {
    Clamp01(noise(x, z) + noise(x * 2.0, z * 2.0) * 0.5)
  }

  function GenerateTemperature(b: BiomeSettings, noise: PerlinNoise, position: Vector3): (r: real)
    requires b.WellFormed()
    ensures 0.0 <= r <= 1.0
  {
    TwoLayerNoise(noise,
      (position.x + b.biomeOffset.x) / b.temperatureNoiseScale,
      (position.z + b.biomeOffset.y) / b.temperatureNoiseScale)
  }

  function GenerateMoisture(b: BiomeSettings, noise: PerlinNoise, position: Vector3): (r: real)
    requires b.WellFormed()
    ensures 0.0 <= r <= 1.0
  {
    TwoLayerNoise(noise,
      (position.x + b.biomeOffset.x + 1000.0) / b.moistureNoiseScale,
      (position.z + b.biomeOffset.y + 1000.0) / b.moistureNoiseScale)
  }

  /** The priority chain: snow, mountain, desert, forest, plains. */
  function Classify(b: BiomeSettings, normalizedHeight: real, temperature: real, moisture: real): (r: BiomeType)
    ensures r.IsNamed()
  {
    if normalizedHeight > b.snowHeightThreshold then Snow
    else if normalizedHeight > b.mountainHeightThreshold then Mountain
    else if temperature > b.desertTemperatureThreshold then Desert
    else if moisture > b.forestMoistureThreshold then Forest
    else Plains
  }

  function GetBiomeAtPosition(b: BiomeSettings, noise: PerlinNoise, position: Vector3, height: real): (r: BiomeType)
    requires b.WellFormed()
    ensures r.IsNamed()
  {
    Classify(b, NormalizedHeight(b, height),
      GenerateTemperature(b, noise, position), GenerateMoisture(b, noise, position))
  }

  function GetBiomeColor(b: BiomeSettings, biome: BiomeType): (r: Color)
    ensures biome == Desert ==> r == b.desertColor
    ensures biome == Plains ==> r == b.plainsColor
    ensures biome == Forest ==> r == b.forestColor
    ensures biome == Mountain ==> r == b.mountainColor
    ensures biome == Snow ==> r == b.snowColor
    ensures biome.OutOfRange? ==> r == White
    ensures biome.IsNamed() ==> r in {b.desertColor, b.plainsColor, b.forestColor, b.mountainColor, b.snowColor}
  {
    match biome
    case Desert => b.desertColor
    case Plains => b.plainsColor
    case Forest => b.forestColor
    case Mountain => b.mountainColor
    case Snow => b.snowColor
    case OutOfRange(_) => White
  }

  /** There is no snow texture: snow, like an out-of-range label, gets none. */
  function GetBiomeTexture(b: BiomeSettings, biome: BiomeType): (r: Option<Texture2D>)
    ensures biome == Plains ==> r == b.plainsTexture
    ensures biome == Forest ==> r == b.forestTexture
    ensures biome == Desert ==> r == b.desertTexture
    ensures biome == Mountain ==> r == b.mountainTexture
    ensures biome == Snow || biome.OutOfRange? ==> r == None
    ensures r.Some? ==> r in {b.plainsTexture, b.forestTexture, b.desertTexture, b.mountainTexture}
  {
    match biome
    case Plains => b.plainsTexture
    case Forest => b.forestTexture
    case Desert => b.desertTexture
    case Mountain => b.mountainTexture
    case _ => None
  }

  // ---------------------------------------------------------------------
  // Priority properties, whatever the noise returns

  lemma SnowWhateverTheClimate(b: BiomeSettings, noise1: PerlinNoise, noise2: PerlinNoise,
                               position1: Vector3, position2: Vector3, height: real)
    requires b.WellFormed()
    requires NormalizedHeight(b, height) > b.snowHeightThreshold
    ensures GetBiomeAtPosition(b, noise1, position1, height) == Snow
    ensures GetBiomeAtPosition(b, noise2, position2, height) == Snow
  {
  }

  lemma MountainExactly(b: BiomeSettings, normalizedHeight: real, temperature: real, moisture: real)
    ensures Classify(b, normalizedHeight, temperature, moisture) == Mountain
        <==> normalizedHeight <= b.snowHeightThreshold && normalizedHeight > b.mountainHeightThreshold
  {
  }

  lemma DesertIgnoresMoisture(b: BiomeSettings, normalizedHeight: real, temperature: real, moisture1: real, moisture2: real)
    ensures Classify(b, normalizedHeight, temperature, moisture1) == Desert
        <==> normalizedHeight <= b.snowHeightThreshold && normalizedHeight <= b.mountainHeightThreshold
             && temperature > b.desertTemperatureThreshold
    ensures Classify(b, normalizedHeight, temperature, moisture1) == Desert
        <==> Classify(b, normalizedHeight, temperature, moisture2) == Desert
  {
  }

  lemma ForestExactly(b: BiomeSettings, normalizedHeight: real, temperature: real, moisture: real)
    ensures Classify(b, normalizedHeight, temperature, moisture) == Forest
        <==> normalizedHeight <= b.snowHeightThreshold && normalizedHeight <= b.mountainHeightThreshold
             && temperature <= b.desertTemperatureThreshold && moisture > b.forestMoistureThreshold
  {
  }

  lemma PlainsExactly(b: BiomeSettings, normalizedHeight: real, temperature: real, moisture: real)
    ensures Classify(b, normalizedHeight, temperature, moisture) == Plains
        <==> !(normalizedHeight > b.snowHeightThreshold) && !(normalizedHeight > b.mountainHeightThreshold)
             && !(temperature > b.desertTemperatureThreshold) && !(moisture > b.forestMoistureThreshold)
  {
  }

  /** Moisture is the temperature formula moved by 1000 on both axes and
      read at the moisture scale. */
  lemma MoistureIsShiftedTemperature(b: BiomeSettings, noise: PerlinNoise, position: Vector3)
    requires b.WellFormed()
    ensures GenerateMoisture(b, noise, position)
         == GenerateTemperature(b.(temperatureNoiseScale := b.moistureNoiseScale), noise,
                                Vector3(position.x + 1000.0, position.y, position.z + 1000.0))
  {
  }

  /** With the inspector defaults a vertex at half the terrain's default
      height range (15 of 30) is already snow: the classifier divides by its
      own multiplier, 20. */
  lemma DefaultsMakeHalfHeightSnow(noise: PerlinNoise, position: Vector3)
    ensures GetBiomeAtPosition(DefaultSettings, noise, position, 15.0) == Snow
  {
    assert NormalizedHeight(DefaultSettings, 15.0) == 0.75;
  }

  /** An inspector offset of 1e-6 on one axis compares equal to zero and is
      replaced; one of 1e-5 does not and is kept. */
  lemma TinyOffsetReplaced(b: BiomeSettings, randomOffset: Vector2)
    ensures Start(b.(biomeOffset := Vector2(0.000001, 0.0)), randomOffset).biomeOffset == randomOffset
    ensures Start(b.(biomeOffset := Vector2(0.00001, 0.0)), randomOffset).biomeOffset == Vector2(0.00001, 0.0)
  {
  }

  /** When the five configured colours differ, the colour of a named label
      determines the label. */
  lemma ColorDeterminesNamedBiome(b: BiomeSettings, x: BiomeType, y: BiomeType)
    requires |{b.desertColor, b.plainsColor, b.forestColor, b.mountainColor, b.snowColor}| == 5
    requires x.IsNamed() && y.IsNamed()
    requires GetBiomeColor(b, x) == GetBiomeColor(b, y)
    ensures x == y
  {
  }
}
