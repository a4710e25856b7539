/** Scale modes for the solar-system scene: planet sizes and distances
    rescaled per mode, and the inverse-square light falloff. */
module RealisticMode {
  import opened Common

  datatype ScaleMode = Visual | Realistic | Hybrid

  /** The numeric part of a mode's configuration; its name and
      description are in `ModeLabel`. */
  datatype ScaleConfiguration = ScaleConfiguration(
    sunSize: real,
    planetSizeMultiplier: real,
    distanceMultiplier: real,
    asteroidSizeMultiplier: real,
    lightingRealistic: bool,
    showAtmospheres: bool,
    showRings: bool)

  /** `SCALE_MODES` */
  function Config(mode: ScaleMode): ScaleConfiguration {
    match mode
    case Visual => ScaleConfiguration(5.0, 1.0, 1.0, 1.0, false, true, true)
    case Realistic => ScaleConfiguration(139.2, 0.035, 2.0, 0.01, true, true, true)
    case Hybrid => ScaleConfiguration(25.0, 0.5, 1.5, 0.5, true, true, true)
  }

  /** The display name and description of each mode. */
  function ModeLabel(mode: ScaleMode): (string, string) {
    match mode
    case Visual => ("Visual Mode",
      "Optimized for visibility and interaction. Planets and distances are scaled for easy viewing.")
    case Realistic => ("Realistic Scale",
      "True astronomical scale. Warning: Planets will be tiny and very far apart!")
    case Hybrid => ("Hybrid Scale",
      "Balanced between realism and usability. More accurate proportions while staying interactive.")
  }

  const SunRadiusKm: real := 696000.0
  /** Earth's distance from the Sun in scene units. */
  const EarthSceneUnits: real := 28.0

  /** Planet radii in km, for the eight planets the table knows. */
  function PlanetRadius(name: string): (r: Option<real>)
    ensures r.Some? ==> r.value > 0.0
  {
    if name == "Mercury" then Some(2439.7)
    else if name == "Venus" then Some(6051.8)
    else if name == "Earth" then Some(6371.0)
    else if name == "Mars" then Some(3389.5)
    else if name == "Jupiter" then Some(69911.0)
    else if name == "Saturn" then Some(58232.0)
    else if name == "Uranus" then Some(25362.0)
    else if name == "Neptune" then Some(24622.0)
    else None
  }

  /** Mean orbital distances in AU. */
  function PlanetDistanceAu(name: string): (d: Option<real>)
    ensures d.Some? ==> d.value > 0.0
    ensures d.Some? <==> PlanetRadius(name).Some?
  {
    if name == "Mercury" then Some(0.387)
    else if name == "Venus" then Some(0.723)
    else if name == "Earth" then Some(1.000)
    else if name == "Mars" then Some(1.524)
    else if name == "Jupiter" then Some(5.203)
    else if name == "Saturn" then Some(9.537)
    else if name == "Uranus" then Some(19.191)
    else if name == "Neptune" then Some(30.069)
    else None
  }

  /** The unclamped size a known planet gets in a mode. */
  function ScaledSize(radiusKm: real, mode: ScaleMode): real {
    Config(mode).sunSize * (radiusKm / SunRadiusKm) * Config(mode).planetSizeMultiplier
  }

  /** `getRealisticPlanetSize`: the base size in visual mode or for a name
      the table lacks; otherwise the scaled size, but never below 0.1. */
  function GetRealisticPlanetSize(name: string, mode: ScaleMode, baseSize: real): (r: real)
    ensures mode == Visual || PlanetRadius(name).None? ==> r == baseSize
    ensures mode != Visual && PlanetRadius(name).Some? ==>
      && r >= 0.1
      && r >= ScaledSize(PlanetRadius(name).value, mode)
      && (r == 0.1 || r == ScaledSize(PlanetRadius(name).value, mode))
  {
    if mode == Visual then baseSize
    else
      match PlanetRadius(name)
      case None => baseSize
      case Some(radius) =>
        var size := ScaledSize(radius, mode);
        if size > 0.1 then size else 0.1
  }

  /** In a scaled mode a larger planet is never drawn smaller. */
  lemma PlanetSizeMonotone(n1: string, n2: string, mode: ScaleMode, b1: real, b2: real)
    requires mode != Visual
    requires PlanetRadius(n1).Some? && PlanetRadius(n2).Some?
    requires PlanetRadius(n1).value <= PlanetRadius(n2).value
    ensures GetRealisticPlanetSize(n1, mode, b1) <= GetRealisticPlanetSize(n2, mode, b2)
  {
    var r1 := PlanetRadius(n1).value;
    var r2 := PlanetRadius(n2).value;
    assert r1 / SunRadiusKm <= r2 / SunRadiusKm;
    assert ScaledSize(r1, mode) <= ScaledSize(r2, mode);
  }

  /** `getRealisticDistance`: the base distance in visual mode or for a
      name the table lacks; otherwise 28 units per AU times the mode's
      multiplier. */
  function GetRealisticDistance(name: string, mode: ScaleMode, baseDistance: real): (r: real)
    ensures mode == Visual || PlanetDistanceAu(name).None? ==> r == baseDistance
    ensures mode != Visual && PlanetDistanceAu(name).Some? ==>
      r == EarthSceneUnits * PlanetDistanceAu(name).value * Config(mode).distanceMultiplier
  {
    if mode == Visual then baseDistance
    else
      match PlanetDistanceAu(name)
      case None => baseDistance
      case Some(au) => EarthSceneUnits * au * Config(mode).distanceMultiplier
  }

  /** In a scaled mode the planets keep their order from the Sun. */
  lemma DistanceOrderKept(n1: string, n2: string, mode: ScaleMode, b1: real, b2: real)
    requires mode != Visual
    requires PlanetDistanceAu(n1).Some? && PlanetDistanceAu(n2).Some?
    requires PlanetDistanceAu(n1).value < PlanetDistanceAu(n2).value
    ensures GetRealisticDistance(n1, mode, b1) < GetRealisticDistance(n2, mode, b2)
  {
    var d1 := PlanetDistanceAu(n1).value;
    var d2 := PlanetDistanceAu(n2).value;
    var k := Config(mode).distanceMultiplier;
    assert k > 0.0;
    assert EarthSceneUnits * d1 * k < EarthSceneUnits * d2 * k;
  }

  /** `Math.max(0.01, Math.min(1.5, x))` */
  function ClampLight(x: real): (r: real)
    ensures 0.01 <= r <= 1.5
    ensures 0.01 <= x <= 1.5 ==> r == x
  {
    if x > 1.5 then 1.5 else if x < 0.01 then 0.01 else x
  }

  /** `calculateLightIntensity`: 1 where lighting is not realistic,
      otherwise the inverse square of the distance in Earth distances,
      clamped. At distance 0 the division gives infinity, which clamps to
      1.5. */
  function CalculateLightIntensity(distance: real, mode: ScaleMode): (r: real)
    ensures !Config(mode).lightingRealistic ==> r == 1.0
    ensures mode == Visual ==> r == 1.0
    ensures 0.01 <= r <= 1.5
    ensures Config(mode).lightingRealistic && distance == 0.0 ==> r == 1.5
    ensures Config(mode).lightingRealistic && distance != 0.0 ==>
      r == ClampLight(EarthSceneUnits * EarthSceneUnits / (distance * distance))
  {
    if !Config(mode).lightingRealistic then 1.0
    else if distance == 0.0 then 1.5
    else
      var relative := distance / EarthSceneUnits;
      InverseSquareOfRatio(distance);
      ClampLight(1.0 / (relative * relative))
  }

  /** `1 / (d / 28)²` is `28² / d²`. */
  lemma InverseSquareOfRatio(d: real)
    requires d != 0.0
    ensures 1.0 / ((d / EarthSceneUnits) * (d / EarthSceneUnits)) == EarthSceneUnits * EarthSceneUnits / (d * d)
  {
    var relative := d / EarthSceneUnits;
    assert relative * EarthSceneUnits == d;
    assert relative * relative * (EarthSceneUnits * EarthSceneUnits) == d * d;
    assert relative * relative != 0.0;
    var x := EarthSceneUnits * EarthSceneUnits / (d * d);
    assert x * (d * d) == EarthSceneUnits * EarthSceneUnits;
    assert x * (relative * relative) == 1.0;
  }

  /** Within about 22.9 units of the Sun the intensity is held at the
      ceiling 1.5. */
  lemma LightCeilingNearSun(d: real, mode: ScaleMode)
    requires mode != Visual
    requires d != 0.0 && 1.5 * (d * d) <= EarthSceneUnits * EarthSceneUnits
    ensures CalculateLightIntensity(d, mode) == 1.5
  {
    var x := EarthSceneUnits * EarthSceneUnits / (d * d);
    assert x * (d * d) == EarthSceneUnits * EarthSceneUnits;
    assert d * d > 0.0;
    assert (x - 1.5) * (d * d) >= 0.0;
    PositiveFactor(x - 1.5, d * d);
  }

  /** From 280 units on, ten Earth distances, the intensity is held at
      the floor 0.01. */
  lemma LightFloorFarOut(d: real, mode: ScaleMode)
    requires mode != Visual
    requires d >= 280.0
    ensures CalculateLightIntensity(d, mode) == 0.01
  {
    var x := EarthSceneUnits * EarthSceneUnits / (d * d);
    SquareMonotone(280.0, d);
    assert x * (d * d) == EarthSceneUnits * EarthSceneUnits;
    assert x <= 0.01;
  }

  /** At Earth's distance the light has full strength in every mode. */
  lemma FullLightAtEarth(mode: ScaleMode)
    ensures CalculateLightIntensity(EarthSceneUnits, mode) == 1.0
  {
    if Config(mode).lightingRealistic {
      var relative := EarthSceneUnits / EarthSceneUnits;
      assert relative == 1.0;
    }
  }

  /** Farther from the Sun, the light is never brighter. */
  lemma LightNonIncreasing(d1: real, d2: real, mode: ScaleMode)
    requires 0.0 < d1 <= d2
    ensures CalculateLightIntensity(d1, mode) >= CalculateLightIntensity(d2, mode)
  {
    if Config(mode).lightingRealistic {
      var r1 := d1 / EarthSceneUnits;
      var r2 := d2 / EarthSceneUnits;
      assert 0.0 < r1 <= r2;
      SquareMonotone(r1, r2);
      InverseMonotone(r1 * r1, r2 * r2);
    }
  }

  /** Between 23 and 280 units the clamp does not bite, so the intensity
      times the squared distance is the constant 28². */
  lemma InverseSquareInRange(d: real, mode: ScaleMode)
    requires mode != Visual
    requires 23.0 <= d <= 280.0
    ensures CalculateLightIntensity(d, mode) * d * d == EarthSceneUnits * EarthSceneUnits
  {
    var relative := d / EarthSceneUnits;
    SquareMonotone(23.0, d);
    SquareMonotone(d, 280.0);
    var x := 1.0 / (relative * relative);
    assert relative * relative * 784.0 == d * d;
    assert x * (d * d) == 784.0;
    InverseMonotone(529.0, d * d);
    InverseMonotone(d * d, 78400.0);
    assert x == 784.0 / (d * d);
  }

  lemma PositiveFactor(a: real, b: real)
    requires b > 0.0 && a * b >= 0.0
    ensures a >= 0.0
  {
  }

  lemma SquareMonotone(a: real, b: real)
    requires 0.0 < a <= b
    ensures 0.0 < a * a <= b * b
  {
    assert a * a <= a * b;
    assert a * b <= b * b;
  }

  lemma InverseMonotone(a: real, b: real)
    requires 0.0 < a <= b
    ensures 1.0 / a >= 1.0 / b
  {
    var ia := 1.0 / a;
    var ib := 1.0 / b;
    assert ia * a == 1.0 && ib * b == 1.0;
    assert ib > 0.0;
    assert ib * a <= ib * b;
    assert (ia - ib) * a >= 0.0;
  }
}
