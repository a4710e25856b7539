/** The front end's celestial-body types, and the transcendental
    functions its formulas call, passed in rather than modelled. */
module Bodies {
  import opened Common

  datatype BodyType = Planet | Asteroid | Comet | DwarfPlanet | TransNeptunian

  datatype Composition = Rocky | Icy | Metallic | Carbonaceous

  /** Angles in degrees, the axis in AU; `period` (years) and `velocity`
      (km/s) are optional. */
  datatype OrbitalElements = OrbitalElements(
    semiMajorAxis: real,
    eccentricity: real,
    inclination: real,
    longitudeOfAscendingNode: real,
    argumentOfPerihelion: real,
    meanAnomaly: real,
    period: Option<real>,
    velocity: Option<real>)

  datatype Position = Position(x: real, y: real, z: real)

  datatype Velocity = Velocity(vx: real, vy: real, vz: real)

  /** A heliocentric position (AU) and velocity (AU/day). */
  datatype StateVector = StateVector(position: Position, velocity: Velocity)

  datatype CelestialBody = CelestialBody(
    id: string,
    name: string,
    kind: BodyType,
    radius: real,
    mass: real,
    color: string,
    orbitalElements: OrbitalElements,
    nasaState: Option<StateVector>,
    composition: Option<Composition>)

  /** `Math.PI`, `Math.pow`, `Math.sqrt`, `Math.sin` and `Math.log10`. */
  datatype MathLib = MathLib(
    pi: real,
    pow: (real, real) -> real,
    sqrt: real -> real,
    sin: real -> real,
    log10: real -> real)

  /** JavaScript's `x || fallback` on an optional number: `undefined` and
      `0` are falsy. */
  function OrElse(x: Option<real>, fallback: real): (r: real)
    ensures x.Some? && x.value != 0.0 ==> r == x.value
    ensures x.None? || x.value == 0.0 ==> r == fallback
  {
    if x.Some? && x.value != 0.0 then x.value else fallback
  }

  const KmPerAu: real := 149597870.7
  const EarthRadiusKm: real := 6371.0
  const JoulesPerMegaton: real := 4184000000000000.0
}
