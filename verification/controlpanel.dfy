/** The control panel's two ways of making a custom orbiting body: from
    optional parameters with random defaults, and from the validated
    "custom object" form. Clock readings (as the decimal text they are
    interpolated as) and `Math.random()` draws are parameters. */
module ControlPanel {
  import opened Common
  import opened Bodies

  /** JavaScript's `s || fallback` on an optional string: `undefined` and
      the empty string are falsy. */
  function TextOrElse(s: Option<string>, fallback: string): (r: string)
    ensures s.Some? && s.value != "" ==> r == s.value
    ensures s.None? || s.value == "" ==> r == fallback
  {
    if s.Some? && s.value != "" then s.value else fallback
  }

  /** A `Math.random()` value. */
  predicate IsDraw(u: real) {
    0.0 <= u < 1.0
  }

  datatype CustomType = AsteroidType | CometType

  /** The optional parameters of `createCustomAsteroidObject`. */
  datatype CustomParams = CustomParams(
    name: Option<string>,
    color: Option<string>,
    radius: Option<real>,
    distanceAU: Option<real>,
    eccentricity: Option<real>,
    perihelionArg: Option<real>,
    periodYears: Option<real>,
    inclination: Option<real>,
    kind: Option<CustomType>)

  /** The random draws, named by what they are used for. */
  datatype Draws = Draws(distance: real, eccentricity: real, inclination: real,
                         perihelion: real, meanAnomaly: real, node: real)

  predicate ValidDraws(d: Draws) {
    && IsDraw(d.distance) && IsDraw(d.eccentricity) && IsDraw(d.inclination)
    && IsDraw(d.perihelion) && IsDraw(d.meanAnomaly) && IsDraw(d.node)
  }

  const CustomMass: real := 1000000000000.0
  const DefaultCustomColor: string := "#ff6b6b"

  /** `createCustomAsteroidObject`. `idStamp` and `nameStamp` are the two
      `Date.now()` readings, `suffix` the random base-36 piece of the id. */
  function CreateCustomAsteroidObject(p: CustomParams, idStamp: string, nameStamp: string,
                                      suffix: string, d: Draws, m: MathLib): (b: CelestialBody)
    requires ValidDraws(d)
    ensures b.id == "custom-" + idStamp + "-" + suffix
    ensures b.name == TextOrElse(p.name, "Custom-" + nameStamp)
    ensures b.color == TextOrElse(p.color, DefaultCustomColor)
    ensures b.radius == OrElse(p.radius, 5.0) && b.mass == CustomMass
    ensures b.kind == (if p.kind == Some(CometType) then Comet else Asteroid)
    ensures b.composition == Some(if b.kind == Comet then Icy else Rocky)
    ensures b.nasaState.None?
    ensures b.orbitalElements.semiMajorAxis == OrElse(p.distanceAU, 2.0 + d.distance * 1.5)
    ensures b.orbitalElements.eccentricity <= 0.99
    ensures b.orbitalElements.eccentricity == (var e := OrElse(p.eccentricity, d.eccentricity * 0.4); if e < 0.99 then e else 0.99)
    ensures b.orbitalElements.inclination == OrElse(p.inclination, d.inclination * 20.0)
    ensures b.orbitalElements.argumentOfPerihelion == OrElse(p.perihelionArg, d.perihelion * 360.0)
    ensures 0.0 <= b.orbitalElements.meanAnomaly < 360.0
    ensures 0.0 <= b.orbitalElements.longitudeOfAscendingNode < 360.0
    ensures b.orbitalElements.period == Some(OrElse(p.periodYears, m.sqrt(m.pow(b.orbitalElements.semiMajorAxis, 3.0))))
    ensures b.orbitalElements.velocity.None?
  {
    var distanceAU := OrElse(p.distanceAU, 2.0 + d.distance * 1.5);
    var e := OrElse(p.eccentricity, d.eccentricity * 0.4);
    var eccentricity := if e < 0.99 then e else 0.99;
    var inclination := OrElse(p.inclination, d.inclination * 20.0);
    var perihelionArg := OrElse(p.perihelionArg, d.perihelion * 360.0);
    var meanAnomaly := d.meanAnomaly * 360.0;
    var node := d.node * 360.0;
    var periodYears := OrElse(p.periodYears, m.sqrt(m.pow(distanceAU, 3.0)));
    var kind := if p.kind == Some(CometType) then Comet else Asteroid;
    CelestialBody(
      "custom-" + idStamp + "-" + suffix,
      TextOrElse(p.name, "Custom-" + nameStamp),
      kind,
      OrElse(p.radius, 5.0),
      CustomMass,
      TextOrElse(p.color, DefaultCustomColor),
      OrbitalElements(distanceAU, eccentricity, inclination, node, perihelionArg, meanAnomaly, Some(periodYears), None),
      None,
      Some(if p.kind == Some(CometType) then Icy else Rocky))
  }

  /** With no orbital parameters the body lands in the main belt: 2 to 3.5
      AU, eccentricity below 0.4, inclination below 20 degrees. */
  lemma DefaultsInBelt(p: CustomParams, idStamp: string, nameStamp: string, suffix: string, d: Draws, m: MathLib)
    requires ValidDraws(d)
    requires p.distanceAU.None? && p.eccentricity.None? && p.inclination.None?
    ensures var el := CreateCustomAsteroidObject(p, idStamp, nameStamp, suffix, d, m).orbitalElements;
      && 2.0 <= el.semiMajorAxis < 3.5
      && 0.0 <= el.eccentricity < 0.4
      && 0.0 <= el.inclination < 20.0
  {
  }

  /** Given non-zero orbital parameters and an eccentricity up to 0.99,
      the body's orbit is exactly the one asked for. */
  lemma GivenOrbitKept(p: CustomParams, idStamp: string, nameStamp: string, suffix: string, d: Draws, m: MathLib,
                       a: real, e: real, i: real, w: real, t: real)
    requires ValidDraws(d)
    requires a != 0.0 && e != 0.0 && i != 0.0 && w != 0.0 && t != 0.0 && e <= 0.99
    requires p.distanceAU == Some(a) && p.eccentricity == Some(e) && p.inclination == Some(i)
    requires p.perihelionArg == Some(w) && p.periodYears == Some(t)
    ensures var el := CreateCustomAsteroidObject(p, idStamp, nameStamp, suffix, d, m).orbitalElements;
      el.semiMajorAxis == a && el.eccentricity == e && el.inclination == i
      && el.argumentOfPerihelion == w && el.period == Some(t)
  {
  }

  /** Whatever the parameters, the eccentricity never reaches 1, so the
      orbit is never parabolic or hyperbolic; a comet is always icy and
      anything else rocky. */
  lemma CustomObjectInvariants(p: CustomParams, idStamp: string, nameStamp: string, suffix: string, d: Draws, m: MathLib)
    requires ValidDraws(d)
    ensures var b := CreateCustomAsteroidObject(p, idStamp, nameStamp, suffix, d, m);
      && b.orbitalElements.eccentricity < 1.0
      && (b.composition == Some(Icy) <==> p.kind == Some(CometType))
  {
  }

  /** The `||` defaults treat an explicit 0 as absent: asking for an
      orbit in the ecliptic (inclination 0) yields a random inclination
      instead. */
  lemma ZeroInclinationReplaced(p: CustomParams, idStamp: string, nameStamp: string, suffix: string, d: Draws, m: MathLib)
    requires ValidDraws(d) && d.inclination == 0.5
    requires p.inclination == Some(0.0)
    ensures CreateCustomAsteroidObject(p, idStamp, nameStamp, suffix, d, m).orbitalElements.inclination == 10.0
  {
  }

  /** `x ?? fallback`: only an absent value takes the default. */
  function Given(x: Option<real>, fallback: real): (r: real)
    ensures x.Some? ==> r == x.value
    ensures x.None? ==> r == fallback
  {
    if x.Some? then x.value else fallback
  }

  /** `createCustomAsteroidObject` with the orbital defaults applied only
      to absent parameters, so that 0 is a value like any other. */
  function CreateCustomAsteroidObjectNullish(p: CustomParams, idStamp: string, nameStamp: string,
                                             suffix: string, d: Draws, m: MathLib): (b: CelestialBody)
    requires ValidDraws(d)
    ensures b.orbitalElements.eccentricity <= 0.99
    ensures 0.0 <= b.orbitalElements.meanAnomaly < 360.0
    ensures 0.0 <= b.orbitalElements.longitudeOfAscendingNode < 360.0
    ensures b.composition == Some(if b.kind == Comet then Icy else Rocky)
  {
    var distanceAU := Given(p.distanceAU, 2.0 + d.distance * 1.5);
    var e := Given(p.eccentricity, d.eccentricity * 0.4);
    var eccentricity := if e < 0.99 then e else 0.99;
    var inclination := Given(p.inclination, d.inclination * 20.0);
    var perihelionArg := Given(p.perihelionArg, d.perihelion * 360.0);
    var periodYears := Given(p.periodYears, m.sqrt(m.pow(distanceAU, 3.0)));
    var kind := if p.kind == Some(CometType) then Comet else Asteroid;
    CelestialBody(
      "custom-" + idStamp + "-" + suffix,
      TextOrElse(p.name, "Custom-" + nameStamp),
      kind,
      OrElse(p.radius, 5.0),
      CustomMass,
      TextOrElse(p.color, DefaultCustomColor),
      OrbitalElements(distanceAU, eccentricity, inclination, d.node * 360.0, perihelionArg,
                      d.meanAnomaly * 360.0, Some(periodYears), None),
      None,
      Some(if p.kind == Some(CometType) then Icy else Rocky))
  }

  /** Every given orbital parameter is kept exactly, zero included (the
      eccentricity up to 0.99); for non-zero parameters the corrected and
      the original constructions agree. */
  lemma NullishKeepsGivenOrbit(p: CustomParams, idStamp: string, nameStamp: string, suffix: string, d: Draws, m: MathLib,
                               a: real, e: real, i: real, w: real, t: real)
    requires ValidDraws(d)
    requires e <= 0.99
    requires p.distanceAU == Some(a) && p.eccentricity == Some(e) && p.inclination == Some(i)
    requires p.perihelionArg == Some(w) && p.periodYears == Some(t)
    ensures var el := CreateCustomAsteroidObjectNullish(p, idStamp, nameStamp, suffix, d, m).orbitalElements;
      el.semiMajorAxis == a && el.eccentricity == e && el.inclination == i
      && el.argumentOfPerihelion == w && el.period == Some(t)
    ensures a != 0.0 && e != 0.0 && i != 0.0 && w != 0.0 && t != 0.0 ==>
      CreateCustomAsteroidObjectNullish(p, idStamp, nameStamp, suffix, d, m) == CreateCustomAsteroidObject(p, idStamp, nameStamp, suffix, d, m)
  {
  }

  /** The form state of the "custom object" tab. */
  datatype Form = Form(
    name: string,
    kind: BodyType,
    semiMajorAxis: real,
    eccentricity: real,
    inclination: real,
    longitudeAscending: real,
    argumentPerihelion: real,
    mass: real,
    radius: real,
    visualSize: real,
    composition: Composition,
    color: string)

  /** What pressing "add" does: nothing without a handler, an alert for
      invalid input, or a new body for the handler. */
  datatype AddOutcome = Ignored | Rejected(message: string) | Added(body: CelestialBody)

  const NameMissing: string := "\U{26A0}\U{FE0F} Please enter a name for the object"
  const AxisNotPositive: string := "\U{26A0}\U{FE0F} Semi-major axis must be greater than 0"
  const EccentricityOutOfRange: string := "\U{26A0}\U{FE0F} Eccentricity must be between 0 and 0.99"

  /** The form describes a closed orbit of a named body. */
  predicate ValidForm(f: Form) {
    && (exists i :: 0 <= i < |f.name| && !IsJsSpace(f.name[i]))
    && f.semiMajorAxis > 0.0
    && 0.0 <= f.eccentricity < 1.0
  }

  const SecondsPerYear: real := 365.25 * 24.0 * 3600.0

  /** Mean orbital speed in km/s for a circular orbit of radius `a` AU and
      period `period` years; `None` where JavaScript would divide by 0. */
  function MeanSpeed(a: real, period: real, m: MathLib): (v: Option<real>)
    ensures period != 0.0 <==> v.Some?
    ensures v.Some? ==> v.value * (period * SecondsPerYear) == 2.0 * m.pi * a * KmPerAu
  {
    if period == 0.0 then None
    else Some(2.0 * m.pi * a * KmPerAu / (period * SecondsPerYear))
  }

  /** `handleAddCustomOrbitalObject`: the handler guard, then the three
      checks in order, then the body built from the form with a random
      mean anomaly and the Kepler period. */
  function HandleAddCustomOrbitalObject(hasHandler: bool, f: Form, stamp: string, draw: real, m: MathLib): (r: AddOutcome)
    requires IsDraw(draw)
    ensures r.Ignored? <==> !hasHandler
    ensures r.Added? <==> hasHandler && ValidForm(f)
    ensures r.Rejected? ==> (r.message ==
      if AllSpace(f.name) then NameMissing
      else if f.semiMajorAxis <= 0.0 then AxisNotPositive
      else EccentricityOutOfRange)
    ensures r.Added? ==>
      var b := r.body;
      var el := b.orbitalElements;
      && b.id == "custom-" + stamp && b.name == f.name && b.kind == f.kind
      && b.radius == f.radius * f.visualSize && b.mass == f.mass && b.color == f.color
      && b.composition == Some(f.composition) && b.nasaState.None?
      && el.semiMajorAxis == f.semiMajorAxis && el.eccentricity == f.eccentricity
      && el.inclination == f.inclination && el.longitudeOfAscendingNode == f.longitudeAscending
      && el.argumentOfPerihelion == f.argumentPerihelion
      && 0.0 <= el.meanAnomaly < 360.0
      && el.period == Some(m.sqrt(m.pow(f.semiMajorAxis, 3.0)))
      && el.velocity == MeanSpeed(f.semiMajorAxis, el.period.value, m)
  {
    if !hasHandler then Ignored
    else if Trim(f.name) == "" then Rejected(NameMissing)
    else if f.semiMajorAxis <= 0.0 then Rejected(AxisNotPositive)
    else if f.eccentricity < 0.0 || f.eccentricity >= 1.0 then Rejected(EccentricityOutOfRange)
    else
      var period := m.sqrt(m.pow(f.semiMajorAxis, 3.0));
      Added(CelestialBody(
        "custom-" + stamp, f.name, f.kind, f.radius * f.visualSize, f.mass, f.color,
        OrbitalElements(f.semiMajorAxis, f.eccentricity, f.inclination, f.longitudeAscending,
                        f.argumentPerihelion, draw * 360.0, Some(period), MeanSpeed(f.semiMajorAxis, period, m)),
        None,
        Some(f.composition)))
  }
}
