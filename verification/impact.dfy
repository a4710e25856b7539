/** The impact calculator: kinetic energy of a spherical body, its TNT
    equivalent, crater and damage scales, and the severity and comparison
    bands. `pow`, `sin`, `log10` and `PI` are parameters. */
module ImpactCalculator {
  import opened Common
  import opened Bodies
  import opened Ladder

  datatype Severity = Minor | Moderate | Severe | Catastrophic | Extinction

  function SeverityRank(s: Severity): nat {
    match s
    case Minor => 0
    case Moderate => 1
    case Severe => 2
    case Catastrophic => 3
    case Extinction => 4
  }

  const SeverityThresholds: seq<real> := [0.1, 10.0, 1000.0, 1000000.0]

  /** `getSeverity`: the band is the number of thresholds reached. */
  function GetSeverity(megatons: real): (s: Severity)
    ensures SeverityRank(s) == Reached(megatons, SeverityThresholds)
  {
    var ts := SeverityThresholds;
    if megatons < 0.1 then ReachedBand(megatons, ts, 0); Minor
    else if megatons < 10.0 then ReachedBand(megatons, ts, 1); Moderate
    else if megatons < 1000.0 then ReachedBand(megatons, ts, 2); Severe
    else if megatons < 1000000.0 then ReachedBand(megatons, ts, 3); Catastrophic
    else ReachedBand(megatons, ts, 4); Extinction
  }

  /** More energy never gives a milder band. */
  lemma SeverityMonotone(x: real, y: real)
    requires x <= y
    ensures SeverityRank(GetSeverity(x)) <= SeverityRank(GetSeverity(y))
  {
    ReachedMonotone(x, y, SeverityThresholds);
  }

  const Comparisons: seq<string> := [
    "Comparable to a small bomb",
    "Similar to Hiroshima atomic bomb (15 kilotons)",
    "Similar to Chelyabinsk meteor (2013)",
    "Similar to Tunguska event (1908)",
    "Similar to largest nuclear weapons tested",
    "Regional devastation event",
    "Similar to Chicxulub impact (dinosaur extinction)",
    "Global extinction level event"
  ]

  const ComparisonThresholds: seq<real> := [0.001, 0.015, 0.5, 10.0, 1000.0, 100000.0, 10000000.0]

  /** `getComparison`: the text at the index of thresholds reached. */
  function GetComparison(megatons: real): (c: string)
    ensures c == Comparisons[Reached(megatons, ComparisonThresholds)]
  {
    var ts := ComparisonThresholds;
    if megatons < 0.001 then ReachedBand(megatons, ts, 0); "Comparable to a small bomb"
    else if megatons < 0.015 then ReachedBand(megatons, ts, 1); "Similar to Hiroshima atomic bomb (15 kilotons)"
    else if megatons < 0.5 then ReachedBand(megatons, ts, 2); "Similar to Chelyabinsk meteor (2013)"
    else if megatons < 10.0 then ReachedBand(megatons, ts, 3); "Similar to Tunguska event (1908)"
    else if megatons < 1000.0 then ReachedBand(megatons, ts, 4); "Similar to largest nuclear weapons tested"
    else if megatons < 100000.0 then ReachedBand(megatons, ts, 5); "Regional devastation event"
    else if megatons < 10000000.0 then ReachedBand(megatons, ts, 6); "Similar to Chicxulub impact (dinosaur extinction)"
    else ReachedBand(megatons, ts, 7); "Global extinction level event"
  }

  /** The comparison moves down the list as the energy grows, never back. */
  lemma ComparisonMonotone(x: real, y: real)
    requires x <= y
    ensures exists i, j :: 0 <= i <= j < |Comparisons| && GetComparison(x) == Comparisons[i] && GetComparison(y) == Comparisons[j]
  {
    ReachedMonotone(x, y, ComparisonThresholds);
    var i := Reached(x, ComparisonThresholds);
    var j := Reached(y, ComparisonThresholds);
    assert GetComparison(x) == Comparisons[i] && GetComparison(y) == Comparisons[j];
  }

  /** `joulesToMegatons` */
  function JoulesToMegatons(joules: real): (mt: real)
    ensures mt * JoulesPerMegaton == joules
    ensures (mt < 0.0) == (joules < 0.0)
  {
    joules / JoulesPerMegaton
  }

  datatype AsteroidData = AsteroidData(diameter: real, velocity: real, density: Option<real>, angle: Option<real>)

  datatype Crater = Crater(diameter: real, depth: real)

  datatype Damage = Damage(airblastRadius: real, thermalRadius: real, seismicMagnitude: real)

  datatype ImpactResults = ImpactResults(
    joules: real,
    megatonsTNT: real,
    crater: Crater,
    damage: Damage,
    comparison: string,
    severity: Severity)

  /** `calculateMass`: a sphere of the given diameter (km) and density. */
  function CalculateMass(diameter: real, density: real, m: MathLib): real {
    var radius := diameter * 1000.0 / 2.0;
    (4.0 / 3.0) * m.pi * m.pow(radius, 3.0) * density
  }

  function CalculateKineticEnergy(mass: real, velocity: real, m: MathLib): real {
    0.5 * mass * m.pow(velocity * 1000.0, 2.0)
  }

  /** `calculateCrater`: the depth is always a seventh of the diameter. */
  function CalculateCrater(energy: real, angle: real, m: MathLib): (c: Crater)
    ensures c.depth * 7.0 == c.diameter
  {
    var diameter := 0.07 * m.pow(JoulesToMegatons(energy), 0.33) * m.sin(angle * m.pi / 180.0);
    Crater(diameter, diameter / 7.0)
  }

  function CalculateDamage(energy: real, m: MathLib): Damage {
    var mt := JoulesToMegatons(energy);
    Damage(2.2 * m.pow(mt, 0.33), 3.5 * m.pow(mt, 0.41), 0.67 * m.log10(mt) + 3.87)
  }

  /** `calculateImpact`. A density or angle that is absent or 0 is
      replaced by 2600 kg/m³ and 45°. */
  function CalculateImpact(a: AsteroidData, m: MathLib): (r: ImpactResults)
    ensures r.megatonsTNT * JoulesPerMegaton == r.joules
    ensures r.severity == GetSeverity(r.megatonsTNT)
    ensures r.comparison == GetComparison(r.megatonsTNT)
    ensures r.crater.depth * 7.0 == r.crater.diameter
    ensures r.joules == CalculateKineticEnergy(CalculateMass(a.diameter, OrElse(a.density, 2600.0), m), a.velocity, m)
  {
    var density := OrElse(a.density, 2600.0);
    var angle := OrElse(a.angle, 45.0);
    var joules := CalculateKineticEnergy(CalculateMass(a.diameter, density, m), a.velocity, m);
    var mt := JoulesToMegatons(joules);
    ImpactResults(joules, mt, CalculateCrater(joules, angle, m), CalculateDamage(joules, m),
                  GetComparison(mt), GetSeverity(mt))
  }

  /** Leaving out the density, or giving 0, is the same as giving 2600. */
  lemma DefaultDensity(a: AsteroidData, m: MathLib)
    requires a.density.None? || a.density == Some(0.0)
    ensures CalculateImpact(a, m) == CalculateImpact(a.(density := Some(2600.0)), m)
  {
  }

  /** Leaving out the angle, or giving 0, is the same as giving 45. */
  lemma DefaultAngle(a: AsteroidData, m: MathLib)
    requires a.angle.None? || a.angle == Some(0.0)
    ensures CalculateImpact(a, m) == CalculateImpact(a.(angle := Some(45.0)), m)
  {
  }
}
