/** The classification half of `calculateImpactProbability`: probability
    from the minimum orbit distance, the risk, classification and damage
    ladders, and the unit relations of the result. The minimum distance
    and the orbital velocity are computed by numerical code outside this
    model and arrive as inputs; so do the five random draws per impact
    zone coordinate. */
module ImpactProbability {
  import opened Common
  import opened Bodies
  import opened Ladder
  import ImpactCalculator

  /** Ten Earth radii, in km. */
  const ThreatDistanceKm: real := EarthRadiusKm * 10.0

  /** The probability (in percent) falls linearly from 100 at distance 0
      to 0 at ten Earth radii, and is 0 beyond. */
  function Probability(distanceKm: real): (p: real)
    ensures p >= 0.0
    ensures distanceKm >= 0.0 ==> p <= 100.0
    ensures distanceKm >= ThreatDistanceKm ==> p == 0.0
    ensures 0.0 <= distanceKm < ThreatDistanceKm ==> p * ThreatDistanceKm == 100.0 * (ThreatDistanceKm - distanceKm)
  {
    if distanceKm < ThreatDistanceKm then
      var linear := 100.0 * (1.0 - distanceKm / ThreatDistanceKm);
      if linear > 0.0 then linear else 0.0
    else 0.0
  }

  /** A closer approach never lowers the probability. */
  lemma ProbabilityNonIncreasing(d1: real, d2: real)
    requires d1 <= d2
    ensures Probability(d1) >= Probability(d2)
  {
    if d2 < ThreatDistanceKm {
      assert d1 / ThreatDistanceKm <= d2 / ThreatDistanceKm;
    }
  }

  datatype RiskLevel = NoRisk | Low | Moderate | High | Extreme

  function RiskRank(r: RiskLevel): nat {
    match r
    case NoRisk => 0
    case Low => 1
    case Moderate => 2
    case High => 3
    case Extreme => 4
  }

  const RiskThresholds: seq<real> := [1.0, 10.0, 25.0, 50.0]

  /** The risk level as the handler sets it: `None` outside ten Earth
      radii, otherwise by the `>` ladder on the probability. It is always
      the ladder applied to the probability. */
  function Risk(distanceKm: real): (r: RiskLevel)
    ensures RiskRank(r) == Exceeded(Probability(distanceKm), RiskThresholds)
    ensures distanceKm >= ThreatDistanceKm ==> r == NoRisk
  {
    var p := Probability(distanceKm);
    var ts := RiskThresholds;
    if distanceKm < ThreatDistanceKm then
      if p > 50.0 then ExceededBand(p, ts, 4); Extreme
      else if p > 25.0 then ExceededBand(p, ts, 3); High
      else if p > 10.0 then ExceededBand(p, ts, 2); Moderate
      else if p > 1.0 then ExceededBand(p, ts, 1); Low
      else ExceededBand(p, ts, 0); NoRisk
    else
      ExceededBand(p, ts, 0);
      NoRisk
  }

  /** A closer approach never gives a lower risk level. */
  lemma RiskNonIncreasing(d1: real, d2: real)
    requires d1 <= d2
    ensures RiskRank(Risk(d1)) >= RiskRank(Risk(d2))
  {
    ProbabilityNonIncreasing(d1, d2);
    ExceededMonotone(Probability(d2), Probability(d1), RiskThresholds);
  }

  /** The damage text depends on the risk level alone. */
  function EstimatedDamage(r: RiskLevel): string {
    match r
    case NoRisk => "No significant threat"
    case Low => "Local damage possible"
    case Moderate => "Regional devastation likely"
    case High => "Continental-scale catastrophe"
    case Extreme => "Global extinction event"
  }

  /** Different levels get different texts, so the text names the level. */
  lemma DamageNamesLevel(r1: RiskLevel, r2: RiskLevel)
    requires EstimatedDamage(r1) == EstimatedDamage(r2)
    ensures r1 == r2
  {
    var d1 := EstimatedDamage(r1);
    var d2 := EstimatedDamage(r2);
    assert d1[0] == d2[0] && |d1| == |d2|;
  }

  const Classes: seq<string> := [
    "Meteorite (harmless)",
    "Hiroshima-class",
    "Tunguska-class",
    "Regional devastation",
    "Chicxulub-class (extinction)"
  ]

  const ClassThresholds: seq<real> := [0.015, 0.5, 10.0, 1000000.0]

  /** The classification ladder on the energy in megatons. */
  function Classification(megatons: real): (c: string)
    ensures c == Classes[Reached(megatons, ClassThresholds)]
  {
    var ts := ClassThresholds;
    if megatons < 0.015 then ReachedBand(megatons, ts, 0); "Meteorite (harmless)"
    else if megatons < 0.5 then ReachedBand(megatons, ts, 1); "Hiroshima-class"
    else if megatons < 10.0 then ReachedBand(megatons, ts, 2); "Tunguska-class"
    else if megatons < 1000000.0 then ReachedBand(megatons, ts, 3); "Regional devastation"
    else ReachedBand(megatons, ts, 4); "Chicxulub-class (extinction)"
  }

  datatype Zone = Zone(lat: real, lng: real)

  datatype ImpactAnalysis = ImpactAnalysis(
    closestApproach: real,
    closestApproachAU: real,
    closestApproachEarthRadii: real,
    impactProbability: real,
    riskLevel: RiskLevel,
    kineticEnergy: real,
    kineticEnergyMT: real,
    craterDiameter: real,
    craterDepth: real,
    ejectaRadius: real,
    impactZones: seq<Zone>,
    classification: string,
    estimatedDamage: string,
    damage: ImpactCalculator.Damage)

  /** A `Math.random()` value. */
  predicate IsDraw(u: real) {
    0.0 <= u < 1.0
  }

  /** `calculateImpactProbability` given the minimum orbit distance (km),
      the orbital velocity (km/s) and one pair of draws per impact zone. */
  function CalculateImpactProbability(mass: real, distanceKm: real, velocity: real,
                                      draws: seq<(real, real)>, m: MathLib): (a: ImpactAnalysis)
    requires |draws| == 5
    requires forall i :: 0 <= i < 5 ==> IsDraw(draws[i].0) && IsDraw(draws[i].1)
    ensures a.closestApproach == distanceKm
    ensures a.closestApproachAU * KmPerAu == distanceKm
    ensures a.closestApproachEarthRadii * EarthRadiusKm == distanceKm
    ensures a.impactProbability == Probability(distanceKm) && a.riskLevel == Risk(distanceKm)
    ensures a.kineticEnergyMT * JoulesPerMegaton == a.kineticEnergy
    ensures a.craterDepth * 7.0 == a.craterDiameter
    ensures a.ejectaRadius == 2.0 * a.craterDiameter
    ensures a.classification == Classes[Reached(a.kineticEnergyMT, ClassThresholds)]
    ensures a.estimatedDamage == EstimatedDamage(a.riskLevel)
    ensures |a.impactZones| == 5
    ensures forall i :: 0 <= i < 5 ==>
      && -90.0 <= a.impactZones[i].lat < 90.0
      && -180.0 <= a.impactZones[i].lng < 180.0
  {
    var energy := 0.5 * mass * m.pow(velocity * 1000.0, 2.0);
    var mt := energy / JoulesPerMegaton;
    var craterDiameter := 0.07 * m.pow(mt, 0.33);
    var zones := seq(5, i requires 0 <= i < 5 => Zone(draws[i].0 * 180.0 - 90.0, draws[i].1 * 360.0 - 180.0));
    assert forall i :: 0 <= i < 5 ==> -90.0 <= zones[i].lat < 90.0 && -180.0 <= zones[i].lng < 180.0 by {
      forall i | 0 <= i < 5 ensures -90.0 <= zones[i].lat < 90.0 && -180.0 <= zones[i].lng < 180.0 {
        assert zones[i] == Zone(draws[i].0 * 180.0 - 90.0, draws[i].1 * 360.0 - 180.0);
        assert IsDraw(draws[i].0) && IsDraw(draws[i].1);
      }
    }
    var risk := Risk(distanceKm);
    ImpactAnalysis(
      distanceKm, distanceKm / KmPerAu, distanceKm / EarthRadiusKm,
      Probability(distanceKm), risk,
      energy, mt, craterDiameter, craterDiameter / 7.0, craterDiameter * 2.0,
      zones, Classification(mt), EstimatedDamage(risk),
      ImpactCalculator.Damage(2.2 * m.pow(mt, 0.33), 3.5 * m.pow(mt, 0.41), 0.67 * m.log10(mt) + 3.87))
  }

  /** The handler converts energy to megatons the same way the impact
      calculator does. */
  lemma SameMegatons(mass: real, distanceKm: real, velocity: real, draws: seq<(real, real)>, m: MathLib)
    requires |draws| == 5
    requires forall i :: 0 <= i < 5 ==> IsDraw(draws[i].0) && IsDraw(draws[i].1)
    ensures CalculateImpactProbability(mass, distanceKm, velocity, draws, m).kineticEnergyMT
      == ImpactCalculator.JoulesToMegatons(CalculateImpactProbability(mass, distanceKm, velocity, draws, m).kineticEnergy)
  {
  }
}
