/** The impact-analysis page's risk rating of one body: six orbital and
    size factors, each worth a fixed number of points, and a level from
    the total. */
module RiskAssessment {
  import opened Bodies
  import opened Ladder

  datatype Factor = NearEarth | HighlyEccentric | CrossesEarthOrbit | LargeSize | SignificantSize | LowInclination

  /** The factors in the order the page checks them. */
  const AllFactors: seq<Factor> := [NearEarth, HighlyEccentric, CrossesEarthOrbit, LargeSize, SignificantSize, LowInclination]

  function Weight(f: Factor): nat {
    match f
    case NearEarth => 3
    case HighlyEccentric => 2
    case CrossesEarthOrbit => 4
    case LargeSize => 2
    case SignificantSize => 1
    case LowInclination => 1
  }

  function Reason(f: Factor): string {
    match f
    case NearEarth => "Near-Earth orbit"
    case HighlyEccentric => "Highly eccentric orbit"
    case CrossesEarthOrbit => "Crosses Earth's orbit"
    case LargeSize => "Large size (>100 km)"
    case SignificantSize => "Significant size (>10 km)"
    case LowInclination => "Low inclination"
  }

  /** When each factor applies. An orbit crosses Earth's when its
      perihelion is inside 1.05 AU and its aphelion outside 0.95 AU; the
      two size factors are exclusive. */
  predicate Holds(f: Factor, obj: CelestialBody) {
    var a := obj.orbitalElements.semiMajorAxis;
    var e := obj.orbitalElements.eccentricity;
    match f
    case NearEarth => a < 1.3
    case HighlyEccentric => e > 0.5
    case CrossesEarthOrbit => a * (1.0 - e) < 1.05 && a * (1.0 + e) > 0.95
    case LargeSize => obj.radius > 100.0
    case SignificantSize => 10.0 < obj.radius <= 100.0
    case LowInclination => obj.orbitalElements.inclination < 10.0
  }

  /** The reference: the factors that hold, in checking order. */
  function Present(fs: seq<Factor>, obj: CelestialBody): (ps: seq<Factor>)
    ensures |ps| <= |fs|
  {
    if fs == [] then []
    else (if Holds(fs[0], obj) then [fs[0]] else []) + Present(fs[1..], obj)
  }

  function Points(fs: seq<Factor>): nat {
    if fs == [] then 0 else Weight(fs[0]) + Points(fs[1..])
  }

  function Reasons(fs: seq<Factor>): (rs: seq<string>)
    ensures |rs| == |fs|
  {
    if fs == [] then [] else [Reason(fs[0])] + Reasons(fs[1..])
  }

  datatype Level = Low | Moderate | High | Extreme

  function LevelRank(l: Level): nat {
    match l
    case Low => 0
    case Moderate => 1
    case High => 2
    case Extreme => 3
  }

  const LevelThresholds: seq<real> := [3.0, 5.0, 7.0]

  datatype Assessment = Assessment(level: Level, color: string, bgColor: string, reasons: seq<string>)

  function Color(l: Level): string {
    match l
    case Low => "#00ff00"
    case Moderate => "#ffaa00"
    case High => "#ff6600"
    case Extreme => "#ff0000"
  }

  function Background(l: Level): string {
    match l
    case Low => "bg-green-500/20"
    case Moderate => "bg-yellow-500/20"
    case High => "bg-orange-500/20"
    case Extreme => "bg-red-500/20"
  }

  /** The level for a score: the number of thresholds 3, 5, 7 it reaches. */
  function LevelFor(score: int): (l: Level)
    ensures LevelRank(l) == Reached(score as real, LevelThresholds)
  {
    var x := score as real;
    var ts := LevelThresholds;
    if score >= 7 then ReachedBand(x, ts, 3); Extreme
    else if score >= 5 then ReachedBand(x, ts, 2); High
    else if score >= 3 then ReachedBand(x, ts, 1); Moderate
    else ReachedBand(x, ts, 0); Low
  }

  /** What one check contributes: its points and its reason when its
      factor holds, nothing otherwise. */
  function PointsIf(f: Factor, obj: CelestialBody): nat {
    if Holds(f, obj) then Weight(f) else 0
  }

  function ReasonIf(f: Factor, obj: CelestialBody): seq<string> {
    if Holds(f, obj) then [Reason(f)] else []
  }

  /** One check of `calculateRiskLevel`: the points it adds and the
      reasons it pushes. */
  type Check = (nat, seq<string>)

  function NearEarthCheck(obj: CelestialBody): (c: Check)
    ensures c == (PointsIf(NearEarth, obj), ReasonIf(NearEarth, obj))
  {
    if obj.orbitalElements.semiMajorAxis < 1.3 then (3, ["Near-Earth orbit"]) else (0, [])
  }

  function EccentricityCheck(obj: CelestialBody): (c: Check)
    ensures c == (PointsIf(HighlyEccentric, obj), ReasonIf(HighlyEccentric, obj))
  {
    if obj.orbitalElements.eccentricity > 0.5 then (2, ["Highly eccentric orbit"]) else (0, [])
  }

  function CrossingCheck(obj: CelestialBody): (c: Check)
    ensures c == (PointsIf(CrossesEarthOrbit, obj), ReasonIf(CrossesEarthOrbit, obj))
  {
    var a := obj.orbitalElements.semiMajorAxis;
    var e := obj.orbitalElements.eccentricity;
    var perihelion := a * (1.0 - e);
    var aphelion := a * (1.0 + e);
    if perihelion < 1.05 && aphelion > 0.95 then (4, ["Crosses Earth's orbit"]) else (0, [])
  }

  function SizeCheck(obj: CelestialBody): (c: Check)
    ensures c.0 == PointsIf(LargeSize, obj) + PointsIf(SignificantSize, obj)
    ensures c.1 == ReasonIf(LargeSize, obj) + ReasonIf(SignificantSize, obj)
  {
    if obj.radius > 100.0 then (2, ["Large size (>100 km)"])
    else if obj.radius > 10.0 then (1, ["Significant size (>10 km)"])
    else (0, [])
  }

  function InclinationCheck(obj: CelestialBody): (c: Check)
    ensures c == (PointsIf(LowInclination, obj), ReasonIf(LowInclination, obj))
  {
    if obj.orbitalElements.inclination < 10.0 then (1, ["Low inclination"]) else (0, [])
  }

  /** `calculateRiskLevel`: the checks in order, then the level from the
      total. The reasons and the score are exactly those of the factors
      that hold, in checking order. */
  function CalculateRiskLevel(obj: CelestialBody): (r: Assessment)
    ensures r.reasons == Reasons(Present(AllFactors, obj))
    ensures LevelRank(r.level) == Reached(Points(Present(AllFactors, obj)) as real, LevelThresholds)
    ensures r.color == Color(r.level) && r.bgColor == Background(r.level)
  {
    var near := NearEarthCheck(obj);
    var eccentric := EccentricityCheck(obj);
    var crossing := CrossingCheck(obj);
    var size := SizeCheck(obj);
    var flat := InclinationCheck(obj);
    var score := near.0 + eccentric.0 + crossing.0 + size.0 + flat.0;
    var reasons := near.1 + (eccentric.1 + (crossing.1 + (size.1 + flat.1)));
    StepsMatchReference(obj);
    assert size.1 + flat.1 == ReasonIf(LargeSize, obj) + (ReasonIf(SignificantSize, obj) + flat.1);
    var level := LevelFor(score);
    Assessment(level, Color(level), Background(level), reasons)
  }

  /** The reference unrolled over the six factors, one term per check. */
  lemma StepsMatchReference(obj: CelestialBody)
    ensures Points(Present(AllFactors, obj)) ==
      PointsIf(NearEarth, obj) + PointsIf(HighlyEccentric, obj) + PointsIf(CrossesEarthOrbit, obj)
      + PointsIf(LargeSize, obj) + PointsIf(SignificantSize, obj) + PointsIf(LowInclination, obj)
    ensures Reasons(Present(AllFactors, obj)) ==
      ReasonIf(NearEarth, obj) + (ReasonIf(HighlyEccentric, obj) + (ReasonIf(CrossesEarthOrbit, obj)
      + (ReasonIf(LargeSize, obj) + (ReasonIf(SignificantSize, obj) + ReasonIf(LowInclination, obj)))))
  {
    Unroll(AllFactors, obj);
  }

  lemma Unroll(fs: seq<Factor>, obj: CelestialBody)
    requires |fs| == 6
    ensures Points(Present(fs, obj)) ==
      PointsIf(fs[0], obj) + PointsIf(fs[1], obj) + PointsIf(fs[2], obj)
      + PointsIf(fs[3], obj) + PointsIf(fs[4], obj) + PointsIf(fs[5], obj)
    ensures Reasons(Present(fs, obj)) ==
      ReasonIf(fs[0], obj) + (ReasonIf(fs[1], obj) + (ReasonIf(fs[2], obj)
      + (ReasonIf(fs[3], obj) + (ReasonIf(fs[4], obj) + ReasonIf(fs[5], obj)))))
  {
    var t1, t2, t3, t4, t5 := fs[1..], fs[2..], fs[3..], fs[4..], fs[5..];
    assert t1[1..] == t2 && t2[1..] == t3 && t3[1..] == t4 && t4[1..] == t5 && t5[1..] == [];
    assert t1[0] == fs[1] && t2[0] == fs[2] && t3[0] == fs[3] && t4[0] == fs[4] && t5[0] == fs[5];
    Step(fs, obj);
    Step(t1, obj);
    Step(t2, obj);
    Step(t3, obj);
    Step(t4, obj);
    Step(t5, obj);
    assert Reasons(Present(t5[1..], obj)) == [];
    assert ReasonIf(fs[5], obj) + [] == ReasonIf(fs[5], obj);
  }

  /** Checking a list of factors is checking the first, then the rest. */
  lemma Step(fs: seq<Factor>, obj: CelestialBody)
    requires fs != []
    ensures Points(Present(fs, obj)) == PointsIf(fs[0], obj) + Points(Present(fs[1..], obj))
    ensures Reasons(Present(fs, obj)) == ReasonIf(fs[0], obj) + Reasons(Present(fs[1..], obj))
  {
    var bit := if Holds(fs[0], obj) then [fs[0]] else [];
    assert Present(fs, obj) == bit + Present(fs[1..], obj);
    PointsAppend(bit, Present(fs[1..], obj));
    ReasonsAppend(bit, Present(fs[1..], obj));
  }

  lemma {:induction false} PointsAppend(a: seq<Factor>, b: seq<Factor>)
    ensures Points(a + b) == Points(a) + Points(b)
  {
    if a != [] {
      assert (a + b)[1..] == a[1..] + b;
      PointsAppend(a[1..], b);
    } else {
      assert a + b == b;
    }
  }

  lemma {:induction false} ReasonsAppend(a: seq<Factor>, b: seq<Factor>)
    ensures Reasons(a + b) == Reasons(a) + Reasons(b)
  {
    if a != [] {
      assert (a + b)[1..] == a[1..] + b;
      ReasonsAppend(a[1..], b);
    } else {
      assert a + b == b;
    }
  }

  /** The reference keeps exactly the factors that hold. */
  lemma {:induction false} PresentMembers(fs: seq<Factor>, obj: CelestialBody, f: Factor)
    ensures f in Present(fs, obj) <==> f in fs && Holds(f, obj)
  {
    if fs != [] {
      PresentMembers(fs[1..], obj, f);
      assert fs == [fs[0]] + fs[1..];
    }
  }

  lemma {:induction false} ReasonsMembers(fs: seq<Factor>, f: Factor)
    ensures Reason(f) in Reasons(fs) <==> f in fs
  {
    if fs != [] {
      ReasonsMembers(fs[1..], f);
      ReasonNamesFactor(fs[0], f);
      assert fs == [fs[0]] + fs[1..];
    }
  }

  /** Different factors have different reason texts. */
  lemma ReasonNamesFactor(f: Factor, g: Factor)
    ensures Reason(f) == Reason(g) <==> f == g
  {
  }

  /** A reason is listed exactly when its factor holds. */
  lemma ReasonListedIff(obj: CelestialBody, f: Factor)
    ensures Reason(f) in CalculateRiskLevel(obj).reasons <==> Holds(f, obj)
  {
    ReasonsMembers(Present(AllFactors, obj), f);
    PresentMembers(AllFactors, obj, f);
  }

  /** At most five reasons, since the two size factors exclude each other,
      and a score of at most 12. */
  lemma ScoreBounds(obj: CelestialBody)
    ensures |CalculateRiskLevel(obj).reasons| <= 5
    ensures Points(Present(AllFactors, obj)) <= 12
  {
    StepsMatchReference(obj);
    assert !(Holds(LargeSize, obj) && Holds(SignificantSize, obj));
  }

  /** A higher score never gives a lower level. */
  lemma LevelMonotone(s1: int, s2: int)
    requires s1 <= s2
    ensures LevelRank(LevelFor(s1)) <= LevelRank(LevelFor(s2))
  {
    ReachedMonotone(s1 as real, s2 as real, LevelThresholds);
  }

  /** An orbit crossing Earth's is at least a moderate risk; a near-Earth
      one that crosses Earth's orbit is extreme. */
  lemma CrossingRaisesLevel(obj: CelestialBody)
    ensures Holds(CrossesEarthOrbit, obj) ==> LevelRank(CalculateRiskLevel(obj).level) >= 1
    ensures Holds(CrossesEarthOrbit, obj) && Holds(NearEarth, obj) ==> CalculateRiskLevel(obj).level == Extreme
  {
    StepsMatchReference(obj);
    var score := Points(Present(AllFactors, obj));
    if Holds(CrossesEarthOrbit, obj) {
      ReachedMonotone(4.0, score as real, LevelThresholds);
      assert Reached(4.0, LevelThresholds) == 1;
      if Holds(NearEarth, obj) {
        ReachedMonotone(7.0, score as real, LevelThresholds);
        assert Reached(7.0, LevelThresholds) == 3;
      }
    }
  }

  /** The colour and the background each name the level. */
  lemma ColorsNameLevel(l1: Level, l2: Level)
    ensures Color(l1) == Color(l2) <==> l1 == l2
    ensures Background(l1) == Background(l2) <==> l1 == l2
  {
    if l1 != l2 {
      var c1, c2 := Color(l1), Color(l2);
      assert c1[1] != c2[1] || c1[3] != c2[3];
      var b1, b2 := Background(l1), Background(l2);
      assert b1[3] != b2[3];
    }
  }
}
