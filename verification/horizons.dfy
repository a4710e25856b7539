/** The JPL Horizons text-vector parser, the preset tables, and the bodies
    built from them. Numeric tokens are read with a `parseFloat` given as
    a parameter; the fetched state vector and its conversion to orbital
    elements are parameters too. */
module Horizons {
  import opened Common
  import opened Bodies

  // ---------------------------------------------------------------------
  // Lines

  /** `text.split('\n')` */
  function SplitLines(s: string): (ls: seq<string>)
    ensures |ls| >= 1
  {
    if s == [] then [""]
    else
      var rest := SplitLines(s[1..]);
      if s[0] == '\n' then [""] + rest
      else [[s[0]] + rest[0]] + rest[1..]
  }

  /** Joining the pieces gives the text back, and no piece holds a line
      break. */
  lemma {:induction false} JoinSplit(s: string)
    ensures JoinLines(SplitLines(s)) == s
    ensures forall i :: 0 <= i < |SplitLines(s)| ==> '\n' !in SplitLines(s)[i]
  {
    if s != [] {
      var rest := SplitLines(s[1..]);
      JoinSplit(s[1..]);
      assert s == [s[0]] + s[1..];
      if s[0] == '\n' {
        assert ([""] + rest)[1..] == rest;
      } else {
        var ls := [[s[0]] + rest[0]] + rest[1..];
        if |rest| > 1 {
          assert ls[1..] == rest[1..];
          assert JoinLines(rest) == rest[0] + "\n" + JoinLines(rest[1..]);
        }
        forall i | 0 <= i < |ls| ensures '\n' !in ls[i] {
          if i == 0 {
            assert '\n' !in rest[0];
          } else {
            assert ls[i] == rest[i];
          }
        }
      }
    }
  }

  /** `lines.join('\n')` */
  function JoinLines(ls: seq<string>): string
    requires |ls| >= 1
  {
    if |ls| == 1 then ls[0] else ls[0] + "\n" + JoinLines(ls[1..])
  }

  /** Splitting undoes joining lines that hold no line break. */
  lemma {:induction false} SplitJoin(ls: seq<string>)
    requires |ls| >= 1
    requires forall i :: 0 <= i < |ls| ==> '\n' !in ls[i]
    ensures SplitLines(JoinLines(ls)) == ls
  {
    if |ls| == 1 {
      SplitPlain(ls[0]);
    } else {
      SplitJoin(ls[1..]);
      SplitFirstLine(ls[0], JoinLines(ls[1..]));
      assert ls == [ls[0]] + ls[1..];
    }
  }

  lemma {:induction false} SplitPlain(w: string)
    requires '\n' !in w
    ensures SplitLines(w) == [w]
  {
    if w != [] {
      assert w == [w[0]] + w[1..];
      SplitPlain(w[1..]);
      assert [w[0]] + w[1..] == w;
    }
  }

  lemma {:induction false} SplitFirstLine(w: string, t: string)
    requires '\n' !in w
    ensures SplitLines(w + "\n" + t) == [w] + SplitLines(t)
  {
    var s := w + "\n" + t;
    if w == [] {
      assert s == "\n" + t && s[0] == '\n' && s[1..] == t;
    } else {
      assert w == [w[0]] + w[1..];
      SplitFirstLine(w[1..], t);
      assert s[0] == w[0];
      assert s[1..] == w[1..] + "\n" + t;
      assert [w[0]] + w[1..] == w;
    }
  }

  // ---------------------------------------------------------------------
  // The vector block

  predicate IsStart(line: string) {
    Contains(line, "$$SOE")
  }

  /** A line that ends the scan: the start marker is tested first, so a
      line holding both markers counts as a start. */
  predicate IsStop(line: string) {
    !IsStart(line) && Contains(line, "$$EOE")
  }

  /** A line that would yield a vector once the block has started: not a
      marker, and with at least six tokens (so not blank). The tokens are
      taken from the untrimmed line; `TokensOfTrimmedLine` shows that this
      is the source's test on the trimmed line. */
  predicate Candidate(line: string) {
    && !IsStart(line)
    && !Contains(line, "$$EOE")
    && |Words(line)| >= 6
  }

  /** `line.trim() && line.trim().split(/\s+/).length >= 6` holds exactly
      when the line has six tokens, and the tokens are the same. */
  lemma TokensOfTrimmedLine(line: string)
    ensures Words(Trim(line)) == Words(line)
    ensures (Trim(line) != [] && |Words(Trim(line))| >= 6) <==> |Words(line)| >= 6
  {
    WordsIgnoreTrim(line);
  }

  ghost predicate StartedBefore(lines: seq<string>, k: int) {
    exists j :: 0 <= j < k && j < |lines| && IsStart(lines[j])
  }

  /** Line `k` lies after a start marker, with no stop marker before it,
      and has enough tokens. */
  ghost predicate IsDataLine(lines: seq<string>, k: int) {
    && 0 <= k < |lines|
    && Candidate(lines[k])
    && StartedBefore(lines, k)
    && forall j :: 0 <= j < k ==> !IsStop(lines[j])
  }

  ghost predicate IsFirstDataLine(lines: seq<string>, k: int) {
    IsDataLine(lines, k) && forall j :: 0 <= j < k ==> !IsDataLine(lines, j)
  }

  /** Tokens 0-2 are the position, 3-5 the velocity; later ones are
      ignored. */
  function VectorOf(tokens: seq<string>, parse: string -> real): (v: StateVector)
    requires |tokens| >= 6
    ensures v == VectorOf(tokens[..6], parse)
  {
    StateVector(
      Position(parse(tokens[0]), parse(tokens[1]), parse(tokens[2])),
      Velocity(parse(tokens[3]), parse(tokens[4]), parse(tokens[5])))
  }

  /** What a scan of `lines` must return: `null` exactly when there is no
      data line, otherwise the vector on the first one. A text with no
      start marker has no data line. */
  ghost predicate Parses(lines: seq<string>, parse: string -> real, r: Option<StateVector>) {
    && (r.None? <==> forall k :: 0 <= k < |lines| ==> !IsDataLine(lines, k))
    && (r.Some? ==> exists k :: IsFirstDataLine(lines, k) && r.value == VectorOf(Words(lines[k]), parse))
  }

  /** The first line at or after `i` the scan stops on with a vector,
      given whether a start marker was seen before `i`: a start marker sets
      the flag, a stop marker ends the scan empty-handed, and a candidate
      line after a start marker is the answer. */
  function FirstDataFrom(lines: seq<string>, i: nat, started: bool): (k: Option<nat>)
    requires i <= |lines|
    ensures k.Some? ==> i <= k.value < |lines| && |Words(lines[k.value])| >= 6
    ensures !started && (forall j :: i <= j < |lines| ==> !IsStart(lines[j])) ==> k.None?
    decreases |lines| - i
  {
    if i == |lines| then None
    else if IsStart(lines[i]) then FirstDataFrom(lines, i + 1, true)
    else if Contains(lines[i], "$$EOE") then None
    else if started && Candidate(lines[i]) then Some(i)
    else FirstDataFrom(lines, i + 1, started)
  }

  /** The vector on the line the scan stops on, if any. */
  function ScanResult(lines: seq<string>, parse: string -> real): Option<StateVector> {
    match FirstDataFrom(lines, 0, false)
    case None => None
    case Some(k) => Some(VectorOf(Words(lines[k]), parse))
  }

  /** `parseHorizonsVectors` */
  method ParseHorizonsVectors(text: string, parse: string -> real) returns (r: Option<StateVector>)
    ensures r == ScanResult(SplitLines(text), parse)
    ensures (forall j :: 0 <= j < |SplitLines(text)| ==> !IsStart(SplitLines(text)[j])) ==> r.None?
  {
    var lines := SplitLines(text);
    r := ScanLines(lines, parse);
  }

  /** The loop of `parseHorizonsVectors` over the lines of the text. */
  method ScanLines(lines: seq<string>, parse: string -> real) returns (r: Option<StateVector>)
    ensures r == ScanResult(lines, parse)
  {
    var found := false;
    var i := 0;
    while i < |lines|
      invariant 0 <= i <= |lines|
      invariant FirstDataFrom(lines, i, found) == FirstDataFrom(lines, 0, false)
    {
      var line := lines[i];
      if IsStart(line) {
        assert FirstDataFrom(lines, i, found) == FirstDataFrom(lines, i + 1, true);
        found := true;
      } else if Contains(line, "$$EOE") {
        return None;
      } else if found && Candidate(line) {
        r := Some(VectorOf(Words(line), parse));
        return;
      } else {
        assert FirstDataFrom(lines, i, found) == FirstDataFrom(lines, i + 1, found);
      }
      i := i + 1;
    }
    return None;
  }

  /** The scan meets the declarative specification: it yields nothing
      exactly when no line is a data line, and otherwise the vector on the
      first data line. */
  lemma ScanResultParses(lines: seq<string>, parse: string -> real)
    ensures Parses(lines, parse, ScanResult(lines, parse))
  {
    ScanFromMeets(lines, 0, false);
  }

  /** Scanning from line `i`, with nothing found before it, finds the first
      data line of the whole text or shows there is none. */
  lemma {:induction false} ScanFromMeets(lines: seq<string>, i: nat, started: bool)
    requires i <= |lines| && NothingBefore(lines, i)
    requires started <==> StartedBefore(lines, i)
    ensures FirstDataFrom(lines, i, started).None? <==> forall k :: 0 <= k < |lines| ==> !IsDataLine(lines, k)
    ensures FirstDataFrom(lines, i, started).Some? ==> IsFirstDataLine(lines, FirstDataFrom(lines, i, started).value)
    decreases |lines| - i
  {
    if i < |lines| {
      if IsStart(lines[i]) || (!Contains(lines[i], "$$EOE") && !(started && Candidate(lines[i]))) {
        var next := started || IsStart(lines[i]);
        ScanPasses(lines, i, started);
        ScanFromMeets(lines, i + 1, next);
      } else {
        ScanStops(lines, i, started);
      }
    }
  }

  /** The scan moves past line `i` with nothing found so far. */
  lemma ScanPasses(lines: seq<string>, i: nat, started: bool)
    requires i < |lines| && NothingBefore(lines, i)
    requires started <==> StartedBefore(lines, i)
    requires IsStart(lines[i]) || (!Contains(lines[i], "$$EOE") && !(started && Candidate(lines[i])))
    ensures FirstDataFrom(lines, i, started) == FirstDataFrom(lines, i + 1, started || IsStart(lines[i]))
    ensures NothingBefore(lines, i + 1)
    ensures started || IsStart(lines[i]) <==> StartedBefore(lines, i + 1)
  {
    Advance(lines, i);
  }

  /** The scan ends at line `i`: on a stop marker with nothing, or on the
      first data line. */
  lemma ScanStops(lines: seq<string>, i: nat, started: bool)
    requires i < |lines| && NothingBefore(lines, i)
    requires started <==> StartedBefore(lines, i)
    requires !IsStart(lines[i]) && (Contains(lines[i], "$$EOE") || (started && Candidate(lines[i])))
    ensures FirstDataFrom(lines, i, started).None? <==> forall k :: 0 <= k < |lines| ==> !IsDataLine(lines, k)
    ensures FirstDataFrom(lines, i, started).Some? ==> IsFirstDataLine(lines, FirstDataFrom(lines, i, started).value)
  {
    if Contains(lines[i], "$$EOE") {
      StopHidesRest(lines, i);
    } else {
      FoundAt(lines, i);
    }
  }

  /** No stop marker and no data line among the first `i` lines. */
  ghost predicate NothingBefore(lines: seq<string>, i: int) {
    && (forall j :: 0 <= j < i && j < |lines| ==> !IsStop(lines[j]))
    && (forall k :: 0 <= k < i ==> !IsDataLine(lines, k))
  }

  /** Scanning past a line that neither stops the scan nor yields data. */
  lemma Advance(lines: seq<string>, i: int)
    requires 0 <= i < |lines| && NothingBefore(lines, i)
    requires !IsStop(lines[i])
    requires !(StartedBefore(lines, i) && Candidate(lines[i]))
    ensures NothingBefore(lines, i + 1)
    ensures StartedBefore(lines, i + 1) <==> StartedBefore(lines, i) || IsStart(lines[i])
  {
    StartedStep(lines, i);
    assert !IsDataLine(lines, i);
  }

  /** The scan returns at line `i`: it is the first data line. */
  lemma FoundAt(lines: seq<string>, i: int)
    requires 0 <= i < |lines| && NothingBefore(lines, i)
    requires StartedBefore(lines, i) && Candidate(lines[i])
    ensures IsFirstDataLine(lines, i)
    ensures !forall k :: 0 <= k < |lines| ==> !IsDataLine(lines, k)
    ensures !forall j :: 0 <= j < |lines| ==> !IsStart(lines[j])
  {
    assert IsDataLine(lines, i);
  }

  /** One more line scanned: the block has started by line `i + 1` when it
      had by line `i` or line `i` is a start marker. */
  lemma StartedStep(lines: seq<string>, i: int)
    requires 0 <= i < |lines|
    ensures StartedBefore(lines, i + 1) <==> StartedBefore(lines, i) || IsStart(lines[i])
  {
    if StartedBefore(lines, i + 1) && !IsStart(lines[i]) {
      var j :| 0 <= j < i + 1 && j < |lines| && IsStart(lines[j]);
      assert j < i;
    }
  }

  /** Once a stop marker is reached, no line is a data line. */
  lemma StopHidesRest(lines: seq<string>, i: int)
    requires 0 <= i < |lines| && IsStop(lines[i])
    requires NothingBefore(lines, i)
    ensures forall k :: 0 <= k < |lines| ==> !IsDataLine(lines, k)
  {
    forall k | i <= k < |lines| ensures !IsDataLine(lines, k) {
      if k > i {
        assert IsStop(lines[i]);
      } else {
        assert !Candidate(lines[k]);
      }
    }
  }

  /** A stop marker before any start marker hides every line. */
  lemma StopBeforeStart(lines: seq<string>, j: int)
    requires 0 <= j < |lines| && IsStop(lines[j])
    requires forall i :: 0 <= i < j ==> !IsStart(lines[i])
    ensures forall k :: 0 <= k < |lines| ==> !IsDataLine(lines, k)
  {
    forall k | 0 <= k < |lines| ensures !IsDataLine(lines, k) {
      if k <= j {
        assert !StartedBefore(lines, k);
      } else {
        assert IsStop(lines[j]);
      }
    }
  }

  // ---------------------------------------------------------------------
  // Preset tables

  datatype AsteroidKey = Apophis | Bennu | Eros | Ryugu | Vesta | Ceres | Halley | Oumuamua

  function AsteroidKeyName(k: AsteroidKey): string {
    match k
    case Apophis => "apophis"
    case Bennu => "bennu"
    case Eros => "eros"
    case Ryugu => "ryugu"
    case Vesta => "vesta"
    case Ceres => "ceres"
    case Halley => "halley"
    case Oumuamua => "oumuamua"
  }

  /** Which preset a string key names, if any. */
  function AsteroidKeyOf(s: string): (k: Option<AsteroidKey>)
    ensures k.Some? ==> AsteroidKeyName(k.value) == s
  {
    if s == "apophis" then Some(Apophis)
    else if s == "bennu" then Some(Bennu)
    else if s == "eros" then Some(Eros)
    else if s == "ryugu" then Some(Ryugu)
    else if s == "vesta" then Some(Vesta)
    else if s == "ceres" then Some(Ceres)
    else if s == "halley" then Some(Halley)
    else if s == "oumuamua" then Some(Oumuamua)
    else None
  }

  /** Every preset is found under its own name. */
  lemma AsteroidKeyRoundTrip(k: AsteroidKey)
    ensures AsteroidKeyOf(AsteroidKeyName(k)) == Some(k)
  {
  }

  datatype AsteroidPreset = AsteroidPreset(
    name: string,
    designation: string,
    description: string,
    composition: Composition,
    estimatedMass: real,
    estimatedRadius: real,
    color: string)

  function AsteroidPresetOf(k: AsteroidKey): AsteroidPreset {
    match k
    case Apophis => AsteroidPreset("99942 Apophis", "99942", "Near-Earth asteroid, close approach in 2029", Rocky, 61000000000.0, 0.185, "#FF6B35")
    case Bennu => AsteroidPreset("101955 Bennu", "101955", "Target of OSIRIS-REx mission", Carbonaceous, 78000000000.0, 0.245, "#2C3E50")
    case Eros => AsteroidPreset("433 Eros", "433", "First asteroid orbited by spacecraft", Rocky, 6687000000000000.0, 8.42, "#CD853F")
    case Ryugu => AsteroidPreset("162173 Ryugu", "162173", "Target of Hayabusa2 mission", Carbonaceous, 450000000000.0, 0.45, "#34495E")
    case Vesta => AsteroidPreset("4 Vesta", "4", "Second-largest asteroid, visited by Dawn", Rocky, 259000000000000000000.0, 262.7, "#95A5A6")
    case Ceres => AsteroidPreset("1 Ceres", "1", "Largest object in asteroid belt, dwarf planet", Icy, 938000000000000000000.0, 473.0, "#BDC3C7")
    case Halley => AsteroidPreset("1P/Halley", "1P", "Halley's Comet - famous periodic comet", Icy, 220000000000000.0, 5.5, "#3498DB")
    case Oumuamua => AsteroidPreset("1I/'Oumuamua", "1I", "First interstellar object detected", Rocky, 400000000.0, 0.115, "#E74C3C")
  }

  function Elements(a: real, e: real, i: real, node: real, peri: real): OrbitalElements {
    OrbitalElements(a, e, i, node, peri, 0.0, None, None)
  }

  /** The fallback table. */
  function ApproximateData(k: AsteroidKey): OrbitalElements {
    match k
    case Apophis => Elements(0.922, 0.191, 3.3, 204.4, 126.4)
    case Bennu => Elements(1.126, 0.204, 6.0, 2.0, 66.2)
    case Eros => Elements(1.458, 0.223, 10.8, 304.3, 178.8)
    case Ryugu => Elements(1.190, 0.190, 5.9, 251.6, 211.4)
    case Vesta => Elements(2.362, 0.089, 7.1, 103.8, 151.2)
    case Ceres => Elements(2.769, 0.076, 10.6, 80.3, 73.6)
    case Halley => Elements(17.8, 0.967, 162.3, 58.4, 111.3)
    case Oumuamua => Elements(-1.3, 1.2, 122.7, 24.6, 241.8)
  }

  /** `getApproximateOrbitalElements`: the table entry for the key, or the
      apophis entry for a key the table lacks. Every entry starts at mean
      anomaly 0. */
  function GetApproximateOrbitalElements(key: string): (e: OrbitalElements)
    ensures e.meanAnomaly == 0.0 && e.period.None? && e.velocity.None?
    ensures AsteroidKeyOf(key).None? ==> e == ApproximateData(Apophis)
    ensures forall k :: AsteroidKeyName(k) == key ==> e == ApproximateData(k)
  {
    match AsteroidKeyOf(key)
    case Some(k) => ApproximateData(k)
    case None => ApproximateData(Apophis)
  }

  /** `fetchRealAsteroid` after the fetch: `fetched` is what the Horizons
      request produced and `convert` is `stateVectorsToOrbitalElements`. */
  function FetchRealAsteroid(key: string, fetched: Option<StateVector>, convert: StateVector -> OrbitalElements): (r: Option<CelestialBody>)
    ensures r.None? <==> AsteroidKeyOf(key).None?
    ensures r.Some? ==>
      && r.value.id == "asteroid-" + key
      && r.value.kind == Asteroid
      && r.value.nasaState == fetched
      && (fetched.None? ==> r.value.orbitalElements == GetApproximateOrbitalElements(key))
      && (fetched.Some? ==> r.value.orbitalElements == convert(fetched.value))
    ensures forall k :: AsteroidKeyName(k) == key ==>
      && r.Some?
      && r.value.name == AsteroidPresetOf(k).name
      && r.value.radius == AsteroidPresetOf(k).estimatedRadius
      && r.value.mass == AsteroidPresetOf(k).estimatedMass
      && r.value.color == AsteroidPresetOf(k).color
      && r.value.composition == Some(AsteroidPresetOf(k).composition)
  {
    match AsteroidKeyOf(key)
    case None => None
    case Some(k) =>
      var preset := AsteroidPresetOf(k);
      var elements := match fetched case Some(v) => convert(v) case None => GetApproximateOrbitalElements(key);
      Some(CelestialBody("asteroid-" + key, preset.name, Asteroid, preset.estimatedRadius, preset.estimatedMass,
                         preset.color, elements, fetched, Some(preset.composition)))
  }

  datatype CustomKey = HalleysComet | Pluto | TheCollider

  function CustomKeyName(k: CustomKey): string {
    match k
    case HalleysComet => "halleys-comet"
    case Pluto => "pluto"
    case TheCollider => "the-collider"
  }

  datatype CustomPreset = CustomPreset(
    name: string,
    semiMajorAxis: real,
    eccentricity: real,
    inclination: real,
    argumentOfPerihelion: real,
    longitudeOfAscendingNode: real,
    mass: real,
    radius: real,
    composition: Composition,
    kind: BodyType)

  function CustomPresetOf(k: CustomKey): CustomPreset {
    match k
    case HalleysComet => CustomPreset("Halley's Comet", 17.8, 0.967, 162.3, 111.3, 58.4, 220000000000000.0, 5.5, Icy, Comet)
    case Pluto => CustomPreset("Pluto", 39.48, 0.249, 17.2, 113.8, 110.3, 13030000000000000000000.0, 1188.3, Icy, DwarfPlanet)
    case TheCollider => CustomPreset("The Collider (Fictional)", 1.0, 0.8, 15.0, 90.0, 0.0, 1000000000000000.0, 10.0, Rocky, Asteroid)
  }

  /** `createCustomBody`; a missing mean anomaly defaults to 0. */
  function CreateCustomBody(k: CustomKey, meanAnomaly: Option<real>): (b: CelestialBody)
    ensures b.id == "custom-" + CustomKeyName(k) && b.color == "#FF6B35"
    ensures b.orbitalElements.meanAnomaly == if meanAnomaly.Some? then meanAnomaly.value else 0.0
    ensures b.name == CustomPresetOf(k).name && b.kind == CustomPresetOf(k).kind
    ensures b.radius == CustomPresetOf(k).radius && b.mass == CustomPresetOf(k).mass
    ensures b.composition == Some(CustomPresetOf(k).composition) && b.nasaState.None?
    ensures b.orbitalElements.(meanAnomaly := 0.0) == Elements(
      CustomPresetOf(k).semiMajorAxis, CustomPresetOf(k).eccentricity, CustomPresetOf(k).inclination,
      CustomPresetOf(k).longitudeOfAscendingNode, CustomPresetOf(k).argumentOfPerihelion)
  {
    var p := CustomPresetOf(k);
    var m := match meanAnomaly case Some(x) => x case None => 0.0;
    CelestialBody("custom-" + CustomKeyName(k), p.name, p.kind, p.radius, p.mass, "#FF6B35",
                  OrbitalElements(p.semiMajorAxis, p.eccentricity, p.inclination, p.longitudeOfAscendingNode,
                                  p.argumentOfPerihelion, m, None, None),
                  None, Some(p.composition))
  }

  /** The custom Halley preset and the fallback table agree on Halley's
      orbit. */
  lemma HalleyTablesAgree()
    ensures CreateCustomBody(HalleysComet, None).orbitalElements == GetApproximateOrbitalElements("halley")
  {
  }

  /** Distinct custom presets give distinct body ids. */
  lemma CustomBodyIdsDistinct(k1: CustomKey, k2: CustomKey, m1: Option<real>, m2: Option<real>)
    requires k1 != k2
    ensures CreateCustomBody(k1, m1).id != CreateCustomBody(k2, m2).id
  {
    var n1 := CustomKeyName(k1);
    var n2 := CustomKeyName(k2);
    assert ("custom-" + n1)[7..] == n1;
    assert ("custom-" + n2)[7..] == n2;
  }
}
