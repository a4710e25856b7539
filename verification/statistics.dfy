/** `GET /api/stats`: totals, two distributions built with the
    `counts[k] = counts.get(k, 0) + 1` idiom, and the document's creation
    time. */
module Statistics {
  import opened Common
  import opened Json
  import opened Store

  /** A Python dict from keys to counts, as its items in insertion order. */
  type Counts = seq<(Value, nat)>

  function TallyKeys(t: Counts): (ks: seq<Value>)
    ensures |ks| == |t| && forall i :: 0 <= i < |t| ==> ks[i] == t[i].0
  {
    seq(|t|, i requires 0 <= i < |t| => t[i].0)
  }

  /** `counts.get(k, 0)` */
  function Count(t: Counts, k: Value): nat {
    if t == [] then 0
    else if t[0].0 == k then t[0].1
    else Count(t[1..], k)
  }

  /** The sum of all counts. */
  function Total(t: Counts): nat {
    if t == [] then 0 else t[0].1 + Total(t[1..])
  }

  /** `counts[k] = counts.get(k, 0) + 1` */
  function Bump(t: Counts, k: Value): Counts {
    if t == [] then [(k, 1)]
    else if t[0].0 == k then [(k, t[0].1 + 1)] + t[1..]
    else [t[0]] + Bump(t[1..], k)
  }

  /** Bumping adds one to the bumped key's count and leaves every other
      count alone. */
  lemma {:induction false} BumpCount(t: Counts, k: Value, other: Value)
    ensures Count(Bump(t, k), other) == Count(t, other) + (if other == k then 1 else 0)
  {
    if t != [] && t[0].0 != k {
      BumpCount(t[1..], k, other);
      assert Bump(t, k)[1..] == Bump(t[1..], k);
    }
  }

  lemma {:induction false} BumpTotal(t: Counts, k: Value)
    ensures Total(Bump(t, k)) == Total(t) + 1
  {
    if t != [] && t[0].0 != k {
      BumpTotal(t[1..], k);
      assert Bump(t, k)[1..] == Bump(t[1..], k);
    } else if t != [] {
      assert Bump(t, k)[1..] == t[1..];
    }
  }

  /** An existing key keeps its place; a new key goes last. */
  lemma {:induction false} BumpKeys(t: Counts, k: Value)
    ensures TallyKeys(Bump(t, k)) == if k in TallyKeys(t) then TallyKeys(t) else TallyKeys(t) + [k]
  {
    if t != [] {
      assert TallyKeys(t) == [t[0].0] + TallyKeys(t[1..]);
      if t[0].0 != k {
        BumpKeys(t[1..], k);
        assert TallyKeys(Bump(t, k)) == [t[0].0] + TallyKeys(Bump(t[1..], k));
      }
    }
  }

  /** The loop over all keys, in order. */
  function CountAll(keys: seq<Value>): (t: Counts)
  {
    if keys == [] then [] else Bump(CountAll(keys[..|keys| - 1]), keys[|keys| - 1])
  }

  /** The distribution counts every key exactly as often as it occurs. */
  lemma {:induction false} TallyCounts(keys: seq<Value>, k: Value)
    ensures Count(CountAll(keys), k) == multiset(keys)[k]
  {
    if keys != [] {
      var n := |keys| - 1;
      TallyCounts(keys[..n], k);
      BumpCount(CountAll(keys[..n]), keys[n], k);
      assert keys == keys[..n] + [keys[n]];
      assert multiset(keys) == multiset(keys[..n]) + multiset{keys[n]};
    }
  }

  /** The counts of a distribution add up to the number of keys. */
  lemma {:induction false} TallyTotal(keys: seq<Value>)
    ensures Total(CountAll(keys)) == |keys|
  {
    if keys != [] {
      TallyTotal(keys[..|keys| - 1]);
      BumpTotal(CountAll(keys[..|keys| - 1]), keys[|keys| - 1]);
    }
  }

  /** Each key appears once, and exactly the keys that occur appear. */
  lemma {:induction false} TallyKeySet(keys: seq<Value>)
    ensures forall i, j :: 0 <= i < j < |CountAll(keys)| ==> CountAll(keys)[i].0 != CountAll(keys)[j].0
    ensures forall k :: k in TallyKeys(CountAll(keys)) <==> k in keys
  {
    if keys != [] {
      var n := |keys| - 1;
      var t := CountAll(keys[..n]);
      TallyKeySet(keys[..n]);
      assert keys == keys[..n] + [keys[n]];
      var r := Bump(t, keys[n]);
      BumpKeys(t, keys[n]);
      assert TallyKeys(r) == if keys[n] in TallyKeys(t) then TallyKeys(t) else TallyKeys(t) + [keys[n]];
      forall i, j | 0 <= i < j < |r| ensures r[i].0 != r[j].0 {
        assert TallyKeys(r)[i] == r[i].0 && TallyKeys(r)[j] == r[j].0;
        if keys[n] !in TallyKeys(t) && j == |t| {
          assert TallyKeys(t)[i] == r[i].0;
        } else {
          assert TallyKeys(t)[i] == r[i].0 && TallyKeys(t)[j] == r[j].0;
        }
      }
    }
  }

  /** The key each record contributes, or the exception computing it
      raises. */
  function TypeKey(a: Record): (r: Result<Value, Fault>)
    ensures r.Ok? <==> "type" in a && Hashable(a["type"])
    ensures r.Ok? ==> r.value == a["type"]
    ensures "type" !in a ==> r == Err(KeyError("type"))
  {
    if "type" !in a then Err(KeyError("type"))
    else if !Hashable(a["type"]) then Err(TypeError)
    else Ok(a["type"])
  }

  function CompositionKey(a: Record): (r: Result<Value, Fault>)
    ensures r.Ok? <==> Hashable(GetOr(a, "composition", Str("unknown")))
    ensures r.Ok? && "composition" !in a ==> r.value == Str("unknown")
    ensures r.Ok? && "composition" in a ==> r.value == a["composition"]
  {
    var c := GetOr(a, "composition", Str("unknown"));
    if Hashable(c) then Ok(c) else Err(TypeError)
  }

  /** The keys of all records in order; the first record whose key cannot
      be computed stops the loop. */
  function Collect(recs: seq<Record>, key: Record -> Result<Value, Fault>): (r: Result<seq<Value>, Fault>)
    ensures r.Ok? <==> forall i :: 0 <= i < |recs| ==> key(recs[i]).Ok?
    ensures r.Ok? ==> |r.value| == |recs| && forall i :: 0 <= i < |recs| ==> r.value[i] == key(recs[i]).value
    ensures r.Err? ==> exists i :: 0 <= i < |recs| && key(recs[i]) == Err(r.error)
                                   && forall j :: 0 <= j < i ==> key(recs[j]).Ok?
  {
    if recs == [] then Ok([])
    else
      match key(recs[0])
      case Err(e) => Err(e)
      case Ok(k) =>
        match Collect(recs[1..], key)
        case Err(e) =>
          var i :| 0 <= i < |recs| - 1 && key(recs[1..][i]) == Err(e)
            && forall j :: 0 <= j < i ==> key(recs[1..][j]).Ok?;
          assert forall j :: 0 <= j < i + 1 ==> key(recs[j]).Ok? by {
            forall j | 0 <= j < i + 1 ensures key(recs[j]).Ok? {
              if j > 0 { assert recs[j] == recs[1..][j - 1]; }
            }
          }
          assert key(recs[i + 1]) == Err(e);
          Err(e)
        case Ok(ks) =>
          assert forall i :: 1 <= i < |recs| ==> key(recs[i]).Ok? by {
            forall i | 1 <= i < |recs| ensures key(recs[i]).Ok? {
              assert recs[i] == recs[1..][i - 1];
            }
          }
          Ok([k] + ks)
  }

  /** `db.get('metadata', {}).get('created', 'unknown')`: a metadata
      value that is present but not a dict has no `get`. */
  function LastUpdate(metadata: Option<Value>): (r: Result<Value, Fault>)
    ensures metadata.None? ==> r == Ok(Str("unknown"))
    ensures metadata.Some? && metadata.value.Obj? ==>
      r == Ok(if "created" in metadata.value.fields then metadata.value.fields["created"] else Str("unknown"))
    ensures r.Err? <==> metadata.Some? && !metadata.value.Obj?
    ensures r.Err? ==> r.error == AttributeError
  {
    match metadata
    case None => Ok(Str("unknown"))
    case Some(m) =>
      if m.Obj? then Ok(GetOr(m.fields, "created", Str("unknown"))) else Err(AttributeError)
  }

  /** Python's `a < b` between two dict keys does not raise: numbers and
      bools compare with each other and strings with strings; `None`
      compares with nothing. */
  predicate Comparable(a: Value, b: Value) {
    || ((a.Num? || a.Bool?) && (b.Num? || b.Bool?))
    || (a.Str? && b.Str?)
  }

  /** `jsonify` sorts the items of every dict it renders (Flask's default
      `sort_keys`). A comparison sort that succeeds has compared every
      two neighbours of its output, so the sort raises `TypeError`
      exactly when two keys of the dict do not compare. */
  predicate KeysSort(t: Counts) {
    forall i, j :: 0 <= i < j < |t| ==> Comparable(t[i].0, t[j].0)
  }

  /** Any two different keys in the list compare. */
  ghost predicate PairwiseComparable(keys: seq<Value>) {
    forall i, j :: 0 <= i < |keys| && 0 <= j < |keys| && keys[i] != keys[j] ==> Comparable(keys[i], keys[j])
  }

  /** The distribution of a key list can be sorted exactly when any two
      different keys in the list compare. */
  lemma TallySorts(keys: seq<Value>)
    ensures KeysSort(CountAll(keys)) <==> PairwiseComparable(keys)
  {
    var t := CountAll(keys);
    TallyKeySet(keys);
    if KeysSort(t) {
      forall i, j | 0 <= i < |keys| && 0 <= j < |keys| && keys[i] != keys[j]
        ensures Comparable(keys[i], keys[j])
      {
        assert keys[i] in TallyKeys(t) && keys[j] in TallyKeys(t);
        var p :| 0 <= p < |t| && TallyKeys(t)[p] == keys[i];
        var q :| 0 <= q < |t| && TallyKeys(t)[q] == keys[j];
        if p < q {
          assert Comparable(t[p].0, t[q].0);
        } else {
          assert Comparable(t[q].0, t[p].0);
        }
      }
    }
    if PairwiseComparable(keys) {
      forall p, q | 0 <= p < q < |t| ensures Comparable(t[p].0, t[q].0) {
        assert TallyKeys(t)[p] == t[p].0 && TallyKeys(t)[q] == t[q].0;
        assert t[p].0 in keys && t[q].0 in keys;
        var i :| 0 <= i < |keys| && keys[i] == t[p].0;
        var j :| 0 <= j < |keys| && keys[j] == t[q].0;
        assert keys[i] != keys[j];
      }
    }
  }

  datatype Stats = Stats(
    totalAsteroids: nat,
    totalSimulations: nat,
    typeDistribution: Counts,
    compositionDistribution: Counts,
    databaseSize: nat,
    lastUpdate: Value)

  /** The handler's data, or the exception it answers with 500. The file
      size is read from the file system and is a parameter here. */
  function GetStatistics(doc: Document, databaseSize: nat): (r: Result<Stats, Fault>)
    ensures r.Ok? <==>
      && (forall i :: 0 <= i < |doc.asteroids| ==> TypeKey(doc.asteroids[i]).Ok?)
      && (forall i :: 0 <= i < |doc.asteroids| ==> CompositionKey(doc.asteroids[i]).Ok?)
      && LastUpdate(doc.metadata).Ok?
      && PairwiseComparable(Collect(doc.asteroids, TypeKey).value)
      && PairwiseComparable(Collect(doc.asteroids, CompositionKey).value)
    ensures r.Ok? ==>
      && r.value.totalAsteroids == |doc.asteroids|
      && r.value.totalSimulations == (if doc.simulations.Some? then |doc.simulations.value| else 0)
      && r.value.databaseSize == databaseSize
      && r.value.lastUpdate == LastUpdate(doc.metadata).value
    ensures r.Ok? ==> forall k ::
      Count(r.value.typeDistribution, k) == multiset(Collect(doc.asteroids, TypeKey).value)[k]
    ensures r.Ok? ==> forall k ::
      Count(r.value.compositionDistribution, k) == multiset(Collect(doc.asteroids, CompositionKey).value)[k]
    ensures r.Ok? ==> Total(r.value.typeDistribution) == |doc.asteroids|
    ensures r.Ok? ==> Total(r.value.compositionDistribution) == |doc.asteroids|
    ensures r.Err? && Collect(doc.asteroids, TypeKey).Err? ==> r.error == Collect(doc.asteroids, TypeKey).error
    ensures r.Err? && LastUpdate(doc.metadata).Ok? &&
      (forall i :: 0 <= i < |doc.asteroids| ==> TypeKey(doc.asteroids[i]).Ok? && CompositionKey(doc.asteroids[i]).Ok?)
      ==> r.error == TypeError
  {
    match Collect(doc.asteroids, TypeKey)
    case Err(e) => Err(e)
    case Ok(types) =>
      match Collect(doc.asteroids, CompositionKey)
      case Err(e) => Err(e)
      case Ok(comps) =>
        match LastUpdate(doc.metadata)
        case Err(e) => Err(e)
        case Ok(last) =>
          TallySorts(types);
          TallySorts(comps);
          // `jsonify` renders `compositionDistribution` before `typeDistribution`
          if !KeysSort(CountAll(comps)) || !KeysSort(CountAll(types)) then Err(TypeError)
          else
            TallyTotal(types);
            TallyTotal(comps);
            forall k ensures Count(CountAll(types), k) == multiset(types)[k] {
              TallyCounts(types, k);
            }
            forall k ensures Count(CountAll(comps), k) == multiset(comps)[k] {
              TallyCounts(comps, k);
            }
            var sims := match doc.simulations case Some(s) => |s| case None => 0;
            Ok(Stats(|doc.asteroids|, sims, CountAll(types), CountAll(comps), databaseSize, last))
  }

  /** The number of records of a given type is the count the type
      distribution reports for it. */
  lemma TypeCountIsNumberOfRecords(doc: Document, databaseSize: nat, kind: Value)
    requires GetStatistics(doc, databaseSize).Ok?
    ensures Count(GetStatistics(doc, databaseSize).value.typeDistribution, kind)
      == |set i | 0 <= i < |doc.asteroids| && doc.asteroids[i]["type"] == kind|
  {
    var types := Collect(doc.asteroids, TypeKey).value;
    MultiplicityIsIndexCount(types, kind);
    assert (set i | 0 <= i < |types| && types[i] == kind) == (set i | 0 <= i < |doc.asteroids| && doc.asteroids[i]["type"] == kind);
  }

  /** The number of records with a given composition, a record without
      one counting as `'unknown'`, is the count the composition
      distribution reports for it. */
  lemma CompositionCountIsNumberOfRecords(doc: Document, databaseSize: nat, kind: Value)
    requires GetStatistics(doc, databaseSize).Ok?
    ensures Count(GetStatistics(doc, databaseSize).value.compositionDistribution, kind)
      == |set i | 0 <= i < |doc.asteroids| && GetOr(doc.asteroids[i], "composition", Str("unknown")) == kind|
  {
    var comps := Collect(doc.asteroids, CompositionKey).value;
    MultiplicityIsIndexCount(comps, kind);
    assert (set i | 0 <= i < |comps| && comps[i] == kind)
      == (set i | 0 <= i < |doc.asteroids| && GetOr(doc.asteroids[i], "composition", Str("unknown")) == kind);
  }

  /** Records lacking a composition are counted under `'unknown'`,
      together with those whose composition is the string `'unknown'`. */
  lemma UnknownCompositionCount(doc: Document, databaseSize: nat)
    requires GetStatistics(doc, databaseSize).Ok?
    ensures Count(GetStatistics(doc, databaseSize).value.compositionDistribution, Str("unknown"))
      == |set i | 0 <= i < |doc.asteroids| &&
                  ("composition" !in doc.asteroids[i] || doc.asteroids[i]["composition"] == Str("unknown"))|
  {
    CompositionCountIsNumberOfRecords(doc, databaseSize, Str("unknown"));
    assert (set i | 0 <= i < |doc.asteroids| && GetOr(doc.asteroids[i], "composition", Str("unknown")) == Str("unknown"))
      == (set i | 0 <= i < |doc.asteroids| &&
                  ("composition" !in doc.asteroids[i] || doc.asteroids[i]["composition"] == Str("unknown")));
  }

  lemma {:induction false} MultiplicityIsIndexCount(s: seq<Value>, x: Value)
    ensures multiset(s)[x] == |set i | 0 <= i < |s| && s[i] == x|
  {
    if s != [] {
      var n := |s| - 1;
      MultiplicityIsIndexCount(s[..n], x);
      assert s == s[..n] + [s[n]];
      assert multiset(s) == multiset(s[..n]) + multiset{s[n]};
      var before := set i | 0 <= i < n && s[..n][i] == x;
      var all := set i | 0 <= i < |s| && s[i] == x;
      assert before == set i | 0 <= i < n && s[i] == x;
      if s[n] == x {
        assert all == before + {n};
      } else {
        assert all == before;
      }
    }
  }

  /** A record whose composition is `null` beside one whose composition is
      a string, or that has none and so counts as `'unknown'`, makes the
      handler answer 500: `None < 'rocky'` raises while the keys are
      sorted. */
  lemma NullBesideStringComposition(doc: Document, databaseSize: nat, i: nat, j: nat)
    requires i < |doc.asteroids| && j < |doc.asteroids|
    requires "composition" in doc.asteroids[i] && doc.asteroids[i]["composition"] == Null
    requires GetOr(doc.asteroids[j], "composition", Str("unknown")).Str?
    ensures GetStatistics(doc, databaseSize).Err?
  {
    var c := Collect(doc.asteroids, CompositionKey);
    if c.Ok? {
      assert c.value[i] == Null && c.value[j].Str?;
      assert !PairwiseComparable(c.value);
    }
  }

  /** A fresh database reports no asteroids, no simulations and its own
      creation time. */
  lemma FreshStatistics(clock: Clock, databaseSize: nat)
    ensures GetStatistics(InitDb(None, clock), databaseSize)
      == Ok(Stats(0, 0, [], [], databaseSize, Str(clock.iso)))
  {
  }
}
