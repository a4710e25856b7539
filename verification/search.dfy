/** `POST /api/asteroids/search`: the criteria present select filters,
    applied one after another to the stored list, so they compose as a
    conjunction and keep the stored order. */
module Search {
  import opened Common
  import opened Json
  import opened Store

  /** One filter, with its operand already taken from the criteria. */
  datatype Criterion =
    | NameLike(query: string)   // the lower-cased `criteria['name']`
    | TypeIs(kind: Value)
    | CompositionIs(composition: Value)
    | MinDistance(bound: Value)
    | MaxDistance(bound: Value)

  /** `a['orbitalElements']['semiMajorAxis']` */
  function SemiMajorAxis(a: Record): (r: Result<Value, Fault>)
    ensures "orbitalElements" !in a ==> r == Err(KeyError("orbitalElements"))
    ensures r.Ok? <==> "orbitalElements" in a && a["orbitalElements"].Obj? && "semiMajorAxis" in a["orbitalElements"].fields
  {
    if "orbitalElements" in a then Subscript(a["orbitalElements"], "semiMajorAxis")
    else Err(KeyError("orbitalElements"))
  }

  /** One filter's condition on one record; a raised exception aborts the
      whole search. */
  function Test(c: Criterion, a: Record): Result<bool, Fault> {
    match c
    case NameLike(q) =>
      if "name" !in a then Err(KeyError("name"))
      else if !a["name"].Str? then Err(AttributeError)
      else Ok(Contains(Lower(a["name"].s), q))
    case TypeIs(v) =>
      if "type" !in a then Err(KeyError("type")) else Ok(a["type"] == v)
    case CompositionIs(v) =>
      Ok(GetOr(a, "composition", Null) == v)
    case MinDistance(v) =>
      (match SemiMajorAxis(a)
       case Err(f) => Err(f)
       case Ok(x) => AtLeast(x, v))
    case MaxDistance(v) =>
      (match SemiMajorAxis(a)
       case Err(f) => Err(f)
       case Ok(x) => AtMost(x, v))
  }

  /** The filters present in `criteria`, in the order the handler applies
      them. `criteria['name'].lower()` is evaluated first, before any
      record is looked at. */
  function Plan(criteria: Object): (r: Result<seq<Criterion>, Fault>)
    ensures r.Err? <==> "name" in criteria && !criteria["name"].Str?
    ensures r.Err? ==> r.error == AttributeError
    ensures r.Ok? ==> |r.value| <= 5
    ensures criteria.Keys !! {"name", "type", "composition", "minDistance", "maxDistance"} ==> r == Ok([])
  {
    if "name" in criteria && !criteria["name"].Str? then Err(AttributeError)
    else
      Ok((if "name" in criteria then [NameLike(Lower(criteria["name"].s))] else [])
        + (if "type" in criteria then [TypeIs(criteria["type"])] else [])
        + (if "composition" in criteria then [CompositionIs(criteria["composition"])] else [])
        + (if "minDistance" in criteria then [MinDistance(criteria["minDistance"])] else [])
        + (if "maxDistance" in criteria then [MaxDistance(criteria["maxDistance"])] else []))
  }

  /** A record passes every filter of the plan. */
  predicate Matches(plan: seq<Criterion>, a: Record) {
    forall i :: 0 <= i < |plan| ==> Test(plan[i], a) == Ok(true)
  }

  /** The records that pass every filter, in stored order. */
  function Select(plan: seq<Criterion>, recs: seq<Record>): (s: seq<Record>)
    ensures |s| <= |recs|
  {
    if recs == [] then []
    else (if Matches(plan, recs[0]) then [recs[0]] else []) + Select(plan, recs[1..])
  }

  /** `[a for a in results if <test>]` */
  function FilterBy(c: Criterion, recs: seq<Record>): (r: Result<seq<Record>, Fault>)
    ensures r.Ok? <==> forall j :: 0 <= j < |recs| ==> Test(c, recs[j]).Ok?
    ensures r.Ok? ==> r.value == Select([c], recs)
  {
    if recs == [] then Ok([])
    else match Test(c, recs[0])
      case Err(f) => Err(f)
      case Ok(keep) =>
        match FilterBy(c, recs[1..])
        case Err(f) =>
          var j :| 0 <= j < |recs| - 1 && !Test(c, recs[1..][j]).Ok?;
          assert recs[j + 1] == recs[1..][j];
          Err(f)
        case Ok(rest) =>
          assert forall j :: 0 <= j < |recs| ==> Test(c, recs[j]).Ok? by {
            forall j | 0 <= j < |recs| ensures Test(c, recs[j]).Ok? {
              if j > 0 { assert recs[j] == recs[1..][j - 1]; }
            }
          }
          MatchesSingleton(c, recs[0]);
          Ok((if keep then [recs[0]] else []) + rest)
  }

  /** Filtering by the head of a plan and then by its tail selects what
      the whole plan selects. */
  lemma {:induction false} SelectSplit(plan: seq<Criterion>, recs: seq<Record>)
    requires plan != []
    ensures Select(plan[1..], Select([plan[0]], recs)) == Select(plan, recs)
  {
    if recs != [] {
      SelectSplit(plan, recs[1..]);
      var a := recs[0];
      assert Matches(plan, a) <==> Matches([plan[0]], a) && Matches(plan[1..], a) by {
        if Matches([plan[0]], a) && Matches(plan[1..], a) {
          forall i | 0 <= i < |plan| ensures Test(plan[i], a) == Ok(true) {
            if i == 0 { assert [plan[0]][0] == plan[0]; } else { assert plan[1..][i - 1] == plan[i]; }
          }
        }
        if Matches(plan, a) {
          assert forall i :: 0 <= i < |plan| - 1 ==> plan[1..][i] == plan[i + 1];
        }
      }
      if Matches([plan[0]], a) {
        assert Select([plan[0]], recs) == [a] + Select([plan[0]], recs[1..]);
        assert Select([plan[0]], recs)[1..] == Select([plan[0]], recs[1..]);
      } else {
        assert Select([plan[0]], recs) == Select([plan[0]], recs[1..]);
      }
    }
  }

  /** Every filter can be evaluated on every record that reaches it: the
      records that passed the filters before it. */
  ghost predicate Runs(plan: seq<Criterion>, recs: seq<Record>) {
    forall k, a :: 0 <= k < |plan| && a in Select(plan[..k], recs) ==> Test(plan[k], a).Ok?
  }

  /** Applies the filters in order, each to the survivors of the ones
      before it. It raises exactly when some filter raises on a record
      that reaches it. */
  function Apply(plan: seq<Criterion>, recs: seq<Record>): (r: Result<seq<Record>, Fault>)
    ensures r.Ok? <==> Runs(plan, recs)
    ensures r.Ok? ==> r.value == Select(plan, recs)
    decreases |plan|
  {
    if plan == [] then
      SelectAll(recs);
      Ok(recs)
    else
      match FilterBy(plan[0], recs)
      case Err(f) =>
        SelectAll(recs);
        assert plan[..0] == [];
        assert !Runs(plan, recs) by {
          var j :| 0 <= j < |recs| && !Test(plan[0], recs[j]).Ok?;
          assert recs[j] in Select(plan[..0], recs);
        }
        Err(f)
      case Ok(kept) =>
        SelectSplit(plan, recs);
        RunsStep(plan, recs);
        Apply(plan[1..], kept)
  }

  /** Running a plan is running its first filter on every record and then
      the rest of the plan on the survivors. */
  lemma RunsStep(plan: seq<Criterion>, recs: seq<Record>)
    requires plan != []
    requires forall j :: 0 <= j < |recs| ==> Test(plan[0], recs[j]).Ok?
    ensures Runs(plan, recs) <==> Runs(plan[1..], Select([plan[0]], recs))
  {
    var kept := Select([plan[0]], recs);
    forall k | 0 <= k < |plan| - 1
      ensures Select(plan[1..][..k], kept) == Select(plan[..k + 1], recs)
    {
      var p := plan[..k + 1];
      SelectSplit(p, recs);
      assert p[0] == plan[0] && p[1..] == plan[1..][..k];
    }
    SelectAll(recs);
    assert plan[..0] == [];
    if Runs(plan[1..], kept) {
      forall k, a | 0 <= k < |plan| && a in Select(plan[..k], recs) ensures Test(plan[k], a).Ok? {
        if k == 0 {
          var j :| 0 <= j < |recs| && recs[j] == a;
        } else {
          assert Select(plan[1..][..k - 1], kept) == Select(plan[..k], recs);
          assert plan[1..][k - 1] == plan[k];
        }
      }
    }
    if Runs(plan, recs) {
      forall k, a | 0 <= k < |plan| - 1 && a in Select(plan[1..][..k], kept)
        ensures Test(plan[1..][k], a).Ok?
      {
        assert Select(plan[1..][..k], kept) == Select(plan[..k + 1], recs);
        assert plan[1..][k] == plan[k + 1];
      }
    }
  }

  /** A plan whose filters can all be evaluated on every stored record
      runs to the end. */
  lemma RunsWhenEveryTestRuns(plan: seq<Criterion>, recs: seq<Record>)
    requires forall i, j :: 0 <= i < |plan| && 0 <= j < |recs| ==> Test(plan[i], recs[j]).Ok?
    ensures Apply(plan, recs).Ok?
  {
    forall k, a | 0 <= k < |plan| && a in Select(plan[..k], recs) ensures Test(plan[k], a).Ok? {
      SelectMembers(plan[..k], recs);
      var j :| 0 <= j < |recs| && recs[j] == a;
    }
  }

  lemma {:induction false} SelectAll(recs: seq<Record>)
    ensures Select([], recs) == recs
  {
    if recs != [] {
      SelectAll(recs[1..]);
    }
  }

  /** `Select` keeps the stored order: its result is a subsequence. */
  lemma {:induction false} SelectIsSubsequence(plan: seq<Criterion>, recs: seq<Record>)
    ensures Subsequence(Select(plan, recs), recs)
  {
    if recs != [] {
      SelectIsSubsequence(plan, recs[1..]);
      var s := Select(plan, recs);
      if Matches(plan, recs[0]) {
        assert s[0] == recs[0] && s[1..] == Select(plan, recs[1..]);
      } else {
        assert s == Select(plan, recs[1..]);
        SubsequenceSkip(s, recs);
      }
    }
  }

  /** `Select` keeps exactly the matching records. */
  lemma {:induction false} SelectMembers(plan: seq<Criterion>, recs: seq<Record>)
    ensures forall a :: a in Select(plan, recs) <==> a in recs && Matches(plan, a)
  {
    if recs != [] {
      SelectMembers(plan, recs[1..]);
      assert recs == [recs[0]] + recs[1..];
    }
  }

  /** The criteria stated directly on one record: every filter that is
      present holds, which is what the sequence of filters amounts to. */
  predicate Satisfies(criteria: Object, a: Record)
    requires "name" in criteria ==> criteria["name"].Str?
  {
    && ("name" in criteria ==>
          "name" in a && a["name"].Str? && Contains(Lower(a["name"].s), Lower(criteria["name"].s)))
    && ("type" in criteria ==> "type" in a && a["type"] == criteria["type"])
    && ("composition" in criteria ==> GetOr(a, "composition", Null) == criteria["composition"])
    && ("minDistance" in criteria ==>
          SemiMajorAxis(a).Ok? && AtLeast(SemiMajorAxis(a).value, criteria["minDistance"]) == Ok(true))
    && ("maxDistance" in criteria ==>
          SemiMajorAxis(a).Ok? && AtMost(SemiMajorAxis(a).value, criteria["maxDistance"]) == Ok(true))
  }

  /** The plan built from the criteria matches exactly the records that
      satisfy them. */
  lemma PlanMeaning(criteria: Object, a: Record)
    requires Plan(criteria).Ok?
    ensures Matches(Plan(criteria).value, a) <==> Satisfies(criteria, a)
  {
    var p := Plan(criteria).value;
    var n := if "name" in criteria then [NameLike(Lower(criteria["name"].s))] else [];
    var t := if "type" in criteria then [TypeIs(criteria["type"])] else [];
    var c := if "composition" in criteria then [CompositionIs(criteria["composition"])] else [];
    var lo := if "minDistance" in criteria then [MinDistance(criteria["minDistance"])] else [];
    var hi := if "maxDistance" in criteria then [MaxDistance(criteria["maxDistance"])] else [];
    assert p == n + t + c + lo + hi;
    if "name" in criteria { MatchesSingleton(n[0], a); }
    if "type" in criteria { MatchesSingleton(t[0], a); }
    if "composition" in criteria { MatchesSingleton(c[0], a); }
    if "minDistance" in criteria { MatchesSingleton(lo[0], a); }
    if "maxDistance" in criteria { MatchesSingleton(hi[0], a); }
    MatchesConcat(n, t, a);
    MatchesConcat(n + t, c, a);
    MatchesConcat(n + t + c, lo, a);
    MatchesConcat(n + t + c + lo, hi, a);
  }

  lemma MatchesConcat(p: seq<Criterion>, q: seq<Criterion>, a: Record)
    ensures Matches(p + q, a) <==> Matches(p, a) && Matches(q, a)
  {
    if Matches(p, a) && Matches(q, a) {
      forall i | 0 <= i < |p + q| ensures Test((p + q)[i], a) == Ok(true) {
        if i >= |p| { assert (p + q)[i] == q[i - |p|]; }
      }
    }
    if Matches(p + q, a) {
      forall i | 0 <= i < |p| ensures Test(p[i], a) == Ok(true) {
        assert (p + q)[i] == p[i];
      }
      forall i | 0 <= i < |q| ensures Test(q[i], a) == Ok(true) {
        assert (p + q)[|p| + i] == q[i];
      }
    }
  }

  lemma MatchesSingleton(c: Criterion, a: Record)
    ensures Matches([c], a) <==> Test(c, a) == Ok(true)
  {
    assert [c][0] == c;
  }

  /** `POST /api/asteroids/search`. It never writes the document. */
  function SearchAsteroids(doc: Document, criteria: Object): (r: Response)
    ensures r.status == 200 || r.status == 500
    ensures r.status == 200 <==> Plan(criteria).Ok? && Runs(Plan(criteria).value, doc.asteroids)
    ensures r.status == 200 ==>
      && Plan(criteria).Ok?
      && r.body == Success(Some(Records(Select(Plan(criteria).value, doc.asteroids))),
                           Some(|Select(Plan(criteria).value, doc.asteroids)|), None)
    ensures r.status == 500 ==> r.body.Failure? && r.body.problem.Raised?
    ensures criteria.Keys !! {"name", "type", "composition", "minDistance", "maxDistance"} ==>
      r == Response(200, Success(Some(Records(doc.asteroids)), Some(|doc.asteroids|), None))
  {
    match Plan(criteria)
    case Err(f) => Response(500, Failure(Raised(f)))
    case Ok(plan) =>
      match Apply(plan, doc.asteroids)
      case Err(f) => Response(500, Failure(Raised(f)))
      case Ok(found) => Response(200, Success(Some(Records(found)), Some(|found|), None))
  }

  /** A search whose name criterion is a string and whose filters can be
      evaluated on every stored record answers 200. */
  lemma SearchSucceeds(doc: Document, criteria: Object)
    requires "name" in criteria ==> criteria["name"].Str?
    requires forall i, j :: 0 <= i < |Plan(criteria).value| && 0 <= j < |doc.asteroids| ==>
      Test(Plan(criteria).value[i], doc.asteroids[j]).Ok?
    ensures SearchAsteroids(doc, criteria).status == 200
  {
    RunsWhenEveryTestRuns(Plan(criteria).value, doc.asteroids);
  }

  /** What a successful search returns: the stored records satisfying
      every criterion present, in stored order, with `count` its length. */
  lemma SearchResult(doc: Document, criteria: Object)
    requires SearchAsteroids(doc, criteria).status == 200
    ensures "name" in criteria ==> criteria["name"].Str?
    ensures exists found: seq<Record> ::
      && SearchAsteroids(doc, criteria).body == Success(Some(Records(found)), Some(|found|), None)
      && Subsequence(found, doc.asteroids)
      && forall a :: a in found <==> a in doc.asteroids && Satisfies(criteria, a)
  {
    var found := Select(Plan(criteria).value, doc.asteroids);
    SelectIsSubsequence(Plan(criteria).value, doc.asteroids);
    SelectMembers(Plan(criteria).value, doc.asteroids);
    forall a ensures Matches(Plan(criteria).value, a) <==> Satisfies(criteria, a) {
      PlanMeaning(criteria, a);
    }
  }
}
