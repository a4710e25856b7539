/** The single JSON document the back end keeps on disk, held here as a
    value: loading is reading the value, saving is replacing it. Also the
    response envelope every route returns and the id lookups shared by
    the asteroid and simulation handlers. */
module Store {
  import opened Common
  import opened Json

  type Record = Json.Object

  /** The document root. `simulations` and `metadata` are optional because
      the handlers guard their absence (`'simulations' not in db`,
      `db.get('metadata', {})`). */
  datatype Document = Document(
    asteroids: seq<Record>,
    simulations: Option<seq<Record>>,
    metadata: Option<Value>)

  /** One reading of `datetime.now()`, in the three renderings the
      handlers use: `isoformat()`, `%Y%m%d%H%M%S%f` and `%Y-%m-%d %H:%M`.
      The handlers call `datetime.now()` once per field, and those calls
      return times microseconds apart; a handler here takes one reading
      for all of its fields. */
  datatype Clock = Clock(iso: string, digits: string, minute: string)

  const Version: string := "1.0.0"

  /** `init_db`: a fresh document when no file exists, otherwise the
      existing one untouched. */
  function InitDb(existing: Option<Document>, clock: Clock): (d: Document)
    ensures existing.Some? ==> d == existing.value
    ensures existing.None? ==> d.asteroids == [] && d.simulations == Some([])
    ensures existing.None? ==> d.metadata == Some(Obj(map["created" := Str(clock.iso), "version" := Str(Version)]))
  {
    match existing
    case Some(doc) => doc
    case None =>
      Document([], Some([]), Some(Obj(map["created" := Str(clock.iso), "version" := Str(Version)])))
  }

  /** The `message` of a success envelope. The text interpolates the
      record's name with Python's `str()`; the model keeps the value. */
  datatype Message =
    | AsteroidCreated(name: Value)
    | AsteroidUpdated(name: Value)
    | AsteroidDeleted
    | SimulationSaved(name: Value)
    | SimulationDeleted

  /** The `error` of a failure envelope: a fixed text, or `str(e)` of a
      caught exception. */
  datatype Problem = Text(text: string) | Raised(fault: Fault)

  datatype Body =
    | Success(data: Option<Value>, count: Option<nat>, message: Option<Message>)
    | Failure(problem: Problem)

  datatype Response = Response(status: nat, body: Body)

  /** What a mutating route leaves behind: the document as stored
      afterwards, whether `save_db` ran, and the response. */
  datatype Handled = Handled(doc: Document, saved: bool, response: Response)

  /** The `except Exception` branch: status 500, nothing saved. */
  function Crash(doc: Document, f: Fault): (h: Handled)
    ensures h.doc == doc && !h.saved && h.response.status == 500
    ensures h.response.body == Failure(Raised(f))
  {
    Handled(doc, false, Response(500, Failure(Raised(f))))
  }

  /** A list of records as a JSON array. */
  function Records(recs: seq<Record>): (v: Value)
    ensures v.Arr? && |v.items| == |recs|
    ensures forall i :: 0 <= i < |recs| ==> v.items[i] == Obj(recs[i])
  {
    Arr(seq(|recs|, i requires 0 <= i < |recs| => Obj(recs[i])))
  }

  /** `a['id'] == id` holds (and does not raise). */
  predicate IsId(r: Record, id: string) {
    "id" in r && r["id"] == Str(id)
  }

  /** Every record can be asked `a['id']` without a `KeyError`. */
  ghost predicate AllHaveIds(recs: seq<Record>) {
    forall j :: 0 <= j < |recs| ==> "id" in recs[j]
  }

  /** Number of records whose id is `id`. */
  function Occurrences(recs: seq<Record>, id: string): (n: nat)
    ensures n <= |recs|
  {
    if recs == [] then 0
    else (if IsId(recs[0], id) then 1 else 0) + Occurrences(recs[1..], id)
  }

  /** `next((i for i, a in enumerate(recs) if a['id'] == id), None)`: the
      scan stops at the first match, and raises on a record without an
      id that it reaches before one. */
  function FirstWithId(recs: seq<Record>, id: string): (r: Result<Option<nat>, Fault>)
    ensures r.Ok? && r.value.Some? ==>
      && r.value.value < |recs| && IsId(recs[r.value.value], id)
      && forall j :: 0 <= j < r.value.value ==> "id" in recs[j] && !IsId(recs[j], id)
    ensures r.Ok? && r.value.None? ==>
      forall j :: 0 <= j < |recs| ==> "id" in recs[j] && !IsId(recs[j], id)
    ensures r.Err? ==>
      && r.error == KeyError("id")
      && exists j :: 0 <= j < |recs| && "id" !in recs[j] && forall k :: 0 <= k < j ==> !IsId(recs[k], id)
  {
    if recs == [] then Ok(None)
    else if "id" !in recs[0] then Err(KeyError("id"))
    else if recs[0]["id"] == Str(id) then Ok(Some(0))
    else
      match FirstWithId(recs[1..], id)
      case Ok(None) => Ok(None)
      case Ok(Some(i)) => Ok(Some(i + 1))
      case Err(e) =>
        assert exists j :: 0 <= j < |recs| - 1 && "id" !in recs[1..][j] && forall k :: 0 <= k < j ==> !IsId(recs[1..][k], id);
        var j :| 0 <= j < |recs| - 1 && "id" !in recs[1..][j] && forall k :: 0 <= k < j ==> !IsId(recs[1..][k], id);
        assert forall k :: 0 <= k < j + 1 ==> !IsId(recs[k], id) by {
          forall k | 0 <= k < j + 1 ensures !IsId(recs[k], id) {
            if k > 0 { assert recs[k] == recs[1..][k - 1]; }
          }
        }
        Err(e)
  }

  /** `[a for a in recs if a['id'] != id]`: every record is visited, so
      one without an id anywhere raises. */
  function WithoutId(recs: seq<Record>, id: string): (r: Result<seq<Record>, Fault>)
    ensures r.Ok? <==> AllHaveIds(recs)
    ensures r.Err? ==> r.error == KeyError("id")
    ensures r.Ok? ==> Subsequence(r.value, recs)
    ensures r.Ok? ==> forall j :: 0 <= j < |r.value| ==> !IsId(r.value[j], id)
    ensures r.Ok? ==> |r.value| == |recs| - Occurrences(recs, id)
  {
    if recs == [] then Ok([])
    else if "id" !in recs[0] then Err(KeyError("id"))
    else
      match WithoutId(recs[1..], id)
      case Err(e) =>
        assert !AllHaveIds(recs[1..]);
        var j :| 0 <= j < |recs| - 1 && "id" !in recs[1..][j];
        assert "id" !in recs[j + 1];
        Err(e)
      case Ok(rest) =>
        assert AllHaveIds(recs) by {
          forall j | 0 <= j < |recs| ensures "id" in recs[j] {
            if j > 0 { assert recs[j] == recs[1..][j - 1]; }
          }
        }
        if recs[0]["id"] == Str(id) then
          SubsequenceSkip(rest, recs);
          Ok(rest)
        else
          assert ([recs[0]] + rest)[1..] == rest;
          Ok([recs[0]] + rest)
  }

  lemma SubsequenceSkip<T>(a: seq<T>, b: seq<T>)
    requires b != [] && Subsequence(a, b[1..])
    ensures Subsequence(a, b)
  {
  }

  /** Every element of a subsequence comes from the longer sequence. */
  lemma {:induction false} SubsequenceMembers<T>(a: seq<T>, b: seq<T>)
    requires Subsequence(a, b)
    ensures forall x :: x in a ==> x in b
    decreases |b|
  {
    if a != [] && b != [] {
      if a[0] == b[0] && Subsequence(a[1..], b[1..]) {
        SubsequenceMembers(a[1..], b[1..]);
        forall x | x in a ensures x in b {
          if x != a[0] { assert x in a[1..]; }
        }
      } else {
        SubsequenceMembers(a, b[1..]);
      }
    }
  }

  lemma {:induction false} NoOccurrences(recs: seq<Record>, id: string)
    requires forall j :: 0 <= j < |recs| ==> !IsId(recs[j], id)
    ensures Occurrences(recs, id) == 0
  {
    if recs != [] {
      NoOccurrences(recs[1..], id);
    }
  }

  lemma {:induction false} SomeOccurrence(recs: seq<Record>, id: string, i: int)
    requires 0 <= i < |recs| && IsId(recs[i], id)
    ensures Occurrences(recs, id) > 0
  {
    if i > 0 {
      SomeOccurrence(recs[1..], id, i - 1);
    }
  }

  /** The scan of `FirstWithId` returns the first index holding the id
      when every earlier record has an id. */
  lemma {:induction false} FirstWithIdAt(recs: seq<Record>, id: string, i: int)
    requires 0 <= i < |recs| && IsId(recs[i], id)
    requires forall j :: 0 <= j < i ==> "id" in recs[j] && !IsId(recs[j], id)
    ensures FirstWithId(recs, id) == Ok(Some(i))
  {
    if i > 0 {
      FirstWithIdAt(recs[1..], id, i - 1);
    }
  }

  /** Documents this program writes: every asteroid has an `id`, a `name`
      and a `metadata` object, and every simulation has an `id`. */
  ghost predicate WellFormed(doc: Document) {
    && (forall j :: 0 <= j < |doc.asteroids| ==> WellFormedAsteroid(doc.asteroids[j]))
    && (doc.simulations.Some? ==> AllHaveIds(doc.simulations.value))
  }

  ghost predicate WellFormedAsteroid(r: Record) {
    "id" in r && "name" in r && "metadata" in r && r["metadata"].Obj?
  }

  lemma InitDbWellFormed(existing: Option<Document>, clock: Clock)
    requires existing.Some? ==> WellFormed(existing.value)
    ensures WellFormed(InitDb(existing, clock))
  {
  }
}
