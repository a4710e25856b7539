/** The simulation routes: list, save, load and delete over
    `doc.simulations`, a list the handlers treat as possibly absent. */
module Simulations {
  import opened Common
  import opened Json
  import opened Store

  const NotFound: string := "Simulation not found"

  /** `db.get('simulations', [])` */
  function Stored(doc: Document): (sims: seq<Record>)
    ensures doc.simulations.None? ==> sims == []
    ensures doc.simulations.Some? ==> sims == doc.simulations.value
  {
    match doc.simulations
    case Some(s) => s
    case None => []
  }

  /** `GET /api/simulations` */
  function ListAll(doc: Document): (r: Response)
    ensures r.status == 200
    ensures r.body == Success(Some(Records(Stored(doc))), Some(|Stored(doc)|), None)
  {
    var sims := Stored(doc);
    Response(200, Success(Some(Records(sims)), Some(|sims|), None))
  }

  /** The record `save_simulation` builds. The id is always generated; a
      caller's `id` is not read. */
  function NewSimulation(payload: Object, clock: Clock): (s: Record)
    ensures s.Keys == {"id", "name", "description", "asteroids", "customObjects", "settings", "timestamp"}
    ensures s["id"] == Str("sim-" + clock.digits)
    ensures s["name"] == if "name" in payload then payload["name"] else Str("Simulation " + clock.minute)
    ensures s["description"] == if "description" in payload then payload["description"] else Str("")
    ensures s["asteroids"] == if "asteroids" in payload then payload["asteroids"] else Arr([])
    ensures s["customObjects"] == if "customObjects" in payload then payload["customObjects"] else Arr([])
    ensures s["settings"] == if "settings" in payload then payload["settings"] else Obj(map[])
    ensures s["timestamp"] == Str(clock.iso)
  {
    map[
      "id" := Str("sim-" + clock.digits),
      "name" := GetOr(payload, "name", Str("Simulation " + clock.minute)),
      "description" := GetOr(payload, "description", Str("")),
      "asteroids" := GetOr(payload, "asteroids", Arr([])),
      "customObjects" := GetOr(payload, "customObjects", Arr([])),
      "settings" := GetOr(payload, "settings", Obj(map[])),
      "timestamp" := Str(clock.iso)
    ]
  }

  /** `POST /api/simulations`: no validation; creates the list if the
      document lacks one, and appends. */
  function Save(doc: Document, payload: Object, clock: Clock): (h: Handled)
    ensures h.saved && h.response.status == 201
    ensures h.doc.asteroids == doc.asteroids && h.doc.metadata == doc.metadata
    ensures h.doc.simulations == Some(Stored(doc) + [NewSimulation(payload, clock)])
    ensures h.response.body.Success? && h.response.body.data == Some(Obj(NewSimulation(payload, clock)))
  {
    var sim := NewSimulation(payload, clock);
    Handled(doc.(simulations := Some(Stored(doc) + [sim])), true,
            Response(201, Success(Some(Obj(sim)), None, Some(SimulationSaved(sim["name"])))))
  }

  /** `GET /api/simulations/<id>` */
  function Load(doc: Document, id: string): (r: Response)
    ensures r.status == 200 <==>
      exists i :: 0 <= i < |Stored(doc)| && IsId(Stored(doc)[i], id) && AllHaveIds(Stored(doc)[..i])
    ensures r.status == 200 ==>
      exists i :: 0 <= i < |Stored(doc)| && IsId(Stored(doc)[i], id)
        && (forall j :: 0 <= j < i ==> !IsId(Stored(doc)[j], id))
        && r.body == Success(Some(Obj(Stored(doc)[i])), None, None)
    ensures r.status == 404 <==>
      AllHaveIds(Stored(doc)) && forall j :: 0 <= j < |Stored(doc)| ==> !IsId(Stored(doc)[j], id)
    ensures r.status == 404 ==> r.body == Failure(Text(NotFound))
    ensures r.status in {200, 404, 500}
  {
    var sims := Stored(doc);
    match FirstWithId(sims, id)
    case Err(f) =>
      assert !exists i :: 0 <= i < |sims| && IsId(sims[i], id) && AllHaveIds(sims[..i]) by {
        var j :| 0 <= j < |sims| && "id" !in sims[j] && forall k :: 0 <= k < j ==> !IsId(sims[k], id);
        forall i | 0 <= i < |sims| && IsId(sims[i], id)
          ensures !AllHaveIds(sims[..i])
        {
          assert j < i && sims[..i][j] == sims[j];
        }
      }
      Response(500, Failure(Raised(f)))
    case Ok(None) => Response(404, Failure(Text(NotFound)))
    case Ok(Some(i)) =>
      assert AllHaveIds(sims[..i]);
      Response(200, Success(Some(Obj(sims[i])), None, None))
  }

  /** `DELETE /api/simulations/<id>`: the same filter-and-compare-length
      rule as asteroid delete. The empty list the handler puts in place of
      a missing one is never saved, since the answer is then 404. */
  function Delete(doc: Document, id: string): (h: Handled)
    ensures h.response.status == 404 <==> AllHaveIds(Stored(doc)) && Occurrences(Stored(doc), id) == 0
    ensures h.response.status == 500 <==> !AllHaveIds(Stored(doc))
    ensures h.response.status == 200 <==> AllHaveIds(Stored(doc)) && Occurrences(Stored(doc), id) > 0
    ensures h.saved <==> h.response.status == 200
    ensures !h.saved ==> h.doc == doc
    ensures h.saved ==>
      && doc.simulations.Some?
      && h.doc.asteroids == doc.asteroids && h.doc.metadata == doc.metadata
      && h.doc.simulations.Some?
      && Subsequence(h.doc.simulations.value, doc.simulations.value)
      && |h.doc.simulations.value| == |doc.simulations.value| - Occurrences(doc.simulations.value, id)
      && forall j :: 0 <= j < |h.doc.simulations.value| ==> !IsId(h.doc.simulations.value[j], id)
  {
    var sims := Stored(doc);
    match WithoutId(sims, id)
    case Err(f) => Crash(doc, f)
    case Ok(kept) =>
      if |kept| == |sims| then Handled(doc, false, Response(404, Failure(Text(NotFound))))
      else Handled(doc.(simulations := Some(kept)), true, Response(200, Success(None, None, Some(SimulationDeleted))))
  }

  /** On a well-formed document load never reaches the `except` branch. */
  lemma WellFormedLoadNoServerError(doc: Document, id: string)
    requires WellFormed(doc)
    ensures Load(doc, id).status != 500
  {
    assert AllHaveIds(Stored(doc));
    assert FirstWithId(Stored(doc), id).Ok?;
  }

  /** A saved simulation is what a later load of its generated id returns,
      when no stored simulation already had that id. */
  lemma SaveThenLoad(doc: Document, payload: Object, clock: Clock)
    requires AllHaveIds(Stored(doc))
    requires forall j :: 0 <= j < |Stored(doc)| ==> !IsId(Stored(doc)[j], "sim-" + clock.digits)
    ensures Load(Save(doc, payload, clock).doc, "sim-" + clock.digits)
      == Response(200, Success(Some(Obj(NewSimulation(payload, clock))), None, None))
  {
    var d := Save(doc, payload, clock).doc;
    var id := "sim-" + clock.digits;
    var n := |Stored(doc)|;
    assert Stored(d) == Stored(doc) + [NewSimulation(payload, clock)];
    FirstWithIdAt(Stored(d), id, n);
  }

  /** Save keeps every simulation carrying an id. */
  lemma SaveWellFormed(doc: Document, payload: Object, clock: Clock)
    requires WellFormed(doc)
    ensures WellFormed(Save(doc, payload, clock).doc)
  {
    var d := Save(doc, payload, clock).doc;
    forall j | 0 <= j < |d.simulations.value| ensures "id" in d.simulations.value[j] {
      if j < |Stored(doc)| {
        assert d.simulations.value[j] == Stored(doc)[j];
      }
    }
  }

  /** A second delete of the same id finds nothing. */
  lemma DeleteTwice(doc: Document, id: string)
    requires Delete(doc, id).response.status == 200
    ensures Delete(Delete(doc, id).doc, id).response.status == 404
    ensures !Delete(Delete(doc, id).doc, id).saved
    ensures Delete(Delete(doc, id).doc, id).doc == Delete(doc, id).doc
  {
    var d1 := Delete(doc, id).doc;
    var kept := d1.simulations.value;
    SubsequenceMembers(kept, doc.simulations.value);
    assert AllHaveIds(kept) by {
      forall j | 0 <= j < |kept| ensures "id" in kept[j] {
        assert kept[j] in doc.simulations.value;
      }
    }
    NoOccurrences(kept, id);
  }

  /** Delete keeps every simulation carrying an id. */
  lemma DeleteWellFormed(doc: Document, id: string)
    requires WellFormed(doc)
    ensures WellFormed(Delete(doc, id).doc)
  {
    var h := Delete(doc, id);
    if h.saved {
      var kept := h.doc.simulations.value;
      SubsequenceMembers(kept, doc.simulations.value);
      forall j | 0 <= j < |kept| ensures "id" in kept[j] {
        assert kept[j] in doc.simulations.value;
      }
    }
  }
}
