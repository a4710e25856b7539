/** The asteroid routes of the Flask back end: list, get, create, update
    and delete over `doc.asteroids`. Each route is a pure transition from
    the loaded document to the document as saved plus the response. */
module Asteroids {
  import opened Common
  import opened Json
  import opened Store

  /** Checked in this order; the first one absent is reported. */
  const RequiredFields: seq<string> := ["name", "type", "radius", "mass", "orbitalElements"]

  const DefaultColor: string := "#FF6B35"
  const DefaultComposition: string := "rocky"
  const DefaultSource: string := "custom"
  const DefaultAuthor: string := "user"
  const NotFound: string := "Asteroid not found"

  /** `GET /api/asteroids` */
  function ListAll(doc: Document): (r: Response)
    ensures r.status == 200
    ensures r.body.Success? && r.body.count == Some(|doc.asteroids|)
    ensures r.body.data == Some(Records(doc.asteroids))
  {
    Response(200, Success(Some(Records(doc.asteroids)), Some(|doc.asteroids|), None))
  }

  /** `GET /api/asteroids/<id>`: the first record with that id. */
  function Get(doc: Document, id: string): (r: Response)
    ensures r.status == 200 <==>
      exists i :: 0 <= i < |doc.asteroids| && IsId(doc.asteroids[i], id) && AllHaveIds(doc.asteroids[..i])
    ensures r.status == 200 ==>
      exists i :: 0 <= i < |doc.asteroids| && IsId(doc.asteroids[i], id)
        && (forall j :: 0 <= j < i ==> !IsId(doc.asteroids[j], id))
        && r.body == Success(Some(Obj(doc.asteroids[i])), None, None)
    ensures r.status == 404 <==>
      AllHaveIds(doc.asteroids) && forall j :: 0 <= j < |doc.asteroids| ==> !IsId(doc.asteroids[j], id)
    ensures r.status == 404 ==> r.body == Failure(Text(NotFound))
    ensures r.status in {200, 404, 500}
  {
    match FirstWithId(doc.asteroids, id)
    case Err(f) =>
      assert !exists i :: 0 <= i < |doc.asteroids| && IsId(doc.asteroids[i], id) && AllHaveIds(doc.asteroids[..i]) by {
        var j :| 0 <= j < |doc.asteroids| && "id" !in doc.asteroids[j] && forall k :: 0 <= k < j ==> !IsId(doc.asteroids[k], id);
        forall i | 0 <= i < |doc.asteroids| && IsId(doc.asteroids[i], id)
          ensures !AllHaveIds(doc.asteroids[..i])
        {
          assert j < i && doc.asteroids[..i][j] == doc.asteroids[j];
        }
      }
      Response(500, Failure(Raised(f)))
    case Ok(None) => Response(404, Failure(Text(NotFound)))
    case Ok(Some(i)) =>
      assert AllHaveIds(doc.asteroids[..i]);
      Response(200, Success(Some(Obj(doc.asteroids[i])), None, None))
  }

  /** The first of `fields` that `payload` lacks (`field not in data`). */
  function FirstMissing(payload: Object, fields: seq<string>): (m: Option<string>)
    ensures m.None? <==> forall i :: 0 <= i < |fields| ==> fields[i] in payload
    ensures m.Some? ==>
      exists i :: 0 <= i < |fields| && fields[i] == m.value && m.value !in payload
        && forall j :: 0 <= j < i ==> fields[j] in payload
  {
    if fields == [] then None
    else if fields[0] !in payload then Some(fields[0])
    else
      var m := FirstMissing(payload, fields[1..]);
      if m.Some? then
        var i :| 0 <= i < |fields| - 1 && fields[1..][i] == m.value && m.value !in payload
          && forall j :: 0 <= j < i ==> fields[1..][j] in payload;
        assert fields[i + 1] == m.value;
        m
      else
        m
  }

  /** The record `create_asteroid` builds from a validated payload. Only
      the listed keys are taken from the payload; `source` and `author`
      are read from its top level, not from a nested `metadata`. */
  function NewAsteroid(payload: Object, clock: Clock): (r: Record)
    requires forall i :: 0 <= i < |RequiredFields| ==> RequiredFields[i] in payload
    ensures r.Keys == {"id", "name", "type", "radius", "mass", "color", "composition", "orbitalElements", "metadata"}
    ensures r["id"] == if "id" in payload then payload["id"] else Str("asteroid-" + clock.digits)
    ensures forall k :: k in RequiredFields ==> r[k] == payload[k]
    ensures "color" !in payload ==> r["color"] == Str(DefaultColor)
    ensures "composition" !in payload ==> r["composition"] == Str(DefaultComposition)
    ensures "color" in payload ==> r["color"] == payload["color"]
    ensures "composition" in payload ==> r["composition"] == payload["composition"]
    ensures r["metadata"].Obj? && r["metadata"].fields.Keys == {"created", "updated", "source", "author"}
    ensures r["metadata"].fields["created"] == r["metadata"].fields["updated"] == Str(clock.iso)
    ensures r["metadata"].fields["source"] == if "source" in payload then payload["source"] else Str(DefaultSource)
    ensures r["metadata"].fields["author"] == if "author" in payload then payload["author"] else Str(DefaultAuthor)
  {
    assert RequiredFields[0] in payload && RequiredFields[1] in payload && RequiredFields[2] in payload;
    assert RequiredFields[3] in payload && RequiredFields[4] in payload;
    map[
      "id" := GetOr(payload, "id", Str("asteroid-" + clock.digits)),
      "name" := payload["name"],
      "type" := payload["type"],
      "radius" := payload["radius"],
      "mass" := payload["mass"],
      "color" := GetOr(payload, "color", Str(DefaultColor)),
      "composition" := GetOr(payload, "composition", Str(DefaultComposition)),
      "orbitalElements" := payload["orbitalElements"],
      "metadata" := Obj(map[
        "created" := Str(clock.iso),
        "updated" := Str(clock.iso),
        "source" := GetOr(payload, "source", Str(DefaultSource)),
        "author" := GetOr(payload, "author", Str(DefaultAuthor))])
    ]
  }

  /** `POST /api/asteroids` */
  function Create(doc: Document, payload: Object, clock: Clock): (h: Handled)
    ensures h.response.status == 400 <==> exists i :: 0 <= i < |RequiredFields| && RequiredFields[i] !in payload
    ensures h.response.status == 400 ==>
      && h.doc == doc && !h.saved
      && (exists i :: 0 <= i < |RequiredFields| && RequiredFields[i] !in payload
            && (forall j :: 0 <= j < i ==> RequiredFields[j] in payload)
            && h.response.body == Failure(Text("Missing required field: " + RequiredFields[i])))
    ensures h.response.status != 400 ==>
      && h.response.status == 201 && h.saved
      && |h.doc.asteroids| == |doc.asteroids| + 1
      && h.doc.asteroids[..|doc.asteroids|] == doc.asteroids
      && h.doc.simulations == doc.simulations && h.doc.metadata == doc.metadata
      && h.doc.asteroids[|doc.asteroids|] == NewAsteroid(payload, clock)
      && h.response.body.Success?
      && h.response.body.data == Some(Obj(h.doc.asteroids[|doc.asteroids|]))
  {
    match FirstMissing(payload, RequiredFields)
    case Some(field) =>
      Handled(doc, false, Response(400, Failure(Text("Missing required field: " + field))))
    case None =>
      var rec := NewAsteroid(payload, clock);
      var doc' := doc.(asteroids := doc.asteroids + [rec]);
      Handled(doc', true, Response(201, Success(Some(Obj(rec)), None, Some(AsteroidCreated(rec["name"])))))
  }

  /** The `{**existing, **data, 'id': id, 'metadata': {...}}` of
      `update_asteroid`. Unpacking a `metadata` that is not a dict raises. */
  function Merge(existing: Record, payload: Object, id: string, now: string): (r: Result<Record, Fault>)
    ensures r.Ok? <==> "metadata" !in existing || existing["metadata"].Obj?
    ensures r.Err? ==> r.error == TypeError
    ensures r.Ok? ==> r.value.Keys == existing.Keys + payload.Keys + {"id", "metadata"}
    ensures r.Ok? ==> forall k :: k in r.value && k != "id" && k != "metadata" ==>
      r.value[k] == if k in payload then payload[k] else existing[k]
    ensures r.Ok? ==> r.value["id"] == Str(id)
    ensures r.Ok? ==> r.value["metadata"].Obj?
    ensures r.Ok? ==>
      var old_meta := if "metadata" in existing then existing["metadata"].fields else map[];
      && r.value["metadata"].fields.Keys == old_meta.Keys + {"updated"}
      && r.value["metadata"].fields["updated"] == Str(now)
      && forall k :: k in old_meta && k != "updated" ==> r.value["metadata"].fields[k] == old_meta[k]
  {
    var meta := GetOr(existing, "metadata", Obj(map[]));
    if !meta.Obj? then Err(TypeError)
    else Ok(existing + payload + map["id" := Str(id), "metadata" := Obj(meta.fields + map["updated" := Str(now)])])
  }

  /** `PUT /api/asteroids/<id>`. The message reads `name` after the
      document has been saved, so a merged record without a `name`
      answers 500 although the update is stored. */
  function Update(doc: Document, id: string, payload: Object, clock: Clock): (h: Handled)
    ensures h.response.status == 404 <==>
      AllHaveIds(doc.asteroids) && forall j :: 0 <= j < |doc.asteroids| ==> !IsId(doc.asteroids[j], id)
    ensures h.response.status == 404 ==> h.doc == doc && !h.saved && h.response.body == Failure(Text(NotFound))
    ensures h.saved ==>
      exists i :: 0 <= i < |doc.asteroids| && IsId(doc.asteroids[i], id)
        && (forall j :: 0 <= j < i ==> !IsId(doc.asteroids[j], id))
        && Merge(doc.asteroids[i], payload, id, clock.iso).Ok?
        && h.doc == doc.(asteroids := doc.asteroids[i := Merge(doc.asteroids[i], payload, id, clock.iso).value])
        && (h.response.status == 200 <==> "name" in h.doc.asteroids[i])
        && (h.response.status == 200 ==> h.response.body == Success(Some(Obj(h.doc.asteroids[i])), None, Some(AsteroidUpdated(h.doc.asteroids[i]["name"]))))
    ensures h.saved <==>
      exists i :: 0 <= i < |doc.asteroids| && IsId(doc.asteroids[i], id)
        && AllHaveIds(doc.asteroids[..i])
        && (forall j :: 0 <= j < i ==> !IsId(doc.asteroids[j], id))
        && Merge(doc.asteroids[i], payload, id, clock.iso).Ok?
    ensures !h.saved ==> h.doc == doc
    ensures h.response.status == 200 ==> h.saved
    ensures h.response.status in {200, 404, 500}
  {
    var recs := doc.asteroids;
    match FirstWithId(recs, id)
    case Err(f) =>
      assert !exists i :: 0 <= i < |recs| && IsId(recs[i], id) && AllHaveIds(recs[..i]) by {
        var j :| 0 <= j < |recs| && "id" !in recs[j] && forall k :: 0 <= k < j ==> !IsId(recs[k], id);
        forall i | 0 <= i < |recs| && IsId(recs[i], id)
          ensures !AllHaveIds(recs[..i])
        {
          assert j < i && recs[..i][j] == recs[j];
        }
      }
      Crash(doc, f)
    case Ok(None) => Handled(doc, false, Response(404, Failure(Text(NotFound))))
    case Ok(Some(i)) =>
      assert AllHaveIds(recs[..i]);
      match Merge(recs[i], payload, id, clock.iso)
      case Err(f) =>
        assert forall i' :: (0 <= i' < |recs| && IsId(recs[i'], id)
          && forall j :: 0 <= j < i' ==> !IsId(recs[j], id)) ==> i' == i;
        Crash(doc, f)
      case Ok(merged) =>
        var doc' := doc.(asteroids := doc.asteroids[i := merged]);
        if "name" in merged then
          Handled(doc', true, Response(200, Success(Some(Obj(merged)), None, Some(AsteroidUpdated(merged["name"])))))
        else
          Handled(doc', true, Response(500, Failure(Raised(KeyError("name")))))
  }

  /** `DELETE /api/asteroids/<id>`: every record with the id goes; "not
      found" is detected as an unchanged list length. */
  function Delete(doc: Document, id: string): (h: Handled)
    ensures h.response.status == 404 <==> AllHaveIds(doc.asteroids) && Occurrences(doc.asteroids, id) == 0
    ensures h.response.status == 200 <==> AllHaveIds(doc.asteroids) && Occurrences(doc.asteroids, id) > 0
    ensures h.response.status == 500 <==> !AllHaveIds(doc.asteroids)
    ensures !h.saved ==> h.doc == doc
    ensures h.saved <==> h.response.status == 200
    ensures h.saved ==>
      && h.doc.simulations == doc.simulations && h.doc.metadata == doc.metadata
      && Subsequence(h.doc.asteroids, doc.asteroids)
      && |h.doc.asteroids| == |doc.asteroids| - Occurrences(doc.asteroids, id)
      && forall j :: 0 <= j < |h.doc.asteroids| ==> !IsId(h.doc.asteroids[j], id)
  {
    match WithoutId(doc.asteroids, id)
    case Err(f) => Crash(doc, f)
    case Ok(kept) =>
      if |kept| == |doc.asteroids| then Handled(doc, false, Response(404, Failure(Text(NotFound))))
      else Handled(doc.(asteroids := kept), true, Response(200, Success(None, None, Some(AsteroidDeleted))))
  }
}
