/** Properties relating several asteroid routes, and the invariant that
    every route keeps. */
module AsteroidLaws {
  import opened Common
  import opened Json
  import opened Store
  import opened Asteroids

  /** Deleting an id removes every record that has it, so deleting it a
      second time finds nothing. */
  lemma DeleteTwice(doc: Document, id: string)
    requires Delete(doc, id).response.status == 200
    ensures Delete(Delete(doc, id).doc, id).response.status == 404
    ensures Delete(Delete(doc, id).doc, id).doc == Delete(doc, id).doc
  {
    var d1 := Delete(doc, id).doc;
    SubsequenceMembers(d1.asteroids, doc.asteroids);
    assert AllHaveIds(d1.asteroids) by {
      forall j | 0 <= j < |d1.asteroids| ensures "id" in d1.asteroids[j] {
        assert d1.asteroids[j] in doc.asteroids;
      }
    }
    NoOccurrences(d1.asteroids, id);
  }

  /** Create keeps the document well formed. */
  lemma CreateWellFormed(doc: Document, payload: Object, clock: Clock)
    requires WellFormed(doc)
    ensures WellFormed(Create(doc, payload, clock).doc)
  {
    var h := Create(doc, payload, clock);
    if h.saved {
      forall j | 0 <= j < |h.doc.asteroids| ensures WellFormedAsteroid(h.doc.asteroids[j]) {
        if j < |doc.asteroids| {
          assert h.doc.asteroids[j] == h.doc.asteroids[..|doc.asteroids|][j];
        }
      }
    }
  }

  /** Update keeps the document well formed: the merge cannot remove a
      key, and it rebuilds `metadata` as an object. */
  lemma UpdateWellFormed(doc: Document, id: string, payload: Object, clock: Clock)
    requires WellFormed(doc)
    ensures WellFormed(Update(doc, id, payload, clock).doc)
  {
    var h := Update(doc, id, payload, clock);
    if h.saved {
      var i :| 0 <= i < |doc.asteroids| && IsId(doc.asteroids[i], id)
        && Merge(doc.asteroids[i], payload, id, clock.iso).Ok?
        && h.doc == doc.(asteroids := doc.asteroids[i := Merge(doc.asteroids[i], payload, id, clock.iso).value]);
      assert WellFormedAsteroid(h.doc.asteroids[i]);
    }
  }

  /** Delete keeps the document well formed: what is left is a part of
      what was there. */
  lemma DeleteWellFormed(doc: Document, id: string)
    requires WellFormed(doc)
    ensures WellFormed(Delete(doc, id).doc)
  {
    var h := Delete(doc, id);
    if h.saved {
      SubsequenceMembers(h.doc.asteroids, doc.asteroids);
      forall j | 0 <= j < |h.doc.asteroids| ensures WellFormedAsteroid(h.doc.asteroids[j]) {
        assert h.doc.asteroids[j] in doc.asteroids;
      }
    }
  }

  /** On a well-formed document get never reaches the `except` branch. */
  lemma WellFormedGetNoServerError(doc: Document, id: string)
    requires WellFormed(doc)
    ensures Get(doc, id).status != 500
  {
    assert AllHaveIds(doc.asteroids);
    assert FirstWithId(doc.asteroids, id).Ok?;
  }

  /** On a well-formed document update never reaches the `except`
      branch: the id scan cannot raise, `metadata` is a dict, and the
      merged record keeps its `name`. */
  lemma WellFormedUpdateNoServerError(doc: Document, id: string, payload: Object, clock: Clock)
    requires WellFormed(doc)
    ensures Update(doc, id, payload, clock).response.status != 500
  {
    assert AllHaveIds(doc.asteroids);
    var r := FirstWithId(doc.asteroids, id);
    assert r.Ok?;
    if r.value.Some? {
      var i := r.value.value;
      assert WellFormedAsteroid(doc.asteroids[i]);
      assert Merge(doc.asteroids[i], payload, id, clock.iso).Ok?;
    }
  }

  /** On a well-formed document delete never reaches the `except` branch. */
  lemma WellFormedDeleteNoServerError(doc: Document, id: string)
    requires WellFormed(doc)
    ensures Delete(doc, id).response.status != 500
  {
    assert AllHaveIds(doc.asteroids);
  }

  /** A record created under a fresh id is what a later get returns. */
  lemma CreateThenGet(doc: Document, payload: Object, clock: Clock, id: string)
    requires WellFormed(doc)
    requires forall i :: 0 <= i < |RequiredFields| ==> RequiredFields[i] in payload
    requires "id" in payload && payload["id"] == Str(id)
    requires forall j :: 0 <= j < |doc.asteroids| ==> !IsId(doc.asteroids[j], id)
    ensures Get(Create(doc, payload, clock).doc, id) == Response(200, Success(Some(Obj(NewAsteroid(payload, clock))), None, None))
  {
    var d := Create(doc, payload, clock).doc;
    var n := |doc.asteroids|;
    assert d.asteroids == doc.asteroids + [NewAsteroid(payload, clock)];
    assert IsId(d.asteroids[n], id);
    assert d.asteroids[..n] == doc.asteroids;
    assert forall j :: 0 <= j < n ==> !IsId(d.asteroids[j], id);
    assert AllHaveIds(d.asteroids[..n]);
  }

  /** After a successful update, get returns the merged record. */
  lemma UpdateThenGet(doc: Document, id: string, payload: Object, clock: Clock)
    requires Update(doc, id, payload, clock).response.status == 200
    ensures Get(Update(doc, id, payload, clock).doc, id).body == Update(doc, id, payload, clock).response.body.(message := None)
  {
    var h := Update(doc, id, payload, clock);
    var i :| 0 <= i < |doc.asteroids| && IsId(doc.asteroids[i], id)
      && (forall j :: 0 <= j < i ==> !IsId(doc.asteroids[j], id))
      && Merge(doc.asteroids[i], payload, id, clock.iso).Ok?
      && h.doc == doc.(asteroids := doc.asteroids[i := Merge(doc.asteroids[i], payload, id, clock.iso).value])
      && (h.response.status == 200 ==> h.response.body == Success(Some(Obj(h.doc.asteroids[i])), None, Some(AsteroidUpdated(h.doc.asteroids[i]["name"]))));
    assert IsId(h.doc.asteroids[i], id);
    assert forall j :: 0 <= j < i ==> h.doc.asteroids[j] == doc.asteroids[j];
    assert AllHaveIds(h.doc.asteroids[..i]) by {
      forall j | 0 <= j < i ensures "id" in h.doc.asteroids[..i][j] {
        assert "id" in doc.asteroids[j];
      }
    }
  }

  lemma MergeIgnoresMetadata(existing: Record, payload: Object, id: string, now: string)
    ensures Merge(existing, payload, id, now) == Merge(existing, payload - {"metadata"}, id, now)
  {
    var meta := GetOr(existing, "metadata", Obj(map[]));
    if meta.Obj? {
      var tail := map["id" := Str(id), "metadata" := Obj(meta.fields + map["updated" := Str(now)])];
      assert existing + payload + tail == existing + (payload - {"metadata"}) + tail;
    }
  }

  /** A `metadata` key in the update payload has no effect at all. */
  lemma UpdateIgnoresPayloadMetadata(doc: Document, id: string, payload: Object, clock: Clock)
    ensures Update(doc, id, payload, clock) == Update(doc, id, payload - {"metadata"}, clock)
  {
    match FirstWithId(doc.asteroids, id)
    case Err(_) =>
    case Ok(None) =>
    case Ok(Some(i)) =>
      MergeIgnoresMetadata(doc.asteroids[i], payload, id, clock.iso);
  }

  lemma MergeIdempotent(existing: Record, payload: Object, id: string, now: string)
    requires Merge(existing, payload, id, now).Ok?
    ensures Merge(Merge(existing, payload, id, now).value, payload, id, now) == Merge(existing, payload, id, now)
  {
    var merged := Merge(existing, payload, id, now).value;
    var meta := GetOr(existing, "metadata", Obj(map[]));
    var meta2 := GetOr(merged, "metadata", Obj(map[]));
    assert meta2 == Obj(meta.fields + map["updated" := Str(now)]);
    assert meta2.fields + map["updated" := Str(now)] == meta2.fields;
    var tail := map["id" := Str(id), "metadata" := meta2];
    assert merged == existing + payload + tail;
    assert merged + payload + tail == merged;
  }

  /** Repeating an update with the same payload and clock reading stores
      the same record again. */
  lemma UpdateIdempotent(doc: Document, id: string, payload: Object, clock: Clock)
    requires Update(doc, id, payload, clock).saved
    ensures Update(Update(doc, id, payload, clock).doc, id, payload, clock).doc == Update(doc, id, payload, clock).doc
  {
    match FirstWithId(doc.asteroids, id)
    case Err(_) =>
    case Ok(None) =>
    case Ok(Some(i)) =>
      var merged := Merge(doc.asteroids[i], payload, id, clock.iso).value;
      var d1 := doc.(asteroids := doc.asteroids[i := merged]);
      assert Update(doc, id, payload, clock).doc == d1;
      assert forall j :: 0 <= j < i ==> d1.asteroids[j] == doc.asteroids[j];
      FirstWithIdAt(d1.asteroids, id, i);
      MergeIdempotent(doc.asteroids[i], payload, id, clock.iso);
      assert d1.asteroids[i := merged] == d1.asteroids;
  }
}
