/** The `custody_events` row: how an event is written to it and scanned back
    (internal/infra/postgres/custody_repo.go), and when the hash survives. */
module RowCodec {
  import opened Common
  import opened Events
  import opened Encoding
  import opened HashChain
  import opened TamperEvidence

  /** NULL is `None`; timestamps are microseconds; JSONB columns hold the text
      they are read back as. */
  datatype Row = Row(
    eventID: Id,
    deliveryID: Id,
    sequenceNum: int,
    kind: EventType,
    occurredUs: int,
    carrierUs: Option<int>,
    actor: bytes,
    location: Option<bytes>,
    photos: bytes,
    signature: Option<bytes>,
    reason: Option<string>,
    metadata: bytes,
    prevHash: bytes,
    hash: bytes)

  /** `None` when a column cannot be marshalled; the error comes before the insert. */
  function EncodeRow(env: Env, e: Event): Option<Row> {
    if !Encodable(env, PayloadOf(e)) then None
    else
      Some(Row(
        e.eventID, e.deliveryID, e.sequenceNum, e.kind, e.occurredAt / 1000,
        if e.carrierTime.Some? then Some(e.carrierTime.value / 1000) else None,
        env.actors.enc(e.actor).value,
        if e.location.Some? then env.locations.enc(e.location.value) else None,
        if e.photos.Some? then env.photoLists.enc(e.photos.value).value else EMPTY_ARRAY,
        if e.signature.Some? then env.signatures.enc(e.signature.value) else None,
        if e.reason == "" then None else Some(e.reason),
        env.jsonb(if |e.metadata| > 0 then e.metadata else EMPTY_OBJECT),
        e.prevHash, e.hash))
  }

  /** A nullable JSON column: NULL, no bytes and `null` leave the field unset.
      The outer `None` is an unmarshalling error. */
  function ScanOptional<T>(c: Column<T>, text: Option<bytes>): Option<Option<T>> {
    if text.Some? && |text.value| > 0 && text.value != NULL_TEXT then
      match c.dec(text.value)
      case None => None
      case Some(v) => Some(Some(v))
    else Some(None)
  }

  function DecodeRow(env: Env, r: Row): (e: Option<Event>)
    ensures e.Some? ==> e.value.eventID == r.eventID && e.value.deliveryID == r.deliveryID
    ensures e.Some? ==> e.value.sequenceNum == r.sequenceNum && e.value.hash == r.hash
  {
    var actor := env.actors.dec(r.actor);
    var location := ScanOptional(env.locations, r.location);
    var photos := env.photoLists.dec(r.photos);
    var signature := ScanOptional(env.signatures, r.signature);
    if actor.None? || location.None? || photos.None? || signature.None? then None
    else
      Some(Event(
        r.eventID, r.deliveryID, r.sequenceNum, r.kind, r.occurredUs * 1000,
        if r.carrierUs.Some? then Some(r.carrierUs.value * 1000) else None,
        actor.value, location.value, Some(photos.value), signature.value,
        if r.reason.Some? then r.reason.value else "",
        if |r.metadata| > 0 && r.metadata != NULL_TEXT && r.metadata != EMPTY_OBJECT then r.metadata else [],
        r.prevHash, r.hash))
  }

  /** The metadata a row gives back for the metadata written. */
  function StoredMetadata(env: Env, m: bytes): bytes {
    var text := env.jsonb(if |m| > 0 then m else EMPTY_OBJECT);
    if |text| > 0 && text != NULL_TEXT && text != EMPTY_OBJECT then text else []
  }

  /** The event a lawful database gives back: times cut to the microsecond, a nil
      photo slice turned into an empty one, zeros without sign, metadata as the
      column has it. */
  function AsStored(env: Env, e: Event): Event {
    e.(occurredAt := e.occurredAt / 1000 * 1000,
       carrierTime := if e.carrierTime.Some? then Some(e.carrierTime.value / 1000 * 1000) else None,
       location := UnsignedPlace(e.location),
       photos := Some(UnsignedPhotos(e.PhotoList())),
       metadata := StoredMetadata(env, e.metadata))
  }

  /** There is no metadata, or the column gives back a non-trivial text of the same
      compact form. */
  predicate MetadataSurvives(env: Env, m: bytes) {
    |m| == 0 ||
    var text := env.jsonb(m);
    |text| > 0 && text != NULL_TEXT && text != EMPTY_OBJECT && env.compact(text) == env.compact(m)
  }

  /** No coordinate is a negative zero. */
  predicate NoNegativeZero(location: Option<GeoPoint>, photos: seq<PhotoRef>) {
    UnsignedPlace(location) == location && UnsignedPhotos(photos) == photos
  }

  /** What a caller can check before recording. */
  predicate Survives(env: Env, e: Event) {
    MetadataSurvives(env, e.metadata) && NoNegativeZero(e.location, e.PhotoList())
  }

  lemma RowRoundTrip(env: Env, e: Event)
    requires LawfulColumns(env)
    ensures EncodeRow(env, e).Some? ==> DecodeRow(env, EncodeRow(env, e).value) == Some(AsStored(env, e))
    ensures env.marshal(PayloadOf(e)).Some? ==> EncodeRow(env, e).Some?
  {
    var p := PayloadOf(e);
    if Encodable(env, p) {
      var r := EncodeRow(env, e).value;
      assert GivesBack(env.actors, e.actor, e.actor);
      PlaceRoundTrip(env, e.location);
      assert ScanOptional(env.locations, r.location) == Some(UnsignedPlace(e.location));
      assert GivesBack(env.photoLists, p.photos, UnsignedPhotos(p.photos));
      assert UnsignedPhotos([]) == [];
      assert env.photoLists.dec(r.photos) == Some(UnsignedPhotos(p.photos));
      SignatureRoundTrip(env, e.signature);
      assert ScanOptional(env.signatures, r.signature) == Some(e.signature);
    }
  }

  lemma PlaceRoundTrip(env: Env, g: Option<GeoPoint>)
    requires LawfulColumns(env) && (g.Some? ==> env.locations.enc(g.value).Some?)
    ensures ScanOptional(env.locations, if g.Some? then env.locations.enc(g.value) else None) == Some(UnsignedPlace(g))
  {
    assert g.Some? ==> GivesBack(env.locations, g.value, UnsignedPoint(g.value));
  }

  lemma SignatureRoundTrip(env: Env, x: Option<SignatureRef>)
    requires LawfulColumns(env) && (x.Some? ==> env.signatures.enc(x.value).Some?)
    ensures ScanOptional(env.signatures, if x.Some? then env.signatures.enc(x.value) else None) == Some(x)
  {
    assert x.Some? ==> GivesBack(env.signatures, x.value, x.value);
  }

  lemma MillisecondsSurvive(t: int)
    ensures t / 1000 * 1000 / 1_000_000 == t / 1_000_000
  {
    var us := t / 1000;
    assert 1000 * us <= t < 1000 * us + 1000;
    var ms := t / 1_000_000;
    assert 1_000_000 * ms <= t < 1_000_000 * ms + 1_000_000;
    assert 1000 * ms <= us < 1000 * ms + 1000;
  }

  /** The hashed content is unchanged by the row exactly for an event that survives. */
  lemma ContentSurvivesIff(env: Env, e: Event)
    requires LawfulColumns(env)
    ensures SameContent(env, e, AsStored(env, e)) <==> Survives(env, e)
  {
    MillisecondsSurvive(e.occurredAt);
    if e.carrierTime.Some? {
      MillisecondsSurvive(e.carrierTime.value);
    }
    MetadataSurvivesIff(env, e.metadata);
  }

  lemma MetadataSurvivesIff(env: Env, m: bytes)
    requires LawfulColumns(env)
    ensures MetadataSurvives(env, m) <==> SameMetadata(env, m, StoredMetadata(env, m))
  {}

  /** An event that marshals can be written, and scanning it back keeps the hash it
      recomputes to exactly if it survives; an unchanged hash of one that does not
      is a collision of the two preimages. */
  lemma HashSurvivesIff(env: Env, e: Event)
    requires LawfulColumns(env) && LawfulJson(env)
    requires env.marshal(PayloadOf(e)).Some?
    ensures var back := AsStored(env, e);
      && EncodeRow(env, e).Some? && DecodeRow(env, EncodeRow(env, e).value) == Some(back)
      && (Survives(env, e) ==> ComputeHash(env, back) == ComputeHash(env, e))
      && (!Survives(env, e) && ComputeHash(env, back) == ComputeHash(env, e)
          ==> Collision(env, PreimageOf(env, e), PreimageOf(env, back)))
  {
    RowRoundTrip(env, e);
    ContentSurvivesIff(env, e);
    HashCoversContent(env, e, AsStored(env, e));
  }

  function AllStored(env: Env, es: seq<Event>): seq<Event> {
    seq(|es|, i requires 0 <= i < |es| => AsStored(env, es[i]))
  }

  /** The event and what is read back for it hash alike without having the same
      content. */
  ghost predicate StoredCollision(env: Env, e: Event) {
    Collision(env, PreimageOf(env, e), PreimageOf(env, AsStored(env, e)))
  }

  lemma StoredLinkIff(env: Env, es: seq<Event>, i: nat)
    requires LawfulColumns(env) && LawfulJson(env) && ChainOk(env, es) && i < |es|
    ensures Survives(env, es[i]) ==> Linked(env, AllStored(env, es), i)
    ensures Linked(env, AllStored(env, es), i) ==> Survives(env, es[i]) || StoredCollision(env, es[i])
  {
    var fs := AllStored(env, es);
    assert Linked(env, es, i);
    HashSurvivesIff(env, es[i]);
    assert i > 0 ==> fs[..i][i - 1] == AsStored(env, es[i - 1]);
    assert Head(env, fs[..i]) == Head(env, es[..i]);
  }

  /** A chain read back from rows still verifies exactly if every event survives,
      or the ones that do not are collisions. */
  lemma StoredChainVerifiesIff(env: Env, es: seq<Event>)
    requires LawfulColumns(env) && LawfulJson(env)
    requires ChainOk(env, es)
    ensures (forall i :: 0 <= i < |es| ==> Survives(env, es[i])) ==> Verify(env, AllStored(env, es)).Intact?
    ensures Verify(env, AllStored(env, es)).Intact? ==>
      forall i :: 0 <= i < |es| ==> Survives(env, es[i]) || StoredCollision(env, es[i])
  {
    var fs := AllStored(env, es);
    VerifyAcceptsChains(env, fs);
    forall i | 0 <= i < |es|
      ensures Survives(env, es[i]) ==> Linked(env, fs, i)
      ensures Linked(env, fs, i) ==> Survives(env, es[i]) || StoredCollision(env, es[i])
    {
      StoredLinkIff(env, es, i);
    }
  }

  /** An event sealed to the end of an accepted list, read back from its row: the
      list is accepted if the event survives; otherwise it is reported as tampered
      with at its own position, or its two preimages collide, or what came back
      does not marshal. */
  lemma StoredLinkVerifiesIff(env: Env, es: seq<Event>, e: Event, tail: Option<Event>, id: Id)
    requires LawfulColumns(env) && LawfulJson(env)
    requires Verify(env, es).Intact? && tail == (if es == [] then None else Some(es[|es| - 1]))
    requires Seal(env, e, tail, id).Some?
    ensures var sealed := Seal(env, e, tail, id).value;
      var back := AsStored(env, sealed);
      && EncodeRow(env, sealed).Some? && DecodeRow(env, EncodeRow(env, sealed).value) == Some(back)
      && (Survives(env, e) ==> Verify(env, es + [back]).Intact?)
      && (!Survives(env, e) && env.marshal(PayloadOf(back)).Some? ==>
            Verify(env, es + [back]) == Tampered(|es|, id) || StoredCollision(env, sealed))
  {
    var sealed := Seal(env, e, tail, id).value;
    var back := AsStored(env, sealed);
    VerifyAcceptsChains(env, es);
    var fs := es + [back];
    assert fs[..|es|] == es;
    assert ChainOk(env, es) && |es| > 0 ==> Linked(env, es, |es| - 1);
    assert sealed.sequenceNum == |es| && sealed.prevHash == Head(env, es);
    HashSurvivesIff(env, sealed);
    ChainExtend(env, es, back);
    VerifyAcceptsChains(env, fs);
    if !CheckLink(env, back, |es|, Head(env, es)).Intact? {
      VerifyStopsAt(env, fs, |es|);
    }
  }

  /** Two inputs that are lost on the way: metadata that is the two bytes `{}`, and
      a location on the equator or the Greenwich meridian given as -0. Recorded at
      the end of an accepted list, such an event is reported as tampered with. */
  lemma LostOnTheWay(env: Env, es: seq<Event>, e: Event, tail: Option<Event>, id: Id)
    requires LawfulColumns(env) && LawfulJson(env)
    requires Verify(env, es).Intact? && tail == (if es == [] then None else Some(es[|es| - 1]))
    requires Seal(env, e, tail, id).Some?
    requires e.metadata == EMPTY_OBJECT ||
      (e.location.Some? && NEGATIVE_ZERO in {e.location.value.lat, e.location.value.lng})
    ensures var sealed := Seal(env, e, tail, id).value;
      var back := AsStored(env, sealed);
      && !Survives(env, e)
      && EncodeRow(env, sealed).Some? && DecodeRow(env, EncodeRow(env, sealed).value) == Some(back)
      && (env.marshal(PayloadOf(back)).Some? ==>
            Verify(env, es + [back]) == Tampered(|es|, id) || StoredCollision(env, sealed))
  {
    StoredLinkVerifiesIff(env, es, e, tail, id);
  }
}
