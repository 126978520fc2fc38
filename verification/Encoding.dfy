/** What the model leaves uninterpreted: SHA-256, `json.Marshal` and the JSONB
    columns. They are carried by a value instead of being declared without a
    body, so that no axiom about them exists; the theorems that need a law of
    JSON ask for `LawfulJson` or `LawfulColumns`. SHA-256 has no law at all. */
module Encoding {
  import opened Common
  import opened Events

  /** The struct `computeHash` marshals. There is no sequence number, no
      prev-hash and no hash in it, and times are milliseconds. */
  datatype Payload = Payload(
    eventID: Id,
    deliveryID: Id,
    kind: EventType,
    occurredMs: int,
    carrierMs: Option<int>,
    actor: Actor,
    location: Option<GeoPoint>,
    photos: seq<PhotoRef>,
    signature: Option<SignatureRef>,
    reason: string,
    metadata: bytes)

  /** The text form of one JSONB column: `enc` is the text read back for a
      value written, `None` if it cannot be marshalled; `dec` is
      `json.Unmarshal`, `None` on its error. */
  datatype Column<!T> = Column(enc: T -> Option<bytes>, dec: bytes -> Option<T>)

  datatype Env = Env(
    sha: bytes -> bytes,
    marshal: Payload -> Option<bytes>,    // json.Marshal; None is its error
    compact: bytes -> bytes,              // what it does to a RawMessage
    actors: Column<Actor>,
    locations: Column<GeoPoint>,
    photoLists: Column<seq<PhotoRef>>,
    signatures: Column<SignatureRef>,
    jsonb: bytes -> bytes)                // text read back for raw JSON written

  const NULL_TEXT: bytes := [110, 117, 108, 108]   // null
  const EMPTY_OBJECT: bytes := [123, 125]          // {}
  const EMPTY_ARRAY: bytes := [91, 93]             // []

  /** The content of a payload that its JSON text determines: raw metadata only
      up to white space, and an empty metadata is the same as none. */
  datatype Canon = Canon(fields: Payload, metadata: Option<bytes>)

  function Canonical(env: Env, p: Payload): Canon {
    Canon(p.(metadata := []), if |p.metadata| == 0 then None else Some(env.compact(p.metadata)))
  }

  /** `json.Marshal` yields the same text exactly for the same content. */
  ghost predicate LawfulJson(env: Env) {
    forall p: Payload, q: Payload :: env.marshal(p).Some? ==>
      (env.marshal(p) == env.marshal(q) <==> Canonical(env, p) == Canonical(env, q))
  }

  // A JSONB number has no negative zero: what was written as -0 is read as 0.

  function Unsigned(x: Float64): Float64 {
    if x == NEGATIVE_ZERO then PLUS_ZERO else x
  }

  function UnsignedPoint(g: GeoPoint): GeoPoint {
    GeoPoint(Unsigned(g.lat), Unsigned(g.lng), Unsigned(g.accuracyM), Unsigned(g.altitude), Unsigned(g.heading))
  }

  function UnsignedPlace(g: Option<GeoPoint>): Option<GeoPoint> {
    if g.Some? then Some(UnsignedPoint(g.value)) else None
  }

  function UnsignedPhotos(ps: seq<PhotoRef>): seq<PhotoRef> {
    seq(|ps|, i requires 0 <= i < |ps| => ps[i].(exifGPS := UnsignedPlace(ps[i].exifGPS)))
  }

  /** If x can be written, y is read back. */
  predicate GivesBack<T(==)>(c: Column<T>, x: T, y: T) {
    match c.enc(x)
    case None => true
    case Some(text) => |text| > 0 && text != NULL_TEXT && c.dec(text) == Some(y)
  }

  /** The parts of a payload can be marshalled one by one. */
  predicate Encodable(env: Env, p: Payload) {
    && env.actors.enc(p.actor).Some?
    && (p.location.Some? ==> env.locations.enc(p.location.value).Some?)
    && env.photoLists.enc(p.photos).Some?
    && (p.signature.Some? ==> env.signatures.enc(p.signature.value).Some?)
  }

  /** The JSONB columns give every value back, but for the sign of zeros; `{}` and
      `[]` stay as they are; what marshals as a whole marshals in parts. */
  ghost predicate LawfulColumns(env: Env) {
    && (forall x :: GivesBack(env.actors, x, x))
    && (forall x :: GivesBack(env.locations, x, UnsignedPoint(x)))
    && (forall x :: GivesBack(env.photoLists, x, UnsignedPhotos(x)))
    && (forall x :: GivesBack(env.signatures, x, x))
    && env.photoLists.dec(EMPTY_ARRAY) == Some([])
    && env.jsonb(EMPTY_OBJECT) == EMPTY_OBJECT
    && (forall p: Payload :: env.marshal(p).Some? ==> Encodable(env, p))
  }
}
