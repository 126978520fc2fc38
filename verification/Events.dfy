/** Custody events and the evidence policy checked before one is recorded
    (internal/core/custody/event.go). */
module Events {
  import opened Common

  /** The ten event types the code names. `Unlisted` is any other Go string;
      the empty string is `Unlisted("")`. */
  datatype EventType =
    | PackageDroppedAtLocker
    | PickupRequestedByCustomer
    | RiderAssigned
    | RiderArrivedAtLocker
    | PackagePickedUp
    | RiderInTransit
    | RiderArrivedAtDestination
    | PackageDelivered
    | DeliveryFailed
    | PackageReturnedToLocker
    | Unlisted(name: string)

  datatype Actor = Actor(role: string, carrierID: string, id: string, name: string)

  datatype GeoPoint = GeoPoint(
    lat: Float64, lng: Float64, accuracyM: Float64, altitude: Float64, heading: Float64)

  datatype PhotoRef = PhotoRef(
    s3URI: string, sha256: string, contentType: string, width: int, height: int, exifGPS: Option<GeoPoint>)

  datatype SignatureRef = SignatureRef(s3URI: string, sha256: string)

  /** Times are nanoseconds since the Unix epoch. `photos` is `None` for a nil
      slice; an absent and an empty `metadata` are told apart nowhere. */
  datatype Event = Event(
    eventID: Id,
    deliveryID: Id,
    sequenceNum: int,
    kind: EventType,
    occurredAt: int,
    carrierTime: Option<int>,
    actor: Actor,
    location: Option<GeoPoint>,
    photos: Option<seq<PhotoRef>>,
    signature: Option<SignatureRef>,
    reason: string,
    metadata: bytes,
    prevHash: bytes,
    hash: bytes)
  {
    function PhotoList(): seq<PhotoRef> {
      if photos.Some? then photos.value else []
    }
  }

  /** Go's zero time, 1 January of year 1. */
  const ZERO_TIME: int := -62135596800_000000000

  predicate RequiresPhoto(t: EventType) {
    match t
    case RiderArrivedAtLocker | PackagePickedUp | PackageDelivered | DeliveryFailed | PackageReturnedToLocker => true
    case _ => false
  }

  predicate RequiresGPS(t: EventType) {
    match t
    case RiderArrivedAtLocker | PackagePickedUp | RiderInTransit | RiderArrivedAtDestination => true
    case PackageDelivered | DeliveryFailed | PackageReturnedToLocker => true
    case _ => false
  }

  datatype Defect = InvalidEvent | PhotoRequired | GPSRequired

  function Validate(e: Event): (r: Option<Defect>)
    ensures r == Some(InvalidEvent) <==>
      e.kind == Unlisted("") || e.deliveryID == NIL_ID || e.occurredAt == ZERO_TIME
    ensures r == Some(PhotoRequired) <==>
      && r != Some(InvalidEvent)
      && e.kind in {RiderArrivedAtLocker, PackagePickedUp, PackageDelivered, DeliveryFailed, PackageReturnedToLocker}
      && e.photos in {None, Some([])}
    ensures r == Some(GPSRequired) <==>
      && r !in {Some(InvalidEvent), Some(PhotoRequired)}
      && e.kind in {RiderArrivedAtLocker, PackagePickedUp, PackageDelivered, DeliveryFailed, PackageReturnedToLocker,
                    RiderInTransit, RiderArrivedAtDestination}
      && e.location == None
  {
    if e.kind == Unlisted("") then Some(InvalidEvent)
    else if e.deliveryID == NIL_ID then Some(InvalidEvent)
    else if e.occurredAt == ZERO_TIME then Some(InvalidEvent)
    else if RequiresPhoto(e.kind) && |e.PhotoList()| == 0 then Some(PhotoRequired)
    else if RequiresGPS(e.kind) && e.location == None then Some(GPSRequired)
    else None
  }
}
