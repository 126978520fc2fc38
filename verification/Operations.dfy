/** The service calls as functions of the whole state, each run alone from start
    to end: booking, dispatch, custody and webhook. The stores do not fail. */
module Operations {
  import opened Common
  import opened Events
  import opened Encoding
  import opened CustodyStore
  import opened Recording
  import opened StateGraph
  import opened Deliveries
  import opened Repositories
  import opened Carriers
  import opened Strategies
  import opened RoutingEngine

  /** One successful `CreateShipment`, as the carrier saw it. */
  datatype Shipment = Shipment(deliveryID: Id, idempotencyKey: Option<Id>, carrierID: string)

  datatype World = World(
    store: Store,
    deliveries: Table,
    awbs: AwbTable,
    shipments: seq<Shipment>,
    clock: int)

  // ------------------------------------------------------------------- booking

  datatype BookingInput = BookingInput(
    retailerID: Id,
    externalAWB: string, externalCarrier: string,
    pickupLockerID: string, pickupLat: Float64, pickupLng: Float64, pickupAddress: string,
    dropLat: Float64, dropLng: Float64, dropAddress: string,
    dropFloor: string, dropApartment: string, dropInstructions: string,
    weightKg: real,
    slotStart: int, slotEnd: int,
    lastMileCarrier: string)

  /** What is drawn or computed outside: two UUIDs, a random AWB number, a price. */
  datatype BookingDraw = BookingDraw(awbID: Id, internalAWB: string, deliveryID: Id, quoteMinor: int, currency: string)

  /** `awb.New` with `validatePackage`; `None` is its error. */
  function NewAwb(id: Id, internalAWB: string, retailerID: Id, weightKg: real,
                  lengthCm: real, widthCm: real, heightCm: real): Option<Awb> {
    if weightKg <= 0.0 then None
    else if weightKg > 50.0 then None
    else if lengthCm > 100.0 || widthCm > 100.0 || heightCm > 100.0 then None
    else Some(Awb(id, internalAWB, retailerID, [], weightKg, lengthCm, widthCm, heightCm, Created, ""))
  }

  /** Attaching the same pair twice is a no-op. */
  function AttachExternal(a: Awb, carrier: string, number: string): Awb {
    if ExternalRef(carrier, number) in a.externals then a
    else a.(externals := a.externals + [ExternalRef(carrier, number)])
  }

  /** Everything `CreateBooking` does before its two saves. */
  function PrepareBooking(x: BookingInput, draw: BookingDraw, now: int): Option<(Awb, Snapshot)> {
    if x.slotEnd < x.slotStart then None
    else
      var weight := if x.weightKg <= 0.0 then 1.0 else x.weightKg;
      var created := NewAwb(draw.awbID, draw.internalAWB, x.retailerID, weight, 0.0, 0.0, 0.0);
      if created.None? then None
      else
        var attached := if x.externalAWB != "" then AttachExternal(created.value, x.externalCarrier, x.externalAWB)
                        else created.value;
        var a := attached.(state := AwbState.AtLocker, stateReason := "customer_requested_concierge");
        var carrierID := if x.lastMileCarrier == "" then "bolt_food" else x.lastMileCarrier;
        var leg := NewDelivery(
          draw.deliveryID, a.id, 1, carrierID, "v1",
          Location(LocationType.AtLocker, x.pickupLat, x.pickupLng, x.pickupAddress, x.pickupLockerID, "", "", "", ""),
          Location(AtAddress, x.dropLat, x.dropLng, x.dropAddress, "", "",
                   x.dropFloor, x.dropApartment, x.dropInstructions));
        if leg.None? then None
        else
          var scheduled := Schedule(leg.value, x.slotStart, x.slotEnd, now);
          if scheduled.None? then None
          else Some((a, scheduled.value.(
            idempotencyKey := Some(draw.deliveryID),
            priceQuotedMinor := draw.quoteMinor,
            priceCurrency := draw.currency)))
  }

  datatype BookingResult = BookingResult(
    awbID: Id, internalAWB: string, deliveryID: Id, quotedPriceMinor: int, currency: string, state: State)

  function BookingCall(w: World, x: BookingInput, draw: BookingDraw): (World, Option<BookingResult>) {
    match PrepareBooking(x, draw, w.clock)
    case None => (w, None)
    case Some((a, d)) =>
      (w.(awbs := w.awbs.Save(a), deliveries := w.deliveries.Save(d)),
       Some(BookingResult(a.id, a.internalAWB, d.id, d.priceQuotedMinor, d.priceCurrency, d.state)))
  }

  /** A booking is accepted exactly for a non-empty slot that does not start in the
      past and a parcel of at most 50 kg; a weight that is not positive counts as
      one kilogram, and a slot of no length is refused by `Schedule`. */
  lemma BookingAcceptedIff(x: BookingInput, draw: BookingDraw, now: int)
    ensures PrepareBooking(x, draw, now).Some? <==>
      now <= x.slotStart < x.slotEnd && x.weightKg <= 50.0
  {}

  // ------------------------------------------------------------------ dispatch

  datatype ShipmentResponse = ShipmentResponse(
    externalID: string, estimatedPickupAt: Option<int>, estimatedDropAt: Option<int>)

  /** What a dispatch meets outside: the carriers the registry lists, in the order
      it lists them, and how each answers. */
  datatype Outside = Outside(
    strategy: Strategy,
    fleet: seq<Carrier>,
    estimates: Carrier -> Option<Estimate>,
    create: Carrier -> Option<ShipmentResponse>)

  function ToPickupMode(t: LocationType): PickupMode {
    match t
    case AtLocker => PickupMode.PickupLocker
    case AtHub => PickupHub
    case _ => PickupAddress
  }

  function BuildShipmentRequest(a: Awb, d: Snapshot): Request {
    Request(a.internalAWB, d.idempotencyKey, ToPickupMode(d.pickup.kind), a.weightKg, Dims(0.0, 0.0, 0.0))
  }

  /** Routing and `CreateShipment` for a delivery read as pending; `None` if either
      fails. */
  function Ship(a: Awb, d: Snapshot, o: Outside): Option<(Carrier, ShipmentResponse)> {
    match Decide(o.strategy, o.fleet, BuildShipmentRequest(a, d), LastMile, o.estimates)
    case Err(_) => None
    case Ok(decision) =>
      match o.create(decision.chosen)
      case None => None
      case Some(resp) => Some((decision.chosen, resp))
  }

  /** The delivery with its carrier filled in and the transition tried. */
  function Assign(d: Snapshot, c: Carrier, resp: ShipmentResponse): Option<Snapshot> {
    Transition(
      d.(carrierID := c.caps.id, carrierExternalID := resp.externalID,
         estimatedPickupAt := resp.estimatedPickupAt, estimatedDropAt := resp.estimatedDropAt),
      Assigned, "")
  }

  function DispatchCall(w: World, id: Id, o: Outside): (World, bool) {
    if id !in w.deliveries.byID then (w, false)
    else
      var d := w.deliveries.byID[id];
      if d.state != Pending then (w, false)
      else if d.awbID !in w.awbs.byID then (w, false)
      else
        match Ship(w.awbs.byID[d.awbID], d, o)
        case None => (w, false)
        case Some((c, resp)) =>
          var sent := w.(shipments := w.shipments + [Shipment(d.id, d.idempotencyKey, c.caps.id)]);
          match Assign(d, c, resp)
          case None => (sent, false)
          case Some(d') => (sent.(deliveries := w.deliveries.Save(d')), true)
  }

  /** Dispatch copies no parcel dimensions into the request, so the size filter
      passes every carrier whose limits are not negative, whatever the parcel. */
  lemma DispatchIgnoresSize(a: Awb, d: Snapshot, limits: Dims)
    ensures Dimensions.FitsSomeRotation(BuildShipmentRequest(a, d).dims.Sides(), limits.Sides())
       <==> limits.l >= 0.0 && limits.w >= 0.0 && limits.h >= 0.0
  {
    Dimensions.SixRotations(BuildShipmentRequest(a, d).dims.Sides(), limits.Sides());
  }

  /** The carrier takes last-mile legs, the weight, parcels of no stated size and
      pickups of that kind: at a locker only with locker access. */
  predicate Serves(c: Carrier, a: Awb, d: Snapshot) {
    && LastMile in c.caps.roles
    && a.weightKg <= c.caps.maxWeightKg
    && c.caps.maxDims.l >= 0.0 && c.caps.maxDims.w >= 0.0 && c.caps.maxDims.h >= 0.0
    && (match d.pickup.kind
        case AtLocker => PickupMode.PickupLocker in c.caps.pickupModes && c.caps.supportsLocker
        case AtHub => PickupHub in c.caps.pickupModes
        case _ => PickupAddress in c.caps.pickupModes)
  }

  /** The carriers a shipment may go to: listed, able to serve, with an estimate. */
  ghost predicate Offers(o: Outside, a: Awb, d: Snapshot, c: Carrier) {
    c in o.fleet && Serves(c, a, d) && o.estimates(c).Some?
  }

  /** The extremes of the offers' costs and ETAs. */
  ghost predicate OfferRanges(o: Outside, a: Awb, d: Snapshot, minCost: int, maxCost: int, minETA: int, maxETA: int) {
    && (exists c :: Offers(o, a, d, c) && o.estimates(c).value.costMinor == minCost)
    && (exists c :: Offers(o, a, d, c) && o.estimates(c).value.costMinor == maxCost)
    && (exists c :: Offers(o, a, d, c) && o.estimates(c).value.eta == minETA)
    && (exists c :: Offers(o, a, d, c) && o.estimates(c).value.eta == maxETA)
    && (forall c :: Offers(o, a, d, c) ==>
          && minCost <= o.estimates(c).value.costMinor <= maxCost
          && minETA <= o.estimates(c).value.eta <= maxETA)
  }

  /** The best offer by the configured strategy. */
  ghost predicate IsBestOffer(o: Outside, a: Awb, d: Snapshot, best: Carrier) {
    && Offers(o, a, d, best)
    && match o.strategy
       case Cheapest => forall c :: Offers(o, a, d, c) ==>
         o.estimates(best).value.costMinor <= o.estimates(c).value.costMinor
       case Fastest => forall c :: Offers(o, a, d, c) ==> o.estimates(best).value.eta <= o.estimates(c).value.eta
       case Weighted(_, _, _) => exists minCost, maxCost, minETA, maxETA ::
         && OfferRanges(o, a, d, minCost, maxCost, minETA, maxETA)
         && forall c :: Offers(o, a, d, c) ==>
              WeightedSum(o.strategy, o.estimates(c).value, minCost, maxCost, minETA, maxETA)
              <= WeightedSum(o.strategy, o.estimates(best).value, minCost, maxCost, minETA, maxETA)
  }

  lemma OffersAreInPlay(o: Outside, a: Awb, d: Snapshot, c: Carrier)
    ensures Offers(o, a, d, c) <==> InPlay(o.fleet, BuildShipmentRequest(a, d), LastMile, o.estimates, c)
  {
    DispatchIgnoresSize(a, d, c.caps.maxDims);
  }

  lemma DecisionIsBestOffer(a: Awb, d: Snapshot, o: Outside)
    requires Decide(o.strategy, o.fleet, BuildShipmentRequest(a, d), LastMile, o.estimates).Ok?
    ensures var r := Decide(o.strategy, o.fleet, BuildShipmentRequest(a, d), LastMile, o.estimates);
      IsBestOffer(o, a, d, r.value.chosen)
  {
    var req := BuildShipmentRequest(a, d);
    forall c ensures Offers(o, a, d, c) <==> InPlay(o.fleet, req, LastMile, o.estimates, c) {
      OffersAreInPlay(o, a, d, c);
    }
    DecideIsOptimal(o.strategy, o.fleet, req, LastMile, o.estimates);
    if o.strategy.Weighted? {
      var minCost, maxCost, minETA, maxETA := RangesInPlay(o.fleet, req, LastMile, o.estimates);
      DecideWeighs(o.strategy, o.fleet, req, LastMile, o.estimates, minCost, maxCost, minETA, maxETA);
      assert OfferRanges(o, a, d, minCost, maxCost, minETA, maxETA);
    }
  }

  /** A shipment goes to the best offer, which accepts it; none is created exactly
      when there is no offer or the best one refuses. */
  lemma ShipsToBestOffer(a: Awb, d: Snapshot, o: Outside)
    ensures Ship(a, d, o).Some? ==>
      var (c, resp) := Ship(a, d, o).value;
      IsBestOffer(o, a, d, c) && o.create(c) == Some(resp)
    ensures Ship(a, d, o).None? ==>
      || (forall c :: !Offers(o, a, d, c))
      || (exists c :: IsBestOffer(o, a, d, c) && o.create(c).None?)
  {
    var req := BuildShipmentRequest(a, d);
    DecideErrorsExactly(o.strategy, o.fleet, req, LastMile, o.estimates);
    if Decide(o.strategy, o.fleet, req, LastMile, o.estimates).Ok? {
      DecisionIsBestOffer(a, d, o);
    } else {
      forall c ensures !Offers(o, a, d, c) {
        OffersAreInPlay(o, a, d, c);
      }
    }
  }

  // ------------------------------------------------------------------- custody

  datatype RecordInput = RecordInput(
    deliveryID: Id, kind: EventType, actor: Actor,
    location: Option<GeoPoint>, photos: Option<seq<PhotoRef>>, reason: string)

  function ToEvent(x: RecordInput, now: int): Event {
    Event(NIL_ID, x.deliveryID, 0, x.kind, now, None, x.actor, x.location, x.photos, None, x.reason, [], [], [])
  }

  /** `applyDeliveryTransition`; `None` is its error. */
  function ApplyDeliveryTransition(d: Snapshot, t: EventType, at: int): Option<Snapshot> {
    match t
    case RiderAssigned => Transition(d, Assigned, "")
    case RiderArrivedAtLocker => Transition(d, EnRoutePickup, "")
    case PackagePickedUp => MarkPickedUp(d, at)
    case RiderInTransit => Transition(d, InTransit, "")
    case RiderArrivedAtDestination => Transition(d, EnRouteDrop, "")
    case PackageDelivered => MarkDelivered(d, at)
    case DeliveryFailed => MarkFailed(d, "custody_event")
    case _ => Some(d)
  }

  datatype RecordOutcome =
    | NoDelivery
    | NotRecorded(error: RecordError)
    | RecordedOnly(e: Event)      // recorded, but the transition was refused
    | RecordedAndSaved(e: Event)

  /** What follows once the ledger has answered: the transition and, unless it is
      refused, the save. `elapsed` is the time since the event's time stamp. */
  function FinishRecord(w: World, d: Snapshot, kind: EventType, st': Store, r: Result<Event, RecordError>,
                        elapsed: nat): (World, RecordOutcome) {
    match r
    case Err(err) => (w, NotRecorded(err))
    case Ok(e) =>
      var v := w.(store := st', clock := w.clock + elapsed);
      match ApplyDeliveryTransition(d, kind, v.clock)
      case None => (v, RecordedOnly(e))
      case Some(d') => (v.(deliveries := w.deliveries.Save(d')), RecordedAndSaved(e))
  }

  function RecordCall(env: Env, w: World, x: RecordInput, eventID: Id, elapsed: nat): (World, RecordOutcome) {
    if x.deliveryID !in w.deliveries.byID then (w, NoDelivery)
    else
      var (st', r) := RecordEvent(env, w.store, ToEvent(x, w.clock), eventID);
      FinishRecord(w, w.deliveries.byID[x.deliveryID], x.kind, st', r, elapsed)
  }

  /** The answer of the ledger and what was made of it; an error left the store as it
      was. */
  lemma RecordCallIs(env: Env, w: World, x: RecordInput, eventID: Id, elapsed: nat)
    returns (st': Store, r: Result<Event, RecordError>)
    requires x.deliveryID in w.deliveries.byID
    ensures (st', r) == RecordEvent(env, w.store, ToEvent(x, w.clock), eventID) && (r.Err? ==> st' == w.store)
    ensures RecordCall(env, w, x, eventID, elapsed)
         == FinishRecord(w, w.deliveries.byID[x.deliveryID], x.kind, st', r, elapsed)
  {
    st' := RecordEvent(env, w.store, ToEvent(x, w.clock), eventID).0;
    r := RecordEvent(env, w.store, ToEvent(x, w.clock), eventID).1;
  }

  // ------------------------------------------------------------------- webhook

  datatype PortPoint = PortPoint(lat: Float64, lng: Float64, accuracyM: Float64)

  datatype CarrierEvent =
    | OnRiderAssigned(rider: Rider)
    | OnRiderArrivedAtPickup(location: Option<PortPoint>, photoURL: string)
    | OnPackagePickedUp(location: Option<PortPoint>, photoURL: string)
    | OnPackageDelivered(location: Option<PortPoint>, photoURL: string)
    | OnDeliveryFailed(location: Option<PortPoint>, photoURL: string, reason: string)
    | OnShipmentCancelled(reason: string)
    | OnRiderInTransit
    | OnRiderArrivedAtDestination
    | OnPackageReturnedToLocker

  /** The bits of 999.0. */
  const METRES_999: Float64 := 0x408F_3800_0000_0000

  const UNKNOWN_PLACE := GeoPoint(PLUS_ZERO, PLUS_ZERO, METRES_999, PLUS_ZERO, PLUS_ZERO)

  const PENDING_DIGEST := "webhook-pending"

  const PLACEHOLDER_PHOTO :=
    PhotoRef("s3://dashfetchr-pod/pending/webhook.jpg", PENDING_DIGEST, "", 0, 0, None)

  /** `recordCustody`: the input built for a carrier's event, with a placeholder
      photo and location where the policy demands one and the carrier sent none. */
  function CustodyInput(deliveryID: Id, t: EventType, carrierID: string,
                        loc: Option<PortPoint>, photoURL: string, reason: string): RecordInput {
    var location :=
      if loc.Some? then Some(GeoPoint(loc.value.lat, loc.value.lng, loc.value.accuracyM, PLUS_ZERO, PLUS_ZERO))
      else if RequiresGPS(t) then Some(UNKNOWN_PLACE)
      else None;
    var photos :=
      if photoURL != "" then Some([PhotoRef(photoURL, PENDING_DIGEST, "", 0, 0, None)])
      else if RequiresPhoto(t) then Some([PLACEHOLDER_PHOTO])
      else None;
    RecordInput(deliveryID, t, Actor("carrier", carrierID, "", ""), location, photos, reason)
  }

  function RiderInput(deliveryID: Id, carrierID: string, r: Rider): RecordInput {
    RecordInput(deliveryID, RiderAssigned, Actor("rider", carrierID, r.id, r.name), None, None, "")
  }

  /** The copy a webhook saves before anything is recorded, if it saves one. */
  function WebhookCopy(d: Snapshot, ev: CarrierEvent): Option<Snapshot> {
    match ev
    case OnRiderAssigned(r) =>
      if r.id == "" then None
      else
        var moved := if d.state == Pending then Transition(d, Assigned, "") else None;
        Some((if moved.Some? then moved.value else d).(rider := Some(r)))
    case OnShipmentCancelled(reason) =>
      var cancelled := Cancel(d, reason);
      Some(if cancelled.Some? then cancelled.value else d)
    case _ => None
  }

  /** What a webhook hands to the custody service, if anything. */
  function WebhookRecord(deliveryID: Id, carrierID: string, ev: CarrierEvent): Option<RecordInput> {
    match ev
    case OnRiderAssigned(r) => Some(RiderInput(deliveryID, carrierID, r))
    case OnRiderArrivedAtPickup(loc, url) =>
      Some(CustodyInput(deliveryID, RiderArrivedAtLocker, carrierID, loc, url, ""))
    case OnPackagePickedUp(loc, url) => Some(CustodyInput(deliveryID, PackagePickedUp, carrierID, loc, url, ""))
    case OnPackageDelivered(loc, url) => Some(CustodyInput(deliveryID, PackageDelivered, carrierID, loc, url, ""))
    case OnDeliveryFailed(loc, url, reason) =>
      Some(CustodyInput(deliveryID, DeliveryFailed, carrierID, loc, url, reason))
    case _ => None
  }

  /** The state after a webhook saved its copy, if it has one. */
  function AfterCopy(w: World, ev: CarrierEvent, target: Id): World
    requires target in w.deliveries.byID
  {
    match WebhookCopy(w.deliveries.byID[target], ev)
    case None => w
    case Some(d') => w.(deliveries := w.deliveries.Save(d'))
  }

  /** `handleDomainEvent` once `target` was found for the carrier's external id. The
      error, if there is one, is the custody service's. */
  function WebhookCall(env: Env, w: World, carrierID: string, ev: CarrierEvent, target: Id, eventID: Id,
                       elapsed: nat): (World, Option<RecordOutcome>) {
    if target !in w.deliveries.byID then (w, None)
    else
      match WebhookRecord(w.deliveries.byID[target].id, carrierID, ev)
      case None => (AfterCopy(w, ev, target), None)
      case Some(x) =>
        var (w', r) := RecordCall(env, AfterCopy(w, ev, target), x, eventID, elapsed);
        (w', Some(r))
  }

  /** A webhook event is never refused for lack of evidence: whatever the carrier
      left out, the placeholders satisfy the policy. */
  lemma WebhookEvidenceAlwaysValid(deliveryID: Id, carrierID: string, ev: CarrierEvent, now: int)
    requires deliveryID != NIL_ID && now != ZERO_TIME
    requires WebhookRecord(deliveryID, carrierID, ev).Some?
    ensures Validate(ToEvent(WebhookRecord(deliveryID, carrierID, ev).value, now)).None?
  {}
}
