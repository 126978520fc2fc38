/** What a booking, a dispatch, a custody record and a carrier's webhook leave
    behind, each run alone: every field, in terms of what the caller gave and not of
    the functions that do it. */
module Effects {
  import opened Common
  import opened Events
  import opened Encoding
  import opened HashChain
  import opened RowCodec
  import opened CustodyStore
  import opened Recording
  import opened StateGraph
  import opened Deliveries
  import opened Repositories
  import opened Operations
  import opened Interleaving
  import opened Sequential
  import opened SequentialTheorems

  // ------------------------------------------------------------------- booking

  /** An accepted booking stores exactly this AWB and this leg and answers with
      their keys, the quote and the state. */
  lemma BookingDoes(w: World, x: BookingInput, draw: BookingDraw)
    requires BookingCall(w, x, draw).1.Some?
    ensures var (w', r) := BookingCall(w, x, draw);
      && w'.awbs.byID == w.awbs.byID[draw.awbID := Awb(
           id := draw.awbID, internalAWB := draw.internalAWB, retailerID := x.retailerID,
           externals := if x.externalAWB == "" then [] else [ExternalRef(x.externalCarrier, x.externalAWB)],
           weightKg := if x.weightKg <= 0.0 then 1.0 else x.weightKg, lengthCm := 0.0, widthCm := 0.0, heightCm := 0.0,
           state := AwbState.AtLocker, stateReason := "customer_requested_concierge")]
      && w'.awbs.byAWB == w.awbs.byAWB[draw.internalAWB := draw.awbID]
      && w'.deliveries.byID == w.deliveries.byID[draw.deliveryID := Snapshot(
           id := draw.deliveryID, awbID := draw.awbID, legNumber := 1,
           carrierID := if x.lastMileCarrier == "" then "bolt_food" else x.lastMileCarrier,
           carrierVersion := "v1", carrierExternalID := "",
           pickup := Location(
             kind := LocationType.AtLocker, lat := x.pickupLat, lng := x.pickupLng, address := x.pickupAddress,
             lockerID := x.pickupLockerID, hubID := "", floor := "", apartment := "", instructions := ""),
           drop := Location(
             kind := AtAddress, lat := x.dropLat, lng := x.dropLng, address := x.dropAddress,
             lockerID := "", hubID := "",
             floor := x.dropFloor, apartment := x.dropApartment, instructions := x.dropInstructions),
           windowStart := Some(x.slotStart), windowEnd := Some(x.slotEnd),
           state := Pending, stateReason := "", rider := None,
           priceQuotedMinor := draw.quoteMinor, priceCurrency := draw.currency,
           estimatedPickupAt := None, estimatedDropAt := None, actualPickupAt := None, actualDropAt := None,
           idempotencyKey := Some(draw.deliveryID))]
      && w'.store == w.store && w'.shipments == w.shipments && w'.clock == w.clock
      && r.value == BookingResult(
           awbID := draw.awbID, internalAWB := draw.internalAWB, deliveryID := draw.deliveryID,
           quotedPriceMinor := draw.quoteMinor, currency := draw.currency, state := Pending)
  {
    var ref := ExternalRef(x.externalCarrier, x.externalAWB);
    assert [] + [ref] == [ref];
  }

  // ------------------------------------------------------------------ dispatch

  /** The delivery went to the best offer, which accepted it. */
  ghost predicate Dispatched(o: Outside, a: Awb, d: Snapshot, d': Snapshot) {
    exists c :: IsBestOffer(o, a, d, c) && o.create(c).Some? && d' == d.(
      carrierID := c.caps.id, carrierExternalID := o.create(c).value.externalID,
      estimatedPickupAt := o.create(c).value.estimatedPickupAt, estimatedDropAt := o.create(c).value.estimatedDropAt,
      state := Assigned, stateReason := "")
  }

  /** There is no offer, or the best one refuses. */
  ghost predicate Unserved(o: Outside, a: Awb, d: Snapshot) {
    || (forall c :: !Offers(o, a, d, c))
    || (exists c :: IsBestOffer(o, a, d, c) && o.create(c).None?)
  }

  /** A dispatch assigns a pending delivery to the best offer and ships it under its
      own key, or does nothing: the delivery is not pending, its AWB is missing, or
      there is no offer or the best one refuses. */
  lemma DispatchDoes(w: World, id: Id, o: Outside)
    requires w.deliveries.Keyed()
    ensures var (w', ok) := DispatchCall(w, id, o);
      && (ok ==>
            && id in w.deliveries.byID && w.deliveries.byID[id].state == Pending
            && w.deliveries.byID[id].awbID in w.awbs.byID
            && id in w'.deliveries.byID
            && Dispatched(o, w.awbs.byID[w.deliveries.byID[id].awbID], w.deliveries.byID[id], w'.deliveries.byID[id])
            && w'.deliveries.byID == w.deliveries.byID[id := w'.deliveries.byID[id]]
            && w'.shipments == w.shipments + [
                 Shipment(id, w.deliveries.byID[id].idempotencyKey, w'.deliveries.byID[id].carrierID)]
            && w'.store == w.store && w'.awbs == w.awbs && w'.clock == w.clock)
      && (!ok ==>
            && w' == w
            && (id in w.deliveries.byID && w.deliveries.byID[id].state == Pending
                && w.deliveries.byID[id].awbID in w.awbs.byID ==>
                Unserved(o, w.awbs.byID[w.deliveries.byID[id].awbID], w.deliveries.byID[id])))
  {
    if id in w.deliveries.byID && w.deliveries.byID[id].state == Pending && w.deliveries.byID[id].awbID in w.awbs.byID {
      var d := w.deliveries.byID[id];
      var a := w.awbs.byID[d.awbID];
      ShipsToBestOffer(a, d, o);
      if Ship(a, d, o).Some? {
        var (c, resp) := Ship(a, d, o).value;
        assert IsBestOffer(o, a, d, c) && o.create(c) == Some(resp);
      }
    }
  }

  // ------------------------------------------------------------- what is listed

  /** Equal, or a negative zero that lost its sign. */
  predicate SameNumber(x: Float64, y: Float64) {
    y == x || (x == NEGATIVE_ZERO && y == PLUS_ZERO)
  }

  predicate SamePlace(g: Option<GeoPoint>, h: Option<GeoPoint>) {
    && g.Some? == h.Some?
    && (g.Some? ==>
          && SameNumber(g.value.lat, h.value.lat) && SameNumber(g.value.lng, h.value.lng)
          && SameNumber(g.value.accuracyM, h.value.accuracyM)
          && SameNumber(g.value.altitude, h.value.altitude) && SameNumber(g.value.heading, h.value.heading))
  }

  predicate SamePhotos(ps: seq<PhotoRef>, qs: seq<PhotoRef>) {
    && |ps| == |qs|
    && forall i :: 0 <= i < |ps| ==>
         qs[i] == ps[i].(exifGPS := qs[i].exifGPS) && SamePlace(ps[i].exifGPS, qs[i].exifGPS)
  }

  /** The event has what was given, and the time: as it is in memory, in the table up
      to the sign of zeros, whole microseconds and the difference between no photos
      and an empty list of them. */
  predicate HoldsInput(table: bool, e: Event, x: RecordInput, at: int) {
    && e.deliveryID == x.deliveryID && e.kind == x.kind && e.actor == x.actor && e.reason == x.reason
    && e.carrierTime == None && e.signature == None && e.metadata == []
    && if table then
         && e.occurredAt == at / 1000 * 1000
         && SamePlace(x.location, e.location)
         && e.photos.Some? && SamePhotos(if x.photos.Some? then x.photos.value else [], e.photos.value)
       else e.occurredAt == at && e.location == x.location && e.photos == x.photos
  }

  lemma SealHoldsInput(env: Env, x: RecordInput, now: int, tail: Option<Event>, id: Id)
    requires Seal(env, ToEvent(x, now), tail, id).Some?
    ensures HoldsInput(false, Seal(env, ToEvent(x, now), tail, id).value, x, now)
  {}

  lemma StoredHoldsInput(env: Env, f: Event, x: RecordInput, at: int)
    requires LawfulColumns(env) && HoldsInput(false, f, x, at)
    ensures HoldsInput(true, AsStored(env, f), x, at)
  {
    assert env.jsonb(EMPTY_OBJECT) == EMPTY_OBJECT;
  }

  /** An accepted record puts one event at the end of its delivery's list: the drawn
      id, the next number, the time of the call and the input as it was given. */
  lemma RecordedAsGiven(env: Env, w: World, x: RecordInput, id: Id, elapsed: nat)
    requires Trusted(env, w.store) && Sequenced(env, w.store) && FreshEvent(w.store, id)
    ensures var (w', r) := RecordCall(env, w, x, id, elapsed);
      var es, es' := EventsOf(env, w.store, x.deliveryID), EventsOf(env, w'.store, x.deliveryID);
      && (!Accepted(r) ==> es' == es)
      && (Accepted(r) ==>
            && |es'| == |es| + 1 && es'[..|es|] == es
            && es'[|es|].eventID == id && es'[|es|].sequenceNum == |es|
            && HoldsInput(w.store.Postgres?, es'[|es|], x, w.clock)
            && r.e.eventID == id && r.e.sequenceNum == |es| && HoldsInput(false, r.e, x, w.clock))
  {
    var (w', r) := RecordCall(env, w, x, id, elapsed);
    RecordLedger(env, w, x, id, elapsed);
    if Accepted(r) {
      var es := EventsOf(env, w.store, x.deliveryID);
      AcceptedIsSealed(env, w, x, id, elapsed);
      SealHoldsInput(env, x, w.clock, LastOf(es), id);
      SealNumbers(env, es, |es|, ToEvent(x, w.clock), id);
      if w.store.Postgres? {
        StoredHoldsInput(env, r.e, x, w.clock);
      }
    }
  }

  lemma AcceptedIsSealed(env: Env, w: World, x: RecordInput, id: Id, elapsed: nat)
    requires Trusted(env, w.store) && Sequenced(env, w.store) && FreshEvent(w.store, id)
    requires Accepted(RecordCall(env, w, x, id, elapsed).1)
    ensures var es := EventsOf(env, w.store, x.deliveryID);
      es[..|es|] == es &&
      Seal(env, ToEvent(x, w.clock), LastOf(es), id) == Some(RecordCall(env, w, x, id, elapsed).1.e)
  {
    var es := EventsOf(env, w.store, x.deliveryID);
    assert es[..|es|] == es;
    RecordExtendsOwnList(env, w.store, ToEvent(x, w.clock), id);
    var st', r := RecordCallIs(env, w, x, id, elapsed);
  }

  /** Where everything marshals, a record is accepted exactly for a stored delivery, a
      type, a time, and the photo and location the type demands. */
  lemma RecordAcceptedIff(env: Env, w: World, x: RecordInput, id: Id, elapsed: nat)
    requires Trusted(env, w.store) && Sequenced(env, w.store) && FreshEvent(w.store, id)
    requires forall p: Payload :: env.marshal(p).Some?
    ensures Accepted(RecordCall(env, w, x, id, elapsed).1) <==>
      && x.deliveryID in w.deliveries.byID && x.deliveryID != NIL_ID
      && x.kind != Unlisted("") && w.clock != ZERO_TIME
      && (x.kind in {RiderArrivedAtLocker, PackagePickedUp, PackageDelivered, DeliveryFailed, PackageReturnedToLocker}
          ==> x.location.Some? && x.photos.Some? && |x.photos.value| > 0)
      && (x.kind in {RiderInTransit, RiderArrivedAtDestination} ==> x.location.Some?)
  {
    if x.deliveryID in w.deliveries.byID {
      RecordExtendsOwnList(env, w.store, ToEvent(x, w.clock), id);
      var st', r := RecordCallIs(env, w, x, id, elapsed);
    }
  }

  // ------------------------------------------------------- what becomes of a leg

  /** The delivery after an event of a kind at a time: what changes, and from which
      states. */
  ghost function Moved(d: Snapshot, kind: EventType, at: int): Snapshot {
    match kind
    case RiderAssigned =>
      if d.state in {Pending, Failed} then d.(state := Assigned, stateReason := "") else d
    case RiderArrivedAtLocker =>
      if d.state == Assigned then d.(state := EnRoutePickup, stateReason := "") else d
    case PackagePickedUp =>
      if d.state == EnRoutePickup then d.(state := PickedUp, stateReason := "", actualPickupAt := Some(at)) else d
    case RiderInTransit =>
      if d.state == PickedUp then d.(state := InTransit, stateReason := "") else d
    case RiderArrivedAtDestination =>
      if d.state in {PickedUp, InTransit} then d.(state := EnRouteDrop, stateReason := "") else d
    case PackageDelivered =>
      if d.state in {InTransit, EnRouteDrop} then d.(state := Delivered, stateReason := "", actualDropAt := Some(at))
      else d
    case DeliveryFailed =>
      if d.state in {Assigned, EnRoutePickup, PickedUp, InTransit, EnRouteDrop}
      then d.(state := Failed, stateReason := "custody_event") else d
    case _ => d
  }

  lemma TransitionIsMove(d: Snapshot, kind: EventType, at: int)
    ensures var moved := ApplyDeliveryTransition(d, kind, at);
      Moved(d, kind, at) == if moved.Some? then moved.value else d
    ensures ApplyDeliveryTransition(d, kind, at).None? <==> Moved(d, kind, at) == d && kind in {
      RiderAssigned, RiderArrivedAtLocker, PackagePickedUp, RiderInTransit, RiderArrivedAtDestination,
      PackageDelivered, DeliveryFailed}
  {}

  /** An accepted record moves its own delivery as its kind says, at the time of the
      move, and no other; it was only recorded if its kind has a transition that was
      refused. A refused record changes nothing. */
  lemma RecordMoves(env: Env, w: World, x: RecordInput, id: Id, elapsed: nat)
    requires w.deliveries.Keyed()
    ensures var (w', r) := RecordCall(env, w, x, id, elapsed);
      && (r.NoDelivery? <==> x.deliveryID !in w.deliveries.byID)
      && (!Accepted(r) ==> w' == w)
      && (Accepted(r) ==>
            && x.deliveryID in w.deliveries.byID && w'.clock == w.clock + elapsed
            && w'.awbs == w.awbs && w'.shipments == w.shipments
            && var d' := Moved(w.deliveries.byID[x.deliveryID], x.kind, w'.clock);
               && w'.deliveries.byID == w.deliveries.byID[x.deliveryID := d']
               && (r.RecordedOnly? <==> d' == w.deliveries.byID[x.deliveryID] && x.kind in {
                     RiderAssigned, RiderArrivedAtLocker, PackagePickedUp, RiderInTransit, RiderArrivedAtDestination,
                     PackageDelivered, DeliveryFailed}))
  {
    if x.deliveryID in w.deliveries.byID {
      var st', r := RecordCallIs(env, w, x, id, elapsed);
      FinishMoves(w, w.deliveries.byID[x.deliveryID], x.kind, st', r, elapsed);
    }
  }

  lemma FinishMoves(w: World, d: Snapshot, kind: EventType, st': Store, r: Result<Event, RecordError>, elapsed: nat)
    requires w.deliveries.Keyed() && d.id in w.deliveries.byID && w.deliveries.byID[d.id] == d
    ensures var (w', out) := FinishRecord(w, d, kind, st', r, elapsed);
      && (r.Err? ==> w' == w && out == NotRecorded(r.error))
      && (r.Ok? ==>
            && w'.clock == w.clock + elapsed && w'.awbs == w.awbs && w'.shipments == w.shipments && w'.store == st'
            && w'.deliveries.byID == w.deliveries.byID[d.id := Moved(d, kind, w'.clock)]
            && out == if Moved(d, kind, w'.clock) == d && kind in {
                        RiderAssigned, RiderArrivedAtLocker, PackagePickedUp, RiderInTransit,
                        RiderArrivedAtDestination, PackageDelivered, DeliveryFailed}
                      then RecordedOnly(r.value) else RecordedAndSaved(r.value))
  {
    TransitionIsMove(d, kind, w.clock + elapsed);
    assert w.deliveries.byID[d.id := d] == w.deliveries.byID;
  }

  // ------------------------------------------------------------------ webhooks

  /** A checkpoint as a carrier reports it: its own place and photo where it sent
      them, else the placeholders, since all four kinds demand both. */
  predicate Checkpoint(table: bool, e: Event, kind: EventType, carrierID: string, loc: Option<PortPoint>,
                       photoURL: string, reason: string)
  {
    var place := if loc.Some? then GeoPoint(loc.value.lat, loc.value.lng, loc.value.accuracyM, PLUS_ZERO, PLUS_ZERO)
                 else GeoPoint(PLUS_ZERO, PLUS_ZERO, METRES_999, PLUS_ZERO, PLUS_ZERO);
    && e.kind == kind && e.actor == Actor("carrier", carrierID, "", "") && e.reason == reason
    && (if table then SamePlace(Some(place), e.location) else e.location == Some(place))
    && e.photos == Some([PhotoRef(
         s3URI := if photoURL != "" then photoURL else "s3://dashfetchr-pod/pending/webhook.jpg",
         sha256 := "webhook-pending", contentType := "", width := 0, height := 0, exifGPS := None)])
  }

  /** The event a carrier's report puts into the list of its delivery; none for a
      cancellation and for the reports that are not handled. */
  predicate Reports(table: bool, e: Event, target: Id, carrierID: string, ev: CarrierEvent, at: int) {
    && e.deliveryID == target && e.occurredAt == (if table then at / 1000 * 1000 else at)
    && e.carrierTime == None && e.signature == None && e.metadata == []
    && match ev
       case OnRiderAssigned(r) =>
         && e.kind == RiderAssigned && e.actor == Actor("rider", carrierID, r.id, r.name)
         && e.location == None && e.PhotoList() == [] && e.reason == ""
       case OnRiderArrivedAtPickup(loc, url) => Checkpoint(table, e, RiderArrivedAtLocker, carrierID, loc, url, "")
       case OnPackagePickedUp(loc, url) => Checkpoint(table, e, PackagePickedUp, carrierID, loc, url, "")
       case OnPackageDelivered(loc, url) => Checkpoint(table, e, PackageDelivered, carrierID, loc, url, "")
       case OnDeliveryFailed(loc, url, why) => Checkpoint(table, e, DeliveryFailed, carrierID, loc, url, why)
       case _ => false
  }

  lemma InputReports(table: bool, e: Event, target: Id, carrierID: string, ev: CarrierEvent, at: int)
    requires WebhookRecord(target, carrierID, ev).Some?
    requires HoldsInput(table, e, WebhookRecord(target, carrierID, ev).value, at)
    ensures Reports(table, e, target, carrierID, ev, at)
  {
    var x := WebhookRecord(target, carrierID, ev).value;
    if table && x.photos.Some? {
      assert SamePhotos(x.photos.value, e.photos.value);
      assert e.photos.value == [e.photos.value[0]];
    }
  }

  /** The delivery after a carrier's report at a time; `recorded` is whether the
      ledger took its event. The rider is kept and a cancellation made in any case. */
  ghost function Reported(d: Snapshot, ev: CarrierEvent, recorded: bool, at: int): Snapshot {
    match ev
    case OnRiderAssigned(r) =>
      var named := if r.id == "" then d else d.(rider := Some(r));
      if recorded && d.state == Failed then named.(state := Assigned, stateReason := "") else named
    case OnRiderArrivedAtPickup(_, _) => if recorded then Moved(d, RiderArrivedAtLocker, at) else d
    case OnPackagePickedUp(_, _) => if recorded then Moved(d, PackagePickedUp, at) else d
    case OnPackageDelivered(_, _) => if recorded then Moved(d, PackageDelivered, at) else d
    case OnDeliveryFailed(_, _, _) => if recorded then Moved(d, DeliveryFailed, at) else d
    case OnShipmentCancelled(why) =>
      if d.state in {Assigned, EnRoutePickup} then d.(state := Cancelled, stateReason := why) else d
    case _ => d
  }

  lemma CopyIs(w: World, ev: CarrierEvent, target: Id, v: World)
    requires w.deliveries.Keyed() && target in w.deliveries.byID && w.deliveries.byID[target].state != Pending
    requires v == AfterCopy(w, ev, target)
    ensures v == w.(deliveries := v.deliveries) && v.deliveries.Keyed()
    ensures v.deliveries.byID == w.deliveries.byID[target := Reported(w.deliveries.byID[target], ev, false, 0)]
  {
    var d := w.deliveries.byID[target];
    assert w.deliveries.byID[target := d] == w.deliveries.byID;
  }

  lemma ReportedTwice(d: Snapshot, target: Id, carrierID: string, ev: CarrierEvent, at: int)
    requires d.state != Pending && WebhookRecord(target, carrierID, ev).Some?
    ensures Moved(Reported(d, ev, false, 0), WebhookRecord(target, carrierID, ev).value.kind, at)
         == Reported(d, ev, true, at)
  {}

  /** What a webhook that finds its delivery does. Its list grows by the reported
      event at most, with the drawn id and the next number; it does grow if
      everything marshals and the report is one that is recorded. The delivery is
      left as reported; no other delivery and no other list changes. */
  lemma WebhookDoes(env: Env, w: World, cmd: Command, w': World)
    requires Trusted(env, w.store) && Sequenced(env, w.store) && SequentialOk(w)
    requires cmd.Webhook? && FreshEvent(w.store, cmd.eventID) && cmd.target in w.deliveries.byID
    requires w.deliveries.byID[cmd.target].carrierID == cmd.carrierID
    requires w.deliveries.byID[cmd.target].carrierExternalID == cmd.externalID != ""
    requires w' == Perform(env, w, cmd)
    ensures var es, es' := EventsOf(env, w.store, cmd.target), EventsOf(env, w'.store, cmd.target);
      var recorded := es' != es;
      && (recorded ==>
            && |es'| == |es| + 1 && es'[..|es|] == es
            && es'[|es|].eventID == cmd.eventID && es'[|es|].sequenceNum == |es|
            && Reports(w.store.Postgres?, es'[|es|], cmd.target, cmd.carrierID, cmd.ev, w.clock))
      && ((forall p: Payload :: env.marshal(p).Some?) && w.clock != ZERO_TIME ==>
            (recorded <==> cmd.ev.OnRiderAssigned? || cmd.ev.OnRiderArrivedAtPickup? || cmd.ev.OnPackagePickedUp?
                           || cmd.ev.OnPackageDelivered? || cmd.ev.OnDeliveryFailed?))
      && w'.clock == (if recorded then w.clock + cmd.elapsed else w.clock)
      && w'.deliveries.byID ==
           w.deliveries.byID[cmd.target := Reported(w.deliveries.byID[cmd.target], cmd.ev, recorded, w'.clock)]
      && w'.awbs == w.awbs && w'.shipments == w.shipments
      && forall o :: o != cmd.target ==> EventsOf(env, w'.store, o) == EventsOf(env, w.store, o)
  {
    FoundIsNotPending(w, cmd.carrierID, cmd.externalID, cmd.target);
    WebhookIsCopyThenRecord(env, w, cmd);
    var v := AfterCopy(w, cmd.ev, cmd.target);
    CopyIs(w, cmd.ev, cmd.target, v);
    var record := WebhookRecord(cmd.target, cmd.carrierID, cmd.ev);
    if record.Some? {
      RecordedReport(env, w, v, cmd.target, cmd.carrierID, cmd.ev, record.value, cmd.eventID, cmd.elapsed, w');
    }
  }

  /** One that names no delivery by the carrier and its external id does nothing. */
  lemma WebhookSkips(env: Env, w: World, cmd: Command)
    requires cmd.Webhook?
    requires cmd.externalID == "" || cmd.target !in w.deliveries.byID
      || w.deliveries.byID[cmd.target].carrierID != cmd.carrierID
      || w.deliveries.byID[cmd.target].carrierExternalID != cmd.externalID
    ensures Perform(env, w, cmd) == w
  {}

  lemma RecordedReport(env: Env, w: World, v: World, target: Id, carrierID: string, ev: CarrierEvent, x: RecordInput,
                       id: Id, elapsed: nat, w': World)
    requires Trusted(env, w.store) && Sequenced(env, w.store) && FreshEvent(w.store, id)
    requires target in w.deliveries.byID && w.deliveries.byID[target].state != Pending && target != NIL_ID
    requires v == w.(deliveries := v.deliveries) && v.deliveries.Keyed()
    requires v.deliveries.byID == w.deliveries.byID[target := Reported(w.deliveries.byID[target], ev, false, 0)]
    requires WebhookRecord(target, carrierID, ev) == Some(x) && w' == RecordCall(env, v, x, id, elapsed).0
    ensures var es, es' := EventsOf(env, w.store, target), EventsOf(env, w'.store, target);
      var recorded := es' != es;
      && (recorded ==>
            && |es'| == |es| + 1 && es'[..|es|] == es
            && es'[|es|].eventID == id && es'[|es|].sequenceNum == |es|
            && Reports(w.store.Postgres?, es'[|es|], target, carrierID, ev, w.clock))
      && ((forall p: Payload :: env.marshal(p).Some?) && w.clock != ZERO_TIME ==> recorded)
      && w'.clock == (if recorded then w.clock + elapsed else w.clock)
      && w'.deliveries.byID == w.deliveries.byID[target := Reported(w.deliveries.byID[target], ev, recorded, w'.clock)]
      && w'.awbs == w.awbs && w'.shipments == w.shipments
      && forall o :: o != target ==> EventsOf(env, w'.store, o) == EventsOf(env, w.store, o)
  {
    ReportListed(env, v, target, carrierID, ev, x, id, elapsed, w');
    ReportMoves(env, w, v, target, carrierID, ev, x, id, elapsed, w');
  }

  lemma ReportListed(env: Env, v: World, target: Id, carrierID: string, ev: CarrierEvent, x: RecordInput,
                     id: Id, elapsed: nat, w': World)
    requires Trusted(env, v.store) && Sequenced(env, v.store) && FreshEvent(v.store, id)
    requires target in v.deliveries.byID && target != NIL_ID
    requires WebhookRecord(target, carrierID, ev) == Some(x) && w' == RecordCall(env, v, x, id, elapsed).0
    ensures var es, es' := EventsOf(env, v.store, target), EventsOf(env, w'.store, target);
      && (es' != es <==> Accepted(RecordCall(env, v, x, id, elapsed).1))
      && (es' != es ==>
            && |es'| == |es| + 1 && es'[..|es|] == es
            && es'[|es|].eventID == id && es'[|es|].sequenceNum == |es|
            && Reports(v.store.Postgres?, es'[|es|], target, carrierID, ev, v.clock))
      && ((forall p: Payload :: env.marshal(p).Some?) && v.clock != ZERO_TIME ==> es' != es)
      && forall o :: o != target ==> EventsOf(env, w'.store, o) == EventsOf(env, v.store, o)
  {
    var r := RecordCall(env, v, x, id, elapsed).1;
    var es, es' := EventsOf(env, v.store, target), EventsOf(env, w'.store, target);
    RecordLedger(env, v, x, id, elapsed);
    RecordedAsGiven(env, v, x, id, elapsed);
    if Accepted(r) {
      InputReports(v.store.Postgres?, es'[|es|], target, carrierID, ev, v.clock);
    }
    if forall p: Payload :: env.marshal(p).Some? {
      RecordAcceptedIff(env, v, x, id, elapsed);
    }
  }

  lemma ReportMoves(env: Env, w: World, v: World, target: Id, carrierID: string, ev: CarrierEvent, x: RecordInput,
                    id: Id, elapsed: nat, w': World)
    requires target in w.deliveries.byID && w.deliveries.byID[target].state != Pending
    requires v == w.(deliveries := v.deliveries) && v.deliveries.Keyed()
    requires v.deliveries.byID == w.deliveries.byID[target := Reported(w.deliveries.byID[target], ev, false, 0)]
    requires WebhookRecord(target, carrierID, ev) == Some(x) && w' == RecordCall(env, v, x, id, elapsed).0
    ensures var recorded := Accepted(RecordCall(env, v, x, id, elapsed).1);
      && w'.clock == (if recorded then w.clock + elapsed else w.clock)
      && w'.deliveries.byID == w.deliveries.byID[target := Reported(w.deliveries.byID[target], ev, recorded, w'.clock)]
      && w'.awbs == w.awbs && w'.shipments == w.shipments
  {
    RecordMoves(env, v, x, id, elapsed);
    var recorded := Accepted(RecordCall(env, v, x, id, elapsed).1);
    RecordTarget(target, carrierID, ev);
    MovedAsReported(w.deliveries.byID, v.deliveries.byID, w'.deliveries.byID, target, carrierID, ev, x.kind, recorded,
                    w'.clock);
  }

  lemma RecordTarget(target: Id, carrierID: string, ev: CarrierEvent)
    ensures var x := WebhookRecord(target, carrierID, ev);
      x.Some? ==> x.value.deliveryID == target
  {}

  lemma MovedAsReported(t: map<Id, Snapshot>, u: map<Id, Snapshot>, t': map<Id, Snapshot>, target: Id,
                        carrierID: string, ev: CarrierEvent, kind: EventType, recorded: bool, at: int)
    requires target in t && t[target].state != Pending && u == t[target := Reported(t[target], ev, false, 0)]
    requires WebhookRecord(target, carrierID, ev).Some? && WebhookRecord(target, carrierID, ev).value.kind == kind
    requires t' == if recorded then u[target := Moved(u[target], kind, at)] else u
    ensures t' == t[target := Reported(t[target], ev, recorded, at)]
  {
    ReportedTwice(t[target], target, carrierID, ev, at);
    ReportedUnrecorded(t[target], ev, at);
  }

  lemma ReportedUnrecorded(d: Snapshot, ev: CarrierEvent, at: int)
    ensures Reported(d, ev, false, at) == Reported(d, ev, false, 0)
  {}

  /** What it answers: nothing for a cancellation and the reports that are not
      handled, else the outcome of its record, with the event as it was reported. The
      outcome is a save exactly if the record changed the state. */
  lemma WebhookAnswers(env: Env, w: World, carrierID: string, ev: CarrierEvent, target: Id, id: Id, elapsed: nat,
                       w': World, r: Option<RecordOutcome>)
    requires Trusted(env, w.store) && Sequenced(env, w.store) && SequentialOk(w) && FreshEvent(w.store, id)
    requires target in w.deliveries.byID && w.deliveries.byID[target].carrierExternalID != ""
    requires (w', r) == WebhookCall(env, w, carrierID, ev, target, id, elapsed)
    ensures r.Some? <==> ev.OnRiderAssigned? || ev.OnRiderArrivedAtPickup? || ev.OnPackagePickedUp?
                         || ev.OnPackageDelivered? || ev.OnDeliveryFailed?
    ensures r.Some? ==>
      && target in w'.deliveries.byID
      && (Accepted(r.value) <==> EventsOf(env, w'.store, target) != EventsOf(env, w.store, target))
      && (Accepted(r.value) ==> r.value.e.eventID == id && Reports(false, r.value.e, target, carrierID, ev, w.clock))
      && (r.value.RecordedAndSaved? <==> w'.deliveries.byID[target].state != w.deliveries.byID[target].state)
  {
    assert CopyFacts(w, w.deliveries.byID[target]);
    WebhookCallIs(env, w, carrierID, ev, target, id, elapsed);
    var record := WebhookRecord(target, carrierID, ev);
    if record.Some? {
      CopyIs(w, ev, target, AfterCopy(w, ev, target));
      AnswerAfterCopy(env, w, AfterCopy(w, ev, target), target, carrierID, ev, record.value, id, elapsed, w', r.value);
    }
  }

  lemma AnswerAfterCopy(env: Env, w: World, v: World, target: Id, carrierID: string, ev: CarrierEvent, x: RecordInput,
                        id: Id, elapsed: nat, w': World, r: RecordOutcome)
    requires Trusted(env, w.store) && Sequenced(env, w.store) && FreshEvent(w.store, id)
    requires target in w.deliveries.byID && w.deliveries.byID[target].state != Pending && target != NIL_ID
    requires v == w.(deliveries := v.deliveries) && v.deliveries.Keyed()
    requires v.deliveries.byID == w.deliveries.byID[target := Reported(w.deliveries.byID[target], ev, false, 0)]
    requires WebhookRecord(target, carrierID, ev) == Some(x) && (w', r) == RecordCall(env, v, x, id, elapsed)
    ensures target in w'.deliveries.byID
    ensures Accepted(r) <==> EventsOf(env, w'.store, target) != EventsOf(env, w.store, target)
    ensures Accepted(r) ==> r.e.eventID == id && Reports(false, r.e, target, carrierID, ev, w.clock)
    ensures r.RecordedAndSaved? <==> w'.deliveries.byID[target].state != w.deliveries.byID[target].state
  {
    AnswerIs(env, v, target, carrierID, ev, x, id, elapsed, w', r);
  }

  lemma WebhookCallIs(env: Env, w: World, carrierID: string, ev: CarrierEvent, target: Id, id: Id, elapsed: nat)
    requires target in w.deliveries.byID && w.deliveries.byID[target].id == target
    ensures var v, record := AfterCopy(w, ev, target), WebhookRecord(target, carrierID, ev);
      WebhookCall(env, w, carrierID, ev, target, id, elapsed) ==
        if record.None? then (v, None)
        else (RecordCall(env, v, record.value, id, elapsed).0, Some(RecordCall(env, v, record.value, id, elapsed).1))
  {}

  lemma AnswerIs(env: Env, v: World, target: Id, carrierID: string, ev: CarrierEvent, x: RecordInput,
                 id: Id, elapsed: nat, w': World, r: RecordOutcome)
    requires Trusted(env, v.store) && Sequenced(env, v.store) && FreshEvent(v.store, id)
    requires target in v.deliveries.byID && target != NIL_ID && v.deliveries.Keyed()
    requires WebhookRecord(target, carrierID, ev) == Some(x) && (w', r) == RecordCall(env, v, x, id, elapsed)
    ensures target in w'.deliveries.byID
    ensures Accepted(r) <==> EventsOf(env, w'.store, target) != EventsOf(env, v.store, target)
    ensures Accepted(r) ==> r.e.eventID == id && Reports(false, r.e, target, carrierID, ev, v.clock)
    ensures r.RecordedAndSaved? <==> w'.deliveries.byID[target].state != v.deliveries.byID[target].state
  {
    ReportListed(env, v, target, carrierID, ev, x, id, elapsed, w');
    RecordMoves(env, v, x, id, elapsed);
    RecordTarget(target, carrierID, ev);
    if Accepted(r) {
      RecordedAsGiven(env, v, x, id, elapsed);
      InputReports(false, r.e, target, carrierID, ev, v.clock);
      MovedChangesState(v.deliveries.byID[target], x.kind, w'.clock);
    }
  }

  lemma MovedChangesState(d: Snapshot, kind: EventType, at: int)
    ensures Moved(d, kind, at) != d ==> Moved(d, kind, at).state != d.state
  {}
}
