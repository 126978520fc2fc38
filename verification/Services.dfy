/** The four application services as objects over the repositories. Every method
    is proved to do what its value-level function says; UUIDs, clock readings,
    prices and the carriers' answers are parameters. */
module Services {
  import opened Common
  import opened Events
  import opened Encoding
  import opened CustodyStore
  import opened Recording
  import opened LedgerService
  import opened StateGraph
  import opened Deliveries
  import opened Repositories
  import opened Carriers
  import opened Registry
  import opened Strategies
  import opened RoutingEngine
  import opened Operations
  import opened Effects

  /** internal/app/custodyapp/service.go */
  class CustodyService {
    const ledger: Ledger
    const deliveries: DeliveryRepo

    constructor (ledger: Ledger, deliveries: DeliveryRepo)
      ensures this.ledger == ledger && this.deliveries == deliveries
    {
      this.ledger := ledger;
      this.deliveries := deliveries;
    }

    /** What the service sees of the world at a moment. */
    ghost function View(now: int): World
      reads ledger.repo.Objects(), deliveries
    {
      World(ledger.repo.State(), deliveries.State(), AwbTable(map[], map[]), [], now)
    }

    method ApplyTransition(del: Delivery, t: EventType, at: int) returns (ok: bool)
      modifies del
      ensures del.Value() == Moved(old(del.Value()), t, at)
      ensures ok == ApplyDeliveryTransition(old(del.Value()), t, at).Some?
      ensures del.Value() == if ok then ApplyDeliveryTransition(old(del.Value()), t, at).value else old(del.Value())
    {
      TransitionIsMove(del.Value(), t, at);
      match t
      case RiderAssigned => ok := del.Transition(Assigned, "");
      case RiderArrivedAtLocker => ok := del.Transition(EnRoutePickup, "");
      case PackagePickedUp => ok := del.MarkPickedUp(at);
      case RiderInTransit => ok := del.Transition(InTransit, "");
      case RiderArrivedAtDestination => ok := del.Transition(EnRouteDrop, "");
      case PackageDelivered => ok := del.MarkDelivered(at);
      case DeliveryFailed => ok := del.MarkFailed("custody_event");
      case _ => ok := true;
    }

    /** The transition and, unless it is refused, the save. */
    method Move(del: Delivery, t: EventType, at: int) returns (ok: bool)
      modifies del, deliveries
      ensures Moves(ApplyDeliveryTransition(old(del.Value()), t, at), ok)
    {
      ok := ApplyTransition(del, t, at);
      if !ok {
        return;
      }
      var saved := deliveries.Save(del);
    }

    /** The table after a transition that gave `d`, or was refused. */
    twostate predicate Moves(d: Option<Snapshot>, ok: bool)
      reads deliveries
    {
      && ok == d.Some?
      && deliveries.State() == if ok then old(deliveries.State()).Save(d.value) else old(deliveries.State())
    }

    /** The ledger is written before the transition is tried, so a refused
        transition leaves its event behind. */
    method Record(x: RecordInput, eventID: Id, now: int, elapsed: nat) returns (r: RecordOutcome)
      modifies ledger.repo.Objects(), deliveries
      ensures var (w', r') := RecordCall(ledger.env, old(View(now)), x, eventID, elapsed);
        r == r' && ledger.repo.State() == w'.store && deliveries.State() == w'.deliveries
    {
      ghost var w := View(now);
      var del := deliveries.GetByID(x.deliveryID);
      if del == null {
        return NoDelivery;
      }
      assert View(now) == w && del.Value() == w.deliveries.byID[x.deliveryID];
      var recorded, answer := RecordFirst(x, eventID, now);
      assert deliveries.State() == w.deliveries && del.Value() == w.deliveries.byID[x.deliveryID];
      RecordCallAnswered(ledger.env, w, x, eventID, elapsed, answer);
      r := Finish(del, x.kind, recorded, now, elapsed, w, answer.0);
    }

    method RecordFirst(x: RecordInput, eventID: Id, now: int)
      returns (recorded: Result<Event, RecordError>, ghost answer: (Store, Result<Event, RecordError>))
      modifies ledger.repo.Objects()
      ensures answer == RecordEvent(ledger.env, old(ledger.repo.State()), ToEvent(x, now), eventID)
      ensures ledger.repo.State() == answer.0 && recorded == answer.1
    {
      var e := ToEvent(x, now);
      answer := RecordEvent(ledger.env, ledger.repo.State(), e, eventID);
      recorded := ledger.Record(e, eventID);
    }

    /** What follows once the ledger has answered; `w` is the world before. */
    method Finish(del: Delivery, t: EventType, recorded: Result<Event, RecordError>, now: int, elapsed: nat,
                  ghost w: World, ghost st: Store) returns (r: RecordOutcome)
      requires w.deliveries == deliveries.State() && w.clock == now && st == ledger.repo.State()
      requires recorded.Err? ==> st == w.store
      modifies del, deliveries
      ensures var (w', r') := FinishRecord(w, old(del.Value()), t, st, recorded, elapsed);
        r == r' && ledger.repo.State() == w'.store && deliveries.State() == w'.deliveries
    {
      if recorded.Err? {
        return NotRecorded(recorded.error);
      }
      var moved := Move(del, t, now + elapsed);
      if !moved {
        return RecordedOnly(recorded.value);
      }
      return RecordedAndSaved(recorded.value);
    }
  }

  lemma RecordCallAnswered(env: Env, w: World, x: RecordInput, eventID: Id, elapsed: nat,
                           answer: (Store, Result<Event, RecordError>))
    requires x.deliveryID in w.deliveries.byID
    requires answer == RecordEvent(env, w.store, ToEvent(x, w.clock), eventID)
    ensures answer.1.Err? ==> answer.0 == w.store
    ensures RecordCall(env, w, x, eventID, elapsed)
         == FinishRecord(w, w.deliveries.byID[x.deliveryID], x.kind, answer.0, answer.1, elapsed)
  {}

  /** internal/app/webhook/service.go; the outcome returned is that of the custody
      service, `None` when it was not called. Every outcome but `RecordedAndSaved`
      is the error the handler returns. */
  class WebhookService {
    const custody: CustodyService
    const deliveries: DeliveryRepo

    constructor (custody: CustodyService, deliveries: DeliveryRepo)
      requires custody.deliveries == deliveries
      ensures this.custody == custody && this.deliveries == deliveries
    {
      this.custody := custody;
      this.deliveries := deliveries;
    }

    /** `target` is the delivery found for the external id, if any. */
    method HandleDomainEvent(carrierID: string, externalID: string, ev: CarrierEvent,
                             eventID: Id, now: int, elapsed: nat)
      returns (r: Option<RecordOutcome>, ghost target: Option<Id>)
      requires custody.deliveries == deliveries && deliveries.State().Keyed()
      modifies custody.ledger.repo.Objects(), deliveries
      ensures target.None? <==> externalID == "" || forall k :: k in old(deliveries.byID) ==>
        !(old(deliveries.byID)[k].carrierID == carrierID && old(deliveries.byID)[k].carrierExternalID == externalID)
      ensures target.None? ==> r == None && custody.View(now) == old(custody.View(now))
      ensures target.Some? ==>
        && target.value in old(deliveries.byID)
        && old(deliveries.byID)[target.value].carrierID == carrierID
        && old(deliveries.byID)[target.value].carrierExternalID == externalID
      ensures target.Some? ==>
        var (w', r') := WebhookCall(custody.ledger.env, old(custody.View(now)), carrierID, ev, target.value,
                                    eventID, elapsed);
        r == r' && custody.ledger.repo.State() == w'.store && deliveries.State() == w'.deliveries
    {
      if externalID == "" {
        return None, None;
      }
      ghost var w := custody.View(now);
      var del := deliveries.GetByCarrierExternalID(carrierID, externalID);
      assert custody.View(now) == w;
      if del == null {
        return None, None;
      }
      target := Some(del.id);
      r := Handle(del, carrierID, ev, eventID, now, elapsed);
    }

    /** `handleDomainEvent` from the point where the delivery was found. */
    method Handle(del: Delivery, carrierID: string, ev: CarrierEvent, eventID: Id, now: int, elapsed: nat)
      returns (r: Option<RecordOutcome>)
      requires custody.deliveries == deliveries
      requires del.id in deliveries.byID && deliveries.byID[del.id] == del.Value()
      modifies del, custody.ledger.repo.Objects(), deliveries
      ensures var (w', r') := WebhookCall(custody.ledger.env, old(custody.View(now)), carrierID, ev, del.id,
                                          eventID, elapsed);
        r == r' && custody.ledger.repo.State() == w'.store && deliveries.State() == w'.deliveries
    {
      ghost var w, env := custody.View(now), custody.ledger.env;
      var outcome;
      match ev
      case OnRiderAssigned(rider) =>
        outcome := OnRiderAssignedEvent(del, carrierID, rider, eventID, now, elapsed);
        r := Some(outcome);
      case OnRiderArrivedAtPickup(loc, url) =>
        WebhookRecords(env, w, carrierID, ev, del.id, eventID, elapsed);
        outcome := RecordCustody(del.id, RiderArrivedAtLocker, carrierID, loc, url, "", eventID, now, elapsed);
        r := Some(outcome);
      case OnPackagePickedUp(loc, url) =>
        WebhookRecords(env, w, carrierID, ev, del.id, eventID, elapsed);
        outcome := RecordCustody(del.id, PackagePickedUp, carrierID, loc, url, "", eventID, now, elapsed);
        r := Some(outcome);
      case OnPackageDelivered(loc, url) =>
        WebhookRecords(env, w, carrierID, ev, del.id, eventID, elapsed);
        outcome := RecordCustody(del.id, PackageDelivered, carrierID, loc, url, "", eventID, now, elapsed);
        r := Some(outcome);
      case OnDeliveryFailed(loc, url, reason) =>
        WebhookRecords(env, w, carrierID, ev, del.id, eventID, elapsed);
        outcome := RecordCustody(del.id, DeliveryFailed, carrierID, loc, url, reason, eventID, now, elapsed);
        r := Some(outcome);
      case OnShipmentCancelled(reason) =>
        var cancelled := del.Cancel(reason);
        var saved := deliveries.Save(del);
        r := None;
      case _ => r := None;
    }

    method OnRiderAssignedEvent(del: Delivery, carrierID: string, rider: Rider, eventID: Id, now: int, elapsed: nat)
      returns (r: RecordOutcome)
      requires custody.deliveries == deliveries
      requires del.id in deliveries.byID && deliveries.byID[del.id] == del.Value()
      modifies del, custody.ledger.repo.Objects(), deliveries
      ensures var (w', r') := WebhookCall(custody.ledger.env, old(custody.View(now)), carrierID, OnRiderAssigned(rider),
                                          del.id, eventID, elapsed);
        Some(r) == r' && custody.ledger.repo.State() == w'.store && deliveries.State() == w'.deliveries
    {
      ghost var w := custody.View(now);
      SaveRider(del, rider);
      assert custody.View(now) == AfterCopy(w, OnRiderAssigned(rider), del.id);
      r := custody.Record(
        RecordInput(del.id, RiderAssigned, Actor("rider", carrierID, rider.id, rider.name), None, None, ""),
        eventID, now, elapsed);
    }

    /** The rider, and the first assignment if the dispatch has not made it. */
    method SaveRider(del: Delivery, rider: Rider)
      modifies del, deliveries
      ensures var copy := WebhookCopy(old(del.Value()), OnRiderAssigned(rider));
        deliveries.State() == if copy.Some? then old(deliveries.State()).Save(copy.value) else old(deliveries.State())
    {
      if rider.id != "" {
        if del.state == Pending {
          var moved := del.Transition(Assigned, "");
        }
        del.rider := Some(rider);
        var saved := deliveries.Save(del);
      }
    }

    method RecordCustody(deliveryID: Id, t: EventType, carrierID: string, loc: Option<PortPoint>,
                         photoURL: string, reason: string, eventID: Id, now: int, elapsed: nat)
      returns (r: RecordOutcome)
      requires custody.deliveries == deliveries
      modifies custody.ledger.repo.Objects(), deliveries
      ensures var (w', r') := RecordCall(custody.ledger.env, old(custody.View(now)),
                                         CustodyInput(deliveryID, t, carrierID, loc, photoURL, reason),
                                         eventID, elapsed);
        r == r' && custody.ledger.repo.State() == w'.store && deliveries.State() == w'.deliveries
    {
      var x := RecordInput(deliveryID, t, Actor("carrier", carrierID, "", ""), None, None, reason);
      if loc.Some? {
        x := x.(location := Some(GeoPoint(loc.value.lat, loc.value.lng, loc.value.accuracyM, PLUS_ZERO, PLUS_ZERO)));
      }
      if photoURL != "" {
        x := x.(photos := Some([PhotoRef(photoURL, PENDING_DIGEST, "", 0, 0, None)]));
      } else if RequiresPhoto(t) {
        x := x.(photos := Some([PLACEHOLDER_PHOTO]));
      }
      if RequiresGPS(t) && x.location == None {
        x := x.(location := Some(UNKNOWN_PLACE));
      }
      r := custody.Record(x, eventID, now, elapsed);
    }
  }

  /** A webhook that saves no copy is a custody call. */
  lemma WebhookRecords(env: Env, w: World, carrierID: string, ev: CarrierEvent, target: Id, eventID: Id, elapsed: nat)
    requires target in w.deliveries.byID && w.deliveries.byID[target].id == target
    requires WebhookCopy(w.deliveries.byID[target], ev).None? && WebhookRecord(target, carrierID, ev).Some?
    ensures var (w', r) := RecordCall(env, w, WebhookRecord(target, carrierID, ev).value, eventID, elapsed);
      WebhookCall(env, w, carrierID, ev, target, eventID, elapsed) == (w', Some(r))
  {}

  /** The carriers' side: the shipments they created. */
  class Gateway {
    var shipments: seq<Shipment>

    constructor ()
      ensures shipments == []
    {
      shipments := [];
    }

    method CreateShipment(deliveryID: Id, key: Option<Id>, c: Carrier, answer: Option<ShipmentResponse>)
      modifies this
      ensures shipments == old(shipments) + if answer.Some? then [Shipment(deliveryID, key, c.caps.id)] else []
    {
      if answer.Some? {
        shipments := shipments + [Shipment(deliveryID, key, c.caps.id)];
      }
    }
  }

  function PendingIDs(t: Table): set<Id> {
    set k | k in t.byID && t.byID[k].state == Pending
  }

  /** internal/app/dispatch/service.go */
  class DispatchService {
    const deliveries: DeliveryRepo
    const awbs: AwbRepo
    const registry: CarrierRegistry
    const strategy: Strategy
    const gateway: Gateway

    constructor (deliveries: DeliveryRepo, awbs: AwbRepo, registry: CarrierRegistry, strategy: Strategy,
                 gateway: Gateway)
      ensures this.deliveries == deliveries && this.awbs == awbs && this.registry == registry
      ensures this.strategy == strategy && this.gateway == gateway
    {
      this.deliveries, this.awbs, this.registry := deliveries, awbs, registry;
      this.strategy, this.gateway := strategy, gateway;
    }

    ghost function View(): World
      reads deliveries, awbs, gateway
    {
      World(Memory(map[]), deliveries.State(), awbs.State(), gateway.shipments, 0)
    }

    /** `fleet` is the order in which the registry listed the carriers, if it was
        asked. */
    method DispatchDelivery(id: Id, estimates: Carrier -> Option<Estimate>, create: Carrier -> Option<ShipmentResponse>)
      returns (ok: bool, ghost fleet: seq<Carrier>)
      requires registry.Valid() && deliveries.State().Keyed()
      modifies deliveries, gateway
      ensures (&& id in old(deliveries.byID) && old(deliveries.byID)[id].state == Pending
               && old(deliveries.byID)[id].awbID in awbs.byID) ==> IsListing(registry.State(), LastMile, fleet)
      ensures (View(), ok) == DispatchCall(old(View()), id, Outside(strategy, fleet, estimates, create))
    {
      fleet := [];
      var del := deliveries.GetByID(id);
      if del == null {
        return false, fleet;
      }
      if del.state != Pending {
        return false, fleet;
      }
      var a := awbs.GetByID(del.awbID);
      if a.None? {
        return false, fleet;
      }
      ghost var w, d := View(), del.Value();
      var routed;
      routed, fleet := Route(a.value, del, estimates, create);
      if routed.None? {
        assert View() == w;
        return false, fleet;
      }
      SentDispatch(w, id, Outside(strategy, fleet, estimates, create), routed.value.0, routed.value.1);
      ok := AssignTo(del, routed.value.0, routed.value.1);
    }

    /** The routing decision and the carrier's answer to the shipment request. */
    method Route(a: Awb, del: Delivery, estimates: Carrier -> Option<Estimate>,
                 create: Carrier -> Option<ShipmentResponse>)
      returns (routed: Option<(Carrier, ShipmentResponse)>, ghost fleet: seq<Carrier>)
      requires registry.Valid()
      modifies gateway
      ensures IsListing(registry.State(), LastMile, fleet)
      ensures routed == Ship(a, del.Value(), Outside(strategy, fleet, estimates, create))
      ensures gateway.shipments == old(gateway.shipments) +
        if routed.Some? then [Shipment(del.id, del.idempotencyKey, routed.value.0.caps.id)] else []
    {
      var req := BuildShipmentRequest(a, del.Value());
      var listed := registry.ListByRole(LastMile);
      fleet := listed;
      var decision := RunDecide(strategy, listed, req, LastMile, estimates);
      if decision.Err? {
        return None, fleet;
      }
      var chosen := decision.value.chosen;
      var resp := create(chosen);
      gateway.CreateShipment(del.id, del.idempotencyKey, chosen, resp);
      routed := if resp.None? then None else Some((chosen, resp.value));
    }

    /** The carrier's answer, the transition and, unless it is refused, the save. */
    method AssignTo(del: Delivery, chosen: Carrier, resp: ShipmentResponse) returns (ok: bool)
      modifies del, deliveries
      ensures var d := Assign(old(del.Value()), chosen, resp);
        && ok == d.Some?
        && deliveries.State() == if ok then old(deliveries.State()).Save(d.value) else old(deliveries.State())
    {
      del.carrierID := chosen.caps.id;
      del.carrierExternalID := resp.externalID;
      del.estimatedPickupAt := resp.estimatedPickupAt;
      del.estimatedDropAt := resp.estimatedDropAt;
      ok := del.Transition(Assigned, "");
      if !ok {
        return;
      }
      var saved := deliveries.Save(del);
    }

    /** One delivery of a batch; `tried` are those tried before it, `was` and `sent` the
        table and the shipments before the batch. */
    method Try(id: Id, estimates: (Id, Carrier) -> Option<Estimate>, create: (Id, Carrier) -> Option<ShipmentResponse>,
               ghost was: Table, ghost sent: seq<Shipment>, ghost tried: seq<Id>) returns (done: bool)
      requires registry.Valid() && deliveries.State().Keyed()
      requires id in was.byID && id !in tried && was.byID[id].state == Pending
      requires AllSettled(registry.State(), strategy, awbs.byID, estimates, create, was, deliveries.State(), tried)
      requires AllShipped(deliveries.State(), tried, sent, gateway.shipments)
      modifies deliveries, gateway
      ensures deliveries.State().Keyed()
      ensures AllSettled(registry.State(), strategy, awbs.byID, estimates, create, was, deliveries.State(),
                         tried + [id])
      ensures AllShipped(deliveries.State(), tried + [id], sent, gateway.shipments)
      ensures |PendingIDs(deliveries.State())| == |PendingIDs(old(deliveries.State()))| - (if done then 1 else 0)
      ensures |gateway.shipments| == |old(gateway.shipments)| + (if done then 1 else 0)
    {
      ghost var w := View();
      ghost var fleet;
      done, fleet := DispatchDelivery(id, Toward(estimates, id), Toward(create, id));
      OneMoreSettled(registry.State(), strategy, estimates, create, was, w, View(), tried, id, done, fleet);
      OneMoreShipped(strategy, estimates, create, w, View(), sent, tried, id, done, fleet);
    }

    /** The pending deliveries of a batch and their ids. */
    method ListPending(max: int) returns (pending: seq<Snapshot>, ghost ids: seq<Id>)
      requires deliveries.State().Keyed() && max > 0
      ensures |ids| == |pending| && forall i :: 0 <= i < |pending| ==> ids[i] == pending[i].id
      ensures forall i, j :: 0 <= i < j < |ids| ==> ids[i] != ids[j]
      ensures forall k :: k in ids ==> k in PendingIDs(deliveries.State())
      ensures |ids| == if |PendingIDs(deliveries.State())| < max then |PendingIDs(deliveries.State())| else max
    {
      pending := deliveries.ListByState(Pending, max);
      ids := seq(|pending|, i requires 0 <= i < |pending| => pending[i].id);
      ListedCount(deliveries.State(), pending, ids, max);
    }

    /** Tries as many distinct pending deliveries as there are, or the limit (20 if it
        is not positive). Each one tried is assigned to its best offer, or stays as it
        is because its AWB is missing, or it has no offer, or the best one refuses; the
        others are not touched. There is one new shipment for each one assigned, and
        their number is returned. */
    method DispatchPending(limit: int, estimates: (Id, Carrier) -> Option<Estimate>,
                           create: (Id, Carrier) -> Option<ShipmentResponse>) returns (ok: nat, ghost tried: seq<Id>)
      requires registry.Valid() && deliveries.State().Keyed()
      modifies deliveries, gateway
      ensures var pending, max := PendingIDs(old(deliveries.State())), if limit <= 0 then 20 else limit;
        |tried| == if |pending| < max then |pending| else max
      ensures forall i, j :: 0 <= i < j < |tried| ==> tried[i] != tried[j]
      ensures forall k :: k in tried ==> k in old(deliveries.byID) && old(deliveries.byID)[k].state == Pending
      ensures AllSettled(registry.State(), strategy, awbs.byID, estimates, create, old(deliveries.State()),
                         deliveries.State(), tried)
      ensures ok == |AssignedOf(deliveries.State(), tried)|
      ensures ok == |gateway.shipments| - |old(gateway.shipments)|
      ensures AllShipped(deliveries.State(), tried, old(gateway.shipments), gateway.shipments)
    {
      var max := if limit <= 0 then 20 else limit;
      var pending;
      pending, tried := ListPending(max);
      ghost var was, sent := deliveries.State(), gateway.shipments;
      ok := 0;
      for i := 0 to |pending|
        invariant registry.Valid() && deliveries.State().Keyed()
        invariant ok == |PendingIDs(was)| - |PendingIDs(deliveries.State())|
        invariant ok == |gateway.shipments| - |sent|
        invariant AllSettled(registry.State(), strategy, awbs.byID, estimates, create, was, deliveries.State(),
                             tried[..i])
        invariant AllShipped(deliveries.State(), tried[..i], sent, gateway.shipments)
      {
        NextOf(tried, i);
        var done := Try(pending[i].id, estimates, create, was, sent, tried[..i]);
        if !done {
          continue;
        }
        ok := ok + 1;
      }
      AllOf(tried);
      AssignedAmongTried(registry.State(), strategy, awbs.byID, estimates, create, was, deliveries.State(), tried);
    }
  }

  /** What the carriers answer for one delivery. */
  function Toward<T>(answers: (Id, Carrier) -> T, id: Id): Carrier -> T {
    c => answers(id, c)
  }

  /** What a dispatch makes of a pending delivery. */
  ghost predicate Settled(registry: RegistryState, strategy: Strategy, awbs: map<Id, Awb>,
                          estimates: (Id, Carrier) -> Option<Estimate>,
                          create: (Id, Carrier) -> Option<ShipmentResponse>, d: Snapshot, d': Snapshot)
  {
    if d.awbID !in awbs then d' == d
    else
      exists fleet ::
        && IsListing(registry, LastMile, fleet)
        && var o := Outside(strategy, fleet, Toward(estimates, d.id), Toward(create, d.id));
           || (d' == d && Unserved(o, awbs[d.awbID], d))
           || Dispatched(o, awbs[d.awbID], d, d')
  }

  /** Each delivery tried is settled, and no other has changed. */
  ghost predicate AllSettled(registry: RegistryState, strategy: Strategy, awbs: map<Id, Awb>,
                             estimates: (Id, Carrier) -> Option<Estimate>,
                             create: (Id, Carrier) -> Option<ShipmentResponse>, t: Table, t': Table, tried: seq<Id>)
  {
    && t'.byID.Keys == t.byID.Keys
    && (forall k :: k in tried ==>
          k in t.byID && Settled(registry, strategy, awbs, estimates, create, t.byID[k], t'.byID[k]))
    && (forall k :: k in t.byID && k !in tried ==> t'.byID[k] == t.byID[k])
  }

  /** Each new shipment is that of another delivery tried, to the carrier it is now
      assigned to and under its own key. */
  ghost predicate AllShipped(t: Table, tried: seq<Id>, sent: seq<Shipment>, now: seq<Shipment>) {
    && IsPrefix(sent, now)
    && (forall i :: |sent| <= i < |now| ==>
          && now[i].deliveryID in tried && now[i].deliveryID in t.byID
          && t.byID[now[i].deliveryID].state == Assigned
          && now[i].idempotencyKey == t.byID[now[i].deliveryID].idempotencyKey
          && now[i].carrierID == t.byID[now[i].deliveryID].carrierID)
    && (forall i, j :: |sent| <= i < j < |now| ==> now[i].deliveryID != now[j].deliveryID)
  }

  lemma OneMoreShipped(strategy: Strategy, estimates: (Id, Carrier) -> Option<Estimate>,
                       create: (Id, Carrier) -> Option<ShipmentResponse>, w: World, w': World, sent: seq<Shipment>,
                       tried: seq<Id>, id: Id, ok: bool, fleet: seq<Carrier>)
    requires AllShipped(w.deliveries, tried, sent, w.shipments) && w.deliveries.Keyed() && id !in tried
    requires (w', ok) ==
      DispatchCall(w, id, Outside(strategy, fleet, Toward(estimates, id), Toward(create, id)))
    ensures AllShipped(w'.deliveries, tried + [id], sent, w'.shipments)
  {
    DispatchDoes(w, id, Outside(strategy, fleet, Toward(estimates, id), Toward(create, id)));
    if ok {
      LongerShipped(w.deliveries, w'.deliveries, tried, sent, w.shipments, w'.shipments, id);
    }
  }

  lemma LongerShipped(t: Table, t': Table, tried: seq<Id>, sent: seq<Shipment>, now: seq<Shipment>,
                      now': seq<Shipment>, id: Id)
    requires AllShipped(t, tried, sent, now) && id !in tried && id in t'.byID && t'.byID[id].state == Assigned
    requires t'.byID == t.byID[id := t'.byID[id]]
    requires now' == now + [Shipment(id, t'.byID[id].idempotencyKey, t'.byID[id].carrierID)]
    ensures AllShipped(t', tried + [id], sent, now')
  {
    assert now'[..|sent|] == now[..|sent|];
  }

  lemma NextOf(ids: seq<Id>, i: nat)
    requires i < |ids| && forall i, j :: 0 <= i < j < |ids| ==> ids[i] != ids[j]
    ensures ids[i] in ids && ids[i] !in ids[..i]
    ensures ids[..i + 1] == ids[..i] + [ids[i]]
  {}

  lemma AllOf(ids: seq<Id>)
    ensures ids[..|ids|] == ids
  {}

  function Members(ids: seq<Id>): set<Id> {
    set k | k in ids
  }

  function AssignedOf(t: Table, ids: seq<Id>): set<Id> {
    set k | k in ids && k in t.byID && t.byID[k].state == Assigned
  }

  lemma {:induction false} DistinctCount(ids: seq<Id>)
    requires forall i, j :: 0 <= i < j < |ids| ==> ids[i] != ids[j]
    ensures |Members(ids)| == |ids|
  {
    if ids != [] {
      var rest, last := ids[..|ids| - 1], ids[|ids| - 1];
      DistinctCount(rest);
      assert ids == rest + [last];
      assert Members(ids) == Members(rest) + {last};
      assert last !in Members(rest);
    }
  }

  /** A listing of pending deliveries up to a limit lists as many as there are, or the
      limit. */
  lemma ListedCount(t: Table, pending: seq<Snapshot>, ids: seq<Id>, max: nat)
    requires |ids| == |pending| <= max
    requires forall i :: 0 <= i < |ids| ==>
      ids[i] == pending[i].id && ids[i] in t.byID && t.byID[ids[i]] == pending[i] && pending[i].state == Pending
    requires forall i, j :: 0 <= i < j < |ids| ==> ids[i] != ids[j]
    requires |pending| < max ==> forall k :: k in t.byID && t.byID[k].state == Pending ==> t.byID[k] in pending
    requires t.Keyed()
    ensures |ids| == if |PendingIDs(t)| < max then |PendingIDs(t)| else max
  {
    var listed := Members(ids);
    DistinctCount(ids);
    SubsetCount(listed, PendingIDs(t));
    if |pending| < max {
      forall k | k in PendingIDs(t) ensures k in listed {
        var i :| 0 <= i < |pending| && pending[i] == t.byID[k];
        assert ids[i] == k;
      }
      assert listed == PendingIDs(t);
    }
  }

  lemma SubsetCount(xs: set<Id>, ys: set<Id>)
    requires xs <= ys
    ensures |xs| <= |ys|
  {
    assert ys == xs + (ys - xs);
  }

  /** One delivery tried: what became of it, of the others and of the counts. */
  lemma OneTried(w: World, w': World, ok: bool, id: Id, registry: RegistryState, strategy: Strategy,
                 fleet: seq<Carrier>, estimates: (Id, Carrier) -> Option<Estimate>,
                 create: (Id, Carrier) -> Option<ShipmentResponse>)
    requires w.deliveries.Keyed() && id in w.deliveries.byID && w.deliveries.byID[id].state == Pending
    requires w.deliveries.byID[id].awbID in w.awbs.byID ==> IsListing(registry, LastMile, fleet)
    requires (w', ok) ==
      DispatchCall(w, id, Outside(strategy, fleet, Toward(estimates, id), Toward(create, id)))
    ensures w'.deliveries.Keyed() && w'.deliveries.byID.Keys == w.deliveries.byID.Keys
    ensures Settled(registry, strategy, w.awbs.byID, estimates, create, w.deliveries.byID[id], w'.deliveries.byID[id])
    ensures forall k :: k in w.deliveries.byID && k != id ==> w'.deliveries.byID[k] == w.deliveries.byID[k]
    ensures |PendingIDs(w'.deliveries)| == |PendingIDs(w.deliveries)| - (if ok then 1 else 0)
    ensures |w'.shipments| == |w.shipments| + (if ok then 1 else 0)
  {
    var o := Outside(strategy, fleet, Toward(estimates, id), Toward(create, id));
    OneLessPending(w, id, o);
    DispatchDoes(w, id, o);
  }

  /** One more delivery tried. */
  lemma OneMoreSettled(registry: RegistryState, strategy: Strategy, estimates: (Id, Carrier) -> Option<Estimate>,
                       create: (Id, Carrier) -> Option<ShipmentResponse>, t: Table, w: World, w': World,
                       tried: seq<Id>, id: Id, ok: bool, fleet: seq<Carrier>)
    requires AllSettled(registry, strategy, w.awbs.byID, estimates, create, t, w.deliveries, tried)
    requires w.deliveries.Keyed() && id in t.byID && id !in tried && t.byID[id].state == Pending
    requires t.byID[id].awbID in w.awbs.byID ==> IsListing(registry, LastMile, fleet)
    requires (w', ok) ==
      DispatchCall(w, id, Outside(strategy, fleet, Toward(estimates, id), Toward(create, id)))
    ensures w'.deliveries.Keyed()
    ensures AllSettled(registry, strategy, w.awbs.byID, estimates, create, t, w'.deliveries, tried + [id])
    ensures |PendingIDs(w'.deliveries)| == |PendingIDs(w.deliveries)| - (if ok then 1 else 0)
    ensures |w'.shipments| == |w.shipments| + (if ok then 1 else 0)
  {
    OneTried(w, w', ok, id, registry, strategy, fleet, estimates, create);
    forall k | k in tried + [id]
      ensures k in t.byID
        && Settled(registry, strategy, w.awbs.byID, estimates, create, t.byID[k], w'.deliveries.byID[k])
    {
      assert k in tried || k == id;
    }
  }

  /** The number of deliveries that left pending is that of the tried ones that are
      assigned. */
  lemma AssignedAmongTried(registry: RegistryState, strategy: Strategy, awbs: map<Id, Awb>,
                           estimates: (Id, Carrier) -> Option<Estimate>,
                           create: (Id, Carrier) -> Option<ShipmentResponse>, t: Table, t': Table, tried: seq<Id>)
    requires AllSettled(registry, strategy, awbs, estimates, create, t, t', tried)
    requires forall k :: k in tried ==> t.byID[k].state == Pending
    ensures |PendingIDs(t)| - |PendingIDs(t')| == |AssignedOf(t', tried)|
  {
    var moved := AssignedOf(t', tried);
    forall k | k in tried ensures t'.byID[k].state in {Pending, Assigned} {
      assert Settled(registry, strategy, awbs, estimates, create, t.byID[k], t'.byID[k]);
    }
    forall k ensures k in PendingIDs(t) <==> k in PendingIDs(t') || k in moved {}
    assert PendingIDs(t) == PendingIDs(t') + moved && PendingIDs(t') !! moved;
  }

  /** A dispatch whose shipment was created, in terms of the assignment. */
  lemma SentDispatch(w: World, id: Id, o: Outside, c: Carrier, resp: ShipmentResponse)
    requires id in w.deliveries.byID && w.deliveries.byID[id].state == Pending
    requires w.deliveries.byID[id].awbID in w.awbs.byID
    requires Ship(w.awbs.byID[w.deliveries.byID[id].awbID], w.deliveries.byID[id], o) == Some((c, resp))
    ensures var d := w.deliveries.byID[id];
      var d' := Assign(d, c, resp);
      DispatchCall(w, id, o) ==
        (World(w.store, if d'.Some? then w.deliveries.Save(d'.value) else w.deliveries, w.awbs,
               w.shipments + [Shipment(d.id, d.idempotencyKey, c.caps.id)], w.clock), d'.Some?)
  {}

  /** A dispatch takes its own delivery out of the pending ones, or does nothing. */
  lemma OneLessPending(w: World, id: Id, o: Outside)
    requires w.deliveries.Keyed()
    ensures var (w', ok) := DispatchCall(w, id, o);
      && w'.deliveries.Keyed()
      && w'.deliveries.byID.Keys == w.deliveries.byID.Keys
      && |PendingIDs(w'.deliveries)| == |PendingIDs(w.deliveries)| - (if ok then 1 else 0)
      && |w'.shipments| == |w.shipments| + (if ok then 1 else 0)
      && (forall k :: k in w.deliveries.byID ==>
            || w'.deliveries.byID[k] == w.deliveries.byID[k]
            || (w.deliveries.byID[k].state == Pending && w'.deliveries.byID[k].state == Assigned))
  {
    DispatchDoes(w, id, o);
    var (w', ok) := DispatchCall(w, id, o);
    if ok {
      assert w'.deliveries.byID.Keys == w.deliveries.byID.Keys;
      assert PendingIDs(w'.deliveries) == PendingIDs(w.deliveries) - {id};
    }
  }

  /** internal/app/booking/service.go */
  class BookingService {
    const awbs: AwbRepo
    const deliveries: DeliveryRepo

    constructor (awbs: AwbRepo, deliveries: DeliveryRepo)
      ensures this.awbs == awbs && this.deliveries == deliveries
    {
      this.awbs, this.deliveries := awbs, deliveries;
    }

    ghost function View(now: int): World
      reads deliveries, awbs
    {
      World(Memory(map[]), deliveries.State(), awbs.State(), [], now)
    }

    method CreateBooking(x: BookingInput, draw: BookingDraw, now: int) returns (r: Option<BookingResult>)
      modifies awbs, deliveries
      ensures (View(now), r) == BookingCall(old(View(now)), x, draw)
      ensures r.Some? <==> now <= x.slotStart < x.slotEnd && x.weightKg <= 50.0
    {
      BookingAcceptedIff(x, draw, now);
      var a, del := Prepare(x, draw, now);
      if del == null {
        return None;
      }
      awbs.Save(a.value);
      var saved := deliveries.Save(del);
      return Some(BookingResult(
        a.value.id, a.value.internalAWB, del.id, del.priceQuotedMinor, del.priceCurrency, del.state));
    }

    /** The two aggregates of a booking, built but not yet saved; null for an
        error. */
    method Prepare(x: BookingInput, draw: BookingDraw, now: int) returns (a: Option<Awb>, del: Delivery?)
      ensures del != null ==> fresh(del) && a.Some?
      ensures PrepareBooking(x, draw, now) == if del == null then None else Some((a.value, del.Value()))
    {
      a, del := None, null;
      if x.slotEnd < x.slotStart {
        return;
      }
      var weight := x.weightKg;
      if weight <= 0.0 {
        weight := 1.0;
      }
      a := NewAwb(draw.awbID, draw.internalAWB, x.retailerID, weight, 0.0, 0.0, 0.0);
      if a.None? {
        return;
      }
      if x.externalAWB != "" {
        a := Some(AttachExternal(a.value, x.externalCarrier, x.externalAWB));
      }
      a := Some(a.value.(state := AwbState.AtLocker, stateReason := "customer_requested_concierge"));
      var carrierID := x.lastMileCarrier;
      if carrierID == "" {
        carrierID := "bolt_food";
      }
      var leg := NewDelivery(
        draw.deliveryID, a.value.id, 1, carrierID, "v1",
        Location(LocationType.AtLocker, x.pickupLat, x.pickupLng, x.pickupAddress, x.pickupLockerID, "", "", "", ""),
        Location(AtAddress, x.dropLat, x.dropLng, x.dropAddress, "", "",
                 x.dropFloor, x.dropApartment, x.dropInstructions));
      if leg.None? {
        return;
      }
      var made := new Delivery.Of(leg.value);
      var scheduled := made.Schedule(x.slotStart, x.slotEnd, now);
      if !scheduled {
        return;
      }
      made.idempotencyKey := Some(made.id);
      made.priceQuotedMinor := draw.quoteMinor;
      made.priceCurrency := draw.currency;
      del := made;
    }

    /** Both parts of a booking, or nothing if either is missing. */
    method GetBooking(id: Id) returns (r: Option<(Snapshot, Awb)>)
      ensures r == if id in deliveries.byID && deliveries.byID[id].awbID in awbs.byID
                   then Some((deliveries.byID[id], awbs.byID[deliveries.byID[id].awbID])) else None
    {
      var del := deliveries.GetByID(id);
      if del == null {
        return None;
      }
      var a := awbs.GetByID(del.awbID);
      if a.None? {
        return None;
      }
      return Some((del.Value(), a.value));
    }
  }
}
