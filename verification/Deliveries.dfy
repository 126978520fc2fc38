/** The delivery aggregate (internal/core/delivery/delivery.go): its value, the
    operations on that value, and the object whose methods perform them. */
module Deliveries {
  import opened Common
  import opened StateGraph

  datatype LocationType = AtAddress | AtLocker | AtHub | AtUnlisted(name: string)

  datatype Location = Location(
    kind: LocationType, lat: Float64, lng: Float64, address: string, lockerID: string, hubID: string,
    floor: string, apartment: string, instructions: string)

  datatype Rider = Rider(id: string, name: string, phone: string, vehicle: string)

  /** The fields of a delivery at one moment; `""` carrier ids are unset ones.
      The idempotency key is the text of a UUID, kept as that UUID. */
  datatype Snapshot = Snapshot(
    id: Id,
    awbID: Id,
    legNumber: int,
    carrierID: string,
    carrierVersion: string,
    carrierExternalID: string,
    pickup: Location,
    drop: Location,
    windowStart: Option<int>,
    windowEnd: Option<int>,
    state: State,
    stateReason: string,
    rider: Option<Rider>,
    priceQuotedMinor: int,
    priceCurrency: string,
    estimatedPickupAt: Option<int>,
    estimatedDropAt: Option<int>,
    actualPickupAt: Option<int>,
    actualDropAt: Option<int>,
    idempotencyKey: Option<Id>)

  // ------------------------------------------------ operations on the value
  // `None` is the error return; the delivery is then unchanged.

  function NewDelivery(id: Id, awbID: Id, leg: int, carrierID: string, version: string,
                       pickup: Location, drop: Location): Option<Snapshot> {
    if leg < 1 then None
    else if carrierID == "" || version == "" then None
    else Some(Snapshot(
      id, awbID, leg, carrierID, version, "", pickup, drop, None, None, Pending, "", None,
      0, "RON", None, None, None, None, None))
  }

  function Transition(d: Snapshot, to: State, reason: string): Option<Snapshot> {
    if CanTransition(d.state, to) then Some(d.(state := to, stateReason := reason)) else None
  }

  function MarkPickedUp(d: Snapshot, at: int): Option<Snapshot> {
    match Transition(d, PickedUp, "")
    case None => None
    case Some(d') => Some(d'.(actualPickupAt := Some(at)))
  }

  function MarkDelivered(d: Snapshot, at: int): Option<Snapshot> {
    match Transition(d, Delivered, "")
    case None => None
    case Some(d') => Some(d'.(actualDropAt := Some(at)))
  }

  function MarkFailed(d: Snapshot, reason: string): Option<Snapshot> {
    Transition(d, Failed, reason)
  }

  function AssignRider(d: Snapshot, r: Rider): Option<Snapshot> {
    match Transition(d, Assigned, "")
    case None => None
    case Some(d') => Some(d'.(rider := Some(r)))
  }

  function Cancel(d: Snapshot, reason: string): Option<Snapshot> {
    if d.state in {PickedUp, InTransit, EnRouteDrop, Delivered} then None
    else Transition(d, Cancelled, reason)
  }

  function Schedule(d: Snapshot, start: int, end: int, now: int): Option<Snapshot> {
    if !(start < end) then None
    else if start < now then None
    else Some(d.(windowStart := Some(start), windowEnd := Some(end)))
  }

  /** The guard `Cancel` adds before `Transition` refuses nothing the graph would
      have allowed. */
  lemma CancelGuardIsImplied(d: Snapshot, reason: string)
    ensures Cancel(d, reason) == Transition(d, Cancelled, reason)
  {}

  // ------------------------------------------------------------------ op runs

  datatype Op =
    | DoTransition(to: State, reason: string)
    | DoMarkPickedUp(at: int)
    | DoMarkDelivered(at: int)
    | DoMarkFailed(why: string)
    | DoAssignRider(rider: Rider)
    | DoCancel(because: string)
    | DoSchedule(start: int, end: int, now: int)

  function Apply(d: Snapshot, op: Op): Option<Snapshot> {
    match op
    case DoTransition(to, reason) => Transition(d, to, reason)
    case DoMarkPickedUp(at) => MarkPickedUp(d, at)
    case DoMarkDelivered(at) => MarkDelivered(d, at)
    case DoMarkFailed(why) => MarkFailed(d, why)
    case DoAssignRider(r) => AssignRider(d, r)
    case DoCancel(why) => Cancel(d, why)
    case DoSchedule(start, end, now) => Schedule(d, start, end, now)
  }

  /** A refused operation leaves the delivery as it was. */
  function Run(d: Snapshot, ops: seq<Op>): Snapshot {
    if ops == [] then d
    else
      var before := Run(d, ops[..|ops| - 1]);
      var after := Apply(before, ops[|ops| - 1]);
      if after.Some? then after.value else before
  }

  /** The states visited by a run: one more for every successful transition. */
  function Trace(d: Snapshot, ops: seq<Op>): (p: seq<State>)
    ensures p != []
  {
    if ops == [] then [d.state]
    else
      var rest := ops[..|ops| - 1];
      var after := Apply(Run(d, rest), ops[|ops| - 1]);
      if after.Some? && !ops[|ops| - 1].DoSchedule? then Trace(d, rest) + [after.value.state]
      else Trace(d, rest)
  }

  lemma {:induction false} TraceIsWalk(d: Snapshot, ops: seq<Op>)
    ensures var p := Trace(d, ops);
      IsWalk(p) && p[0] == d.state && p[|p| - 1] == Run(d, ops).state
  {
    if ops != [] {
      var rest, op := ops[..|ops| - 1], ops[|ops| - 1];
      TraceIsWalk(d, rest);
      var after := Apply(Run(d, rest), op);
      if after.Some? && !op.DoSchedule? {
        WalkSnoc(Trace(d, rest), after.value.state);
      }
    }
  }

  /** Whatever is called on a fresh delivery, in whatever order: the number of
      successful transitions is bounded by the retries, a delivered one made its
      last attempt through locker and pickup, a cancelled one was not picked up
      in its last attempt. */
  lemma RunsObeyTheGraph(d: Snapshot, ops: seq<Op>)
    requires d.state == Pending
    ensures var p := Trace(d, ops);
      && |p| - 1 <= 6 * Retries(p) + 7
      && (Run(d, ops).state == Delivered ==>
            |LastAttempt(p)| >= 5 && LastAttempt(p)[..3] == [Assigned, EnRoutePickup, PickedUp])
      && (Run(d, ops).state == Cancelled ==> PickedUp !in LastAttempt(p))
  {
    var p := Trace(d, ops);
    TraceIsWalk(d, ops);
    WalkLengthBound(p);
    if Run(d, ops).state == Delivered {
      DeliveredAttempt(p);
    }
    if Run(d, ops).state == Cancelled {
      CancelledAttempt(p);
    }
  }

  /** Cancelled does not mean never picked up: after a failed attempt a leg with a
      pickup time can be assigned again and then cancelled. */
  lemma PickedUpThenCancelled(d: Snapshot, at: int)
    requires d.state == Pending
    ensures exists ops :: Run(d, ops).state == Cancelled && Run(d, ops).actualPickupAt == Some(at)
  {
    var ops := ExtendRun(d, [], DoTransition(Assigned, ""));
    ops := ExtendRun(d, ops, DoTransition(EnRoutePickup, ""));
    ops := ExtendRun(d, ops, DoMarkPickedUp(at));
    ops := ExtendRun(d, ops, DoMarkFailed("custody_event"));
    ops := ExtendRun(d, ops, DoTransition(Assigned, ""));
    ops := ExtendRun(d, ops, DoCancel(""));
  }

  lemma ExtendRun(d: Snapshot, ops: seq<Op>, op: Op) returns (longer: seq<Op>)
    requires Apply(Run(d, ops), op).Some?
    ensures Run(d, longer) == Apply(Run(d, ops), op).value
  {
    longer := ops + [op];
    assert longer[..|longer| - 1] == ops;
  }

  // --------------------------------------------------------------- the object

  class Delivery {
    const id: Id
    const awbID: Id
    const legNumber: int
    var carrierID: string
    const carrierVersion: string
    var carrierExternalID: string
    const pickup: Location
    const drop: Location
    var windowStart: Option<int>
    var windowEnd: Option<int>
    var state: State
    var stateReason: string
    var rider: Option<Rider>
    var priceQuotedMinor: int
    var priceCurrency: string
    var estimatedPickupAt: Option<int>
    var estimatedDropAt: Option<int>
    var actualPickupAt: Option<int>
    var actualDropAt: Option<int>
    var idempotencyKey: Option<Id>

    function Value(): Snapshot
      reads this
    {
      Snapshot(id, awbID, legNumber, carrierID, carrierVersion, carrierExternalID, pickup, drop,
               windowStart, windowEnd, state, stateReason, rider, priceQuotedMinor, priceCurrency,
               estimatedPickupAt, estimatedDropAt, actualPickupAt, actualDropAt, idempotencyKey)
    }

    /** `cloneDelivery`, and a row scanned into a new struct. */
    constructor Of(v: Snapshot)
      ensures Value() == v
    {
      id, awbID, legNumber := v.id, v.awbID, v.legNumber;
      carrierID, carrierVersion, carrierExternalID := v.carrierID, v.carrierVersion, v.carrierExternalID;
      pickup, drop := v.pickup, v.drop;
      windowStart, windowEnd := v.windowStart, v.windowEnd;
      state, stateReason, rider := v.state, v.stateReason, v.rider;
      priceQuotedMinor, priceCurrency := v.priceQuotedMinor, v.priceCurrency;
      estimatedPickupAt, estimatedDropAt := v.estimatedPickupAt, v.estimatedDropAt;
      actualPickupAt, actualDropAt := v.actualPickupAt, v.actualDropAt;
      idempotencyKey := v.idempotencyKey;
    }

    /** What every method below does: one operation on the value, or nothing. */
    twostate predicate Performs(op: Op, ok: bool)
      reads this
    {
      var after := Apply(old(Value()), op);
      ok == after.Some? && Value() == if ok then after.value else old(Value())
    }

    method Transition(to: State, reason: string) returns (ok: bool)
      modifies this
      ensures Performs(DoTransition(to, reason), ok)
      ensures ok <==> CanTransition(old(state), to)
      ensures Value() == if ok then old(Value()).(state := to, stateReason := reason) else old(Value())
    {
      if !CanTransition(state, to) {
        return false;
      }
      state := to;
      stateReason := reason;
      return true;
    }

    method MarkPickedUp(at: int) returns (ok: bool)
      modifies this
      ensures Performs(DoMarkPickedUp(at), ok)
      ensures ok <==> old(state) == EnRoutePickup
      ensures Value() ==
        if ok then old(Value()).(state := PickedUp, stateReason := "", actualPickupAt := Some(at)) else old(Value())
    {
      ok := Transition(PickedUp, "");
      if !ok {
        return;
      }
      actualPickupAt := Some(at);
    }

    method MarkDelivered(at: int) returns (ok: bool)
      modifies this
      ensures Performs(DoMarkDelivered(at), ok)
      ensures ok <==> old(state) in {InTransit, EnRouteDrop}
      ensures Value() ==
        if ok then old(Value()).(state := Delivered, stateReason := "", actualDropAt := Some(at)) else old(Value())
    {
      ok := Transition(Delivered, "");
      if !ok {
        return;
      }
      actualDropAt := Some(at);
    }

    method MarkFailed(reason: string) returns (ok: bool)
      modifies this
      ensures Performs(DoMarkFailed(reason), ok)
      ensures ok <==> old(state) in {Assigned, EnRoutePickup, PickedUp, InTransit, EnRouteDrop}
      ensures Value() == if ok then old(Value()).(state := Failed, stateReason := reason) else old(Value())
    {
      ok := Transition(Failed, reason);
    }

    method AssignRider(r: Rider) returns (ok: bool)
      modifies this
      ensures Performs(DoAssignRider(r), ok)
      ensures ok <==> old(state) in {Pending, Failed}
      ensures Value() ==
        if ok then old(Value()).(state := Assigned, stateReason := "", rider := Some(r)) else old(Value())
    {
      ok := Transition(Assigned, "");
      if !ok {
        return;
      }
      rider := Some(r);
    }

    method Cancel(reason: string) returns (ok: bool)
      modifies this
      ensures Performs(DoCancel(reason), ok)
      ensures ok <==> old(state) in {Pending, Assigned, EnRoutePickup}
      ensures Value() == if ok then old(Value()).(state := Cancelled, stateReason := reason) else old(Value())
    {
      if state == PickedUp || state == InTransit || state == EnRouteDrop || state == Delivered {
        return false;
      }
      ok := Transition(Cancelled, reason);
    }

    method Schedule(start: int, end: int, now: int) returns (ok: bool)
      modifies this
      ensures Performs(DoSchedule(start, end, now), ok)
      ensures ok <==> now <= start < end
      ensures Value() ==
        if ok then old(Value()).(windowStart := Some(start), windowEnd := Some(end)) else old(Value())
    {
      if !(start < end) {
        return false;
      }
      if start < now {
        return false;
      }
      windowStart := Some(start);
      windowEnd := Some(end);
      return true;
    }
  }
}
