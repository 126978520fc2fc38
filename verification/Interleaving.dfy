/** The same services with any number of calls in flight, one store access at a
    time. A call holds the copies it has read; between two of its steps anything
    may happen. A call may also die at any point, which covers store errors. */
module Interleaving {
  import opened Common
  import opened Events
  import opened Encoding
  import opened HashChain
  import opened CustodyStore
  import opened StateGraph
  import opened Deliveries
  import opened Repositories
  import opened Operations

  /** Where a call stands and what it holds. `read` is the state the copy had when
      it was read. */
  datatype Call =
    | BookAwb(a: Awb, d: Snapshot)
    | BookDelivery(d: Snapshot)
    | DispatchCopied(d: Snapshot)
    | DispatchRouting(d: Snapshot, a: Awb)
    | SaveCopy(d: Snapshot, read: State)
    | SaveThenRecord(d: Snapshot, read: State, x: RecordInput)
    | RecordStart(x: RecordInput)
    | RecordCopied(d: Snapshot, e: Event)
    | RecordSealing(d: Snapshot, e: Event, tail: Option<Event>)
    | RecordAppended(d: Snapshot, kind: EventType)

  datatype System = System(w: World, calls: map<nat, Call>)

  /** What a step meets outside: time passed, a UUID drawn, the carriers' answers. */
  datatype Chance = Chance(elapsed: nat, eventID: Id, outside: Outside)

  const NO_CARRIERS := Outside(Strategies.Cheapest, [], _ => None, _ => None)

  const AT_ONCE := Chance(0, 0, NO_CARRIERS)

  datatype Step =
    | StartBooking(c: nat, input: BookingInput, draw: BookingDraw)
    | StartDispatch(c: nat, id: Id)
    | StartRecord(c: nat, x: RecordInput)
    | StartWebhook(c: nat, carrierID: string, externalID: string, ev: CarrierEvent, target: Id)
    | Advance(c: nat, chance: Chance)
    | Die(c: nat)

  /** The first access of a call; `None` when it ends there. A webhook event with
      no external id is skipped; otherwise any delivery that bears the carrier's
      external id may be the one found. */
  function Begin(w: World, step: Step): Option<Call> {
    match step
    case StartBooking(_, x, draw) =>
      (match PrepareBooking(x, draw, w.clock)
       case None => None
       case Some((a, d)) => Some(BookAwb(a, d)))
    case StartDispatch(_, id) =>
      if id in w.deliveries.byID && w.deliveries.byID[id].state == Pending
      then Some(DispatchCopied(w.deliveries.byID[id])) else None
    case StartRecord(_, x) => Some(RecordStart(x))
    case StartWebhook(_, carrierID, externalID, ev, target) =>
      if externalID == "" || target !in w.deliveries.byID
        || !Matches(w.deliveries.byID[target], carrierID, externalID) then None
      else
        var d := w.deliveries.byID[target];
        (match (WebhookCopy(d, ev), WebhookRecord(d.id, carrierID, ev))
         case (None, None) => None
         case (None, Some(x)) => Some(RecordStart(x))
         case (Some(d'), None) => Some(SaveCopy(d', d.state))
         case (Some(d'), Some(x)) => Some(SaveThenRecord(d', d.state, x)))
    case _ => None
  }

  /** One more access of a call: the new state, and where the call stands, `None`
      when it is over. UUIDs are never drawn twice: the accesses that store a new
      one wait while it is taken. */
  function Access(env: Env, w: World, call: Call, x: Chance): (World, Option<Call>) {
    match call
    case BookAwb(a, d) =>
      if a.id in w.awbs.byID then (w, Some(call))
      else (w.(awbs := w.awbs.Save(a)), Some(BookDelivery(d)))
    case BookDelivery(d) =>
      if d.id in w.deliveries.byID || d.id == NIL_ID then (w, Some(call))
      else (w.(deliveries := w.deliveries.Save(d)), None)
    case DispatchCopied(d) =>
      if d.awbID in w.awbs.byID then (w, Some(DispatchRouting(d, w.awbs.byID[d.awbID]))) else (w, None)
    case DispatchRouting(d, a) =>
      (match Ship(a, d, x.outside)
       case None => (w, None)
       case Some((c, resp)) =>
         var sent := w.(shipments := w.shipments + [Shipment(d.id, d.idempotencyKey, c.caps.id)]);
         match Assign(d, c, resp)
         case None => (sent, None)
         case Some(d') => (sent, Some(SaveCopy(d', d.state))))
    case SaveCopy(d, _) => (w.(deliveries := w.deliveries.Save(d)), None)
    case SaveThenRecord(d, _, input) => (w.(deliveries := w.deliveries.Save(d)), Some(RecordStart(input)))
    case RecordStart(input) =>
      if input.deliveryID !in w.deliveries.byID then (w, None)
      else (w, Some(RecordCopied(w.deliveries.byID[input.deliveryID], ToEvent(input, w.clock))))
    case RecordCopied(d, e) =>
      if Validate(e).Some? then (w, None)
      else
        (match LastByDelivery(env, w.store, e.deliveryID)
         case None => (w, None)
         case Some(tail) => (w, Some(RecordSealing(d, e, tail))))
    case RecordSealing(d, e, tail) =>
      if !FreshEvent(w.store, x.eventID) then (w, Some(call))
      else
        (match Seal(env, e, tail, x.eventID)
         case None => (w, None)
         case Some(sealed) =>
           match Append(env, w.store, sealed)
           case None => (w, None)
           case Some(st') => (w.(store := st'), Some(RecordAppended(d, e.kind))))
    case RecordAppended(d, kind) =>
      (match ApplyDeliveryTransition(d, kind, w.clock)
       case None => (w, None)
       case Some(d') => (w, Some(SaveCopy(d', d.state))))
  }

  function Later(w: World, elapsed: nat): World {
    w.(clock := w.clock + elapsed)
  }

  function Proceed(env: Env, w: World, call: Call, x: Chance): (World, Option<Call>) {
    Access(env, Later(w, x.elapsed), call, x)
  }

  function SetCall(calls: map<nat, Call>, c: nat, call: Option<Call>): map<nat, Call> {
    if call.Some? then calls[c := call.value] else calls - {c}
  }

  /** A step that is not enabled leaves the system as it is. */
  function Next(env: Env, s: System, step: Step): System {
    match step
    case Die(c) => s.(calls := s.calls - {c})
    case Advance(c, chance) =>
      if c !in s.calls then s
      else
        var (w', call) := Proceed(env, s.w, s.calls[c], chance);
        System(w', SetCall(s.calls, c, call))
    case _ =>
      if step.c in s.calls then s
      else s.(calls := SetCall(s.calls, step.c, Begin(s.w, step)))
  }

  function Exec(env: Env, s: System, steps: seq<Step>): System {
    if steps == [] then s else Next(env, Exec(env, s, steps[..|steps| - 1]), steps[|steps| - 1])
  }

  /** A call of the next state was there before, or went one access on, or began. */
  lemma NextCall(env: Env, s: System, step: Step, c: nat)
    requires c in Next(env, s, step).calls
    ensures var call := Next(env, s, step).calls[c];
      || (c in s.calls && call == s.calls[c])
      || (step.Advance? && step.c == c && c in s.calls
          && Proceed(env, s.w, s.calls[c], step.chance).1 == Some(call))
      || Begin(s.w, step) == Some(call)
  {}

  lemma {:induction false} ExecCons(env: Env, s: System, step: Step, steps: seq<Step>)
    ensures Exec(env, s, [step] + steps) == Exec(env, Next(env, s, step), steps)
  {
    var all := [step] + steps;
    if steps == [] {
      assert all[..0] == [] && all[0] == step;
      assert Exec(env, s, all[..|all| - 1]) == s;
    } else {
      assert all[..|all| - 1] == [step] + steps[..|steps| - 1];
      ExecCons(env, s, step, steps[..|steps| - 1]);
    }
  }

  lemma ExecSnoc(env: Env, s: System, steps: seq<Step>, step: Step)
    ensures Exec(env, s, steps + [step]) == Next(env, Exec(env, s, steps), step)
  {
    assert (steps + [step])[..|steps|] == steps;
  }

  lemma {:induction false} ExecConcat(env: Env, s: System, steps: seq<Step>, more: seq<Step>)
    ensures Exec(env, s, steps + more) == Exec(env, Exec(env, s, steps), more)
  {
    if more == [] {
      assert steps + more == steps;
    } else {
      var all := steps + more;
      assert all[..|all| - 1] == steps + more[..|more| - 1];
      ExecConcat(env, s, steps, more[..|more| - 1]);
    }
  }

  /** Nothing stored, nothing in flight. */
  predicate IsInitial(s: System) {
    && (s.w.store == Memory(map[]) || s.w.store == Postgres([]))
    && s.w.deliveries == NO_DELIVERIES
    && s.w.awbs == AwbTable(map[], map[])
    && s.w.shipments == []
    && s.calls == map[]
  }

  // ------------------------------------------------------------ evidence trails

  /** An event of the given kind with at least one photo and a location. */
  predicate Attests(e: Event, kind: EventType) {
    e.kind == kind && |e.PhotoList()| >= 1 && e.location.Some?
  }

  /** The list holds attested events of these kinds, in this order. */
  predicate HasTrail(es: seq<Event>, kinds: seq<EventType>) {
    if kinds == [] then true
    else if es == [] then false
    else
      var (rest, e, k) := (es[..|es| - 1], es[|es| - 1], kinds[|kinds| - 1]);
      HasTrail(rest, kinds) || (Attests(e, k) && HasTrail(rest, kinds[..|kinds| - 1]))
  }

  /** The trail a delivery must have left when it is in a state. */
  function Trail(s: State): seq<EventType> {
    match s
    case EnRoutePickup => [RiderArrivedAtLocker]
    case PickedUp | InTransit | EnRouteDrop => [RiderArrivedAtLocker, PackagePickedUp]
    case Delivered => [RiderArrivedAtLocker, PackagePickedUp, PackageDelivered]
    case _ => []
  }

  lemma TrailSnoc(es: seq<Event>, e: Event, kinds: seq<EventType>, kind: EventType)
    requires HasTrail(es, kinds)
    ensures HasTrail(es + [e], kinds)
    ensures Attests(e, kind) ==> HasTrail(es + [e], kinds + [kind])
  {
    assert (es + [e])[..|es|] == es;
    assert (kinds + [kind])[..|kinds|] == kinds;
  }

  lemma {:induction false} TrailGrows(es: seq<Event>, fs: seq<Event>, kinds: seq<EventType>)
    requires HasTrail(es, kinds) && IsPrefix(es, fs)
    ensures HasTrail(fs, kinds)
    decreases |fs|
  {
    if |es| < |fs| {
      assert fs[..|fs| - 1][..|es|] == es;
      TrailGrows(es, fs[..|fs| - 1], kinds);
    } else {
      assert fs == es;
    }
  }

  /** A trail of one, two or three kinds, spelled out with positions. */
  lemma {:induction false} TrailPositions(es: seq<Event>, kinds: seq<EventType>) returns (at: seq<nat>)
    requires HasTrail(es, kinds)
    ensures |at| == |kinds|
    ensures forall i :: 0 <= i < |at| ==> at[i] < |es| && Attests(es[at[i]], kinds[i])
    ensures forall i, j :: 0 <= i < j < |at| ==> at[i] < at[j]
    decreases |es|
  {
    if kinds == [] {
      at := [];
    } else {
      var rest := es[..|es| - 1];
      if HasTrail(rest, kinds) {
        at := TrailPositions(rest, kinds);
      } else {
        at := TrailPositions(rest, kinds[..|kinds| - 1]);
        at := at + [|rest|];
      }
    }
  }

  /** Recording an attested event and then making the transition it stands for
      completes the trail of the new state. */
  lemma TransitionCompletesTrail(es: seq<Event>, d: Snapshot, kind: EventType, at: int)
    requires HasTrail(es, Trail(d.state))
    requires RequiresPhoto(kind) && RequiresGPS(kind) ==> HasTrail(es, Trail(d.state) + [kind])
    requires ApplyDeliveryTransition(d, kind, at).Some?
    ensures HasTrail(es, Trail(ApplyDeliveryTransition(d, kind, at).value.state))
  {
    TrailOfMove(d, kind, at, ApplyDeliveryTransition(d, kind, at).value);
  }

  /** A checkpoint adds its kind to the trail; other events lead to states with the
      same trail or with none. */
  lemma TrailOfMove(d: Snapshot, kind: EventType, at: int, d': Snapshot)
    requires ApplyDeliveryTransition(d, kind, at) == Some(d')
    ensures if kind in {RiderArrivedAtLocker, PackagePickedUp, PackageDelivered}
            then Trail(d'.state) == Trail(d.state) + [kind]
            else Trail(d'.state) in {Trail(d.state), []}
  {}

  // ----------------------------------------------------------------- invariants

  /** Delivered exactly when the drop time is set; picked up or further implies
      the pickup time is set; pickup before drop, neither in the future. */
  predicate TimesOk(w: World, d: Snapshot) {
    && (d.state == Delivered <==> d.actualDropAt.Some?)
    && (d.state in {PickedUp, InTransit, EnRouteDrop, Delivered} ==> d.actualPickupAt.Some?)
    && (d.actualPickupAt.Some? ==> d.actualPickupAt.value <= w.clock)
    && (d.actualDropAt.Some? ==>
          d.actualPickupAt.Some? && d.actualPickupAt.value <= d.actualDropAt.value <= w.clock)
  }

  /** What holds of every copy of a delivery, stored or in flight, whatever the
      other calls did since it was read. */
  predicate CopyFacts(w: World, d: Snapshot) {
    && d.id != NIL_ID
    && TimesOk(w, d)
    && d.idempotencyKey == Some(d.id)
    && (d.state == Pending ==> d.carrierExternalID == "")
    && d.awbID in w.awbs.byID
  }

  /** A copy of a delivery that is stored, under the same AWB. */
  predicate CopyOk(w: World, d: Snapshot) {
    && CopyFacts(w, d)
    && d.id in w.deliveries.byID
    && w.deliveries.byID[d.id].awbID == d.awbID
  }

  ghost predicate WorldOk(w: World) {
    && w.deliveries.Coherent()
    && w.awbs.Coherent()
    && (forall k :: k in w.deliveries.byID ==> CopyFacts(w, w.deliveries.byID[k]))
    && (forall sh :: sh in w.shipments ==> sh.idempotencyKey == Some(sh.deliveryID))
  }

  predicate OneEdge(s: State, t: State) {
    s == t || CanTransition(s, t)
  }

  /** A delivery as `CreateBooking` prepares it. */
  predicate NewBooking(d: Snapshot) {
    && d.state == Pending && d.actualPickupAt == None && d.actualDropAt == None
    && d.idempotencyKey == Some(d.id) && d.carrierExternalID == ""
  }

  predicate CallOk(w: World, call: Call) {
    match call
    case BookAwb(a, d) => d.awbID == a.id && NewBooking(d)
    case BookDelivery(d) => d.awbID in w.awbs.byID && NewBooking(d)
    case DispatchCopied(d) => CopyOk(w, d) && d.state == Pending
    case DispatchRouting(d, _) => CopyOk(w, d) && d.state == Pending
    case SaveCopy(d, read) => CopyOk(w, d) && OneEdge(read, d.state)
    case SaveThenRecord(d, read, x) => CopyOk(w, d) && OneEdge(read, d.state) && x.deliveryID == d.id
    case RecordStart(_) => true
    case RecordCopied(d, e) => CopyOk(w, d) && e.deliveryID == d.id && e.metadata == []
    case RecordSealing(d, e, _) => CopyOk(w, d) && e.deliveryID == d.id && e.metadata == [] && Validate(e).None?
    case RecordAppended(d, _) => CopyOk(w, d)
  }

  ghost predicate SystemOk(s: System) {
    WorldOk(s.w) && forall c :: c in s.calls ==> CallOk(s.w, s.calls[c])
  }

  /** What only ever grows: time, the AWBs, the shipments and the stored
      deliveries, each under its AWB. */
  ghost predicate Grows(w: World, w': World) {
    && w.clock <= w'.clock
    && w.awbs.byID.Keys <= w'.awbs.byID.Keys
    && (forall k :: k in w.deliveries.byID ==>
          k in w'.deliveries.byID && w'.deliveries.byID[k].awbID == w.deliveries.byID[k].awbID)
    && IsPrefix(w.shipments, w'.shipments)
  }

  lemma GrowsTransitive(u: World, v: World, w: World)
    requires Grows(u, v) && Grows(v, w)
    ensures Grows(u, w)
  {
    PrefixTransitive(u.shipments, v.shipments, w.shipments);
  }

  lemma FactsStay(w: World, w': World, d: Snapshot)
    requires Grows(w, w') && CopyFacts(w, d)
    ensures CopyFacts(w', d)
  {}

  /** Whatever the others do, a call keeps what it relies on. */
  lemma CallStays(w: World, w': World, call: Call)
    requires Grows(w, w') && CallOk(w, call)
    ensures CallOk(w', call)
  {
    if !call.BookAwb? && !call.BookDelivery? && !call.RecordStart? {
      FactsStay(w, w', call.d);
    }
  }
}
