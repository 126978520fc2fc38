/** What copies in flight can still do to a stored delivery. A call that read the
    delivery some time ago may save it in another state, or dispatch it again;
    whether that can happen is decided by the calls in flight, exactly. */
module StaleCopies {
  import opened Common
  import opened Events
  import opened Encoding
  import opened HashChain
  import opened CustodyStore
  import opened Recording
  import opened StateGraph
  import opened Deliveries
  import opened Repositories
  import opened Carriers
  import opened Strategies
  import opened RoutingEngine
  import opened Operations
  import opened Interleaving
  import opened InterleavedSafety
  import opened InterleavedEvidence
  import opened InterleavedTheorems

  // ----------------------------------------------- what a call may still save

  function Moved(s: State, t: State): Option<State> {
    if CanTransition(s, t) then Some(t) else None
  }

  /** The state a custody event takes a delivery to, `None` if it is refused. */
  function NextState(s: State, kind: EventType): Option<State> {
    match kind
    case RiderAssigned => Moved(s, Assigned)
    case RiderArrivedAtLocker => Moved(s, EnRoutePickup)
    case PackagePickedUp => Moved(s, PickedUp)
    case RiderInTransit => Moved(s, InTransit)
    case RiderArrivedAtDestination => Moved(s, EnRouteDrop)
    case PackageDelivered => Moved(s, Delivered)
    case DeliveryFailed => Moved(s, Failed)
    case _ => Some(s)
  }

  lemma ApplyMoves(d: Snapshot, kind: EventType, at: int)
    ensures var r := ApplyDeliveryTransition(d, kind, at);
      && (r.Some? <==> NextState(d.state, kind).Some?)
      && (r.Some? ==> r.value.state == NextState(d.state, kind).value && r.value.id == d.id)
  {}

  ghost predicate Accepts(env: Env, st: Store, e: Event, tail: Option<Event>, id: Id) {
    FreshEvent(st, id) && Seal(env, e, tail, id).Some? && Append(env, st, Seal(env, e, tail, id).value).Some?
  }

  ghost predicate CanAppend(env: Env, st: Store, e: Event, tail: Option<Event>) {
    exists id :: Accepts(env, st, e, tail, id)
  }

  predicate Marshals(env: Env, st: Store, e: Event, id: Id) {
    FreshEvent(st, id) && env.marshal(PayloadOf(e).(eventID := id)).Some?
  }

  ghost predicate CanMarshal(env: Env, st: Store, e: Event) {
    exists id :: Marshals(env, st, e, id)
  }

  /** The call, if it goes on, may save delivery k in state u from what it holds. */
  ghost predicate MaySave(env: Env, st: Store, call: Call, k: Id, u: State) {
    match call
    case SaveCopy(d, _) => d.id == k && d.state == u
    case SaveThenRecord(d, _, _) => d.id == k && d.state == u
    case DispatchCopied(d) => d.id == k && u == Assigned
    case DispatchRouting(d, _) => d.id == k && u == Assigned
    case RecordAppended(d, kind) => d.id == k && NextState(d.state, kind) == Some(u)
    case RecordSealing(d, e, tail) =>
      d.id == k && NextState(d.state, e.kind) == Some(u) && CanAppend(env, st, e, tail)
    case RecordCopied(d, e) =>
      d.id == k && NextState(d.state, e.kind) == Some(u) && Validate(e).None? && CanMarshal(env, st, e)
    case _ => false
  }

  ghost predicate InFlight(env: Env, s: System, k: Id, u: State) {
    exists c :: c in s.calls && MaySave(env, s.w.store, s.calls[c], k, u)
  }

  predicate Dispatching(call: Call, k: Id) {
    (call.DispatchCopied? || call.DispatchRouting?) && call.d.id == k
  }

  // -------------------------------------------- it never becomes more than that

  /** Everything stored in st is stored in st'. */
  predicate Extends(st: Store, st': Store) {
    match (st, st')
    case (Memory(a), Memory(b)) => forall d | d in a :: d in b && a[d] <= b[d]
    case (Postgres(rows), Postgres(rows')) => rows <= rows'
    case _ => false
  }

  lemma FreshBefore(st: Store, st': Store, id: Id)
    requires Extends(st, st') && FreshEvent(st', id)
    ensures FreshEvent(st, id)
  {
    match (st, st') {
      case (Memory(a), Memory(b)) =>
        forall d | d in a ensures !HasEvent(a[d], id) {
          assert forall i :: 0 <= i < |a[d]| ==> b[d][i] == a[d][i];
        }
      case (Postgres(rows), Postgres(rows')) =>
        assert forall i :: 0 <= i < |rows| ==> rows'[i] == rows[i];
      case _ =>
    }
  }

  lemma AcceptedBefore(env: Env, st: Store, st': Store, e: Event, tail: Option<Event>, id: Id)
    requires Extends(st, st') && Accepts(env, st', e, tail, id)
    ensures Accepts(env, st, e, tail, id)
  {
    FreshBefore(st, st', id);
    if st.Postgres? {
      var f := Seal(env, e, tail, id).value;
      assert forall i :: 0 <= i < |st.rows| ==> st'.rows[i] == st.rows[i];
      assert !Occupied(st'.rows, f.deliveryID, f.sequenceNum);
    }
  }

  lemma MaySaveBefore(env: Env, st: Store, st': Store, call: Call, k: Id, u: State)
    requires Extends(st, st') && MaySave(env, st', call, k, u)
    ensures MaySave(env, st, call, k, u)
  {
    match call {
      case RecordSealing(d, e, tail) =>
        var id :| Accepts(env, st', e, tail, id);
        AcceptedBefore(env, st, st', e, tail, id);
      case RecordCopied(d, e) =>
        var id :| Marshals(env, st', e, id);
        FreshBefore(st, st', id);
        assert Marshals(env, st, e, id);
      case _ =>
    }
  }

  lemma AppendExtendsStore(env: Env, st: Store, e: Event)
    ensures Append(env, st, e).Some? ==> Extends(st, Append(env, st, e).value)
  {}

  lemma NextExtends(env: Env, s: System, step: Step)
    ensures Extends(s.w.store, Next(env, s, step).w.store)
  {
    var appends := NextStore(env, s, step);
    if appends {
      var call := s.calls[step.c];
      AppendExtendsStore(env, s.w.store, Seal(env, call.e, call.tail, step.chance.eventID).value);
    }
  }

  /** The delivery k is stored in a state from which one edge, or none, leads to u. */
  predicate NearStored(w: World, k: Id, u: State) {
    k in w.deliveries.byID && OneEdge(w.deliveries.byID[k].state, u)
  }

  lemma AppendedMaySave(env: Env, w: World, call: Call, x: Chance, k: Id, u: State)
    requires call.RecordSealing? && Access(env, w, call, x).1 == Some(RecordAppended(call.d, call.e.kind))
    requires MaySave(env, w.store, RecordAppended(call.d, call.e.kind), k, u)
    ensures MaySave(env, w.store, call, k, u)
  {
    assert Accepts(env, w.store, call.e, call.tail, x.eventID);
  }

  lemma SealingMaySave(env: Env, st: Store, d: Snapshot, e: Event, tail: Option<Event>, k: Id, u: State)
    requires Validate(e).None? && MaySave(env, st, RecordSealing(d, e, tail), k, u)
    ensures MaySave(env, st, RecordCopied(d, e), k, u)
  {
    var id :| Accepts(env, st, e, tail, id);
    assert Marshals(env, st, e, id);
  }

  lemma TransitionMaySave(env: Env, w: World, call: Call, x: Chance, k: Id, u: State)
    requires call.RecordAppended?
    ensures var r := Access(env, w, call, x).1;
      r.Some? && MaySave(env, w.store, r.value, k, u) ==> MaySave(env, w.store, call, k, u)
  {
    ApplyMoves(call.d, call.kind, w.clock);
  }

  /** Going on, a call keeps to what it might save before, but for a copy it reads
      just then. */
  lemma AccessMaySave(env: Env, w: World, call: Call, x: Chance, k: Id, u: State)
    requires w.deliveries.Keyed()
    requires Access(env, w, call, x).1.Some? && MaySave(env, w.store, Access(env, w, call, x).1.value, k, u)
    ensures MaySave(env, w.store, call, k, u) || NearStored(w, k, u)
  {
    match call {
      case RecordSealing(d, e, tail) =>
        AppendShape(env, w, d, e, tail, x);
        if Access(env, w, call, x).1 == Some(RecordAppended(d, e.kind)) {
          AppendedMaySave(env, w, call, x, k, u);
        }
      case RecordCopied(d, e) =>
        SealingMaySave(env, w.store, d, e, LastByDelivery(env, w.store, e.deliveryID).value, k, u);
      case RecordAppended(d, kind) => TransitionMaySave(env, w, call, x, k, u);
      case _ =>
    }
  }

  lemma BeginMaySave(env: Env, w: World, step: Step, k: Id, u: State)
    requires w.deliveries.Keyed()
    requires Begin(w, step).Some? && MaySave(env, w.store, Begin(w, step).value, k, u)
    ensures NearStored(w, k, u)
  {}

  /** An access leaves a stored delivery as it is or saves what it might. */
  lemma AccessSaves(env: Env, w: World, call: Call, x: Chance, k: Id)
    requires w.deliveries.Keyed() && k in w.deliveries.byID
    ensures var t := Access(env, w, call, x).0.deliveries;
      && t.Keyed() && k in t.byID
      && (t.byID[k].state == w.deliveries.byID[k].state || MaySave(env, w.store, call, k, t.byID[k].state))
  {}

  // --------------------------------------------------------- confined to states

  /** No edge of the graph leaves the set. */
  ghost predicate Closed(states: set<State>) {
    forall s, t :: s in states && CanTransition(s, t) ==> t in states
  }

  /** Delivery k is stored in one of the states, and no call may save it in another. */
  ghost predicate Confined(env: Env, s: System, k: Id, states: set<State>) {
    && s.w.deliveries.Keyed()
    && k in s.w.deliveries.byID && s.w.deliveries.byID[k].state in states
    && forall u :: InFlight(env, s, k, u) ==> u in states
  }

  lemma ConfinedCall(env: Env, s: System, k: Id, states: set<State>, c: nat, u: State)
    requires Confined(env, s, k, states) && c in s.calls && MaySave(env, s.w.store, s.calls[c], k, u)
    ensures u in states
  {
    assert InFlight(env, s, k, u);
  }

  lemma ConfinedStored(env: Env, s: System, step: Step, k: Id, states: set<State>)
    requires Confined(env, s, k, states)
    ensures var t := Next(env, s, step).w.deliveries;
      t.Keyed() && k in t.byID && t.byID[k].state in states
  {
    StepWorld(env, s, step);
    if step.Advance? && step.c in s.calls {
      var w := Later(s.w, step.chance.elapsed);
      var call := s.calls[step.c];
      AccessSaves(env, w, call, step.chance, k);
      var u := Access(env, w, call, step.chance).0.deliveries.byID[k].state;
      if u != s.w.deliveries.byID[k].state {
        ConfinedCall(env, s, k, states, step.c, u);
      }
    }
  }

  lemma NextMaySave(env: Env, s: System, step: Step, k: Id, states: set<State>, c: nat, u: State)
    requires Closed(states) && Confined(env, s, k, states)
    requires c in Next(env, s, step).calls
    requires MaySave(env, Next(env, s, step).w.store, Next(env, s, step).calls[c], k, u)
    ensures u in states
  {
    var call := Next(env, s, step).calls[c];
    NextExtends(env, s, step);
    MaySaveBefore(env, s.w.store, Next(env, s, step).w.store, call, k, u);
    NextCall(env, s, step, c);
    if c in s.calls && call == s.calls[c] {
      ConfinedCall(env, s, k, states, c, u);
    } else if Begin(s.w, step) == Some(call) {
      BeginMaySave(env, s.w, step, k, u);
    } else {
      AccessMaySave(env, Later(s.w, step.chance.elapsed), s.calls[c], step.chance, k, u);
      if MaySave(env, s.w.store, s.calls[c], k, u) {
        ConfinedCall(env, s, k, states, c, u);
      }
    }
  }

  lemma NextConfined(env: Env, s: System, step: Step, k: Id, states: set<State>)
    requires Closed(states) && Confined(env, s, k, states)
    ensures Confined(env, Next(env, s, step), k, states)
  {
    var s' := Next(env, s, step);
    ConfinedStored(env, s, step, k, states);
    forall u | InFlight(env, s', k, u) ensures u in states {
      var c :| c in s'.calls && MaySave(env, s'.w.store, s'.calls[c], k, u);
      NextMaySave(env, s, step, k, states, c, u);
    }
  }

  /** Once a delivery is confined to a closed set of states, it stays there in every
      continuation. */
  lemma {:induction false} ExecConfined(env: Env, s: System, steps: seq<Step>, k: Id, states: set<State>)
    requires Closed(states) && Confined(env, s, k, states)
    ensures Confined(env, Exec(env, s, steps), k, states)
  {
    if steps != [] {
      ExecConfined(env, s, steps[..|steps| - 1], k, states);
      NextConfined(env, Exec(env, s, steps[..|steps| - 1]), steps[|steps| - 1], k, states);
    }
  }

  // ------------------------------------------------ and all of it can happen

  /** One carrier that takes any parcel anywhere. */
  function Willing(a: Awb, d: Snapshot): Outside {
    var mode := BuildShipmentRequest(a, d).pickupMode;
    var c := Carrier(0, Capabilities("willing", [LastMile], a.weightKg, Dims(0.0, 0.0, 0.0), [mode], true));
    Outside(Cheapest, [c], _ => Some(Estimate(0, "RON", 0, 1.0)), _ => Some(ShipmentResponse("shipment", None, None)))
  }

  lemma WillingShips(a: Awb, d: Snapshot)
    ensures Ship(a, d, Willing(a, d)).Some?
    ensures Ship(a, d, Willing(a, d)).value.1.externalID == "shipment"
  {
    var o := Willing(a, d);
    var req := BuildShipmentRequest(a, d);
    var c := o.fleet[0];
    DispatchIgnoresSize(a, d, c.caps.maxDims);
    assert c.caps.roles[0] == LastMile && c.caps.pickupModes[0] == req.pickupMode;
    assert IsEligible(c, req, LastMile);
    assert InPlay(o.fleet, req, LastMile, o.estimates, c);
    DecideErrorsExactly(o.strategy, o.fleet, req, LastMile, o.estimates);
  }

  ghost predicate StoredIn(s: System, id: Id, state: State) {
    id in s.w.deliveries.byID && s.w.deliveries.byID[id].state == state
  }

  lemma SaveStores(env: Env, s: System, c: nat, k: Id, u: State)
    requires c in s.calls && (s.calls[c].SaveCopy? || s.calls[c].SaveThenRecord?)
    requires s.calls[c].d.id == k && s.calls[c].d.state == u
    ensures StoredIn(Next(env, s, Advance(c, AT_ONCE)), k, u)
  {}

  lemma RealizeSave(env: Env, s: System, c: nat, k: Id, u: State) returns (steps: seq<Step>)
    requires c in s.calls && (s.calls[c].SaveCopy? || s.calls[c].SaveThenRecord?)
    requires s.calls[c].d.id == k && s.calls[c].d.state == u
    ensures StoredIn(Exec(env, s, steps), k, u)
  {
    var none: seq<Step> := [];
    steps := [Advance(c, AT_ONCE)] + none;
    ExecCons(env, s, Advance(c, AT_ONCE), none);
    SaveStores(env, s, c, k, u);
  }

  lemma MovesOn(env: Env, s: System, c: nat, x: Chance, call: Call)
    requires c in s.calls && Proceed(env, s.w, s.calls[c], x).1 == Some(call)
    ensures c in Next(env, s, Advance(c, x)).calls && Next(env, s, Advance(c, x)).calls[c] == call
  {}

  lemma RealizeTransition(env: Env, s: System, c: nat, k: Id, u: State) returns (steps: seq<Step>)
    requires c in s.calls && s.calls[c].RecordAppended? && MaySave(env, s.w.store, s.calls[c], k, u)
    ensures StoredIn(Exec(env, s, steps), k, u)
  {
    var d := s.calls[c].d;
    ApplyMoves(d, s.calls[c].kind, s.w.clock);
    var d' := ApplyDeliveryTransition(d, s.calls[c].kind, s.w.clock).value;
    MovesOn(env, s, c, AT_ONCE, SaveCopy(d', d.state));
    var more := RealizeSave(env, Next(env, s, Advance(c, AT_ONCE)), c, k, u);
    ExecCons(env, s, Advance(c, AT_ONCE), more);
    steps := [Advance(c, AT_ONCE)] + more;
  }

  lemma RealizeAppend(env: Env, s: System, c: nat, k: Id, u: State) returns (steps: seq<Step>)
    requires c in s.calls && s.calls[c].RecordSealing? && MaySave(env, s.w.store, s.calls[c], k, u)
    ensures StoredIn(Exec(env, s, steps), k, u)
  {
    var call := s.calls[c];
    var id :| Accepts(env, s.w.store, call.e, call.tail, id);
    var x := AT_ONCE.(eventID := id);
    MovesOn(env, s, c, x, RecordAppended(call.d, call.e.kind));
    var more := RealizeTransition(env, Next(env, s, Advance(c, x)), c, k, u);
    ExecCons(env, s, Advance(c, x), more);
    steps := [Advance(c, x)] + more;
  }

  /** The store takes an event that marshals and is sealed to its current tail. */
  lemma CurrentTailIsAccepted(env: Env, st: Store, e: Event, id: Id)
    requires Trusted(env, st) && LedgerOk(env, st) && Marshals(env, st, e, id)
    ensures Accepts(env, st, e, LastOf(EventsOf(env, st, e.deliveryID)), id)
  {
    var es := EventsOf(env, st, e.deliveryID);
    if st.Postgres? {
      assert es[..|es|] == es;
      StaleWriter(env, st, e, id, |es|);
    }
  }

  lemma TailIsRead(env: Env, s: System, c: nat, k: Id, u: State)
    requires Trusted(env, s.w.store) && LedgerOk(env, s.w.store)
    requires c in s.calls && s.calls[c].RecordCopied? && MaySave(env, s.w.store, s.calls[c], k, u)
    ensures var s' := Next(env, s, Advance(c, AT_ONCE));
      c in s'.calls && s'.calls[c].RecordSealing? && MaySave(env, s'.w.store, s'.calls[c], k, u)
  {
    var (d, e) := (s.calls[c].d, s.calls[c].e);
    var id :| Marshals(env, s.w.store, e, id);
    CurrentTail(env, s.w.store, e.deliveryID);
    CurrentTailIsAccepted(env, s.w.store, e, id);
    var tail := LastOf(EventsOf(env, s.w.store, e.deliveryID));
    assert Access(env, Later(s.w, 0), s.calls[c], AT_ONCE) == (Later(s.w, 0), Some(RecordSealing(d, e, tail)));
  }

  lemma RealizeRecord(env: Env, s: System, c: nat, k: Id, u: State) returns (steps: seq<Step>)
    requires Trusted(env, s.w.store) && LedgerOk(env, s.w.store)
    requires c in s.calls && s.calls[c].RecordCopied? && MaySave(env, s.w.store, s.calls[c], k, u)
    ensures StoredIn(Exec(env, s, steps), k, u)
  {
    TailIsRead(env, s, c, k, u);
    var more := RealizeAppend(env, Next(env, s, Advance(c, AT_ONCE)), c, k, u);
    ExecCons(env, s, Advance(c, AT_ONCE), more);
    steps := [Advance(c, AT_ONCE)] + more;
  }

  lemma ShippedNext(env: Env, s: System, c: nat, d: Snapshot, a: Awb)
    requires c in s.calls && s.calls[c] == DispatchRouting(d, a) && d.state == Pending
    ensures var s' := Next(env, s, Advance(c, AT_ONCE.(outside := Willing(a, d))));
      && c in s'.calls && s'.calls[c].SaveCopy? && s'.calls[c].d.id == d.id && s'.calls[c].d.state == Assigned
      && |s'.w.shipments| == |s.w.shipments| + 1 && s'.w.shipments[..|s.w.shipments|] == s.w.shipments
      && s'.w.shipments[|s.w.shipments|].deliveryID == d.id
  {
    WillingShips(a, d);
  }

  lemma RealizeRouting(env: Env, s: System, c: nat, k: Id) returns (steps: seq<Step>)
    requires SystemOk(s) && c in s.calls && s.calls[c].DispatchRouting? && s.calls[c].d.id == k
    ensures StoredIn(Exec(env, s, steps), k, Assigned)
  {
    var (d, a) := (s.calls[c].d, s.calls[c].a);
    assert CallOk(s.w, s.calls[c]);
    var x := AT_ONCE.(outside := Willing(a, d));
    ShippedNext(env, s, c, d, a);
    var more := RealizeSave(env, Next(env, s, Advance(c, x)), c, k, Assigned);
    ExecCons(env, s, Advance(c, x), more);
    steps := [Advance(c, x)] + more;
  }

  lemma AwbIsRead(env: Env, s: System, c: nat, d: Snapshot)
    requires SystemOk(s) && c in s.calls && s.calls[c] == DispatchCopied(d)
    ensures d.awbID in s.w.awbs.byID
    ensures Next(env, s, Advance(c, AT_ONCE))
         == System(s.w, s.calls[c := DispatchRouting(d, s.w.awbs.byID[d.awbID])])
  {
    assert CallOk(s.w, s.calls[c]);
  }

  lemma RealizeDispatch(env: Env, s: System, c: nat, k: Id) returns (steps: seq<Step>)
    requires SystemOk(s) && c in s.calls && s.calls[c].DispatchCopied? && s.calls[c].d.id == k
    ensures StoredIn(Exec(env, s, steps), k, Assigned)
  {
    AwbIsRead(env, s, c, s.calls[c].d);
    NextOk(env, s, Advance(c, AT_ONCE));
    var more := RealizeRouting(env, Next(env, s, Advance(c, AT_ONCE)), c, k);
    ExecCons(env, s, Advance(c, AT_ONCE), more);
    steps := [Advance(c, AT_ONCE)] + more;
  }

  /** What a call may save it can be made to save. */
  lemma Realize(env: Env, s: System, c: nat, k: Id, u: State) returns (steps: seq<Step>)
    requires Trusted(env, s.w.store) && LedgerOk(env, s.w.store) && SystemOk(s)
    requires c in s.calls && MaySave(env, s.w.store, s.calls[c], k, u)
    ensures StoredIn(Exec(env, s, steps), k, u)
  {
    match s.calls[c] {
      case DispatchCopied(_) => steps := RealizeDispatch(env, s, c, k);
      case DispatchRouting(_, _) => steps := RealizeRouting(env, s, c, k);
      case RecordCopied(_, _) => steps := RealizeRecord(env, s, c, k, u);
      case RecordSealing(_, _, _) => steps := RealizeAppend(env, s, c, k, u);
      case RecordAppended(_, _) => steps := RealizeTransition(env, s, c, k, u);
      case _ => steps := RealizeSave(env, s, c, k, u);
    }
  }

  // ------------------------------------------------------------ terminal states

  /** Some continuation stores delivery k in another state. */
  ghost predicate CanLeave(env: Env, s: System, k: Id, state: State) {
    exists steps, u :: u != state && StoredIn(Exec(env, s, steps), k, u)
  }

  /** A terminal state is left by some continuation exactly if a call in flight may
      save the delivery in another state. */
  lemma TerminalIsLeftIff(env: Env, s: System, start: System, steps: seq<Step>, k: Id, t: State)
    requires Trusted(env, start.w.store) && Reached(env, s, start, steps)
    requires StoredIn(s, k, t) && IsTerminal(t)
    ensures CanLeave(env, s, k, t) <==> exists u :: u != t && InFlight(env, s, k, u)
  {
    ReachedOk(env, s, start, steps);
    ReachedEvidence(env, s, start, steps);
    if u :| u != t && InFlight(env, s, k, u) {
      var c :| c in s.calls && MaySave(env, s.w.store, s.calls[c], k, u);
      var more := Realize(env, s, c, k, u);
      assert u != t && StoredIn(Exec(env, s, more), k, u);
    } else {
      GraphShape(t);
      assert Closed({t}) && Confined(env, s, k, {t});
      forall more, u | StoredIn(Exec(env, s, more), k, u) ensures u == t {
        ExecConfined(env, s, more, k, {t});
      }
    }
  }

  // ---------------------------------------------------------------- shipments

  function ShipmentsFor(shipments: seq<Shipment>, k: Id): nat {
    if shipments == [] then 0
    else
      ShipmentsFor(shipments[..|shipments| - 1], k) + if shipments[|shipments| - 1].deliveryID == k then 1 else 0
  }

  lemma ShipmentsSnoc(shipments: seq<Shipment>, sh: Shipment, k: Id)
    ensures ShipmentsFor(shipments + [sh], k) == ShipmentsFor(shipments, k) + if sh.deliveryID == k then 1 else 0
  {
    assert (shipments + [sh])[..|shipments|] == shipments;
  }

  lemma {:induction false} MoreShipments(shipments: seq<Shipment>, more: seq<Shipment>, k: Id)
    requires IsPrefix(shipments, more)
    ensures ShipmentsFor(shipments, k) <= ShipmentsFor(more, k)
    decreases |more|
  {
    if |shipments| < |more| {
      assert more[..|more| - 1][..|shipments|] == shipments;
      MoreShipments(shipments, more[..|more| - 1], k);
    } else {
      assert more == shipments;
    }
  }

  /** Some continuation creates another shipment for delivery k. */
  ghost predicate CanShipAgain(env: Env, s: System, k: Id) {
    exists steps :: ShipmentsFor(Exec(env, s, steps).w.shipments, k) > ShipmentsFor(s.w.shipments, k)
  }

  /** A copy that can still be used is pending: the stored one, one being dispatched,
      or one a call may still save. */
  ghost predicate UsablePending(env: Env, s: System, k: Id) {
    || StoredIn(s, k, Pending)
    || (exists c :: c in s.calls && Dispatching(s.calls[c], k))
    || InFlight(env, s, k, Pending)
  }

  const NOT_PENDING: set<State> :=
    {Assigned, EnRoutePickup, PickedUp, InTransit, EnRouteDrop, Delivered, Failed, Cancelled, ReturnedToOrigin}

  lemma AccessShips(env: Env, w: World, call: Call, x: Chance, k: Id)
    requires !Dispatching(call, k)
    ensures ShipmentsFor(Access(env, w, call, x).0.shipments, k) == ShipmentsFor(w.shipments, k)
    ensures Access(env, w, call, x).1.Some? ==> !Dispatching(Access(env, w, call, x).1.value, k)
  {
    match call {
      case DispatchRouting(d, a) =>
        if Ship(a, d, x.outside).Some? {
          ShipmentsSnoc(w.shipments, Shipment(d.id, d.idempotencyKey, Ship(a, d, x.outside).value.0.caps.id), k);
        }
      case _ =>
    }
  }

  lemma BeginDispatches(env: Env, s: System, step: Step, k: Id)
    requires Confined(env, s, k, NOT_PENDING) && Begin(s.w, step).Some?
    ensures !Dispatching(Begin(s.w, step).value, k)
  {}

  ghost predicate Idle(s: System, k: Id) {
    forall c :: c in s.calls ==> !Dispatching(s.calls[c], k)
  }

  lemma NextIdle(env: Env, s: System, step: Step, k: Id)
    requires Confined(env, s, k, NOT_PENDING) && Idle(s, k)
    ensures Idle(Next(env, s, step), k)
    ensures ShipmentsFor(Next(env, s, step).w.shipments, k) == ShipmentsFor(s.w.shipments, k)
  {
    var s' := Next(env, s, step);
    StepWorld(env, s, step);
    if step.Advance? && step.c in s.calls {
      AccessShips(env, Later(s.w, step.chance.elapsed), s.calls[step.c], step.chance, k);
    }
    forall c | c in s'.calls ensures !Dispatching(s'.calls[c], k) {
      NextCall(env, s, step, c);
      if Begin(s.w, step) == Some(s'.calls[c]) {
        BeginDispatches(env, s, step, k);
      }
    }
  }

  lemma {:induction false} ExecIdle(env: Env, s: System, steps: seq<Step>, k: Id)
    requires Closed(NOT_PENDING) && Confined(env, s, k, NOT_PENDING) && Idle(s, k)
    ensures Idle(Exec(env, s, steps), k)
    ensures ShipmentsFor(Exec(env, s, steps).w.shipments, k) == ShipmentsFor(s.w.shipments, k)
  {
    if steps != [] {
      var rest := steps[..|steps| - 1];
      ExecIdle(env, s, rest, k);
      ExecConfined(env, s, rest, k, NOT_PENDING);
      NextIdle(env, Exec(env, s, rest), steps[|steps| - 1], k);
    }
  }

  lemma RoutingShips(env: Env, s: System, c: nat, k: Id) returns (steps: seq<Step>)
    requires SystemOk(s) && c in s.calls && s.calls[c].DispatchRouting? && s.calls[c].d.id == k
    ensures ShipmentsFor(Exec(env, s, steps).w.shipments, k) > ShipmentsFor(s.w.shipments, k)
  {
    var (d, a) := (s.calls[c].d, s.calls[c].a);
    assert CallOk(s.w, s.calls[c]);
    var x := AT_ONCE.(outside := Willing(a, d));
    ShippedNext(env, s, c, d, a);
    var s' := Next(env, s, Advance(c, x));
    assert s'.w.shipments == s.w.shipments + [s'.w.shipments[|s.w.shipments|]];
    ShipmentsSnoc(s.w.shipments, s'.w.shipments[|s.w.shipments|], k);
    var none: seq<Step> := [];
    ExecCons(env, s, Advance(c, x), none);
    steps := [Advance(c, x)] + none;
  }

  lemma DispatchShips(env: Env, s: System, c: nat, k: Id) returns (steps: seq<Step>)
    requires SystemOk(s) && c in s.calls && Dispatching(s.calls[c], k)
    ensures ShipmentsFor(Exec(env, s, steps).w.shipments, k) > ShipmentsFor(s.w.shipments, k)
  {
    if s.calls[c].DispatchRouting? {
      steps := RoutingShips(env, s, c, k);
    } else {
      AwbIsRead(env, s, c, s.calls[c].d);
      NextOk(env, s, Advance(c, AT_ONCE));
      var more := RoutingShips(env, Next(env, s, Advance(c, AT_ONCE)), c, k);
      ExecCons(env, s, Advance(c, AT_ONCE), more);
      steps := [Advance(c, AT_ONCE)] + more;
    }
  }

  lemma DispatchBegins(env: Env, s: System, c: nat, k: Id)
    requires c !in s.calls && StoredIn(s, k, Pending)
    ensures Next(env, s, StartDispatch(c, k)) == System(s.w, s.calls[c := DispatchCopied(s.w.deliveries.byID[k])])
  {}

  /** A call may die and leave its number to a new dispatch. */
  lemma PendingShips(env: Env, s: System, k: Id) returns (steps: seq<Step>)
    requires SystemOk(s) && StoredIn(s, k, Pending)
    ensures ShipmentsFor(Exec(env, s, steps).w.shipments, k) > ShipmentsFor(s.w.shipments, k)
  {
    NextOk(env, s, Die(0));
    var s1 := System(s.w, s.calls - {0});
    assert Next(env, s, Die(0)) == s1;
    var more := NewDispatchShips(env, s1, 0, k);
    ExecCons(env, s, Die(0), more);
    steps := [Die(0)] + more;
  }

  lemma NewDispatchShips(env: Env, s: System, c: nat, k: Id) returns (steps: seq<Step>)
    requires SystemOk(s) && c !in s.calls && StoredIn(s, k, Pending)
    ensures ShipmentsFor(Exec(env, s, steps).w.shipments, k) > ShipmentsFor(s.w.shipments, k)
  {
    DispatchBegins(env, s, c, k);
    NextOk(env, s, StartDispatch(c, k));
    assert s.w.deliveries.byID[k].id == k;
    var more := DispatchShips(env, Next(env, s, StartDispatch(c, k)), c, k);
    ExecCons(env, s, StartDispatch(c, k), more);
    steps := [StartDispatch(c, k)] + more;
  }

  lemma LaterShips(env: Env, s: System, steps: seq<Step>, more: seq<Step>, k: Id)
    requires SystemOk(s)
    requires var s' := Exec(env, s, steps);
      ShipmentsFor(Exec(env, s', more).w.shipments, k) > ShipmentsFor(s'.w.shipments, k)
    ensures CanShipAgain(env, s, k)
  {
    ExecOk(env, s, steps);
    MoreShipments(s.w.shipments, Exec(env, s, steps).w.shipments, k);
    ExecConcat(env, s, steps, more);
    assert ShipmentsFor(Exec(env, s, steps + more).w.shipments, k) > ShipmentsFor(s.w.shipments, k);
  }

  /** Another shipment for a stored delivery can come about exactly if a copy of it
      that can still be used is pending. */
  lemma ShipsAgainIff(env: Env, s: System, start: System, steps: seq<Step>, k: Id)
    requires Trusted(env, start.w.store) && Reached(env, s, start, steps) && k in s.w.deliveries.byID
    ensures CanShipAgain(env, s, k) <==> UsablePending(env, s, k)
  {
    ReachedOk(env, s, start, steps);
    ReachedEvidence(env, s, start, steps);
    if UsablePending(env, s, k) {
      UsableShips(env, s, k);
    } else {
      UnusableIdles(env, s, k);
    }
  }

  lemma UsableShips(env: Env, s: System, k: Id)
    requires Trusted(env, s.w.store) && LedgerOk(env, s.w.store) && SystemOk(s) && UsablePending(env, s, k)
    ensures CanShipAgain(env, s, k)
  {
    if StoredIn(s, k, Pending) {
      var more := PendingShips(env, s, k);
    } else if c :| c in s.calls && Dispatching(s.calls[c], k) {
      var more := DispatchShips(env, s, c, k);
    } else {
      SavedThenShips(env, s, k);
    }
  }

  lemma SavedThenShips(env: Env, s: System, k: Id)
    requires Trusted(env, s.w.store) && LedgerOk(env, s.w.store) && SystemOk(s) && InFlight(env, s, k, Pending)
    ensures CanShipAgain(env, s, k)
  {
    var c :| c in s.calls && MaySave(env, s.w.store, s.calls[c], k, Pending);
    var saved := Realize(env, s, c, k, Pending);
    ExecOk(env, s, saved);
    var more := PendingShips(env, Exec(env, s, saved), k);
    LaterShips(env, s, saved, more, k);
  }

  lemma UnusableIdles(env: Env, s: System, k: Id)
    requires SystemOk(s) && k in s.w.deliveries.byID && !UsablePending(env, s, k)
    ensures !CanShipAgain(env, s, k)
  {
    forall t ensures t in NOT_PENDING <==> t != Pending {}
    forall t { GraphShape(t); }
    forall more ensures ShipmentsFor(Exec(env, s, more).w.shipments, k) == ShipmentsFor(s.w.shipments, k) {
      ExecIdle(env, s, more, k);
    }
  }

  // ------------------------------------------------- all of it from the beginning

  /** A delivery just booked in an empty system. */
  ghost predicate JustBooked(start: System, s: System, k: Id) {
    && IsInitial(start) && s.calls == map[] && s.w.store == start.w.store && s.w.clock == start.w.clock
    && s.w.shipments == [] && StoredIn(s, k, Pending)
  }

  lemma Booked(env: Env, start: System, x: BookingInput, draw: BookingDraw) returns (steps: seq<Step>)
    requires IsInitial(start) && PrepareBooking(x, draw, start.w.clock).Some? && draw.deliveryID != NIL_ID
    ensures JustBooked(start, Exec(env, start, steps), draw.deliveryID)
  {
    var (a, d) := PrepareBooking(x, draw, start.w.clock).value;
    var s1 := Next(env, start, StartBooking(0, x, draw));
    assert s1 == System(start.w, map[0 := BookAwb(a, d)]);
    var s2 := Next(env, s1, Advance(0, AT_ONCE));
    assert s2 == System(start.w.(awbs := start.w.awbs.Save(a)), map[0 := BookDelivery(d)]);
    var s3 := Next(env, s2, Advance(0, AT_ONCE));
    assert s3 == System(s2.w.(deliveries := s2.w.deliveries.Save(d)), map[]);
    var none: seq<Step> := [];
    steps := [Advance(0, AT_ONCE)] + none;
    ExecCons(env, s2, Advance(0, AT_ONCE), none);
    ExecCons(env, s1, Advance(0, AT_ONCE), steps);
    steps := [Advance(0, AT_ONCE)] + steps;
    ExecCons(env, start, StartBooking(0, x, draw), steps);
    steps := [StartBooking(0, x, draw)] + steps;
  }

  /** Between the two states a dispatch of d, call c, has shipped and is about to save. */
  ghost predicate HasShipped(s: System, s': System, c: nat, d: Snapshot) {
    && s'.w == s.w.(shipments := s'.w.shipments)
    && ShipmentsFor(s'.w.shipments, d.id) == ShipmentsFor(s.w.shipments, d.id) + 1
    && c in s'.calls && s'.calls == s.calls[c := s'.calls[c]]
    && s'.calls[c].SaveCopy? && s'.calls[c].d.id == d.id && s'.calls[c].d.state == Assigned
    && s'.calls[c].d.carrierExternalID == "shipment"
  }

  /** A dispatch up to its shipment, from where it has read the delivery. */
  lemma ShippedFrom(env: Env, s: System, c: nat, d: Snapshot) returns (steps: seq<Step>)
    requires SystemOk(s) && c in s.calls && s.calls[c] == DispatchCopied(d)
    ensures HasShipped(s, Exec(env, s, steps), c, d)
  {
    AwbIsRead(env, s, c, d);
    var a := s.w.awbs.byID[d.awbID];
    var s1 := System(s.w, s.calls[c := DispatchRouting(d, a)]);
    var x := AT_ONCE.(outside := Willing(a, d));
    assert CallOk(s.w, s.calls[c]);
    RoutedNext(env, s1, c, d, a);
    var none: seq<Step> := [];
    ExecCons(env, s1, Advance(c, x), none);
    ExecCons(env, s, Advance(c, AT_ONCE), [Advance(c, x)] + none);
    steps := [Advance(c, AT_ONCE)] + ([Advance(c, x)] + none);
    SameCallShipped(s, s1, Exec(env, s, steps), c, d);
  }

  lemma SameCallShipped(s: System, s1: System, s': System, c: nat, d: Snapshot)
    requires s1.w == s.w && c in s1.calls && s1.calls == s.calls[c := s1.calls[c]] && HasShipped(s1, s', c, d)
    ensures HasShipped(s, s', c, d)
  {
    assert s'.calls == s.calls[c := s'.calls[c]];
  }

  /** The same from where it has not begun. */
  lemma NewlyShipped(env: Env, s: System, c: nat, k: Id) returns (steps: seq<Step>)
    requires SystemOk(s) && c !in s.calls && StoredIn(s, k, Pending)
    ensures HasShipped(s, Exec(env, s, steps), c, s.w.deliveries.byID[k])
  {
    DispatchBegins(env, s, c, k);
    NextOk(env, s, StartDispatch(c, k));
    var d, s1 := s.w.deliveries.byID[k], Next(env, s, StartDispatch(c, k));
    var ship := ShippedFrom(env, s1, c, d);
    ExecCons(env, s, StartDispatch(c, k), ship);
    steps := [StartDispatch(c, k)] + ship;
    SameCallShipped(s, s1, Exec(env, s, steps), c, d);
  }

  lemma RoutedNext(env: Env, s: System, c: nat, d: Snapshot, a: Awb)
    requires c in s.calls && s.calls[c] == DispatchRouting(d, a) && d.state == Pending
    ensures HasShipped(s, Next(env, s, Advance(c, AT_ONCE.(outside := Willing(a, d)))), c, d)
  {
    WillingShips(a, d);
    var sh := Shipment(d.id, d.idempotencyKey, Ship(a, d, Willing(a, d)).value.0.caps.id);
    ShipmentsSnoc(s.w.shipments, sh, d.id);
  }

  /** A dispatch from start to end. */
  lemma DispatchedFrom(env: Env, s: System, c: nat, k: Id) returns (steps: seq<Step>)
    requires SystemOk(s) && c !in s.calls && StoredIn(s, k, Pending)
    ensures var s' := Exec(env, s, steps);
      && s'.calls == s.calls && s'.w.store == s.w.store && s'.w.clock == s.w.clock
      && StoredIn(s', k, Assigned) && s'.w.deliveries.byID[k].carrierExternalID != ""
      && ShipmentsFor(s'.w.shipments, k) == ShipmentsFor(s.w.shipments, k) + 1
  {
    var ship := NewlyShipped(env, s, c, k);
    var s' := Exec(env, s, ship);
    steps := ship + [Advance(c, AT_ONCE)];
    assert steps[..|steps| - 1] == ship;
    SavedFrom(env, s', c);
    assert s'.calls - {c} == s.calls;
    assert s.w.deliveries.byID[k].id == k;
  }

  lemma SavedFrom(env: Env, s: System, c: nat)
    requires c in s.calls && s.calls[c].SaveCopy?
    ensures Next(env, s, Advance(c, AT_ONCE))
         == System(s.w.(deliveries := s.w.deliveries.Save(s.calls[c].d)), s.calls - {c})
  {}

  ghost predicate ShipsTwice(env: Env, start: System, k: Id) {
    exists steps :: ShipmentsFor(Exec(env, start, steps).w.shipments, k) >= 2
  }

  /** From a reachable state with one shipment and a usable pending copy, a second
      shipment follows. */
  lemma SecondShipment(env: Env, start: System, steps: seq<Step>, k: Id)
    requires Trusted(env, start.w.store) && IsInitial(start)
    requires var s := Exec(env, start, steps);
      k in s.w.deliveries.byID && ShipmentsFor(s.w.shipments, k) >= 1 && UsablePending(env, s, k)
    ensures ShipsTwice(env, start, k)
  {
    var s := Exec(env, start, steps);
    ShipsAgainIff(env, s, start, steps, k);
    var more :| ShipmentsFor(Exec(env, s, more).w.shipments, k) > ShipmentsFor(s.w.shipments, k);
    ExecConcat(env, start, steps, more);
    assert ShipmentsFor(Exec(env, start, steps + more).w.shipments, k) >= 2;
  }

  /** First way: two dispatches both read the pending delivery before either saves. */
  lemma OverlappingDispatchesShipTwice(env: Env, start: System, booked: seq<Step>, k: Id)
    requires Trusted(env, start.w.store) && JustBooked(start, Exec(env, start, booked), k)
    ensures ShipsTwice(env, start, k)
  {
    var s := Exec(env, start, booked);
    ReachedOk(env, s, start, booked);
    DispatchBegins(env, s, 1, k);
    NextOk(env, s, StartDispatch(1, k));
    var s1 := Next(env, s, StartDispatch(1, k));
    var ship := NewlyShipped(env, s1, 0, k);
    assert Dispatching(Exec(env, s1, ship).calls[1], k);
    ExecCons(env, s, StartDispatch(1, k), ship);
    ExecConcat(env, start, booked, [StartDispatch(1, k)] + ship);
    SecondShipment(env, start, booked + ([StartDispatch(1, k)] + ship), k);
  }

  /** Second way: a dispatch ships and dies before its save; another follows. No two
      calls overlap. */
  lemma DiedDispatchShipsTwice(env: Env, start: System, booked: seq<Step>, k: Id)
    requires Trusted(env, start.w.store) && JustBooked(start, Exec(env, start, booked), k)
    ensures ShipsTwice(env, start, k)
  {
    var s := Exec(env, start, booked);
    ReachedOk(env, s, start, booked);
    var ship := NewlyShipped(env, s, 0, k);
    ExecConcat(env, start, booked, ship);
    var all := booked + ship;
    var dead := all + [Die(0)];
    assert dead[..|dead| - 1] == all;
    assert Exec(env, start, dead).w == Exec(env, start, all).w;
    SecondShipment(env, start, dead, k);
  }

  /** A custody event that moves nothing, of a delivery just booked. */
  function DroppedAtLocker(k: Id): RecordInput {
    RecordInput(k, PackageDroppedAtLocker, Actor("system", "", "", ""), None, None, "")
  }

  lemma RecordReads(env: Env, s: System, c: nat, x: RecordInput)
    requires c !in s.calls && x.deliveryID in s.w.deliveries.byID
    ensures Exec(env, s, [StartRecord(c, x), Advance(c, AT_ONCE)]) ==
      System(s.w, s.calls[c := RecordCopied(s.w.deliveries.byID[x.deliveryID], ToEvent(x, s.w.clock))])
  {
    var none: seq<Step> := [];
    var s1 := Next(env, s, StartRecord(c, x));
    assert s1 == System(s.w, s.calls[c := RecordStart(x)]);
    ExecCons(env, s1, Advance(c, AT_ONCE), none);
    ExecCons(env, s, StartRecord(c, x), [Advance(c, AT_ONCE)] + none);
    assert [StartRecord(c, x)] + ([Advance(c, AT_ONCE)] + none) == [StartRecord(c, x), Advance(c, AT_ONCE)];
    assert Later(s.w, 0) == s.w;
  }

  /** Third way: a record that read the pending copy saves it after a dispatch has
      run from start to end; the stored delivery is pending once more. */
  lemma StaleRecordShipsTwice(env: Env, start: System, booked: seq<Step>, k: Id, id: Id)
    requires Trusted(env, start.w.store) && JustBooked(start, Exec(env, start, booked), k)
    requires k != NIL_ID && start.w.clock != ZERO_TIME
    requires env.marshal(PayloadOf(ToEvent(DroppedAtLocker(k), start.w.clock)).(eventID := id)).Some?
    ensures ShipsTwice(env, start, k)
  {
    var s := Exec(env, start, booked);
    var d := s.w.deliveries.byID[k];
    ReachedOk(env, s, start, booked);
    var read := [StartRecord(1, DroppedAtLocker(k)), Advance(1, AT_ONCE)];
    RecordReads(env, s, 1, DroppedAtLocker(k));
    ExecOk(env, s, read);
    var dispatch := DispatchedFrom(env, Exec(env, s, read), 0, k);
    ExecConcat(env, s, read, dispatch);
    ExecConcat(env, start, booked, read + dispatch);
    StalePending(env, Exec(env, start, booked + (read + dispatch)), 1, d, k, id, start.w.clock);
    SecondShipment(env, start, booked + (read + dispatch), k);
  }

  lemma StalePending(env: Env, s: System, c: nat, d: Snapshot, k: Id, id: Id, now: int)
    requires c in s.calls && s.calls[c] == RecordCopied(d, ToEvent(DroppedAtLocker(k), now))
    requires d.id == k && d.state == Pending && k != NIL_ID && now != ZERO_TIME
    requires s.w.store == Memory(map[]) || s.w.store == Postgres([])
    requires env.marshal(PayloadOf(ToEvent(DroppedAtLocker(k), now)).(eventID := id)).Some?
    ensures UsablePending(env, s, k)
  {
    assert Marshals(env, s.w.store, ToEvent(DroppedAtLocker(k), now), id);
    assert MaySave(env, s.w.store, s.calls[c], k, Pending);
  }

  // ------------------------------------------------------- records, step by step

  lemma TailNext(env: Env, s: System, c: nat, d: Snapshot, e: Event, tail: Option<Event>)
    requires c in s.calls && s.calls[c] == RecordCopied(d, e)
    requires Validate(e).None? && LastByDelivery(env, s.w.store, e.deliveryID) == Some(tail)
    ensures Next(env, s, Advance(c, AT_ONCE)) == System(s.w, s.calls[c := RecordSealing(d, e, tail)])
  {
    assert Later(s.w, 0) == s.w;
  }

  function Drawing(id: Id): Chance {
    AT_ONCE.(eventID := id)
  }

  lemma AppendNext(env: Env, s: System, c: nat, d: Snapshot, e: Event, tail: Option<Event>, id: Id, st': Store)
    requires c in s.calls && s.calls[c] == RecordSealing(d, e, tail)
    requires FreshEvent(s.w.store, id) && Seal(env, e, tail, id).Some?
    requires Append(env, s.w.store, Seal(env, e, tail, id).value) == Some(st')
    ensures Next(env, s, Advance(c, Drawing(id)))
         == System(s.w.(store := st'), s.calls[c := RecordAppended(d, e.kind)])
  {
    assert Later(s.w, 0) == s.w;
  }

  /** The in-memory store after one more event of a delivery. */
  function Longer(st: Store, e: Event): Store
    requires st.Memory?
  {
    Memory(st.byDel[e.deliveryID := MemoryList(st.byDel, e.deliveryID) + [e]])
  }

  lemma MemoryTakes(env: Env, st: Store, e: Event)
    requires st.Memory? && FreshEvent(st, e.eventID)
    ensures Append(env, st, e) == Some(Longer(st, e))
    ensures EventsOf(env, Longer(st, e), e.deliveryID) == EventsOf(env, st, e.deliveryID) + [e]
    ensures forall id :: id != e.eventID && FreshEvent(st, id) ==> FreshEvent(Longer(st, e), id)
  {
    var es := MemoryList(st.byDel, e.deliveryID);
    assert !HasEvent(es, e.eventID);
    forall id | id != e.eventID && FreshEvent(st, id) ensures FreshEvent(Longer(st, e), id) {
      assert !HasEvent(es, id);
    }
  }

  /** The first event of a list is in place; a second one sealed as if it were the
      first leaves a gap in the numbers. */
  lemma TwoFirstEvents(env: Env, e: Event, id0: Id, id1: Id)
    requires Seal(env, e, None, id0).Some? && Seal(env, e, None, id1).Some?
    ensures Verify(env, [Seal(env, e, None, id0).value, Seal(env, e, None, id1).value]) == Broken(1, SequenceGap)
  {
    var es := [Seal(env, e, None, id0).value, Seal(env, e, None, id1).value];
    var none: seq<Event> := [];
    assert es[..1] == none + [es[0]];
    ChainExtend(env, none, es[0]);
    VerifyStopsAt(env, es, 1);
  }

  ghost predicate BreaksList(env: Env, start: System, k: Id) {
    exists steps :: Verify(env, EventsOf(env, Exec(env, start, steps).w.store, k)) == Broken(1, SequenceGap)
  }

  /** Two records that both read the empty list before either appends: the in-memory
      store takes both, and the list verifies no more. */
  lemma OverlappingRecordsBreakMemory(env: Env, start: System, booked: seq<Step>, k: Id, id0: Id, id1: Id)
    requires JustBooked(start, Exec(env, start, booked), k) && start.w.store.Memory?
    requires k != NIL_ID && start.w.clock != ZERO_TIME && id0 != id1
    requires var p := PayloadOf(ToEvent(DroppedAtLocker(k), start.w.clock));
      env.marshal(p.(eventID := id0)).Some? && env.marshal(p.(eventID := id1)).Some?
    ensures BreaksList(env, start, k)
  {
    var s := Exec(env, start, booked);
    var e := ToEvent(DroppedAtLocker(k), start.w.clock);
    var read := BothRead(env, s, DroppedAtLocker(k));
    var s1 := Exec(env, s, read);
    var append := BothAppend(env, s1, s.w.deliveries.byID[k], e, id0, id1);
    ExecConcat(env, s, read, append);
    ExecConcat(env, start, booked, read + append);
    TwoFirstEvents(env, e, id0, id1);
    assert Exec(env, start, booked + (read + append)) == Exec(env, s1, append);
  }

  lemma BothRead(env: Env, s: System, x: RecordInput) returns (steps: seq<Step>)
    requires s.calls == map[] && x.deliveryID in s.w.deliveries.byID
    ensures var copied := RecordCopied(s.w.deliveries.byID[x.deliveryID], ToEvent(x, s.w.clock));
      Exec(env, s, steps) == System(s.w, map[0 := copied, 1 := copied])
  {
    var read0, read1 := [StartRecord(0, x), Advance(0, AT_ONCE)], [StartRecord(1, x), Advance(1, AT_ONCE)];
    RecordReads(env, s, 0, x);
    RecordReads(env, Exec(env, s, read0), 1, x);
    ExecConcat(env, s, read0, read1);
    steps := read0 + read1;
  }

  /** Two copies of one event, both held by calls that have yet to read the tail. */
  lemma BothAppend(env: Env, s: System, d: Snapshot, e: Event, id0: Id, id1: Id) returns (steps: seq<Step>)
    requires s.w.store == Memory(map[]) && s.calls == map[0 := RecordCopied(d, e), 1 := RecordCopied(d, e)]
    requires Validate(e).None? && id0 != id1 && Seal(env, e, None, id0).Some? && Seal(env, e, None, id1).Some?
    ensures EventsOf(env, Exec(env, s, steps).w.store, e.deliveryID)
         == [Seal(env, e, None, id0).value, Seal(env, e, None, id1).value]
  {
    TailNext(env, s, 0, d, e, None);
    var s1 := Next(env, s, Advance(0, AT_ONCE));
    TailNext(env, s1, 1, d, e, None);
    var s2 := Next(env, s1, Advance(1, AT_ONCE));
    var append := BothSealed(env, s2, d, e, id0, id1);
    ExecCons(env, s1, Advance(1, AT_ONCE), append);
    ExecCons(env, s, Advance(0, AT_ONCE), [Advance(1, AT_ONCE)] + append);
    steps := [Advance(0, AT_ONCE)] + ([Advance(1, AT_ONCE)] + append);
  }

  /** The same once both have read that there is no tail. */
  lemma BothSealed(env: Env, s: System, d: Snapshot, e: Event, id0: Id, id1: Id) returns (steps: seq<Step>)
    requires s.w.store == Memory(map[])
    requires s.calls == map[0 := RecordSealing(d, e, None), 1 := RecordSealing(d, e, None)]
    requires id0 != id1 && Seal(env, e, None, id0).Some? && Seal(env, e, None, id1).Some?
    ensures EventsOf(env, Exec(env, s, steps).w.store, e.deliveryID)
         == [Seal(env, e, None, id0).value, Seal(env, e, None, id1).value]
  {
    var f0, f1 := Seal(env, e, None, id0).value, Seal(env, e, None, id1).value;
    MemoryTakes(env, s.w.store, f0);
    var st := Longer(s.w.store, f0);
    AppendNext(env, s, 0, d, e, None, id0, st);
    var s1 := Next(env, s, Advance(0, Drawing(id0)));
    MemoryTakes(env, st, f1);
    AppendNext(env, s1, 1, d, e, None, id1, Longer(st, f1));
    var none: seq<Step> := [];
    ExecCons(env, s1, Advance(1, Drawing(id1)), none);
    ExecCons(env, s, Advance(0, Drawing(id0)), [Advance(1, Drawing(id1))] + none);
    steps := [Advance(0, Drawing(id0))] + ([Advance(1, Drawing(id1))] + none);
  }

  // -------------------------------------------------------------- back to life

  /** The delivery is stored in one state after n of the steps, in another at the end. */
  ghost predicate PassesAndEnds(env: Env, s: System, steps: seq<Step>, n: nat, id: Id, passed: State, last: State) {
    n <= |steps| && StoredIn(Exec(env, s, steps[..n]), id, passed) && StoredIn(Exec(env, s, steps), id, last)
  }

  /** Two webhooks that both read the assigned delivery: the rider is held back, the
      cancellation goes through. */
  lemma CancelledMeanwhile(env: Env, s: System, k: Id, r: Rider) returns (steps: seq<Step>)
    requires SystemOk(s) && s.calls == map[] && StoredIn(s, k, Assigned) && r.id != ""
    requires s.w.deliveries.byID[k].carrierExternalID != ""
    ensures var s' := Exec(env, s, steps);
      && StoredIn(s', k, Cancelled)
      && 0 in s'.calls && MaySave(env, s'.w.store, s'.calls[0], k, Assigned)
  {
    var d := s.w.deliveries.byID[k];
    var held := SaveThenRecord(d.(rider := Some(r)), Assigned, RiderInput(d.id, d.carrierID, r));
    var gone := SaveCopy(Cancel(d, "").value, Assigned);
    var first := StartWebhook(0, d.carrierID, d.carrierExternalID, OnRiderAssigned(r), k);
    var second := StartWebhook(1, d.carrierID, d.carrierExternalID, OnShipmentCancelled(""), k);
    var s1, none := Next(env, s, first), [];
    assert s1 == System(s.w, map[0 := held]);
    var s2 := Next(env, s1, second);
    assert s2 == System(s.w, map[0 := held, 1 := gone]);
    SavedFrom(env, s2, 1);
    ExecCons(env, s2, Advance(1, AT_ONCE), none);
    ExecCons(env, s1, second, [Advance(1, AT_ONCE)] + none);
    ExecCons(env, s, first, [second] + ([Advance(1, AT_ONCE)] + none));
    steps := [first] + ([second] + ([Advance(1, AT_ONCE)] + none));
  }

  /** Booked, dispatched, cancelled and assigned again: a rider-assigned webhook that
      read the delivery before the cancellation saves after it. */
  lemma StaleSaveRevivesCancelled(env: Env, start: System, booked: seq<Step>, k: Id, r: Rider)
    requires Trusted(env, start.w.store) && JustBooked(start, Exec(env, start, booked), k) && r.id != ""
    ensures exists steps, n :: PassesAndEnds(env, start, steps, n, k, Cancelled, Assigned)
  {
    var s := Exec(env, start, booked);
    ReachedOk(env, s, start, booked);
    var dispatch := DispatchedFrom(env, s, 0, k);
    ExecOk(env, s, dispatch);
    var meanwhile := CancelledMeanwhile(env, Exec(env, s, dispatch), k, r);
    ExecConcat(env, s, dispatch, meanwhile);
    ExecConcat(env, start, booked, dispatch + meanwhile);
    RevivedFrom(env, start, booked + (dispatch + meanwhile), k);
  }

  lemma RevivedFrom(env: Env, start: System, cancelled: seq<Step>, k: Id)
    requires Trusted(env, start.w.store) && IsInitial(start)
    requires var s := Exec(env, start, cancelled);
      StoredIn(s, k, Cancelled) && 0 in s.calls && MaySave(env, s.w.store, s.calls[0], k, Assigned)
    ensures exists steps, n :: PassesAndEnds(env, start, steps, n, k, Cancelled, Assigned)
  {
    var s := Exec(env, start, cancelled);
    ReachedOk(env, s, start, cancelled);
    ReachedEvidence(env, s, start, cancelled);
    var more := Realize(env, s, 0, k, Assigned);
    ExecConcat(env, start, cancelled, more);
    assert (cancelled + more)[..|cancelled|] == cancelled;
    assert PassesAndEnds(env, start, cancelled + more, |cancelled|, k, Cancelled, Assigned);
  }
}
