/** What holds of service calls run one at a time, in either custody store. */
module SequentialTheorems {
  import opened Common
  import opened Events
  import opened Encoding
  import opened HashChain
  import opened TamperEvidence
  import opened CustodyStore
  import opened Recording
  import opened StateGraph
  import opened Deliveries
  import opened Repositories
  import opened Operations
  import opened Interleaving
  import opened InterleavedSafety
  import opened InterleavedEvidence
  import opened InterleavedTheorems
  import opened Attempts
  import opened Sequential

  /** Each shipment is for another delivery, and none of these is pending. */
  ghost predicate ShippedOnce(w: World) {
    && (forall i, j :: 0 <= i < j < |w.shipments| ==> w.shipments[i].deliveryID != w.shipments[j].deliveryID)
    && (forall i :: 0 <= i < |w.shipments| ==>
          w.shipments[i].deliveryID in w.deliveries.byID
          && w.deliveries.byID[w.shipments[i].deliveryID].state != Pending)
  }

  ghost predicate SequentialOk(w: World) {
    WorldOk(w) && ShippedOnce(w)
  }

  /** How one stored delivery may change in one call: along an edge or in place,
      keeping its AWB, and not at all, but for the rider, once it is terminal. */
  predicate Evolves(d: Snapshot, d': Snapshot) {
    && d'.awbID == d.awbID
    && OneEdge(d.state, d'.state)
    && (IsTerminal(d.state) ==> d' == d.(rider := d'.rider))
  }

  ghost predicate AllEvolve(t: Table, t': Table) {
    forall k :: k in t.byID ==> k in t'.byID && Evolves(t.byID[k], t'.byID[k])
  }

  lemma TransitionEvolves(d: Snapshot, kind: EventType, at: int)
    requires ApplyDeliveryTransition(d, kind, at).Some?
    ensures Evolves(d, ApplyDeliveryTransition(d, kind, at).value)
  {
    GraphShape(d.state);
  }

  lemma SaveEvolves(t: Table, d: Snapshot)
    requires d.id in t.byID && Evolves(t.byID[d.id], d)
    ensures AllEvolve(t, t.Save(d))
  {}

  /** What is made of the ledger's answer: nothing, the ledger's part alone, or that
      and one delivery moved along an edge. */
  lemma FinishEffect(w: World, d: Snapshot, kind: EventType, st': Store, r: Result<Event, RecordError>, elapsed: nat)
    requires w.deliveries.Keyed() && d.id in w.deliveries.byID && w.deliveries.byID[d.id] == d
    ensures var (w', out) := FinishRecord(w, d, kind, st', r, elapsed);
      && w'.awbs == w.awbs && w'.shipments == w.shipments
      && (r.Err? ==> w' == w && out == NotRecorded(r.error))
      && (r.Ok? ==> w'.store == st' && (out == RecordedOnly(r.value) || out == RecordedAndSaved(r.value)))
      && (!out.RecordedAndSaved? ==> w'.deliveries == w.deliveries)
      && (out.RecordedAndSaved? ==>
            var moved := ApplyDeliveryTransition(d, kind, w'.clock);
            moved.Some? && w'.deliveries == w.deliveries.Save(moved.value))
      && AllEvolve(w.deliveries, w'.deliveries)
  {
    var (w', out) := FinishRecord(w, d, kind, st', r, elapsed);
    if out.RecordedAndSaved? {
      TransitionEvolves(d, kind, w'.clock);
      SaveEvolves(w.deliveries, ApplyDeliveryTransition(d, kind, w'.clock).value);
    }
  }

  /** What a record call does to the store and to the deliveries. */
  lemma RecordEffect(env: Env, w: World, x: RecordInput, id: Id, elapsed: nat)
    requires w.deliveries.Keyed()
    ensures var (w', r) := RecordCall(env, w, x, id, elapsed);
      && w'.awbs == w.awbs && w'.shipments == w.shipments
      && (r.NoDelivery? || r.NotRecorded? ==> w' == w)
      && (r.RecordedOnly? || r.RecordedAndSaved? ==>
            && x.deliveryID in w.deliveries.byID
            && RecordEvent(env, w.store, ToEvent(x, w.clock), id) == (w'.store, Ok(r.e)))
      && (!r.RecordedAndSaved? ==> w'.deliveries == w.deliveries)
      && (r.RecordedAndSaved? ==>
            var moved := ApplyDeliveryTransition(w.deliveries.byID[x.deliveryID], x.kind, w'.clock);
            moved.Some? && w'.deliveries == w.deliveries.Save(moved.value))
      && AllEvolve(w.deliveries, w'.deliveries)
  {
    if x.deliveryID in w.deliveries.byID {
      var st', r := RecordCallIs(env, w, x, id, elapsed);
      FinishEffect(w, w.deliveries.byID[x.deliveryID], x.kind, st', r, elapsed);
    }
  }

  lemma WebhookCopyEvolves(d: Snapshot, ev: CarrierEvent)
    requires WebhookCopy(d, ev).Some?
    ensures Evolves(d, WebhookCopy(d, ev).value)
    ensures WebhookCopy(d, ev).value.id == d.id
  {
    GraphShape(d.state);
  }

  lemma AfterCopyOk(w: World, ev: CarrierEvent, target: Id)
    requires SequentialOk(w) && target in w.deliveries.byID && w.deliveries.byID[target].state != Pending
    ensures SequentialOk(AfterCopy(w, ev, target))
    ensures AllEvolve(w.deliveries, AfterCopy(w, ev, target).deliveries)
    ensures AfterCopy(w, ev, target).store == w.store && AfterCopy(w, ev, target).shipments == w.shipments
  {
    var d := w.deliveries.byID[target];
    if WebhookCopy(d, ev).Some? {
      assert CopyOk(w, d);
      WebhookCopyOk(w, d, ev);
      WebhookCopyEvolves(d, ev);
      SaveOk(w, WebhookCopy(d, ev).value);
      SaveEvolves(w.deliveries, WebhookCopy(d, ev).value);
      EvolvedShipments(w, AfterCopy(w, ev, target));
    }
  }

  /** Deliveries that evolve never become pending again. */
  lemma EvolvedShipments(w: World, w': World)
    requires ShippedOnce(w) && AllEvolve(w.deliveries, w'.deliveries) && w'.shipments == w.shipments
    ensures ShippedOnce(w')
  {
    forall i | 0 <= i < |w'.shipments|
      ensures w'.shipments[i].deliveryID in w'.deliveries.byID
        && w'.deliveries.byID[w'.shipments[i].deliveryID].state != Pending
    {
      var k := w.shipments[i].deliveryID;
      GraphShape(w.deliveries.byID[k].state);
      assert Evolves(w.deliveries.byID[k], w'.deliveries.byID[k]);
    }
  }

  /** Two changes of which the first leaves the states alone make one. */
  lemma EvolveTwice(t: Table, u: Table, v: Table)
    requires AllEvolve(t, u) && AllEvolve(u, v)
    requires forall k :: k in t.byID ==> u.byID[k].state == t.byID[k].state
    ensures AllEvolve(t, v)
  {
    forall k | k in t.byID ensures k in v.byID && Evolves(t.byID[k], v.byID[k]) {
      assert Evolves(t.byID[k], u.byID[k]) && Evolves(u.byID[k], v.byID[k]);
    }
  }

  /** A found webhook event: the copy is saved, then the custody service runs. */
  lemma WebhookIsCopyThenRecord(env: Env, w: World, cmd: Command)
    requires w.deliveries.Keyed() && cmd.Webhook?
    requires WebhookFinds(w, cmd.carrierID, cmd.externalID, cmd.target) && FreshEvent(w.store, cmd.eventID)
    ensures var v := AfterCopy(w, cmd.ev, cmd.target);
      var record := WebhookRecord(cmd.target, cmd.carrierID, cmd.ev);
      Perform(env, w, cmd) ==
        if record.None? then v else RecordCall(env, v, record.value, cmd.eventID, cmd.elapsed).0
  {}

  lemma CopyBeforeRecordKeepsStates(w: World, ev: CarrierEvent, target: Id, carrierID: string)
    requires w.deliveries.Keyed() && target in w.deliveries.byID && w.deliveries.byID[target].state != Pending
    requires WebhookRecord(target, carrierID, ev).Some?
    ensures var t := AfterCopy(w, ev, target).deliveries;
      forall k :: k in w.deliveries.byID ==> k in t.byID && t.byID[k].state == w.deliveries.byID[k].state
  {}

  /** Saving the rider or the cancellation and then recording still moves the
      delivery by one edge at most, since no pending delivery is ever found. */
  lemma WebhookEvolves(env: Env, w: World, cmd: Command)
    requires SequentialOk(w) && cmd.Webhook? && WebhookFinds(w, cmd.carrierID, cmd.externalID, cmd.target)
    requires FreshEvent(w.store, cmd.eventID)
    ensures AllEvolve(w.deliveries, Perform(env, w, cmd).deliveries)
    ensures Perform(env, w, cmd).shipments == w.shipments
  {
    FoundIsNotPending(w, cmd.carrierID, cmd.externalID, cmd.target);
    AfterCopyOk(w, cmd.ev, cmd.target);
    WebhookIsCopyThenRecord(env, w, cmd);
    var v := AfterCopy(w, cmd.ev, cmd.target);
    var record := WebhookRecord(cmd.target, cmd.carrierID, cmd.ev);
    if record.Some? {
      CopyBeforeRecordKeepsStates(w, cmd.ev, cmd.target, cmd.carrierID);
      RecordEffect(env, v, record.value, cmd.eventID, cmd.elapsed);
      EvolveTwice(w.deliveries, v.deliveries, Perform(env, w, cmd).deliveries);
    }
  }

  lemma FoundIsNotPending(w: World, carrierID: string, externalID: string, target: Id)
    requires WorldOk(w) && WebhookFinds(w, carrierID, externalID, target)
    ensures w.deliveries.byID[target].state != Pending
  {
    assert CopyFacts(w, w.deliveries.byID[target]);
  }

  lemma SaveKnown(t: Table, d: Snapshot)
    requires d.id in t.byID
    ensures t.Save(d).byID.Keys == t.byID.Keys
  {}

  lemma DispatchShape(w: World, id: Id, o: Outside)
    requires w.deliveries.Keyed()
    ensures var (w', ok) := DispatchCall(w, id, o);
      && (!ok ==> w' == w)
      && (ok ==>
            && id in w.deliveries.byID && w.deliveries.byID[id].state == Pending
            && id in w'.deliveries.byID
            && var d' := w'.deliveries.byID[id];
               && d'.id == id && d'.awbID == w.deliveries.byID[id].awbID && d'.state == Assigned
               && w' == w.(deliveries := w.deliveries.Save(d'),
                           shipments := w.shipments + [Shipment(id, d'.idempotencyKey, d'.carrierID)]))
  {}

  /** A successful dispatch turns its own delivery from pending to assigned, sends
      its one shipment and touches no other delivery; a failed one does nothing. */
  lemma DispatchEffect(w: World, id: Id, o: Outside)
    requires SequentialOk(w)
    ensures var (w', ok) := DispatchCall(w, id, o);
      && AllEvolve(w.deliveries, w'.deliveries)
      && ShippedOnce(w')
      && w'.store == w.store && w'.awbs == w.awbs
      && (!ok ==> w' == w)
      && (ok ==>
            && id in w.deliveries.byID && w.deliveries.byID[id].state == Pending
            && |w'.shipments| == |w.shipments| + 1 && w'.shipments[..|w.shipments|] == w.shipments
            && w'.shipments[|w.shipments|].deliveryID == id
            && w'.deliveries.byID.Keys == w.deliveries.byID.Keys
            && w'.deliveries.byID[id].state == Assigned
            && forall k :: k in w.deliveries.byID && k != id ==> w'.deliveries.byID[k] == w.deliveries.byID[k])
  {
    DispatchShape(w, id, o);
    var (w', ok) := DispatchCall(w, id, o);
    if ok {
      var d' := w'.deliveries.byID[id];
      SaveEvolves(w.deliveries, d');
      SaveKnown(w.deliveries, d');
      ShippedOnceMore(w, w', id);
    }
  }

  lemma ShippedOnceMore(w: World, w': World, id: Id)
    requires ShippedOnce(w) && id in w.deliveries.byID && w.deliveries.byID[id].state == Pending
    requires AllEvolve(w.deliveries, w'.deliveries)
    requires id in w'.deliveries.byID && w'.deliveries.byID[id].state == Assigned
    requires |w'.shipments| == |w.shipments| + 1 && w'.shipments[..|w.shipments|] == w.shipments
    requires w'.shipments[|w.shipments|].deliveryID == id
    ensures ShippedOnce(w')
  {
    forall i | 0 <= i < |w.shipments|
      ensures w'.shipments[i] == w.shipments[i] && w.shipments[i].deliveryID != id
      ensures w.shipments[i].deliveryID in w'.deliveries.byID
        && w'.deliveries.byID[w.shipments[i].deliveryID].state != Pending
    {
      var k := w.shipments[i].deliveryID;
      assert w'.shipments[..|w.shipments|][i] == w.shipments[i];
      GraphShape(w.deliveries.byID[k].state);
      assert Evolves(w.deliveries.byID[k], w'.deliveries.byID[k]);
    }
  }

  lemma BookingEffect(w: World, x: BookingInput, draw: BookingDraw)
    requires FreshDraw(w, draw)
    ensures var w' := BookingCall(w, x, draw).0;
      AllEvolve(w.deliveries, w'.deliveries) && w'.shipments == w.shipments && w'.store == w.store
  {}

  /** One call moves every stored delivery along one edge at most, and ships for none
      that was shipped for. */
  lemma PerformEvolves(env: Env, w: World, cmd: Command)
    requires SequentialOk(w)
    ensures AllEvolve(w.deliveries, Perform(env, w, cmd).deliveries)
    ensures ShippedOnce(Perform(env, w, cmd))
  {
    match cmd {
      case Dispatch(id, o) => DispatchEffect(w, id, o);
      case Record(_, _, _) => RecordPerforms(env, w, cmd);
      case Webhook(_, _, _, _, _, _) => WebhookPerforms(env, w, cmd);
      case Book(_, _) => BookPerforms(env, w, cmd);
      case Wait(_) => EvolvedShipments(w, Perform(env, w, cmd));
    }
  }

  lemma BookPerforms(env: Env, w: World, cmd: Command)
    requires SequentialOk(w) && cmd.Book?
    ensures AllEvolve(w.deliveries, Perform(env, w, cmd).deliveries)
    ensures ShippedOnce(Perform(env, w, cmd))
  {
    if FreshDraw(w, cmd.draw) {
      BookingEffect(w, cmd.input, cmd.draw);
      EvolvedShipments(w, Perform(env, w, cmd));
    }
  }

  lemma RecordPerforms(env: Env, w: World, cmd: Command)
    requires SequentialOk(w) && cmd.Record?
    ensures AllEvolve(w.deliveries, Perform(env, w, cmd).deliveries)
    ensures ShippedOnce(Perform(env, w, cmd))
  {
    if FreshEvent(w.store, cmd.eventID) {
      RecordEffect(env, w, cmd.x, cmd.eventID, cmd.elapsed);
      EvolvedShipments(w, Perform(env, w, cmd));
    }
  }

  lemma WebhookPerforms(env: Env, w: World, cmd: Command)
    requires SequentialOk(w) && cmd.Webhook?
    ensures AllEvolve(w.deliveries, Perform(env, w, cmd).deliveries)
    ensures ShippedOnce(Perform(env, w, cmd))
  {
    if WebhookFinds(w, cmd.carrierID, cmd.externalID, cmd.target) && FreshEvent(w.store, cmd.eventID) {
      WebhookEvolves(env, w, cmd);
      EvolvedShipments(w, Perform(env, w, cmd));
    }
  }

  lemma PerformOk(env: Env, w: World, cmd: Command)
    requires SequentialOk(w)
    ensures SequentialOk(Perform(env, w, cmd)) && Grows(w, Perform(env, w, cmd))
  {
    EveryCallIsASchedule(env, w, cmd);
    var s := System(w, map[]);
    var steps :| Exec(env, s, steps) == System(Perform(env, w, cmd), map[]);
    ExecOk(env, s, steps);
    PerformEvolves(env, w, cmd);
  }

  /** An empty system. */
  predicate IsEmpty(w: World) {
    IsInitial(System(w, map[]))
  }

  lemma EmptyOk(env: Env, w: World)
    requires IsEmpty(w)
    ensures SequentialOk(w) && Sequenced(env, w.store)
    ensures forall d :: EventsOf(env, w.store, d) == []
  {
    InitialOk(env, System(w, map[]));
  }

  lemma {:induction false} PerformAllOk(env: Env, w: World, cmds: seq<Command>)
    requires SequentialOk(w)
    ensures SequentialOk(PerformAll(env, w, cmds)) && Grows(w, PerformAll(env, w, cmds))
  {
    if cmds != [] {
      var v := PerformAll(env, w, cmds[..|cmds| - 1]);
      PerformAllOk(env, w, cmds[..|cmds| - 1]);
      PerformOk(env, v, cmds[|cmds| - 1]);
      GrowsTransitive(w, v, PerformAll(env, w, cmds));
    }
  }

  // ----------------------------------------------------------- the custody lists

  predicate Accepted(r: RecordOutcome) {
    r.RecordedOnly? || r.RecordedAndSaved?
  }

  /** An accepted record adds one event to its own list; a refused one adds nothing;
      no other list moves. */
  lemma RecordLedger(env: Env, w: World, x: RecordInput, id: Id, elapsed: nat)
    requires Trusted(env, w.store) && Sequenced(env, w.store) && FreshEvent(w.store, id)
    ensures var (w', r) := RecordCall(env, w, x, id, elapsed);
      && Sequenced(env, w'.store) && (w'.store.Postgres? <==> w.store.Postgres?)
      && (forall o :: o != x.deliveryID ==> EventsOf(env, w'.store, o) == EventsOf(env, w.store, o))
      && EventsOf(env, w'.store, x.deliveryID) == EventsOf(env, w.store, x.deliveryID) +
           if Accepted(r) then [Kept(env, w.store, r.e)] else []
  {
    var es := EventsOf(env, w.store, x.deliveryID);
    assert es + [] == es;
    if x.deliveryID in w.deliveries.byID {
      RecordExtendsOwnList(env, w.store, ToEvent(x, w.clock), id);
      var st', r := RecordCallIs(env, w, x, id, elapsed);
    }
  }

  /** The list is a chain afterwards exactly if it was one and the event, if it was
      accepted, keeps its hash, collisions aside. */
  lemma RecordChain(env: Env, w: World, x: RecordInput, id: Id, elapsed: nat, d: Id)
    requires TrustedHashes(env, w.store) && Sequenced(env, w.store) && FreshEvent(w.store, id)
    requires w.store.Postgres? ==> CleanInput(x)
    requires ChainOk(env, EventsOf(env, w.store, d))
    ensures ChainOk(env, EventsOf(env, RecordCall(env, w, x, id, elapsed).0.store, d))
  {
    RecordLedger(env, w, x, id, elapsed);
    if x.deliveryID in w.deliveries.byID && d == x.deliveryID {
      RecordExtendsOwnChain(env, w.store, ToEvent(x, w.clock), id);
      var st', r := RecordCallIs(env, w, x, id, elapsed);
    }
  }

  /** What a call hands to the custody service, in what world. */
  function CustodyPart(w: World, cmd: Command): Option<(World, RecordInput)> {
    match cmd
    case Record(x, id, _) => if FreshEvent(w.store, id) then Some((w, x)) else None
    case Webhook(carrierID, externalID, ev, target, id, _) =>
      if WebhookFinds(w, carrierID, externalID, target) && FreshEvent(w.store, id) then
        match WebhookRecord(target, carrierID, ev)
        case None => None
        case Some(x) => Some((AfterCopy(w, ev, target), x))
      else None
    case _ => None
  }

  lemma CustodyPartIs(env: Env, w: World, cmd: Command)
    requires w.deliveries.Keyed()
    ensures var part := CustodyPart(w, cmd);
      && (part.None? ==> Perform(env, w, cmd).store == w.store)
      && (part.Some? ==>
            && (cmd.Record? || cmd.Webhook?) && FreshEvent(w.store, cmd.eventID)
            && part.value.0.store == w.store
            && Perform(env, w, cmd) == RecordCall(env, part.value.0, part.value.1, cmd.eventID, cmd.elapsed).0)
  {
    if cmd.Webhook? && WebhookFinds(w, cmd.carrierID, cmd.externalID, cmd.target) && FreshEvent(w.store, cmd.eventID) {
      WebhookIsCopyThenRecord(env, w, cmd);
    }
  }

  predicate CleanCommand(cmd: Command) {
    match cmd
    case Record(x, _, _) => CleanInput(x)
    case Webhook(carrierID, _, ev, target, _, _) =>
      var record := WebhookRecord(target, carrierID, ev);
      record.Some? ==> CleanInput(record.value)
    case _ => true
  }

  lemma PerformLedger(env: Env, w: World, cmd: Command)
    requires Trusted(env, w.store) && Sequenced(env, w.store) && w.deliveries.Keyed()
    ensures var st' := Perform(env, w, cmd).store;
      Sequenced(env, st') && ListsGrow(env, w.store, st')
  {
    CustodyPartIs(env, w, cmd);
    var part := CustodyPart(w, cmd);
    if part.Some? {
      var (v, x) := part.value;
      RecordLedger(env, v, x, cmd.eventID, cmd.elapsed);
      OneListMoved(env, w.store, Perform(env, w, cmd).store, x.deliveryID);
    }
  }

  lemma OneListMoved(env: Env, st: Store, st': Store, d: Id)
    requires st.Postgres? <==> st'.Postgres?
    requires IsPrefix(EventsOf(env, st, d), EventsOf(env, st', d))
    requires forall o :: o != d ==> EventsOf(env, st', o) == EventsOf(env, st, o)
    ensures ListsGrow(env, st, st')
  {
    forall o ensures IsPrefix(EventsOf(env, st, o), EventsOf(env, st', o)) {
      assert o != d ==> EventsOf(env, st', o) == EventsOf(env, st, o);
    }
  }

  lemma PerformChain(env: Env, w: World, cmd: Command, d: Id)
    requires TrustedHashes(env, w.store) && Sequenced(env, w.store) && w.deliveries.Keyed()
    requires w.store.Postgres? ==> CleanCommand(cmd)
    requires ChainOk(env, EventsOf(env, w.store, d))
    ensures ChainOk(env, EventsOf(env, Perform(env, w, cmd).store, d))
  {
    CustodyPartIs(env, w, cmd);
    var part := CustodyPart(w, cmd);
    if part.Some? {
      RecordChain(env, part.value.0, part.value.1, cmd.eventID, cmd.elapsed, d);
    }
  }

  lemma {:induction false} PerformAllLedger(env: Env, w: World, cmds: seq<Command>)
    requires Trusted(env, w.store) && Sequenced(env, w.store) && SequentialOk(w)
    ensures var st' := PerformAll(env, w, cmds).store;
      Sequenced(env, st') && ListsGrow(env, w.store, st')
  {
    if cmds != [] {
      var rest := cmds[..|cmds| - 1];
      PerformAllLedger(env, w, rest);
      PerformAllOk(env, w, rest);
      PerformLedger(env, PerformAll(env, w, rest), cmds[|cmds| - 1]);
      ListsGrowTransitive(env, w.store, PerformAll(env, w, rest).store, PerformAll(env, w, cmds).store);
    }
  }

  lemma {:induction false} PerformAllChain(env: Env, w: World, cmds: seq<Command>, d: Id)
    requires TrustedHashes(env, w.store) && Sequenced(env, w.store) && SequentialOk(w)
    requires w.store.Postgres? ==> forall i :: 0 <= i < |cmds| ==> CleanCommand(cmds[i])
    requires ChainOk(env, EventsOf(env, w.store, d))
    ensures ChainOk(env, EventsOf(env, PerformAll(env, w, cmds).store, d))
  {
    if cmds != [] {
      var rest := cmds[..|cmds| - 1];
      PerformAllChain(env, w, rest, d);
      PerformAllLedger(env, w, rest);
      PerformAllOk(env, w, rest);
      PerformChain(env, PerformAll(env, w, rest), cmds[|cmds| - 1], d);
    }
  }

  /** Calls run one at a time, in either store: every earlier list is a prefix of the
      later one, and every list verifies: always in memory, in the table if no input
      has a negative zero. */
  lemma LedgersVerifyAndGrow(env: Env, w: World, cmds: seq<Command>, more: seq<Command>, d: Id)
    requires TrustedHashes(env, w.store) && IsEmpty(w)
    ensures var v := PerformAll(env, w, cmds);
      var v' := PerformAll(env, v, more);
      && IsPrefix(EventsOf(env, v.store, d), EventsOf(env, v'.store, d))
      && ((w.store.Postgres? ==> forall cmd :: cmd in cmds || cmd in more ==> CleanCommand(cmd)) ==>
            Verify(env, EventsOf(env, v'.store, d)).Intact?)
  {
    EmptyOk(env, w);
    PerformAllOk(env, w, cmds);
    PerformAllLedger(env, w, cmds);
    var v := PerformAll(env, w, cmds);
    PerformAllLedger(env, v, more);
    if w.store.Postgres? ==> forall cmd :: cmd in cmds || cmd in more ==> CleanCommand(cmd) {
      PerformAllChain(env, w, cmds, d);
      PerformAllChain(env, v, more, d);
      VerifyAcceptsChains(env, EventsOf(env, PerformAll(env, v, more).store, d));
    }
  }

  // ------------------------------------------------------------------ theorems

  lemma SomeDeliveryOf(t: Table, awbID: Id)
    requires t.Coherent() && t.IdsOf(awbID) != []
    ensures exists k :: k in t.byID && t.byID[k].awbID == awbID
  {
    var k := t.IdsOf(awbID)[0];
    assert k in t.IdsOf(awbID);
    assert k in t.byID && t.byID[k].awbID == awbID;
  }

  lemma NoDeliveriesOf(w: World, awbID: Id)
    requires WorldOk(w) && awbID !in w.awbs.byID
    ensures w.deliveries.IdsOf(awbID) == []
  {
    forall k | k in w.deliveries.byID ensures w.deliveries.byID[k].awbID != awbID {
      assert CopyFacts(w, w.deliveries.byID[k]);
    }
    if w.deliveries.IdsOf(awbID) != [] {
      SomeDeliveryOf(w.deliveries, awbID);
    }
  }

  /** An accepted booking can be found by every key at once: the delivery by its
      id, it alone under the AWB, and the AWB by its id and its number, at the
      locker; the leg is pending, on the booked slot, with its own id as the
      idempotency key. */
  lemma BookingIsFound(w: World, x: BookingInput, draw: BookingDraw)
    requires SequentialOk(w) && FreshDraw(w, draw) && BookingCall(w, x, draw).1.Some?
    ensures var (t, awbs) := (BookingCall(w, x, draw).0.deliveries, BookingCall(w, x, draw).0.awbs);
      && draw.deliveryID in t.byID && draw.awbID in awbs.byID
      && t.Found(t.IdsOf(draw.awbID)) == [t.byID[draw.deliveryID]]
      && draw.internalAWB in awbs.byAWB && awbs.byAWB[draw.internalAWB] == draw.awbID
      && awbs.byID[draw.awbID].internalAWB == draw.internalAWB
      && awbs.byID[draw.awbID].state == AwbState.AtLocker
      && var d := t.byID[draw.deliveryID];
         && d.awbID == draw.awbID && d.state == Pending && d.pickup.kind == LocationType.AtLocker
         && d.idempotencyKey == Some(draw.deliveryID)
         && d.windowStart == Some(x.slotStart) && d.windowEnd == Some(x.slotEnd)
  {
    NoDeliveriesOf(w, draw.awbID);
    var d := PrepareBooking(x, draw, w.clock).value.1;
    var t := w.deliveries.Save(d);
    assert t.IdsOf(draw.awbID) == [d.id];
    FoundAll(t, [d.id]);
  }

  /** Over a whole run each delivery gets at most one successful CreateShipment. */
  lemma AtMostOneShipment(env: Env, w: World, cmds: seq<Command>, i: nat, j: nat)
    requires IsEmpty(w)
    requires i < j < |PerformAll(env, w, cmds).shipments|
    ensures PerformAll(env, w, cmds).shipments[i].deliveryID != PerformAll(env, w, cmds).shipments[j].deliveryID
  {
    EmptyOk(env, w);
    PerformAllOk(env, w, cmds);
  }

  /** Delivered, cancelled and returned are final: whatever is called afterwards,
      nothing of the delivery changes but the rider a webhook may name. */
  lemma {:induction false} TerminalIsFinal(env: Env, w: World, cmds: seq<Command>, k: Id)
    requires SequentialOk(w)
    requires k in w.deliveries.byID && IsTerminal(w.deliveries.byID[k].state)
    ensures var t := PerformAll(env, w, cmds).deliveries;
      k in t.byID && t.byID[k] == w.deliveries.byID[k].(rider := t.byID[k].rider)
  {
    if cmds != [] {
      var v := PerformAll(env, w, cmds[..|cmds| - 1]);
      TerminalIsFinal(env, w, cmds[..|cmds| - 1], k);
      PerformAllOk(env, w, cmds[..|cmds| - 1]);
      PerformEvolves(env, v, cmds[|cmds| - 1]);
    }
  }

  /** The stored states of a delivery over a run of calls, without repetitions. */
  function History(env: Env, w: World, cmds: seq<Command>, k: Id): seq<State> {
    var t := PerformAll(env, w, cmds).deliveries;
    if cmds == [] then if k in t.byID then [t.byID[k].state] else []
    else
      var before := History(env, w, cmds[..|cmds| - 1], k);
      if k !in t.byID then before
      else if before != [] && before[|before| - 1] == t.byID[k].state then before
      else before + [t.byID[k].state]
  }

  lemma {:induction false} HistoryIsWalk(env: Env, w: World, cmds: seq<Command>, k: Id)
    requires IsEmpty(w)
    ensures var p := History(env, w, cmds, k);
      var t := PerformAll(env, w, cmds).deliveries;
      && (p == [] <==> k !in t.byID)
      && (k in t.byID ==> IsWalk(p) && p[0] == Pending && p[|p| - 1] == t.byID[k].state)
  {
    if cmds != [] {
      var rest, cmd := cmds[..|cmds| - 1], cmds[|cmds| - 1];
      var v := PerformAll(env, w, rest);
      HistoryIsWalk(env, w, rest, k);
      EmptyOk(env, w);
      PerformAllOk(env, w, rest);
      PerformEvolves(env, v, cmd);
      if k in v.deliveries.byID {
        if v.deliveries.byID[k].state != PerformAll(env, w, cmds).deliveries.byID[k].state {
          WalkSnoc(History(env, w, rest, k), PerformAll(env, w, cmds).deliveries.byID[k].state);
        }
      } else {
        OnlyBookingsAdd(env, v, cmd, k);
      }
    }
  }

  lemma RecordKeepsKeys(env: Env, w: World, x: RecordInput, id: Id, elapsed: nat)
    requires w.deliveries.Keyed()
    ensures RecordCall(env, w, x, id, elapsed).0.deliveries.byID.Keys == w.deliveries.byID.Keys
  {
    RecordEffect(env, w, x, id, elapsed);
    var r := RecordCall(env, w, x, id, elapsed).1;
    if r.RecordedAndSaved? {
      SaveKnown(w.deliveries, ApplyDeliveryTransition(
        w.deliveries.byID[x.deliveryID], x.kind, RecordCall(env, w, x, id, elapsed).0.clock).value);
    }
  }

  lemma CopyKeepsKeys(w: World, ev: CarrierEvent, target: Id)
    requires w.deliveries.Keyed() && target in w.deliveries.byID
    ensures AfterCopy(w, ev, target).deliveries.byID.Keys == w.deliveries.byID.Keys
    ensures AfterCopy(w, ev, target).deliveries.Keyed()
  {
    WebhookCopyKeepsID(w.deliveries.byID[target], ev);
  }

  /** A delivery that was not stored appears in the state pending. */
  lemma OnlyBookingsAdd(env: Env, w: World, cmd: Command, k: Id)
    requires SequentialOk(w) && k !in w.deliveries.byID
    ensures k in Perform(env, w, cmd).deliveries.byID ==> Perform(env, w, cmd).deliveries.byID[k].state == Pending
  {
    match cmd {
      case Wait(_) =>
      case Book(x, draw) =>
      case Dispatch(id, o) => DispatchEffect(w, id, o);
      case Record(x, id, elapsed) => RecordKeepsKeys(env, w, x, id, elapsed);
      case Webhook(carrierID, externalID, ev, target, id, elapsed) =>
        if WebhookFinds(w, carrierID, externalID, target) && FreshEvent(w.store, id) {
          WebhookIsCopyThenRecord(env, w, cmd);
          CopyKeepsKeys(w, ev, target);
          var record := WebhookRecord(target, carrierID, ev);
          if record.Some? {
            RecordKeepsKeys(env, AfterCopy(w, ev, target), record.value, id, elapsed);
          }
        }
    }
  }

  lemma WebhookCopyKeepsID(d: Snapshot, ev: CarrierEvent)
    ensures WebhookCopy(d, ev).Some? ==> WebhookCopy(d, ev).value.id == d.id
  {}

  /** So what was shown of the state graph holds of the services: with k retries a
      delivery changes state at most 6k + 7 times, a delivered one went from its
      last assignment through the locker and the pickup, a cancelled one was not
      picked up since its last assignment. */
  lemma ServicesObeyTheGraph(env: Env, w: World, cmds: seq<Command>, k: Id)
    requires IsEmpty(w) && k in PerformAll(env, w, cmds).deliveries.byID
    ensures var p := History(env, w, cmds, k);
      var d := PerformAll(env, w, cmds).deliveries.byID[k];
      && p != []
      && |p| - 1 <= 6 * Retries(p) + 7
      && (d.state == Delivered ==>
            |LastAttempt(p)| >= 5 && LastAttempt(p)[..3] == [Assigned, EnRoutePickup, PickedUp])
      && (d.state == Cancelled ==> PickedUp !in LastAttempt(p))
  {
    var p := History(env, w, cmds, k);
    HistoryIsWalk(env, w, cmds, k);
    WalkLengthBound(p);
    if p[|p| - 1] == Delivered {
      DeliveredAttempt(p);
    }
    if p[|p| - 1] == Cancelled {
      CancelledAttempt(p);
    }
  }

  // -------------------------------------------------------------------- replay

  /** After an accepted event the same event moves nothing: its transition is
      refused, or it has none. */
  lemma ReplayedTransition(d: Snapshot, kind: EventType, at: int, d': Snapshot, at': int)
    requires ApplyDeliveryTransition(d, kind, at) == Some(d')
          || (ApplyDeliveryTransition(d, kind, at) == None && d' == d)
    ensures ApplyDeliveryTransition(d', kind, at').None? || ApplyDeliveryTransition(d', kind, at') == Some(d')
  {
    GraphShape(d'.state);
  }

  lemma SaveSame(t: Table, d: Snapshot)
    requires t.Coherent() && d.id in t.byID && t.byID[d.id] == d
    ensures t.Save(d) == t
  {
    assert t.byID[d.id := d] == t.byID;
    assert d.id in t.IdsOf(d.awbID);
  }

  /** Replaying a custody event at once changes no delivery. */
  lemma ReplayedRecord(env: Env, w: World, x: RecordInput, id: Id, id': Id, elapsed: nat, elapsed': nat)
    requires SequentialOk(w) && FreshEvent(w.store, id) && Accepted(RecordCall(env, w, x, id, elapsed).1)
    ensures var w1 := RecordCall(env, w, x, id, elapsed).0;
      RecordCall(env, w1, x, id', elapsed').0.deliveries == w1.deliveries
  {
    var w1 := RecordCall(env, w, x, id, elapsed).0;
    RecordOk(env, w, x, id, elapsed, w1);
    RecordReplayKeepsDeliveries(env, w, w1, x, id, id', elapsed, elapsed');
  }

  /** The ledger takes the replay as exactly one more event of that delivery, or
      refuses it, and verifies as before if nothing is lost on the way to a row. */
  lemma ReplayedRecordLedger(env: Env, w1: World, x: RecordInput, id': Id, elapsed': nat)
    requires TrustedHashes(env, w1.store) && Sequenced(env, w1.store) && FreshEvent(w1.store, id')
    ensures var (w2, r) := RecordCall(env, w1, x, id', elapsed');
      var es, es' := EventsOf(env, w1.store, x.deliveryID), EventsOf(env, w2.store, x.deliveryID);
      && es' == es + (if Accepted(r) then [Kept(env, w1.store, r.e)] else [])
      && ((w1.store.Postgres? ==> CleanInput(x)) ==>
            (Verify(env, es').Intact? <==> Verify(env, es).Intact?))
  {
    RecordLedger(env, w1, x, id', elapsed');
    var w2 := RecordCall(env, w1, x, id', elapsed').0;
    var es, es' := EventsOf(env, w1.store, x.deliveryID), EventsOf(env, w2.store, x.deliveryID);
    VerifyAcceptsChains(env, es);
    VerifyAcceptsChains(env, es');
    if Verify(env, es').Intact? {
      assert es'[..|es|] == es;
      PrefixVerifies(env, es', |es|);
    }
    if Verify(env, es).Intact? && (w1.store.Postgres? ==> CleanInput(x)) {
      RecordChain(env, w1, x, id', elapsed', x.deliveryID);
    }
  }

  lemma RecordOk(env: Env, w: World, x: RecordInput, id: Id, elapsed: nat, w1: World)
    requires SequentialOk(w) && FreshEvent(w.store, id)
    requires w1 == RecordCall(env, w, x, id, elapsed).0
    ensures SequentialOk(w1)
  {
    assert Perform(env, w, Record(x, id, elapsed)) == w1;
    PerformOk(env, w, Record(x, id, elapsed));
  }

  lemma RecordReplayKeepsDeliveries(env: Env, w: World, w1: World, x: RecordInput, id: Id, id': Id,
                                    elapsed: nat, elapsed': nat)
    requires w.deliveries.Coherent() && w1.deliveries.Coherent()
    requires w1 == RecordCall(env, w, x, id, elapsed).0 && Accepted(RecordCall(env, w, x, id, elapsed).1)
    ensures RecordCall(env, w1, x, id', elapsed').0.deliveries == w1.deliveries
  {
    AcceptedMoves(env, w, x, id, elapsed);
    RecordEffect(env, w1, x, id', elapsed');
    var w2 := RecordCall(env, w1, x, id', elapsed').0;
    var d, d1 := w.deliveries.byID[x.deliveryID], w1.deliveries.byID[x.deliveryID];
    ReplayedTransition(d, x.kind, w1.clock, d1, w2.clock);
    SaveSame(w1.deliveries, d1);
  }

  lemma AcceptedMoves(env: Env, w: World, x: RecordInput, id: Id, elapsed: nat)
    requires w.deliveries.Keyed() && Accepted(RecordCall(env, w, x, id, elapsed).1)
    ensures var w1 := RecordCall(env, w, x, id, elapsed).0;
      && x.deliveryID in w.deliveries.byID && x.deliveryID in w1.deliveries.byID
      && var d, d1 := w.deliveries.byID[x.deliveryID], w1.deliveries.byID[x.deliveryID];
         d1.id == x.deliveryID
         && (ApplyDeliveryTransition(d, x.kind, w1.clock) == Some(d1)
             || (ApplyDeliveryTransition(d, x.kind, w1.clock) == None && d1 == d))
  {
    var st', r := RecordCallIs(env, w, x, id, elapsed);
  }

  /** Replaying a carrier's webhook at once: if its custody event was accepted the
      first time, the second delivery changes no delivery at all. */
  lemma ReplayedWebhook(env: Env, w: World, cmd: Command, id': Id, elapsed': nat)
    requires SequentialOk(w) && FirstTime(env, w, cmd)
    ensures var w1 := Perform(env, w, cmd);
      && WebhookFinds(w1, cmd.carrierID, cmd.externalID, cmd.target)
      && Perform(env, w1, Again(cmd, id', elapsed')).deliveries == w1.deliveries
  {
    var w1 := Perform(env, w, cmd);
    PerformOk(env, w, cmd);
    FoundIsNotPending(w, cmd.carrierID, cmd.externalID, cmd.target);
    FirstWebhook(env, w, cmd, w1);
    FoundIsNotPending(w1, cmd.carrierID, cmd.externalID, cmd.target);
    if FreshEvent(w1.store, id') {
      SecondWebhook(env, w, w1, cmd, id', elapsed');
    }
  }

  /** Its custody event is exactly what the replay adds to the ledger: one more event
      of that delivery if it is accepted, none if it is refused or the webhook
      records nothing; the list verifies as before if nothing is lost. */
  lemma ReplayedWebhookLedger(env: Env, w: World, cmd: Command, id': Id, elapsed': nat, w1: World, w2: World)
    requires SequentialOk(w) && FirstTime(env, w, cmd)
    requires w1 == Perform(env, w, cmd) && w2 == Perform(env, w1, Again(cmd, id', elapsed'))
    requires TrustedHashes(env, w.store) && Sequenced(env, w.store) && FreshEvent(w1.store, id')
    ensures var es := EventsOf(env, w1.store, cmd.target);
      var es' := EventsOf(env, w2.store, cmd.target);
      var record := WebhookRecord(cmd.target, cmd.carrierID, cmd.ev);
      && (record.None? ==> es' == es)
      && (record.Some? ==>
            var r := RecordCall(env, w1, record.value, id', elapsed').1;
            es' == es + if Accepted(r) then [Kept(env, w1.store, r.e)] else [])
      && ((w1.store.Postgres? ==> CleanCommand(cmd)) ==> (Verify(env, es').Intact? <==> Verify(env, es).Intact?))
  {
    PerformLedger(env, w, cmd);
    ReplayIsRecord(env, w, cmd, id', elapsed', w1);
    ReplayedReportLedger(env, w1, cmd, id', elapsed', w2);
  }

  lemma ReplayedReportLedger(env: Env, w1: World, cmd: Command, id': Id, elapsed': nat, w2: World)
    requires cmd.Webhook? && TrustedHashes(env, w1.store) && Sequenced(env, w1.store) && FreshEvent(w1.store, id')
    requires var record := WebhookRecord(cmd.target, cmd.carrierID, cmd.ev);
      w2 == if record.None? then w1 else RecordCall(env, w1, record.value, id', elapsed').0
    ensures var es := EventsOf(env, w1.store, cmd.target);
      var es' := EventsOf(env, w2.store, cmd.target);
      var record := WebhookRecord(cmd.target, cmd.carrierID, cmd.ev);
      && (record.None? ==> es' == es)
      && (record.Some? ==>
            var r := RecordCall(env, w1, record.value, id', elapsed').1;
            es' == es + if Accepted(r) then [Kept(env, w1.store, r.e)] else [])
      && ((w1.store.Postgres? ==> CleanCommand(cmd)) ==> (Verify(env, es').Intact? <==> Verify(env, es).Intact?))
  {
    var record := WebhookRecord(cmd.target, cmd.carrierID, cmd.ev);
    if record.Some? {
      ReplayedRecordList(env, w1, record.value, id', elapsed', w2, cmd.target);
    }
  }

  lemma ReplayedRecordList(env: Env, w1: World, x: RecordInput, id': Id, elapsed': nat, w2: World, d: Id)
    requires TrustedHashes(env, w1.store) && Sequenced(env, w1.store) && FreshEvent(w1.store, id')
    requires w2 == RecordCall(env, w1, x, id', elapsed').0 && d == x.deliveryID
    ensures var es, es' := EventsOf(env, w1.store, d), EventsOf(env, w2.store, d);
      var r := RecordCall(env, w1, x, id', elapsed').1;
      && es' == es + (if Accepted(r) then [Kept(env, w1.store, r.e)] else [])
      && ((w1.store.Postgres? ==> CleanInput(x)) ==>
            (Verify(env, es').Intact? <==> Verify(env, es).Intact?))
  {
    ReplayedRecordLedger(env, w1, x, id', elapsed');
  }

  lemma ReplayIsRecord(env: Env, w: World, cmd: Command, id': Id, elapsed': nat, w1: World)
    requires SequentialOk(w) && FirstTime(env, w, cmd) && w1 == Perform(env, w, cmd) && FreshEvent(w1.store, id')
    ensures var record := WebhookRecord(cmd.target, cmd.carrierID, cmd.ev);
      Perform(env, w1, Again(cmd, id', elapsed')) ==
        if record.None? then w1 else RecordCall(env, w1, record.value, id', elapsed').0
  {
    PerformOk(env, w, cmd);
    FoundIsNotPending(w, cmd.carrierID, cmd.externalID, cmd.target);
    FirstWebhook(env, w, cmd, w1);
    FoundIsNotPending(w1, cmd.carrierID, cmd.externalID, cmd.target);
    SecondCopy(w, w1, cmd.ev, cmd.target);
    WebhookIsCopyThenRecord(env, w1, Again(cmd, id', elapsed'));
  }

  function Again(cmd: Command, id: Id, elapsed: nat): Command
    requires cmd.Webhook?
  {
    Webhook(cmd.carrierID, cmd.externalID, cmd.ev, cmd.target, id, elapsed)
  }

  /** A webhook that finds its delivery and whose custody event, if it has one, is
      accepted by the ledger. */
  ghost predicate FirstTime(env: Env, w: World, cmd: Command) {
    && cmd.Webhook? && WebhookFinds(w, cmd.carrierID, cmd.externalID, cmd.target) && FreshEvent(w.store, cmd.eventID)
    && var record := WebhookRecord(cmd.target, cmd.carrierID, cmd.ev);
       record.Some? ==>
         Accepted(RecordCall(env, AfterCopy(w, cmd.ev, cmd.target), record.value, cmd.eventID, cmd.elapsed).1)
  }

  lemma SecondWebhook(env: Env, w: World, w1: World, cmd: Command, id': Id, elapsed': nat)
    requires w.deliveries.Keyed() && w1.deliveries.Coherent() && FirstTime(env, w, cmd) && FreshEvent(w1.store, id')
    requires WebhookFinds(w1, cmd.carrierID, cmd.externalID, cmd.target)
    requires w.deliveries.byID[cmd.target].state != Pending && w1.deliveries.byID[cmd.target].state != Pending
    requires var v := AfterCopy(w, cmd.ev, cmd.target);
      var record := WebhookRecord(cmd.target, cmd.carrierID, cmd.ev);
      && v.deliveries.Coherent() && cmd.target in v.deliveries.byID
      && w1 == (if record.None? then v else RecordCall(env, v, record.value, cmd.eventID, cmd.elapsed).0)
      && w1.deliveries.byID[cmd.target].rider == v.deliveries.byID[cmd.target].rider
      && (cmd.ev.OnShipmentCancelled? ==> w1.deliveries == v.deliveries)
    ensures Perform(env, w1, Again(cmd, id', elapsed')).deliveries == w1.deliveries
  {
    WebhookIsCopyThenRecord(env, w1, Again(cmd, id', elapsed'));
    SecondCopy(w, w1, cmd.ev, cmd.target);
    var record := WebhookRecord(cmd.target, cmd.carrierID, cmd.ev);
    if record.Some? {
      RecordReplayKeepsDeliveries(env, AfterCopy(w, cmd.ev, cmd.target), w1, record.value,
                                  cmd.eventID, id', cmd.elapsed, elapsed');
    }
  }

  /** What the first delivery of a webhook leaves of the delivery it found. */
  lemma FirstWebhook(env: Env, w: World, cmd: Command, w1: World)
    requires SequentialOk(w) && cmd.Webhook? && WebhookFinds(w, cmd.carrierID, cmd.externalID, cmd.target)
    requires FreshEvent(w.store, cmd.eventID) && w.deliveries.byID[cmd.target].state != Pending
    requires w1 == Perform(env, w, cmd)
    ensures var v := AfterCopy(w, cmd.ev, cmd.target);
      var record := WebhookRecord(cmd.target, cmd.carrierID, cmd.ev);
      && v.deliveries.Coherent()
      && cmd.target in v.deliveries.byID && cmd.target in w1.deliveries.byID
      && w1 == (if record.None? then v else RecordCall(env, v, record.value, cmd.eventID, cmd.elapsed).0)
      && w1.deliveries.byID[cmd.target].rider == v.deliveries.byID[cmd.target].rider
      && WebhookFinds(w1, cmd.carrierID, cmd.externalID, cmd.target)
      && (cmd.ev.OnShipmentCancelled? ==> w1.deliveries == v.deliveries)
  {
    WebhookIsCopyThenRecord(env, w, cmd);
    AfterCopyOk(w, cmd.ev, cmd.target);
    var v := AfterCopy(w, cmd.ev, cmd.target);
    CopyKeepsCarrier(w, cmd.ev, cmd.target);
    var record := WebhookRecord(cmd.target, cmd.carrierID, cmd.ev);
    if record.Some? {
      RecordKeepsCarrier(env, v, record.value, cmd.eventID, cmd.elapsed, cmd.target, w1);
    }
  }

  lemma CopyKeepsCarrier(w: World, ev: CarrierEvent, target: Id)
    requires w.deliveries.Keyed() && target in w.deliveries.byID
    ensures var t := AfterCopy(w, ev, target).deliveries;
      && target in t.byID
      && t.byID[target].carrierID == w.deliveries.byID[target].carrierID
      && t.byID[target].carrierExternalID == w.deliveries.byID[target].carrierExternalID
  {}

  predicate SameCarrier(d: Snapshot, d': Snapshot) {
    && d'.id == d.id
    && d'.carrierID == d.carrierID && d'.carrierExternalID == d.carrierExternalID && d'.rider == d.rider
  }

  lemma TransitionKeepsCarrier(d: Snapshot, kind: EventType, at: int)
    requires ApplyDeliveryTransition(d, kind, at).Some?
    ensures SameCarrier(d, ApplyDeliveryTransition(d, kind, at).value)
  {}

  lemma RecordKeepsCarrier(env: Env, w: World, x: RecordInput, id: Id, elapsed: nat, k: Id, w1: World)
    requires w.deliveries.Keyed() && k in w.deliveries.byID
    requires w1 == RecordCall(env, w, x, id, elapsed).0
    ensures k in w1.deliveries.byID && SameCarrier(w.deliveries.byID[k], w1.deliveries.byID[k])
  {
    RecordEffect(env, w, x, id, elapsed);
    if RecordCall(env, w, x, id, elapsed).1.RecordedAndSaved? {
      var d := w.deliveries.byID[x.deliveryID];
      TransitionKeepsCarrier(d, x.kind, w1.clock);
      SaveKeepsCarrier(w.deliveries, d, ApplyDeliveryTransition(d, x.kind, w1.clock).value, k);
    }
  }

  lemma SaveKeepsCarrier(t: Table, d: Snapshot, d': Snapshot, k: Id)
    requires t.Keyed() && k in t.byID && d.id in t.byID && t.byID[d.id] == d && SameCarrier(d, d')
    ensures k in t.Save(d').byID && SameCarrier(t.byID[k], t.Save(d').byID[k])
  {}

  /** The second time round the copy a webhook saves is what is stored already. */
  lemma SecondCopy(w: World, w1: World, ev: CarrierEvent, target: Id)
    requires w.deliveries.Keyed() && target in w.deliveries.byID && w.deliveries.byID[target].state != Pending
    requires w1.deliveries.Coherent() && target in w1.deliveries.byID && w1.deliveries.byID[target].state != Pending
    requires w1.deliveries.byID[target].rider == AfterCopy(w, ev, target).deliveries.byID[target].rider
    requires ev.OnShipmentCancelled? ==> w1.deliveries == AfterCopy(w, ev, target).deliveries
    ensures AfterCopy(w1, ev, target) == w1
  {
    var d, d1 := w.deliveries.byID[target], w1.deliveries.byID[target];
    if WebhookCopy(d1, ev).Some? {
      ReplayedCopy(d, ev, d1);
      SaveSame(w1.deliveries, d1);
    }
  }

  /** The copy a replayed webhook saves is the delivery as it already is. */
  lemma ReplayedCopy(d: Snapshot, ev: CarrierEvent, d1: Snapshot)
    requires d.state != Pending && d1.state != Pending && WebhookCopy(d, ev).Some?
    requires var c := WebhookCopy(d, ev).value;
      ev.OnShipmentCancelled? ==> d1 == c
    requires ev.OnRiderAssigned? ==> d1.rider == WebhookCopy(d, ev).value.rider
    ensures WebhookCopy(d1, ev) == Some(d1)
  {
    GraphShape(d1.state);
  }

  // --------------------------------------------- evidence of the last attempt

  /** How many events a delivery's list had when it last became assigned. */
  function AttemptMark(env: Env, w: World, cmds: seq<Command>, k: Id): nat {
    if cmds == [] then 0
    else
      var rest := cmds[..|cmds| - 1];
      var v, v' := PerformAll(env, w, rest), PerformAll(env, w, cmds);
      if BecomesAssigned(v.deliveries, v'.deliveries, k) then |EventsOf(env, v.store, k)|
      else AttemptMark(env, w, rest, k)
  }

  /** From position m on, the list has the evidence of the stored state. */
  ghost predicate EvidenceSince(env: Env, w: World, k: Id, m: nat) {
    && m <= |EventsOf(env, w.store, k)|
    && (k in w.deliveries.byID ==> HasTrail(EventsOf(env, w.store, k)[m..], Trail(w.deliveries.byID[k].state)))
  }

  /** An accepted record and its transition carry the evidence of the attempt on. */
  lemma RecordSince(env: Env, w: World, x: RecordInput, id: Id, elapsed: nat, k: Id, m: nat)
    requires Trusted(env, w.store) && Sequenced(env, w.store) && FreshEvent(w.store, id) && w.deliveries.Keyed()
    requires k in w.deliveries.byID && EvidenceSince(env, w, k, m)
    ensures EvidenceSince(env, RecordCall(env, w, x, id, elapsed).0, k, m)
  {
    var (w', r) := RecordCall(env, w, x, id, elapsed);
    RecordLedger(env, w, x, id, elapsed);
    var d, es, es' := w.deliveries.byID[k], EventsOf(env, w.store, k), EventsOf(env, w'.store, k);
    LongerSince(es, es', m, Trail(d.state));
    if k == x.deliveryID && r.RecordedAndSaved? {
      SavedRecordIs(env, w, x, id, elapsed);
      AttestedSince(env, w.store, ToEvent(x, w.clock), LastOf(es), id, es, m, Trail(d.state));
      TransitionCompletesTrail(es'[m..], d, x.kind, w'.clock);
    } else {
      UnsavedRecordIs(env, w, x, id, elapsed, k, w');
    }
  }

  lemma SavedRecordIs(env: Env, w: World, x: RecordInput, id: Id, elapsed: nat)
    requires Trusted(env, w.store) && Sequenced(env, w.store) && FreshEvent(w.store, id) && w.deliveries.Keyed()
    requires RecordCall(env, w, x, id, elapsed).1.RecordedAndSaved?
    ensures var w' := RecordCall(env, w, x, id, elapsed).0;
      var k, e, es := x.deliveryID, ToEvent(x, w.clock), EventsOf(env, w.store, x.deliveryID);
      && k in w.deliveries.byID && k in w'.deliveries.byID
      && ApplyDeliveryTransition(w.deliveries.byID[k], x.kind, w'.clock) == Some(w'.deliveries.byID[k])
      && Validate(e).None? && Seal(env, e, LastOf(es), id).Some?
      && EventsOf(env, w'.store, k) == es + [Kept(env, w.store, Seal(env, e, LastOf(es), id).value)]
  {
    RecordEffect(env, w, x, id, elapsed);
    RecordExtendsOwnList(env, w.store, ToEvent(x, w.clock), id);
    TransitionKeepsID(w.deliveries.byID[x.deliveryID], x.kind, RecordCall(env, w, x, id, elapsed).0.clock);
  }

  lemma TransitionKeepsID(d: Snapshot, kind: EventType, at: int)
    ensures ApplyDeliveryTransition(d, kind, at).Some? ==> ApplyDeliveryTransition(d, kind, at).value.id == d.id
  {}

  lemma UnsavedRecordIs(env: Env, w: World, x: RecordInput, id: Id, elapsed: nat, k: Id, w': World)
    requires w.deliveries.Keyed() && k in w.deliveries.byID && w' == RecordCall(env, w, x, id, elapsed).0
    requires k != x.deliveryID || !RecordCall(env, w, x, id, elapsed).1.RecordedAndSaved?
    ensures k in w'.deliveries.byID && w'.deliveries.byID[k] == w.deliveries.byID[k]
  {
    RecordEffect(env, w, x, id, elapsed);
    if RecordCall(env, w, x, id, elapsed).1.RecordedAndSaved? {
      TransitionKeepsID(w.deliveries.byID[x.deliveryID], x.kind, w'.clock);
    }
  }

  /** A state that calls for no evidence. */
  lemma NothingCalledFor(env: Env, w: World, k: Id, m: nat)
    requires m <= |EventsOf(env, w.store, k)|
    requires k in w.deliveries.byID ==> Trail(w.deliveries.byID[k].state) == []
    ensures EvidenceSince(env, w, k, m)
  {}

  lemma CopySince(env: Env, w: World, ev: CarrierEvent, target: Id, k: Id, m: nat)
    requires w.deliveries.Keyed() && target in w.deliveries.byID && EvidenceSince(env, w, k, m)
    ensures EvidenceSince(env, AfterCopy(w, ev, target), k, m)
  {
    WebhookCopyKeepsID(w.deliveries.byID[target], ev);
  }

  /** One call keeps the evidence since the mark, or sets a new mark. */
  lemma PerformSince(env: Env, w: World, cmd: Command, k: Id, m: nat)
    requires Trusted(env, w.store) && Sequenced(env, w.store) && SequentialOk(w) && EvidenceSince(env, w, k, m)
    ensures EvidenceSince(env, Perform(env, w, cmd), k,
      if BecomesAssigned(w.deliveries, Perform(env, w, cmd).deliveries, k) then |EventsOf(env, w.store, k)| else m)
  {
    var w' := Perform(env, w, cmd);
    PerformLedger(env, w, cmd);
    assert IsPrefix(EventsOf(env, w.store, k), EventsOf(env, w'.store, k));
    if k !in w.deliveries.byID {
      OnlyBookingsAdd(env, w, cmd, k);
      NothingCalledFor(env, w', k, m);
    } else if BecomesAssigned(w.deliveries, w'.deliveries, k) {
      NothingCalledFor(env, w', k, |EventsOf(env, w.store, k)|);
    } else {
      KnownSince(env, w, cmd, k, m);
    }
  }

  lemma KnownSince(env: Env, w: World, cmd: Command, k: Id, m: nat)
    requires Trusted(env, w.store) && Sequenced(env, w.store) && SequentialOk(w) && EvidenceSince(env, w, k, m)
    requires k in w.deliveries.byID && !BecomesAssigned(w.deliveries, Perform(env, w, cmd).deliveries, k)
    ensures EvidenceSince(env, Perform(env, w, cmd), k, m)
  {
    match cmd {
      case Wait(_) =>
      case Book(_, _) => BookSince(env, w, cmd, k, m);
      case Dispatch(id, o) => DispatchSince(env, w, id, o, k, m, Perform(env, w, cmd));
      case Record(x, id, elapsed) =>
        if FreshEvent(w.store, id) {
          RecordSince(env, w, x, id, elapsed, k, m);
        }
      case Webhook(_, _, _, _, _, _) => WebhookSince(env, w, cmd, k, m);
    }
  }

  lemma QuietSince(env: Env, w: World, w': World, k: Id, m: nat)
    requires w'.store == w.store && k in w.deliveries.byID && k in w'.deliveries.byID && EvidenceSince(env, w, k, m)
    requires w'.deliveries.byID[k].state in {w.deliveries.byID[k].state, Assigned}
    ensures EvidenceSince(env, w', k, m)
  {}

  lemma BookSince(env: Env, w: World, cmd: Command, k: Id, m: nat)
    requires cmd.Book? && k in w.deliveries.byID && EvidenceSince(env, w, k, m)
    ensures EvidenceSince(env, Perform(env, w, cmd), k, m)
  {
    if FreshDraw(w, cmd.draw) {
      QuietSince(env, w, BookingCall(w, cmd.input, cmd.draw).0, k, m);
    }
  }

  lemma DispatchSince(env: Env, w: World, id: Id, o: Outside, k: Id, m: nat, w': World)
    requires SequentialOk(w) && k in w.deliveries.byID && EvidenceSince(env, w, k, m)
    requires w' == DispatchCall(w, id, o).0
    ensures EvidenceSince(env, w', k, m)
  {
    DispatchEffect(w, id, o);
    QuietSince(env, w, w', k, m);
  }

  lemma WebhookSince(env: Env, w: World, cmd: Command, k: Id, m: nat)
    requires Trusted(env, w.store) && Sequenced(env, w.store) && SequentialOk(w) && EvidenceSince(env, w, k, m)
    requires k in w.deliveries.byID && cmd.Webhook?
    ensures EvidenceSince(env, Perform(env, w, cmd), k, m)
  {
    if WebhookFinds(w, cmd.carrierID, cmd.externalID, cmd.target) && FreshEvent(w.store, cmd.eventID) {
      WebhookIsCopyThenRecord(env, w, cmd);
      CopySince(env, w, cmd.ev, cmd.target, k, m);
      CopyKeepsKeys(w, cmd.ev, cmd.target);
      var record := WebhookRecord(cmd.target, cmd.carrierID, cmd.ev);
      if record.Some? {
        RecordSince(env, AfterCopy(w, cmd.ev, cmd.target), record.value, cmd.eventID, cmd.elapsed, k, m);
      }
    }
  }

  lemma {:induction false} MarkedEvidence(env: Env, w: World, cmds: seq<Command>, k: Id)
    requires Trusted(env, w.store) && IsEmpty(w)
    ensures EvidenceSince(env, PerformAll(env, w, cmds), k, AttemptMark(env, w, cmds, k))
  {
    EmptyOk(env, w);
    if cmds != [] {
      var rest := cmds[..|cmds| - 1];
      MarkedEvidence(env, w, rest, k);
      PerformAllOk(env, w, rest);
      PerformAllLedger(env, w, rest);
      PerformSince(env, PerformAll(env, w, rest), cmds[|cmds| - 1], k, AttemptMark(env, w, rest, k));
    }
  }

  /** With calls run one at a time the evidence of a state lies after the last time
      the delivery became assigned: no attempt lives on the evidence of an earlier
      one. */
  lemma EvidenceOfTheLastAttempt(env: Env, w: World, cmds: seq<Command>, k: Id)
    requires Trusted(env, w.store) && IsEmpty(w) && k in PerformAll(env, w, cmds).deliveries.byID
    ensures var v, m := PerformAll(env, w, cmds), AttemptMark(env, w, cmds, k);
      m <= |EventsOf(env, v.store, k)| && EvidenceFor(EventsOf(env, v.store, k)[m..], v.deliveries.byID[k].state)
  {
    MarkedEvidence(env, w, cmds, k);
    var v, m := PerformAll(env, w, cmds), AttemptMark(env, w, cmds, k);
    TrailEvidence(EventsOf(env, v.store, k)[m..], v.deliveries.byID[k].state);
  }
}
