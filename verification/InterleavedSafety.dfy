/** What every interleaving of booking, dispatch, custody and webhook calls keeps of
    the deliveries, the AWBs and the shipments. Nothing here depends on the custody
    store or on an encoding. */
module InterleavedSafety {
  import opened Common
  import opened Events
  import opened Encoding
  import opened CustodyStore
  import opened StateGraph
  import opened Deliveries
  import opened Repositories
  import opened Carriers
  import opened Operations
  import opened Interleaving

  /** When only the ledger, the clock and the shipments moved on, the copies stay as
      good. */
  lemma CopiesStay(w: World, w': World)
    requires WorldOk(w) && Grows(w, w') && w'.deliveries == w.deliveries && w'.awbs.Coherent()
    requires forall sh :: sh in w'.shipments ==> sh.idempotencyKey == Some(sh.deliveryID)
    ensures WorldOk(w')
  {
    forall k | k in w.deliveries.byID ensures CopyFacts(w', w.deliveries.byID[k]) {
      FactsStay(w, w', w.deliveries.byID[k]);
    }
  }

  lemma TimePasses(w: World, elapsed: nat)
    requires WorldOk(w)
    ensures WorldOk(Later(w, elapsed)) && Grows(w, Later(w, elapsed))
  {
    CopiesStay(w, Later(w, elapsed));
  }

  lemma SaveOk(w: World, d: Snapshot)
    requires WorldOk(w) && CopyOk(w, d)
    ensures var w' := w.(deliveries := w.deliveries.Save(d));
      WorldOk(w') && Grows(w, w')
  {
    var w' := w.(deliveries := w.deliveries.Save(d));
    SaveKeepsIndexIff(w.deliveries, d);
    forall k | k in w'.deliveries.byID ensures CopyFacts(w', w'.deliveries.byID[k]) {
      assert CopyFacts(w, w'.deliveries.byID[k]);
    }
  }

  lemma NewDeliveryOk(w: World, d: Snapshot)
    requires WorldOk(w) && NewBooking(d) && d.awbID in w.awbs.byID
    requires d.id !in w.deliveries.byID && d.id != NIL_ID
    ensures var w' := w.(deliveries := w.deliveries.Save(d));
      WorldOk(w') && Grows(w, w')
  {
    var w' := w.(deliveries := w.deliveries.Save(d));
    SaveKeepsIndexIff(w.deliveries, d);
    forall k | k in w'.deliveries.byID ensures CopyFacts(w', w'.deliveries.byID[k]) {
      assert k != d.id ==> CopyFacts(w, w.deliveries.byID[k]);
    }
  }

  lemma NewAwbOk(w: World, a: Awb)
    requires WorldOk(w) && a.id !in w.awbs.byID
    ensures var w' := w.(awbs := w.awbs.Save(a));
      WorldOk(w') && Grows(w, w')
  {
    var w' := w.(awbs := w.awbs.Save(a));
    AwbSaveKeepsAgreementIff(w.awbs, a);
    CopiesStay(w, w');
  }

  lemma ShipmentOk(w: World, d: Snapshot, carrierID: string)
    requires WorldOk(w) && CopyOk(w, d)
    ensures var w' := w.(shipments := w.shipments + [Shipment(d.id, d.idempotencyKey, carrierID)]);
      WorldOk(w') && Grows(w, w')
  {
    CopiesStay(w, w.(shipments := w.shipments + [Shipment(d.id, d.idempotencyKey, carrierID)]));
  }

  /** The copy a dispatch saves. */
  lemma AssignOk(w: World, d: Snapshot, c: Carrier, resp: ShipmentResponse)
    requires CopyOk(w, d) && d.state == Pending
    ensures Assign(d, c, resp).Some? && CopyOk(w, Assign(d, c, resp).value)
    ensures Assign(d, c, resp).value.state == Assigned
  {}

  lemma TransitionOk(w: World, d: Snapshot, kind: EventType)
    requires CopyOk(w, d) && ApplyDeliveryTransition(d, kind, w.clock).Some?
    ensures CopyOk(w, ApplyDeliveryTransition(d, kind, w.clock).value)
    ensures OneEdge(d.state, ApplyDeliveryTransition(d, kind, w.clock).value.state)
  {}

  /** The copy a webhook saves of a delivery it found. */
  lemma WebhookCopyOk(w: World, d: Snapshot, ev: CarrierEvent)
    requires CopyOk(w, d)
    requires WebhookCopy(d, ev).Some? && (ev.OnRiderAssigned? ==> d.state != Pending)
    ensures CopyOk(w, WebhookCopy(d, ev).value)
    ensures OneEdge(d.state, WebhookCopy(d, ev).value.state)
  {}

  /** One access of one call keeps the world's invariant and only makes it grow;
      the call keeps what it relies on. */
  ghost predicate AccessKeeps(env: Env, w: World, call: Call, x: Chance) {
    var (w', r) := Access(env, w, call, x);
    WorldOk(w') && Grows(w, w') && (r.Some? ==> CallOk(w', r.value))
  }

  lemma BookAwbAccess(env: Env, w: World, a: Awb, d: Snapshot, x: Chance)
    requires WorldOk(w) && CallOk(w, BookAwb(a, d))
    ensures AccessKeeps(env, w, BookAwb(a, d), x)
  {
    if a.id !in w.awbs.byID {
      NewAwbOk(w, a);
    }
  }

  lemma BookDeliveryAccess(env: Env, w: World, d: Snapshot, x: Chance)
    requires WorldOk(w) && CallOk(w, BookDelivery(d))
    ensures AccessKeeps(env, w, BookDelivery(d), x)
  {
    if d.id !in w.deliveries.byID && d.id != NIL_ID {
      NewDeliveryOk(w, d);
    }
  }

  lemma ReadAwbAccess(env: Env, w: World, d: Snapshot, x: Chance)
    requires WorldOk(w) && CallOk(w, DispatchCopied(d))
    ensures AccessKeeps(env, w, DispatchCopied(d), x)
  {}

  lemma RoutingAccess(env: Env, w: World, d: Snapshot, a: Awb, x: Chance)
    requires WorldOk(w) && CallOk(w, DispatchRouting(d, a))
    ensures AccessKeeps(env, w, DispatchRouting(d, a), x)
  {
    match Ship(a, d, x.outside) {
      case None =>
      case Some((c, resp)) =>
        ShipmentOk(w, d, c.caps.id);
        AssignOk(w, d, c, resp);
        var d' := Assign(d, c, resp).value;
        var w' := w.(shipments := w.shipments + [Shipment(d.id, d.idempotencyKey, c.caps.id)]);
        assert Access(env, w, DispatchRouting(d, a), x) == (w', Some(SaveCopy(d', d.state)));
        CallStays(w, w', SaveCopy(d', d.state));
    }
  }

  lemma SaveAccess(env: Env, w: World, d: Snapshot, read: State, x: Chance)
    requires WorldOk(w) && CallOk(w, SaveCopy(d, read))
    ensures AccessKeeps(env, w, SaveCopy(d, read), x)
  {
    SaveOk(w, d);
  }

  lemma SaveFirstAccess(env: Env, w: World, d: Snapshot, read: State, input: RecordInput, x: Chance)
    requires WorldOk(w) && CallOk(w, SaveThenRecord(d, read, input))
    ensures AccessKeeps(env, w, SaveThenRecord(d, read, input), x)
  {
    SaveOk(w, d);
  }

  lemma StartAccess(env: Env, w: World, input: RecordInput, x: Chance)
    requires WorldOk(w)
    ensures AccessKeeps(env, w, RecordStart(input), x)
  {
    if input.deliveryID in w.deliveries.byID {
      assert CopyOk(w, w.deliveries.byID[input.deliveryID]);
    }
  }

  lemma TailAccess(env: Env, w: World, d: Snapshot, e: Event, x: Chance)
    requires WorldOk(w) && CallOk(w, RecordCopied(d, e))
    ensures AccessKeeps(env, w, RecordCopied(d, e), x)
  {}

  lemma StoreMoves(w: World, st: Store)
    requires WorldOk(w)
    ensures WorldOk(w.(store := st)) && Grows(w, w.(store := st))
  {
    CopiesStay(w, w.(store := st));
  }

  /** What an append comes to: nothing, or a new store and the next stage. */
  lemma AppendShape(env: Env, w: World, d: Snapshot, e: Event, tail: Option<Event>, x: Chance)
    ensures var (w', r) := Access(env, w, RecordSealing(d, e, tail), x);
      && w' == w.(store := w'.store)
      && (r.Some? ==> r.value in {RecordSealing(d, e, tail), RecordAppended(d, e.kind)})
  {}

  lemma AppendAccess(env: Env, w: World, d: Snapshot, e: Event, tail: Option<Event>, x: Chance)
    requires WorldOk(w) && CallOk(w, RecordSealing(d, e, tail))
    ensures AccessKeeps(env, w, RecordSealing(d, e, tail), x)
  {
    var (w', r) := Access(env, w, RecordSealing(d, e, tail), x);
    AppendShape(env, w, d, e, tail, x);
    AppendKeeps(w, w', d, e, tail, r);
  }

  lemma AppendKeeps(w: World, w': World, d: Snapshot, e: Event, tail: Option<Event>, r: Option<Call>)
    requires WorldOk(w) && CallOk(w, RecordSealing(d, e, tail)) && w' == w.(store := w'.store)
    requires r.Some? ==> r.value in {RecordSealing(d, e, tail), RecordAppended(d, e.kind)}
    ensures WorldOk(w') && Grows(w, w') && (r.Some? ==> CallOk(w', r.value))
  {
    StoreMoves(w, w'.store);
    FactsStay(w, w', d);
  }

  lemma TransitionAccess(env: Env, w: World, d: Snapshot, kind: EventType, x: Chance)
    requires WorldOk(w) && CallOk(w, RecordAppended(d, kind))
    ensures AccessKeeps(env, w, RecordAppended(d, kind), x)
  {
    if ApplyDeliveryTransition(d, kind, w.clock).Some? {
      TransitionOk(w, d, kind);
    }
  }

  lemma AccessOk(env: Env, w: World, call: Call, x: Chance)
    requires WorldOk(w) && CallOk(w, call)
    ensures AccessKeeps(env, w, call, x)
  {
    match call {
      case BookAwb(a, d) => BookAwbAccess(env, w, a, d, x);
      case BookDelivery(d) => BookDeliveryAccess(env, w, d, x);
      case DispatchCopied(d) => ReadAwbAccess(env, w, d, x);
      case DispatchRouting(d, a) => RoutingAccess(env, w, d, a, x);
      case SaveCopy(d, read) => SaveAccess(env, w, d, read, x);
      case SaveThenRecord(d, read, input) => SaveFirstAccess(env, w, d, read, input, x);
      case RecordStart(input) => StartAccess(env, w, input, x);
      case RecordCopied(d, e) => TailAccess(env, w, d, e, x);
      case RecordSealing(d, e, tail) => AppendAccess(env, w, d, e, tail, x);
      case RecordAppended(d, kind) => TransitionAccess(env, w, d, kind, x);
    }
  }

  lemma ProceedOk(env: Env, w: World, call: Call, x: Chance)
    requires WorldOk(w) && CallOk(w, call)
    ensures var (w', r) := Proceed(env, w, call, x);
      WorldOk(w') && Grows(w, w') && (r.Some? ==> CallOk(w', r.value))
  {
    var v := Later(w, x.elapsed);
    TimePasses(w, x.elapsed);
    CallStays(w, v, call);
    AccessOk(env, v, call, x);
    GrowsTransitive(w, v, Proceed(env, w, call, x).0);
  }

  lemma BeginOk(w: World, step: Step)
    requires WorldOk(w) && Begin(w, step).Some?
    ensures CallOk(w, Begin(w, step).value)
  {
    match step {
      case StartDispatch(_, id) => assert CopyOk(w, w.deliveries.byID[id]);
      case StartWebhook(_, carrierID, externalID, ev, target) =>
        var d := w.deliveries.byID[target];
        assert CopyOk(w, d);
        if WebhookCopy(d, ev).Some? {
          WebhookCopyOk(w, d, ev);
        }
      case _ =>
    }
  }

  lemma OthersStay(s: System, w': World, c: nat, call: Option<Call>)
    requires SystemOk(s) && WorldOk(w') && Grows(s.w, w')
    requires call.Some? ==> CallOk(w', call.value)
    ensures SystemOk(System(w', SetCall(s.calls, c, call)))
  {
    forall o | o in SetCall(s.calls, c, call) ensures CallOk(w', SetCall(s.calls, c, call)[o]) {
      if o != c || call.None? {
        CallStays(s.w, w', s.calls[o]);
      }
    }
  }

  lemma NextOk(env: Env, s: System, step: Step)
    requires SystemOk(s)
    ensures SystemOk(Next(env, s, step)) && Grows(s.w, Next(env, s, step).w)
  {
    match step {
      case Die(c) => OthersStay(s, s.w, c, None);
      case Advance(c, chance) =>
        if c in s.calls {
          var (w', r) := Proceed(env, s.w, s.calls[c], chance);
          ProceedOk(env, s.w, s.calls[c], chance);
          OthersStay(s, w', c, r);
        }
      case _ =>
        if step.c !in s.calls {
          if Begin(s.w, step).Some? {
            BeginOk(s.w, step);
          }
          OthersStay(s, s.w, step.c, Begin(s.w, step));
        }
    }
  }

  lemma {:induction false} ExecOk(env: Env, s: System, steps: seq<Step>)
    requires SystemOk(s)
    ensures SystemOk(Exec(env, s, steps)) && Grows(s.w, Exec(env, s, steps).w)
  {
    if steps != [] {
      var rest := steps[..|steps| - 1];
      ExecOk(env, s, rest);
      NextOk(env, Exec(env, s, rest), steps[|steps| - 1]);
      GrowsTransitive(s.w, Exec(env, s, rest).w, Exec(env, s, steps).w);
    }
  }
}
