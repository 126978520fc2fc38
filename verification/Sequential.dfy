/** Service calls run one at a time: each is one particular schedule of the
    interleaved system, and more can be said about runs of them. */
module Sequential {
  import opened Common
  import opened Events
  import opened Encoding
  import opened HashChain
  import opened CustodyStore
  import opened Recording
  import opened StateGraph
  import opened Deliveries
  import opened Repositories
  import opened Operations
  import opened Interleaving

  datatype Command =
    | Wait(elapsed: nat)
    | Book(input: BookingInput, draw: BookingDraw)
    | Dispatch(id: Id, outside: Outside)
    | Record(x: RecordInput, eventID: Id, elapsed: nat)
    | Webhook(carrierID: string, externalID: string, ev: CarrierEvent, target: Id, eventID: Id, elapsed: nat)

  predicate FreshDraw(w: World, draw: BookingDraw) {
    draw.awbID !in w.awbs.byID && draw.deliveryID !in w.deliveries.byID && draw.deliveryID != NIL_ID
  }

  predicate WebhookFinds(w: World, carrierID: string, externalID: string, target: Id) {
    externalID != "" && target in w.deliveries.byID && Matches(w.deliveries.byID[target], carrierID, externalID)
  }

  /** One call from start to end. UUIDs that were drawn before are not drawn again:
      such a command does nothing. */
  function Perform(env: Env, w: World, cmd: Command): World {
    match cmd
    case Wait(elapsed) => Later(w, elapsed)
    case Book(x, draw) => if FreshDraw(w, draw) then BookingCall(w, x, draw).0 else w
    case Dispatch(id, o) => DispatchCall(w, id, o).0
    case Record(x, id, elapsed) => if FreshEvent(w.store, id) then RecordCall(env, w, x, id, elapsed).0 else w
    case Webhook(carrierID, externalID, ev, target, id, elapsed) =>
      if WebhookFinds(w, carrierID, externalID, target) && FreshEvent(w.store, id)
      then WebhookCall(env, w, carrierID, ev, target, id, elapsed).0 else w
  }

  function PerformAll(env: Env, w: World, cmds: seq<Command>): World {
    if cmds == [] then w else Perform(env, PerformAll(env, w, cmds[..|cmds| - 1]), cmds[|cmds| - 1])
  }

  // ------------------------------------------------- one call is one schedule

  /** Run alone, the call ends and leaves the world w'. */
  ghost predicate Completes(env: Env, w: World, call: Call, w': World) {
    exists steps :: Exec(env, System(w, map[0 := call]), steps) == System(w', map[])
  }

  lemma LastAccess(env: Env, w: World, call: Call, x: Chance, w': World)
    requires Proceed(env, w, call, x) == (w', None)
    ensures Completes(env, w, call, w')
  {
    var s := System(w, map[0 := call]);
    var none: seq<Step> := [];
    assert Next(env, s, Advance(0, x)) == System(w', map[]);
    ExecCons(env, s, Advance(0, x), none);
    assert Exec(env, System(w', map[]), none) == System(w', map[]);
    assert Exec(env, s, [Advance(0, x)] + none) == System(w', map[]);
  }

  lemma MoreAccess(env: Env, w: World, call: Call, x: Chance, v: World, next: Call, w': World)
    requires Proceed(env, w, call, x) == (v, Some(next)) && Completes(env, v, next, w')
    ensures Completes(env, w, call, w')
  {
    var s := System(w, map[0 := call]);
    var steps :| Exec(env, System(v, map[0 := next]), steps) == System(w', map[]);
    assert Next(env, s, Advance(0, x)) == System(v, map[0 := next]);
    ExecCons(env, s, Advance(0, x), steps);
  }

  ghost predicate Scheduled(env: Env, w: World, w': World) {
    exists steps :: Exec(env, System(w, map[]), steps) == System(w', map[])
  }

  lemma NothingScheduled(env: Env, w: World)
    ensures Scheduled(env, w, w)
  {
    var none: seq<Step> := [];
    assert Exec(env, System(w, map[]), none) == System(w, map[]);
  }

  lemma CallScheduled(env: Env, w: World, start: Step, call: Call, w': World)
    requires !start.Advance? && !start.Die? && start.c == 0
    requires Begin(w, start) == Some(call) && Completes(env, w, call, w')
    ensures Scheduled(env, w, w')
  {
    var steps :| Exec(env, System(w, map[0 := call]), steps) == System(w', map[]);
    ExecCons(env, System(w, map[]), start, steps);
    assert Next(env, System(w, map[]), start) == System(w, map[0 := call]);
  }

  lemma LaterZero(w: World)
    ensures Later(w, 0) == w
  {}

  lemma SaveCompletes(env: Env, w: World, d: Snapshot, read: State, x: Chance)
    ensures Completes(env, w, SaveCopy(d, read), w.(deliveries := w.deliveries.Save(d)))
  {
    LaterZero(w);
    LastAccess(env, w, SaveCopy(d, read), x.(elapsed := 0), w.(deliveries := w.deliveries.Save(d)));
  }

  lemma TransitionCompletes(env: Env, w: World, d: Snapshot, kind: EventType, x: Chance)
    ensures var v := Later(w, x.elapsed);
      var moved := ApplyDeliveryTransition(d, kind, v.clock);
      Completes(env, w, RecordAppended(d, kind),
                if moved.Some? then v.(deliveries := v.deliveries.Save(moved.value)) else v)
  {
    var v := Later(w, x.elapsed);
    var moved := ApplyDeliveryTransition(d, kind, v.clock);
    if moved.Some? {
      SaveCompletes(env, v, moved.value, d.state, x);
      MoreAccess(env, w, RecordAppended(d, kind), x, v, SaveCopy(moved.value, d.state),
                 v.(deliveries := v.deliveries.Save(moved.value)));
    } else {
      LastAccess(env, w, RecordAppended(d, kind), x, v);
    }
  }

  lemma SealingCompletes(env: Env, w: World, d: Snapshot, e: Event, tail: Option<Event>, x: Chance)
    requires FreshEvent(w.store, x.eventID) && Seal(env, e, tail, x.eventID).Some?
    requires Append(env, w.store, Seal(env, e, tail, x.eventID).value).Some?
    ensures var v := Later(w.(store := Append(env, w.store, Seal(env, e, tail, x.eventID).value).value), x.elapsed);
      var moved := ApplyDeliveryTransition(d, e.kind, v.clock);
      Completes(env, w, RecordSealing(d, e, tail),
                if moved.Some? then v.(deliveries := v.deliveries.Save(moved.value)) else v)
  {
    var u := w.(store := Append(env, w.store, Seal(env, e, tail, x.eventID).value).value);
    var v := Later(u, x.elapsed);
    var moved := ApplyDeliveryTransition(d, e.kind, v.clock);
    LaterZero(w);
    TransitionCompletes(env, u, d, e.kind, x);
    MoreAccess(env, w, RecordSealing(d, e, tail), x.(elapsed := 0), u, RecordAppended(d, e.kind),
               if moved.Some? then v.(deliveries := v.deliveries.Save(moved.value)) else v);
  }

  /** A sequential `Record` is its accesses in a row. */
  lemma RecordCompletes(env: Env, w: World, input: RecordInput, x: Chance)
    requires FreshEvent(w.store, x.eventID)
    ensures Completes(env, w, RecordStart(input), RecordCall(env, w, input, x.eventID, x.elapsed).0)
  {
    var now := x.(elapsed := 0);
    LaterZero(w);
    var w' := RecordCall(env, w, input, x.eventID, x.elapsed).0;
    if input.deliveryID !in w.deliveries.byID {
      LastAccess(env, w, RecordStart(input), now, w);
    } else {
      var d := w.deliveries.byID[input.deliveryID];
      var e := ToEvent(input, w.clock);
      CopiedCompletes(env, w, d, e, x);
      var st', r := RecordCallIs(env, w, input, x.eventID, x.elapsed);
      StartCompletes(env, w, input, now, w');
    }
  }

  lemma StartCompletes(env: Env, w: World, input: RecordInput, x: Chance, w': World)
    requires input.deliveryID in w.deliveries.byID && x.elapsed == 0
    requires Completes(env, w, RecordCopied(w.deliveries.byID[input.deliveryID], ToEvent(input, w.clock)), w')
    ensures Completes(env, w, RecordStart(input), w')
  {
    LaterZero(w);
    var d := w.deliveries.byID[input.deliveryID];
    MoreAccess(env, w, RecordStart(input), x, w, RecordCopied(d, ToEvent(input, w.clock)), w');
  }

  lemma CopiedCompletes(env: Env, w: World, d: Snapshot, e: Event, x: Chance)
    requires FreshEvent(w.store, x.eventID)
    ensures var (st', r) := RecordEvent(env, w.store, e, x.eventID);
      var v := Later(w.(store := st'), x.elapsed);
      var moved := ApplyDeliveryTransition(d, e.kind, v.clock);
      Completes(env, w, RecordCopied(d, e),
                if r.Err? then w
                else if moved.Some? then v.(deliveries := v.deliveries.Save(moved.value)) else v)
  {
    var now := x.(elapsed := 0);
    LaterZero(w);
    var tail := LastByDelivery(env, w.store, e.deliveryID);
    if Validate(e).Some? || tail.None? {
      LastAccess(env, w, RecordCopied(d, e), now, w);
    } else {
      var sealing := RecordSealing(d, e, tail.value);
      var sealed := Seal(env, e, tail.value, x.eventID);
      if sealed.None? || Append(env, w.store, sealed.value).None? {
        LastAccess(env, w, sealing, now, w);
        MoreAccess(env, w, RecordCopied(d, e), now, w, sealing, w);
      } else {
        SealingCompletes(env, w, d, e, tail.value, x);
        var v := Later(w.(store := Append(env, w.store, sealed.value).value), x.elapsed);
        var moved := ApplyDeliveryTransition(d, e.kind, v.clock);
        MoreAccess(env, w, RecordCopied(d, e), now, w, sealing,
                   if moved.Some? then v.(deliveries := v.deliveries.Save(moved.value)) else v);
      }
    }
  }

  lemma BookingScheduled(env: Env, w: World, input: BookingInput, draw: BookingDraw, x: Chance)
    requires FreshDraw(w, draw)
    ensures Scheduled(env, w, BookingCall(w, input, draw).0)
  {
    match PrepareBooking(input, draw, w.clock) {
      case None => NothingScheduled(env, w);
      case Some((a, d)) =>
        var now := x.(elapsed := 0);
        var v := w.(awbs := w.awbs.Save(a));
        var w' := v.(deliveries := v.deliveries.Save(d));
        assert a.id == draw.awbID && d.id == draw.deliveryID;
        LaterZero(w);
        LaterZero(v);
        LastAccess(env, v, BookDelivery(d), now, w');
        MoreAccess(env, w, BookAwb(a, d), now, v, BookDelivery(d), w');
        CallScheduled(env, w, StartBooking(0, input, draw), BookAwb(a, d), w');
    }
  }

  lemma DispatchScheduled(env: Env, w: World, id: Id, x: Chance)
    ensures Scheduled(env, w, DispatchCall(w, id, x.outside).0)
  {
    if id !in w.deliveries.byID || w.deliveries.byID[id].state != Pending {
      NothingScheduled(env, w);
    } else {
      var d := w.deliveries.byID[id];
      var now := x.(elapsed := 0);
      LaterZero(w);
      if d.awbID !in w.awbs.byID {
        LastAccess(env, w, DispatchCopied(d), now, w);
      } else {
        var a := w.awbs.byID[d.awbID];
        RoutingCompletes(env, w, d, a, now);
        MoreAccess(env, w, DispatchCopied(d), now, w, DispatchRouting(d, a), DispatchCall(w, id, x.outside).0);
      }
      CallScheduled(env, w, StartDispatch(0, id), DispatchCopied(d), DispatchCall(w, id, x.outside).0);
    }
  }

  lemma RoutingCompletes(env: Env, w: World, d: Snapshot, a: Awb, x: Chance)
    requires x.elapsed == 0
    ensures Completes(env, w, DispatchRouting(d, a),
      match Ship(a, d, x.outside)
      case None => w
      case Some((c, resp)) =>
        var sent := w.(shipments := w.shipments + [Shipment(d.id, d.idempotencyKey, c.caps.id)]);
        match Assign(d, c, resp)
        case None => sent
        case Some(d') => sent.(deliveries := w.deliveries.Save(d')))
  {
    LaterZero(w);
    match Ship(a, d, x.outside) {
      case None => LastAccess(env, w, DispatchRouting(d, a), x, w);
      case Some((c, resp)) =>
        var sent := w.(shipments := w.shipments + [Shipment(d.id, d.idempotencyKey, c.caps.id)]);
        match Assign(d, c, resp) {
          case None => LastAccess(env, w, DispatchRouting(d, a), x, sent);
          case Some(d') =>
            SaveCompletes(env, sent, d', d.state, x);
            MoreAccess(env, w, DispatchRouting(d, a), x, sent, SaveCopy(d', d.state),
                       sent.(deliveries := w.deliveries.Save(d')));
        }
    }
  }

  lemma WebhookScheduled(env: Env, w: World, cmd: Command, x: Chance)
    requires cmd.Webhook? && WebhookFinds(w, cmd.carrierID, cmd.externalID, cmd.target)
    requires FreshEvent(w.store, cmd.eventID) && x.eventID == cmd.eventID && x.elapsed == cmd.elapsed
    ensures Scheduled(env, w, Perform(env, w, cmd))
  {
    var d := w.deliveries.byID[cmd.target];
    var now := x.(elapsed := 0);
    var start := StartWebhook(0, cmd.carrierID, cmd.externalID, cmd.ev, cmd.target);
    var copy, record := WebhookCopy(d, cmd.ev), WebhookRecord(d.id, cmd.carrierID, cmd.ev);
    var w' := Perform(env, w, cmd);
    LaterZero(w);
    if copy.None? && record.None? {
      NothingScheduled(env, w);
    } else if copy.None? {
      RecordCompletes(env, w, record.value, x);
      CallScheduled(env, w, start, RecordStart(record.value), w');
    } else if record.None? {
      SaveCompletes(env, w, copy.value, d.state, x);
      CallScheduled(env, w, start, SaveCopy(copy.value, d.state), w');
    } else {
      var v := w.(deliveries := w.deliveries.Save(copy.value));
      RecordCompletes(env, v, record.value, x);
      MoreAccess(env, w, SaveThenRecord(copy.value, d.state, record.value), now, v, RecordStart(record.value), w');
      CallScheduled(env, w, start, SaveThenRecord(copy.value, d.state, record.value), w');
    }
  }

  /** Every call run alone is one of the schedules of the interleaved system, so
      whatever all interleavings keep, sequential runs keep. */
  lemma EveryCallIsASchedule(env: Env, w: World, cmd: Command)
    ensures Scheduled(env, w, Perform(env, w, cmd))
  {
    match cmd {
      case Wait(elapsed) => WaitScheduled(env, w, elapsed);
      case Book(input, draw) =>
        if FreshDraw(w, draw) {
          BookingScheduled(env, w, input, draw, Chance(0, 0, NO_CARRIERS));
        } else {
          NothingScheduled(env, w);
        }
      case Dispatch(id, o) => DispatchScheduled(env, w, id, Chance(0, 0, o));
      case Record(input, id, elapsed) =>
        if FreshEvent(w.store, id) {
          RecordCompletes(env, w, input, Chance(elapsed, id, NO_CARRIERS));
          CallScheduled(env, w, StartRecord(0, input), RecordStart(input), Perform(env, w, cmd));
        } else {
          NothingScheduled(env, w);
        }
      case Webhook(carrierID, externalID, ev, target, id, elapsed) =>
        if WebhookFinds(w, carrierID, externalID, target) && FreshEvent(w.store, id) {
          WebhookScheduled(env, w, cmd, Chance(elapsed, id, NO_CARRIERS));
        } else {
          NothingScheduled(env, w);
        }
    }
  }

  /** Time passes while a call that reads nothing of use comes and goes. */
  lemma WaitScheduled(env: Env, w: World, elapsed: nat)
    ensures Scheduled(env, w, Later(w, elapsed))
  {
    var input := RecordInput(NIL_ID, RiderAssigned, Actor("", "", "", ""), None, None, "");
    var x := Chance(elapsed, 0, NO_CARRIERS);
    var w' := Later(w, elapsed);
    if NIL_ID in w.deliveries.byID {
      var d, e := w.deliveries.byID[NIL_ID], ToEvent(input, w'.clock);
      LaterZero(w');
      assert Validate(e).Some?;
      LastAccess(env, w', RecordCopied(d, e), x.(elapsed := 0), w');
      MoreAccess(env, w, RecordStart(input), x, w', RecordCopied(d, e), w');
    } else {
      LastAccess(env, w, RecordStart(input), x, w');
    }
    CallScheduled(env, w, StartRecord(0, input), RecordStart(input), w');
  }
}
