/** What every interleaving keeps of the custody ledger: the lists only grow at
    their end, every copy has the evidence of its state behind it, and the table's
    lists stay numbered, and chains while nothing is lost on the way to a row. */
module InterleavedEvidence {
  import opened Common
  import opened Events
  import opened Encoding
  import opened HashChain
  import opened RowCodec
  import opened CustodyStore
  import opened Recording
  import opened StateGraph
  import opened Deliveries
  import opened Repositories
  import opened Operations
  import opened Interleaving
  import opened InterleavedSafety

  ghost predicate LedgerOk(env: Env, st: Store) {
    Readable(env, st) && (st.Postgres? ==> forall d :: Numbered(EventsOf(env, st, d)))
  }

  /** The ledger holds the evidence of the state the copy is in. */
  ghost predicate TrailOk(env: Env, st: Store, d: Snapshot) {
    HasTrail(EventsOf(env, st, d.id), Trail(d.state))
  }

  ghost predicate StoredTrails(env: Env, w: World) {
    forall k :: k in w.deliveries.byID ==> TrailOk(env, w.store, w.deliveries.byID[k])
  }

  /** The tail a writer holds was the tail of the list at some time. */
  ghost predicate TailOk(env: Env, st: Store, d: Id, tail: Option<Event>) {
    exists k :: 0 <= k <= |EventsOf(env, st, d)| && tail == LastOf(EventsOf(env, st, d)[..k])
  }

  /** The evidence behind what a call holds. */
  ghost predicate Backed(env: Env, st: Store, call: Call) {
    match call
    case BookAwb(_, _) => true
    case BookDelivery(_) => true
    case RecordStart(_) => true
    case RecordSealing(d, _, tail) => TrailOk(env, st, d) && TailOk(env, st, d.id, tail)
    case RecordAppended(d, kind) =>
      && TrailOk(env, st, d)
      && (RequiresPhoto(kind) && RequiresGPS(kind) ==>
            HasTrail(EventsOf(env, st, d.id), Trail(d.state) + [kind]))
    case _ => TrailOk(env, st, call.d)
  }

  ghost predicate EvidenceOk(env: Env, s: System) {
    && LedgerOk(env, s.w.store)
    && StoredTrails(env, s.w)
    && forall c :: c in s.calls ==> Backed(env, s.w.store, s.calls[c])
  }

  /** Custody lists only grow at their end. */
  ghost predicate ListsGrow(env: Env, st: Store, st': Store) {
    && (st.Postgres? <==> st'.Postgres?)
    && forall d :: IsPrefix(EventsOf(env, st, d), EventsOf(env, st', d))
  }

  lemma ListsGrowTransitive(env: Env, a: Store, b: Store, c: Store)
    requires ListsGrow(env, a, b) && ListsGrow(env, b, c)
    ensures ListsGrow(env, a, c)
  {
    forall d ensures IsPrefix(EventsOf(env, a, d), EventsOf(env, c, d)) {
      PrefixTransitive(EventsOf(env, a, d), EventsOf(env, b, d), EventsOf(env, c, d));
    }
  }

  lemma TailStays(env: Env, st: Store, st': Store, d: Id, tail: Option<Event>)
    requires ListsGrow(env, st, st') && TailOk(env, st, d, tail)
    ensures TailOk(env, st', d, tail)
  {
    var es, es' := EventsOf(env, st, d), EventsOf(env, st', d);
    var k :| 0 <= k <= |es| && tail == LastOf(es[..k]);
    assert IsPrefix(es, es');
    assert es'[..k] == es[..k];
  }

  lemma TrailStays(env: Env, st: Store, st': Store, d: Snapshot)
    requires ListsGrow(env, st, st') && TrailOk(env, st, d)
    ensures TrailOk(env, st', d)
  {
    TrailGrows(EventsOf(env, st, d.id), EventsOf(env, st', d.id), Trail(d.state));
  }

  /** Whatever the others append, the evidence behind a call stays. */
  lemma BackingStays(env: Env, st: Store, st': Store, call: Call)
    requires ListsGrow(env, st, st') && Backed(env, st, call)
    ensures Backed(env, st', call)
  {
    if !call.BookAwb? && !call.BookDelivery? && !call.RecordStart? {
      TrailStays(env, st, st', call.d);
    }
    match call {
      case RecordSealing(d, e, tail) => TailStays(env, st, st', d.id, tail);
      case RecordAppended(d, kind) =>
        if RequiresPhoto(kind) && RequiresGPS(kind) {
          TrailGrows(EventsOf(env, st, d.id), EventsOf(env, st', d.id), Trail(d.state) + [kind]);
        }
      case _ =>
    }
  }

  // -------------------------------------------------------------------- appends

  /** An accepted append of an event sealed to some tail, current or not, puts it
      at the end of its list and nowhere else; in the table the tail was current. */
  lemma AppendSealed(env: Env, st: Store, e: Event, tail: Option<Event>, id: Id)
    requires Trusted(env, st) && LedgerOk(env, st)
    requires TailOk(env, st, e.deliveryID, tail) && FreshEvent(st, id)
    requires Seal(env, e, tail, id).Some?
    requires Append(env, st, Seal(env, e, tail, id).value).Some?
    ensures var f := Seal(env, e, tail, id).value;
      var st' := Append(env, st, f).value;
      && LedgerOk(env, st') && ListsGrow(env, st, st')
      && (st.Postgres? ==> tail == LastOf(EventsOf(env, st, e.deliveryID)))
      && EventsOf(env, st', e.deliveryID) == EventsOf(env, st, e.deliveryID) + [Kept(env, st, f)]
      && forall o :: o != e.deliveryID ==> EventsOf(env, st', o) == EventsOf(env, st, o)
  {
    var f := Seal(env, e, tail, id).value;
    var st' := Append(env, st, f).value;
    var es := EventsOf(env, st, e.deliveryID);
    if st.Postgres? {
      var k :| 0 <= k <= |es| && tail == LastOf(es[..k]);
      StaleWriter(env, st, e, id, k);
      assert es[..|es|] == es;
    } else {
      AppendExtends(env, st, f);
    }
    forall o | o != e.deliveryID ensures EventsOf(env, st', o) == EventsOf(env, st, o) {}
    OneListGrows(env, st, st', e.deliveryID, Kept(env, st, f));
  }

  lemma OneListGrows(env: Env, st: Store, st': Store, d: Id, f: Event)
    requires st.Postgres? <==> st'.Postgres?
    requires EventsOf(env, st', d) == EventsOf(env, st, d) + [f]
    requires forall o :: o != d ==> EventsOf(env, st', o) == EventsOf(env, st, o)
    requires st.Postgres? ==> forall o :: Numbered(EventsOf(env, st, o))
    requires st.Postgres? ==> f.sequenceNum == |EventsOf(env, st, d)|
    ensures ListsGrow(env, st, st')
    ensures st'.Postgres? ==> forall o :: Numbered(EventsOf(env, st', o))
  {
    forall o ensures IsPrefix(EventsOf(env, st, o), EventsOf(env, st', o)) {
      assert o != d ==> EventsOf(env, st', o) == EventsOf(env, st, o);
    }
    forall o | st.Postgres? ensures Numbered(EventsOf(env, st', o)) {
      assert Numbered(EventsOf(env, st, o));
      assert o != d ==> EventsOf(env, st', o) == EventsOf(env, st, o);
    }
  }

  /** After the append the call may complete the trail of the next state. */
  lemma AppendedBacked(env: Env, st: Store, d: Snapshot, e: Event, tail: Option<Event>, id: Id)
    requires Trusted(env, st) && LedgerOk(env, st) && e.deliveryID == d.id && Validate(e).None?
    requires Backed(env, st, RecordSealing(d, e, tail)) && FreshEvent(st, id)
    requires Seal(env, e, tail, id).Some?
    requires Append(env, st, Seal(env, e, tail, id).value).Some?
    ensures Backed(env, Append(env, st, Seal(env, e, tail, id).value).value, RecordAppended(d, e.kind))
  {
    AppendSealed(env, st, e, tail, id);
    var g := Kept(env, st, Seal(env, e, tail, id).value);
    if RequiresPhoto(e.kind) && RequiresGPS(e.kind) {
      KeptAttests(env, st, e, tail, id);
    }
    TrailSnoc(EventsOf(env, st, d.id), g, Trail(d.state), e.kind);
  }

  /** The evidence demanded of a valid event is still there when it is read back. */
  lemma KeptAttests(env: Env, st: Store, e: Event, tail: Option<Event>, id: Id)
    requires Validate(e).None? && Seal(env, e, tail, id).Some?
    requires RequiresPhoto(e.kind) && RequiresGPS(e.kind)
    ensures Attests(Kept(env, st, Seal(env, e, tail, id).value), e.kind)
  {}

  // ------------------------------------------------------------------- accesses

  ghost predicate AccessBacked(env: Env, w: World, call: Call, x: Chance) {
    var (w', r) := Access(env, w, call, x);
    && LedgerOk(env, w'.store) && ListsGrow(env, w.store, w'.store) && StoredTrails(env, w')
    && (r.Some? ==> Backed(env, w'.store, r.value))
  }

  lemma SaveBacked(env: Env, w: World, d: Snapshot)
    requires StoredTrails(env, w) && TrailOk(env, w.store, d)
    ensures StoredTrails(env, w.(deliveries := w.deliveries.Save(d)))
  {}

  /** The accesses that leave the custody store alone. */
  lemma QuietAccess(env: Env, w: World, call: Call, x: Chance)
    requires WorldOk(w) && CallOk(w, call)
    requires LedgerOk(env, w.store) && StoredTrails(env, w) && Backed(env, w.store, call)
    requires !call.RecordSealing? && !call.RecordCopied? && !call.RecordAppended?
    ensures AccessBacked(env, w, call, x)
  {
    var (w', r) := Access(env, w, call, x);
    assert w'.store == w.store;
    match call {
      case BookDelivery(d) => SaveBacked(env, w, d);
      case SaveCopy(d, _) => SaveBacked(env, w, d);
      case SaveThenRecord(d, _, _) => SaveBacked(env, w, d);
      case DispatchRouting(d, a) => ShippedBacked(env, w, d, a, x);
      case _ =>
    }
  }

  lemma ShippedBacked(env: Env, w: World, d: Snapshot, a: Awb, x: Chance)
    requires CallOk(w, DispatchRouting(d, a))
    ensures var (w', r) := Access(env, w, DispatchRouting(d, a), x);
      && w'.store == w.store && w'.deliveries == w.deliveries
      && (r.Some? ==> r.value.SaveCopy? && r.value.d.id == d.id && r.value.d.state == Assigned)
  {}

  lemma TailBacked(env: Env, w: World, d: Snapshot, e: Event, x: Chance)
    requires CallOk(w, RecordCopied(d, e))
    requires LedgerOk(env, w.store) && StoredTrails(env, w) && Backed(env, w.store, RecordCopied(d, e))
    ensures AccessBacked(env, w, RecordCopied(d, e), x)
  {
    CurrentTail(env, w.store, d.id);
    if Validate(e).None? {
      var tail := LastByDelivery(env, w.store, d.id).value;
      assert Access(env, w, RecordCopied(d, e), x) == (w, Some(RecordSealing(d, e, tail)));
    }
  }

  lemma CurrentTail(env: Env, st: Store, d: Id)
    requires Readable(env, st)
    ensures LastByDelivery(env, st, d) == Some(LastOf(EventsOf(env, st, d)))
    ensures TailOk(env, st, d, LastOf(EventsOf(env, st, d)))
  {
    LastIsLastOfList(env, st, d);
    var es := EventsOf(env, st, d);
    assert es[..|es|] == es;
  }

  lemma TransitionBacked(env: Env, w: World, d: Snapshot, kind: EventType, x: Chance)
    requires LedgerOk(env, w.store) && StoredTrails(env, w) && Backed(env, w.store, RecordAppended(d, kind))
    ensures AccessBacked(env, w, RecordAppended(d, kind), x)
  {
    if ApplyDeliveryTransition(d, kind, w.clock).Some? {
      TransitionCompletesTrail(EventsOf(env, w.store, d.id), d, kind, w.clock);
    }
  }

  lemma AppendBacked(env: Env, w: World, d: Snapshot, e: Event, tail: Option<Event>, x: Chance)
    requires Trusted(env, w.store) && CallOk(w, RecordSealing(d, e, tail))
    requires LedgerOk(env, w.store) && StoredTrails(env, w) && Backed(env, w.store, RecordSealing(d, e, tail))
    ensures AccessBacked(env, w, RecordSealing(d, e, tail), x)
  {
    var (w', r) := Access(env, w, RecordSealing(d, e, tail), x);
    AppendShape(env, w, d, e, tail, x);
    if w'.store != w.store || r == Some(RecordAppended(d, e.kind)) {
      AppendSealed(env, w.store, e, tail, x.eventID);
      AppendedBacked(env, w.store, d, e, tail, x.eventID);
      TrailsStay(env, w, w'.store);
    }
  }

  lemma TrailsStay(env: Env, w: World, st': Store)
    requires ListsGrow(env, w.store, st') && StoredTrails(env, w)
    ensures StoredTrails(env, w.(store := st'))
  {
    forall k | k in w.deliveries.byID ensures TrailOk(env, st', w.deliveries.byID[k]) {
      TrailStays(env, w.store, st', w.deliveries.byID[k]);
    }
  }

  lemma AccessEvidence(env: Env, w: World, call: Call, x: Chance)
    requires Trusted(env, w.store) && WorldOk(w) && CallOk(w, call)
    requires LedgerOk(env, w.store) && StoredTrails(env, w) && Backed(env, w.store, call)
    ensures AccessBacked(env, w, call, x)
  {
    match call {
      case RecordSealing(d, e, tail) => AppendBacked(env, w, d, e, tail, x);
      case RecordCopied(d, e) => TailBacked(env, w, d, e, x);
      case RecordAppended(d, kind) => TransitionBacked(env, w, d, kind, x);
      case _ => QuietAccess(env, w, call, x);
    }
  }

  lemma WebhookCopyBacked(env: Env, st: Store, d: Snapshot, ev: CarrierEvent)
    requires TrailOk(env, st, d)
    ensures WebhookCopy(d, ev).Some? ==> TrailOk(env, st, WebhookCopy(d, ev).value)
  {
    WebhookCopyShape(d, ev);
  }

  /** The copy a webhook saves is in the state it was read in, or in one that calls
      for no evidence. */
  lemma WebhookCopyShape(d: Snapshot, ev: CarrierEvent)
    ensures var c := WebhookCopy(d, ev);
      c.Some? ==> c.value.id == d.id && (c.value.state == d.state || Trail(c.value.state) == [])
  {}

  lemma BeginBacked(env: Env, w: World, step: Step)
    requires WorldOk(w) && StoredTrails(env, w) && Begin(w, step).Some?
    ensures Backed(env, w.store, Begin(w, step).value)
  {
    match step {
      case StartDispatch(_, id) => assert TrailOk(env, w.store, w.deliveries.byID[id]);
      case StartWebhook(_, _, _, ev, target) => WebhookCopyBacked(env, w.store, w.deliveries.byID[target], ev);
      case _ =>
    }
  }

  lemma OthersBacked(env: Env, s: System, w': World, c: nat, call: Option<Call>)
    requires EvidenceOk(env, s)
    requires LedgerOk(env, w'.store) && ListsGrow(env, s.w.store, w'.store) && StoredTrails(env, w')
    requires call.Some? ==> Backed(env, w'.store, call.value)
    ensures EvidenceOk(env, System(w', SetCall(s.calls, c, call)))
  {
    forall o | o in SetCall(s.calls, c, call) ensures Backed(env, w'.store, SetCall(s.calls, c, call)[o]) {
      if o != c || call.None? {
        BackingStays(env, s.w.store, w'.store, s.calls[o]);
      }
    }
  }

  /** Every step of every service keeps the evidence behind every copy, and the
      lists only grow. */
  lemma NextEvidence(env: Env, s: System, step: Step)
    requires Trusted(env, s.w.store) && SystemOk(s) && EvidenceOk(env, s)
    ensures EvidenceOk(env, Next(env, s, step))
    ensures ListsGrow(env, s.w.store, Next(env, s, step).w.store)
  {
    match step {
      case Die(c) => OthersBacked(env, s, s.w, c, None);
      case Advance(c, chance) =>
        if c in s.calls {
          var (w', r) := Proceed(env, s.w, s.calls[c], chance);
          TimePasses(s.w, chance.elapsed);
          CallStays(s.w, Later(s.w, chance.elapsed), s.calls[c]);
          AccessEvidence(env, Later(s.w, chance.elapsed), s.calls[c], chance);
          OthersBacked(env, s, w', c, r);
        }
      case _ =>
        if step.c !in s.calls {
          if Begin(s.w, step).Some? {
            BeginBacked(env, s.w, step);
          }
          OthersBacked(env, s, s.w, step.c, Begin(s.w, step));
        }
    }
  }

  lemma {:induction false} ExecEvidence(env: Env, s: System, steps: seq<Step>)
    requires Trusted(env, s.w.store) && SystemOk(s) && EvidenceOk(env, s)
    ensures EvidenceOk(env, Exec(env, s, steps))
    ensures ListsGrow(env, s.w.store, Exec(env, s, steps).w.store)
  {
    if steps != [] {
      var rest := steps[..|steps| - 1];
      ExecEvidence(env, s, rest);
      ExecOk(env, s, rest);
      NextEvidence(env, Exec(env, s, rest), steps[|steps| - 1]);
      ListsGrowTransitive(env, s.w.store, Exec(env, s, rest).w.store, Exec(env, s, steps).w.store);
    }
  }

  // --------------------------------------------------------------------- chains

  /** An accepted append for the delivery. */
  ghost predicate Appends(env: Env, s: System, step: Step, d: Id) {
    && step.Advance? && step.c in s.calls && s.calls[step.c].RecordSealing?
    && s.calls[step.c].e.deliveryID == d
    && Next(env, s, step).w.store != s.w.store
  }

  /** An accepted append to the table of an event with a negative zero in it: the
      row does not hold what was hashed. */
  ghost predicate Loses(env: Env, s: System, step: Step, d: Id) {
    && Appends(env, s, step, d) && s.w.store.Postgres?
    && !NoNegativeZero(s.calls[step.c].e.location, s.calls[step.c].e.PhotoList())
  }

  /** An accepted append of an event sealed to a tail that was the tail no more. */
  ghost predicate AppendsStale(env: Env, s: System, step: Step, d: Id) {
    Appends(env, s, step, d) && s.calls[step.c].tail != LastOf(EventsOf(env, s.w.store, d))
  }

  /** The lost event hashes like the one that is read back for it. */
  ghost predicate LossCollides(env: Env, s: System, step: Step, d: Id)
    requires Loses(env, s, step, d)
  {
    var call := s.calls[step.c];
    var sealed := Seal(env, call.e, call.tail, step.chance.eventID);
    sealed.Some? && StoredCollision(env, sealed.value)
  }

  /** An accepted append keeps its list a chain if its tail was current and nothing
      is lost on the way to a row, and only then, collisions aside. */
  lemma AppendToChain(env: Env, st: Store, e: Event, tail: Option<Event>, id: Id, st': Store)
    requires TrustedHashes(env, st) && LedgerOk(env, st) && e.metadata == []
    requires TailOk(env, st, e.deliveryID, tail) && FreshEvent(st, id)
    requires Seal(env, e, tail, id).Some?
    requires Append(env, st, Seal(env, e, tail, id).value) == Some(st')
    ensures var f := Seal(env, e, tail, id).value;
      var es, es' := EventsOf(env, st, e.deliveryID), EventsOf(env, st', e.deliveryID);
      && (ChainOk(env, es) && tail == LastOf(es) && KeepsHash(env, st, e) ==> ChainOk(env, es'))
      && (ChainOk(env, es') ==> tail == LastOf(es) && (KeepsHash(env, st, e) || StoredCollision(env, f)))
  {
    AppendSealed(env, st, e, tail, id);
    var es := EventsOf(env, st, e.deliveryID);
    var es' := es + [Kept(env, st, Seal(env, e, tail, id).value)];
    assert es[..|es|] == es && es'[..|es|] == es;
    if ChainOk(env, es') {
      ChainPrefix(env, es', |es|);
      var k :| 0 <= k <= |es| && tail == LastOf(es[..k]);
      StaleWriterChain(env, st, e, id, k);
    } else if ChainOk(env, es) && tail == LastOf(es) {
      StaleWriterChain(env, st, e, id, |es|);
    }
  }

  lemma QuietStore(env: Env, w: World, call: Call, x: Chance)
    requires !call.RecordSealing?
    ensures Access(env, w, call, x).0.store == w.store
  {}

  lemma AppendedStore(env: Env, w: World, d: Snapshot, e: Event, tail: Option<Event>, x: Chance)
    requires Access(env, w, RecordSealing(d, e, tail), x).0.store != w.store
    ensures FreshEvent(w.store, x.eventID) && Seal(env, e, tail, x.eventID).Some?
    ensures Append(env, w.store, Seal(env, e, tail, x.eventID).value)
         == Some(Access(env, w, RecordSealing(d, e, tail), x).0.store)
  {}

  /** The store of the next state: unchanged but for an accepted append. */
  lemma NextStore(env: Env, s: System, step: Step) returns (appends: bool)
    ensures !appends ==> Next(env, s, step).w.store == s.w.store
    ensures appends ==>
      && step.Advance? && step.c in s.calls && s.calls[step.c].RecordSealing?
      && var call, id := s.calls[step.c], step.chance.eventID;
         && Next(env, s, step).w.store != s.w.store
         && FreshEvent(s.w.store, id) && Seal(env, call.e, call.tail, id).Some?
         && Append(env, s.w.store, Seal(env, call.e, call.tail, id).value) == Some(Next(env, s, step).w.store)
  {
    appends := Next(env, s, step).w.store != s.w.store;
    if appends {
      var v, call := Later(s.w, step.chance.elapsed), s.calls[step.c];
      if !call.RecordSealing? {
        QuietStore(env, v, call, step.chance);
      } else {
        AppendedStore(env, v, call.d, call.e, call.tail, step.chance);
      }
    }
  }

  /** A list that is a chain stays one, unless an append for its delivery was sealed
      to an outdated tail or loses something; then it verifies no more, collisions
      aside in the second case. */
  lemma NextChain(env: Env, s: System, step: Step, d: Id)
    requires TrustedHashes(env, s.w.store) && SystemOk(s) && EvidenceOk(env, s)
    ensures var es, es' := EventsOf(env, s.w.store, d), EventsOf(env, Next(env, s, step).w.store, d);
      && (ChainOk(env, es) && !AppendsStale(env, s, step, d) && !Loses(env, s, step, d) ==> ChainOk(env, es'))
      && (AppendsStale(env, s, step, d) ==> !ChainOk(env, es'))
      && (Loses(env, s, step, d) && ChainOk(env, es') ==> LossCollides(env, s, step, d))
  {
    var st, st' := s.w.store, Next(env, s, step).w.store;
    if st' != st {
      var e, tail, id := NextAppend(env, s, step);
      if e.deliveryID == d {
        AppendToChain(env, st, e, tail, id, st');
      } else {
        OtherListStays(env, st, e, tail, id, st', d);
      }
    }
  }

  /** What a step that changes the store appended: an event sealed to a tail of its
      list, under an unused id. */
  lemma NextAppend(env: Env, s: System, step: Step) returns (e: Event, tail: Option<Event>, id: Id)
    requires SystemOk(s) && EvidenceOk(env, s) && Next(env, s, step).w.store != s.w.store
    ensures step.Advance? && step.c in s.calls && s.calls[step.c].RecordSealing?
    ensures e == s.calls[step.c].e && tail == s.calls[step.c].tail && id == step.chance.eventID
    ensures e.metadata == [] && TailOk(env, s.w.store, e.deliveryID, tail)
    ensures FreshEvent(s.w.store, id) && Seal(env, e, tail, id).Some?
    ensures Append(env, s.w.store, Seal(env, e, tail, id).value) == Some(Next(env, s, step).w.store)
  {
    var appends := NextStore(env, s, step);
    var call := s.calls[step.c];
    assert CallOk(s.w, call) && Backed(env, s.w.store, call);
    e, tail, id := call.e, call.tail, step.chance.eventID;
  }

  lemma OtherListStays(env: Env, st: Store, e: Event, tail: Option<Event>, id: Id, st': Store, d: Id)
    requires Trusted(env, st) && LedgerOk(env, st) && d != e.deliveryID
    requires TailOk(env, st, e.deliveryID, tail) && FreshEvent(st, id)
    requires Seal(env, e, tail, id).Some?
    requires Append(env, st, Seal(env, e, tail, id).value) == Some(st')
    ensures EventsOf(env, st', d) == EventsOf(env, st, d)
  {
    AppendSealed(env, st, e, tail, id);
  }

  /** The table takes no stale append. */
  lemma TableIsNeverStale(env: Env, s: System, step: Step, d: Id)
    requires LawfulColumns(env) && s.w.store.Postgres? && SystemOk(s) && EvidenceOk(env, s)
    ensures !AppendsStale(env, s, step, d)
  {
    if Next(env, s, step).w.store != s.w.store {
      var e, tail, id := NextAppend(env, s, step);
      AppendSealed(env, s.w.store, e, tail, id);
    }
  }

  // -------------------------------------------------------------- clean inputs

  /** What a caller can check: the input has no coordinate that is a negative zero. */
  predicate CleanInput(x: RecordInput) {
    NoNegativeZero(x.location, if x.photos.Some? then x.photos.value else [])
  }

  predicate CleanStep(step: Step) {
    match step
    case StartRecord(_, x) => CleanInput(x)
    case StartWebhook(_, carrierID, _, ev, target) =>
      var record := WebhookRecord(target, carrierID, ev);
      record.Some? ==> CleanInput(record.value)
    case _ => true
  }

  predicate CleanCall(call: Call) {
    match call
    case SaveThenRecord(_, _, x) => CleanInput(x)
    case RecordStart(x) => CleanInput(x)
    case RecordCopied(_, e) => NoNegativeZero(e.location, e.PhotoList())
    case RecordSealing(_, e, _) => NoNegativeZero(e.location, e.PhotoList())
    case _ => true
  }

  ghost predicate CleanCalls(s: System) {
    forall c :: c in s.calls ==> CleanCall(s.calls[c])
  }

  lemma AccessClean(env: Env, w: World, call: Call, x: Chance)
    requires CleanCall(call)
    ensures Access(env, w, call, x).1.Some? ==> CleanCall(Access(env, w, call, x).1.value)
  {}

  lemma BeginClean(w: World, step: Step)
    requires w.deliveries.Keyed() && CleanStep(step) && Begin(w, step).Some?
    ensures CleanCall(Begin(w, step).value)
  {}

  lemma NextClean(env: Env, s: System, step: Step)
    requires SystemOk(s) && CleanCalls(s) && CleanStep(step)
    ensures CleanCalls(Next(env, s, step))
  {
    match step {
      case Die(c) =>
      case Advance(c, x) =>
        if c in s.calls {
          AccessClean(env, Later(s.w, x.elapsed), s.calls[c], x);
        }
      case _ =>
        if step.c !in s.calls && Begin(s.w, step).Some? {
          BeginClean(s.w, step);
        }
    }
  }

  lemma {:induction false} ExecClean(env: Env, s: System, steps: seq<Step>)
    requires SystemOk(s) && CleanCalls(s) && forall i :: 0 <= i < |steps| ==> CleanStep(steps[i])
    ensures CleanCalls(Exec(env, s, steps))
  {
    if steps != [] {
      var rest := steps[..|steps| - 1];
      ExecClean(env, s, rest);
      ExecOk(env, s, rest);
      NextClean(env, Exec(env, s, rest), steps[|steps| - 1]);
    }
  }
}
