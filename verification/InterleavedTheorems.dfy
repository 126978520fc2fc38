/** The theorems about every run of the interleaved system. */
module InterleavedTheorems {
  import opened Common
  import opened Events
  import opened Encoding
  import opened HashChain
  import opened TamperEvidence
  import opened CustodyStore
  import opened Recording
  import opened StateGraph
  import opened Deliveries
  import opened Operations
  import opened Interleaving
  import opened InterleavedSafety
  import opened InterleavedEvidence

  /** A state some run leads to. */
  ghost predicate Reached(env: Env, s: System, start: System, steps: seq<Step>) {
    IsInitial(start) && s == Exec(env, start, steps)
  }

  lemma InitialOk(env: Env, s: System)
    requires IsInitial(s)
    ensures SystemOk(s) && EvidenceOk(env, s) && CleanCalls(s)
    ensures forall d :: EventsOf(env, s.w.store, d) == []
  {
    forall d ensures ListByDelivery(env, s.w.store, d) == Some([]) {}
  }

  lemma ReachedOk(env: Env, s: System, start: System, steps: seq<Step>)
    requires Reached(env, s, start, steps)
    ensures SystemOk(s)
  {
    InitialOk(env, start);
    ExecOk(env, start, steps);
  }

  lemma ReachedEvidence(env: Env, s: System, start: System, steps: seq<Step>)
    requires Trusted(env, start.w.store) && Reached(env, s, start, steps)
    ensures EvidenceOk(env, s) && (s.w.store.Postgres? <==> start.w.store.Postgres?)
  {
    InitialOk(env, start);
    ExecEvidence(env, start, steps);
  }

  /** A copy of a delivery, in the store or in the hands of a call. */
  ghost predicate IsCopy(s: System, d: Snapshot) {
    || (exists k :: k in s.w.deliveries.byID && s.w.deliveries.byID[k] == d)
    || (exists c :: c in s.calls && !s.calls[c].RecordStart? && s.calls[c].d == d)
  }

  // -------------------------------------------------------------------- ledger

  /** With any number of concurrent writers the table always holds, for every
      delivery, a readable list numbered 0, 1, 2 and so on. */
  lemma TableIsAlwaysNumbered(env: Env, s: System, start: System, steps: seq<Step>, d: Id)
    requires LawfulColumns(env) && Reached(env, s, start, steps) && start.w.store.Postgres?
    ensures ListByDelivery(env, s.w.store, d).Some?
    ensures var es := EventsOf(env, s.w.store, d);
      forall i :: 0 <= i < |es| ==> es[i].sequenceNum == i && es[i].deliveryID == d
  {
    ReachedEvidence(env, s, start, steps);
    var es := EventsOf(env, s.w.store, d);
    assert Numbered(es);
    forall i | 0 <= i < |es| ensures es[i].deliveryID == d {
      assert es[i] in es;
    }
  }

  /** Whether the step spoils the list: sealed to an outdated tail, or losing a sign. */
  ghost predicate Spoils(env: Env, s: System, step: Step, d: Id) {
    AppendsStale(env, s, step, d) || Loses(env, s, step, d)
  }

  lemma {:induction false} ExecChain(env: Env, start: System, steps: seq<Step>, d: Id)
    requires TrustedHashes(env, start.w.store) && IsInitial(start)
    requires forall n :: 0 <= n < |steps| ==> !Spoils(env, Exec(env, start, steps[..n]), steps[n], d)
    ensures ChainOk(env, EventsOf(env, Exec(env, start, steps).w.store, d))
  {
    InitialOk(env, start);
    if steps != [] {
      var m := |steps| - 1;
      var rest := steps[..m];
      forall n | 0 <= n < m ensures !Spoils(env, Exec(env, start, rest[..n]), rest[n], d) {
        assert rest[..n] == steps[..n];
      }
      ExecChain(env, start, rest, d);
      ReachedOk(env, Exec(env, start, rest), start, rest);
      ReachedEvidence(env, Exec(env, start, rest), start, rest);
      assert !Spoils(env, Exec(env, start, steps[..m]), steps[m], d);
      NextChain(env, Exec(env, start, rest), steps[m], d);
    }
  }

  lemma ExecAt(env: Env, start: System, steps: seq<Step>, n: nat)
    requires n < |steps|
    ensures Exec(env, start, steps[..n + 1]) == Next(env, Exec(env, start, steps[..n]), steps[n])
  {
    assert steps[..n + 1][..n] == steps[..n];
  }

  lemma {:induction false} ListsGrowBetween(env: Env, start: System, steps: seq<Step>, n: nat)
    requires Trusted(env, start.w.store) && IsInitial(start) && n <= |steps|
    ensures ListsGrow(env, Exec(env, start, steps[..n]).w.store, Exec(env, start, steps).w.store)
    decreases |steps|
  {
    if n == |steps| {
      assert steps[..n] == steps;
    } else {
      var rest := steps[..|steps| - 1];
      assert rest[..n] == steps[..n];
      ListsGrowBetween(env, start, rest, n);
      ReachedOk(env, Exec(env, start, rest), start, rest);
      ReachedEvidence(env, Exec(env, start, rest), start, rest);
      NextEvidence(env, Exec(env, start, rest), steps[|steps| - 1]);
      ListsGrowTransitive(env, Exec(env, start, steps[..n]).w.store, Exec(env, start, rest).w.store,
                          Exec(env, start, steps).w.store);
    }
  }

  /** Custody lists only grow at their end: what was listed once is a prefix of
      what is listed later, in both stores and under any interleaving; so what
      `Verify` once rejected it rejects forever. */
  lemma ListsOnlyGrow(env: Env, start: System, steps: seq<Step>, n: nat, d: Id)
    requires Trusted(env, start.w.store) && IsInitial(start) && n <= |steps|
    ensures var es := EventsOf(env, Exec(env, start, steps[..n]).w.store, d);
      var es' := EventsOf(env, Exec(env, start, steps).w.store, d);
      IsPrefix(es, es') && (Verify(env, es').Intact? ==> Verify(env, es).Intact?)
  {
    ListsGrowBetween(env, start, steps, n);
    var es := EventsOf(env, Exec(env, start, steps[..n]).w.store, d);
    var es' := EventsOf(env, Exec(env, start, steps).w.store, d);
    assert IsPrefix(es, es');
    if Verify(env, es').Intact? {
      PrefixVerifies(env, es', |es|);
    }
  }

  /** The exact condition under which a list verifies, in either store and whatever
      was interleaved: no accepted append for it was sealed to an outdated tail or
      lost a sign; a lost sign is forgiven only by a hash collision of the lost event
      with what is read back for it. */
  lemma ListVerifiesIff(env: Env, start: System, steps: seq<Step>, d: Id)
    requires TrustedHashes(env, start.w.store) && IsInitial(start)
    ensures var es := EventsOf(env, Exec(env, start, steps).w.store, d);
      && ((forall n :: 0 <= n < |steps| ==> !Spoils(env, Exec(env, start, steps[..n]), steps[n], d))
            ==> Verify(env, es).Intact?)
      && (Verify(env, es).Intact? ==>
            forall n :: 0 <= n < |steps| && Spoils(env, Exec(env, start, steps[..n]), steps[n], d) ==>
              && !AppendsStale(env, Exec(env, start, steps[..n]), steps[n], d)
              && LossCollides(env, Exec(env, start, steps[..n]), steps[n], d))
  {
    var es := EventsOf(env, Exec(env, start, steps).w.store, d);
    VerifyAcceptsChains(env, es);
    if forall n :: 0 <= n < |steps| ==> !Spoils(env, Exec(env, start, steps[..n]), steps[n], d) {
      ExecChain(env, start, steps, d);
    }
    if Verify(env, es).Intact? {
      forall n | 0 <= n < |steps| && Spoils(env, Exec(env, start, steps[..n]), steps[n], d)
        ensures !AppendsStale(env, Exec(env, start, steps[..n]), steps[n], d)
        ensures LossCollides(env, Exec(env, start, steps[..n]), steps[n], d)
      {
        SpoiledShows(env, start, steps, n, d);
      }
    }
  }

  lemma SpoiledShows(env: Env, start: System, steps: seq<Step>, n: nat, d: Id)
    requires TrustedHashes(env, start.w.store) && IsInitial(start) && n < |steps|
    requires Spoils(env, Exec(env, start, steps[..n]), steps[n], d)
    requires Verify(env, EventsOf(env, Exec(env, start, steps).w.store, d)).Intact?
    ensures !AppendsStale(env, Exec(env, start, steps[..n]), steps[n], d)
    ensures LossCollides(env, Exec(env, start, steps[..n]), steps[n], d)
  {
    var s := Exec(env, start, steps[..n]);
    ListsOnlyGrow(env, start, steps, n + 1, d);
    ExecAt(env, start, steps, n);
    VerifyAcceptsChains(env, EventsOf(env, Next(env, s, steps[n]).w.store, d));
    ReachedOk(env, s, start, steps[..n]);
    ReachedEvidence(env, s, start, steps[..n]);
    NextChain(env, s, steps[n], d);
  }

  /** In the table no append is ever stale: its lists verify exactly if no accepted
      append lost a sign, collisions aside. */
  lemma TableVerifiesIff(env: Env, start: System, steps: seq<Step>, d: Id)
    requires Lawful(env) && IsInitial(start) && start.w.store.Postgres?
    ensures var es := EventsOf(env, Exec(env, start, steps).w.store, d);
      && ((forall n :: 0 <= n < |steps| ==> !Loses(env, Exec(env, start, steps[..n]), steps[n], d))
            ==> Verify(env, es).Intact?)
      && (Verify(env, es).Intact? ==>
            forall n :: 0 <= n < |steps| && Loses(env, Exec(env, start, steps[..n]), steps[n], d) ==>
              LossCollides(env, Exec(env, start, steps[..n]), steps[n], d))
  {
    ListVerifiesIff(env, start, steps, d);
    forall n | 0 <= n < |steps| ensures !AppendsStale(env, Exec(env, start, steps[..n]), steps[n], d) {
      ReachedOk(env, Exec(env, start, steps[..n]), start, steps[..n]);
      ReachedEvidence(env, Exec(env, start, steps[..n]), start, steps[..n]);
      TableIsNeverStale(env, Exec(env, start, steps[..n]), steps[n], d);
    }
  }

  /** In memory no append loses anything: its lists verify exactly if no accepted
      append was sealed to an outdated tail. */
  lemma MemoryVerifiesIff(env: Env, start: System, steps: seq<Step>, d: Id)
    requires IsInitial(start) && start.w.store.Memory?
    ensures Verify(env, EventsOf(env, Exec(env, start, steps).w.store, d)).Intact? <==>
      forall n :: 0 <= n < |steps| ==> !AppendsStale(env, Exec(env, start, steps[..n]), steps[n], d)
  {
    ListVerifiesIff(env, start, steps, d);
    forall n | 0 <= n < |steps| ensures !Loses(env, Exec(env, start, steps[..n]), steps[n], d) {
      ReachedEvidence(env, Exec(env, start, steps[..n]), start, steps[..n]);
    }
    forall n | 0 <= n < |steps| && Spoils(env, Exec(env, start, steps[..n]), steps[n], d)
      ensures AppendsStale(env, Exec(env, start, steps[..n]), steps[n], d)
    {}
  }

  /** In particular it always verifies when no input has a negative zero. */
  lemma TableAlwaysVerifies(env: Env, start: System, steps: seq<Step>, d: Id)
    requires Lawful(env) && IsInitial(start) && start.w.store.Postgres?
    requires forall i :: 0 <= i < |steps| ==> CleanStep(steps[i])
    ensures Verify(env, EventsOf(env, Exec(env, start, steps).w.store, d)).Intact?
  {
    InitialOk(env, start);
    forall n | 0 <= n < |steps| ensures !Loses(env, Exec(env, start, steps[..n]), steps[n], d) {
      ExecClean(env, start, steps[..n]);
    }
    TableVerifiesIff(env, start, steps, d);
  }

  /** A writer whose tail is no longer the tail of the table can only fail: its
      append ends the call and changes nothing. */
  lemma StaleWriterCanOnlyFail(env: Env, s: System, start: System, steps: seq<Step>,
                               c: nat, d: Snapshot, e: Event, tail: Option<Event>, x: Chance)
    requires LawfulColumns(env) && Reached(env, s, start, steps) && start.w.store.Postgres?
    requires c in s.calls && s.calls[c] == RecordSealing(d, e, tail) && FreshEvent(s.w.store, x.eventID)
    requires tail != LastOf(EventsOf(env, s.w.store, d.id))
    ensures Next(env, s, Advance(c, x)) == System(Later(s.w, x.elapsed), s.calls - {c})
  {
    ReachedOk(env, s, start, steps);
    ReachedEvidence(env, s, start, steps);
    assert CallOk(s.w, s.calls[c]) && Backed(env, s.w.store, s.calls[c]);
    StaleAppend(env, s.w.store, e, tail, x.eventID);
    RefusedAppend(env, Later(s.w, x.elapsed), d, e, tail, x);
  }

  lemma StaleAppend(env: Env, st: Store, e: Event, tail: Option<Event>, id: Id)
    requires Trusted(env, st) && st.Postgres? && LedgerOk(env, st) && FreshEvent(st, id)
    requires TailOk(env, st, e.deliveryID, tail) && tail != LastOf(EventsOf(env, st, e.deliveryID))
    ensures Seal(env, e, tail, id).Some? ==> Append(env, st, Seal(env, e, tail, id).value).None?
  {
    if Seal(env, e, tail, id).Some? && Append(env, st, Seal(env, e, tail, id).value).Some? {
      AppendSealed(env, st, e, tail, id);
    }
  }

  lemma RefusedAppend(env: Env, w: World, d: Snapshot, e: Event, tail: Option<Event>, x: Chance)
    requires FreshEvent(w.store, x.eventID)
    requires Seal(env, e, tail, x.eventID).Some? ==> Append(env, w.store, Seal(env, e, tail, x.eventID).value).None?
    ensures Access(env, w, RecordSealing(d, e, tail), x) == (w, None)
  {}

  // ------------------------------------------------------------------ evidence

  /** Positions of attested arrival, pickup and hand-over events, in this order. */
  ghost predicate ArrivedAt(es: seq<Event>, i: int) {
    0 <= i < |es| && Attests(es[i], RiderArrivedAtLocker)
  }

  ghost predicate PickedUpAt(es: seq<Event>, i: int, j: int) {
    ArrivedAt(es, i) && i < j < |es| && Attests(es[j], PackagePickedUp)
  }

  ghost predicate DeliveredAt(es: seq<Event>, i: int, j: int, k: int) {
    PickedUpAt(es, i, j) && j < k < |es| && Attests(es[k], PackageDelivered)
  }

  /** The evidence a state calls for, as positions in a list. */
  ghost predicate EvidenceFor(es: seq<Event>, state: State) {
    && (state == EnRoutePickup ==> exists i :: ArrivedAt(es, i))
    && (state in {PickedUp, InTransit, EnRouteDrop} ==> exists i, j :: PickedUpAt(es, i, j))
    && (state == Delivered ==> exists i, j, k :: DeliveredAt(es, i, j, k))
  }

  /** No interleaving moves a delivery, stored or in flight, past a checkpoint
      without its evidence: a delivered one has in its ledger, in this order, an
      arrival at the locker, a pickup and a delivery, each with a photo and a
      location; the earlier states have the matching beginnings. */
  lemma EvidenceBehindEveryState(env: Env, s: System, start: System, steps: seq<Step>, d: Snapshot)
    requires Trusted(env, start.w.store) && Reached(env, s, start, steps) && IsCopy(s, d)
    ensures EvidenceFor(EventsOf(env, s.w.store, d.id), d.state)
  {
    ReachedOk(env, s, start, steps);
    ReachedEvidence(env, s, start, steps);
    CopyHasTrail(env, s, d);
    TrailEvidence(EventsOf(env, s.w.store, d.id), d.state);
  }

  /** A trail, spelled out as positions. */
  lemma TrailEvidence(es: seq<Event>, state: State)
    requires HasTrail(es, Trail(state))
    ensures EvidenceFor(es, state)
  {
    var at := TrailPositions(es, Trail(state));
    if state == EnRoutePickup {
      assert ArrivedAt(es, at[0]);
    } else if state in {PickedUp, InTransit, EnRouteDrop} {
      assert PickedUpAt(es, at[0], at[1]);
    } else if state == Delivered {
      assert DeliveredAt(es, at[0], at[1], at[2]);
    }
  }

  lemma CopyHasTrail(env: Env, s: System, d: Snapshot)
    requires SystemOk(s) && EvidenceOk(env, s) && IsCopy(s, d)
    ensures TrailOk(env, s.w.store, d)
  {
    if k :| k in s.w.deliveries.byID && s.w.deliveries.byID[k] == d {
      assert TrailOk(env, s.w.store, s.w.deliveries.byID[k]);
    } else {
      var c :| c in s.calls && !s.calls[c].RecordStart? && s.calls[c].d == d;
      assert CallOk(s.w, s.calls[c]) && Backed(env, s.w.store, s.calls[c]);
    }
  }

  // --------------------------------------------------------------------- times

  lemma ActualTimesAreConsistent(env: Env, s: System, start: System, steps: seq<Step>, d: Snapshot)
    requires Reached(env, s, start, steps) && IsCopy(s, d)
    ensures TimesOk(s.w, d)
  {
    ReachedOk(env, s, start, steps);
    if k :| k in s.w.deliveries.byID && s.w.deliveries.byID[k] == d {
      assert CopyFacts(s.w, s.w.deliveries.byID[k]);
    } else {
      var c :| c in s.calls && !s.calls[c].RecordStart? && s.calls[c].d == d;
      HeldTimes(s.w, s.calls[c]);
    }
  }

  lemma HeldTimes(w: World, call: Call)
    requires CallOk(w, call) && !call.RecordStart?
    ensures TimesOk(w, call.d)
  {}

  // -------------------------------------------------------------------- stores

  /** At every moment, also between the two saves of a booking: the delivery index
      is exact, the two AWB maps agree, and every stored delivery's AWB exists. */
  lemma StoresAlwaysCoherent(env: Env, s: System, start: System, steps: seq<Step>)
    requires Reached(env, s, start, steps)
    ensures s.w.deliveries.Coherent() && s.w.awbs.Coherent()
    ensures forall k :: k in s.w.deliveries.byID ==> s.w.deliveries.byID[k].awbID in s.w.awbs.byID
  {
    ReachedOk(env, s, start, steps);
    forall k | k in s.w.deliveries.byID ensures s.w.deliveries.byID[k].awbID in s.w.awbs.byID {
      assert CopyFacts(s.w, s.w.deliveries.byID[k]);
    }
  }

  // ----------------------------------------------------------------- shipments

  /** However many dispatches race, all shipments created for a delivery carry the
      same idempotency key, and different deliveries never share one. */
  lemma OneKeyPerDelivery(env: Env, s: System, start: System, steps: seq<Step>, i: nat, j: nat)
    requires Reached(env, s, start, steps) && i < |s.w.shipments| && j < |s.w.shipments|
    ensures s.w.shipments[i].idempotencyKey == s.w.shipments[j].idempotencyKey
       <==> s.w.shipments[i].deliveryID == s.w.shipments[j].deliveryID
  {
    ReachedOk(env, s, start, steps);
    assert s.w.shipments[i] in s.w.shipments && s.w.shipments[j] in s.w.shipments;
  }

  /** A webhook never finds a pending delivery: a delivery gets its external id no
      earlier than it leaves `pending`. The rider-assigned handler's step from
      pending to assigned is never taken. */
  lemma WebhookNeverFindsPending(env: Env, s: System, start: System, steps: seq<Step>, k: Id,
                                 carrierID: string, externalID: string)
    requires Reached(env, s, start, steps) && k in s.w.deliveries.byID
    requires s.w.deliveries.byID[k].carrierID == carrierID
    requires s.w.deliveries.byID[k].carrierExternalID == externalID != ""
    ensures s.w.deliveries.byID[k].state != Pending
  {
    ReachedOk(env, s, start, steps);
    assert CopyFacts(s.w, s.w.deliveries.byID[k]);
  }

  // -------------------------------------------------------------- lost updates

  /** The save of this step, if it is one, overwrites the state its copy was read
      with: nobody changed the state in between. */
  ghost predicate SavesWhatItRead(s: System, step: Step) {
    step.Advance? && step.c in s.calls && (s.calls[step.c].SaveCopy? || s.calls[step.c].SaveThenRecord?) ==>
      var call := s.calls[step.c];
      call.d.id in s.w.deliveries.byID ==> s.w.deliveries.byID[call.d.id].state == call.read
  }

  lemma AccessFollowsGraph(env: Env, w: World, call: Call, x: Chance, k: Id)
    requires k in w.deliveries.byID
    requires call.SaveCopy? || call.SaveThenRecord? ==>
      OneEdge(call.read, call.d.state) &&
      (call.d.id in w.deliveries.byID ==> w.deliveries.byID[call.d.id].state == call.read)
    ensures k in Access(env, w, call, x).0.deliveries.byID
    ensures OneEdge(w.deliveries.byID[k].state, Access(env, w, call, x).0.deliveries.byID[k].state)
  {}

  lemma HeldSave(env: Env, s: System, c: nat)
    requires SystemOk(s) && c in s.calls
    ensures s.calls[c].SaveCopy? || s.calls[c].SaveThenRecord? ==> OneEdge(s.calls[c].read, s.calls[c].d.state)
  {
    assert CallOk(s.w, s.calls[c]);
  }

  /** Only the accesses of a call change the world. */
  lemma StepWorld(env: Env, s: System, step: Step)
    ensures Next(env, s, step).w ==
      if step.Advance? && step.c in s.calls then Proceed(env, s.w, s.calls[step.c], step.chance).0 else s.w
  {}

  /** A step whose save, if any, is not stale moves every stored state along an
      edge of the graph or not at all. */
  lemma FreshStepFollowsGraph(env: Env, s: System, step: Step, k: Id)
    requires SystemOk(s) && SavesWhatItRead(s, step) && k in s.w.deliveries.byID
    ensures k in Next(env, s, step).w.deliveries.byID
    ensures OneEdge(s.w.deliveries.byID[k].state, Next(env, s, step).w.deliveries.byID[k].state)
  {
    StepWorld(env, s, step);
    if step.Advance? && step.c in s.calls {
      HeldSave(env, s, step.c);
      AccessFollowsGraph(env, Later(s.w, step.chance.elapsed), s.calls[step.c], step.chance, k);
    }
  }

  ghost predicate NoStaleSave(env: Env, s: System, steps: seq<Step>) {
    forall n :: 0 <= n < |steps| ==> SavesWhatItRead(Exec(env, s, steps[..n]), steps[n])
  }

  /** Without stale saves a terminal state is final under any interleaving. */
  lemma {:induction false} TerminalIsFinalWithoutStaleSaves(env: Env, s: System, steps: seq<Step>, k: Id)
    requires SystemOk(s) && NoStaleSave(env, s, steps)
    requires k in s.w.deliveries.byID && IsTerminal(s.w.deliveries.byID[k].state)
    ensures k in Exec(env, s, steps).w.deliveries.byID
    ensures Exec(env, s, steps).w.deliveries.byID[k].state == s.w.deliveries.byID[k].state
  {
    if steps != [] {
      var rest := steps[..|steps| - 1];
      forall n | 0 <= n < |rest| ensures SavesWhatItRead(Exec(env, s, rest[..n]), rest[n]) {
        assert rest[..n] == steps[..n];
        assert SavesWhatItRead(Exec(env, s, steps[..n]), steps[n]);
      }
      TerminalIsFinalWithoutStaleSaves(env, s, rest, k);
      ExecOk(env, s, rest);
      assert SavesWhatItRead(Exec(env, s, steps[..|steps| - 1]), steps[|steps| - 1]);
      FreshStepFollowsGraph(env, Exec(env, s, rest), steps[|steps| - 1], k);
      GraphShape(s.w.deliveries.byID[k].state);
    }
  }
}
