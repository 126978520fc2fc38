/** Which attempt the evidence belongs to. Two copies of a delivery in flight may
    belong to different attempts; as long as every save is of a copy nobody has
    overtaken, the evidence of a state lies after the delivery last became assigned. */
module Attempts {
  import opened Common
  import opened Events
  import opened Encoding
  import opened HashChain
  import opened CustodyStore
  import opened Recording
  import opened StateGraph
  import opened Deliveries
  import opened Repositories
  import opened Operations
  import opened Interleaving
  import opened InterleavedSafety
  import opened InterleavedEvidence
  import opened InterleavedTheorems
  import opened StaleCopies

  predicate BecomesAssigned(t: Table, t': Table, k: Id) {
    k in t'.byID && t'.byID[k].state == Assigned && (k in t.byID ==> t.byID[k].state != Assigned)
  }

  lemma LongerSince(es: seq<Event>, es': seq<Event>, m: nat, kinds: seq<EventType>)
    requires IsPrefix(es, es') && m <= |es| && HasTrail(es[m..], kinds)
    ensures HasTrail(es'[m..], kinds)
  {
    assert es'[m..][..|es| - m] == es[m..];
    TrailGrows(es[m..], es'[m..], kinds);
  }

  lemma AttestedSince(env: Env, st: Store, e: Event, tail: Option<Event>, id: Id,
                      es: seq<Event>, m: nat, kinds: seq<EventType>)
    requires Validate(e).None? && Seal(env, e, tail, id).Some? && m <= |es| && HasTrail(es[m..], kinds)
    ensures var es' := es + [Kept(env, st, Seal(env, e, tail, id).value)];
      RequiresPhoto(e.kind) && RequiresGPS(e.kind) ==> HasTrail(es'[m..], kinds + [e.kind])
  {
    var f := Kept(env, st, Seal(env, e, tail, id).value);
    assert (es + [f])[m..] == es[m..] + [f];
    TrailSnoc(es[m..], f, kinds, e.kind);
    if RequiresPhoto(e.kind) && RequiresGPS(e.kind) {
      KeptAttests(env, st, e, tail, id);
    }
  }

  // ------------------------------------------------------------ overtaken copies

  predicate HoldsCopyOf(call: Call, k: Id) {
    !call.BookAwb? && !call.BookDelivery? && !call.RecordStart? && call.d.id == k
  }

  /** The step saves a copy of delivery k. */
  predicate Saves(s: System, step: Step, k: Id) {
    && step.Advance? && step.c in s.calls && (s.calls[step.c].SaveCopy? || s.calls[step.c].SaveThenRecord?)
    && s.calls[step.c].d.id == k
  }

  /** The step reads a delivery into its call. */
  predicate Reads(s: System, step: Step) {
    match step
    case Advance(c, _) => c in s.calls && s.calls[c].RecordStart?
    case Die(_) => false
    case _ => step.c !in s.calls
  }

  /** A save overtakes every other copy of its delivery; a call that reads afresh is
      no longer overtaken. */
  function NextOvertaken(s: System, step: Step, k: Id, overtaken: set<nat>): set<nat> {
    if Saves(s, step, k) then overtaken + (set c | c in s.calls && HoldsCopyOf(s.calls[c], k)) - {step.c}
    else if Reads(s, step) then overtaken - {step.c}
    else overtaken
  }

  /** The calls holding a copy of k that was read before k was last saved. */
  function Overtaken(env: Env, start: System, steps: seq<Step>, k: Id): set<nat> {
    if steps == [] then {}
    else
      var rest := steps[..|steps| - 1];
      NextOvertaken(Exec(env, start, rest), steps[|steps| - 1], k, Overtaken(env, start, rest, k))
  }

  /** Every save of k is of a copy read after the last save before it: what a version
      check on `Save` would enforce. */
  ghost predicate NoOvertakenSave(env: Env, start: System, steps: seq<Step>, k: Id) {
    forall n :: 0 <= n < |steps| && Saves(Exec(env, start, steps[..n]), steps[n], k) ==>
      steps[n].c !in Overtaken(env, start, steps[..n], k)
  }

  function NextMark(env: Env, s: System, step: Step, k: Id, m: nat): nat {
    if BecomesAssigned(s.w.deliveries, Next(env, s, step).w.deliveries, k) then |EventsOf(env, s.w.store, k)| else m
  }

  /** How many events k's list had when k last became assigned. */
  function LastAssigned(env: Env, start: System, steps: seq<Step>, k: Id): nat {
    if steps == [] then 0
    else
      var rest := steps[..|steps| - 1];
      NextMark(env, Exec(env, start, rest), steps[|steps| - 1], k, LastAssigned(env, start, rest, k))
  }

  // ------------------------------------------------------------------- invariant

  ghost predicate CallSince(env: Env, st: Store, call: Call, k: Id, m: nat)
    requires m <= |EventsOf(env, st, k)|
  {
    HoldsCopyOf(call, k) ==>
      && HasTrail(EventsOf(env, st, k)[m..], Trail(call.d.state))
      && (call.RecordAppended? && RequiresPhoto(call.kind) && RequiresGPS(call.kind) ==>
            HasTrail(EventsOf(env, st, k)[m..], Trail(call.d.state) + [call.kind]))
  }

  ghost predicate StoredSince(env: Env, w: World, k: Id, m: nat)
    requires m <= |EventsOf(env, w.store, k)|
  {
    k in w.deliveries.byID ==> HasTrail(EventsOf(env, w.store, k)[m..], Trail(w.deliveries.byID[k].state))
  }

  /** Since the mark the list has the evidence of the stored state, and of every copy
      that is not overtaken. */
  ghost predicate AttemptOk(env: Env, s: System, k: Id, m: nat, overtaken: set<nat>) {
    && m <= |EventsOf(env, s.w.store, k)|
    && StoredSince(env, s.w, k, m)
    && forall c :: c in s.calls && c !in overtaken ==> CallSince(env, s.w.store, s.calls[c], k, m)
  }

  lemma CallSinceGrows(env: Env, st: Store, st': Store, call: Call, k: Id, m: nat)
    requires ListsGrow(env, st, st') && m <= |EventsOf(env, st, k)| && CallSince(env, st, call, k, m)
    ensures m <= |EventsOf(env, st', k)| && CallSince(env, st', call, k, m)
  {
    var es, es' := EventsOf(env, st, k), EventsOf(env, st', k);
    assert IsPrefix(es, es');
    if HoldsCopyOf(call, k) {
      LongerSince(es, es', m, Trail(call.d.state));
      if call.RecordAppended? && RequiresPhoto(call.kind) && RequiresGPS(call.kind) {
        LongerSince(es, es', m, Trail(call.d.state) + [call.kind]);
      }
    }
  }

  lemma StoredSinceGrows(env: Env, w: World, st': Store, k: Id, m: nat)
    requires ListsGrow(env, w.store, st') && m <= |EventsOf(env, w.store, k)| && StoredSince(env, w, k, m)
    ensures m <= |EventsOf(env, st', k)| && StoredSince(env, w.(store := st'), k, m)
  {
    assert IsPrefix(EventsOf(env, w.store, k), EventsOf(env, st', k));
    if k in w.deliveries.byID {
      LongerSince(EventsOf(env, w.store, k), EventsOf(env, st', k), m, Trail(w.deliveries.byID[k].state));
    }
  }

  lemma AppendedSince(env: Env, w: World, d: Snapshot, e: Event, tail: Option<Event>, x: Chance, k: Id, m: nat)
    requires Trusted(env, w.store) && LedgerOk(env, w.store) && CallOk(w, RecordSealing(d, e, tail))
    requires Backed(env, w.store, RecordSealing(d, e, tail))
    requires m <= |EventsOf(env, w.store, k)| && CallSince(env, w.store, RecordSealing(d, e, tail), k, m)
    requires Access(env, w, RecordSealing(d, e, tail), x).0.store != w.store
    ensures var st' := Access(env, w, RecordSealing(d, e, tail), x).0.store;
      m <= |EventsOf(env, st', k)| && CallSince(env, st', RecordAppended(d, e.kind), k, m)
  {
    AppendedStore(env, w, d, e, tail, x);
    AppendSealed(env, w.store, e, tail, x.eventID);
    var st' := Access(env, w, RecordSealing(d, e, tail), x).0.store;
    var es, es' := EventsOf(env, w.store, k), EventsOf(env, st', k);
    assert IsPrefix(es, es');
    if d.id == k {
      LongerSince(es, es', m, Trail(d.state));
      AttestedSince(env, w.store, e, tail, x.eventID, es, m, Trail(d.state));
    }
  }

  lemma SealingSince(env: Env, w: World, d: Snapshot, e: Event, tail: Option<Event>, x: Chance, k: Id, m: nat)
    requires Trusted(env, w.store) && LedgerOk(env, w.store) && CallOk(w, RecordSealing(d, e, tail))
    requires Backed(env, w.store, RecordSealing(d, e, tail))
    requires m <= |EventsOf(env, w.store, k)| && CallSince(env, w.store, RecordSealing(d, e, tail), k, m)
    ensures var (w', r) := Access(env, w, RecordSealing(d, e, tail), x);
      m <= |EventsOf(env, w'.store, k)| && (r.Some? ==> CallSince(env, w'.store, r.value, k, m))
  {
    AppendShape(env, w, d, e, tail, x);
    if Access(env, w, RecordSealing(d, e, tail), x).0.store != w.store {
      AppendedSince(env, w, d, e, tail, x, k, m);
      AppendMovesOn(env, w, d, e, tail, x);
    } else {
      NoAppendNoMove(env, w, d, e, tail, x);
    }
  }

  lemma AppendMovesOn(env: Env, w: World, d: Snapshot, e: Event, tail: Option<Event>, x: Chance)
    requires Access(env, w, RecordSealing(d, e, tail), x).0.store != w.store
    ensures Access(env, w, RecordSealing(d, e, tail), x).1 == Some(RecordAppended(d, e.kind))
  {}

  lemma NoAppendNoMove(env: Env, w: World, d: Snapshot, e: Event, tail: Option<Event>, x: Chance)
    requires Trusted(env, w.store) && LedgerOk(env, w.store) && CallOk(w, RecordSealing(d, e, tail))
    requires Backed(env, w.store, RecordSealing(d, e, tail))
    requires Access(env, w, RecordSealing(d, e, tail), x).0.store == w.store
    ensures Access(env, w, RecordSealing(d, e, tail), x).1 in {None, Some(RecordSealing(d, e, tail))}
  {
    if Access(env, w, RecordSealing(d, e, tail), x).1 == Some(RecordAppended(d, e.kind)) {
      AppendSealed(env, w.store, e, tail, x.eventID);
    }
    AppendShape(env, w, d, e, tail, x);
  }

  lemma MovedSince(env: Env, w: World, d: Snapshot, kind: EventType, x: Chance, k: Id, m: nat)
    requires m <= |EventsOf(env, w.store, k)| && CallSince(env, w.store, RecordAppended(d, kind), k, m)
    ensures var r := Access(env, w, RecordAppended(d, kind), x).1;
      r.Some? ==> CallSince(env, w.store, r.value, k, m)
  {
    var moved := ApplyDeliveryTransition(d, kind, w.clock);
    if moved.Some? {
      ApplyMoves(d, kind, w.clock);
      if d.id == k {
        TransitionCompletesTrail(EventsOf(env, w.store, k)[m..], d, kind, w.clock);
      }
      SavedCopySince(env, w.store, moved.value, d.state, k, m);
    }
  }

  lemma SavedCopySince(env: Env, st: Store, d: Snapshot, read: State, k: Id, m: nat)
    requires m <= |EventsOf(env, st, k)|
    requires d.id == k ==> HasTrail(EventsOf(env, st, k)[m..], Trail(d.state))
    ensures CallSince(env, st, SaveCopy(d, read), k, m)
  {}

  lemma ShippedSince(env: Env, w: World, d: Snapshot, a: Awb, x: Chance, k: Id, m: nat)
    requires CallOk(w, DispatchRouting(d, a)) && m <= |EventsOf(env, w.store, k)|
    ensures var r := Access(env, w, DispatchRouting(d, a), x).1;
      r.Some? ==> CallSince(env, w.store, r.value, k, m)
  {
    ShippedBacked(env, w, d, a, x);
  }

  /** The next stage of a call that is not overtaken, or that reads just then. */
  lemma AccessSince(env: Env, w: World, call: Call, x: Chance, k: Id, m: nat)
    requires Trusted(env, w.store) && WorldOk(w) && CallOk(w, call)
    requires LedgerOk(env, w.store) && Backed(env, w.store, call)
    requires m <= |EventsOf(env, w.store, k)| && StoredSince(env, w, k, m) && CallSince(env, w.store, call, k, m)
    ensures var (w', r) := Access(env, w, call, x);
      m <= |EventsOf(env, w'.store, k)| && (r.Some? ==> CallSince(env, w'.store, r.value, k, m))
  {
    match call {
      case RecordSealing(d, e, tail) => SealingSince(env, w, d, e, tail, x, k, m);
      case RecordAppended(d, kind) => MovedSince(env, w, d, kind, x, k, m);
      case DispatchRouting(d, a) => ShippedSince(env, w, d, a, x, k, m);
      case RecordStart(input) => ReadSince(env, w, input, x, k, m);
      case _ => StillSince(env, w, call, x, k, m);
    }
  }

  lemma ReadSince(env: Env, w: World, input: RecordInput, x: Chance, k: Id, m: nat)
    requires WorldOk(w) && m <= |EventsOf(env, w.store, k)| && StoredSince(env, w, k, m)
    ensures var (w', r) := Access(env, w, RecordStart(input), x);
      w'.store == w.store && (r.Some? ==> CallSince(env, w.store, r.value, k, m))
  {}

  lemma StillSince(env: Env, w: World, call: Call, x: Chance, k: Id, m: nat)
    requires call.BookAwb? || call.BookDelivery? || call.DispatchCopied? || call.SaveCopy? || call.SaveThenRecord?
          || call.RecordCopied?
    requires m <= |EventsOf(env, w.store, k)| && CallSince(env, w.store, call, k, m)
    ensures var (w', r) := Access(env, w, call, x);
      w'.store == w.store && (r.Some? ==> CallSince(env, w.store, r.value, k, m))
  {}

  lemma BeginSince(env: Env, w: World, step: Step, k: Id, m: nat)
    requires WorldOk(w) && m <= |EventsOf(env, w.store, k)| && StoredSince(env, w, k, m)
    requires Begin(w, step).Some?
    ensures CallSince(env, w.store, Begin(w, step).value, k, m)
  {
    match step {
      case StartWebhook(_, _, _, ev, target) => WebhookCopyShape(w.deliveries.byID[target], ev);
      case _ =>
    }
  }

  lemma QuietDeliveries(env: Env, w: World, call: Call, x: Chance)
    requires !call.BookDelivery? && !call.SaveCopy? && !call.SaveThenRecord?
    ensures Access(env, w, call, x).0.deliveries == w.deliveries
  {}

  /** The stored delivery after an access: as before, newly booked, or saved. */
  lemma AccessStored(env: Env, w: World, call: Call, x: Chance, k: Id)
    requires WorldOk(w) && CallOk(w, call)
    ensures var t, t' := w.deliveries.byID, Access(env, w, call, x).0.deliveries.byID;
      k in t' ==>
        || (k in t && t'[k] == t[k])
        || (call.BookDelivery? && t'[k].state == Pending)
        || ((call.SaveCopy? || call.SaveThenRecord?) && call.d.id == k && t'[k] == call.d)
  {
    if !call.BookDelivery? && !call.SaveCopy? && !call.SaveThenRecord? {
      QuietDeliveries(env, w, call, x);
    }
  }

  /** What becomes of k's stored copy in a step whose save, if it is one of k, is not
      of an overtaken copy. */
  lemma NextStoredSince(env: Env, s: System, step: Step, k: Id, m: nat, overtaken: set<nat>)
    requires Trusted(env, s.w.store) && SystemOk(s) && EvidenceOk(env, s) && AttemptOk(env, s, k, m, overtaken)
    requires Saves(s, step, k) ==> step.c !in overtaken
    ensures var w' := Next(env, s, step).w;
      m <= |EventsOf(env, w'.store, k)| && StoredSince(env, w', k, m)
  {
    NextEvidence(env, s, step);
    StepWorld(env, s, step);
    StoredSinceGrows(env, s.w, Next(env, s, step).w.store, k, m);
    if step.Advance? && step.c in s.calls {
      var call, v := s.calls[step.c], Later(s.w, step.chance.elapsed);
      TimePasses(s.w, step.chance.elapsed);
      CallStays(s.w, v, call);
      AccessStored(env, v, call, step.chance, k);
      if Saves(s, step, k) {
        QuietStore(env, v, call, step.chance);
        assert CallSince(env, s.w.store, call, k, m);
      }
    }
  }

  /** Only a save of k makes k assigned. */
  lemma AssignedBySave(env: Env, s: System, step: Step, k: Id)
    requires SystemOk(s) && BecomesAssigned(s.w.deliveries, Next(env, s, step).w.deliveries, k)
    ensures Saves(s, step, k) && Next(env, s, step).w.store == s.w.store
  {
    StepWorld(env, s, step);
    if step.Advance? && step.c in s.calls {
      var call, v := s.calls[step.c], Later(s.w, step.chance.elapsed);
      TimePasses(s.w, step.chance.elapsed);
      CallStays(s.w, v, call);
      AccessStored(env, v, call, step.chance, k);
      if Saves(s, step, k) {
        QuietStore(env, v, call, step.chance);
      }
    }
  }

  /** After a save no call but those that never held the copy is left unovertaken. */
  lemma SaveLeavesNone(env: Env, s: System, step: Step, k: Id, overtaken: set<nat>, c: nat)
    requires Saves(s, step, k)
    requires c in Next(env, s, step).calls && c !in NextOvertaken(s, step, k, overtaken)
    ensures !HoldsCopyOf(Next(env, s, step).calls[c], k)
  {}

  lemma NextCallSince(env: Env, s: System, step: Step, k: Id, m: nat, overtaken: set<nat>, c: nat)
    requires Trusted(env, s.w.store) && SystemOk(s) && EvidenceOk(env, s) && AttemptOk(env, s, k, m, overtaken)
    requires !Saves(s, step, k)
    requires c in Next(env, s, step).calls && c !in NextOvertaken(s, step, k, overtaken)
    ensures var s' := Next(env, s, step);
      m <= |EventsOf(env, s'.w.store, k)| && CallSince(env, s'.w.store, s'.calls[c], k, m)
  {
    var s' := Next(env, s, step);
    NextEvidence(env, s, step);
    NextCall(env, s, step, c);
    if step.Advance? && step.c == c {
      var v := Later(s.w, step.chance.elapsed);
      TimePasses(s.w, step.chance.elapsed);
      CallStays(s.w, v, s.calls[c]);
      AccessSince(env, v, s.calls[c], step.chance, k, m);
    } else if c in s.calls && s'.calls[c] == s.calls[c] {
      CallSinceGrows(env, s.w.store, s'.w.store, s.calls[c], k, m);
    } else {
      BeginSince(env, s.w, step, k, m);
    }
  }

  lemma NextAttempt(env: Env, s: System, step: Step, k: Id, m: nat, overtaken: set<nat>)
    requires Trusted(env, s.w.store) && SystemOk(s) && EvidenceOk(env, s) && AttemptOk(env, s, k, m, overtaken)
    requires Saves(s, step, k) ==> step.c !in overtaken
    ensures AttemptOk(env, Next(env, s, step), k, NextMark(env, s, step, k, m), NextOvertaken(s, step, k, overtaken))
  {
    var s', m', o := Next(env, s, step), NextMark(env, s, step, k, m), NextOvertaken(s, step, k, overtaken);
    NextStoredSince(env, s, step, k, m, overtaken);
    if BecomesAssigned(s.w.deliveries, s'.w.deliveries, k) {
      AssignedBySave(env, s, step, k);
    }
    forall c | c in s'.calls && c !in o ensures CallSince(env, s'.w.store, s'.calls[c], k, m') {
      if Saves(s, step, k) {
        SaveLeavesNone(env, s, step, k, overtaken, c);
      } else {
        NextCallSince(env, s, step, k, m, overtaken, c);
      }
    }
  }

  lemma NoneOvertakenBefore(env: Env, start: System, steps: seq<Step>, k: Id)
    requires steps != [] && NoOvertakenSave(env, start, steps, k)
    ensures var rest, last := steps[..|steps| - 1], steps[|steps| - 1];
      && NoOvertakenSave(env, start, rest, k)
      && (Saves(Exec(env, start, rest), last, k) ==> last.c !in Overtaken(env, start, rest, k))
  {
    var m := |steps| - 1;
    var rest := steps[..m];
    assert Saves(Exec(env, start, steps[..m]), steps[m], k) ==> steps[m].c !in Overtaken(env, start, steps[..m], k);
    forall n | 0 <= n < m && Saves(Exec(env, start, rest[..n]), rest[n], k)
      ensures rest[n].c !in Overtaken(env, start, rest[..n], k)
    {
      assert rest[..n] == steps[..n];
      assert Saves(Exec(env, start, steps[..n]), steps[n], k);
    }
  }

  lemma {:induction false} ExecAttempt(env: Env, start: System, steps: seq<Step>, k: Id)
    requires Trusted(env, start.w.store) && IsInitial(start) && NoOvertakenSave(env, start, steps, k)
    ensures AttemptOk(env, Exec(env, start, steps), k, LastAssigned(env, start, steps, k),
                      Overtaken(env, start, steps, k))
  {
    InitialOk(env, start);
    if steps != [] {
      var m := |steps| - 1;
      var rest := steps[..m];
      NoneOvertakenBefore(env, start, steps, k);
      ExecAttempt(env, start, rest, k);
      ReachedOk(env, Exec(env, start, rest), start, rest);
      ReachedEvidence(env, Exec(env, start, rest), start, rest);
      NextAttempt(env, Exec(env, start, rest), steps[m], k, LastAssigned(env, start, rest, k),
                  Overtaken(env, start, rest, k));
    }
  }

  /** Whatever is interleaved, as long as no save of the delivery is of an overtaken
      copy, the evidence of its stored state lies after the last time it became
      assigned. */
  lemma EvidenceOfTheAttempt(env: Env, start: System, steps: seq<Step>, k: Id)
    requires Trusted(env, start.w.store) && IsInitial(start) && NoOvertakenSave(env, start, steps, k)
    requires k in Exec(env, start, steps).w.deliveries.byID
    ensures var s, m := Exec(env, start, steps), LastAssigned(env, start, steps, k);
      m <= |EventsOf(env, s.w.store, k)| && EvidenceFor(EventsOf(env, s.w.store, k)[m..], s.w.deliveries.byID[k].state)
  {
    ExecAttempt(env, start, steps, k);
    var s, m := Exec(env, start, steps), LastAssigned(env, start, steps, k);
    TrailEvidence(EventsOf(env, s.w.store, k)[m..], s.w.deliveries.byID[k].state);
  }

  // ------------------------------------------------- evidence that was borrowed

  /** A record up to its save, run without interruption in the in-memory store. */
  lemma HeldRecord(env: Env, s: System, c: nat, x: RecordInput, id: Id) returns (steps: seq<Step>)
    requires s.w.store.Memory? && c !in s.calls && x.deliveryID in s.w.deliveries.byID
    requires Validate(ToEvent(x, s.w.clock)).None? && FreshEvent(s.w.store, id)
    requires forall p: Payload :: env.marshal(p).Some?
    requires ApplyDeliveryTransition(s.w.deliveries.byID[x.deliveryID], x.kind, s.w.clock).Some?
    ensures var d := s.w.deliveries.byID[x.deliveryID];
      var s' := Exec(env, s, steps);
      && s' == System(s.w.(store := s'.w.store),
                      s.calls[c := SaveCopy(ApplyDeliveryTransition(d, x.kind, s.w.clock).value, d.state)])
      && s'.w.store.Memory?
      && |EventsOf(env, s'.w.store, x.deliveryID)| == |EventsOf(env, s.w.store, x.deliveryID)| + 1
      && forall o :: o != id && FreshEvent(s.w.store, o) ==> FreshEvent(s'.w.store, o)
  {
    var d, e := s.w.deliveries.byID[x.deliveryID], ToEvent(x, s.w.clock);
    var read := [StartRecord(c, x), Advance(c, AT_ONCE)];
    RecordReads(env, s, c, x);
    var s1 := Exec(env, s, read);
    var more := HeldAppend(env, s1, c, d, e, id);
    ExecConcat(env, s, read, more);
    steps := read + more;
    assert Exec(env, s, steps).calls == s.calls[c := Exec(env, s, steps).calls[c]];
  }

  lemma HeldAppend(env: Env, s: System, c: nat, d: Snapshot, e: Event, id: Id) returns (steps: seq<Step>)
    requires s.w.store.Memory? && c in s.calls && s.calls[c] == RecordCopied(d, e)
    requires Validate(e).None? && FreshEvent(s.w.store, id) && forall p: Payload :: env.marshal(p).Some?
    requires ApplyDeliveryTransition(d, e.kind, s.w.clock).Some?
    ensures var s' := Exec(env, s, steps);
      && s' == System(s.w.(store := s'.w.store),
                      s.calls[c := SaveCopy(ApplyDeliveryTransition(d, e.kind, s.w.clock).value, d.state)])
      && s'.w.store.Memory?
      && |EventsOf(env, s'.w.store, e.deliveryID)| == |EventsOf(env, s.w.store, e.deliveryID)| + 1
      && forall o :: o != id && FreshEvent(s.w.store, o) ==> FreshEvent(s'.w.store, o)
  {
    var tail := LastOf(EventsOf(env, s.w.store, e.deliveryID));
    TailNext(env, s, c, d, e, tail);
    var s1 := System(s.w, s.calls[c := RecordSealing(d, e, tail)]);
    var f := Seal(env, e, tail, id).value;
    MemoryTakes(env, s.w.store, f);
    var st := Longer(s.w.store, f);
    AppendNext(env, s1, c, d, e, tail, id, st);
    var s2 := System(s.w.(store := st), s1.calls[c := RecordAppended(d, e.kind)]);
    MovedNext(env, s2, c, d, e.kind);
    var none: seq<Step> := [];
    ExecCons(env, s2, Advance(c, AT_ONCE), none);
    ExecCons(env, s1, Advance(c, Drawing(id)), [Advance(c, AT_ONCE)] + none);
    ExecCons(env, s, Advance(c, AT_ONCE), [Advance(c, Drawing(id))] + ([Advance(c, AT_ONCE)] + none));
    steps := [Advance(c, AT_ONCE)] + ([Advance(c, Drawing(id))] + ([Advance(c, AT_ONCE)] + none));
    SameButOne(s.calls, c, RecordSealing(d, e, tail), RecordAppended(d, e.kind),
               SaveCopy(ApplyDeliveryTransition(d, e.kind, s.w.clock).value, d.state));
  }

  lemma SameButOne(calls: map<nat, Call>, c: nat, first: Call, second: Call, last: Call)
    ensures calls[c := first][c := second][c := last] == calls[c := last]
  {}

  lemma MovedNext(env: Env, s: System, c: nat, d: Snapshot, kind: EventType)
    requires c in s.calls && s.calls[c] == RecordAppended(d, kind)
    requires ApplyDeliveryTransition(d, kind, s.w.clock).Some?
    ensures Next(env, s, Advance(c, AT_ONCE))
         == System(s.w, s.calls[c := SaveCopy(ApplyDeliveryTransition(d, kind, s.w.clock).value, d.state)])
  {
    assert Later(s.w, 0) == s.w;
  }

  /** The inputs of the run below. */
  function Arrived(k: Id): RecordInput {
    CustodyInput(k, RiderArrivedAtLocker, "bolt_food", None, "", "")
  }

  function GaveUp(k: Id): RecordInput {
    CustodyInput(k, DeliveryFailed, "bolt_food", None, "", "")
  }

  function Reassigned(k: Id): RecordInput {
    RiderInput(k, "bolt_food", Rider("rider", "", "", ""))
  }

  /** The last step saves a copy that was read in the very state that is stored again,
      and yet the new state has no evidence since the delivery became assigned. */
  ghost predicate Borrows(env: Env, start: System, steps: seq<Step>, last: Step, k: Id) {
    var s, s' := Exec(env, start, steps), Exec(env, start, steps + [last]);
    var m := LastAssigned(env, start, steps + [last], k);
    && Saves(s, last, k) && SavesWhatItRead(s, last)
    && k in s'.w.deliveries.byID
    && m <= |EventsOf(env, s'.w.store, k)|
    && !EvidenceFor(EventsOf(env, s'.w.store, k)[m..], s'.w.deliveries.byID[k].state)
  }

  /** A complete record, leaving the other calls as they were. */
  lemma WholeRecord(env: Env, s: System, c: nat, x: RecordInput, id: Id) returns (steps: seq<Step>)
    requires s.w.store.Memory? && c !in s.calls && x.deliveryID in s.w.deliveries.byID && s.w.deliveries.Keyed()
    requires Validate(ToEvent(x, s.w.clock)).None? && FreshEvent(s.w.store, id)
    requires forall p: Payload :: env.marshal(p).Some?
    requires ApplyDeliveryTransition(s.w.deliveries.byID[x.deliveryID], x.kind, s.w.clock).Some?
    ensures var d := s.w.deliveries.byID[x.deliveryID];
      var s' := Exec(env, s, steps);
      && s'.calls == s.calls && s'.w.store.Memory? && s'.w.clock == s.w.clock
      && StoredIn(s', d.id, ApplyDeliveryTransition(d, x.kind, s.w.clock).value.state)
      && s'.w.deliveries.byID[d.id].id == d.id && s'.w.deliveries.Keyed()
      && |EventsOf(env, s'.w.store, x.deliveryID)| == |EventsOf(env, s.w.store, x.deliveryID)| + 1
      && forall o :: o != id && FreshEvent(s.w.store, o) ==> FreshEvent(s'.w.store, o)
  {
    var d := s.w.deliveries.byID[x.deliveryID];
    var held := HeldRecord(env, s, c, x, id);
    var s1 := Exec(env, s, held);
    SavedFrom(env, s1, c);
    ExecSnoc(env, s, held, Advance(c, AT_ONCE));
    steps := held + [Advance(c, AT_ONCE)];
    assert s1.calls - {c} == s.calls;
    ApplyMoves(d, x.kind, s.w.clock);
  }

  /** In an assigned delivery: an arrival is recorded but not yet saved; the attempt
      fails and the delivery is assigned again; then the arrival is saved. */
  lemma BorrowedFrom(env: Env, start: System, ran: seq<Step>, k: Id, id0: Id, id1: Id, id2: Id)
    requires IsInitial(start) && start.w.store.Memory? && forall p: Payload :: env.marshal(p).Some?
    requires k != NIL_ID && start.w.clock != ZERO_TIME && id0 != id1 && id1 != id2 && id0 != id2
    requires var s := Exec(env, start, ran);
      && s.calls == map[] && s.w.store == start.w.store && s.w.clock == start.w.clock
      && StoredIn(s, k, Assigned)
    ensures exists steps, last :: Borrows(env, start, steps, last, k)
  {
    var s := Exec(env, start, ran);
    ReachedOk(env, s, start, ran);
    assert s.w.deliveries.byID[k].id == k;
    WebhookEvidenceAlwaysValid(k, "bolt_food", OnRiderArrivedAtPickup(None, ""), s.w.clock);
    var arrive := HeldRecord(env, s, 1, Arrived(k), id0);
    var s1 := Exec(env, s, arrive);
    var rest := FailAndReassign(env, s1, k, id1, id2);
    ExecConcat(env, s, arrive, rest);
    ExecConcat(env, start, ran, arrive + rest);
    BorrowedLast(env, start, ran + (arrive + rest), k);
  }

  /** While call 1 holds its copy: the attempt fails, and the next one is about to be
      saved. */
  lemma FailAndReassign(env: Env, s: System, k: Id, id1: Id, id2: Id) returns (steps: seq<Step>)
    requires s.w.store.Memory? && s.w.deliveries.Keyed() && 0 !in s.calls && 1 in s.calls
    requires StoredIn(s, k, Assigned) && k != NIL_ID && s.w.clock != ZERO_TIME
    requires forall p: Payload :: env.marshal(p).Some?
    requires FreshEvent(s.w.store, id1) && FreshEvent(s.w.store, id2) && id1 != id2
    ensures var s' := Exec(env, s, steps);
      && StoredIn(s', k, Failed) && 1 in s'.calls && s'.calls[1] == s.calls[1]
      && 0 in s'.calls && s'.calls[0].SaveCopy? && s'.calls[0].d.id == k && s'.calls[0].d.state == Assigned
  {
    WebhookEvidenceAlwaysValid(k, "bolt_food", OnDeliveryFailed(None, "", ""), s.w.clock);
    var fail := WholeRecord(env, s, 0, GaveUp(k), id1);
    var again := HeldRecord(env, Exec(env, s, fail), 0, Reassigned(k), id2);
    ExecConcat(env, s, fail, again);
    steps := fail + again;
  }

  /** The two saves at the end: the assignment, then the arrival. */
  lemma BorrowedLast(env: Env, start: System, steps: seq<Step>, k: Id)
    requires var s := Exec(env, start, steps);
      && StoredIn(s, k, Failed)
      && 0 in s.calls && s.calls[0].SaveCopy? && s.calls[0].d.id == k && s.calls[0].d.state == Assigned
      && 1 in s.calls && s.calls[1].SaveCopy? && s.calls[1].d.id == k && s.calls[1].d.state == EnRoutePickup
      && s.calls[1].read == Assigned
    ensures exists steps, last :: Borrows(env, start, steps, last, k)
  {
    var s := Exec(env, start, steps);
    var first, last := Advance(0, AT_ONCE), Advance(1, AT_ONCE);
    SavedFrom(env, s, 0);
    ExecSnoc(env, start, steps, first);
    var s1 := Exec(env, start, steps + [first]);
    SavedFrom(env, s1, 1);
    ExecSnoc(env, start, steps + [first], last);
    MarkAt(env, start, steps, first, k);
    MarkAt(env, start, steps + [first], last, k);
    var m := |EventsOf(env, s.w.store, k)|;
    assert EventsOf(env, s.w.store, k)[m..] == [];
    assert Borrows(env, start, steps + [first], last, k);
  }

  lemma MarkAt(env: Env, start: System, steps: seq<Step>, step: Step, k: Id)
    ensures LastAssigned(env, start, steps + [step], k)
         == NextMark(env, Exec(env, start, steps), step, k, LastAssigned(env, start, steps, k))
  {
    assert (steps + [step])[..|steps|] == steps;
  }

  /** So the state a copy was read in is no substitute for a version: a run from an
      empty system whose last save finds the state it read, one attempt later. */
  lemma StaleSaveBorrowsEvidence(env: Env, start: System, booked: seq<Step>, k: Id, id0: Id, id1: Id, id2: Id)
    requires JustBooked(start, Exec(env, start, booked), k) && start.w.store.Memory?
    requires forall p: Payload :: env.marshal(p).Some?
    requires k != NIL_ID && start.w.clock != ZERO_TIME && id0 != id1 && id1 != id2 && id0 != id2
    ensures exists steps, last :: Borrows(env, start, steps, last, k)
  {
    var s := Exec(env, start, booked);
    ReachedOk(env, s, start, booked);
    var dispatch := DispatchedFrom(env, s, 0, k);
    ExecConcat(env, start, booked, dispatch);
    BorrowedFrom(env, start, booked + dispatch, k, id0, id1, id2);
  }
}
