/** Where listed events come from, under any interleaving: every one was given by the
    step that began its call, word for word, at a time between that step and now. */
module Provenance {
  import opened Common
  import opened Events
  import opened Encoding
  import opened HashChain
  import opened RowCodec
  import opened CustodyStore
  import opened Recording
  import opened Operations
  import opened Interleaving
  import opened InterleavedSafety
  import opened InterleavedEvidence
  import opened InterleavedTheorems
  import opened Effects

  /** The step that began a call and the time it did. */
  datatype Origin = Origin(step: Step, time: int)

  predicate Begins(s: System, step: Step, c: nat) {
    !step.Advance? && !step.Die? && step.c == c && c !in s.calls
  }

  /** The last step of a run that began a call under this number. */
  function OriginOf(env: Env, start: System, steps: seq<Step>, c: nat): Option<Origin> {
    if steps == [] then None
    else
      var rest := steps[..|steps| - 1];
      var s := Exec(env, start, rest);
      if Begins(s, steps[|steps| - 1], c) then Some(Origin(steps[|steps| - 1], s.w.clock))
      else OriginOf(env, start, rest, c)
  }

  /** The event has what the step handed to the custody service: a record's input or
      a carrier's report. */
  predicate Gives(step: Step, table: bool, e: Event, at: int) {
    match step
    case StartRecord(_, x) => HoldsInput(table, e, x, at)
    case StartWebhook(_, carrierID, _, ev, target) => Reports(table, e, target, carrierID, ev, at)
    case _ => false
  }

  /** What a call that began there holds of it. */
  ghost predicate HoldsGiven(clock: int, call: Call, o: Origin) {
    && o.time <= clock
    && match call
       case SaveThenRecord(_, _, x) => forall at :: Gives(o.step, false, ToEvent(x, at), at)
       case RecordStart(x) => forall at :: Gives(o.step, false, ToEvent(x, at), at)
       case RecordCopied(_, e) => o.time <= e.occurredAt <= clock && Gives(o.step, false, e, e.occurredAt)
       case RecordSealing(_, e, _) => o.time <= e.occurredAt <= clock && Gives(o.step, false, e, e.occurredAt)
       case _ => true
  }

  lemma BegunGives(w: World, step: Step)
    requires w.deliveries.Keyed() && Begin(w, step).Some?
    ensures HoldsGiven(w.clock, Begin(w, step).value, Origin(step, w.clock))
  {
    match step {
      case StartWebhook(_, carrierID, _, ev, target) =>
        var record := WebhookRecord(target, carrierID, ev);
        if record.Some? {
          forall at ensures Gives(step, false, ToEvent(record.value, at), at) {
            InputReports(false, ToEvent(record.value, at), target, carrierID, ev, at);
          }
        }
      case _ =>
    }
  }

  lemma AccessGives(env: Env, w: World, call: Call, x: Chance, o: Origin)
    requires HoldsGiven(w.clock, call, o)
    ensures var (w', r) := Access(env, w, call, x);
      w'.clock == w.clock && (r.Some? ==> HoldsGiven(w.clock, r.value, o))
  {
    if call.RecordStart? {
      assert Gives(o.step, false, ToEvent(call.x, w.clock), w.clock);
    }
  }

  lemma HeldLater(clock: int, clock': int, call: Call, o: Origin)
    requires HoldsGiven(clock, call, o) && clock <= clock'
    ensures HoldsGiven(clock', call, o)
  {}

  lemma BegunCall(env: Env, s: System, step: Step, c: nat)
    requires Begins(s, step, c) && c in Next(env, s, step).calls
    ensures Next(env, s, step).w == s.w && Begin(s.w, step) == Some(Next(env, s, step).calls[c])
  {}

  lemma AdvancedCall(env: Env, s: System, step: Step, c: nat)
    requires step.Advance? && step.c == c && c in s.calls && c in Next(env, s, step).calls
    ensures Proceed(env, s.w, s.calls[c], step.chance) == (Next(env, s, step).w, Some(Next(env, s, step).calls[c]))
  {}

  lemma OtherCall(env: Env, s: System, step: Step, c: nat)
    requires c in Next(env, s, step).calls && !Begins(s, step, c) && !(step.Advance? && step.c == c)
    ensures c in s.calls && Next(env, s, step).calls[c] == s.calls[c]
  {}

  /** One step keeps it, for every call. */
  lemma NextHoldsGiven(env: Env, s: System, step: Step, c: nat, o: Option<Origin>)
    requires SystemOk(s) && c in Next(env, s, step).calls
    requires c in s.calls ==> o.Some? && HoldsGiven(s.w.clock, s.calls[c], o.value)
    ensures var o' := if Begins(s, step, c) then Some(Origin(step, s.w.clock)) else o;
      o'.Some? && HoldsGiven(Next(env, s, step).w.clock, Next(env, s, step).calls[c], o'.value)
  {
    if Begins(s, step, c) {
      BegunCall(env, s, step, c);
      BegunGives(s.w, step);
    } else if step.Advance? && step.c == c {
      AdvancedCall(env, s, step, c);
      HeldLater(s.w.clock, s.w.clock + step.chance.elapsed, s.calls[c], o.value);
      AccessGives(env, Later(s.w, step.chance.elapsed), s.calls[c], step.chance, o.value);
    } else {
      OtherCall(env, s, step, c);
      NextOk(env, s, step);
      HeldLater(s.w.clock, Next(env, s, step).w.clock, s.calls[c], o.value);
    }
  }

  /** Every call in flight holds what the step that began it gave. */
  lemma {:induction false} CallsHoldGiven(env: Env, start: System, steps: seq<Step>, c: nat)
    requires IsInitial(start) && c in Exec(env, start, steps).calls
    ensures var s, o := Exec(env, start, steps), OriginOf(env, start, steps, c);
      o.Some? && HoldsGiven(s.w.clock, s.calls[c], o.value)
  {
    if steps != [] {
      var rest, step := steps[..|steps| - 1], steps[|steps| - 1];
      var s := Exec(env, start, rest);
      ReachedOk(env, s, start, rest);
      if c in s.calls {
        CallsHoldGiven(env, start, rest, c);
      }
      NextHoldsGiven(env, s, step, c, OriginOf(env, start, rest, c));
    }
  }

  lemma SealKeepsGiven(env: Env, step: Step, st: Store, e: Event, tail: Option<Event>, id: Id, at: int)
    requires Trusted(env, st) && Gives(step, false, e, at) && Seal(env, e, tail, id).Some?
    ensures Gives(step, st.Postgres?, Kept(env, st, Seal(env, e, tail, id).value), at)
  {
    var f := Seal(env, e, tail, id).value;
    if st.Postgres? {
      match step {
        case StartRecord(_, x) => StoredHoldsInput(env, f, x, at);
        case StartWebhook(_, carrierID, _, ev, target) => StoredReports(env, f, target, carrierID, ev, at);
      }
    }
  }

  lemma StoredReports(env: Env, f: Event, target: Id, carrierID: string, ev: CarrierEvent, at: int)
    requires LawfulColumns(env) && Reports(false, f, target, carrierID, ev, at)
    ensures Reports(true, AsStored(env, f), target, carrierID, ev, at)
  {
    assert env.jsonb(EMPTY_OBJECT) == EMPTY_OBJECT;
    assert |f.PhotoList()| <= 1;
    assert UnsignedPhotos(f.PhotoList()) == f.PhotoList();
  }

  /** An accepted append puts one event at the end of its list: the id that was drawn,
      and what the step that began the call gave, stamped between then and now. */
  lemma AppendedAsGiven(env: Env, start: System, steps: seq<Step>, step: Step, d: Id)
    requires Trusted(env, start.w.store) && IsInitial(start)
    requires Appends(env, Exec(env, start, steps), step, d)
    ensures var s := Exec(env, start, steps);
      var es, es' := EventsOf(env, s.w.store, d), EventsOf(env, Next(env, s, step).w.store, d);
      var o, at := OriginOf(env, start, steps, step.c), s.calls[step.c].e.occurredAt;
      && |es'| == |es| + 1 && es'[..|es|] == es && es'[|es|].eventID == step.chance.eventID
      && o.Some? && o.value.time <= at <= s.w.clock
      && Gives(o.value.step, start.w.store.Postgres?, es'[|es|], at)
  {
    var s := Exec(env, start, steps);
    ReachedOk(env, s, start, steps);
    ReachedEvidence(env, s, start, steps);
    CallsHoldGiven(env, start, steps, step.c);
    var e, tail, id := NextAppend(env, s, step);
    AppendSealed(env, s.w.store, e, tail, id);
    SealKeepsGiven(env, OriginOf(env, start, steps, step.c).value.step, s.w.store, e, tail, id, e.occurredAt);
  }

  /** The origin of a call is a step of the run. */
  lemma {:induction false} OriginIsStep(env: Env, start: System, steps: seq<Step>, c: nat) returns (n: nat)
    requires OriginOf(env, start, steps, c).Some?
    ensures n < |steps|
    ensures OriginOf(env, start, steps, c) == Some(Origin(steps[n], Exec(env, start, steps[..n]).w.clock))
    ensures Begins(Exec(env, start, steps[..n]), steps[n], c)
  {
    var m := |steps| - 1;
    if Begins(Exec(env, start, steps[..m]), steps[m], c) {
      n := m;
    } else {
      n := OriginIsStep(env, start, steps[..m], c);
      assert steps[..m][..n] == steps[..n];
    }
  }

  /** Step n of a run began a call and gave the event, at some time since. */
  ghost predicate GivenBy(env: Env, start: System, steps: seq<Step>, n: nat, at: int, e: Event, clock: int)
    requires n < |steps|
  {
    var s := Exec(env, start, steps[..n]);
    && Begins(s, steps[n], steps[n].c) && s.w.clock <= at <= clock
    && Gives(steps[n], start.w.store.Postgres?, e, at)
  }

  lemma GivenLater(env: Env, start: System, steps: seq<Step>, m: nat, n: nat, at: int, e: Event,
                   clock: int, clock': int)
    requires n < m <= |steps| && clock <= clock'
    requires GivenBy(env, start, steps[..m], n, at, e, clock)
    ensures GivenBy(env, start, steps, n, at, e, clock')
  {
    assert steps[..m][..n] == steps[..n];
  }

  /** The event a step adds to a list was given by the step that began its call. */
  lemma NewEventGiven(env: Env, start: System, steps: seq<Step>, m: nat, d: Id, s: System, s': System, i: nat)
    returns (n: nat, at: int)
    requires Trusted(env, start.w.store) && IsInitial(start) && m < |steps|
    requires s == Exec(env, start, steps[..m]) && s' == Next(env, s, steps[m])
    requires i == |EventsOf(env, s.w.store, d)| && i < |EventsOf(env, s'.w.store, d)|
    ensures n < |steps| && GivenBy(env, start, steps, n, at, EventsOf(env, s'.w.store, d)[i], s.w.clock)
  {
    ReachedOk(env, s, start, steps[..m]);
    ReachedEvidence(env, s, start, steps[..m]);
    LongerByAppend(env, s, steps[m], d);
    AppendedAsGiven(env, start, steps[..m], steps[m], d);
    at := s.calls[steps[m].c].e.occurredAt;
    n := GivenByOrigin(env, start, steps, m, steps[m].c, at, EventsOf(env, s'.w.store, d)[i], s.w.clock);
  }

  lemma GivenByOrigin(env: Env, start: System, steps: seq<Step>, m: nat, c: nat, at: int, e: Event, clock: int)
    returns (n: nat)
    requires m < |steps| && OriginOf(env, start, steps[..m], c).Some?
    requires var o := OriginOf(env, start, steps[..m], c).value;
      o.time <= at <= clock && Gives(o.step, start.w.store.Postgres?, e, at)
    ensures n < |steps| && GivenBy(env, start, steps, n, at, e, clock)
  {
    n := OriginIsStep(env, start, steps[..m], c);
    assert steps[..m][..n] == steps[..n];
  }

  lemma NextGrows(env: Env, start: System, steps: seq<Step>, step: Step, d: Id, s: System, s': System)
    requires Trusted(env, start.w.store) && Reached(env, s, start, steps) && s' == Next(env, s, step)
    ensures IsPrefix(EventsOf(env, s.w.store, d), EventsOf(env, s'.w.store, d)) && s.w.clock <= s'.w.clock
    ensures |EventsOf(env, s'.w.store, d)| <= |EventsOf(env, s.w.store, d)| + 1
  {
    ReachedOk(env, s, start, steps);
    ReachedEvidence(env, s, start, steps);
    NextOk(env, s, step);
    NextEvidence(env, s, step);
    if EventsOf(env, s'.w.store, d) != EventsOf(env, s.w.store, d) {
      LongerByAppend(env, s, step, d);
      AppendedAsGiven(env, start, steps, step, d);
    }
  }

  /** Nothing is in any list that was not given: whatever was interleaved, every
      listed event holds the input of a record or the report of a carrier that some
      step of the run began with, stamped at a time since. */
  lemma {:induction false} EveryEventWasGiven(env: Env, start: System, steps: seq<Step>, s: System, d: Id, i: nat)
    returns (n: nat, at: int)
    requires Trusted(env, start.w.store) && Reached(env, s, start, steps) && i < |EventsOf(env, s.w.store, d)|
    ensures n < |steps| && GivenBy(env, start, steps, n, at, EventsOf(env, s.w.store, d)[i], s.w.clock)
    decreases |steps|
  {
    NonEmptyRun(env, start, steps, s, d);
    var m := |steps| - 1;
    var r := Exec(env, start, steps[..m]);
    NextGrows(env, start, steps[..m], steps[m], d, r, s);
    var es, e := EventsOf(env, r.w.store, d), EventsOf(env, s.w.store, d)[i];
    if i < |es| {
      n, at := EveryEventWasGiven(env, start, steps[..m], r, d, i);
      SameAt(es, EventsOf(env, s.w.store, d), i);
      GivenLater(env, start, steps, m, n, at, e, r.w.clock, s.w.clock);
    } else {
      n, at := NewEventGiven(env, start, steps, m, d, r, s, i);
      GivenStill(env, start, steps, n, at, e, r.w.clock, s.w.clock);
    }
  }

  lemma NonEmptyRun(env: Env, start: System, steps: seq<Step>, s: System, d: Id)
    requires Reached(env, s, start, steps) && EventsOf(env, s.w.store, d) != []
    ensures steps != []
  {
    InitialOk(env, start);
  }

  lemma GivenStill(env: Env, start: System, steps: seq<Step>, n: nat, at: int, e: Event, clock: int, clock': int)
    requires n < |steps| && clock <= clock'
    requires GivenBy(env, start, steps, n, at, e, clock)
    ensures GivenBy(env, start, steps, n, at, e, clock')
  {}

  lemma SameAt(es: seq<Event>, fs: seq<Event>, i: nat)
    requires IsPrefix(es, fs) && i < |es|
    ensures es[i] == fs[i]
  {}

  lemma LongerByAppend(env: Env, s: System, step: Step, d: Id)
    requires Trusted(env, s.w.store) && SystemOk(s) && EvidenceOk(env, s)
    requires EventsOf(env, Next(env, s, step).w.store, d) != EventsOf(env, s.w.store, d)
    ensures Appends(env, s, step, d)
  {
    var e, tail, id := NextAppend(env, s, step);
    if e.deliveryID != d {
      OtherListStays(env, s.w.store, e, tail, id, Next(env, s, step).w.store, d);
    }
  }
}
