/** Every AWB has one delivery: what `ListByAWB` lists, in every reachable state. */
module SoleLegs {
  import opened Common
  import opened Encoding
  import opened Repositories
  import opened Operations
  import opened Interleaving
  import opened InterleavedSafety
  import opened InterleavedTheorems

  ghost predicate StoredApart(s: System) {
    forall j, k ::
      (j in s.w.deliveries.byID && k in s.w.deliveries.byID
       && s.w.deliveries.byID[j].awbID == s.w.deliveries.byID[k].awbID) ==> j == k
  }

  ghost predicate BookingsNew(s: System) {
    forall c, k :: c in s.calls && s.calls[c].BookDelivery? && k in s.w.deliveries.byID ==>
      s.calls[c].d.awbID != s.w.deliveries.byID[k].awbID
  }

  ghost predicate BookingsApart(s: System) {
    forall b, c ::
      (b in s.calls && c in s.calls && s.calls[b].BookDelivery? && s.calls[c].BookDelivery?
       && s.calls[b].d.awbID == s.calls[c].d.awbID) ==> b == c
  }

  /** No AWB has two deliveries, stored or about to be. */
  ghost predicate OneLegEach(s: System) {
    StoredApart(s) && BookingsNew(s) && BookingsApart(s)
  }

  /** An access leaves every stored delivery under its AWB; only a booking's second
      save adds one, and its call is then over. */
  lemma AccessLegs(env: Env, w: World, call: Call, x: Chance, k: Id)
    requires CallOk(w, call) && w.deliveries.Keyed() && k in Access(env, w, call, x).0.deliveries.byID
    ensures var (w', r) := Access(env, w, call, x);
      || (k in w.deliveries.byID && w'.deliveries.byID[k].awbID == w.deliveries.byID[k].awbID)
      || (k !in w.deliveries.byID && call.BookDelivery? && k == call.d.id
          && w'.deliveries.byID[k].awbID == call.d.awbID && r.None?)
  {}

  /** A second save is prepared by a first one that found its AWB's id unused. */
  lemma AccessBooks(env: Env, w: World, call: Call, x: Chance)
    requires CallOk(w, call)
    ensures var r := Access(env, w, call, x).1;
      r.Some? && r.value.BookDelivery? ==>
        r.value == call || (call.BookAwb? && r.value.d.awbID !in w.awbs.byID)
  {}

  /** Where a stored delivery of the next state comes from. */
  lemma NextLeg(env: Env, s: System, step: Step, k: Id)
    requires SystemOk(s) && k in Next(env, s, step).w.deliveries.byID
    ensures var d := Next(env, s, step).w.deliveries.byID[k];
      || (k in s.w.deliveries.byID && d.awbID == s.w.deliveries.byID[k].awbID)
      || (k !in s.w.deliveries.byID && step.Advance? && step.c in s.calls && s.calls[step.c].BookDelivery?
          && k == s.calls[step.c].d.id && d.awbID == s.calls[step.c].d.awbID
          && step.c !in Next(env, s, step).calls)
  {
    StepWorld(env, s, step);
    if step.Advance? && step.c in s.calls {
      var v := Later(s.w, step.chance.elapsed);
      CallStays(s.w, v, s.calls[step.c]);
      AccessLegs(env, v, s.calls[step.c], step.chance, k);
    }
  }

  /** Where a booking about to make its second save comes from. */
  lemma NextBooking(env: Env, s: System, step: Step, c: nat)
    requires SystemOk(s) && c in Next(env, s, step).calls && Next(env, s, step).calls[c].BookDelivery?
    ensures var call := Next(env, s, step).calls[c];
      || (c in s.calls && call == s.calls[c])
      || (step.Advance? && step.c == c && c in s.calls && s.calls[c].BookAwb? && call.d.awbID !in s.w.awbs.byID)
  {
    NextCall(env, s, step, c);
    if step.Advance? && step.c == c && c in s.calls {
      var v := Later(s.w, step.chance.elapsed);
      CallStays(s.w, v, s.calls[c]);
      AccessBooks(env, v, s.calls[c], step.chance);
    }
  }

  lemma StoredAwb(s: System, k: Id)
    requires SystemOk(s) && k in s.w.deliveries.byID
    ensures s.w.deliveries.byID[k].awbID in s.w.awbs.byID
  {
    assert CopyFacts(s.w, s.w.deliveries.byID[k]);
  }

  lemma BookedAwb(s: System, c: nat)
    requires SystemOk(s) && c in s.calls && s.calls[c].BookDelivery?
    ensures s.calls[c].d.awbID in s.w.awbs.byID
  {
    assert CallOk(s.w, s.calls[c]);
  }

  lemma NextLegs(env: Env, s: System, step: Step, j: Id, k: Id)
    requires SystemOk(s) && OneLegEach(s)
    requires var t := Next(env, s, step).w.deliveries.byID;
      j in t && k in t && t[j].awbID == t[k].awbID
    ensures j == k
  {
    NextLeg(env, s, step, j);
    NextLeg(env, s, step, k);
  }

  lemma NextBookingAlone(env: Env, s: System, step: Step, c: nat, k: Id)
    requires SystemOk(s) && OneLegEach(s)
    requires var s' := Next(env, s, step);
      c in s'.calls && s'.calls[c].BookDelivery? && k in s'.w.deliveries.byID
    ensures Next(env, s, step).calls[c].d.awbID != Next(env, s, step).w.deliveries.byID[k].awbID
  {
    NextLeg(env, s, step, k);
    NextBooking(env, s, step, c);
    if k in s.w.deliveries.byID {
      StoredAwb(s, k);
    }
  }

  lemma NextBookings(env: Env, s: System, step: Step, b: nat, c: nat)
    requires SystemOk(s) && OneLegEach(s)
    requires var calls := Next(env, s, step).calls;
      && b in calls && c in calls && calls[b].BookDelivery? && calls[c].BookDelivery?
      && calls[b].d.awbID == calls[c].d.awbID
    ensures b == c
  {
    NextBooking(env, s, step, b);
    NextBooking(env, s, step, c);
    if b in s.calls && s.calls[b].BookDelivery? {
      BookedAwb(s, b);
    }
    if c in s.calls && s.calls[c].BookDelivery? {
      BookedAwb(s, c);
    }
  }

  lemma NextStoredApart(env: Env, s: System, step: Step)
    requires SystemOk(s) && OneLegEach(s)
    ensures StoredApart(Next(env, s, step))
  {
    var t := Next(env, s, step).w.deliveries.byID;
    forall j, k | j in t && k in t && t[j].awbID == t[k].awbID ensures j == k {
      NextLegs(env, s, step, j, k);
    }
  }

  lemma NextBookingsNew(env: Env, s: System, step: Step)
    requires SystemOk(s) && OneLegEach(s)
    ensures BookingsNew(Next(env, s, step))
  {
    var s' := Next(env, s, step);
    forall c, k | c in s'.calls && s'.calls[c].BookDelivery? && k in s'.w.deliveries.byID
      ensures s'.calls[c].d.awbID != s'.w.deliveries.byID[k].awbID
    {
      NextBookingAlone(env, s, step, c, k);
    }
  }

  lemma NextOneLeg(env: Env, s: System, step: Step)
    requires SystemOk(s) && OneLegEach(s)
    ensures OneLegEach(Next(env, s, step))
  {
    NextStoredApart(env, s, step);
    NextBookingsNew(env, s, step);
    var calls := Next(env, s, step).calls;
    forall b, c | b in calls && c in calls && calls[b].BookDelivery? && calls[c].BookDelivery?
      && calls[b].d.awbID == calls[c].d.awbID ensures b == c
    {
      NextBookings(env, s, step, b, c);
    }
  }

  lemma {:induction false} ExecOneLeg(env: Env, s: System, steps: seq<Step>)
    requires SystemOk(s) && OneLegEach(s)
    ensures OneLegEach(Exec(env, s, steps))
  {
    if steps != [] {
      ExecOneLeg(env, s, steps[..|steps| - 1]);
      ExecOk(env, s, steps[..|steps| - 1]);
      NextOneLeg(env, Exec(env, s, steps[..|steps| - 1]), steps[|steps| - 1]);
    }
  }

  /** In every reachable state `ListByAWB` gives the delivery of that AWB, if it is
      stored, and nothing else. */
  lemma ListByAWBIsTheOneLeg(env: Env, s: System, start: System, steps: seq<Step>, k: Id)
    requires Reached(env, s, start, steps) && k in s.w.deliveries.byID
    ensures var t := s.w.deliveries;
      t.Found(t.IdsOf(t.byID[k].awbID)) == [t.byID[k]]
  {
    ReachedOk(env, s, start, steps);
    ExecOneLeg(env, start, steps);
    var t := s.w.deliveries;
    SoleListed(t, k);
    FoundAll(t, [k]);
  }

  lemma SoleListed(t: Table, k: Id)
    requires t.Coherent() && k in t.byID
    requires forall j :: j in t.byID && t.byID[j].awbID == t.byID[k].awbID ==> j == k
    ensures t.IdsOf(t.byID[k].awbID) == [k]
  {
    var a := t.byID[k].awbID;
    var ids := t.IdsOf(a);
    assert k in ids;
    assert |ids| > 1 ==> t.IdsOf(a)[0] != t.IdsOf(a)[1];
    forall i | 0 <= i < |ids| ensures ids[i] == k {
      assert ids[i] in t.IdsOf(a);
      assert ids[i] in t.byID && t.byID[ids[i]].awbID == a;
    }
  }
}
