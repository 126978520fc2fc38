/** `Ledger.Record` as a function of the store, and what one append does to the
    chain when the tail it was sealed to is current, and when it is stale. */
module Recording {
  import opened Common
  import opened Events
  import opened Encoding
  import opened HashChain
  import opened RowCodec
  import opened CustodyStore

  datatype RecordError = Rejected(defect: Defect) | TailUnreadable | NotMarshalled | AppendFailed

  function RecordEvent(env: Env, st: Store, e: Event, eventID: Id): (Store, Result<Event, RecordError>) {
    var defect := Validate(e);
    if defect.Some? then (st, Err(Rejected(defect.value)))
    else
      var tail := LastByDelivery(env, st, e.deliveryID);
      if tail.None? then (st, Err(TailUnreadable))
      else
        var sealed := Seal(env, e, tail.value, eventID);
        if sealed.None? then (st, Err(NotMarshalled))
        else
          var st' := Append(env, st, sealed.value);
          if st'.None? then (st, Err(AppendFailed)) else (st'.value, Ok(sealed.value))
  }

  /** The list of a delivery; of use where the store can be read. */
  function EventsOf(env: Env, st: Store, d: Id): seq<Event> {
    match ListByDelivery(env, st, d)
    case None => []
    case Some(es) => es
  }

  /** The events sit at positions 0, 1, 2 and so on. */
  ghost predicate Numbered(es: seq<Event>) {
    forall i :: 0 <= i < |es| ==> es[i].sequenceNum == i
  }

  ghost predicate Lawful(env: Env) {
    LawfulColumns(env) && LawfulJson(env)
  }

  /** What a chain needs of the encodings: nothing in memory. */
  ghost predicate TrustedHashes(env: Env, st: Store) {
    st.Postgres? ==> Lawful(env)
  }

  /** The stored event recomputes to its hash: always in memory, in the table if
      the row loses nothing. */
  predicate KeepsHash(env: Env, st: Store, e: Event) {
    st.Postgres? ==> Survives(env, e)
  }

  lemma ChainIsNumbered(env: Env, es: seq<Event>)
    requires ChainOk(env, es)
    ensures Numbered(es)
  {
    forall i | 0 <= i < |es| ensures es[i].sequenceNum == i {
      assert Linked(env, es, i);
    }
  }

  /** Sealing to the tail of a numbered prefix gives the number after that prefix. */
  lemma SealNumbers(env: Env, es: seq<Event>, k: nat, e: Event, id: Id)
    requires k <= |es| && Numbered(es)
    requires Seal(env, e, LastOf(es[..k]), id).Some?
    ensures var f := Seal(env, e, LastOf(es[..k]), id).value;
      f.eventID == id && f.sequenceNum == k && CheckLink(env, f, k, Head(env, es[..k])).Intact?
  {
    if k > 0 {
      assert es[..k][k - 1] == es[k - 1];
    }
  }

  /** The table has no room for a number its list already has, and always for the
      next one. */
  lemma RoomForNextOnly(env: Env, st: Store, f: Event)
    requires st.Postgres? && LawfulColumns(env) && Readable(env, st) && Numbered(EventsOf(env, st, f.deliveryID))
    requires FreshEvent(st, f.eventID) && env.marshal(PayloadOf(f)).Some?
    requires 0 <= f.sequenceNum <= |EventsOf(env, st, f.deliveryID)|
    ensures Append(env, st, f).Some? <==> f.sequenceNum == |EventsOf(env, st, f.deliveryID)|
  {
    var es := EventsOf(env, st, f.deliveryID);
    RowRoundTrip(env, f);
    RejectedIffOccupied(env, st.rows, f);
    if f.sequenceNum < |es| {
      assert es[f.sequenceNum] in es;
    } else {
      forall g | g in es ensures g.sequenceNum != f.sequenceNum {
        var i :| 0 <= i < |es| && es[i] == g;
      }
    }
  }

  /** An accepted event that continues its list goes to its end and nowhere else. */
  lemma AppendExtends(env: Env, st: Store, f: Event)
    requires Trusted(env, st) && Readable(env, st) && FreshEvent(st, f.eventID)
    requires st.Postgres? ==> Follows(EventsOf(env, st, f.deliveryID), f)
    requires Append(env, st, f).Some?
    ensures var st' := Append(env, st, f).value;
      && Readable(env, st') && (st'.Postgres? <==> st.Postgres?)
      && EventsOf(env, st', f.deliveryID) == EventsOf(env, st, f.deliveryID) + [Kept(env, st, f)]
      && forall d :: d != f.deliveryID ==> EventsOf(env, st', d) == EventsOf(env, st, d)
  {
    var st' := Append(env, st, f).value;
    AppendKeepsReadable(env, st, f);
    AppendGrows(env, st, f, f.deliveryID);
    forall d | d != f.deliveryID ensures EventsOf(env, st', d) == EventsOf(env, st, d) {
      AppendGrows(env, st, f, d);
      assert EventsOf(env, st, d) + [] == EventsOf(env, st, d);
    }
  }

  /** A writer seals to the tail it read when the list was `es[..k]`. The table
      takes the event exactly when that tail is still the tail; the in-memory store
      always takes it. The list then has the event at its end, and its numbers
      still run without gap exactly when the tail was current. */
  lemma StaleWriter(env: Env, st: Store, e: Event, id: Id, k: nat)
    requires Trusted(env, st) && Readable(env, st) && FreshEvent(st, id)
    requires Numbered(EventsOf(env, st, e.deliveryID)) && k <= |EventsOf(env, st, e.deliveryID)|
    requires Seal(env, e, LastOf(EventsOf(env, st, e.deliveryID)[..k]), id).Some?
    ensures var es := EventsOf(env, st, e.deliveryID);
      var f := Seal(env, e, LastOf(es[..k]), id).value;
      var r := Append(env, st, f);
      && (st.Postgres? ==> (r.Some? <==> k == |es|))
      && (st.Memory? ==> r.Some?)
      && (r.Some? ==>
            && Readable(env, r.value) && (r.value.Postgres? <==> st.Postgres?)
            && EventsOf(env, r.value, e.deliveryID) == es + [Kept(env, st, f)]
            && (Numbered(EventsOf(env, r.value, e.deliveryID)) <==> k == |es|)
            && forall d :: d != e.deliveryID ==> EventsOf(env, r.value, d) == EventsOf(env, st, d))
  {
    var es := EventsOf(env, st, e.deliveryID);
    var f := Seal(env, e, LastOf(es[..k]), id).value;
    SealNumbers(env, es, k, e, id);
    if st.Postgres? {
      RoomForNextOnly(env, st, f);
    }
    if Append(env, st, f).Some? {
      AppendExtends(env, st, f);
      assert (es + [Kept(env, st, f)])[|es|].sequenceNum == k;
    }
  }

  /** Whether the chain goes on: the tail was current and the row loses nothing. If
      it does lose something, a list that still verifies is a hash collision. */
  lemma StaleWriterChain(env: Env, st: Store, e: Event, id: Id, k: nat)
    requires TrustedHashes(env, st) && ChainOk(env, EventsOf(env, st, e.deliveryID))
    requires k <= |EventsOf(env, st, e.deliveryID)|
    requires Seal(env, e, LastOf(EventsOf(env, st, e.deliveryID)[..k]), id).Some?
    ensures var es := EventsOf(env, st, e.deliveryID);
      var f := Seal(env, e, LastOf(es[..k]), id).value;
      && (k == |es| && KeepsHash(env, st, e) ==> ChainOk(env, es + [Kept(env, st, f)]))
      && (ChainOk(env, es + [Kept(env, st, f)]) ==>
            k == |es| && (KeepsHash(env, st, e) || StoredCollision(env, f)))
  {
    var es := EventsOf(env, st, e.deliveryID);
    var f := Seal(env, e, LastOf(es[..k]), id).value;
    ChainIsNumbered(env, es);
    SealNumbers(env, es, k, e, id);
    assert es[..|es|] == es;
    ChainExtend(env, es, Kept(env, st, f));
    if st.Postgres? {
      HashSurvivesIff(env, f);
    }
  }

  /** Every list can be read and is numbered without gaps. */
  ghost predicate Sequenced(env: Env, st: Store) {
    Readable(env, st) && forall d :: Numbered(EventsOf(env, st, d))
  }

  /** An uninterleaved `Record` succeeds exactly when the event validates and
      marshals. It then adds one event at the end of its own delivery's list and
      leaves every other list alone; a failed one changes nothing. */
  lemma RecordExtendsOwnList(env: Env, st: Store, e: Event, id: Id)
    requires Trusted(env, st) && Sequenced(env, st) && FreshEvent(st, id)
    ensures var (st', r) := RecordEvent(env, st, e, id);
      var es := EventsOf(env, st, e.deliveryID);
      && (r.Ok? <==> Validate(e).None? && Seal(env, e, LastOf(es), id).Some?)
      && (r.Err? ==> st' == st && r.error == if Validate(e).Some? then Rejected(Validate(e).value) else NotMarshalled)
      && (r.Ok? ==>
            && Some(r.value) == Seal(env, e, LastOf(es), id)
            && EventsOf(env, st', e.deliveryID) == es + [Kept(env, st, r.value)]
            && forall d :: d != e.deliveryID ==> EventsOf(env, st', d) == EventsOf(env, st, d))
      && Sequenced(env, st') && (st'.Postgres? <==> st.Postgres?)
  {
    var es := EventsOf(env, st, e.deliveryID);
    LastIsLastOfList(env, st, e.deliveryID);
    assert es[..|es|] == es;
    if Validate(e).None? && Seal(env, e, LastOf(es), id).Some? {
      StaleWriter(env, st, e, id, |es|);
      var st' := RecordEvent(env, st, e, id).0;
      forall d ensures Numbered(EventsOf(env, st', d)) {
        assert d != e.deliveryID ==> EventsOf(env, st', d) == EventsOf(env, st, d);
      }
    }
  }

  /** The list of the delivery is a chain afterwards exactly if it was one and the
      event, if it was taken, keeps its hash, collisions aside. */
  lemma RecordExtendsOwnChain(env: Env, st: Store, e: Event, id: Id)
    requires TrustedHashes(env, st) && Sequenced(env, st) && FreshEvent(st, id)
    ensures var (st', r) := RecordEvent(env, st, e, id);
      var es, es' := EventsOf(env, st, e.deliveryID), EventsOf(env, st', e.deliveryID);
      && (ChainOk(env, es) && (r.Err? || KeepsHash(env, st, e)) ==> ChainOk(env, es'))
      && (ChainOk(env, es') ==>
            ChainOk(env, es) && (r.Err? || KeepsHash(env, st, e) || StoredCollision(env, r.value)))
  {
    RecordExtendsOwnList(env, st, e, id);
    var (st', r) := RecordEvent(env, st, e, id);
    var es, es' := EventsOf(env, st, e.deliveryID), EventsOf(env, st', e.deliveryID);
    if r.Ok? {
      assert es[..|es|] == es && es'[..|es|] == es;
      if ChainOk(env, es') {
        ChainPrefix(env, es', |es|);
      }
      if ChainOk(env, es) {
        StaleWriterChain(env, st, e, id, |es|);
      }
    }
  }
}
