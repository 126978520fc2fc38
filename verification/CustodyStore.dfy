/** The two custody stores, as values: what an append does and what the reads
    give. The in-memory store deduplicates on the event id only; the
    `custody_events` table also rejects a second row with the same delivery and
    sequence number (migrations/0001_initial.up.sql). */
module CustodyStore {
  import opened Common
  import opened Events
  import opened Encoding
  import opened RowCodec

  datatype Store =
    | Memory(byDel: map<Id, seq<Event>>)
    | Postgres(rows: seq<Row>)

  // ----------------------------------------------------------------- in memory

  function MemoryList(byDel: map<Id, seq<Event>>, d: Id): seq<Event> {
    if d in byDel then byDel[d] else []
  }

  predicate HasEvent(es: seq<Event>, id: Id) {
    exists i :: 0 <= i < |es| && es[i].eventID == id
  }

  function MemoryAppend(byDel: map<Id, seq<Event>>, e: Event): map<Id, seq<Event>> {
    var es := MemoryList(byDel, e.deliveryID);
    if HasEvent(es, e.eventID) then byDel else byDel[e.deliveryID := es + [e]]
  }

  // ------------------------------------------------------------------ the table

  predicate HasRow(rows: seq<Row>, id: Id) {
    exists i :: 0 <= i < |rows| && rows[i].eventID == id
  }

  predicate Occupied(rows: seq<Row>, d: Id, n: int) {
    exists i :: 0 <= i < |rows| && rows[i].deliveryID == d && rows[i].sequenceNum == n
  }

  /** INSERT ... ON CONFLICT (event_id) DO NOTHING under UNIQUE (delivery_id,
      sequence_num); `None` is the constraint violation. */
  function InsertRow(rows: seq<Row>, r: Row): Option<seq<Row>> {
    if HasRow(rows, r.eventID) then Some(rows)
    else if Occupied(rows, r.deliveryID, r.sequenceNum) then None
    else Some(rows + [r])
  }

  /** WHERE delivery_id = d */
  function RowsOf(rows: seq<Row>, d: Id): seq<Row> {
    if rows == [] then []
    else
      var last := rows[|rows| - 1];
      RowsOf(rows[..|rows| - 1], d) + if last.deliveryID == d then [last] else []
  }

  function InsertBySequence(sorted: seq<Row>, r: Row): seq<Row> {
    if sorted == [] then [r]
    else if sorted[|sorted| - 1].sequenceNum <= r.sequenceNum then sorted + [r]
    else InsertBySequence(sorted[..|sorted| - 1], r) + [sorted[|sorted| - 1]]
  }

  /** ORDER BY sequence_num ASC */
  function OrderBySequence(rows: seq<Row>): seq<Row> {
    if rows == [] then [] else InsertBySequence(OrderBySequence(rows[..|rows| - 1]), rows[|rows| - 1])
  }

  /** Scans the rows of a result set in order; `None` if one does not decode. */
  function ScanAll(env: Env, rows: seq<Row>): Option<seq<Event>> {
    if rows == [] then Some([])
    else
      match ScanAll(env, rows[..|rows| - 1])
      case None => None
      case Some(es) =>
        match DecodeRow(env, rows[|rows| - 1])
        case None => None
        case Some(e) => Some(es + [e])
  }

  ghost predicate Ascending(rows: seq<Row>) {
    forall i, j :: 0 <= i < j < |rows| ==> rows[i].sequenceNum <= rows[j].sequenceNum
  }

  lemma {:induction false} InsertBySequenceMembers(sorted: seq<Row>, r: Row)
    ensures multiset(InsertBySequence(sorted, r)) == multiset(sorted) + multiset{r}
  {
    if sorted != [] {
      assert sorted == sorted[..|sorted| - 1] + [sorted[|sorted| - 1]];
      InsertBySequenceMembers(sorted[..|sorted| - 1], r);
    }
  }

  lemma {:induction false} InsertBySequenceSorts(sorted: seq<Row>, r: Row)
    requires Ascending(sorted)
    ensures Ascending(InsertBySequence(sorted, r))
  {
    if sorted != [] {
      var init, last := sorted[..|sorted| - 1], sorted[|sorted| - 1];
      if last.sequenceNum > r.sequenceNum {
        InsertBySequenceSorts(init, r);
        InsertBySequenceMembers(init, r);
        var rest := InsertBySequence(init, r);
        forall i | 0 <= i < |rest| ensures rest[i].sequenceNum <= last.sequenceNum {
          assert rest[i] in multiset(rest);
        }
      }
    }
  }

  lemma {:induction false} OrderBySequenceSorts(rows: seq<Row>)
    ensures Ascending(OrderBySequence(rows))
    ensures multiset(OrderBySequence(rows)) == multiset(rows)
  {
    if rows != [] {
      assert rows == rows[..|rows| - 1] + [rows[|rows| - 1]];
      OrderBySequenceSorts(rows[..|rows| - 1]);
      InsertBySequenceSorts(OrderBySequence(rows[..|rows| - 1]), rows[|rows| - 1]);
      InsertBySequenceMembers(OrderBySequence(rows[..|rows| - 1]), rows[|rows| - 1]);
    }
  }

  lemma {:induction false} RowsOfMultiplicity(rows: seq<Row>, d: Id, r: Row)
    ensures multiset(RowsOf(rows, d))[r] == if r.deliveryID == d then multiset(rows)[r] else 0
  {
    if rows != [] {
      assert rows == rows[..|rows| - 1] + [rows[|rows| - 1]];
      RowsOfMultiplicity(rows[..|rows| - 1], d, r);
    }
  }

  /** The result set of a delivery is in sequence order and holds exactly the rows
      of that delivery, each as often as the table does. */
  lemma ResultSetIsExact(rows: seq<Row>, d: Id)
    ensures Ascending(OrderBySequence(RowsOf(rows, d)))
    ensures forall r ::
      multiset(OrderBySequence(RowsOf(rows, d)))[r] == (if r.deliveryID == d then multiset(rows)[r] else 0)
  {
    OrderBySequenceSorts(RowsOf(rows, d));
    forall r { RowsOfMultiplicity(rows, d, r); }
  }

  lemma ResultSetMembers(rows: seq<Row>, d: Id, r: Row)
    ensures r in OrderBySequence(RowsOf(rows, d)) <==> r in rows && r.deliveryID == d
  {
    ResultSetIsExact(rows, d);
    var ordered := OrderBySequence(RowsOf(rows, d));
    assert r in ordered <==> multiset(ordered)[r] > 0;
    assert r in rows <==> multiset(rows)[r] > 0;
  }

  lemma {:induction false} ScanAllPointwise(env: Env, rows: seq<Row>)
    requires ScanAll(env, rows).Some?
    ensures |ScanAll(env, rows).value| == |rows|
    ensures forall i :: 0 <= i < |rows| ==> DecodeRow(env, rows[i]) == Some(ScanAll(env, rows).value[i])
  {
    if rows != [] {
      ScanAllPointwise(env, rows[..|rows| - 1]);
    }
  }

  lemma ScanAllSnoc(env: Env, rows: seq<Row>, r: Row)
    requires ScanAll(env, rows).Some? && DecodeRow(env, r).Some?
    ensures ScanAll(env, rows + [r]) == Some(ScanAll(env, rows).value + [DecodeRow(env, r).value])
  {
    assert (rows + [r])[..|rows|] == rows;
  }

  // ------------------------------------------------------- the repository port

  function ListByDelivery(env: Env, st: Store, d: Id): Option<seq<Event>> {
    match st
    case Memory(byDel) => Some(MemoryList(byDel, d))
    case Postgres(rows) => ScanAll(env, OrderBySequence(RowsOf(rows, d)))
  }

  function LastOf(es: seq<Event>): Option<Event> {
    if es == [] then None else Some(es[|es| - 1])
  }

  /** The outer `None` is a read error. */
  function LastByDelivery(env: Env, st: Store, d: Id): Option<Option<Event>> {
    match st
    case Memory(byDel) => Some(LastOf(MemoryList(byDel, d)))
    case Postgres(rows) =>
      var ordered := OrderBySequence(RowsOf(rows, d));
      if ordered == [] then Some(None)
      else
        match DecodeRow(env, ordered[|ordered| - 1])
        case None => None
        case Some(e) => Some(Some(e))
  }

  /** `None` is an error: a column that cannot be marshalled or a rejected insert. */
  function Append(env: Env, st: Store, e: Event): Option<Store> {
    match st
    case Memory(byDel) => Some(Memory(MemoryAppend(byDel, e)))
    case Postgres(rows) =>
      match EncodeRow(env, e)
      case None => None
      case Some(row) =>
        match InsertRow(rows, row)
        case None => None
        case Some(rows') => Some(Postgres(rows'))
  }

  /** The in-memory store encodes nothing and needs no law of the columns. */
  ghost predicate Trusted(env: Env, st: Store) {
    st.Postgres? ==> LawfulColumns(env)
  }

  /** The event as later reads give it back. */
  function Kept(env: Env, st: Store, e: Event): Event {
    if st.Memory? then e else AsStored(env, e)
  }

  /** No stored event has this id. */
  predicate FreshEvent(st: Store, id: Id) {
    match st
    case Memory(byDel) => forall d | d in byDel :: !HasEvent(byDel[d], id)
    case Postgres(rows) => !HasRow(rows, id)
  }

  /** Every list can be read and holds events of its own delivery. */
  ghost predicate Readable(env: Env, st: Store) {
    forall d :: ListByDelivery(env, st, d).Some?
      && forall e :: e in ListByDelivery(env, st, d).value ==> e.deliveryID == d
  }

  lemma LastIsLastOfList(env: Env, st: Store, d: Id)
    requires ListByDelivery(env, st, d).Some?
    ensures LastByDelivery(env, st, d) == Some(LastOf(ListByDelivery(env, st, d).value))
  {
    if st.Postgres? {
      ScanAllPointwise(env, OrderBySequence(RowsOf(st.rows, d)));
    }
  }

  /** An event fits after a list when its number is not below the last one's. */
  predicate Follows(es: seq<Event>, e: Event) {
    es == [] || es[|es| - 1].sequenceNum <= e.sequenceNum
  }

  lemma {:induction false} RowsOfSnoc(rows: seq<Row>, r: Row, d: Id)
    ensures RowsOf(rows + [r], d) == RowsOf(rows, d) + if r.deliveryID == d then [r] else []
  {
    assert (rows + [r])[..|rows|] == rows;
  }

  lemma {:induction false} PostgresAppendGrows(env: Env, rows: seq<Row>, r: Row, d: Id)
    requires ListByDelivery(env, Postgres(rows), d).Some?
    requires DecodeRow(env, r).Some?
    requires r.deliveryID == d ==>
      Follows(ListByDelivery(env, Postgres(rows), d).value, DecodeRow(env, r).value)
    ensures ListByDelivery(env, Postgres(rows + [r]), d) ==
      Some(ListByDelivery(env, Postgres(rows), d).value
           + if r.deliveryID == d then [DecodeRow(env, r).value] else [])
  {
    RowsOfSnoc(rows, r, d);
    var before := RowsOf(rows, d);
    if r.deliveryID == d {
      var sorted := OrderBySequence(before);
      ScanAllPointwise(env, sorted);
      assert (before + [r])[..|before|] == before;
      assert OrderBySequence(before + [r]) == InsertBySequence(sorted, r) == sorted + [r];
      ScanAllSnoc(env, sorted, r);
    } else {
      var es := ListByDelivery(env, Postgres(rows), d).value;
      assert before + [] == before && es + [] == es;
    }
  }

  /** An accepted append of a fresh event that follows its list puts the event at
      the end of that list and touches no other. */
  lemma AppendGrows(env: Env, st: Store, e: Event, d: Id)
    requires Trusted(env, st) && Readable(env, st)
    requires FreshEvent(st, e.eventID) && Append(env, st, e).Some?
    requires st.Postgres? ==> Follows(ListByDelivery(env, st, e.deliveryID).value, e)
    ensures var st' := Append(env, st, e).value;
      ListByDelivery(env, st', d) ==
        Some(ListByDelivery(env, st, d).value + if d == e.deliveryID then [Kept(env, st, e)] else [])
  {
    var es := ListByDelivery(env, st, d).value;
    assert es + [] == es;
    if st.Postgres? {
      RowRoundTrip(env, e);
      PostgresAppendGrows(env, st.rows, EncodeRow(env, e).value, d);
    }
  }

  lemma AppendKeepsReadable(env: Env, st: Store, e: Event)
    requires Trusted(env, st) && Readable(env, st)
    requires FreshEvent(st, e.eventID) && Append(env, st, e).Some?
    requires st.Postgres? ==> Follows(ListByDelivery(env, st, e.deliveryID).value, e)
    ensures Readable(env, Append(env, st, e).value)
  {
    var st' := Append(env, st, e).value;
    forall d ensures ListByDelivery(env, st', d).Some?
      && forall f :: f in ListByDelivery(env, st', d).value ==> f.deliveryID == d
    {
      AppendGrows(env, st, e, d);
    }
  }

  /** An event whose id is listed already is skipped without an error: in memory if
      its own delivery lists it, in the table if any does. */
  lemma DuplicateIsSkipped(env: Env, st: Store, e: Event, d: Id, f: Event)
    requires ListByDelivery(env, st, d).Some? && f in ListByDelivery(env, st, d).value && f.eventID == e.eventID
    requires if st.Memory? then d == e.deliveryID else EncodeRow(env, e).Some?
    ensures Append(env, st, e) == Some(st)
  {
    if st.Postgres? {
      var ordered := OrderBySequence(RowsOf(st.rows, d));
      ScanAllPointwise(env, ordered);
      var es := ScanAll(env, ordered).value;
      var k :| 0 <= k < |es| && es[k] == f;
      ResultSetMembers(st.rows, d, ordered[k]);
      assert ordered[k].eventID == e.eventID;
    }
  }

  /** The table rejects a fresh event that can be encoded exactly when its list
      already has that sequence number. */
  lemma RejectedIffOccupied(env: Env, rows: seq<Row>, e: Event)
    requires ListByDelivery(env, Postgres(rows), e.deliveryID).Some?
    requires FreshEvent(Postgres(rows), e.eventID) && EncodeRow(env, e).Some?
    ensures Append(env, Postgres(rows), e).None? <==>
      exists f :: f in ListByDelivery(env, Postgres(rows), e.deliveryID).value && f.sequenceNum == e.sequenceNum
  {
    var es := ListByDelivery(env, Postgres(rows), e.deliveryID).value;
    if Occupied(rows, e.deliveryID, e.sequenceNum) {
      OccupiedIsListed(env, rows, e.deliveryID, e.sequenceNum);
    }
    if f :| f in es && f.sequenceNum == e.sequenceNum {
      ListedIsOccupied(env, rows, e.deliveryID, f);
    }
  }

  lemma OccupiedIsListed(env: Env, rows: seq<Row>, d: Id, n: int)
    requires ListByDelivery(env, Postgres(rows), d).Some? && Occupied(rows, d, n)
    ensures exists f :: f in ListByDelivery(env, Postgres(rows), d).value && f.sequenceNum == n
  {
    var ordered := OrderBySequence(RowsOf(rows, d));
    ScanAllPointwise(env, ordered);
    var i :| 0 <= i < |rows| && rows[i].deliveryID == d && rows[i].sequenceNum == n;
    ResultSetMembers(rows, d, rows[i]);
    var k :| 0 <= k < |ordered| && ordered[k] == rows[i];
    var es := ScanAll(env, ordered).value;
    assert es[k] in es && es[k].sequenceNum == n;
  }

  lemma ListedIsOccupied(env: Env, rows: seq<Row>, d: Id, f: Event)
    requires ListByDelivery(env, Postgres(rows), d).Some? && f in ListByDelivery(env, Postgres(rows), d).value
    ensures Occupied(rows, d, f.sequenceNum)
  {
    var ordered := OrderBySequence(RowsOf(rows, d));
    ScanAllPointwise(env, ordered);
    var es := ScanAll(env, ordered).value;
    var k :| 0 <= k < |es| && es[k] == f;
    ResultSetMembers(rows, d, ordered[k]);
    assert ordered[k].sequenceNum == f.sequenceNum;
  }
}
