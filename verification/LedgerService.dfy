/** The custody repositories and the `Ledger` facade as the objects the program
    runs, each proved equal to its value-level function. */
module LedgerService {
  import opened Common
  import opened Events
  import opened Encoding
  import opened HashChain
  import opened RowCodec
  import opened CustodyStore
  import opened Recording

  /** internal/infra/memory/custody_repo.go */
  class MemoryRepo {
    var byDel: map<Id, seq<Event>>

    constructor ()
      ensures byDel == map[]
    {
      byDel := map[];
    }

    method Append(e: Event)
      modifies this
      ensures byDel == MemoryAppend(old(byDel), e)
    {
      var events := MemoryList(byDel, e.deliveryID);
      for i := 0 to |events|
        invariant byDel == old(byDel)
        invariant !HasEvent(events[..i], e.eventID)
      {
        if events[i].eventID == e.eventID {
          return;
        }
      }
      assert events[..|events|] == events;
      byDel := byDel[e.deliveryID := events + [e]];
    }

    method LastByDelivery(deliveryID: Id) returns (r: Option<Event>)
      ensures r == LastOf(MemoryList(byDel, deliveryID))
    {
      var events := MemoryList(byDel, deliveryID);
      if |events| == 0 {
        return None;
      }
      return Some(events[|events| - 1]);
    }

    method ListByDelivery(deliveryID: Id) returns (out: seq<Event>)
      ensures out == MemoryList(byDel, deliveryID)
    {
      out := MemoryList(byDel, deliveryID);
    }
  }

  /** internal/infra/postgres/custody_repo.go; `rows` is the table. */
  class PostgresRepo {
    var rows: seq<Row>

    constructor ()
      ensures rows == []
    {
      rows := [];
    }

    /** The row is built column by column; whichever column fails to marshal, or
        the insert, an error leaves the table as it was. */
    method Append(env: Env, e: Event) returns (ok: bool)
      modifies this
      ensures ok == CustodyStore.Append(env, old(Postgres(rows)), e).Some?
      ensures Postgres(rows) ==
        if ok then CustodyStore.Append(env, old(Postgres(rows)), e).value else old(Postgres(rows))
    {
      var actor := env.actors.enc(e.actor);
      if actor.None? {
        return false;
      }
      var location: Option<bytes> := None;
      if e.location.Some? {
        location := env.locations.enc(e.location.value);
        if location.None? {
          return false;
        }
      }
      var photos := env.photoLists.enc(e.PhotoList());
      if photos.None? {
        return false;
      }
      if e.photos == None {
        photos := Some(EMPTY_ARRAY);
      }
      var signature: Option<bytes> := None;
      if e.signature.Some? {
        signature := env.signatures.enc(e.signature.value);
        if signature.None? {
          return false;
        }
      }
      var meta := EMPTY_OBJECT;
      if |e.metadata| > 0 {
        meta := e.metadata;
      }
      var inserted := InsertRow(rows, Row(
        e.eventID, e.deliveryID, e.sequenceNum, e.kind, e.occurredAt / 1000,
        if e.carrierTime.Some? then Some(e.carrierTime.value / 1000) else None,
        actor.value, location, photos.value, signature,
        if e.reason == "" then None else Some(e.reason),
        env.jsonb(meta), e.prevHash, e.hash));
      if inserted.None? {
        return false;
      }
      rows := inserted.value;
      return true;
    }

    method LastByDelivery(env: Env, deliveryID: Id) returns (r: Option<Option<Event>>)
      ensures r == CustodyStore.LastByDelivery(env, Postgres(rows), deliveryID)
    {
      var result := OrderBySequence(RowsOf(rows, deliveryID));
      if result == [] {
        return Some(None);
      }
      var e := DecodeRow(env, result[|result| - 1]);
      if e.None? {
        return None;
      }
      return Some(e);
    }

    method ListByDelivery(env: Env, deliveryID: Id) returns (r: Option<seq<Event>>)
      ensures r == CustodyStore.ListByDelivery(env, Postgres(rows), deliveryID)
    {
      var result := OrderBySequence(RowsOf(rows, deliveryID));
      var out := [];
      for i := 0 to |result|
        invariant ScanAll(env, result[..i]) == Some(out)
      {
        assert result[..i + 1][..i] == result[..i];
        var e := DecodeRow(env, result[i]);
        if e.None? {
          FailedScan(env, result, i + 1);
          return None;
        }
        out := out + [e.value];
      }
      assert result[..|result|] == result;
      return Some(out);
    }
  }

  lemma {:induction false} FailedScan(env: Env, rows: seq<Row>, n: nat)
    requires n <= |rows| && ScanAll(env, rows[..n]).None?
    ensures ScanAll(env, rows).None?
    decreases |rows|
  {
    if n == |rows| {
      assert rows[..n] == rows;
    } else {
      assert rows[..|rows| - 1][..n] == rows[..n];
      FailedScan(env, rows[..|rows| - 1], n);
    }
  }

  /** The `custody.Repository` port: one of its two implementations. */
  datatype Repository = InMemory(memory: MemoryRepo) | Table(table: PostgresRepo) {
    ghost function Objects(): set<object> {
      match this
      case InMemory(m) => {m}
      case Table(t) => {t}
    }

    ghost function State(): Store
      reads Objects()
    {
      match this
      case InMemory(m) => Memory(m.byDel)
      case Table(t) => Postgres(t.rows)
    }

    method Append(env: Env, e: Event) returns (ok: bool)
      modifies Objects()
      ensures ok == CustodyStore.Append(env, old(State()), e).Some?
      ensures State() == if ok then CustodyStore.Append(env, old(State()), e).value else old(State())
    {
      match this
      case InMemory(m) =>
        m.Append(e);
        ok := true;
      case Table(t) =>
        ok := t.Append(env, e);
    }

    method LastByDelivery(env: Env, d: Id) returns (r: Option<Option<Event>>)
      ensures r == CustodyStore.LastByDelivery(env, State(), d)
    {
      match this
      case InMemory(m) =>
        var e := m.LastByDelivery(d);
        r := Some(e);
      case Table(t) =>
        r := t.LastByDelivery(env, d);
    }

    method ListByDelivery(env: Env, d: Id) returns (r: Option<seq<Event>>)
      ensures r == CustodyStore.ListByDelivery(env, State(), d)
    {
      match this
      case InMemory(m) =>
        var es := m.ListByDelivery(d);
        r := Some(es);
      case Table(t) =>
        r := t.ListByDelivery(env, d);
    }
  }

  class Ledger {
    const env: Env
    const repo: Repository

    constructor (env: Env, repo: Repository)
      ensures this.env == env && this.repo == repo
    {
      this.env := env;
      this.repo := repo;
    }

    /** `eventID` is the UUID drawn for the event. */
    method Record(input: Event, eventID: Id) returns (r: Result<Event, RecordError>)
      modifies repo.Objects()
      ensures (repo.State(), r) == RecordEvent(env, old(repo.State()), input, eventID)
    {
      var e := input;
      var defect := Validate(e);
      if defect.Some? {
        return Err(Rejected(defect.value));
      }
      var tail := repo.LastByDelivery(env, e.deliveryID);
      if tail.None? {
        return Err(TailUnreadable);
      }
      e := e.(eventID := eventID);
      if tail.value.Some? {
        e := e.(sequenceNum := tail.value.value.sequenceNum + 1, prevHash := tail.value.value.hash);
      } else {
        e := e.(sequenceNum := 0, prevHash := Genesis(env));
      }
      var hash := ComputeHash(env, e);
      if hash.None? {
        assert Seal(env, input, tail.value, eventID).None?;
        return Err(NotMarshalled);
      }
      e := e.(hash := hash.value);
      assert Seal(env, input, tail.value, eventID) == Some(e);
      var ok := repo.Append(env, e);
      if !ok {
        return Err(AppendFailed);
      }
      return Ok(e);
    }

    /** `None` when the list cannot be read. */
    method Verify(deliveryID: Id) returns (r: Option<Verdict>)
      ensures r.None? <==> ListByDelivery(env, repo.State(), deliveryID).None?
      ensures r.Some? ==> r.value == HashChain.Verify(env, EventsOf(env, repo.State(), deliveryID))
    {
      var events := repo.ListByDelivery(env, deliveryID);
      if events.None? {
        return None;
      }
      var es := events.value;
      var expected := Genesis(env);
      for i := 0 to |es|
        invariant HashChain.Verify(env, es) == VerifyFrom(env, es, i, expected)
      {
        var e := es[i];
        if e.sequenceNum != i {
          return Some(Broken(i, SequenceGap));
        }
        if e.prevHash != expected {
          return Some(Broken(i, PrevHashMismatch));
        }
        var actual := ComputeHash(env, e);
        if actual.None? {
          return Some(Unhashable);
        }
        if actual.value != e.hash {
          return Some(Tampered(i, e.eventID));
        }
        expected := e.hash;
      }
      return Some(Intact);
    }
  }
}
