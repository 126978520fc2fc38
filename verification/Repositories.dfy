/** The in-memory delivery and AWB repositories. Entries are cloned on the way in
    and on the way out, so the maps hold values. */
module Repositories {
  import opened Common
  import opened StateGraph
  import opened Deliveries

  // ---------------------------------------------------------------- deliveries

  /** `byID` and its `byAWB` index (internal/infra/memory/delivery_repo.go). */
  datatype Table = Table(byID: map<Id, Snapshot>, byAWB: map<Id, seq<Id>>) {
    function IdsOf(awbID: Id): seq<Id> {
      if awbID in byAWB then byAWB[awbID] else []
    }

    function Save(d: Snapshot): Table {
      Table(
        byID[d.id := d],
        if d.id in IdsOf(d.awbID) then byAWB else byAWB[d.awbID := IdsOf(d.awbID) + [d.id]])
    }

    /** The deliveries of an id list, leaving out ids that are not stored. */
    function Found(ids: seq<Id>): seq<Snapshot> {
      if ids == [] then []
      else
        var last := ids[|ids| - 1];
        Found(ids[..|ids| - 1]) + if last in byID then [byID[last]] else []
    }

    ghost predicate Keyed() {
      forall k :: k in byID ==> byID[k].id == k
    }

    /** The index lists each delivery once, under its own AWB and no other. */
    ghost predicate Coherent() {
      && Keyed()
      && (forall a, i, j :: 0 <= i < j < |IdsOf(a)| ==> IdsOf(a)[i] != IdsOf(a)[j])
      && (forall a, k :: k in IdsOf(a) <==> k in byID && byID[k].awbID == a)
    }
  }

  const NO_DELIVERIES := Table(map[], map[])

  /** A save keeps the index right exactly when it does not move a stored delivery
      to another AWB; nothing ever takes an id out of its old list. */
  lemma SaveKeepsIndexIff(t: Table, d: Snapshot)
    requires t.Coherent()
    ensures t.Save(d).Coherent() <==> (d.id in t.byID ==> t.byID[d.id].awbID == d.awbID)
  {
    var t' := t.Save(d);
    if d.id in t.byID && t.byID[d.id].awbID != d.awbID {
      var a := t.byID[d.id].awbID;
      assert d.id in t.IdsOf(a);
      assert t'.IdsOf(a) == t.IdsOf(a);
      assert d.id in t'.IdsOf(a) && t'.byID[d.id].awbID != a;
    } else {
      forall a ensures t'.IdsOf(a) ==
        if a == d.awbID && d.id !in t.IdsOf(a) then t.IdsOf(a) + [d.id] else t.IdsOf(a) {}
      forall a, k ensures k in t'.IdsOf(a) <==> k in t'.byID && t'.byID[k].awbID == a {
        assert k in t.IdsOf(a) <==> k in t.byID && t.byID[k].awbID == a;
      }
    }
  }

  function SaveAll(saves: seq<Snapshot>): Table {
    if saves == [] then NO_DELIVERIES else SaveAll(saves[..|saves| - 1]).Save(saves[|saves| - 1])
  }

  /** No two saves put one delivery under two AWBs. */
  ghost predicate Stable(saves: seq<Snapshot>) {
    forall i, j :: 0 <= i < j < |saves| && saves[i].id == saves[j].id ==> saves[i].awbID == saves[j].awbID
  }

  /** The position of the first save of an id. */
  function FirstSave(saves: seq<Snapshot>, k: Id): nat {
    if saves == [] || saves[0].id == k then 0 else 1 + FirstSave(saves[1..], k)
  }

  lemma {:induction false} FirstSaveSnoc(saves: seq<Snapshot>, d: Snapshot, k: Id)
    ensures FirstSave(saves, k) <= |saves|
    ensures FirstSave(saves, k) < |saves| ==> FirstSave(saves + [d], k) == FirstSave(saves, k)
    ensures FirstSave(saves, k) == |saves| && d.id == k ==> FirstSave(saves + [d], k) == |saves|
    ensures FirstSave(saves, k) < |saves| <==> exists i :: 0 <= i < |saves| && saves[i].id == k
  {
    if saves != [] {
      assert (saves + [d])[1..] == saves[1..] + [d];
      FirstSaveSnoc(saves[1..], d, k);
      if i :| 0 <= i < |saves| && saves[i].id == k && saves[0].id != k {
        assert saves[1..][i - 1].id == k;
      }
      if i :| 0 <= i < |saves[1..]| && saves[1..][i].id == k {
        assert saves[i + 1].id == k;
      }
    }
  }

  lemma {:induction false} SaveAllKeys(saves: seq<Snapshot>, k: Id)
    ensures k in SaveAll(saves).byID <==> FirstSave(saves, k) < |saves|
  {
    if saves != [] {
      var rest, d := saves[..|saves| - 1], saves[|saves| - 1];
      assert saves == rest + [d];
      SaveAllKeys(rest, k);
      FirstSaveSnoc(rest, d, k);
      FirstSaveSnoc(saves, d, k);
    }
  }

  /** In a stable run a stored delivery is saved again under its own AWB only. */
  lemma StableSave(rest: seq<Snapshot>, d: Snapshot)
    requires Stable(rest + [d])
    requires forall i :: 0 <= i < |rest| ==>
      rest[i].id in SaveAll(rest).byID && SaveAll(rest).byID[rest[i].id].awbID == rest[i].awbID
    ensures d.id in SaveAll(rest).byID ==> SaveAll(rest).byID[d.id].awbID == d.awbID
  {
    if d.id in SaveAll(rest).byID {
      SaveAllKeys(rest, d.id);
      FirstSaveSnoc(rest, d, d.id);
      var i :| 0 <= i < |rest| && rest[i].id == d.id;
      assert (rest + [d])[i].awbID == (rest + [d])[|rest|].awbID;
    }
  }

  lemma {:induction false} SaveAllCoherent(saves: seq<Snapshot>)
    requires Stable(saves)
    ensures SaveAll(saves).Coherent()
    ensures forall i :: 0 <= i < |saves| ==>
      saves[i].id in SaveAll(saves).byID && SaveAll(saves).byID[saves[i].id].awbID == saves[i].awbID
  {
    if saves != [] {
      var rest, d := saves[..|saves| - 1], saves[|saves| - 1];
      SaveAllCoherent(rest);
      var t := SaveAll(rest);
      assert saves == rest + [d];
      StableSave(rest, d);
      SaveKeepsIndexIff(t, d);
      forall i | 0 <= i < |saves|
        ensures saves[i].id in SaveAll(saves).byID && SaveAll(saves).byID[saves[i].id].awbID == saves[i].awbID
      {
        if i < |rest| {
          assert rest[i] == saves[i];
        }
      }
    }
  }

  lemma {:induction false} SaveAllInFirstSaveOrder(saves: seq<Snapshot>, a: Id, i: nat, j: nat)
    requires Stable(saves)
    requires i < j < |SaveAll(saves).IdsOf(a)|
    ensures FirstSave(saves, SaveAll(saves).IdsOf(a)[i]) < FirstSave(saves, SaveAll(saves).IdsOf(a)[j])
  {
    var rest, d := saves[..|saves| - 1], saves[|saves| - 1];
    assert saves == rest + [d];
    SaveAllCoherent(rest);
    var ids, ids' := SaveAll(rest).IdsOf(a), SaveAll(saves).IdsOf(a);
    assert ids' == ids || (ids' == ids + [d.id] && d.id !in ids && d.awbID == a);
    assert ids[i] in ids && ids'[i] == ids[i];
    SaveAllKeys(rest, ids'[i]);
    FirstSaveSnoc(rest, d, ids'[i]);
    FirstSaveSnoc(rest, d, ids'[j]);
    SaveAllKeys(rest, ids'[j]);
    if j < |ids| {
      assert ids[j] in ids;
      SaveAllInFirstSaveOrder(rest, a, i, j);
    } else {
      StableSave(rest, d);
    }
  }

  lemma {:induction false} FoundAll(t: Table, ids: seq<Id>)
    requires forall k :: k in ids ==> k in t.byID
    ensures |t.Found(ids)| == |ids|
    ensures forall i :: 0 <= i < |ids| ==> t.Found(ids)[i] == t.byID[ids[i]]
  {
    if ids != [] {
      FoundAll(t, ids[..|ids| - 1]);
    }
  }

  /** After any run of saves that never re-homes a delivery, `ListByAWB` returns
      exactly the stored deliveries of that AWB, each once, in the order in which
      they were first saved. */
  lemma ListByAWBIsExact(saves: seq<Snapshot>, a: Id)
    requires Stable(saves)
    ensures var t := SaveAll(saves);
      var out := t.Found(t.IdsOf(a));
      && (forall d :: d in out <==> d.id in t.byID && t.byID[d.id] == d && d.awbID == a)
      && (forall i, j :: 0 <= i < j < |out| ==> FirstSave(saves, out[i].id) < FirstSave(saves, out[j].id))
  {
    var t := SaveAll(saves);
    SaveAllCoherent(saves);
    var ids := t.IdsOf(a);
    FoundAll(t, ids);
    var out := t.Found(ids);
    forall d ensures d in out <==> d.id in t.byID && t.byID[d.id] == d && d.awbID == a {
      if d.id in t.byID && t.byID[d.id] == d && d.awbID == a {
        var i :| 0 <= i < |ids| && ids[i] == d.id;
        assert out[i] == d;
      }
      if d in out {
        var i :| 0 <= i < |out| && out[i] == d;
        assert ids[i] in ids && d == t.byID[ids[i]];
      }
    }
    forall i, j | 0 <= i < j < |out| ensures FirstSave(saves, out[i].id) < FirstSave(saves, out[j].id) {
      assert out[i].id == ids[i] && out[j].id == ids[j];
      SaveAllInFirstSaveOrder(saves, a, i, j);
    }
  }

  class DeliveryRepo {
    var byID: map<Id, Snapshot>
    var byAWB: map<Id, seq<Id>>

    function State(): Table
      reads this
    {
      Table(byID, byAWB)
    }

    constructor ()
      ensures State() == NO_DELIVERIES
    {
      byID := map[];
      byAWB := map[];
    }

    /** A nil delivery is refused. */
    method Save(d: Delivery?) returns (ok: bool)
      modifies this
      ensures ok <==> d != null
      ensures State() == if d == null then old(State()) else old(State()).Save(d.Value())
      ensures d != null ==> byID == old(byID)[d.id := d.Value()]
      ensures d != null ==> forall a ::
        (State().IdsOf(a) ==
         old(State().IdsOf(a)) + if a == d.awbID && d.id !in old(State().IdsOf(a)) then [d.id] else [])
    {
      if d == null {
        return false;
      }
      byID := byID[d.id := d.Value()];
      var found := false;
      var ids := if d.awbID in byAWB then byAWB[d.awbID] else [];
      for i := 0 to |ids|
        invariant found == (d.id in ids[..i])
      {
        if ids[i] == d.id {
          found := true;
          break;
        }
      }
      assert ids[..|ids|] == ids;
      if !found {
        byAWB := byAWB[d.awbID := ids + [d.id]];
      }
      return true;
    }

    /** A clone of the stored delivery, or null for ErrNotFound. */
    method GetByID(id: Id) returns (d: Delivery?)
      ensures d == null <==> id !in byID
      ensures d != null ==> fresh(d) && d.Value() == byID[id]
    {
      if id !in byID {
        return null;
      }
      d := new Delivery.Of(byID[id]);
    }

    method ListByAWB(awbID: Id) returns (out: seq<Snapshot>)
      ensures out == State().Found(State().IdsOf(awbID))
    {
      var ids := if awbID in byAWB then byAWB[awbID] else [];
      out := [];
      for i := 0 to |ids|
        invariant out == State().Found(ids[..i])
      {
        assert ids[..i + 1][..i] == ids[..i];
        if ids[i] in byID {
          out := out + [byID[ids[i]]];
        }
      }
      assert ids[..|ids|] == ids;
    }

    /** Map iteration order is arbitrary: any match may be the one returned. */
    method GetByCarrierExternalID(carrierID: string, externalID: string) returns (d: Delivery?)
      ensures d != null ==> fresh(d) && d.carrierID == carrierID && d.carrierExternalID == externalID
      ensures d != null ==> exists k :: k in byID && byID[k] == d.Value()
      ensures d == null ==> forall k :: k in byID ==>
        !(byID[k].carrierID == carrierID && byID[k].carrierExternalID == externalID)
    {
      var rest := byID.Keys;
      while rest != {}
        invariant rest <= byID.Keys
        invariant forall k :: k in byID && k !in rest ==> !Matches(byID[k], carrierID, externalID)
        decreases |rest|
      {
        var k :| k in rest;
        if Matches(byID[k], carrierID, externalID) {
          d := new Delivery.Of(byID[k]);
          return;
        }
        rest := rest - {k};
      }
      return null;
    }

    /** Up to `limit` (50 if not positive) of the deliveries in a state, in
        arbitrary order, and all of them if there are no more. */
    method ListByState(state: State, limit: int) returns (out: seq<Snapshot>)
      requires State().Keyed()
      ensures forall i :: 0 <= i < |out| ==> out[i].id in byID && byID[out[i].id] == out[i] && out[i].state == state
      ensures forall i, j :: 0 <= i < j < |out| ==> out[i].id != out[j].id
      ensures |out| <= if limit <= 0 then 50 else limit
      ensures |out| < (if limit <= 0 then 50 else limit) ==>
        forall k :: k in byID && byID[k].state == state ==> byID[k] in out
    {
      var max := if limit <= 0 then 50 else limit;
      out := [];
      var rest := byID.Keys;
      while rest != {}
        invariant rest <= byID.Keys
        invariant |out| < max
        invariant forall i :: 0 <= i < |out| ==>
          out[i].id in byID && out[i].id !in rest && byID[out[i].id] == out[i] && out[i].state == state
        invariant forall i, j :: 0 <= i < j < |out| ==> out[i].id != out[j].id
        invariant forall k :: k in byID && k !in rest && byID[k].state == state ==> byID[k] in out
        decreases |rest|
      {
        var k :| k in rest;
        rest := rest - {k};
        if byID[k].state == state {
          out := out + [byID[k]];
          if |out| >= max {
            break;
          }
        }
      }
    }
  }

  predicate Matches(d: Snapshot, carrierID: string, externalID: string) {
    d.carrierID == carrierID && d.carrierExternalID == externalID
  }

  // ---------------------------------------------------------------------- AWBs

  datatype ExternalRef = ExternalRef(carrier: string, awb: string)

  datatype AwbState = Created | AtLocker

  /** internal/core/awb/awb.go, with the part of its state graph that is used. */
  datatype Awb = Awb(
    id: Id,
    internalAWB: string,
    retailerID: Id,
    externals: seq<ExternalRef>,
    weightKg: real, lengthCm: real, widthCm: real, heightCm: real,
    state: AwbState,
    stateReason: string)

  /** The two maps of internal/infra/memory/awb_repo.go. */
  datatype AwbTable = AwbTable(byID: map<Id, Awb>, byAWB: map<string, Id>) {
    function Save(a: Awb): AwbTable {
      AwbTable(byID[a.id := a], byAWB[a.internalAWB := a.id])
    }

    ghost predicate Resolvable() {
      forall n :: n in byAWB ==> byAWB[n] in byID
    }

    /** Every number leads to an AWB that bears it, and every stored AWB's number
        leads somewhere. */
    ghost predicate Coherent() {
      && (forall k :: k in byID ==> byID[k].id == k && byID[k].internalAWB in byAWB)
      && (forall n :: n in byAWB ==> byAWB[n] in byID && byID[byAWB[n]].internalAWB == n)
    }
  }

  /** A save keeps the two maps in agreement exactly when it does not renumber an
      AWB that its old number still leads to. */
  lemma AwbSaveKeepsAgreementIff(t: AwbTable, a: Awb)
    requires t.Coherent()
    ensures t.Save(a).Coherent() <==>
      !(a.id in t.byID && t.byID[a.id].internalAWB != a.internalAWB && t.byAWB[t.byID[a.id].internalAWB] == a.id)
  {
    var t' := t.Save(a);
    if a.id in t.byID && t.byID[a.id].internalAWB != a.internalAWB && t.byAWB[t.byID[a.id].internalAWB] == a.id {
      var n := t.byID[a.id].internalAWB;
      assert n in t'.byAWB && t'.byAWB[n] == a.id && t'.byID[a.id].internalAWB != n;
    }
  }

  class AwbRepo {
    var byID: map<Id, Awb>
    var byAWB: map<string, Id>

    function State(): AwbTable
      reads this
    {
      AwbTable(byID, byAWB)
    }

    constructor ()
      ensures State() == AwbTable(map[], map[]) && State().Coherent()
    {
      byID := map[];
      byAWB := map[];
    }

    method Save(a: Awb)
      modifies this
      ensures State() == old(State()).Save(a)
      ensures byID == old(byID)[a.id := a] && byAWB == old(byAWB)[a.internalAWB := a.id]
      ensures old(State().Resolvable()) ==> State().Resolvable()
    {
      byID := byID[a.id := a];
      byAWB := byAWB[a.internalAWB := a.id];
    }

    method GetByID(id: Id) returns (r: Option<Awb>)
      ensures r == if id in byID then Some(byID[id]) else None
    {
      if id !in byID {
        return None;
      }
      return Some(byID[id]);
    }

    /** In an agreeing store the AWB found bears the number it was asked for and
        is the one `GetByID` gives for its id. */
    method GetByInternalAWB(internalAWB: string) returns (r: Option<Awb>)
      requires State().Resolvable()
      ensures r.None? <==> internalAWB !in byAWB
      ensures r.Some? && State().Coherent() ==>
        r.value.internalAWB == internalAWB && r.value.id in byID && byID[r.value.id] == r.value
    {
      if internalAWB !in byAWB {
        return None;
      }
      return Some(byID[byAWB[internalAWB]]);
    }
  }
}
