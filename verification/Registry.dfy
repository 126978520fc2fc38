/** The carrier registry (internal/carrier/registry.go). */
module Registry {
  import opened Common
  import opened Carriers

  type Version = string

  datatype LookupError = NotRegistered | Disabled

  datatype RegistryState = RegistryState(
    byID: map<string, map<Version, Carrier>>,
    primary: map<string, Version>,
    enabled: map<(string, Version), bool>)
  {
    predicate Registered(id: string, version: Version) {
      id in byID && version in byID[id]
    }

    predicate Enabled(id: string, version: Version) {
      (id, version) in enabled && enabled[(id, version)]
    }

    /** Every known id has a primary and it is registered; every adapter sits
        under its own non-empty capability id. */
    ghost predicate Coherent() {
      && byID.Keys == primary.Keys
      && (forall id :: id in primary ==> Registered(id, primary[id]))
      && (forall id, v :: Registered(id, v) ==> id != "" && byID[id][v].caps.id == id)
    }

    /** The primary adapter of an id. */
    function Get(id: string): Result<Carrier, LookupError> {
      if id !in primary then Err(NotRegistered)
      else if !Enabled(id, primary[id]) then Err(Disabled)
      else if Registered(id, primary[id]) then Ok(byID[id][primary[id]])
      else Err(NotRegistered)
    }

    function GetVersion(id: string, version: Version): Result<Carrier, LookupError> {
      if !Registered(id, version) then Err(NotRegistered)
      else if !Enabled(id, version) then Err(Disabled)
      else Ok(byID[id][version])
    }

    /** `None` is the error: a nil adapter, no id, or a version already taken. */
    function Register(version: Version, adapter: Option<Carrier>): Option<RegistryState> {
      if adapter.None? || adapter.value.caps.id == "" then None
      else
        var id := adapter.value.caps.id;
        if Registered(id, version) then None
        else
          var versions := if id in byID then byID[id] else map[];
          Some(RegistryState(
            byID[id := versions[version := adapter.value]],
            if id in primary then primary else primary[id := version],
            enabled[(id, version) := true]))
    }

    function SetPrimary(id: string, version: Version): Option<RegistryState> {
      if Registered(id, version) then Some(this.(primary := primary[id := version])) else None
    }

    function SetEnabled(id: string, version: Version, on: bool): RegistryState {
      this.(enabled := enabled[(id, version) := on])
    }
  }

  datatype RegistryOp =
    | DoRegister(version: Version, adapter: Option<Carrier>)
    | DoSetPrimary(id: string, version: Version)
    | DoSetEnabled(id: string, version: Version, on: bool)

  function Apply(r: RegistryState, op: RegistryOp): RegistryState {
    match op
    case DoRegister(v, a) => (match r.Register(v, a) case None => r case Some(r') => r')
    case DoSetPrimary(id, v) => (match r.SetPrimary(id, v) case None => r case Some(r') => r')
    case DoSetEnabled(id, v, on) => r.SetEnabled(id, v, on)
  }

  const EMPTY := RegistryState(map[], map[], map[])

  function Run(ops: seq<RegistryOp>): RegistryState {
    if ops == [] then EMPTY else Apply(Run(ops[..|ops| - 1]), ops[|ops| - 1])
  }

  lemma RegisterKeepsCoherent(r: RegistryState, version: Version, a: Carrier)
    requires r.Coherent() && r.Register(version, Some(a)).Some?
    ensures r.Register(version, Some(a)).value.Coherent()
  {
    var r', own := r.Register(version, Some(a)).value, a.caps.id;
    forall id, v ensures r'.Registered(id, v) ==> r.Registered(id, v) || (id == own && v == version)
    {}
    forall id, v | r'.Registered(id, v) ensures id != "" && r'.byID[id][v].caps.id == id {
      assert r.Registered(id, v) ==> r'.byID[id][v] == r.byID[id][v];
    }
  }

  /** Whatever is called, in whatever order, failing calls included, the registry
      stays coherent. */
  lemma {:induction false} RunsStayCoherent(ops: seq<RegistryOp>)
    ensures Run(ops).Coherent()
  {
    if ops != [] {
      var r, op := Run(ops[..|ops| - 1]), ops[|ops| - 1];
      RunsStayCoherent(ops[..|ops| - 1]);
      if op.DoRegister? && r.Register(op.version, op.adapter).Some? {
        RegisterKeepsCoherent(r, op.version, op.adapter.value);
      }
    }
  }

  /** In a coherent registry `Get` answers with the primary adapter of that very
      id, and fails exactly when the id is unknown or its primary is switched
      off; an enabled other version does not stand in. */
  lemma GetIsPrimaryOrNothing(r: RegistryState, id: string)
    requires r.Coherent()
    ensures r.Get(id).Ok? ==> r.Get(id).value.caps.id == id && r.Get(id) == r.GetVersion(id, r.primary[id])
    ensures r.Get(id).Ok? <==> id in r.byID && r.Enabled(id, r.primary[id])
    ensures r.Get(id) == Err(NotRegistered) <==> id !in r.byID
  {}

  /** A registered adapter is live at once, also when its version had been
      switched off before it was registered. */
  lemma RegisterGoesLive(r: RegistryState, version: Version, a: Carrier, r': RegistryState)
    requires r.Coherent() && r.Register(version, Some(a)) == Some(r')
    ensures r'.GetVersion(a.caps.id, version) == Ok(a)
    ensures a.caps.id !in r.byID ==> r'.Get(a.caps.id) == Ok(a)
    ensures a.caps.id in r.byID ==> r'.Get(a.caps.id) == r.Get(a.caps.id)
    ensures forall id :: id != a.caps.id ==> r'.Get(id) == r.Get(id)
  {
    assert a.caps.id in r.byID <==> a.caps.id in r.primary;
  }

  /** Registering adds one version and leaves the others as they were. */
  lemma RegisterAddsOne(r: RegistryState, version: Version, a: Carrier, r': RegistryState)
    requires r.Register(version, Some(a)) == Some(r')
    ensures r.GetVersion(a.caps.id, version) == Err(NotRegistered) && r'.GetVersion(a.caps.id, version) == Ok(a)
    ensures forall id, v :: (id, v) != (a.caps.id, version) ==> r'.GetVersion(id, v) == r.GetVersion(id, v)
  {}

  /** Making a version primary changes the answer for its own id only: it is then
      the answer for that version. */
  lemma SetPrimaryMovesGet(r: RegistryState, id: string, version: Version)
    requires r.Coherent() && r.SetPrimary(id, version).Some?
    ensures var r' := r.SetPrimary(id, version).value;
      && r'.Get(id) == r.GetVersion(id, version)
      && (forall o :: o != id ==> r'.Get(o) == r.Get(o))
      && (forall o, v :: r'.GetVersion(o, v) == r.GetVersion(o, v))
  {}

  /** Switching a version changes no other answer; off and on again restores the
      answers of an enabled one. */
  lemma SetEnabledSwitchesOne(r: RegistryState, id: string, version: Version, on: bool)
    requires r.Coherent()
    ensures var r' := r.SetEnabled(id, version, on);
      && (forall o, v :: (o, v) != (id, version) ==> r'.GetVersion(o, v) == r.GetVersion(o, v))
      && (r.Registered(id, version) ==> (r'.GetVersion(id, version).Ok? <==> on))
      && (id in r.primary && r.primary[id] == version ==> (r'.Get(id).Ok? <==> on))
      && (forall o :: o !in r.primary || (o, r.primary[o]) != (id, version) ==> r'.Get(o) == r.Get(o))
      && (r.Enabled(id, version) ==> r'.SetEnabled(id, version, true) == r)
  {
    assert r.Enabled(id, version) ==> r.enabled[(id, version) := on][(id, version) := true] == r.enabled;
  }

  /** A listing for a role: each carrier at most once, and exactly those that
      `Get` answers with and that advertise the role. */
  ghost predicate IsListing(r: RegistryState, role: Role, out: seq<Carrier>) {
    && (forall i, j :: 0 <= i < j < |out| ==> out[i].caps.id != out[j].caps.id)
    && (forall c :: c in out <==> r.Get(c.caps.id) == Ok(c) && role in c.caps.roles)
  }

  /** A listing restricted to the ids already visited. */
  ghost predicate IsPartialListing(r: RegistryState, role: Role, done: set<string>, out: seq<Carrier>) {
    && (forall i, j :: 0 <= i < j < |out| ==> out[i].caps.id != out[j].caps.id)
    && (forall c :: c in out <==> c.caps.id in done && r.Get(c.caps.id) == Ok(c) && role in c.caps.roles)
  }

  lemma VisitPrimary(r: RegistryState, role: Role, done: set<string>, out: seq<Carrier>, id: string)
    requires r.Coherent() && IsPartialListing(r, role, done, out)
    requires id in r.primary && id !in done
    ensures r.Registered(id, r.primary[id]) && r.byID[id][r.primary[id]].caps.id == id
    ensures var a := r.byID[id][r.primary[id]];
      var out' := if r.Enabled(id, r.primary[id]) && role in a.caps.roles then out + [a] else out;
      IsPartialListing(r, role, done + {id}, out')
  {
    var a := r.byID[id][r.primary[id]];
    forall i | 0 <= i < |out| ensures out[i].caps.id != id {
      assert out[i] in out;
    }
  }

  lemma AllVisited(r: RegistryState, role: Role, out: seq<Carrier>)
    requires IsPartialListing(r, role, r.primary.Keys, out)
    ensures IsListing(r, role, out)
  {}

  /** Two listings of one registry differ in their order at most. */
  lemma ListingsHaveSameMembers(r: RegistryState, role: Role, xs: seq<Carrier>, ys: seq<Carrier>)
    requires IsListing(r, role, xs) && IsListing(r, role, ys)
    ensures forall c :: c in xs <==> c in ys
  {}

  class CarrierRegistry {
    var byID: map<string, map<Version, Carrier>>
    var primary: map<string, Version>
    var enabled: map<(string, Version), bool>

    function State(): RegistryState
      reads this
    {
      RegistryState(byID, primary, enabled)
    }

    ghost predicate Valid()
      reads this
    {
      State().Coherent()
    }

    constructor ()
      ensures Valid() && State() == EMPTY
    {
      byID, primary, enabled := map[], map[], map[];
    }

    method Register(version: Version, adapter: Option<Carrier>) returns (ok: bool)
      requires Valid()
      modifies this
      ensures Valid()
      ensures ok <==>
        && adapter.Some? && adapter.value.caps.id != ""
        && !(adapter.value.caps.id in old(byID) && version in old(byID)[adapter.value.caps.id])
      ensures State() == Apply(old(State()), DoRegister(version, adapter))
      ensures !ok ==> State() == old(State())
    {
      if adapter.None? {
        return false;
      }
      var a := adapter.value;
      var id := a.caps.id;
      if id == "" {
        return false;
      }
      var versions := if id in byID then byID[id] else map[];
      if version in versions {
        return false;
      }
      RegisterKeepsCoherent(State(), version, a);
      byID := byID[id := versions[version := a]];
      enabled := enabled[(id, version) := true];
      if id !in primary {
        primary := primary[id := version];
      }
      return true;
    }

    method SetPrimary(id: string, version: Version) returns (ok: bool)
      requires Valid()
      modifies this
      ensures Valid()
      ensures ok <==> id in old(byID) && version in old(byID)[id]
      ensures State() == Apply(old(State()), DoSetPrimary(id, version))
      ensures !ok ==> State() == old(State())
    {
      if id !in byID || version !in byID[id] {
        return false;
      }
      primary := primary[id := version];
      return true;
    }

    method SetEnabled(id: string, version: Version, on: bool)
      requires Valid()
      modifies this
      ensures Valid()
      ensures State() == Apply(old(State()), DoSetEnabled(id, version, on))
    {
      enabled := enabled[(id, version) := on];
    }

    method Get(id: string) returns (r: Result<Carrier, LookupError>)
      requires Valid()
      ensures r == State().Get(id)
    {
      if id !in primary {
        return Err(NotRegistered);
      }
      var v := primary[id];
      if !((id, v) in enabled && enabled[(id, v)]) {
        return Err(Disabled);
      }
      return Ok(byID[id][v]);
    }

    /** Map iteration order is arbitrary. */
    method ListByRole(role: Role) returns (out: seq<Carrier>)
      requires Valid()
      ensures IsListing(State(), role, out)
    {
      ghost var r := State();
      ghost var done := {};
      out := [];
      var rest := primary.Keys;
      while rest != {}
        invariant forall id :: id in primary <==> id in rest || id in done
        invariant rest !! done
        invariant IsPartialListing(r, role, done, out)
        decreases rest
      {
        var id :| id in rest;
        VisitPrimary(r, role, done, out, id);
        rest, done := rest - {id}, done + {id};
        var v := primary[id];
        if (id, v) in enabled && enabled[(id, v)] {
          var a := byID[id][v];
          var found := Contains(a.caps.roles, role);
          if found {
            out := out + [a];
          }
        }
      }
      assert done == primary.Keys;
      AllVisited(r, role, out);
    }
  }
}
