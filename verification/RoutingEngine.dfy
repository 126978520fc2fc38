/** `Decide`: filter the listed carriers, ask each for an estimate, let the
    strategy pick (internal/core/routing/engine.go). */
module RoutingEngine {
  import opened Common
  import opened Carriers
  import opened Dimensions
  import opened Strategies

  datatype RoutingError = NoEligibleCarrier | NoAvailableCandidate

  datatype Decision = Decision(chosen: Carrier, score: real, candidates: seq<Candidate>)

  /** The structural filter for one carrier. */
  predicate IsEligible(c: Carrier, req: Request, role: Role) {
    && role in c.caps.roles
    && req.weightKg <= c.caps.maxWeightKg
    && FitsSomeRotation(req.dims.Sides(), c.caps.maxDims.Sides())
    && req.pickupMode in c.caps.pickupModes
    && (req.pickupMode.PickupLocker? ==> c.caps.supportsLocker)
  }

  function Eligible(fleet: seq<Carrier>, req: Request, role: Role): (out: seq<Carrier>)
    ensures forall c :: c in out <==> c in fleet && IsEligible(c, req, role)
  {
    if fleet == [] then []
    else
      var last := fleet[|fleet| - 1];
      assert fleet == fleet[..|fleet| - 1] + [last];
      Eligible(fleet[..|fleet| - 1], req, role) + if IsEligible(last, req, role) then [last] else []
  }

  function Candidates(cs: seq<Carrier>, estimates: Carrier -> Option<Estimate>): seq<Candidate> {
    seq(|cs|, i requires 0 <= i < |cs| => Candidate(cs[i], estimates(cs[i])))
  }

  /** `fleet` is what the registry lists for the role; `estimates` is what each
      carrier answers, `None` for an error. */
  function Decide(st: Strategy, fleet: seq<Carrier>, req: Request, role: Role,
                  estimates: Carrier -> Option<Estimate>): Result<Decision, RoutingError> {
    var cs := Eligible(fleet, req, role);
    if |cs| == 0 then Err(NoEligibleCarrier)
    else
      var scored := Candidates(cs, estimates);
      match Select(st, scored)
      case None => Err(NoAvailableCandidate)
      case Some(sel) => Ok(Decision(sel.carrier, sel.score, scored))
  }

  /** The carriers a decision is made among. */
  ghost predicate InPlay(fleet: seq<Carrier>, req: Request, role: Role,
                         estimates: Carrier -> Option<Estimate>, c: Carrier)
  {
    c in fleet && IsEligible(c, req, role) && estimates(c).Some?
  }

  lemma CandidateMembers(cs: seq<Carrier>, estimates: Carrier -> Option<Estimate>)
    ensures forall c :: c in Candidates(cs, estimates) <==> c.carrier in cs && c.estimate == estimates(c.carrier)
  {
    forall c ensures c in Candidates(cs, estimates) <==> c.carrier in cs && c.estimate == estimates(c.carrier) {
      if c.carrier in cs && c.estimate == estimates(c.carrier) {
        var i :| 0 <= i < |cs| && cs[i] == c.carrier;
        assert Candidates(cs, estimates)[i] == c;
      }
    }
  }

  /** `Decide` fails exactly when no listed carrier is eligible, or all eligible
      ones fail to estimate; a chosen carrier is listed, eligible and estimated. */
  lemma DecideErrorsExactly(st: Strategy, fleet: seq<Carrier>, req: Request, role: Role,
                            estimates: Carrier -> Option<Estimate>)
    ensures var r := Decide(st, fleet, req, role, estimates);
      && (r == Err(NoEligibleCarrier) <==> forall c :: c in fleet ==> !IsEligible(c, req, role))
      && (r.Ok? <==> exists c :: InPlay(fleet, req, role, estimates, c))
      && (r.Ok? ==>
            && InPlay(fleet, req, role, estimates, r.value.chosen)
            && forall c :: c in r.value.candidates <==>
                 c.carrier in fleet && IsEligible(c.carrier, req, role) && c.estimate == estimates(c.carrier))
  {
    var cs := Eligible(fleet, req, role);
    var scored := Candidates(cs, estimates);
    CandidateMembers(cs, estimates);
    SelectIsGreatest(st, scored);
    if c :| InPlay(fleet, req, role, estimates, c) {
      assert Candidate(c, estimates(c)) in scored && Candidate(c, estimates(c)).Available();
    }
    if |cs| == 0 {
      forall c | c in fleet ensures !IsEligible(c, req, role) {
        assert c in cs <==> IsEligible(c, req, role);
      }
    } else {
      assert cs[0] in cs;
      if Select(st, scored).Some? {
        var chosen := Chosen(st, scored);
        assert InPlay(fleet, req, role, estimates, chosen.carrier);
      }
    }
  }

  /** The available candidates are the carriers in play with their estimates. */
  lemma CandidatesInPlay(fleet: seq<Carrier>, req: Request, role: Role, estimates: Carrier -> Option<Estimate>)
    ensures var scored := Candidates(Eligible(fleet, req, role), estimates);
      && (forall c :: InPlay(fleet, req, role, estimates, c) ==>
            Candidate(c, estimates(c)) in scored && Candidate(c, estimates(c)).Available())
      && (forall c :: c in scored && c.Available() ==>
            InPlay(fleet, req, role, estimates, c.carrier) && c.estimate == estimates(c.carrier))
  {
    CandidateMembers(Eligible(fleet, req, role), estimates);
  }

  /** With the cheapest (fastest) strategy no carrier in play costs less (takes
      less time) than the chosen one, and the score is that cost (time) negated. */
  lemma DecideIsOptimal(st: Strategy, fleet: seq<Carrier>, req: Request, role: Role,
                        estimates: Carrier -> Option<Estimate>)
    requires Decide(st, fleet, req, role, estimates).Ok?
    ensures var d := Decide(st, fleet, req, role, estimates).value;
      && InPlay(fleet, req, role, estimates, d.chosen)
      && (st.Cheapest? ==>
            && d.score == -(estimates(d.chosen).value.costMinor as real)
            && forall c :: InPlay(fleet, req, role, estimates, c) ==>
                 estimates(d.chosen).value.costMinor <= estimates(c).value.costMinor)
      && (st.Fastest? ==>
            && d.score == -(estimates(d.chosen).value.eta as real)
            && forall c :: InPlay(fleet, req, role, estimates, c) ==>
                 estimates(d.chosen).value.eta <= estimates(c).value.eta)
      && (PositiveWeights(st) ==>
            forall c :: InPlay(fleet, req, role, estimates, c) ==>
              !Dominates(estimates(c).value, estimates(d.chosen).value))
  {
    var cs := Eligible(fleet, req, role);
    var scored := Candidates(cs, estimates);
    var d := Decide(st, fleet, req, role, estimates).value;
    CandidatesInPlay(fleet, req, role, estimates);
    var chosen := Chosen(st, scored);
    assert chosen.carrier == d.chosen && chosen.estimate == estimates(d.chosen);
    match st {
      case Cheapest => CheapestIsCheapest(scored);
      case Fastest => FastestIsFastest(scored);
      case Weighted(_, _, _) =>
        if PositiveWeights(st) {
          WeightedPickIsParetoOptimal(st, scored);
        }
    }
  }

  /** The costs and the ETAs in play have extremes. */
  lemma RangesInPlay(fleet: seq<Carrier>, req: Request, role: Role, estimates: Carrier -> Option<Estimate>)
    returns (minCost: int, maxCost: int, minETA: int, maxETA: int)
    requires exists c :: InPlay(fleet, req, role, estimates, c)
    ensures exists c :: InPlay(fleet, req, role, estimates, c) && estimates(c).value.costMinor == minCost
    ensures exists c :: InPlay(fleet, req, role, estimates, c) && estimates(c).value.costMinor == maxCost
    ensures exists c :: InPlay(fleet, req, role, estimates, c) && estimates(c).value.eta == minETA
    ensures exists c :: InPlay(fleet, req, role, estimates, c) && estimates(c).value.eta == maxETA
    ensures forall c :: InPlay(fleet, req, role, estimates, c) ==>
      && minCost <= estimates(c).value.costMinor <= maxCost
      && minETA <= estimates(c).value.eta <= maxETA
  {
    var scored := Candidates(Eligible(fleet, req, role), estimates);
    CandidatesInPlay(fleet, req, role, estimates);
    minCost, maxCost, minETA, maxETA := RangesExist(scored);
  }

  /** With the weighted strategy the chosen carrier has the greatest weighted sum of
      all carriers in play, between the extremes of their costs and ETAs, and that
      is its score. */
  lemma DecideWeighs(st: Strategy, fleet: seq<Carrier>, req: Request, role: Role,
                     estimates: Carrier -> Option<Estimate>, minCost: int, maxCost: int, minETA: int, maxETA: int)
    requires st.Weighted? && Decide(st, fleet, req, role, estimates).Ok?
    requires exists c :: InPlay(fleet, req, role, estimates, c) && estimates(c).value.costMinor == minCost
    requires exists c :: InPlay(fleet, req, role, estimates, c) && estimates(c).value.costMinor == maxCost
    requires exists c :: InPlay(fleet, req, role, estimates, c) && estimates(c).value.eta == minETA
    requires exists c :: InPlay(fleet, req, role, estimates, c) && estimates(c).value.eta == maxETA
    requires forall c :: InPlay(fleet, req, role, estimates, c) ==>
      && minCost <= estimates(c).value.costMinor <= maxCost
      && minETA <= estimates(c).value.eta <= maxETA
    ensures var d := Decide(st, fleet, req, role, estimates).value;
      && InPlay(fleet, req, role, estimates, d.chosen)
      && d.score == WeightedSum(st, estimates(d.chosen).value, minCost, maxCost, minETA, maxETA)
      && forall c :: InPlay(fleet, req, role, estimates, c) ==>
           WeightedSum(st, estimates(c).value, minCost, maxCost, minETA, maxETA) <= d.score
  {
    var scored := Candidates(Eligible(fleet, req, role), estimates);
    CandidatesInPlay(fleet, req, role, estimates);
    assert CostRange(scored, minCost, maxCost) && ETARange(scored, minETA, maxETA);
    WeightedPickHasGreatestSum(st, scored, minCost, maxCost, minETA, maxETA);
  }

  /** The order in which the registry lists the carriers changes neither whether
      there is a decision, nor which error there is, nor the score reached. */
  lemma DecideIgnoresOrder(st: Strategy, fleet: seq<Carrier>, fleet': seq<Carrier>, req: Request, role: Role,
                           estimates: Carrier -> Option<Estimate>)
    requires forall c :: c in fleet <==> c in fleet'
    ensures var r, r' := Decide(st, fleet, req, role, estimates), Decide(st, fleet', req, role, estimates);
      && r.Ok? == r'.Ok?
      && (r.Err? ==> r == r')
      && (r.Ok? ==> r.value.score == r'.value.score)
  {
    var cs, cs' := Eligible(fleet, req, role), Eligible(fleet', req, role);
    var xs, xs' := Candidates(cs, estimates), Candidates(cs', estimates);
    SameCandidates(cs, cs', estimates);
    assert |cs| == 0 <==> |cs'| == 0;
    SelectIgnoresOrder(st, xs, xs');
  }

  lemma SameCandidates(cs: seq<Carrier>, cs': seq<Carrier>, estimates: Carrier -> Option<Estimate>)
    requires forall c :: c in cs <==> c in cs'
    ensures SameMembers(Candidates(cs, estimates), Candidates(cs', estimates))
    ensures |cs| == 0 <==> |cs'| == 0
  {
    CandidateMembers(cs, estimates);
    CandidateMembers(cs', estimates);
    assert |cs| > 0 ==> cs[0] in cs';
    assert |cs'| > 0 ==> cs'[0] in cs;
  }

  // ---------------------------------------------------------------- the methods

  method FilterEligible(fleet: seq<Carrier>, req: Request, role: Role) returns (out: seq<Carrier>)
    ensures out == Eligible(fleet, req, role)
    ensures forall c :: c in out <==>
      && c in fleet && role in c.caps.roles
      && req.weightKg <= c.caps.maxWeightKg
      && FitsSomeRotation(req.dims.Sides(), c.caps.maxDims.Sides())
      && req.pickupMode in c.caps.pickupModes && (req.pickupMode == PickupLocker ==> c.caps.supportsLocker)
  {
    out := [];
    for i := 0 to |fleet|
      invariant out == Eligible(fleet[..i], req, role)
    {
      assert fleet[..i + 1][..i] == fleet[..i];
      var caps := fleet[i].caps;
      var hasRole := Contains(caps.roles, role);
      if !hasRole {
        continue;
      }
      if req.weightKg > caps.maxWeightKg {
        continue;
      }
      var exceeds := ExceedsDims(req.dims, caps.maxDims);
      if exceeds {
        continue;
      }
      var supports := Contains(caps.pickupModes, req.pickupMode);
      if !supports {
        continue;
      }
      if req.pickupMode == PickupLocker && !caps.supportsLocker {
        continue;
      }
      out := out + [fleet[i]];
    }
    assert fleet[..|fleet|] == fleet;
  }

  method RunDecide(st: Strategy, fleet: seq<Carrier>, req: Request, role: Role,
                   estimates: Carrier -> Option<Estimate>) returns (r: Result<Decision, RoutingError>)
    ensures r == Decide(st, fleet, req, role, estimates)
  {
    var candidates := FilterEligible(fleet, req, role);
    if |candidates| == 0 {
      return Err(NoEligibleCarrier);
    }
    var scored := [];
    for i := 0 to |candidates|
      invariant scored == Candidates(candidates[..i], estimates)
    {
      var est := estimates(candidates[i]);
      if est.None? {
        scored := scored + [Candidate(candidates[i], None)];
        continue;
      }
      scored := scored + [Candidate(candidates[i], est)];
    }
    assert candidates[..|candidates|] == candidates;
    var sel := RunStrategy(st, scored);
    if sel.None? {
      return Err(NoAvailableCandidate);
    }
    return Ok(Decision(sel.value.carrier, sel.value.score, scored));
  }
}
