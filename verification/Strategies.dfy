/** The carrier selection strategies (internal/core/routing/strategy.go).
    `float64` is modelled by `real`. */
module Strategies {
  import opened Common
  import opened Carriers

  /** `estimate` is `None` when the carrier's estimate failed. */
  datatype Candidate = Candidate(carrier: Carrier, estimate: Option<Estimate>) {
    predicate Available() {
      estimate.Some?
    }
  }

  predicate AllAvailable(cs: seq<Candidate>) {
    forall i :: 0 <= i < |cs| ==> cs[i].Available()
  }

  datatype Strategy =
    | Cheapest
    | Fastest
    | Weighted(costWeight: real, etaWeight: real, confidenceWeight: real)

  datatype Selection = Selection(carrier: Carrier, score: real)

  // ------------------------------------------------------- minimum and maximum

  function Least(xs: seq<int>): int
    requires xs != []
  {
    if |xs| == 1 then xs[0]
    else
      var m, x := Least(xs[..|xs| - 1]), xs[|xs| - 1];
      if x < m then x else m
  }

  function Greatest(xs: seq<int>): int
    requires xs != []
  {
    if |xs| == 1 then xs[0]
    else
      var m, x := Greatest(xs[..|xs| - 1]), xs[|xs| - 1];
      if x > m then x else m
  }

  lemma {:induction false} ExtremesBound(xs: seq<int>)
    requires xs != []
    ensures Least(xs) in xs && Greatest(xs) in xs
    ensures forall x :: x in xs ==> Least(xs) <= x <= Greatest(xs)
  {
    if |xs| > 1 {
      var rest := xs[..|xs| - 1];
      assert xs == rest + [xs[|xs| - 1]];
      ExtremesBound(rest);
    }
  }

  function Costs(cs: seq<Candidate>): seq<int>
    requires AllAvailable(cs)
  {
    seq(|cs|, i requires 0 <= i < |cs| => cs[i].estimate.value.costMinor)
  }

  function ETAs(cs: seq<Candidate>): seq<int>
    requires AllAvailable(cs)
  {
    seq(|cs|, i requires 0 <= i < |cs| => cs[i].estimate.value.eta)
  }

  function FilterAvailable(cs: seq<Candidate>): (out: seq<Candidate>)
    ensures AllAvailable(out)
    ensures forall c :: c in out <==> c in cs && c.Available()
  {
    if cs == [] then []
    else
      var last := cs[|cs| - 1];
      assert cs == cs[..|cs| - 1] + [last];
      FilterAvailable(cs[..|cs| - 1]) + if last.Available() then [last] else []
  }

  // -------------------------------------------------------------------- scores

  function Normalize(v: real, mn: real, mx: real): real {
    if mx == mn then 0.0 else (v - mn) / (mx - mn)
  }

  /** The weighted sum over the normalized cost and ETA and the confidence. */
  function WeightedScore(st: Strategy, e: Estimate, minCost: int, maxCost: int, minETA: int, maxETA: int): real
    requires st.Weighted?
  {
    var nc := Normalize(e.costMinor as real, minCost as real, maxCost as real);
    var ne := Normalize(e.eta as real, minETA as real, maxETA as real);
    Combine(nc, ne, e.confidence, st.costWeight, st.etaWeight, st.confidenceWeight)
  }

  function Combine(nc: real, ne: real, q: real, wc: real, we: real, wq: real): real {
    -(nc * wc) - (ne * we) + q * wq
  }

  /** The score of an estimate within a pool: the larger the better. The pool
      matters to the weighted strategy only. */
  function Score(st: Strategy, pool: seq<Candidate>, e: Estimate): real
    requires st.Weighted? ==> pool != [] && AllAvailable(pool)
  {
    match st
    case Cheapest => -(e.costMinor as real)
    case Fastest => -(e.eta as real)
    case Weighted(_, _, _) =>
      WeightedScore(st, e, Least(Costs(pool)), Greatest(Costs(pool)), Least(ETAs(pool)), Greatest(ETAs(pool)))
  }

  /** The candidates a strategy's loop runs over. */
  function Pool(st: Strategy, cs: seq<Candidate>): seq<Candidate> {
    if st.Weighted? then FilterAvailable(cs) else cs
  }

  /** The loop `if best == nil || score > bestScore`, candidates without a key
      being skipped: the position of the first greatest key. */
  function BestIndex(keys: seq<Option<real>>): (k: Option<nat>)
    ensures k.Some? ==> k.value < |keys| && keys[k.value].Some?
  {
    if keys == [] then None
    else
      var best := BestIndex(keys[..|keys| - 1]);
      var key := keys[|keys| - 1];
      if key.None? then best
      else if best.None? || key.value > keys[best.value].value then Some(|keys| - 1)
      else best
  }

  lemma BestOfOneMore(keys: seq<Option<real>>, i: nat)
    requires i < |keys|
    ensures var best := BestIndex(keys[..i]);
      BestIndex(keys[..i + 1]) ==
        if keys[i].None? then best
        else if best.None? || keys[i].value > keys[best.value].value then Some(i)
        else best
  {
    assert keys[..i + 1][..i] == keys[..i];
  }

  lemma {:induction false} BestIsFirstGreatest(keys: seq<Option<real>>)
    ensures BestIndex(keys).None? <==> forall i :: 0 <= i < |keys| ==> keys[i].None?
    ensures BestIndex(keys).Some? ==>
      && (forall i :: 0 <= i < |keys| && keys[i].Some? ==> keys[i].value <= keys[BestIndex(keys).value].value)
      && (forall i :: 0 <= i < BestIndex(keys).value && keys[i].Some? ==>
            keys[i].value < keys[BestIndex(keys).value].value)
  {
    if keys != [] {
      BestIsFirstGreatest(keys[..|keys| - 1]);
    }
  }

  function Key(st: Strategy, pool: seq<Candidate>, c: Candidate): Option<real>
    requires st.Weighted? ==> pool != [] && AllAvailable(pool)
  {
    if c.Available() then Some(Score(st, pool, c.estimate.value)) else None
  }

  function Keys(st: Strategy, cs: seq<Candidate>): (keys: seq<Option<real>>)
    ensures |keys| == |Pool(st, cs)|
  {
    var pool := Pool(st, cs);
    if pool == [] then [] else seq(|pool|, i requires 0 <= i < |pool| => Key(st, pool, pool[i]))
  }

  /** `None` is ErrNoAvailableCandidate. */
  function Select(st: Strategy, cs: seq<Candidate>): Option<Selection> {
    match BestIndex(Keys(st, cs))
    case None => None
    case Some(k) => Some(Selection(Pool(st, cs)[k].carrier, Keys(st, cs)[k].value))
  }

  /** The estimate behind a selection. */
  function Chosen(st: Strategy, cs: seq<Candidate>): (c: Candidate)
    requires Select(st, cs).Some?
    ensures c in cs && c.Available() && c.carrier == Select(st, cs).value.carrier
  {
    var k := BestIndex(Keys(st, cs)).value;
    Pool(st, cs)[k]
  }

  /** A selection fails exactly when no candidate is available; otherwise its
      score is that of the chosen one and no available candidate scores higher. */
  lemma SelectIsGreatest(st: Strategy, cs: seq<Candidate>)
    ensures Select(st, cs).None? <==> forall c :: c in cs ==> !c.Available()
    ensures Select(st, cs).Some? ==>
      && Select(st, cs).value.score == Score(st, Pool(st, cs), Chosen(st, cs).estimate.value)
      && forall c :: c in cs && c.Available() ==>
           Score(st, Pool(st, cs), c.estimate.value) <= Select(st, cs).value.score
  {
    var pool, keys := Pool(st, cs), Keys(st, cs);
    BestIsFirstGreatest(keys);
    forall c | c in cs && c.Available()
      ensures Select(st, cs).Some? && Score(st, pool, c.estimate.value) <= Select(st, cs).value.score
    {
      assert c in pool;
      var i :| 0 <= i < |pool| && pool[i] == c;
      assert keys[i] == Some(Score(st, pool, c.estimate.value));
    }
  }

  // ----------------------------------------------------- cheapest and fastest

  /** The cheapest strategy picks a least cost, and its score is minus that cost. */
  lemma CheapestIsCheapest(cs: seq<Candidate>)
    requires Select(Cheapest, cs).Some?
    ensures Select(Cheapest, cs).value.score == -(Chosen(Cheapest, cs).estimate.value.costMinor as real)
    ensures forall c :: c in cs && c.Available() ==>
      Chosen(Cheapest, cs).estimate.value.costMinor <= c.estimate.value.costMinor
  {
    SelectIsGreatest(Cheapest, cs);
    forall c | c in cs && c.Available()
      ensures Chosen(Cheapest, cs).estimate.value.costMinor <= c.estimate.value.costMinor
    {
      assert Score(Cheapest, cs, c.estimate.value) <= Select(Cheapest, cs).value.score;
    }
  }

  lemma FastestIsFastest(cs: seq<Candidate>)
    requires Select(Fastest, cs).Some?
    ensures Select(Fastest, cs).value.score == -(Chosen(Fastest, cs).estimate.value.eta as real)
    ensures forall c :: c in cs && c.Available() ==>
      Chosen(Fastest, cs).estimate.value.eta <= c.estimate.value.eta
  {
    SelectIsGreatest(Fastest, cs);
    forall c | c in cs && c.Available()
      ensures Chosen(Fastest, cs).estimate.value.eta <= c.estimate.value.eta
    {
      assert Score(Fastest, cs, c.estimate.value) <= Select(Fastest, cs).value.score;
    }
  }

  // ----------------------------------------------------------------- weighted

  lemma DivideMonotone(x: real, y: real, d: real)
    requires d > 0.0 && x < y
    ensures x / d < y / d
  {
    assert (y / d - x / d) * d == y - x;
  }

  lemma NormalizeMonotone(v: real, w: real, mn: real, mx: real)
    requires mn <= v < w <= mx
    ensures Normalize(v, mn, mx) < Normalize(w, mn, mx)
  {
    DivideMonotone(v - mn, w - mn, mx - mn);
  }

  lemma NormalizeUnit(v: real, mn: real, mx: real)
    requires mn <= v <= mx
    ensures 0.0 <= Normalize(v, mn, mx) <= 1.0
  {
    if mn < mx {
      var q := (v - mn) / (mx - mn);
      assert q * (mx - mn) == v - mn;
    }
  }

  lemma PoolExtremes(pool: seq<Candidate>, c: Candidate)
    requires AllAvailable(pool) && c in pool
    ensures c.Available()
    ensures Least(Costs(pool)) <= c.estimate.value.costMinor <= Greatest(Costs(pool))
    ensures Least(ETAs(pool)) <= c.estimate.value.eta <= Greatest(ETAs(pool))
  {
    ExtremesBound(Costs(pool));
    ExtremesBound(ETAs(pool));
    var i :| 0 <= i < |pool| && pool[i] == c;
    assert Costs(pool)[i] in Costs(pool) && ETAs(pool)[i] in ETAs(pool);
  }

  /** At least as good on every axis and better on one. */
  predicate Dominates(a: Estimate, b: Estimate) {
    && a.costMinor <= b.costMinor && a.eta <= b.eta && a.confidence >= b.confidence
    && (a.costMinor < b.costMinor || a.eta < b.eta || a.confidence > b.confidence)
  }

  predicate PositiveWeights(st: Strategy) {
    st.Weighted? && st.costWeight > 0.0 && st.etaWeight > 0.0 && st.confidenceWeight > 0.0
  }

  lemma WeightedTerm(a: real, b: real, w: real)
    requires w > 0.0
    ensures a < b ==> a * w < b * w
    ensures a <= b ==> a * w <= b * w
  {}

  lemma DominatingScoresHigher(st: Strategy, pool: seq<Candidate>, a: Candidate, b: Candidate)
    requires PositiveWeights(st)
    requires AllAvailable(pool) && a in pool && b in pool
    requires Dominates(a.estimate.value, b.estimate.value)
    ensures Score(st, pool, a.estimate.value) > Score(st, pool, b.estimate.value)
  {
    PoolExtremes(pool, a);
    PoolExtremes(pool, b);
    DominatingWeighsMore(st, a.estimate.value, b.estimate.value,
                         Least(Costs(pool)), Greatest(Costs(pool)), Least(ETAs(pool)), Greatest(ETAs(pool)));
  }

  lemma DominatingWeighsMore(st: Strategy, x: Estimate, y: Estimate,
                             minCost: int, maxCost: int, minETA: int, maxETA: int)
    requires PositiveWeights(st) && Dominates(x, y)
    requires minCost <= x.costMinor && y.costMinor <= maxCost && minETA <= x.eta && y.eta <= maxETA
    ensures WeightedScore(st, x, minCost, maxCost, minETA, maxETA)
          > WeightedScore(st, y, minCost, maxCost, minETA, maxETA)
  {
    var cx := Normalize(x.costMinor as real, minCost as real, maxCost as real);
    var cy := Normalize(y.costMinor as real, minCost as real, maxCost as real);
    var ex := Normalize(x.eta as real, minETA as real, maxETA as real);
    var ey := Normalize(y.eta as real, minETA as real, maxETA as real);
    if x.costMinor < y.costMinor {
      NormalizeMonotone(x.costMinor as real, y.costMinor as real, minCost as real, maxCost as real);
    }
    if x.eta < y.eta {
      NormalizeMonotone(x.eta as real, y.eta as real, minETA as real, maxETA as real);
    }
    CombineMonotone(cx, ex, x.confidence, cy, ey, y.confidence, st.costWeight, st.etaWeight, st.confidenceWeight);
  }

  lemma CombineMonotone(nc: real, ne: real, q: real, nc': real, ne': real, q': real, wc: real, we: real, wq: real)
    requires wc > 0.0 && we > 0.0 && wq > 0.0
    requires nc <= nc' && ne <= ne' && q >= q'
    requires nc < nc' || ne < ne' || q > q'
    ensures Combine(nc, ne, q, wc, we, wq) > Combine(nc', ne', q', wc, we, wq)
  {
    WeightedTerm(nc, nc', wc);
    WeightedTerm(ne, ne', we);
    WeightedTerm(q', q, wq);
  }

  /** With positive weights the pick is Pareto optimal: no available candidate is
      at least as good in cost, ETA and confidence and better in one. */
  lemma WeightedPickIsParetoOptimal(st: Strategy, cs: seq<Candidate>)
    requires PositiveWeights(st) && Select(st, cs).Some?
    ensures forall c :: c in cs && c.Available() ==>
      !Dominates(c.estimate.value, Chosen(st, cs).estimate.value)
  {
    SelectIsGreatest(st, cs);
    var pool := Pool(st, cs);
    forall c | c in cs && c.Available() && Dominates(c.estimate.value, Chosen(st, cs).estimate.value)
      ensures false
    {
      DominatingScoresHigher(st, pool, c, Chosen(st, cs));
    }
  }

  /** With weights that are not negative and confidences in 0..1 the winning score
      lies between -(cost weight + ETA weight) and the confidence weight. */
  lemma WeightedScoreBounds(st: Strategy, cs: seq<Candidate>)
    requires st.Weighted? && st.costWeight >= 0.0 && st.etaWeight >= 0.0 && st.confidenceWeight >= 0.0
    requires forall c :: c in cs && c.Available() ==> 0.0 <= c.estimate.value.confidence <= 1.0
    requires Select(st, cs).Some?
    ensures -(st.costWeight + st.etaWeight) <= Select(st, cs).value.score <= st.confidenceWeight
  {
    SelectIsGreatest(st, cs);
    var pool, c := Pool(st, cs), Chosen(st, cs);
    PoolExtremes(pool, c);
    WeightedScoreWithin(st, c.estimate.value,
                        Least(Costs(pool)), Greatest(Costs(pool)), Least(ETAs(pool)), Greatest(ETAs(pool)));
  }

  lemma WeightedScoreWithin(st: Strategy, e: Estimate, minCost: int, maxCost: int, minETA: int, maxETA: int)
    requires st.Weighted? && st.costWeight >= 0.0 && st.etaWeight >= 0.0 && st.confidenceWeight >= 0.0
    requires minCost <= e.costMinor <= maxCost && minETA <= e.eta <= maxETA && 0.0 <= e.confidence <= 1.0
    ensures -(st.costWeight + st.etaWeight)
         <= WeightedScore(st, e, minCost, maxCost, minETA, maxETA)
         <= st.confidenceWeight
  {
    NormalizeUnit(e.costMinor as real, minCost as real, maxCost as real);
    NormalizeUnit(e.eta as real, minETA as real, maxETA as real);
    CombineWithin(Normalize(e.costMinor as real, minCost as real, maxCost as real),
                  Normalize(e.eta as real, minETA as real, maxETA as real),
                  e.confidence, st.costWeight, st.etaWeight, st.confidenceWeight);
  }

  lemma CombineWithin(nc: real, ne: real, q: real, wc: real, we: real, wq: real)
    requires wc >= 0.0 && we >= 0.0 && wq >= 0.0
    requires 0.0 <= nc <= 1.0 && 0.0 <= ne <= 1.0 && 0.0 <= q <= 1.0
    ensures -(wc + we) <= Combine(nc, ne, q, wc, we, wq) <= wq
  {
    UnitTerm(nc, wc);
    UnitTerm(ne, we);
    UnitTerm(q, wq);
    SumWithin(nc * wc, ne * we, q * wq, wc, we, wq);
  }

  lemma SumWithin(x: real, y: real, z: real, wc: real, we: real, wq: real)
    requires 0.0 <= x <= wc && 0.0 <= y <= we && 0.0 <= z <= wq
    ensures -(wc + we) <= -x - y + z <= wq
  {}

  lemma UnitTerm(x: real, w: real)
    requires 0.0 <= x <= 1.0 && 0.0 <= w
    ensures 0.0 <= x * w <= w
  {
    assert (1.0 - x) * w >= 0.0;
  }

  // ---------------------------------------------------------- the weighted sum

  /** The costs of the available candidates run from `min` to `max`. */
  ghost predicate CostRange(cs: seq<Candidate>, min: int, max: int) {
    && (exists c :: c in cs && c.Available() && c.estimate.value.costMinor == min)
    && (exists c :: c in cs && c.Available() && c.estimate.value.costMinor == max)
    && (forall c :: c in cs && c.Available() ==> min <= c.estimate.value.costMinor <= max)
  }

  ghost predicate ETARange(cs: seq<Candidate>, min: int, max: int) {
    && (exists c :: c in cs && c.Available() && c.estimate.value.eta == min)
    && (exists c :: c in cs && c.Available() && c.estimate.value.eta == max)
    && (forall c :: c in cs && c.Available() ==> min <= c.estimate.value.eta <= max)
  }

  /** The cost share and the ETA share, each between its extremes, against the
      confidence; an empty range has no share. */
  ghost function WeightedSum(st: Strategy, e: Estimate, minCost: int, maxCost: int, minETA: int, maxETA: int): real
    requires st.Weighted?
  {
    - (if minCost == maxCost then 0.0
       else st.costWeight * ((e.costMinor - minCost) as real / (maxCost - minCost) as real))
    - (if minETA == maxETA then 0.0
       else st.etaWeight * ((e.eta - minETA) as real / (maxETA - minETA) as real))
    + st.confidenceWeight * e.confidence
  }

  lemma WeightedSumIs(st: Strategy, e: Estimate, minCost: int, maxCost: int, minETA: int, maxETA: int)
    requires st.Weighted?
    ensures WeightedScore(st, e, minCost, maxCost, minETA, maxETA)
         == WeightedSum(st, e, minCost, maxCost, minETA, maxETA)
  {
    ShareIs(e.costMinor, minCost, maxCost, st.costWeight);
    ShareIs(e.eta, minETA, maxETA, st.etaWeight);
  }

  lemma ShareIs(v: int, mn: int, mx: int, weight: real)
    ensures Normalize(v as real, mn as real, mx as real) * weight
         == if mn == mx then 0.0 else weight * ((v - mn) as real / (mx - mn) as real)
  {
    assert v as real - mn as real == (v - mn) as real && mx as real - mn as real == (mx - mn) as real;
  }

  lemma RangesAreExtremes(cs: seq<Candidate>, minCost: int, maxCost: int, minETA: int, maxETA: int)
    requires CostRange(cs, minCost, maxCost) && ETARange(cs, minETA, maxETA)
    ensures var pool := FilterAvailable(cs);
      && pool != []
      && Least(Costs(pool)) == minCost && Greatest(Costs(pool)) == maxCost
      && Least(ETAs(pool)) == minETA && Greatest(ETAs(pool)) == maxETA
  {
    var pool := FilterAvailable(cs);
    var c :| c in cs && c.Available();
    assert c in pool;
    ExtremesBound(Costs(pool));
    ExtremesBound(ETAs(pool));
    CostsMembers(pool, minCost);
    CostsMembers(pool, maxCost);
    CostsMembers(pool, Least(Costs(pool)));
    CostsMembers(pool, Greatest(Costs(pool)));
    ETAsMembers(pool, minETA);
    ETAsMembers(pool, maxETA);
    ETAsMembers(pool, Least(ETAs(pool)));
    ETAsMembers(pool, Greatest(ETAs(pool)));
  }

  lemma RangesExist(cs: seq<Candidate>) returns (minCost: int, maxCost: int, minETA: int, maxETA: int)
    requires exists c :: c in cs && c.Available()
    ensures CostRange(cs, minCost, maxCost) && ETARange(cs, minETA, maxETA)
  {
    var pool := FilterAvailable(cs);
    var c :| c in cs && c.Available();
    assert c in pool;
    minCost, maxCost := Least(Costs(pool)), Greatest(Costs(pool));
    minETA, maxETA := Least(ETAs(pool)), Greatest(ETAs(pool));
    ExtremesBound(Costs(pool));
    ExtremesBound(ETAs(pool));
    CostsMembers(pool, minCost);
    CostsMembers(pool, maxCost);
    ETAsMembers(pool, minETA);
    ETAsMembers(pool, maxETA);
    forall c | c in cs && c.Available()
      ensures minCost <= c.estimate.value.costMinor <= maxCost && minETA <= c.estimate.value.eta <= maxETA
    {
      assert c in pool;
      PoolExtremes(pool, c);
    }
  }

  /** The weighted pick has the greatest weighted sum of all available candidates,
      and that is its score. */
  lemma WeightedPickHasGreatestSum(st: Strategy, cs: seq<Candidate>, minCost: int, maxCost: int,
                                   minETA: int, maxETA: int)
    requires st.Weighted? && Select(st, cs).Some?
    requires CostRange(cs, minCost, maxCost) && ETARange(cs, minETA, maxETA)
    ensures var best := Select(st, cs).value;
      && (exists c :: c in cs && c.Available() && c.carrier == best.carrier
            && WeightedSum(st, c.estimate.value, minCost, maxCost, minETA, maxETA) == best.score)
      && (forall c :: c in cs && c.Available() ==>
            WeightedSum(st, c.estimate.value, minCost, maxCost, minETA, maxETA) <= best.score)
  {
    SelectIsGreatest(st, cs);
    RangesAreExtremes(cs, minCost, maxCost, minETA, maxETA);
    WeightedSumIs(st, Chosen(st, cs).estimate.value, minCost, maxCost, minETA, maxETA);
    forall c | c in cs && c.Available()
      ensures WeightedSum(st, c.estimate.value, minCost, maxCost, minETA, maxETA) <= Select(st, cs).value.score
    {
      WeightedSumIs(st, c.estimate.value, minCost, maxCost, minETA, maxETA);
    }
  }

  // ----------------------------------------------------------- unit invariance

  predicate AffineTo(y: int, x: int, a: real, b: real) {
    y as real == a * (x as real) + b
  }

  /** One candidate seen in other units: its cost went through one positive
      affine map and its ETA through another. */
  ghost predicate RescaledOne(c: Candidate, d: Candidate, a: real, b: real, p: real, q: real) {
    && d.carrier == c.carrier
    && d.Available() == c.Available()
    && (c.Available() ==>
          && AffineTo(d.estimate.value.costMinor, c.estimate.value.costMinor, a, b)
          && AffineTo(d.estimate.value.eta, c.estimate.value.eta, p, q)
          && d.estimate.value.confidence == c.estimate.value.confidence)
  }

  ghost predicate Rescaled(cs: seq<Candidate>, ds: seq<Candidate>, a: real, b: real, p: real, q: real) {
    && a > 0.0 && p > 0.0
    && |cs| == |ds|
    && forall i :: 0 <= i < |cs| ==> RescaledOne(cs[i], ds[i], a, b, p, q)
  }

  lemma {:induction false} FilterAligned(cs: seq<Candidate>, ds: seq<Candidate>,
                                         related: (Candidate, Candidate) -> bool)
    requires |cs| == |ds|
    requires forall i :: 0 <= i < |cs| ==> related(cs[i], ds[i]) && cs[i].Available() == ds[i].Available()
    ensures |FilterAvailable(cs)| == |FilterAvailable(ds)|
    ensures forall i :: 0 <= i < |FilterAvailable(cs)| ==> related(FilterAvailable(cs)[i], FilterAvailable(ds)[i])
  {
    if cs != [] {
      FilterAligned(cs[..|cs| - 1], ds[..|ds| - 1], related);
    }
  }

  lemma FilterRescaled(cs: seq<Candidate>, ds: seq<Candidate>, a: real, b: real, p: real, q: real)
    requires Rescaled(cs, ds, a, b, p, q)
    ensures Rescaled(FilterAvailable(cs), FilterAvailable(ds), a, b, p, q)
  {
    FilterAligned(cs, ds, (c, d) => RescaledOne(c, d, a, b, p, q));
  }

  /** Lists ordered alike have their extremes at the same places. */
  lemma {:induction false} ExtremesAligned(xs: seq<int>, ys: seq<int>) returns (lo: nat, hi: nat)
    requires xs != [] && |xs| == |ys|
    requires forall i, j :: 0 <= i < |xs| && 0 <= j < |xs| ==> (xs[i] < xs[j] <==> ys[i] < ys[j])
    ensures lo < |xs| && Least(xs) == xs[lo] && Least(ys) == ys[lo]
    ensures hi < |xs| && Greatest(xs) == xs[hi] && Greatest(ys) == ys[hi]
  {
    var n := |xs| - 1;
    lo, hi := n, n;
    if n > 0 {
      var l, h := ExtremesAligned(xs[..n], ys[..n]);
      lo := if xs[n] < xs[l] then n else l;
      hi := if xs[n] > xs[h] then n else h;
    }
  }

  lemma ExtremesAffine(xs: seq<int>, ys: seq<int>, a: real, b: real)
    requires a > 0.0 && xs != [] && |xs| == |ys|
    requires forall i :: 0 <= i < |xs| ==> AffineTo(ys[i], xs[i], a, b)
    ensures AffineTo(Least(ys), Least(xs), a, b) && AffineTo(Greatest(ys), Greatest(xs), a, b)
  {
    forall i, j | 0 <= i < |xs| && 0 <= j < |xs| ensures xs[i] < xs[j] <==> ys[i] < ys[j] {
      AffineOrder(xs[i], xs[j], ys[i], ys[j], a, b);
    }
    var lo, hi := ExtremesAligned(xs, ys);
  }

  lemma AffineOrder(x: int, y: int, fx: int, fy: int, a: real, b: real)
    requires a > 0.0 && AffineTo(fx, x, a, b) && AffineTo(fy, y, a, b)
    ensures x < y <==> fx < fy
  {
    assert fy as real - fx as real == a * (y as real - x as real);
    if x < y {
      WeightedTerm(0.0, y as real - x as real, a);
    } else {
      WeightedTerm(y as real - x as real, 0.0, a);
    }
  }

  lemma NormalizeAffine(v: real, mn: real, mx: real, a: real, b: real)
    requires a > 0.0
    ensures Normalize(a * v + b, a * mn + b, a * mx + b) == Normalize(v, mn, mx)
  {
    var d := mx - mn;
    assert (a * mx + b) - (a * mn + b) == a * d;
    assert (a * v + b) - (a * mn + b) == a * (v - mn);
    if d != 0.0 {
      NonZeroProduct(a, d);
      var x := (v - mn) / d;
      assert x * d == v - mn;
      assert x * (a * d) == a * (x * d);
      QuotientUnique(a * (v - mn), a * d, x);
    } else {
      assert a * d == 0.0;
    }
  }

  lemma NonZeroProduct(a: real, d: real)
    requires a > 0.0 && d != 0.0
    ensures a * d != 0.0
  {}

  lemma QuotientUnique(n: real, d: real, x: real)
    requires d != 0.0 && x * d == n
    ensures n / d == x
  {}

  lemma ScoreRescaled(st: Strategy, cs: seq<Candidate>, ds: seq<Candidate>, a: real, b: real, p: real, q: real, i: nat)
    requires st.Weighted? && Rescaled(cs, ds, a, b, p, q) && i < |cs|
    requires AllAvailable(cs) && AllAvailable(ds)
    ensures Score(st, ds, ds[i].estimate.value) == Score(st, cs, cs[i].estimate.value)
  {
    var e, f := cs[i].estimate.value, ds[i].estimate.value;
    CostsRescaled(cs, ds, a, b, p, q);
    assert RescaledOne(cs[i], ds[i], a, b, p, q);
    ExtremesAffine(Costs(cs), Costs(ds), a, b);
    ExtremesAffine(ETAs(cs), ETAs(ds), p, q);
    WeightedScoreAffine(st, e, f, Least(Costs(cs)), Greatest(Costs(cs)), Least(ETAs(cs)), Greatest(ETAs(cs)),
                        Least(Costs(ds)), Greatest(Costs(ds)), Least(ETAs(ds)), Greatest(ETAs(ds)), a, b, p, q);
  }

  lemma CostsRescaled(cs: seq<Candidate>, ds: seq<Candidate>, a: real, b: real, p: real, q: real)
    requires Rescaled(cs, ds, a, b, p, q) && AllAvailable(cs) && AllAvailable(ds)
    ensures forall i :: 0 <= i < |cs| ==> AffineTo(Costs(ds)[i], Costs(cs)[i], a, b)
    ensures forall i :: 0 <= i < |cs| ==> AffineTo(ETAs(ds)[i], ETAs(cs)[i], p, q)
  {
    forall i | 0 <= i < |cs|
      ensures AffineTo(Costs(ds)[i], Costs(cs)[i], a, b)
      ensures AffineTo(ETAs(ds)[i], ETAs(cs)[i], p, q)
    {
      assert RescaledOne(cs[i], ds[i], a, b, p, q);
    }
  }

  lemma WeightedScoreAffine(st: Strategy, e: Estimate, f: Estimate,
                            lc: int, hc: int, le: int, he: int, lc': int, hc': int, le': int, he': int,
                            a: real, b: real, p: real, q: real)
    requires st.Weighted? && a > 0.0 && p > 0.0 && f.confidence == e.confidence
    requires AffineTo(f.costMinor, e.costMinor, a, b) && AffineTo(f.eta, e.eta, p, q)
    requires AffineTo(lc', lc, a, b) && AffineTo(hc', hc, a, b)
    requires AffineTo(le', le, p, q) && AffineTo(he', he, p, q)
    ensures WeightedScore(st, f, lc', hc', le', he') == WeightedScore(st, e, lc, hc, le, he)
  {
    NormalizeAffineTo(f.costMinor, lc', hc', e.costMinor, lc, hc, a, b);
    NormalizeAffineTo(f.eta, le', he', e.eta, le, he, p, q);
  }

  lemma NormalizeAffineTo(v': int, mn': int, mx': int, v: int, mn: int, mx: int, a: real, b: real)
    requires a > 0.0 && AffineTo(v', v, a, b) && AffineTo(mn', mn, a, b) && AffineTo(mx', mx, a, b)
    ensures Normalize(v' as real, mn' as real, mx' as real) == Normalize(v as real, mn as real, mx as real)
  {
    NormalizeAffine(v as real, mn as real, mx as real, a, b);
  }

  /** The weighted pick and its score do not depend on the units: rescaling all
      costs and all ETAs changes neither. */
  lemma WeightedIgnoresUnits(st: Strategy, cs: seq<Candidate>, ds: seq<Candidate>, a: real, b: real, p: real, q: real)
    requires st.Weighted? && Rescaled(cs, ds, a, b, p, q)
    ensures Select(st, ds) == Select(st, cs)
  {
    FilterRescaled(cs, ds, a, b, p, q);
    var xs, ys := Pool(st, cs), Pool(st, ds);
    forall i | 0 <= i < |xs| ensures Keys(st, ds)[i] == Keys(st, cs)[i] {
      assert xs[i] in xs && ys[i] in ys;
      ScoreRescaled(st, xs, ys, a, b, p, q, i);
    }
    assert Keys(st, ds) == Keys(st, cs);
  }

  // -------------------------------------------------------- order independence

  lemma ExtremesOfSameMembers(xs: seq<int>, ys: seq<int>)
    requires xs != [] && ys != [] && forall x :: x in xs <==> x in ys
    ensures Least(xs) == Least(ys) && Greatest(xs) == Greatest(ys)
  {
    ExtremesBound(xs);
    ExtremesBound(ys);
  }

  ghost predicate SameMembers<T(!new)>(xs: seq<T>, ys: seq<T>) {
    forall x :: x in xs <==> x in ys
  }

  lemma ExtremesOfSamePool(xs: seq<Candidate>, ys: seq<Candidate>)
    requires SameMembers(xs, ys) && xs != [] && ys != [] && AllAvailable(xs) && AllAvailable(ys)
    ensures Least(Costs(xs)) == Least(Costs(ys)) && Greatest(Costs(xs)) == Greatest(Costs(ys))
    ensures Least(ETAs(xs)) == Least(ETAs(ys)) && Greatest(ETAs(xs)) == Greatest(ETAs(ys))
  {
    forall x ensures x in Costs(xs) <==> x in Costs(ys) {
      CostsMembers(xs, x);
      CostsMembers(ys, x);
    }
    forall x ensures x in ETAs(xs) <==> x in ETAs(ys) {
      ETAsMembers(xs, x);
      ETAsMembers(ys, x);
    }
    ExtremesOfSameMembers(Costs(xs), Costs(ys));
    ExtremesOfSameMembers(ETAs(xs), ETAs(ys));
  }

  lemma ScoreOfSameMembers(st: Strategy, cs: seq<Candidate>, ds: seq<Candidate>, e: Estimate)
    requires SameMembers(cs, ds)
    requires st.Weighted? ==> Pool(st, cs) != []
    ensures st.Weighted? ==> Pool(st, ds) != []
    ensures Score(st, Pool(st, cs), e) == Score(st, Pool(st, ds), e)
  {
    if st.Weighted? {
      assert Pool(st, cs)[0] in Pool(st, ds);
      ExtremesOfSamePool(Pool(st, cs), Pool(st, ds));
    }
  }

  lemma CostsMembers(cs: seq<Candidate>, x: int)
    requires AllAvailable(cs)
    ensures x in Costs(cs) <==> exists c :: c in cs && c.Available() && c.estimate.value.costMinor == x
  {
    if c :| c in cs && c.Available() && c.estimate.value.costMinor == x {
      var i :| 0 <= i < |cs| && cs[i] == c;
      assert Costs(cs)[i] == x;
    }
    if x in Costs(cs) {
      var i :| 0 <= i < |cs| && Costs(cs)[i] == x;
      assert cs[i] in cs;
    }
  }

  lemma ETAsMembers(cs: seq<Candidate>, x: int)
    requires AllAvailable(cs)
    ensures x in ETAs(cs) <==> exists c :: c in cs && c.Available() && c.estimate.value.eta == x
  {
    if c :| c in cs && c.Available() && c.estimate.value.eta == x {
      var i :| 0 <= i < |cs| && cs[i] == c;
      assert ETAs(cs)[i] == x;
    }
    if x in ETAs(cs) {
      var i :| 0 <= i < |cs| && ETAs(cs)[i] == x;
      assert cs[i] in cs;
    }
  }

  /** The order of the candidates decides between equal scores only: whether a
      selection succeeds and the score it reaches do not depend on it. */
  lemma SelectIgnoresOrder(st: Strategy, cs: seq<Candidate>, ds: seq<Candidate>)
    requires SameMembers(cs, ds)
    ensures Select(st, cs).Some? == Select(st, ds).Some?
    ensures Select(st, cs).Some? ==> Select(st, cs).value.score == Select(st, ds).value.score
  {
    SelectIsGreatest(st, cs);
    SelectIsGreatest(st, ds);
    if Select(st, cs).Some? && Select(st, ds).Some? {
      var c, d := Chosen(st, cs), Chosen(st, ds);
      assert c in Pool(st, cs) && d in Pool(st, ds);
      ScoreOfSameMembers(st, cs, ds, c.estimate.value);
      ScoreOfSameMembers(st, cs, ds, d.estimate.value);
    }
  }

  // ----------------------------------------------------------------- the loops

  method SelectCheapest(cs: seq<Candidate>) returns (r: Option<Selection>)
    ensures r == Select(Cheapest, cs)
  {
    ghost var keys := Keys(Cheapest, cs);
    var best: Option<nat> := None;
    for i := 0 to |cs|
      invariant best == BestIndex(keys[..i])
    {
      BestOfOneMore(keys, i);
      var c := cs[i];
      if c.Available() {
        if best.None? || c.estimate.value.costMinor < cs[best.value].estimate.value.costMinor {
          best := Some(i);
        }
      }
    }
    assert keys[..|cs|] == keys;
    if best.None? {
      return None;
    }
    var b := cs[best.value];
    return Some(Selection(b.carrier, -(b.estimate.value.costMinor as real)));
  }

  method SelectFastest(cs: seq<Candidate>) returns (r: Option<Selection>)
    ensures r == Select(Fastest, cs)
  {
    ghost var keys := Keys(Fastest, cs);
    var best: Option<nat> := None;
    for i := 0 to |cs|
      invariant best == BestIndex(keys[..i])
    {
      BestOfOneMore(keys, i);
      var c := cs[i];
      if c.Available() {
        if best.None? || c.estimate.value.eta < cs[best.value].estimate.value.eta {
          best := Some(i);
        }
      }
    }
    assert keys[..|cs|] == keys;
    if best.None? {
      return None;
    }
    var b := cs[best.value];
    return Some(Selection(b.carrier, -(b.estimate.value.eta as real)));
  }

  method FilterAvailableLoop(cs: seq<Candidate>) returns (out: seq<Candidate>)
    ensures out == FilterAvailable(cs)
  {
    out := [];
    for i := 0 to |cs|
      invariant out == FilterAvailable(cs[..i])
    {
      assert cs[..i + 1][..i] == cs[..i];
      if cs[i].Available() {
        out := out + [cs[i]];
      }
    }
    assert cs[..|cs|] == cs;
  }

  method MinMaxCost(cs: seq<Candidate>) returns (mn: int, mx: int)
    requires cs != [] && AllAvailable(cs)
    ensures mn == Least(Costs(cs)) && mx == Greatest(Costs(cs))
  {
    ghost var xs := Costs(cs);
    mn := cs[0].estimate.value.costMinor;
    mx := mn;
    for i := 1 to |cs|
      invariant mn == Least(xs[..i]) && mx == Greatest(xs[..i])
    {
      assert xs[..i + 1][..i] == xs[..i];
      var v := cs[i].estimate.value.costMinor;
      if v < mn {
        mn := v;
      }
      if v > mx {
        mx := v;
      }
    }
    assert xs[..|cs|] == xs;
  }

  method MinMaxETA(cs: seq<Candidate>) returns (mn: int, mx: int)
    requires cs != [] && AllAvailable(cs)
    ensures mn == Least(ETAs(cs)) && mx == Greatest(ETAs(cs))
  {
    ghost var xs := ETAs(cs);
    mn := cs[0].estimate.value.eta;
    mx := mn;
    for i := 1 to |cs|
      invariant mn == Least(xs[..i]) && mx == Greatest(xs[..i])
    {
      assert xs[..i + 1][..i] == xs[..i];
      var v := cs[i].estimate.value.eta;
      if v < mn {
        mn := v;
      }
      if v > mx {
        mx := v;
      }
    }
    assert xs[..|cs|] == xs;
  }

  /** The score of one available candidate is its key. */
  method WeighCandidate(st: Strategy, ghost cs: seq<Candidate>, avail: seq<Candidate>, i: nat,
                        minCost: int, maxCost: int, minETA: int, maxETA: int) returns (score: real)
    requires st.Weighted? && avail == FilterAvailable(cs) && i < |avail|
    requires minCost == Least(Costs(avail)) && maxCost == Greatest(Costs(avail))
    requires minETA == Least(ETAs(avail)) && maxETA == Greatest(ETAs(avail))
    ensures Keys(st, cs)[i] == Some(score)
  {
    var e := avail[i].estimate.value;
    var nc := Normalize(e.costMinor as real, minCost as real, maxCost as real);
    var ne := Normalize(e.eta as real, minETA as real, maxETA as real);
    score := Combine(nc, ne, e.confidence, st.costWeight, st.etaWeight, st.confidenceWeight);
    assert score == WeightedScore(st, e, minCost, maxCost, minETA, maxETA);
  }

  method SelectWeighted(st: Strategy, cs: seq<Candidate>) returns (r: Option<Selection>)
    requires st.Weighted?
    ensures r == Select(st, cs)
  {
    var avail := FilterAvailableLoop(cs);
    if |avail| == 0 {
      return None;
    }
    var minCost, maxCost := MinMaxCost(avail);
    var minETA, maxETA := MinMaxETA(avail);
    ghost var keys := Keys(st, cs);
    var best: Option<nat> := None;
    var bestScore := -1.0;
    for i := 0 to |avail|
      invariant best == BestIndex(keys[..i])
      invariant i > 0 ==> best.Some? && keys[best.value] == Some(bestScore)
    {
      BestOfOneMore(keys, i);
      var score := WeighCandidate(st, cs, avail, i, minCost, maxCost, minETA, maxETA);
      if best.None? || score > bestScore {
        best := Some(i);
        bestScore := score;
      }
    }
    assert keys[..|avail|] == keys;
    return Some(Selection(avail[best.value].carrier, bestScore));
  }

  /** Dispatch on the `Strategy` interface. */
  method RunStrategy(st: Strategy, cs: seq<Candidate>) returns (r: Option<Selection>)
    ensures r == Select(st, cs)
  {
    match st
    case Cheapest => r := SelectCheapest(cs);
    case Fastest => r := SelectFastest(cs);
    case Weighted(_, _, _) => r := SelectWeighted(st, cs);
  }
}
