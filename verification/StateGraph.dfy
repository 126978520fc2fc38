/** The per-leg state graph (internal/core/delivery/state.go) and what every walk
    through it must look like. */
module StateGraph {

  datatype State =
    | Pending
    | Assigned
    | EnRoutePickup
    | PickedUp
    | InTransit
    | EnRouteDrop
    | Delivered
    | Failed
    | Cancelled
    | ReturnedToOrigin

  function AllowedFrom(s: State): set<State> {
    match s
    case Pending => {Assigned, Cancelled}
    case Assigned => {EnRoutePickup, Cancelled, Failed}
    case EnRoutePickup => {PickedUp, Failed, Cancelled}
    case PickedUp => {InTransit, EnRouteDrop, Failed, ReturnedToOrigin}
    case InTransit => {EnRouteDrop, Failed, ReturnedToOrigin, Delivered}
    case EnRouteDrop => {Delivered, Failed, ReturnedToOrigin}
    case Failed => {ReturnedToOrigin, Assigned}
    case Delivered => {}
    case Cancelled => {}
    case ReturnedToOrigin => {}
  }

  predicate CanTransition(s: State, to: State) {
    to in AllowedFrom(s)
  }

  /** The twenty-one edges, one by one. */
  lemma EdgesAre(s: State, t: State)
    ensures CanTransition(s, t) <==> (s, t) in {
      (Pending, Assigned), (Pending, Cancelled),
      (Assigned, EnRoutePickup), (Assigned, Cancelled), (Assigned, Failed),
      (EnRoutePickup, PickedUp), (EnRoutePickup, Failed), (EnRoutePickup, Cancelled),
      (PickedUp, InTransit), (PickedUp, EnRouteDrop), (PickedUp, Failed), (PickedUp, ReturnedToOrigin),
      (InTransit, EnRouteDrop), (InTransit, Failed), (InTransit, ReturnedToOrigin), (InTransit, Delivered),
      (EnRouteDrop, Delivered), (EnRouteDrop, Failed), (EnRouteDrop, ReturnedToOrigin),
      (Failed, ReturnedToOrigin), (Failed, Assigned)}
  {}

  predicate IsTerminal(s: State) {
    s == Delivered || s == Cancelled || s == ReturnedToOrigin
  }

  /** A state is terminal exactly when no edge leaves it; no edge enters
      `Pending`, and no state has an edge to itself. */
  lemma GraphShape(s: State)
    ensures IsTerminal(s) <==> forall t :: !CanTransition(s, t)
    ensures !CanTransition(s, Pending) && !CanTransition(s, s)
  {
    if !IsTerminal(s) {
      assert CanTransition(s, Assigned) || CanTransition(s, Failed);
    }
  }

  // --------------------------------------------------------------------- walks

  /** The states a delivery goes through, oldest first. */
  ghost predicate IsWalk(p: seq<State>) {
    && p != []
    && forall i :: 0 <= i < |p| - 1 ==> CanTransition(p[i], p[i + 1])
  }

  function RetryStep(s: State, t: State): nat {
    if s == Failed && t == Assigned then 1 else 0
  }

  /** How often a failed delivery was assigned again. */
  function Retries(p: seq<State>): nat {
    if |p| < 2 then 0
    else
      Retries(p[..|p| - 1]) + RetryStep(p[|p| - 2], p[|p| - 1])
  }

  /** The most transitions an attempt can have made when it is in a state. */
  function Depth(s: State): nat {
    match s
    case Pending => 0
    case Assigned => 1
    case EnRoutePickup => 2
    case PickedUp => 3
    case InTransit => 4
    case EnRouteDrop => 5
    case Delivered => 6
    case Failed => 6
    case Cancelled => 3
    case ReturnedToOrigin => 7
  }

  lemma DepthStep(s: State, t: State)
    requires CanTransition(s, t)
    ensures Depth(s) + 1 <= Depth(t) + 6 * RetryStep(s, t)
  {}

  lemma {:induction false} WalkLengthByDepth(p: seq<State>)
    requires IsWalk(p) && p[0] == Pending
    ensures |p| - 1 <= 6 * Retries(p) + Depth(p[|p| - 1])
  {
    if |p| > 1 {
      WalkLengthByDepth(p[..|p| - 1]);
      DepthStep(p[|p| - 2], p[|p| - 1]);
    }
  }

  /** With k retries a delivery makes at most 6k + 7 transitions. */
  lemma WalkLengthBound(p: seq<State>)
    requires IsWalk(p) && p[0] == Pending
    ensures |p| - 1 <= 6 * Retries(p) + 7
  {
    WalkLengthByDepth(p);
  }

  const LONGEST_ATTEMPT: seq<State> := [Assigned, EnRoutePickup, PickedUp, InTransit, EnRouteDrop, Failed]

  function FailedAttempts(k: nat): seq<State> {
    if k == 0 then [Pending] else FailedAttempts(k - 1) + LONGEST_ATTEMPT
  }

  lemma {:induction false} WalkSnoc(p: seq<State>, s: State)
    requires IsWalk(p) && CanTransition(p[|p| - 1], s)
    ensures IsWalk(p + [s])
    ensures Retries(p + [s]) == Retries(p) + RetryStep(p[|p| - 1], s)
  {
    assert (p + [s])[..|p|] == p;
  }

  lemma {:induction false} WalkConcat(p: seq<State>, q: seq<State>)
    requires IsWalk(p) && IsWalk(q) && CanTransition(p[|p| - 1], q[0])
    ensures IsWalk(p + q)
    ensures Retries(p + q) == Retries(p) + RetryStep(p[|p| - 1], q[0]) + Retries(q)
    decreases |q|
  {
    if |q| == 1 {
      assert q == [q[0]];
      WalkSnoc(p, q[0]);
    } else {
      var init := q[..|q| - 1];
      WalkConcat(p, init);
      assert CanTransition(q[|q| - 2], q[|q| - 1]);
      WalkSnoc(p + init, q[|q| - 1]);
      assert p + q == (p + init) + [q[|q| - 1]];
    }
  }

  lemma {:induction false} NoRetryWithinAttempt(p: seq<State>)
    requires forall i :: 1 <= i < |p| ==> p[i] != Assigned
    ensures Retries(p) == 0
  {
    if |p| >= 2 {
      NoRetryWithinAttempt(p[..|p| - 1]);
    }
  }

  lemma {:induction false} FailedAttemptsWalk(k: nat)
    requires k >= 1
    ensures var p := FailedAttempts(k);
      IsWalk(p) && p[0] == Pending && p[|p| - 1] == Failed && Retries(p) == k - 1 && |p| == 6 * k + 1
  {
    if k > 1 {
      FailedAttemptsWalk(k - 1);
    }
    NoRetryWithinAttempt(LONGEST_ATTEMPT);
    WalkConcat(FailedAttempts(k - 1), LONGEST_ATTEMPT);
  }

  /** The bound is reached for every k: it cannot be improved. */
  lemma WalkLengthTight(k: nat)
    ensures exists p: seq<State> ::
      IsWalk(p) && p[0] == Pending && Retries(p) == k && |p| - 1 == 6 * k + 7
  {
    var p := FailedAttempts(k + 1);
    FailedAttemptsWalk(k + 1);
    WalkSnoc(p, ReturnedToOrigin);
    var q := p + [ReturnedToOrigin];
    assert IsWalk(q) && q[0] == Pending && Retries(q) == k && |q| - 1 == 6 * k + 7;
  }

  // ------------------------------------------------------------- last attempts

  /** The part of a walk since it last became assigned; the whole of it if it
      never was. */
  function LastAttempt(p: seq<State>): seq<State>
    requires p != []
  {
    var s := p[|p| - 1];
    if |p| == 1 || s == Assigned then [s] else LastAttempt(p[..|p| - 1]) + [s]
  }

  lemma {:induction false} AttemptShape(p: seq<State>)
    requires IsWalk(p) && p[0] == Pending
    ensures var a := LastAttempt(p);
      match p[|p| - 1]
      case Pending => a == [Pending]
      case Assigned => a == [Assigned]
      case EnRoutePickup => a == [Assigned, EnRoutePickup]
      case PickedUp => a == [Assigned, EnRoutePickup, PickedUp]
      case InTransit => a == [Assigned, EnRoutePickup, PickedUp, InTransit]
      case EnRouteDrop => a in {[Assigned, EnRoutePickup, PickedUp, EnRouteDrop],
                                [Assigned, EnRoutePickup, PickedUp, InTransit, EnRouteDrop]}
      case Delivered => a in {[Assigned, EnRoutePickup, PickedUp, InTransit, Delivered],
                              [Assigned, EnRoutePickup, PickedUp, EnRouteDrop, Delivered],
                              [Assigned, EnRoutePickup, PickedUp, InTransit, EnRouteDrop, Delivered]}
      case Cancelled => a in {[Pending, Cancelled], [Assigned, Cancelled], [Assigned, EnRoutePickup, Cancelled]}
      case _ => true
  {
    if |p| > 1 {
      assert CanTransition(p[|p| - 2], p[|p| - 1]);
      AttemptShape(p[..|p| - 1]);
      var s := p[|p| - 1];
      assert [Assigned, EnRoutePickup, PickedUp] + [s] == [Assigned, EnRoutePickup, PickedUp, s];
      assert [Assigned, EnRoutePickup, PickedUp, InTransit] + [s] == [Assigned, EnRoutePickup, PickedUp, InTransit, s];
      assert [Assigned, EnRoutePickup, PickedUp, EnRouteDrop] + [s]
          == [Assigned, EnRoutePickup, PickedUp, EnRouteDrop, s];
      assert [Assigned, EnRoutePickup, PickedUp, InTransit, EnRouteDrop] + [s]
          == [Assigned, EnRoutePickup, PickedUp, InTransit, EnRouteDrop, s];
      assert [Pending] + [s] == [Pending, s] && [Assigned] + [s] == [Assigned, s];
      assert [Assigned, EnRoutePickup] + [s] == [Assigned, EnRoutePickup, s];
    }
  }

  /** A delivered leg went from its last assignment through the locker and the
      pickup to the drop, in one of exactly three ways. */
  lemma DeliveredAttempt(p: seq<State>)
    requires IsWalk(p) && p[0] == Pending && p[|p| - 1] == Delivered
    ensures LastAttempt(p) in {
      [Assigned, EnRoutePickup, PickedUp, InTransit, Delivered],
      [Assigned, EnRoutePickup, PickedUp, EnRouteDrop, Delivered],
      [Assigned, EnRoutePickup, PickedUp, InTransit, EnRouteDrop, Delivered]}
  {
    AttemptShape(p);
  }

  /** A cancelled leg was not picked up since it last became assigned. */
  lemma CancelledAttempt(p: seq<State>)
    requires IsWalk(p) && p[0] == Pending && p[|p| - 1] == Cancelled
    ensures PickedUp !in LastAttempt(p)
    ensures LastAttempt(p) in {[Pending, Cancelled], [Assigned, Cancelled], [Assigned, EnRoutePickup, Cancelled]}
  {
    AttemptShape(p);
  }
}
