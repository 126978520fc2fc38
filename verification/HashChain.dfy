/** The hash chain: how an event is sealed to its predecessor and how `Verify`
    replays a delivery's list (internal/core/custody/ledger.go). */
module HashChain {
  import opened Common
  import opened Events
  import opened Encoding
  import Hex

  const GENESIS_LABEL := Ascii("dashfetchr:custody:genesis:v1")

  function Genesis(env: Env): bytes {
    Hex.Encode(env.sha(GENESIS_LABEL))
  }

  function PayloadOf(e: Event): Payload {
    Payload(
      e.eventID, e.deliveryID, e.kind, e.occurredAt / 1_000_000,
      if e.carrierTime.Some? then Some(e.carrierTime.value / 1_000_000) else None,
      e.actor, e.location, e.PhotoList(), e.signature, e.reason, e.metadata)
  }

  /** The bytes fed to SHA-256. */
  function Preimage(prevHash: bytes, body: bytes): bytes {
    prevHash + [Hex.DELIMITER] + body
  }

  function ComputeHash(env: Env, e: Event): Option<bytes> {
    match env.marshal(PayloadOf(e))
    case None => None
    case Some(body) => Some(Hex.Encode(env.sha(Preimage(e.prevHash, body))))
  }

  /** The preimage of an event whose payload marshals. */
  function PreimageOf(env: Env, e: Event): bytes {
    match env.marshal(PayloadOf(e))
    case None => []
    case Some(body) => Preimage(e.prevHash, body)
  }

  /** What the next event must carry as its prev-hash. */
  function Head(env: Env, es: seq<Event>): bytes {
    if es == [] then Genesis(env) else es[|es| - 1].hash
  }

  /** Fills in what `Record` assigns; `None` when the payload does not marshal. */
  function Seal(env: Env, e: Event, tail: Option<Event>, eventID: Id): (r: Option<Event>)
    ensures r.Some? <==> env.marshal(PayloadOf(e).(eventID := eventID)).Some?
    ensures r.Some? ==> r.value == e.(eventID := eventID, sequenceNum := r.value.sequenceNum,
                                      prevHash := r.value.prevHash, hash := r.value.hash)
    ensures r.Some? && tail.None? ==> r.value.sequenceNum == 0 && r.value.prevHash == Genesis(env)
    ensures r.Some? && tail.Some? ==>
      r.value.sequenceNum == tail.value.sequenceNum + 1 && r.value.prevHash == tail.value.hash
    ensures r.Some? ==> ComputeHash(env, r.value) == Some(r.value.hash)
  {
    var placed := e.(
      eventID := eventID,
      sequenceNum := if tail.Some? then tail.value.sequenceNum + 1 else 0,
      prevHash := if tail.Some? then tail.value.hash else Genesis(env));
    match ComputeHash(env, placed)
    case None => None
    case Some(h) =>
      assert PayloadOf(placed.(hash := h)) == PayloadOf(placed);
      Some(placed.(hash := h))
  }

  // ------------------------------------------------------------------ Verify

  datatype BreakReason = SequenceGap | PrevHashMismatch

  datatype Verdict =
    | Intact
    | Broken(at: nat, reason: BreakReason)
    | Tampered(at: nat, eventID: Id)
    | Unhashable

  /** The three tests of one loop iteration. */
  function CheckLink(env: Env, e: Event, i: nat, expected: bytes): Verdict {
    if e.sequenceNum != i then Broken(i, SequenceGap)
    else if e.prevHash != expected then Broken(i, PrevHashMismatch)
    else match ComputeHash(env, e)
      case None => Unhashable
      case Some(actual) => if actual != e.hash then Tampered(i, e.eventID) else Intact
  }

  function VerifyFrom(env: Env, es: seq<Event>, i: nat, expected: bytes): Verdict
    requires i <= |es|
    decreases |es| - i
  {
    if i == |es| then Intact
    else
      var v := CheckLink(env, es[i], i, expected);
      if v.Intact? then VerifyFrom(env, es, i + 1, es[i].hash) else v
  }

  function Verify(env: Env, es: seq<Event>): Verdict {
    VerifyFrom(env, es, 0, Genesis(env))
  }

  // ------------------------------------------- what an accepted list looks like

  /** Event `i` sits at its own position, points at its predecessor and carries
      the hash of its own content. */
  ghost predicate Linked(env: Env, es: seq<Event>, i: nat)
    requires i < |es|
  {
    && es[i].sequenceNum == i
    && es[i].prevHash == Head(env, es[..i])
    && ComputeHash(env, es[i]) == Some(es[i].hash)
  }

  ghost predicate ChainOk(env: Env, es: seq<Event>) {
    forall i :: 0 <= i < |es| ==> Linked(env, es, i)
  }

  lemma ChainPrefix(env: Env, es: seq<Event>, n: nat)
    requires n <= |es|
    requires ChainOk(env, es)
    ensures ChainOk(env, es[..n])
  {
    forall i | 0 <= i < n ensures Linked(env, es[..n], i) {
      assert Linked(env, es, i);
      assert es[..n][..i] == es[..i];
    }
  }

  lemma ChainExtend(env: Env, es: seq<Event>, e: Event)
    requires ChainOk(env, es)
    ensures ChainOk(env, es + [e]) <==> CheckLink(env, e, |es|, Head(env, es)).Intact?
  {
    var fs := es + [e];
    assert fs[..|es|] == es;
    assert Linked(env, fs, |es|) <==> CheckLink(env, e, |es|, Head(env, es)).Intact?;
    forall i | 0 <= i < |es| ensures Linked(env, fs, i) {
      assert Linked(env, es, i);
      assert fs[..i] == es[..i];
    }
  }

  /** From a position whose prefix is a chain, `Verify` gives the verdict of the
      first link that fails, or accepts. */
  lemma {:induction false} VerifyFromChain(env: Env, es: seq<Event>, i: nat)
    requires i <= |es|
    requires ChainOk(env, es[..i])
    ensures VerifyFrom(env, es, i, Head(env, es[..i])).Intact? <==> ChainOk(env, es)
    decreases |es| - i
  {
    if i == |es| {
      assert es[..i] == es;
    } else {
      assert es[..i + 1] == es[..i] + [es[i]];
      ChainExtend(env, es[..i], es[i]);
      if CheckLink(env, es[i], i, Head(env, es[..i])).Intact? {
        VerifyFromChain(env, es, i + 1);
      } else if ChainOk(env, es) {
        ChainPrefix(env, es, i + 1);
      }
    }
  }

  /** `Verify` accepts exactly the chains. */
  lemma VerifyAcceptsChains(env: Env, es: seq<Event>)
    ensures Verify(env, es).Intact? <==> ChainOk(env, es)
  {
    assert es[..0] == [];
    VerifyFromChain(env, es, 0);
  }

  lemma {:induction false} VerifyFromSkips(env: Env, es: seq<Event>, i: nat, j: nat)
    requires j <= i <= |es|
    requires ChainOk(env, es[..i])
    ensures VerifyFrom(env, es, j, Head(env, es[..j])) == VerifyFrom(env, es, i, Head(env, es[..i]))
    decreases i - j
  {
    if j < i {
      assert Linked(env, es[..i], j);
      assert es[..i][..j] == es[..j];
      assert es[..j + 1][|es[..j + 1]| - 1] == es[j];
      VerifyFromSkips(env, es, i, j + 1);
    }
  }

  /** After an intact prefix the verdict is that of the next link, if it fails. */
  lemma VerifyStopsAt(env: Env, es: seq<Event>, i: nat)
    requires i < |es|
    requires ChainOk(env, es[..i])
    requires !CheckLink(env, es[i], i, Head(env, es[..i])).Intact?
    ensures Verify(env, es) == CheckLink(env, es[i], i, Head(env, es[..i]))
  {
    assert es[..0] == [];
    VerifyFromSkips(env, es, i, 0);
  }
}
