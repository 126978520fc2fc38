/** What an accepted chain proves about the past, and where `Verify` points when
    a stored chain was changed. SHA-256 is not assumed injective: each theorem
    either gives its conclusion or names two different preimages, built from the
    given histories, that hash alike. */
module TamperEvidence {
  import opened Common
  import opened Events
  import opened Encoding
  import opened HashChain

  ghost predicate Collision(env: Env, a: bytes, b: bytes) {
    a != b && env.sha(a) == env.sha(b)
  }

  predicate SameMillisecond(s: int, t: int) {
    s / 1_000_000 == t / 1_000_000
  }

  /** No metadata in either, or texts of the same compact form. */
  predicate SameMetadata(env: Env, m: bytes, n: bytes) {
    (m == [] <==> n == []) && (m != [] ==> env.compact(m) == env.compact(n))
  }

  /** Equal in every field that is hashed: times to the millisecond, a nil photo
      slice like an empty one, metadata up to white space. */
  predicate SameContent(env: Env, e: Event, f: Event) {
    && e.eventID == f.eventID && e.deliveryID == f.deliveryID && e.kind == f.kind
    && SameMillisecond(e.occurredAt, f.occurredAt)
    && e.carrierTime.Some? == f.carrierTime.Some?
    && (e.carrierTime.Some? ==> SameMillisecond(e.carrierTime.value, f.carrierTime.value))
    && e.actor == f.actor && e.location == f.location && e.PhotoList() == f.PhotoList()
    && e.signature == f.signature && e.reason == f.reason
    && SameMetadata(env, e.metadata, f.metadata)
  }

  lemma SameContentIff(env: Env, e: Event, f: Event)
    ensures SameContent(env, e, f) <==> Canonical(env, PayloadOf(e)) == Canonical(env, PayloadOf(f))
  {
    var p, q := PayloadOf(e), PayloadOf(f);
    assert p.(metadata := []) == q.(metadata := []) <==> p == q.(metadata := p.metadata);
  }

  /** What a hash stands for, after a given prev-hash: the same content gives the
      same hash, and another content with that hash is a collision. */
  lemma HashCoversContent(env: Env, e: Event, f: Event)
    requires LawfulJson(env) && e.prevHash == f.prevHash && ComputeHash(env, e).Some?
    ensures SameContent(env, e, f) ==> ComputeHash(env, f) == ComputeHash(env, e)
    ensures ComputeHash(env, f) == ComputeHash(env, e) ==>
      SameContent(env, e, f) || Collision(env, PreimageOf(env, e), PreimageOf(env, f))
  {
    SameContentIff(env, e, f);
    if ComputeHash(env, f) == ComputeHash(env, e) && !SameContent(env, e, f) {
      Hex.EncodeInjective(env.sha(PreimageOf(env, e)), env.sha(PreimageOf(env, f)));
      assert PreimageOf(env, e)[|e.prevHash| + 1..] == env.marshal(PayloadOf(e)).value;
      assert PreimageOf(env, f)[|e.prevHash| + 1..] == env.marshal(PayloadOf(f)).value;
    }
  }

  /** Equal in everything the chain covers: position, links and content. */
  predicate SameRecord(env: Env, e: Event, f: Event) {
    && e.sequenceNum == f.sequenceNum
    && e.prevHash == f.prevHash
    && e.hash == f.hash
    && SameContent(env, e, f)
  }

  ghost predicate SameHistory(env: Env, xs: seq<Event>, ys: seq<Event>) {
    |xs| == |ys| && forall i :: 0 <= i < |xs| ==> SameRecord(env, xs[i], ys[i])
  }

  /** Walks both histories back from their ends to the first pair of hashed
      inputs that differ; the genesis label stands for "before the first event". */
  function Divergence(env: Env, xs: seq<Event>, ys: seq<Event>): (bytes, bytes) {
    if xs == [] && ys == [] then ([], [])
    else if xs == [] then (GENESIS_LABEL, PreimageOf(env, ys[|ys| - 1]))
    else if ys == [] then (PreimageOf(env, xs[|xs| - 1]), GENESIS_LABEL)
    else
      var (a, b) := (PreimageOf(env, xs[|xs| - 1]), PreimageOf(env, ys[|ys| - 1]));
      if a != b then (a, b) else Divergence(env, xs[..|xs| - 1], ys[..|ys| - 1])
  }

  lemma HeadHasNoDelimiter(env: Env, es: seq<Event>)
    requires ChainOk(env, es)
    ensures Hex.DELIMITER !in Head(env, es)
  {
    if es == [] {
      Hex.EncodeHasNoDelimiter(env.sha(GENESIS_LABEL));
    } else {
      var last := es[|es| - 1];
      assert Linked(env, es, |es| - 1);
      Hex.EncodeHasNoDelimiter(env.sha(PreimageOf(env, last)));
    }
  }

  /** The last event of a chain: its predecessor's hash, its body, its hash. */
  lemma LastLink(env: Env, es: seq<Event>) returns (body: bytes)
    requires ChainOk(env, es) && es != []
    ensures ChainOk(env, es[..|es| - 1])
    ensures var last := es[|es| - 1];
      && last.sequenceNum == |es| - 1
      && last.prevHash == Head(env, es[..|es| - 1])
      && Hex.DELIMITER !in last.prevHash
      && env.marshal(PayloadOf(last)) == Some(body)
      && PreimageOf(env, last) == Preimage(last.prevHash, body)
      && last.hash == Head(env, es) == Hex.Encode(env.sha(PreimageOf(env, last)))
  {
    assert Linked(env, es, |es| - 1);
    ChainPrefix(env, es, |es| - 1);
    HeadHasNoDelimiter(env, es[..|es| - 1]);
    body := env.marshal(PayloadOf(es[|es| - 1])).value;
  }

  /** Nothing hashes like the genesis label without being a collision: every
      event's preimage holds the delimiter and the label does not. */
  lemma PreimageIsNotGenesis(env: Env, es: seq<Event>)
    requires ChainOk(env, es) && es != []
    requires Head(env, es) == Genesis(env)
    ensures Collision(env, PreimageOf(env, es[|es| - 1]), GENESIS_LABEL)
  {
    var body := LastLink(env, es);
    var pre := PreimageOf(env, es[|es| - 1]);
    Hex.EncodeInjective(env.sha(pre), env.sha(GENESIS_LABEL));
    assert pre[|es[|es| - 1].prevHash|] == Hex.DELIMITER;
  }

  /** Two chains with the same last hash are the same history, or their point of
      divergence is a SHA-256 collision. No equality of lengths is assumed: a
      chain cannot be shortened or extended without moving its last hash. */
  lemma {:induction false} TamperEvident(env: Env, xs: seq<Event>, ys: seq<Event>)
    requires LawfulJson(env)
    requires Verify(env, xs).Intact? && Verify(env, ys).Intact?
    requires Head(env, xs) == Head(env, ys)
    ensures SameHistory(env, xs, ys)
         || Collision(env, Divergence(env, xs, ys).0, Divergence(env, xs, ys).1)
    decreases |xs|
  {
    VerifyAcceptsChains(env, xs);
    VerifyAcceptsChains(env, ys);
    if xs == [] || ys == [] {
      if xs != [] {
        PreimageIsNotGenesis(env, xs);
      } else if ys != [] {
        PreimageIsNotGenesis(env, ys);
      }
    } else {
      var m, n := |xs| - 1, |ys| - 1;
      var bodyX := LastLink(env, xs);
      var bodyY := LastLink(env, ys);
      Hex.EncodeInjective(env.sha(PreimageOf(env, xs[m])), env.sha(PreimageOf(env, ys[n])));
      if PreimageOf(env, xs[m]) == PreimageOf(env, ys[n]) {
        Hex.SplitJoin(xs[m].prevHash, bodyX);
        Hex.SplitJoin(ys[n].prevHash, bodyY);
        SameContentIff(env, xs[m], ys[n]);
        VerifyAcceptsChains(env, xs[..m]);
        VerifyAcceptsChains(env, ys[..n]);
        TamperEvident(env, xs[..m], ys[..n]);
        if SameHistory(env, xs[..m], ys[..n]) {
          forall i | 0 <= i < |xs| ensures SameRecord(env, xs[i], ys[i]) {
            if i < m {
              assert SameRecord(env, xs[..m][i], ys[..n][i]);
            }
          }
        }
      }
    }
  }

  /** One remembered hash pins everything before it, however the chain grew since. */
  lemma AnchoredPrefix(env: Env, xs: seq<Event>, ys: seq<Event>)
    requires LawfulJson(env)
    requires Verify(env, xs).Intact? && Verify(env, ys).Intact?
    requires 0 < |xs| <= |ys| && ys[|xs| - 1].hash == Head(env, xs)
    ensures var zs := ys[..|xs|];
      SameHistory(env, xs, zs) || Collision(env, Divergence(env, xs, zs).0, Divergence(env, xs, zs).1)
  {
    VerifyAcceptsChains(env, ys);
    ChainPrefix(env, ys, |xs|);
    VerifyAcceptsChains(env, ys[..|xs|]);
    TamperEvident(env, xs, ys[..|xs|]);
  }

  // ------------------------------------------------------- fault localisation

  lemma {:induction false} FirstBadLink(env: Env, es: seq<Event>, i: nat) returns (at: nat)
    requires i <= |es| && ChainOk(env, es[..i]) && !ChainOk(env, es)
    ensures i <= at < |es| && ChainOk(env, es[..at])
    ensures !CheckLink(env, es[at], at, Head(env, es[..at])).Intact?
    decreases |es| - i
  {
    assert es[..|es|] == es;
    if CheckLink(env, es[i], i, Head(env, es[..i])).Intact? {
      ChainExtend(env, es[..i], es[i]);
      assert es[..i + 1] == es[..i] + [es[i]];
      at := FirstBadLink(env, es, i + 1);
    } else {
      at := i;
    }
  }

  /** The index `Verify` reports is the least fault: exactly the prefixes that
      stop at or before it are accepted. */
  lemma ReportedIndexIsLeast(env: Env, es: seq<Event>)
    requires Verify(env, es).Broken? || Verify(env, es).Tampered?
    ensures Verify(env, es).at < |es|
    ensures forall n :: 0 <= n <= |es| ==> (Verify(env, es[..n]).Intact? <==> n <= Verify(env, es).at)
  {
    VerifyAcceptsChains(env, es);
    assert es[..0] == [];
    var at := FirstBadLink(env, es, 0);
    VerifyStopsAt(env, es, at);
    forall n | 0 <= n <= |es| ensures Verify(env, es[..n]).Intact? <==> n <= at {
      VerifyAcceptsChains(env, es[..n]);
      if n <= at {
        ChainPrefix(env, es[..at], n);
        assert es[..at][..n] == es[..n];
      } else if ChainOk(env, es[..n]) {
        ChainPrefix(env, es[..n], at + 1);
        assert es[..n][..at + 1] == es[..at + 1] == es[..at] + [es[at]];
        ChainExtend(env, es[..at], es[at]);
      }
    }
  }

  /** Every prefix of an accepted list is accepted: dropping events from the end
      leaves no trace in the list itself. */
  lemma PrefixVerifies(env: Env, es: seq<Event>, n: nat)
    requires Verify(env, es).Intact? && n <= |es|
    ensures Verify(env, es[..n]).Intact?
  {
    VerifyAcceptsChains(env, es);
    ChainPrefix(env, es, n);
    VerifyAcceptsChains(env, es[..n]);
  }

  /** `f` sits where `e` sat, with the same position and prev-hash. */
  ghost predicate Replaces(f: Event, e: Event) {
    f.sequenceNum == e.sequenceNum && f.prevHash == e.prevHash
  }

  /** Changing any hashed field of event `i` and nothing else is reported as
      tampering with `i`. */
  lemma ChangedPayloadIsTampered(env: Env, es: seq<Event>, i: nat, f: Event)
    requires LawfulJson(env)
    requires Verify(env, es).Intact? && i < |es|
    requires Replaces(f, es[i]) && f.hash == es[i].hash
    requires !SameContent(env, es[i], f)
    ensures ComputeHash(env, f).None? ==> Verify(env, es[i := f]) == Unhashable
    ensures ComputeHash(env, f).Some? ==>
      || Verify(env, es[i := f]) == Tampered(i, f.eventID)
      || Collision(env, PreimageOf(env, es[i]), PreimageOf(env, f))
  {
    VerifyAcceptsChains(env, es);
    ChainPrefix(env, es, i);
    assert Linked(env, es, i);
    var fs := es[i := f];
    assert fs[..i] == es[..i];
    if ComputeHash(env, f) == Some(f.hash) {
      HashCoversContent(env, es[i], f);
    } else {
      VerifyStopsAt(env, fs, i);
    }
  }

  /** Recomputing the hash of the changed event moves the report to its
      successor; only at the end of the list does it go unnoticed. */
  lemma ResealedEventBreaksSuccessor(env: Env, es: seq<Event>, i: nat, f: Event)
    requires LawfulJson(env)
    requires Verify(env, es).Intact? && i < |es|
    requires Replaces(f, es[i]) && ComputeHash(env, f) == Some(f.hash)
    requires !SameContent(env, es[i], f)
    ensures i == |es| - 1 ==> Verify(env, es[i := f]).Intact?
    ensures i < |es| - 1 ==>
      || Verify(env, es[i := f]) == Broken(i + 1, PrevHashMismatch)
      || Collision(env, PreimageOf(env, es[i]), PreimageOf(env, f))
  {
    VerifyAcceptsChains(env, es);
    ChainPrefix(env, es, i);
    assert Linked(env, es, i);
    var fs := es[i := f];
    assert fs[..i] == es[..i];
    assert fs[..i + 1] == es[..i] + [f];
    ChainExtend(env, es[..i], f);
    if i == |es| - 1 {
      assert fs == es[..i] + [f];
      VerifyAcceptsChains(env, fs);
    } else if f.hash == es[i].hash {
      ChangedPayloadIsTampered(env, es, i, f);
      ReportImpliesBadPrefix(env, fs, i);
    } else {
      assert Linked(env, es, i + 1);
      VerifyStopsAt(env, fs, i + 1);
    }
  }

  /** A verdict at `i` contradicts an intact prefix that includes `i`. */
  lemma ReportImpliesBadPrefix(env: Env, es: seq<Event>, i: nat)
    requires i < |es| && ChainOk(env, es[..i + 1])
    ensures !(Verify(env, es).Tampered? && Verify(env, es).at == i)
  {
    if Verify(env, es).Tampered? && Verify(env, es).at == i {
      ReportedIndexIsLeast(env, es);
      VerifyAcceptsChains(env, es[..i + 1]);
    }
  }

  /** Removing an event that is not the last leaves a gap exactly where it was;
      removing the last one leaves an accepted list. */
  lemma RemovalLeavesGap(env: Env, es: seq<Event>, i: nat)
    requires Verify(env, es).Intact? && i < |es|
    ensures var fs := es[..i] + es[i + 1..];
      Verify(env, fs) == if i < |es| - 1 then Broken(i, SequenceGap) else Intact
  {
    var fs := es[..i] + es[i + 1..];
    VerifyAcceptsChains(env, es);
    ChainPrefix(env, es, i);
    assert fs[..i] == es[..i];
    if i < |es| - 1 {
      assert Linked(env, es, i + 1);
      assert fs[i] == es[i + 1];
      VerifyStopsAt(env, fs, i);
    } else {
      assert fs == es[..i];
      VerifyAcceptsChains(env, fs);
    }
  }
}
