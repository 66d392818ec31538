/** Exporting the evidence store and restoring it elsewhere (src/channel_state_store.rs:212-247, 292-310, 372-390). */
module ChannelStateRestore {
  import opened Prelude
  import opened Text
  import opened Commitments
  import opened ChannelState
  import opened ChannelStateStore
  import opened ChannelStateRuns

  // ----- observations -----

  /** `restore_observation` of one exported value after another. */
  function RestoreAll(v: Rules, limits: Limits, acc: map<Key, Observation>, all: seq<Observation>)
    : (map<Key, Observation>, Option<StoreError>)
    decreases all
  {
    if all == [] then (acc, None) else
      var one := RestoredObservation(v, limits, acc, all[0]);
      if one.1.Some? then one else RestoreAll(v, limits, one.0, all[1..])
  }

  /** What the restored map holds so far: entries of the original that its own signers signed. */
  ghost predicate Partial(obs: map<Key, Observation>, acc: map<Key, Observation>) {
    forall k :: k in acc ==> k in obs && exists src :: Supplies(obs, src, k, acc[k])
  }

  ghost predicate Supplies(obs: map<Key, Observation>, src: Key, k: Key, o: Observation) {
    src in obs && src.channelId == k.channelId && o == obs[src] && HasAddress(o.state.signatures, k.signer)
  }

  /** Keys whose own entry is back. */
  ghost predicate Back(obs: map<Key, Observation>, acc: map<Key, Observation>, k: Key) {
    k in obs && k in acc && acc[k] == obs[k]
  }

  ghost predicate CoherentUnfolded(u: Unfolding, obs: map<Key, Observation>) {
    && (forall k :: k in obs ==> obs[k].state.commitment.channelId == k.channelId)
    && EntriesOrdered(obs) && SignersAgree(obs)
  }

  /** What restoring needs of the exported entries, once the checks are behind; unfolded only by CoherentMeans. */
  ghost predicate Coherent(obs: map<Key, Observation>) {
    forall u: Unfolding :: CoherentUnfolded(u, obs)
  }

  lemma CoherentMeans(obs: map<Key, Observation>)
    ensures Coherent(obs) <==>
            && (forall k :: k in obs ==> obs[k].state.commitment.channelId == k.channelId)
            && EntriesOrdered(obs) && SignersAgree(obs)
  {
    assert CoherentUnfolded(Unfolding, obs) <==>
      && (forall k :: k in obs ==> obs[k].state.commitment.channelId == k.channelId)
      && EntriesOrdered(obs) && SignersAgree(obs);
  }

  /** A supplied entry is no newer than the key's own, and the own one if as new. */
  lemma SuppliedIsOlder(obs: map<Key, Observation>, src: Key, k: Key, o: Observation)
    requires Coherent(obs) && Supplies(obs, src, k, o)
    ensures k in obs && SequenceOf(o) <= SequenceOf(obs[k])
    ensures SequenceOf(o) == SequenceOf(obs[k]) ==> o == obs[k]
  {
    CoherentMeans(obs);
    assert OwnIsNewer(obs, src, k.signer);
  }

  ghost predicate Agree(obs: map<Key, Observation>, p: Key, q: Key, a: string) {
    (&& p in obs && q in obs && p.channelId == q.channelId && SequenceOf(obs[p]) == SequenceOf(obs[q])
     && HasAddress(obs[p].state.signatures, a) && HasAddress(obs[q].state.signatures, a))
    ==> obs[p].state.hash == obs[q].state.hash
  }

  /** No two entries of one channel and sequence that some signer signed both differ. */
  ghost predicate SignersAgree(obs: map<Key, Observation>) {
    forall p, q, a :: Agree(obs, p, q, a)
  }

  /** One signature of `restore_observation` that is not refused. */
  function Kept(acc: map<Key, Observation>, k: Key, o: Observation): map<Key, Observation> {
    if k in acc && SequenceOf(acc[k]) >= SequenceOf(o) then acc else acc[k := o]
  }

  /** An entry already there does not contradict the one that arrives. */
  lemma NoContradiction(obs: map<Key, Observation>, acc: map<Key, Observation>, src: Key, k: Key)
    requires Coherent(obs) && Partial(obs, acc) && src in obs && Supplies(obs, src, k, obs[src]) && k in acc
    ensures SequenceOf(acc[k]) == SequenceOf(obs[src]) ==> acc[k].state.hash == obs[src].state.hash
  {
    var s :| Supplies(obs, s, k, acc[k]);
    CoherentMeans(obs);
    assert Agree(obs, s, src, k.signer);
  }

  lemma KeptIsPartial(obs: map<Key, Observation>, acc: map<Key, Observation>, src: Key, k: Key)
    requires Coherent(obs) && Partial(obs, acc) && src in obs && Supplies(obs, src, k, obs[src])
    ensures Partial(obs, Kept(acc, k, obs[src]))
  {
    SuppliedIsOlder(obs, src, k, obs[src]);
  }

  lemma KeptStaysBack(obs: map<Key, Observation>, acc: map<Key, Observation>, src: Key, k: Key, x: Key)
    requires Coherent(obs) && src in obs && Supplies(obs, src, k, obs[src]) && Back(obs, acc, x)
    ensures Back(obs, Kept(acc, k, obs[src]), x)
  {
    SuppliedIsOlder(obs, src, k, obs[src]);
  }

  lemma OwnComesBack(obs: map<Key, Observation>, acc: map<Key, Observation>, k: Key)
    requires Coherent(obs) && Partial(obs, acc) && k in obs
    ensures Back(obs, Kept(acc, k, obs[k]), k)
  {
    if k in acc {
      var s :| Supplies(obs, s, k, acc[k]);
      SuppliedIsOlder(obs, s, k, acc[k]);
    }
  }

  lemma SmallerMap<K, V>(a: map<K, V>, b: map<K, V>, k: K)
    requires (forall x :: x in a ==> x in b) && k in b && k !in a
    ensures |a| < |b|
  {
    NoLarger(a.Keys + {k}, b.Keys);
  }

  lemma {:induction false} NoLarger<K>(a: set<K>, b: set<K>)
    requires a <= b
    ensures |a| <= |b|
    decreases |a|
  {
    if a != {} {
      var x :| x in a;
      NoLarger(a - {x}, b - {x});
    }
  }

  lemma SuppliedBySigner(obs: map<Key, Observation>, src: Key, i: nat) returns (k: Key)
    requires src in obs && i < |obs[src].state.signatures|
    ensures k == Key(src.channelId, obs[src].state.signatures[i].address) && Supplies(obs, src, k, obs[src])
  {
    k := Key(src.channelId, obs[src].state.signatures[i].address);
  }

  lemma SignatureFits(limits: Limits, obs: map<Key, Observation>, acc: map<Key, Observation>, src: Key, k: Key)
    requires Coherent(obs) && Partial(obs, acc) && src in obs && Supplies(obs, src, k, obs[src])
    requires |obs| <= limits.maxObservations
    ensures k !in acc ==> |acc| < limits.maxObservations
  {
    SuppliedIsOlder(obs, src, k, obs[src]);
    if k !in acc {
      SmallerMap(acc, obs, k);
    }
  }

  /** One exported signature is never refused. */
  lemma SignatureRestored(limits: Limits, obs: map<Key, Observation>, acc: map<Key, Observation>, src: Key, i: nat)
    returns (k: Key)
    requires Coherent(obs) && Partial(obs, acc) && src in obs && i < |obs[src].state.signatures|
    requires |obs| <= limits.maxObservations
    ensures k == Key(src.channelId, obs[src].state.signatures[i].address) && Supplies(obs, src, k, obs[src])
    ensures RestoredFrom(limits, acc, obs[src], i) == RestoredFrom(limits, Kept(acc, k, obs[src]), obs[src], i + 1)
  {
    k := SuppliedBySigner(obs, src, i);
    CoherentMeans(obs);
    SignatureFits(limits, obs, acc, src, k);
    if k in acc {
      NoContradiction(obs, acc, src, k);
    }
  }

  /** Nothing that was back is lost. */
  ghost predicate StaysBack(obs: map<Key, Observation>, acc: map<Key, Observation>, more: map<Key, Observation>) {
    forall k :: Back(obs, acc, k) ==> Back(obs, more, k)
  }

  ghost predicate SignedFrom(s: SignedState, a: string, i: nat) {
    exists j :: i <= j < |s.signatures| && s.signatures[j].address == a
  }

  lemma SignedFromNext(s: SignedState, a: string, i: nat)
    requires i < |s.signatures| && SignedFrom(s, a, i) && s.signatures[i].address != a
    ensures SignedFrom(s, a, i + 1)
  {
  }

  lemma KeptStaysAllBack(obs: map<Key, Observation>, acc: map<Key, Observation>, src: Key, k: Key)
    requires Coherent(obs) && src in obs && Supplies(obs, src, k, obs[src])
    ensures StaysBack(obs, acc, Kept(acc, k, obs[src]))
  {
    forall x | Back(obs, acc, x) ensures Back(obs, Kept(acc, k, obs[src]), x) {
      KeptStaysBack(obs, acc, src, k, x);
    }
  }

  lemma StaysBackOn(
      obs: map<Key, Observation>, acc: map<Key, Observation>, next: map<Key, Observation>,
      more: map<Key, Observation>)
    requires StaysBack(obs, acc, next) && StaysBack(obs, next, more)
    ensures StaysBack(obs, acc, more)
  {
  }

  /** What one signature restores. */
  lemma RestoreSignature(limits: Limits, obs: map<Key, Observation>, acc: map<Key, Observation>, src: Key, i: nat)
    returns (next: map<Key, Observation>)
    requires Coherent(obs) && Partial(obs, acc) && src in obs && i < |obs[src].state.signatures|
    requires |obs| <= limits.maxObservations
    ensures RestoredFrom(limits, acc, obs[src], i) == RestoredFrom(limits, next, obs[src], i + 1)
    ensures Partial(obs, next) && StaysBack(obs, acc, next)
    ensures obs[src].state.signatures[i].address == src.signer ==> Back(obs, next, src)
  {
    var k := SignatureRestored(limits, obs, acc, src, i);
    next := Kept(acc, k, obs[src]);
    KeptIsPartial(obs, acc, src, k);
    KeptStaysAllBack(obs, acc, src, k);
    if k == src {
      OwnComesBack(obs, acc, k);
    }
  }

  lemma AllRestored(limits: Limits, acc: map<Key, Observation>, o: Observation)
    ensures RestoredFrom(limits, acc, o, |o.state.signatures|) == (acc, None)
  {
  }

  lemma {:induction false} RestoreOne(
      limits: Limits, obs: map<Key, Observation>, acc: map<Key, Observation>, src: Key, i: nat)
    returns (more: map<Key, Observation>)
    requires Coherent(obs) && Partial(obs, acc) && src in obs && i <= |obs[src].state.signatures|
    requires |obs| <= limits.maxObservations
    ensures RestoredFrom(limits, acc, obs[src], i) == (more, None) && Partial(obs, more) && StaysBack(obs, acc, more)
    ensures SignedFrom(obs[src].state, src.signer, i) ==> Back(obs, more, src)
    decreases |obs[src].state.signatures| - i
  {
    more := acc;
    if i == |obs[src].state.signatures| {
      AllRestored(limits, acc, obs[src]);
    } else {
      var next := RestoreSignature(limits, obs, acc, src, i);
      more := RestoreOne(limits, obs, next, src, i + 1);
      StaysBackOn(obs, acc, next, more);
      if SignedFrom(obs[src].state, src.signer, i) && obs[src].state.signatures[i].address != src.signer {
        SignedFromNext(obs[src].state, src.signer, i);
      }
    }
  }

  /** The exported values pass the checks. */
  ghost predicate Passing(v: Rules, obs: map<Key, Observation>) {
    forall k :: k in obs ==> v.signed(obs[k].state).None? && HasAddress(obs[k].state.signatures, k.signer)
  }

  /** `all` lists values of `m` under `keys`. */
  ghost predicate Listed<K(!new), V>(m: map<K, V>, keys: seq<K>, all: seq<V>) {
    |all| == |keys| && forall i :: 0 <= i < |keys| ==> keys[i] in m && all[i] == m[keys[i]]
  }

  lemma {:induction false} RestoreRest(
      v: Rules, limits: Limits, obs: map<Key, Observation>, acc: map<Key, Observation>, keys: seq<Key>,
      all: seq<Observation>)
    returns (more: map<Key, Observation>)
    requires Passing(v, obs) && Coherent(obs) && |obs| <= limits.maxObservations && Partial(obs, acc)
    requires Listed(obs, keys, all)
    ensures RestoreAll(v, limits, acc, all) == (more, None) && Partial(obs, more) && StaysBack(obs, acc, more)
    ensures forall k :: k in keys ==> Back(obs, more, k)
    decreases all
  {
    more := acc;
    if all != [] {
      var src := keys[0];
      var next := RestoreOne(limits, obs, acc, src, 0);
      assert SignedFrom(obs[src].state, src.signer, 0);
      assert RestoredObservation(v, limits, acc, all[0]) == (next, None);
      more := RestoreRest(v, limits, obs, next, keys[1..], all[1..]);
    }
  }

  /** `all` lists the values of `m`, each at least once, in any order. */
  ghost predicate Lists<K(!new), V>(m: map<K, V>, keys: seq<K>, all: seq<V>) {
    Listed(m, keys, all) && forall k :: k in m ==> k in keys
  }

  lemma AllBack(obs: map<Key, Observation>, acc: map<Key, Observation>)
    requires (forall k :: k in acc ==> k in obs) && forall k :: k in obs ==> Back(obs, acc, k)
    ensures acc == obs
  {
    assert PartOf(acc, obs) by {
      forall k | k in acc ensures k in obs && acc[k] == obs[k] {
        assert Back(obs, acc, k);
      }
    }
    PartIsAll(acc, obs);
  }

  lemma NothingIsPartial(obs: map<Key, Observation>)
    ensures Partial(obs, map[])
  {
  }

  lemma EachKeyBack(obs: map<Key, Observation>, acc: map<Key, Observation>, keys: seq<Key>)
    requires Partial(obs, acc) && (forall k :: k in obs ==> k in keys) && forall k :: k in keys ==> Back(obs, acc, k)
    ensures acc == obs
  {
    AllBack(obs, acc);
  }

  lemma ExportRestores(v: Rules, limits: Limits, obs: map<Key, Observation>, keys: seq<Key>, all: seq<Observation>)
    requires Passing(v, obs) && Coherent(obs) && |obs| <= limits.maxObservations && Lists(obs, keys, all)
    ensures RestoreAll(v, limits, map[], all) == (obs, None)
  {
    NothingIsPartial(obs);
    var r := RestoreRest(v, limits, obs, map[], keys, all);
    EachKeyBack(obs, r, keys);
  }

  lemma GoodExports(v: Rules, reg: Registry, limits: Limits, s: Store)
    requires Good(v, reg, limits, s) && SignersAgree(s.observations)
    ensures Passing(v, s.observations) && Coherent(s.observations) && |s.observations| <= limits.maxObservations
  {
    GoodMeans(v, reg, limits, s);
    CoherentMeans(s.observations);
  }

  /** `all` lists the values of `m`, each once, in some order. */
  ghost predicate Exports<K(!new), V>(m: map<K, V>, keys: seq<K>, all: seq<V>) {
    Lists(m, keys, all) && forall i, j :: 0 <= i < j < |keys| ==> keys[i] != keys[j]
  }

  /** Restoring into an empty store of equal capacity rebuilds the observations, whatever order they come in. */
  ghost predicate Restores(v: Rules, limits: Limits, obs: map<Key, Observation>) {
    forall keys, all :: Exports(obs, keys, all) ==> RestoreAll(v, limits, map[], all) == (obs, None)
  }

  // ----- entries that disagree -----

  /** The signature at `j` meets an entry that contradicts it. */
  lemma {:induction false} Refused(limits: Limits, acc: map<Key, Observation>, o: Observation, i: nat, j: nat)
    requires i <= j < |o.state.signatures|
    requires var k := Key(o.state.commitment.channelId, o.state.signatures[j].address);
             k in acc && SequenceOf(acc[k]) == SequenceOf(o) && acc[k].state.hash != o.state.hash
    ensures RestoredFrom(limits, acc, o, i).1.Some?
    decreases j - i
  {
    var ki := Key(o.state.commitment.channelId, o.state.signatures[i].address);
    var kj := Key(o.state.commitment.channelId, o.state.signatures[j].address);
    if ki != kj {
      if ki in acc && SequenceOf(acc[ki]) >= SequenceOf(o) {
        Refused(limits, acc, o, i + 1, j);
      } else {
        Refused(limits, acc[ki := o], o, i + 1, j);
      }
    }
  }

  /** All entries are `o`, and those of its signers from `i` on are there. */
  ghost predicate Only(acc: map<Key, Observation>, o: Observation, i: nat)
    requires i <= |o.state.signatures|
  {
    && (forall k :: k in acc ==> acc[k] == o)
    && forall j :: i <= j < |o.state.signatures| ==>
         Key(o.state.commitment.channelId, o.state.signatures[j].address) in acc
  }

  lemma {:induction false} FirstRestored(limits: Limits, acc: map<Key, Observation>, o: Observation, i: nat)
    requires i <= |o.state.signatures| && RestoredFrom(limits, acc, o, i).1.None?
    requires forall k :: k in acc ==> acc[k] == o
    ensures Only(RestoredFrom(limits, acc, o, i).0, o, i)
    ensures forall k :: k in acc ==> k in RestoredFrom(limits, acc, o, i).0
    decreases |o.state.signatures| - i
  {
    if i < |o.state.signatures| {
      var k := Key(o.state.commitment.channelId, o.state.signatures[i].address);
      FirstRestored(limits, if k in acc then acc else acc[k := o], o, i + 1);
    }
  }

  /** Two disagreeing entries, one after the other, are not restored. */
  lemma DisagreementFails(
      v: Rules, limits: Limits, obs: map<Key, Observation>, p: Key, q: Key, a: string, rest: seq<Observation>)
    requires !Agree(obs, p, q, a) && forall k :: k in obs ==> obs[k].state.commitment.channelId == k.channelId
    ensures RestoreAll(v, limits, map[], [obs[p], obs[q]] + rest).1.Some?
  {
    var o1, o2 := obs[p], obs[q];
    var all := [o1, o2] + rest;
    assert all[0] == o1 && all[1..][0] == o2;
    var one := RestoredObservation(v, limits, map[], o1);
    if one.1.None? {
      FirstRestored(limits, map[], o1, 0);
      var j1 :| 0 <= j1 < |o1.state.signatures| && o1.state.signatures[j1].address == a;
      var j2 :| 0 <= j2 < |o2.state.signatures| && o2.state.signatures[j2].address == a;
      assert Key(p.channelId, a) in one.0;
      Refused(limits, one.0, o2, 0, j2);
    }
  }

  lemma {:induction false} Enumerated<K>(s: set<K>) returns (keys: seq<K>)
    ensures (forall k :: k in keys <==> k in s) && forall i, j :: 0 <= i < j < |keys| ==> keys[i] != keys[j]
    decreases |s|
  {
    keys := [];
    if s != {} {
      var x :| x in s;
      var rest := Enumerated(s - {x});
      keys := [x] + rest;
    }
  }

  /** An order that starts with two given entries. */
  lemma OrderFrom<K(!new), V>(m: map<K, V>, p: K, q: K) returns (keys: seq<K>, all: seq<V>, rest: seq<V>)
    requires p in m && q in m && p != q
    ensures Exports(m, keys, all) && all == [m[p], m[q]] + rest
  {
    var others := Enumerated(m.Keys - {p, q});
    keys := [p, q] + others;
    assert forall i :: 0 <= i < |others| ==> others[i] in others && others[i] in m.Keys - {p, q};
    rest := seq(|others|, i requires 0 <= i < |others| => m[others[i]]);
    all := [m[p], m[q]] + rest;
    forall k | k in m ensures k in keys {
      if k != p && k != q {
        assert k in others;
      }
    }
  }

  /**
   Exactly when exported observations can be restored in every order: when no signer's signatures stand under
   two different states of one channel and sequence.
   */
  lemma ObservationsRoundTripIff(v: Rules, reg: Registry, limits: Limits, s: Store)
    requires Good(v, reg, limits, s)
    ensures Restores(v, limits, s.observations) <==> SignersAgree(s.observations)
  {
    if SignersAgree(s.observations) {
      GoodExports(v, reg, limits, s);
      forall keys, all | Exports(s.observations, keys, all)
        ensures RestoreAll(v, limits, map[], all) == (s.observations, None)
      {
        ExportRestores(v, limits, s.observations, keys, all);
      }
    } else {
      GoodMeans(v, reg, limits, s);
      var p, q, a :| !Agree(s.observations, p, q, a);
      var keys, all, rest := OrderFrom(s.observations, p, q);
      DisagreementFails(v, limits, s.observations, p, q, a, rest);
    }
  }

  // ----- signers without blanks -----

  lemma TrimmedSigner(v: Rules, s: SignedState, a: string)
    requires SignedLaw(v) && v.signed(s).None? && TrimmedSigners(s) && HasAddress(s.signatures, a)
    ensures IsParty(s.commitment, a)
  {
    var k :| 0 <= k < |s.signatures| && s.signatures[k].address == a;
  }

  lemma KeyIsParty(v: Rules, reg: Registry, obs: map<Key, Observation>, k: Key)
    requires SignedLaw(v) && EntriesSigned(v, reg, obs) && k in obs && TrimmedSigners(obs[k].state)
    ensures k.channelId in reg && (k.signer == reg[k.channelId].left || k.signer == reg[k.channelId].right)
  {
    TrimmedSigner(v, obs[k].state, k.signer);
  }

  /** Two entries that a third party of the channel signed never contradict each other. */
  lemma EntriesAgree(v: Rules, reg: Registry, obs: map<Key, Observation>, p: Key, q: Key, a: string)
    requires SignedLaw(v) && EntriesSigned(v, reg, obs) && EntriesOrdered(obs)
    requires forall k :: k in obs ==> TrimmedSigners(obs[k].state)
    requires p in obs && q in obs && p.channelId == q.channelId
    requires HasAddress(obs[p].state.signatures, a) && HasAddress(obs[q].state.signatures, a)
    requires SequenceOf(obs[p]) == SequenceOf(obs[q])
    ensures obs[p].state.hash == obs[q].state.hash
  {
    assert OwnIsNewer(obs, p, a) && OwnIsNewer(obs, q, a);
    KeyIsParty(v, reg, obs, p);
    KeyIsParty(v, reg, obs, q);
    KeyIsParty(v, reg, obs, Key(p.channelId, a));
    if p.signer == a {
      assert p == Key(p.channelId, a);
    } else if q.signer == a {
      assert q == Key(p.channelId, a);
    } else {
      assert p == q;
    }
  }

  /** Where no signer is written with blanks around it, signers always agree. */
  lemma TrimmedSignersAgree(v: Rules, reg: Registry, limits: Limits, s: Store)
    requires Good(v, reg, limits, s) && forall k :: k in s.observations ==> TrimmedSigners(s.observations[k].state)
    ensures SignersAgree(s.observations)
  {
    GoodMeans(v, reg, limits, s);
    var obs := s.observations;
    forall p, q, a ensures Agree(obs, p, q, a) {
      if !Agree(obs, p, q, a) {
        EntriesAgree(v, reg, obs, p, q, a);
      }
    }
  }

  // ----- proofs -----

  function RestoreProofs(v: Rules, limits: Limits, acc: map<string, EquivocationProof>, all: seq<EquivocationProof>)
    : (map<string, EquivocationProof>, Option<StoreError>)
    decreases all
  {
    if all == [] then (acc, None) else
      var one := RestoredProof(v, limits, acc, all[0]);
      if one.1.Some? then one else RestoreProofs(v, limits, one.0, all[1..])
  }

  ghost predicate PartOf<K, V>(acc: map<K, V>, m: map<K, V>) {
    forall k :: k in acc ==> k in m && acc[k] == m[k]
  }

  lemma PartIsAll<K, V>(acc: map<K, V>, m: map<K, V>)
    requires PartOf(acc, m) && forall k :: k in m ==> k in acc
    ensures acc == m
  {
  }

  lemma ProofRestored(
      v: Rules, limits: Limits, proofs: map<string, EquivocationProof>, acc: map<string, EquivocationProof>,
      id: string)
    returns (more: map<string, EquivocationProof>)
    requires Filed(v, v.id, proofs) && |proofs| <= limits.maxProofs && PartOf(acc, proofs) && id in proofs
    ensures RestoredProof(v, limits, acc, proofs[id]) == (more, None) && PartOf(more, proofs)
    ensures more.Keys == acc.Keys + {id}
  {
    more := acc[id := proofs[id]];
    if id !in acc {
      SmallerMap(acc, proofs, id);
    } else {
      assert more == acc;
    }
  }

  lemma {:induction false} RestoreProofsRest(
      v: Rules, limits: Limits, proofs: map<string, EquivocationProof>, acc: map<string, EquivocationProof>,
      keys: seq<string>, all: seq<EquivocationProof>)
    returns (more: map<string, EquivocationProof>)
    requires Filed(v, v.id, proofs) && |proofs| <= limits.maxProofs && PartOf(acc, proofs) && Listed(proofs, keys, all)
    ensures RestoreProofs(v, limits, acc, all) == (more, None) && PartOf(more, proofs) && acc.Keys <= more.Keys
    ensures forall k :: k in keys ==> k in more
    decreases all
  {
    more := acc;
    if all != [] {
      var next := ProofRestored(v, limits, proofs, acc, keys[0]);
      more := RestoreProofsRest(v, limits, proofs, next, keys[1..], all[1..]);
    }
  }

  /** The proofs come back too, as long as there are no more of them than a fresh store admits. */
  lemma ProofsRoundTrip(
      v: Rules, reg: Registry, limits: Limits, s: Store, keys: seq<string>, all: seq<EquivocationProof>)
    requires Good(v, reg, limits, s) && Lists(s.proofs, keys, all) && |s.proofs| <= limits.maxProofs
    ensures RestoreProofs(v, limits, map[], all) == (s.proofs, None)
  {
    assert Filed(v, v.id, s.proofs) by {
      GoodMeans(v, reg, limits, s);
    }
    var r := RestoreProofsRest(v, limits, s.proofs, map[], keys, all);
    PartIsAll(r, s.proofs);
  }

  // ----- activations -----

  function RestoreActivations(v: Rules, limits: Limits, acc: map<string, ActivationRecord>, all: seq<ActivationRecord>)
    : (map<string, ActivationRecord>, Option<StoreError>)
    decreases all
  {
    if all == [] then (acc, None) else
      var one := RestoredActivation(v, limits, acc, all[0]);
      if one.1.Some? then one else RestoreActivations(v, limits, one.0, all[1..])
  }

  /** The two party entries behind every activation. */
  function PartyKeys(reg: Registry, ids: set<string>): set<Key>
    requires ids <= reg.Keys
  {
    (set id | id in ids :: Key(id, reg[id].left)) + (set id | id in ids :: Key(id, reg[id].right))
  }

  lemma {:induction false} TwoKeysEach(reg: Registry, ids: set<string>)
    requires ids <= reg.Keys && forall id :: id in ids ==> reg[id].left != reg[id].right
    ensures |PartyKeys(reg, ids)| == 2 * |ids|
    decreases |ids|
  {
    if ids == {} {
      assert PartyKeys(reg, ids) == {};
    } else {
      var id :| id in ids;
      TwoKeysEach(reg, ids - {id});
      TwoKeysMore(reg, ids, id);
    }
  }

  lemma TwoKeysMore(reg: Registry, ids: set<string>, id: string)
    requires ids <= reg.Keys && id in ids && reg[id].left != reg[id].right
    ensures |PartyKeys(reg, ids)| == |PartyKeys(reg, ids - {id})| + 2
  {
    var rest := ids - {id};
    var l, r := Key(id, reg[id].left), Key(id, reg[id].right);
    assert PartyKeys(reg, ids) == PartyKeys(reg, rest) + {l} + {r};
    assert l !in PartyKeys(reg, rest) && r !in PartyKeys(reg, rest) + {l};
  }

  lemma ActivatedIsRegistered(v: Rules, reg: Registry, s: Store, id: string)
    requires SignedLaw(v) && RecordLaw(v) && ActivationsSound(v, reg, s) && id in s.activations
    ensures id in reg && reg[id].left != reg[id].right
    ensures Key(id, reg[id].left) in s.observations && Key(id, reg[id].right) in s.observations
  {
    var r := s.activations[id];
    assert v.record(r).None? && Belongs(reg, r.head.commitment);
    assert v.signed(r.head).None? && r.head.commitment.channelId == id;
  }

  /** Every activated channel has both its parties' entries, so activations never exceed half the capacity. */
  lemma ActivationsFit(v: Rules, reg: Registry, s: Store)
    requires SignedLaw(v) && RecordLaw(v) && ActivationsSound(v, reg, s)
    ensures 2 * |s.activations| <= |s.observations|
  {
    var ids := s.activations.Keys;
    forall id | id in ids
      ensures id in reg && reg[id].left != reg[id].right && Key(id, reg[id].left) in s.observations
      ensures Key(id, reg[id].right) in s.observations
    {
      ActivatedIsRegistered(v, reg, s, id);
    }
    TwoKeysEach(reg, ids);
    NoLarger(PartyKeys(reg, ids), s.observations.Keys);
  }

  /** Valid records under their own channel. */
  ghost predicate UnderOwnChannel(v: Rules, activations: map<string, ActivationRecord>) {
    forall id :: id in activations ==>
        v.record(activations[id]).None? && activations[id].certificate.commitment.channelId == id
  }

  lemma ActivationRestored(
      v: Rules, limits: Limits, activations: map<string, ActivationRecord>, acc: map<string, ActivationRecord>,
      id: string)
    returns (more: map<string, ActivationRecord>)
    requires UnderOwnChannel(v, activations) && |activations| <= limits.maxObservations / 2 && PartOf(acc, activations)
    requires id in activations
    ensures RestoredActivation(v, limits, acc, activations[id]) == (more, None)
    ensures PartOf(more, activations) && more.Keys == acc.Keys + {id}
  {
    more := acc[id := activations[id]];
    if id !in acc {
      SmallerMap(acc, activations, id);
    } else {
      assert more == acc;
    }
  }

  lemma {:induction false} RestoreActivationsRest(
      v: Rules, limits: Limits, activations: map<string, ActivationRecord>, acc: map<string, ActivationRecord>,
      keys: seq<string>, all: seq<ActivationRecord>)
    returns (more: map<string, ActivationRecord>)
    requires UnderOwnChannel(v, activations) && |activations| <= limits.maxObservations / 2 && PartOf(acc, activations)
    requires Listed(activations, keys, all)
    ensures RestoreActivations(v, limits, acc, all) == (more, None) && PartOf(more, activations)
    ensures acc.Keys <= more.Keys
    ensures forall k :: k in keys ==> k in more
    decreases all
  {
    more := acc;
    if all != [] {
      var next := ActivationRestored(v, limits, activations, acc, keys[0]);
      more := RestoreActivationsRest(v, limits, activations, next, keys[1..], all[1..]);
    }
  }

  lemma GoodActivations(v: Rules, reg: Registry, limits: Limits, s: Store)
    requires Good(v, reg, limits, s)
    ensures UnderOwnChannel(v, s.activations) && |s.activations| <= limits.maxObservations / 2
  {
    GoodMeans(v, reg, limits, s);
    ActivationsFit(v, reg, s);
  }

  lemma ActivationsRoundTrip(
      v: Rules, reg: Registry, limits: Limits, s: Store, keys: seq<string>, all: seq<ActivationRecord>)
    requires Good(v, reg, limits, s) && Lists(s.activations, keys, all)
    ensures RestoreActivations(v, limits, map[], all) == (s.activations, None)
  {
    GoodActivations(v, reg, limits, s);
    var r := RestoreActivationsRest(v, limits, s.activations, map[], keys, all);
    PartIsAll(r, s.activations);
  }

  /**
   Export and restore are inverse: for every store a run reaches, the exported activations and (if no more than
   a fresh store admits) proofs, restored in any order, rebuild those of the store; so do the observations, in
   every order, exactly if no signer's signatures stand under two different states of one channel and sequence.
   */
  lemma RoundTrip(x: Crypto, reg: Registry, limits: Limits, ops: seq<Op>, s: Store)
    requires Injective(x) && Ran(RulesOf(x), reg, limits, EMPTY, ops) == Some(s)
    ensures Restores(RulesOf(x), limits, s.observations) <==> SignersAgree(s.observations)
    ensures forall channels, all :: Exports(s.activations, channels, all) ==>
              RestoreActivations(RulesOf(x), limits, map[], all) == (s.activations, None)
    ensures |s.proofs| <= limits.maxProofs ==>
              forall ids, all :: Exports(s.proofs, ids, all) ==>
                RestoreProofs(RulesOf(x), limits, map[], all) == (s.proofs, None)
  {
    var v := RulesOf(x);
    ReachedInv(x, reg, limits, s, ops);
    ObservationsRoundTripIff(v, reg, limits, s);
    forall channels, all | Exports(s.activations, channels, all)
      ensures RestoreActivations(v, limits, map[], all) == (s.activations, None)
    {
      ActivationsRoundTrip(v, reg, limits, s, channels, all);
    }
    if |s.proofs| <= limits.maxProofs {
      forall ids, all | Exports(s.proofs, ids, all) ensures RestoreProofs(v, limits, map[], all) == (s.proofs, None) {
        ProofsRoundTrip(v, reg, limits, s, ids, all);
      }
    }
  }
}
