/** What holds of the evidence store over every run, for states of registered, anchored channels. */
module ChannelStateRuns {
  import opened Prelude
  import opened Text
  import opened Commitments
  import opened ChannelState
  import opened ChannelStateStore

  /** What `validate_state_against_channel` binds a state of an anchored channel to. */
  datatype Registered = Registered(left: string, right: string, genesis: string, anchor: string)

  type Registry = map<string, Registered>

  predicate Belongs(reg: Registry, c: StateCommitment) {
    c.channelId in reg && reg[c.channelId] == Registered(c.left, c.right, c.genesis, c.anchor)
  }

  predicate Admissible(v: Rules, reg: Registry, s: SignedState) {
    v.signed(s).None? && Belongs(reg, s.commitment)
  }

  // ----- the invariant -----

  function SequenceOf(o: Observation): nat { o.state.commitment.sequence }

  /** Every entry is an admissible state signed by its key. */
  ghost predicate EntriesSigned(v: Rules, reg: Registry, obs: map<Key, Observation>) {
    forall k :: k in obs ==>
      && Admissible(v, reg, obs[k].state) && k.channelId == obs[k].state.commitment.channelId
      && HasAddress(obs[k].state.signatures, k.signer)
  }

  /** A signer's own entry is at least as new, and the same entry if it is for the same state. */
  ghost predicate OwnIsNewer(obs: map<Key, Observation>, k: Key, a: string)
    requires k in obs
  {
    var own := Key(k.channelId, a);
    && own in obs && SequenceOf(obs[own]) >= SequenceOf(obs[k])
    && (SequenceOf(obs[own]) == SequenceOf(obs[k]) ==> obs[own].state.hash == obs[k].state.hash)
    && (obs[own].state.hash == obs[k].state.hash ==> obs[own] == obs[k])
  }

  ghost predicate EntriesOrdered(obs: map<Key, Observation>) {
    forall k, a :: k in obs && HasAddress(obs[k].state.signatures, a) ==> OwnIsNewer(obs, k, a)
  }

  ghost predicate ProofsSound(v: Rules, limits: Limits, proofs: map<string, EquivocationProof>) {
    |proofs| <= limits.maxProofs + 1 && Filed(v, v.id, proofs)
  }

  /** Valid proofs under their own ids. */
  ghost predicate Filed(v: Rules, idOf: Ids, proofs: map<string, EquivocationProof>) {
    forall id :: id in proofs ==> v.proof(proofs[id]).None? && idOf(proofs[id]) == id
  }

  ghost predicate AllValid(v: Rules, all: seq<EquivocationProof>) {
    forall p :: p in all ==> v.proof(p).None?
  }

  ghost predicate ActivationsSound(v: Rules, reg: Registry, s: Store) {
    forall id :: id in s.activations ==>
      var r := s.activations[id];
      && v.record(r).None? && r.certificate.commitment.channelId == id && Belongs(reg, r.head.commitment)
      && r.activatedUnix > 0
      && Key(id, r.head.commitment.left) in s.observations && Key(id, r.head.commitment.right) in s.observations
  }

  ghost predicate StoreInv(v: Rules, reg: Registry, limits: Limits, s: Store) {
    && EntriesSigned(v, reg, s.observations) && EntriesOrdered(s.observations)
         && |s.observations| <= limits.maxObservations
    && ProofsSound(v, limits, s.proofs) && ActivationsSound(v, reg, s)
  }

  // ----- recording a state -----

  /** No signer conflicts exactly if the loop collected no proof. */
  lemma {:induction false} NoConflicts(v: Rules, obs: map<Key, Observation>, m: SignedState, i: nat)
    requires i <= |m.signatures| && Conflicts(v, obs, m, i) == Ok([])
    ensures forall j :: 0 <= j < i ==> !Classify(obs, m, m.signatures[j].address).Conflicting?
  {
    if i > 0 {
      assert Conflicts(v, obs, m, i - 1) == Ok([]);
      NoConflicts(v, obs, m, i - 1);
    }
  }

  /** What recording `m` does to the entries. */
  ghost predicate Records(obs: map<Key, Observation>, m: SignedState, now: nat, after: map<Key, Observation>) {
    var o := Observation(now, m);
    && (forall k :: k in after <==> k in obs || IsTarget(obs, m, k))
    && (forall k :: k in after ==> after[k] == if IsTarget(obs, m, k) then o else obs[k])
  }

  ghost predicate IsTarget(obs: map<Key, Observation>, m: SignedState, k: Key) {
    k.channelId == m.commitment.channelId && HasAddress(m.signatures, k.signer) && IsUpdate(Classify(obs, m, k.signer))
  }

  lemma {:induction false} UpdatedKeys(obs: map<Key, Observation>, m: SignedState, i: nat, k: Key)
    requires i <= |m.signatures|
    ensures k in Updates(obs, m, i) <==>
            exists j :: 0 <= j < i && k == Key(m.commitment.channelId, m.signatures[j].address)
                        && IsUpdate(Classify(obs, m, m.signatures[j].address))
  {
    if i > 0 {
      UpdatedKeys(obs, m, i - 1, k);
    }
  }

  lemma RecordingUpdatesTargets(obs: map<Key, Observation>, m: SignedState, now: nat)
    ensures Records(obs, m, now, WithObservations(obs, Updates(obs, m, |m.signatures|), Observation(now, m)))
  {
    var keys := Updates(obs, m, |m.signatures|);
    forall k ensures k in keys <==> IsTarget(obs, m, k) {
      UpdatedKeys(obs, m, |m.signatures|, k);
      if IsTarget(obs, m, k) {
        var j :| 0 <= j < |m.signatures| && m.signatures[j].address == k.signer;
      }
    }
  }

  ghost predicate NoneConflict(obs: map<Key, Observation>, m: SignedState) {
    forall a :: HasAddress(m.signatures, a) ==> !Classify(obs, m, a).Conflicting?
  }

  /** The merge carries every known signature of its state. */
  ghost predicate CarriesKnown(obs: map<Key, Observation>, m: SignedState) {
    forall k, a :: k in obs && SameState(obs[k].state, m) && HasAddress(obs[k].state.signatures, a) ==>
        HasAddress(m.signatures, a)
  }

  lemma MergeCarriesKnown(obs: map<Key, Observation>, state: SignedState, m: SignedState)
    requires IsMerge(obs, state, m)
    ensures CarriesKnown(obs, m)
  {
    forall k, a | k in obs && SameState(obs[k].state, m) && HasAddress(obs[k].state.signatures, a)
      ensures HasAddress(m.signatures, a)
    {
      var j :| 0 <= j < |obs[k].state.signatures| && obs[k].state.signatures[j].address == a;
      assert obs[k].state.signatures[j] in obs[k].state.signatures;
    }
  }

  /** An entry for the same state that is not updated already has all of the merge's signers. */
  lemma FullEntryHasAll(v: Rules, reg: Registry, obs: map<Key, Observation>, m: SignedState, k: Key, a: string)
    requires SignedLaw(v) && EntriesSigned(v, reg, obs) && CarriesKnown(obs, m) && Admissible(v, reg, m)
    requires k in obs && SameState(obs[k].state, m) && |obs[k].state.signatures| >= |m.signatures|
    requires HasAddress(m.signatures, a)
    ensures HasAddress(obs[k].state.signatures, a)
  {
    var s := obs[k].state;
    var j :| 0 <= j < |m.signatures| && m.signatures[j].address == a;
    forall i | 0 <= i < |s.signatures| ensures HasAddress(m.signatures, s.signatures[i].address) {
      assert HasAddress(s.signatures, s.signatures[i].address);
    }
    SameSize(s.signatures, m.signatures, j);
  }

  /** At most two signers, all among at most as many others: then they are the same. */
  lemma SameSize(s: seq<StateSignature>, m: seq<StateSignature>, j: nat)
    requires DistinctSigners(s) && 1 <= |m| <= |s| <= 2 && j < |m|
    requires forall i :: 0 <= i < |s| ==> HasAddress(m, s[i].address)
    ensures HasAddress(s, m[j].address)
  {
    var i0 :| 0 <= i0 < |m| && m[i0].address == s[0].address;
    if |s| == 2 {
      var i1 :| 0 <= i1 < |m| && m[i1].address == s[1].address;
      assert i0 != i1;
    }
  }

  /** For one state, either every signer at that state is updated or none is. */
  lemma UpdatedTogether(v: Rules, reg: Registry, obs: map<Key, Observation>, m: SignedState, a: string, b: string)
    requires SignedLaw(v) && EntriesSigned(v, reg, obs) && EntriesOrdered(obs) && CarriesKnown(obs, m)
    requires Admissible(v, reg, m)
    requires HasAddress(m.signatures, a) && HasAddress(m.signatures, b) && Classify(obs, m, a).Same?
    ensures !IsUpdate(Classify(obs, m, b))
  {
    var ka := Key(m.commitment.channelId, a);
    assert SameState(obs[ka].state, m);
    FullEntryHasAll(v, reg, obs, m, ka, b);
    assert OwnIsNewer(obs, ka, b);
  }

  /** The situation in which `observe` records `m`. */
  ghost predicate Recording(v: Rules, reg: Registry, obs: map<Key, Observation>, m: SignedState) {
    && Lawful(v) && EntriesSigned(v, reg, obs) && EntriesOrdered(obs)
    && Admissible(v, reg, m) && CarriesKnown(obs, m) && NoneConflict(obs, m)
  }

  lemma HashTellsSequence(v: Rules, reg: Registry, s: SignedState, t: SignedState)
    requires HashLaw(v) && Admissible(v, reg, s) && Admissible(v, reg, t)
    ensures s.hash == t.hash ==> s.commitment == t.commitment
  {
  }

  /** A recorded entry against its signers' own entries. */
  lemma TargetIsOrdered(
      v: Rules, reg: Registry, obs: map<Key, Observation>, m: SignedState, now: nat, after: map<Key, Observation>,
      k: Key, a: string)
    requires Recording(v, reg, obs, m) && Records(obs, m, now, after)
    requires IsTarget(obs, m, k) && HasAddress(m.signatures, a)
    ensures OwnIsNewer(after, k, a)
  {
    var own := Key(m.commitment.channelId, a);
    if Classify(obs, m, a).Same? {
      UpdatedTogether(v, reg, obs, m, a, k.signer);
    } else if Classify(obs, m, a).Older? {
      HashTellsSequence(v, reg, obs[own].state, m);
      assert !IsTarget(obs, m, own);
    } else {
      assert IsTarget(obs, m, own);
    }
  }

  /** An entry that was not updated against its signers' own entries. */
  lemma OthersStayOrdered(
      v: Rules, reg: Registry, obs: map<Key, Observation>, m: SignedState, now: nat, after: map<Key, Observation>,
      k: Key, a: string)
    requires Recording(v, reg, obs, m) && Records(obs, m, now, after)
    requires k in obs && !IsTarget(obs, m, k) && HasAddress(obs[k].state.signatures, a)
    ensures OwnIsNewer(after, k, a)
  {
    var own := Key(k.channelId, a);
    assert OwnIsNewer(obs, k, a);
    if IsTarget(obs, m, own) {
      if obs[k].state.hash == m.hash {
        HashTellsSequence(v, reg, obs[k].state, m);
        assert HasAddress(m.signatures, k.signer);
        assert SequenceOf(obs[own]) >= SequenceOf(obs[k]);
      } else if SequenceOf(obs[k]) == m.commitment.sequence {
        assert SequenceOf(obs[own]) == m.commitment.sequence;
      }
    }
  }

  lemma RecordKeepsEntries(
      v: Rules, reg: Registry, obs: map<Key, Observation>, m: SignedState, now: nat, after: map<Key, Observation>)
    requires Recording(v, reg, obs, m) && Records(obs, m, now, after)
    ensures EntriesSigned(v, reg, after) && EntriesOrdered(after)
  {
    forall k, a | k in after && HasAddress(after[k].state.signatures, a) ensures OwnIsNewer(after, k, a) {
      if IsTarget(obs, m, k) {
        TargetIsOrdered(v, reg, obs, m, now, after, k, a);
      } else {
        OthersStayOrdered(v, reg, obs, m, now, after, k, a);
      }
    }
  }

  lemma {:induction false} NewKeysCounted(obs: map<Key, Observation>, keys: seq<Key>, o: Observation)
    ensures |WithObservations(obs, keys, o)| <= |obs| + NewKeys(obs, keys)
  {
    if keys != [] {
      var n := |keys| - 1;
      NewKeysCounted(obs, keys[..n], o);
      var before := WithObservations(obs, keys[..n], o);
      assert before[keys[n] := o].Keys == before.Keys + {keys[n]};
    }
  }

  lemma HeadStaysSound(v: Rules, reg: Registry, r: ActivationRecord, m: SignedState)
    requires Lawful(v) && v.record(r).None? && Belongs(reg, r.head.commitment) && Admissible(v, reg, m)
    requires m.commitment.channelId == r.head.commitment.channelId
    ensures v.record(HeadAfter(v, r, m)).None? && Belongs(reg, HeadAfter(v, r, m).head.commitment)
    ensures HeadAfter(v, r, m).certificate == r.certificate
  {
  }

  lemma CommitmentFieldsSame(reg: Registry, c: StateCommitment, d: StateCommitment)
    requires Belongs(reg, c) && Belongs(reg, d) && c.channelId == d.channelId
    ensures c.left == d.left && c.right == d.right
  {
  }

  lemma HeadsStaySound(v: Rules, reg: Registry, s: Store, m: SignedState, after: map<Key, Observation>)
    requires Lawful(v) && ActivationsSound(v, reg, s) && Admissible(v, reg, m) && s.observations.Keys <= after.Keys
    ensures ActivationsSound(v, reg, s.(observations := after, activations := WithHead(v, s.activations, m)))
  {
    var id := m.commitment.channelId;
    if id in s.activations {
      var r := s.activations[id];
      assert r.head.commitment.channelId == id;
      HeadStaysSound(v, reg, r, m);
      CommitmentFieldsSame(reg, r.head.commitment, HeadAfter(v, r, m).head.commitment);
    }
  }

  lemma NoneConflictHere(v: Rules, obs: map<Key, Observation>, m: SignedState)
    requires Conflicts(v, obs, m, |m.signatures|) == Ok([])
    ensures NoneConflict(obs, m)
  {
    NoConflicts(v, obs, m, |m.signatures|);
  }

  lemma RecordKeepsInv(v: Rules, reg: Registry, limits: Limits, s: Store, m: SignedState, now: nat)
    requires StoreInv(v, reg, limits, s) && Lawful(v) && Admissible(v, reg, m) && CarriesKnown(s.observations, m)
    requires Conflicts(v, s.observations, m, |m.signatures|) == Ok([])
    ensures StoreInv(v, reg, limits, Recorded(v, limits, s, m, now).0)
  {
    var keys := Updates(s.observations, m, |m.signatures|);
    if Recorded(v, limits, s, m, now).1.Ok? {
      var after := WithObservations(s.observations, keys, Observation(now, m));
      NoneConflictHere(v, s.observations, m);
      RecordingUpdatesTargets(s.observations, m, now);
      RecordKeepsEntries(v, reg, s.observations, m, now, after);
      NewKeysCounted(s.observations, keys, Observation(now, m));
      HeadsStaySound(v, reg, s, m, after);
    }
  }

  // ----- convicting a signer -----

  lemma {:induction false} ConflictsAreProofs(v: Rules, obs: map<Key, Observation>, m: SignedState, i: nat)
    requires BuildLaw(v) && i <= |m.signatures| && Conflicts(v, obs, m, i).Ok?
    ensures |Conflicts(v, obs, m, i).value| <= i && AllValid(v, Conflicts(v, obs, m, i).value)
  {
    if i > 0 {
      ConflictsAreProofs(v, obs, m, i - 1);
    }
  }

  lemma {:induction false} ProofsFiled(
      v: Rules, idOf: Ids, proofs: map<string, EquivocationProof>, all: seq<EquivocationProof>)
    requires AllValid(v, all) && Filed(v, idOf, proofs)
    ensures Filed(v, idOf, WithProofs(idOf, proofs, all))
  {
    if all != [] {
      var n := |all| - 1;
      assert AllValid(v, all[..n]) && all[n] in all;
      ProofsFiled(v, idOf, proofs, all[..n]);
    }
  }

  lemma {:induction false} ProofsKept(idOf: Ids, proofs: map<string, EquivocationProof>, all: seq<EquivocationProof>)
    ensures var after := WithProofs(idOf, proofs, all);
            && (forall id :: id in proofs ==> id in after && after[id] == proofs[id])
            && (forall p :: p in all ==> idOf(p) in after)
  {
    if all != [] {
      var n := |all| - 1;
      ProofsKept(idOf, proofs, all[..n]);
      assert all == all[..n] + [all[n]];
    }
  }

  lemma {:induction false} ProofsCounted(idOf: Ids, proofs: map<string, EquivocationProof>, all: seq<EquivocationProof>)
    ensures |WithProofs(idOf, proofs, all)| <= |proofs| + |all|
    ensures (forall p :: p in all ==> idOf(p) in proofs) ==> WithProofs(idOf, proofs, all) == proofs
  {
    if all != [] {
      var n := |all| - 1;
      ProofsCounted(idOf, proofs, all[..n]);
      var before := WithProofs(idOf, proofs, all[..n]);
      assert before[idOf(all[n]) := all[n]].Keys == before.Keys + {idOf(all[n])};
      if forall p :: p in all ==> idOf(p) in proofs {
        assert forall p :: p in all[..n] ==> p in all;
        assert idOf(all[n]) in proofs;
      }
    }
  }

  lemma ConvictKeepsProofs(
      v: Rules, limits: Limits, idOf: Ids, proofs: map<string, EquivocationProof>, all: seq<EquivocationProof>)
    requires |proofs| <= limits.maxProofs + 1 && |all| <= 2 && IdsWithin(idOf, limits, proofs, all)
    ensures |WithProofs(idOf, proofs, all)| <= limits.maxProofs + 1
  {
    ProofsCounted(idOf, proofs, all);
  }

  lemma ConvictKeepsInv(
      v: Rules, reg: Registry, limits: Limits, s: Store, m: SignedState, conflicts: seq<EquivocationProof>)
    requires StoreInv(v, reg, limits, s) && AllValid(v, conflicts) && |conflicts| <= 2
    ensures StoreInv(v, reg, limits, Convicted(v.id, limits, s, m, conflicts).0)
  {
    if IdsWithin(v.id, limits, s.proofs, conflicts) {
      ConvictKeepsProofs(v, limits, v.id, s.proofs, conflicts);
      ProofsFiled(v, v.id, s.proofs, conflicts);
    }
  }

  lemma JudgeKeepsInv(v: Rules, reg: Registry, limits: Limits, s: Store, m: SignedState, now: nat)
    requires StoreInv(v, reg, limits, s) && Lawful(v) && Admissible(v, reg, m) && CarriesKnown(s.observations, m)
    ensures StoreInv(v, reg, limits, Judged(v, limits, s, m, now).0)
  {
    var conflicts := Conflicts(v, s.observations, m, |m.signatures|);
    if conflicts.Ok? {
      if conflicts.value == [] {
        RecordKeepsInv(v, reg, limits, s, m, now);
      } else {
        ConflictsAreProofs(v, s.observations, m, |m.signatures|);
        ConvictKeepsInv(v, reg, limits, s, m, conflicts.value);
      }
    }
  }

  // ----- runs -----

  /** One call, with the choices its iteration over hash maps made. */
  datatype Op =
    | ObserveOp(state: SignedState, merged: SignedState, now: nat)
    | ActivateOp(certificate: SignedActivation, initial: Option<Observation>, now: nat)

  ghost predicate Possible(v: Rules, reg: Registry, s: Store, op: Op) {
    match op
    case ObserveOp(state, merged, now) => Admissible(v, reg, state) && IsMerge(s.observations, state, merged)
    case ActivateOp(certificate, initial, now) =>
      initial.Some? ==>
          CanStart(v, certificate, initial.value) && exists k ::
              k in s.observations && s.observations[k] == initial.value
  }

  function After(v: Rules, limits: Limits, s: Store, op: Op): Store {
    match op
    case ObserveOp(state, merged, now) => Observed(v, limits, s, merged, now).0
    case ActivateOp(certificate, initial, now) => Activated(v, s, certificate, initial, now).0
  }

  lemma ObserveKeepsInv(v: Rules, reg: Registry, limits: Limits, s: Store, state: SignedState, m: SignedState, now: nat)
    requires StoreInv(v, reg, limits, s) && Lawful(v) && Admissible(v, reg, state) && IsMerge(s.observations, state, m)
    ensures StoreInv(v, reg, limits, Observed(v, limits, s, m, now).0)
  {
    MergeCarriesKnown(s.observations, state, m);
    if v.signed(m).None? {
      JudgeKeepsInv(v, reg, limits, s, m, now);
    }
  }

  lemma BothHaveEntries(v: Rules, reg: Registry, obs: map<Key, Observation>, k: Key)
    requires Lawful(v) && EntriesSigned(v, reg, obs) && EntriesOrdered(obs) && k in obs && v.both(obs[k].state)
    ensures Key(k.channelId, obs[k].state.commitment.left) in obs
    ensures Key(k.channelId, obs[k].state.commitment.right) in obs
  {
    var s := obs[k].state;
    assert OwnIsNewer(obs, k, s.commitment.left) && OwnIsNewer(obs, k, s.commitment.right);
  }

  lemma NewRecordIsSound(v: Rules, reg: Registry, s: Store, record: ActivationRecord, k: Key)
    requires Lawful(v) && EntriesSigned(v, reg, s.observations) && EntriesOrdered(s.observations)
    requires ActivationsSound(v, reg, s)
    requires v.record(record).None? && k in s.observations && s.observations[k].state == record.head
    ensures var id := record.certificate.commitment.channelId;
            ActivationsSound(v, reg, s.(activations := s.activations[id := record]))
  {
    BothHaveEntries(v, reg, s.observations, k);
  }

  /** What `activate` may change: one new record, on a stored both-signed state. */
  lemma ActivateOutcome(v: Rules, s: Store, certificate: SignedActivation, initial: Option<Observation>, now: nat)
    returns (record: Option<ActivationRecord>)
    ensures record.None? ==> Activated(v, s, certificate, initial, now).0 == s
    ensures record.Some? ==>
              && Activated(v, s, certificate, initial, now).0
                 == s.(activations := s.activations[record.value.certificate.commitment.channelId := record.value])
              && v.record(record.value).None? && initial.Some? && record.value.head == initial.value.state
              && record.value.certificate.commitment.channelId !in s.activations
  {
    if Activated(v, s, certificate, initial, now).0 == s {
      record := None;
    } else {
      record := Some(ActivationRecord(now, certificate, initial.value.state));
    }
  }

  lemma ActivateKeepsInv(
      v: Rules, reg: Registry, limits: Limits, s: Store, certificate: SignedActivation, initial: Option<Observation>,
      now: nat)
    requires StoreInv(v, reg, limits, s) && Lawful(v) && Possible(v, reg, s, ActivateOp(certificate, initial, now))
    ensures StoreInv(v, reg, limits, Activated(v, s, certificate, initial, now).0)
  {
    var record := ActivateOutcome(v, s, certificate, initial, now);
    if record.Some? {
      var k :| k in s.observations && s.observations[k] == initial.value;
      NewRecordIsSound(v, reg, s, record.value, k);
    }
  }

  lemma OpKeepsInv(v: Rules, reg: Registry, limits: Limits, s: Store, op: Op)
    requires StoreInv(v, reg, limits, s) && Lawful(v) && Possible(v, reg, s, op)
    ensures StoreInv(v, reg, limits, After(v, limits, s, op))
  {
    match op
    case ObserveOp(state, merged, now) => ObserveKeepsInv(v, reg, limits, s, state, merged, now);
    case ActivateOp(certificate, initial, now) => ActivateKeepsInv(v, reg, limits, s, certificate, initial, now);
  }

  ghost predicate Unfolded(u: Unfolding, v: Rules, reg: Registry, limits: Limits, s: Store) {
    Lawful(v) && StoreInv(v, reg, limits, s)
  }

  /** Lawful rules and the invariant, unfolded only by GoodMeans. */
  ghost predicate Good(v: Rules, reg: Registry, limits: Limits, s: Store) {
    forall u: Unfolding :: Unfolded(u, v, reg, limits, s)
  }

  lemma GoodMeans(v: Rules, reg: Registry, limits: Limits, s: Store)
    ensures Good(v, reg, limits, s) <==> Lawful(v) && StoreInv(v, reg, limits, s)
  {
    assert Unfolded(Unfolding, v, reg, limits, s) <==> Lawful(v) && StoreInv(v, reg, limits, s);
  }

  lemma OpStaysGood(v: Rules, reg: Registry, limits: Limits, s: Store, op: Op)
    requires Good(v, reg, limits, s) && Possible(v, reg, s, op)
    ensures Good(v, reg, limits, After(v, limits, s, op))
  {
    GoodMeans(v, reg, limits, s);
    OpKeepsInv(v, reg, limits, s, op);
    GoodMeans(v, reg, limits, After(v, limits, s, op));
  }

  ghost function Ran(v: Rules, reg: Registry, limits: Limits, s: Store, ops: seq<Op>): Option<Store>
    decreases ops
  {
    if ops == [] then Some(s)
    else if Possible(v, reg, s, ops[0]) then Ran(v, reg, limits, After(v, limits, s, ops[0]), ops[1..])
    else None
  }

  lemma {:induction false} RunStaysGood(v: Rules, reg: Registry, limits: Limits, s: Store, ops: seq<Op>)
    requires Good(v, reg, limits, s) && Ran(v, reg, limits, s, ops).Some?
    ensures Good(v, reg, limits, Ran(v, reg, limits, s, ops).value)
    decreases ops
  {
    if ops != [] {
      OpStaysGood(v, reg, limits, s, ops[0]);
      RunStaysGood(v, reg, limits, After(v, limits, s, ops[0]), ops[1..]);
    }
  }

  const EMPTY := Store(map[], map[], map[])

  /** Every store some run over a registry of anchored channels reaches satisfies the invariant. */
  lemma ReachedInv(x: Crypto, reg: Registry, limits: Limits, s: Store, ops: seq<Op>)
    requires Injective(x) && Ran(RulesOf(x), reg, limits, EMPTY, ops) == Some(s)
    ensures Good(RulesOf(x), reg, limits, s)
  {
    RulesAreLawful(x);
    GoodMeans(RulesOf(x), reg, limits, EMPTY);
    RunStaysGood(RulesOf(x), reg, limits, EMPTY, ops);
  }

  // ----- equivocation evidence -----

  lemma ConflictProves(v: Rules, reg: Registry, obs: map<Key, Observation>, m: SignedState, a: string)
    requires Lawful(v) && EntriesSigned(v, reg, obs) && Admissible(v, reg, m) && HasAddress(m.signatures, a)
    requires Classify(obs, m, a).Conflicting?
    ensures var e := obs[Key(m.commitment.channelId, a)].state;
            v.build(a, e, m) == Ok(Assembled(a, e, m))
  {
    var e := obs[Key(m.commitment.channelId, a)].state;
    assert NamesSigner(e, a) && NamesSigner(m, a);
  }

  /** With admissible states, conflicts always build, one proof for every conflicting signer. */
  lemma {:induction false} ConflictsAllBuild(
      v: Rules, reg: Registry, obs: map<Key, Observation>, m: SignedState, i: nat)
    requires Lawful(v) && EntriesSigned(v, reg, obs) && Admissible(v, reg, m) && i <= |m.signatures|
    ensures Conflicts(v, obs, m, i).Ok?
    ensures forall j :: 0 <= j < i && Classify(obs, m, m.signatures[j].address).Conflicting? ==>
              Assembled(m.signatures[j].address, obs[Key(m.commitment.channelId, m.signatures[j].address)].state, m)
              in Conflicts(v, obs, m, i).value
  {
    if i > 0 {
      ConflictsAllBuild(v, reg, obs, m, i - 1);
      var a := m.signatures[i - 1].address;
      if Classify(obs, m, a).Conflicting? {
        assert HasAddress(m.signatures, a);
        ConflictProves(v, reg, obs, m, a);
      }
      OneConflict(v, obs, m, i);
    }
  }

  /** What one more signature adds to the proofs collected so far. */
  lemma OneConflict(v: Rules, obs: map<Key, Observation>, m: SignedState, i: nat)
    requires 0 < i <= |m.signatures| && Conflicts(v, obs, m, i - 1).Ok?
    ensures var a := m.signatures[i - 1].address;
            if !Classify(obs, m, a).Conflicting? then Conflicts(v, obs, m, i) == Conflicts(v, obs, m, i - 1)
            else
              var proof := v.build(a, obs[Key(m.commitment.channelId, a)].state, m);
              proof.Ok? ==> Conflicts(v, obs, m, i) == Ok(Conflicts(v, obs, m, i - 1).value + [proof.value])
  {
  }

  /** What a conviction leaves: the named proof in the store, or nothing changed. */
  lemma ConvictionStores(
      v: Rules, limits: Limits, s: Store, m: SignedState, conflicts: seq<EquivocationProof>, p: EquivocationProof)
    requires |s.proofs| <= limits.maxProofs + 1 && |conflicts| <= 2 && p in conflicts
    ensures var (after, r) := Convicted(v.id, limits, s, m, conflicts);
            && after.observations == s.observations && after.activations == s.activations
            && (r.Ok? ==>
                 r.value.outcome == Equivocation && v.id(p) in after.proofs && |after.proofs| <= limits.maxProofs + 1)
            && (r.Err? ==> r == Err(ProofCapacity) && after == s)
  {
    if IdsWithin(v.id, limits, s.proofs, conflicts) {
      ProofsKept(v.id, s.proofs, conflicts);
      ConvictKeepsProofs(v, limits, v.id, s.proofs, conflicts);
    }
  }

  /**
   A valid state that passes the successor check and contradicts a signer's stored state of the same
   sequence either leaves a proof of it in the store or is refused for lack of proof capacity; either way
   no observation and no head changes, and a refusal changes nothing at all.
   */
  lemma EquivocationIsRecorded(
      v: Rules, reg: Registry, limits: Limits, s: Store, state: SignedState, m: SignedState, now: nat, a: string)
    requires StoreInv(v, reg, limits, s) && Lawful(v) && Admissible(v, reg, state) && IsMerge(s.observations, state, m)
    requires v.signed(m).None? && HasAddress(m.signatures, a) && Classify(s.observations, m, a).Conflicting?
    requires m.commitment.channelId in s.activations ==> v.successor(m, s.activations[m.commitment.channelId]).None?
    ensures var (after, r) := Observed(v, limits, s, m, now);
            && after.observations == s.observations && after.activations == s.activations
            && (r.Ok? ==>
                  var p := Assembled(a, s.observations[Key(m.commitment.channelId, a)].state, m);
                  r.value.outcome == Equivocation && v.id(p) in after.proofs && |after.proofs| <= limits.maxProofs + 1)
            && (r.Err? ==> r == Err(ProofCapacity) && after == s)
  {
    var conflicts, p := ConflictFound(v, reg, s.observations, m, a);
    ConvictionStores(v, limits, s, m, conflicts, p);
  }

  lemma ConflictFound(v: Rules, reg: Registry, obs: map<Key, Observation>, m: SignedState, a: string)
    returns (conflicts: seq<EquivocationProof>, p: EquivocationProof)
    requires Lawful(v) && EntriesSigned(v, reg, obs) && Admissible(v, reg, m) && HasAddress(m.signatures, a)
    requires Classify(obs, m, a).Conflicting?
    ensures Conflicts(v, obs, m, |m.signatures|) == Ok(conflicts) && |conflicts| <= 2
    ensures p == Assembled(a, obs[Key(m.commitment.channelId, a)].state, m) && p in conflicts
  {
    ConflictsAllBuild(v, reg, obs, m, |m.signatures|);
    ConflictsAreProofs(v, obs, m, |m.signatures|);
    var j :| 0 <= j < |m.signatures| && m.signatures[j].address == a;
    conflicts := Conflicts(v, obs, m, |m.signatures|).value;
    p := Assembled(a, obs[Key(m.commitment.channelId, a)].state, m);
  }

  // ----- the verification head -----

  /** Consecutive both-signed states, each binding its predecessor. */
  ghost predicate Chain(v: Rules, heads: seq<SignedState>) {
    && heads != []
    && (forall i :: 0 <= i < |heads| ==> v.signed(heads[i]).None? && v.both(heads[i]))
    && forall i :: 0 < i < |heads| ==>
         && heads[i].commitment.sequence == heads[i - 1].commitment.sequence + 1
         && heads[i].commitment.previous == heads[i - 1].hash
  }

  ghost predicate Advances(v: Rules, a: SignedState, b: SignedState) {
    a == b || Chain(v, [a, b])
  }

  lemma ObserveHeadStep(v: Rules, limits: Limits, s: Store, m: SignedState, now: nat, id: string)
    requires Lawful(v) && id in s.activations && v.record(s.activations[id]).None?
    ensures var after := Observed(v, limits, s, m, now).0;
            && id in after.activations && after.activations[id].certificate == s.activations[id].certificate
            && Advances(v, s.activations[id].head, after.activations[id].head)
  {
    var after := ObserveHeads(v, limits, s, m, now, id);
    if after != s.activations[id] {
      HeadAdvances(v, s.activations[id], m);
    }
  }

  /** What observing does to one channel's record: nothing, or it takes over the state if that may be its head. */
  lemma ObserveHeads(v: Rules, limits: Limits, s: Store, m: SignedState, now: nat, id: string)
    returns (after: ActivationRecord)
    requires id in s.activations
    ensures id in Observed(v, limits, s, m, now).0.activations
    ensures after == Observed(v, limits, s, m, now).0.activations[id]
    ensures after == s.activations[id]
            || (after == HeadAfter(v, s.activations[id], m) && v.signed(m).None?
                && v.successor(m, s.activations[id]).None?)
  {
    after := Observed(v, limits, s, m, now).0.activations[id];
  }

  lemma HeadStep(v: Rules, reg: Registry, limits: Limits, s: Store, op: Op, id: string)
    requires Good(v, reg, limits, s) && id in s.activations
    ensures id in After(v, limits, s, op).activations
    ensures After(v, limits, s, op).activations[id].certificate == s.activations[id].certificate
    ensures Advances(v, s.activations[id].head, After(v, limits, s, op).activations[id].head)
  {
    assert Lawful(v) && v.record(s.activations[id]).None? by {
      GoodMeans(v, reg, limits, s);
    }
    match op
    case ActivateOp(certificate, initial, now) =>
      var record := ActivateOutcome(v, s, certificate, initial, now);
    case ObserveOp(state, m, now) => ObserveHeadStep(v, limits, s, m, now, id);
  }

  lemma HeadAdvances(v: Rules, r: ActivationRecord, m: SignedState)
    requires Lawful(v) && v.record(r).None? && v.signed(m).None? && v.successor(m, r).None?
    ensures Advances(v, r.head, HeadAfter(v, r, m).head)
  {
    if HeadAfter(v, r, m) != r {
      assert Chain(v, [r.head, m]);
    }
  }

  lemma ChainGrows(v: Rules, heads: seq<SignedState>, next: SignedState) returns (more: seq<SignedState>)
    requires Chain(v, heads) && Advances(v, heads[|heads| - 1], next)
    ensures Chain(v, more) && more[0] == heads[0] && more[|more| - 1] == next
  {
    if heads[|heads| - 1] == next {
      more := heads;
    } else {
      more := heads + [next];
      var pair := [heads[|heads| - 1], next];
      assert pair[1].commitment.sequence == pair[0].commitment.sequence + 1;
      assert v.signed(pair[1]).None? && v.both(pair[1]);
    }
  }

  /** Gapless head: over any run an activated channel's heads form a both-signed chain without gaps. */
  lemma {:induction false} HeadsFormAChain(
      v: Rules, reg: Registry, limits: Limits, s: Store, ops: seq<Op>, id: string, before: seq<SignedState>)
    returns (heads: seq<SignedState>)
    requires Good(v, reg, limits, s) && Ran(v, reg, limits, s, ops).Some? && id in s.activations
    requires Chain(v, before) && before[|before| - 1] == s.activations[id].head
    ensures id in Ran(v, reg, limits, s, ops).value.activations
    ensures Chain(v, heads) && heads[0] == before[0]
    ensures heads[|heads| - 1] == Ran(v, reg, limits, s, ops).value.activations[id].head
    decreases ops
  {
    if ops == [] {
      heads := before;
    } else {
      var next := After(v, limits, s, ops[0]);
      OpStaysGood(v, reg, limits, s, ops[0]);
      HeadStep(v, reg, limits, s, ops[0], id);
      var more := ChainGrows(v, before, next.activations[id].head);
      heads := HeadsFormAChain(v, reg, limits, next, ops[1..], id, more);
    }
  }

  // ----- a split head -----

  /** The parties' newest states directly after the head contradict each other. */
  ghost predicate SplitAfterHead(s: Store, id: string) {
    && id in s.activations
    && var h := s.activations[id].head.commitment;
    var l, r := Key(id, h.left), Key(id, h.right);
    && l in s.observations && r in s.observations
    && SequenceOf(s.observations[l]) == h.sequence + 1 && SequenceOf(s.observations[r]) == h.sequence + 1
    && s.observations[l].state.hash != s.observations[r].state.hash
  }

  lemma SplitSurvivesActivate(
      v: Rules, s: Store, certificate: SignedActivation, initial: Option<Observation>, now: nat, id: string)
    requires SplitAfterHead(s, id)
    ensures SplitAfterHead(Activated(v, s, certificate, initial, now).0, id)
    ensures Activated(v, s, certificate, initial, now).0.activations[id].head == s.activations[id].head
  {
    var record := ActivateOutcome(v, s, certificate, initial, now);
  }

  lemma SplitSurvivesMerge(
      v: Rules, reg: Registry, limits: Limits, s: Store, state: SignedState, m: SignedState, now: nat, id: string)
    requires Good(v, reg, limits, s) && Admissible(v, reg, state) && IsMerge(s.observations, state, m)
    requires SplitAfterHead(s, id)
    ensures SplitAfterHead(Observed(v, limits, s, m, now).0, id)
    ensures Observed(v, limits, s, m, now).0.activations[id].head == s.activations[id].head
  {
    GoodMeans(v, reg, limits, s);
    SplitSurvivesObserve(v, reg, limits, s, m, now, id);
  }

  lemma SplitStays(v: Rules, reg: Registry, limits: Limits, s: Store, op: Op, id: string)
    requires Good(v, reg, limits, s) && Possible(v, reg, s, op) && SplitAfterHead(s, id)
    ensures SplitAfterHead(After(v, limits, s, op), id)
    ensures After(v, limits, s, op).activations[id].head == s.activations[id].head
  {
    match op
    case ActivateOp(certificate, initial, now) => SplitSurvivesActivate(v, s, certificate, initial, now, id);
    case ObserveOp(state, m, now) => SplitSurvivesMerge(v, reg, limits, s, state, m, now, id);
  }

  lemma SplitSurvivesObserve(v: Rules, reg: Registry, limits: Limits, s: Store, m: SignedState, now: nat, id: string)
    requires Lawful(v) && ActivationsSound(v, reg, s) && SplitAfterHead(s, id) && Belongs(reg, m.commitment)
    ensures SplitAfterHead(Observed(v, limits, s, m, now).0, id)
    ensures Observed(v, limits, s, m, now).0.activations[id].head == s.activations[id].head
  {
    if v.signed(m).None? && (m.commitment.channelId == id ==> v.successor(m, s.activations[id]).None?) {
      SplitSurvivesJudgement(v, reg, limits, s, m, now, id);
    }
  }

  /** Only recording changes entries and heads. */
  lemma JudgedOrRecorded(v: Rules, limits: Limits, s: Store, m: SignedState, now: nat)
    ensures if Conflicts(v, s.observations, m, |m.signatures|) == Ok([])
            then Judged(v, limits, s, m, now) == Recorded(v, limits, s, m, now)
            else Judged(v, limits, s, m, now).0 == s.(proofs := Judged(v, limits, s, m, now).0.proofs)
  {
  }

  lemma SplitSurvivesJudgement(v: Rules, reg: Registry, limits: Limits, s: Store, m: SignedState, now: nat, id: string)
    requires Lawful(v) && ActivationsSound(v, reg, s) && SplitAfterHead(s, id) && Admissible(v, reg, m)
    requires m.commitment.channelId == id ==> v.successor(m, s.activations[id]).None?
    ensures SplitAfterHead(Judged(v, limits, s, m, now).0, id)
    ensures Judged(v, limits, s, m, now).0.activations[id].head == s.activations[id].head
  {
    JudgedOrRecorded(v, limits, s, m, now);
    if Conflicts(v, s.observations, m, |m.signatures|) == Ok([]) {
      if m.commitment.channelId != id {
        RecordElsewhere(v, limits, s, m, now, id);
      } else {
        SplitSurvivesRecord(v, reg, limits, s, m, now, id);
      }
    }
  }

  /** Recording a state of another channel touches nothing here. */
  lemma RecordElsewhere(v: Rules, limits: Limits, s: Store, m: SignedState, now: nat, id: string)
    requires m.commitment.channelId != id && SplitAfterHead(s, id)
    ensures SplitAfterHead(Recorded(v, limits, s, m, now).0, id)
    ensures Recorded(v, limits, s, m, now).0.activations[id].head == s.activations[id].head
  {
    var h := s.activations[id].head.commitment;
    EntryElsewhere(v, limits, s, m, now, Key(id, h.left));
    EntryElsewhere(v, limits, s, m, now, Key(id, h.right));
  }

  lemma EntryElsewhere(v: Rules, limits: Limits, s: Store, m: SignedState, now: nat, k: Key)
    requires m.commitment.channelId != k.channelId && k in s.observations
    ensures var after := Recorded(v, limits, s, m, now).0;
            && k in after.observations && after.observations[k] == s.observations[k]
            && (k.channelId in s.activations ==>
                 k.channelId in after.activations && after.activations[k.channelId] == s.activations[k.channelId])
  {
    RecordingUpdatesTargets(s.observations, m, now);
  }

  lemma SignerAgrees(obs: map<Key, Observation>, m: SignedState, a: string)
    requires NoneConflict(obs, m) && HasAddress(m.signatures, a) && Key(m.commitment.channelId, a) in obs
    requires SequenceOf(obs[Key(m.commitment.channelId, a)]) == m.commitment.sequence
    ensures obs[Key(m.commitment.channelId, a)].state.hash == m.hash
  {
    assert !Classify(obs, m, a).Conflicting?;
  }

  /** A both-signed state directly after a split head contradicts one of the parties. */
  lemma SplitBlocksBoth(v: Rules, reg: Registry, s: Store, m: SignedState, id: string)
    requires BothLaw(v) && SplitAfterHead(s, id) && Admissible(v, reg, m) && NoneConflict(s.observations, m)
    requires m.commitment.channelId == id
    requires m.commitment.left == s.activations[id].head.commitment.left
    requires m.commitment.right == s.activations[id].head.commitment.right
    ensures !(v.both(m) && m.commitment.sequence == s.activations[id].head.commitment.sequence + 1)
  {
    if v.both(m) && m.commitment.sequence == s.activations[id].head.commitment.sequence + 1 {
      SignerAgrees(s.observations, m, m.commitment.left);
      SignerAgrees(s.observations, m, m.commitment.right);
    }
  }

  lemma SplitBlocksHead(v: Rules, reg: Registry, s: Store, m: SignedState, id: string)
    requires Lawful(v) && ActivationsSound(v, reg, s) && SplitAfterHead(s, id) && Admissible(v, reg, m)
    requires m.commitment.channelId == id && v.successor(m, s.activations[id]).None? && NoneConflict(s.observations, m)
    ensures HeadAfter(v, s.activations[id], m).head == s.activations[id].head
  {
    CommitmentFieldsSame(reg, s.activations[id].head.commitment, m.commitment);
    SplitBlocksBoth(v, reg, s, m, id);
  }

  /** An entry already at the sequence after the head only meets its own state again. */
  lemma SplitEntryStays(v: Rules, s: Store, m: SignedState, now: nat, after: map<Key, Observation>, k: Key, id: string)
    requires Lawful(v) && id in s.activations && m.commitment.channelId == id && v.successor(m, s.activations[id]).None?
    requires Records(s.observations, m, now, after) && NoneConflict(s.observations, m)
    requires k in s.observations && SequenceOf(s.observations[k]) == s.activations[id].head.commitment.sequence + 1
    ensures k in after && SequenceOf(after[k]) == SequenceOf(s.observations[k])
    ensures after[k].state.hash == s.observations[k].state.hash
  {
  }

  lemma SplitSurvivesRecord(v: Rules, reg: Registry, limits: Limits, s: Store, m: SignedState, now: nat, id: string)
    requires Lawful(v) && ActivationsSound(v, reg, s) && SplitAfterHead(s, id) && Admissible(v, reg, m)
    requires m.commitment.channelId == id && v.successor(m, s.activations[id]).None?
    requires Conflicts(v, s.observations, m, |m.signatures|) == Ok([])
    ensures SplitAfterHead(Recorded(v, limits, s, m, now).0, id)
    ensures Recorded(v, limits, s, m, now).0.activations[id].head == s.activations[id].head
  {
    var h := s.activations[id].head.commitment;
    var after := WithObservations(s.observations, Updates(s.observations, m, |m.signatures|), Observation(now, m));
    NoneConflictHere(v, s.observations, m);
    RecordingUpdatesTargets(s.observations, m, now);
    SplitBlocksHead(v, reg, s, m, id);
    SplitEntryStays(v, s, m, now, after, Key(id, h.left), id);
    SplitEntryStays(v, s, m, now, after, Key(id, h.right), id);
  }

  /** Once the parties disagree directly after the head, the head never moves again. */
  lemma {:induction false} SplitHeadNeverMoves(
      v: Rules, reg: Registry, limits: Limits, s: Store, ops: seq<Op>, id: string)
    requires Good(v, reg, limits, s) && Ran(v, reg, limits, s, ops).Some? && SplitAfterHead(s, id)
    ensures id in Ran(v, reg, limits, s, ops).value.activations
    ensures Ran(v, reg, limits, s, ops).value.activations[id].head == s.activations[id].head
    decreases ops
  {
    if ops != [] {
      SplitStays(v, reg, limits, s, ops[0], id);
      OpStaysGood(v, reg, limits, s, ops[0]);
      SplitHeadNeverMoves(v, reg, limits, After(v, limits, s, ops[0]), ops[1..], id);
    }
  }
}
