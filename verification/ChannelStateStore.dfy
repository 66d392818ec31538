/** The bounded evidence store for signed channel states (src/channel_state_store.rs:42-333). */
module ChannelStateStore {
  import opened Prelude
  import opened Text
  import opened Sorting
  import opened Commitments
  import opened ChannelState

  /** `observation_key`: a channel id holds no colon, so the pair stands for the joined string. */
  datatype Key = Key(channelId: string, signer: string)

  datatype Observation = Observation(observedUnix: nat, state: SignedState)

  datatype Store = Store(
    observations: map<Key, Observation>, proofs: map<string, EquivocationProof>,
    activations: map<string, ActivationRecord>)

  datatype Limits = Limits(maxObservations: nat, maxProofs: nat)

  datatype Outcome = New | Duplicate | Stale | Equivocation

  datatype Report = Report(outcome: Outcome, channelId: string, sequence: nat, hash: string, proofIds: seq<string>)

  datatype StoreError =
    | Invalid(state: StateError)
    | NotASuccessor(successor: SuccessorError)
    | ProofCapacity
    | ObservationCapacity
    | UnresolvedEquivocation
    | DifferentActivation
    | InitialStateNotStored
    | InvalidRecord(record: RecordError)
    | ActivationConflict
    | ActivationCapacity

  /** `ChannelStateStoreV2::new`. */
  function LimitsFor(maxChannels: nat): Limits {
    var channels := if maxChannels < 1 then 1 else maxChannels;
    Limits(if channels * 2 > U64_MAX then U64_MAX else channels * 2,
           if channels < 128 then 128 else if channels > 100_000 then 100_000 else channels)
  }

  // ----- observe, given the merged state -----

  datatype Finding = Same | SameWithFewer | Conflicting | Older | Fresh

  /** The match in the signature loop. */
  function Classify(obs: map<Key, Observation>, m: SignedState, signer: string): Finding {
    var k := Key(m.commitment.channelId, signer);
    if k in obs && obs[k].state.commitment.sequence == m.commitment.sequence then
      if obs[k].state.hash != m.hash then Conflicting
      else if |obs[k].state.signatures| < |m.signatures| then SameWithFewer else Same
    else if k in obs && obs[k].state.commitment.sequence > m.commitment.sequence then Older
    else Fresh
  }

  predicate IsUpdate(f: Finding) { f.SameWithFewer? || f.Fresh? }

  predicate IsSame(f: Finding) { f.Same? || f.SameWithFewer? }

  predicate IsOlder(f: Finding) { f.Older? }

  function Count(obs: map<Key, Observation>, m: SignedState, i: nat, p: Finding -> bool): nat
    requires i <= |m.signatures|
  {
    if i == 0 then 0 else Count(obs, m, i - 1, p) + (if p(Classify(obs, m, m.signatures[i - 1].address)) then 1 else 0)
  }

  /** Keys to update, in signature order. */
  function Updates(obs: map<Key, Observation>, m: SignedState, i: nat): seq<Key>
    requires i <= |m.signatures|
  {
    if i == 0 then [] else
      var a := m.signatures[i - 1].address;
      Updates(obs, m, i - 1) + if IsUpdate(Classify(obs, m, a)) then [Key(m.commitment.channelId, a)] else []
  }

  /** The proofs built for conflicting signers, or the first build error. */
  function Conflicts(
      v: Rules, obs: map<Key, Observation>, m: SignedState, i: nat): Result<seq<EquivocationProof>, StateError>
    requires i <= |m.signatures|
  {
    if i == 0 then Ok([]) else
      var before := Conflicts(v, obs, m, i - 1);
      var a := m.signatures[i - 1].address;
      if before.Err? || !Classify(obs, m, a).Conflicting? then before
      else
        var proof := v.build(a, obs[Key(m.commitment.channelId, a)].state, m);
        if proof.Err? then Err(proof.error) else Ok(before.value + [proof.value])
  }

  /** Every new id is checked against the proofs already stored, before any is added. */
  predicate IdsWithin(idOf: Ids, limits: Limits, proofs: map<string, EquivocationProof>, all: seq<EquivocationProof>) {
    forall p :: p in all && idOf(p) !in proofs ==> |proofs| < limits.maxProofs
  }

  /** `entry(id).or_insert(proof)` for one proof after another. */
  function WithProofs(idOf: Ids, proofs: map<string, EquivocationProof>, all: seq<EquivocationProof>)
    : map<string, EquivocationProof>
  {
    if all == [] then proofs else
      var before := WithProofs(idOf, proofs, all[..|all| - 1]);
      var p := all[|all| - 1];
      if idOf(p) in before then before else before[idOf(p) := p]
  }

  function WithObservations(obs: map<Key, Observation>, keys: seq<Key>, o: Observation): (r: map<Key, Observation>)
    ensures r.Keys == obs.Keys + set k | k in keys
    ensures forall k :: k in r ==> r[k] == if k in keys then o else obs[k]
  {
    if keys == [] then obs else WithObservations(obs, keys[..|keys| - 1], o)[keys[|keys| - 1] := o]
  }

  /** The verification head after a both-signed state. */
  function HeadAfter(v: Rules, r: ActivationRecord, m: SignedState): ActivationRecord {
    var h := r.head;
    if v.both(m) && (m.commitment.sequence > h.commitment.sequence
                         || (m.commitment.sequence == h.commitment.sequence && m.hash == h.hash
                              && |m.signatures| > |h.signatures|))
    then r.(head := m) else r
  }

  function WithHead(
      v: Rules, activations: map<string, ActivationRecord>, m: SignedState): map<string, ActivationRecord> {
    var id := m.commitment.channelId;
    if id in activations then activations[id := HeadAfter(v, activations[id], m)] else activations
  }

  function NewKeys(obs: map<Key, Observation>, keys: seq<Key>): nat {
    if keys == [] then 0 else NewKeys(obs, keys[..|keys| - 1]) + (if keys[|keys| - 1] in obs then 0 else 1)
  }

  function OutcomeOf(obs: map<Key, Observation>, m: SignedState): Outcome {
    var n := |m.signatures|;
    if Updates(obs, m, n) != [] then New
    else if Count(obs, m, n, IsSame) == n then Duplicate
    else if Count(obs, m, n, IsOlder) == n then Stale
    else New
  }

  /** Removes adjacent repetitions. */
  function Dedup(s: seq<string>): seq<string> {
    if |s| < 2 then s else
      var init := Dedup(s[..|s| - 1]);
      if init != [] && init[|init| - 1] == s[|s| - 1] then init else init + [s[|s| - 1]]
  }

  function IdsOf(idOf: Ids, all: seq<EquivocationProof>): (ids: seq<string>)
    ensures |ids| == |all| && forall i :: 0 <= i < |all| ==> ids[i] == idOf(all[i])
  {
    seq(|all|, i requires 0 <= i < |all| => idOf(all[i]))
  }

  function ReportOf(m: SignedState, outcome: Outcome, ids: seq<string>): Report {
    Report(outcome, m.commitment.channelId, m.commitment.sequence, m.hash, ids)
  }

  /** A state no signer of which conflicts: the newer entries and the head. */
  function Recorded(v: Rules, limits: Limits, s: Store, m: SignedState, now: nat): (Store, Result<Report, StoreError>) {
    var keys := Updates(s.observations, m, |m.signatures|);
    if |s.observations| + NewKeys(s.observations, keys) > limits.maxObservations then (s, Err(ObservationCapacity))
    else (s.(observations := WithObservations(s.observations, keys, Observation(now, m)),
             activations := WithHead(v, s.activations, m)),
          Ok(ReportOf(m, OutcomeOf(s.observations, m), [])))
  }

  /** A conflicting state: evidence only. */
  function Convicted(idOf: Ids, limits: Limits, s: Store, m: SignedState, conflicts: seq<EquivocationProof>)
    : (Store, Result<Report, StoreError>)
  {
    if !IdsWithin(idOf, limits, s.proofs, conflicts) then (s, Err(ProofCapacity))
    else (s.(proofs := WithProofs(idOf, s.proofs, conflicts)),
          Ok(ReportOf(m, Equivocation, Dedup(Sorted(IdsOf(idOf, conflicts), TextAtMost)))))
  }

  function Judged(v: Rules, limits: Limits, s: Store, m: SignedState, now: nat): (Store, Result<Report, StoreError>) {
    var conflicts := Conflicts(v, s.observations, m, |m.signatures|);
    if conflicts.Err? then (s, Err(Invalid(conflicts.error)))
    else if conflicts.value != [] then Convicted(v.id, limits, s, m, conflicts.value)
    else Recorded(v, limits, s, m, now)
  }

  /** The rest of `observe` after signatures were merged: new store and report, or an error and no change. */
  function Observed(v: Rules, limits: Limits, s: Store, m: SignedState, now: nat): (Store, Result<Report, StoreError>) {
    var id := m.commitment.channelId;
    if v.signed(m).Some? then (s, Err(Invalid(v.signed(m).value)))
    else if id in s.activations && v.successor(m, s.activations[id]).Some? then
      (s, Err(NotASuccessor(v.successor(m, s.activations[id]).value)))
    else Judged(v, limits, s, m, now)
  }

  // ----- merging known signatures -----

  predicate SameState(s: SignedState, t: SignedState) {
    s.commitment.channelId == t.commitment.channelId && s.hash == t.hash
  }

  /** Signatures of `state`, then some known one of every further signer of the same state. */
  ghost predicate Extends(
      obs: map<Key, Observation>, keys: set<Key>, state: SignedState, signatures: seq<StateSignature>) {
    && DistinctSigners(signatures)
    && (forall s :: s in state.signatures ==> s in signatures)
    && (forall s :: s in signatures ==>
          s in state.signatures || exists k ::
              k in obs && SameState(obs[k].state, state) && s in obs[k].state.signatures)
    && (forall k, s :: k in keys && k in obs && SameState(obs[k].state, state) && s in obs[k].state.signatures ==>
          HasAddress(signatures, s.address))
  }

  /** The state `observe` goes on with. */
  ghost predicate IsMerge(obs: map<Key, Observation>, state: SignedState, m: SignedState) {
    && m.commitment == state.commitment && m.hash == state.hash
    && Extends(obs, obs.Keys, state, m.signatures)
    && Ordered(m.signatures, AddressAtMost)
  }

  predicate AddressAtMost(s: StateSignature, t: StateSignature) { TextAtMost(s.address, t.address) }

  lemma AddressOrder()
    ensures Preorder(AddressAtMost)
  {
    forall a, b, c: StateSignature
      ensures (AddressAtMost(a, b) || AddressAtMost(b, a))
      ensures (AddressAtMost(a, b) && AddressAtMost(b, c) ==> AddressAtMost(a, c))
    {
      TextOrder(a.address, b.address, a.address);
      TextOrder(c.address, b.address, a.address);
      TextOrder(a.address, b.address, c.address);
      TextOrder(c.address, a.address, b.address);
      TextOrder(b.address, c.address, a.address);
    }
  }

  lemma PushExtends(
      obs: map<Key, Observation>, keys: set<Key>, state: SignedState, signatures: seq<StateSignature>, k: Key,
      s: StateSignature)
    requires Extends(obs, keys, state, signatures) && !HasAddress(signatures, s.address)
    requires k in obs && SameState(obs[k].state, state) && s in obs[k].state.signatures
    ensures Extends(obs, keys, state, signatures + [s])
  {
    var more := signatures + [s];
    forall a | HasAddress(signatures, a) ensures HasAddress(more, a) {
      var i :| 0 <= i < |signatures| && signatures[i].address == a;
      assert more[i].address == a;
    }
  }

  lemma PermutedExtends(
      obs: map<Key, Observation>, keys: set<Key>, state: SignedState, a: seq<StateSignature>, b: seq<StateSignature>)
    requires Extends(obs, keys, state, a) && multiset(a) == multiset(b)
    ensures Extends(obs, keys, state, b)
  {
    forall s ensures s in a <==> s in b {
      assert s in a <==> s in multiset(a);
      assert s in b <==> s in multiset(b);
    }
    forall i, k | 0 <= i < k < |b| ensures b[i].address != b[k].address {
      if b[i].address == b[k].address {
        TwiceInPermutation(a, b, i, k);
      }
    }
    forall x | HasAddress(a, x) ensures HasAddress(b, x) {
      var i :| 0 <= i < |a| && a[i].address == x;
      assert a[i] in b;
      var k :| 0 <= k < |b| && b[k] == a[i];
    }
  }

  /** Two positions with one address in a permutation are two positions in the original. */
  lemma TwiceInPermutation(a: seq<StateSignature>, b: seq<StateSignature>, i: nat, k: nat)
    requires multiset(a) == multiset(b) && i < k < |b| && b[i].address == b[k].address
    ensures !DistinctSigners(a)
  {
    var s, t := b[i], b[k];
    assert s in multiset(b) && t in multiset(b);
    var p :| 0 <= p < |a| && a[p] == s;
    var q :| 0 <= q < |a| && a[q] == t;
    if p == q {
      assert b == b[..k] + [t] + b[k + 1..];
      assert s in b[..k];
      assert multiset(b)[s] >= 2;
      assert a == a[..p] + [s] + a[p + 1..];
      assert s in a[..p] || s in a[p + 1..];
      if s in a[..p] {
        var r :| 0 <= r < p && a[r] == s;
      } else {
        var r :| 0 <= r < |a[p + 1..]| && a[p + 1..][r] == s;
        assert a[p + 1 + r] == s;
      }
    }
  }

  // ----- restoring and activating -----

  /** `restore_observation` from signature `i` on; an error leaves earlier insertions in place. */
  function RestoredFrom(
      limits: Limits, obs: map<Key, Observation>, o: Observation, i: nat): (map<Key, Observation>, Option<StoreError>)
    requires i <= |o.state.signatures|
    decreases |o.state.signatures| - i
  {
    if i == |o.state.signatures| then (obs, None)
    else
      var k := Key(o.state.commitment.channelId, o.state.signatures[i].address);
      if k in obs && obs[k].state.commitment.sequence == o.state.commitment.sequence
          && obs[k].state.hash != o.state.hash then
        (obs, Some(UnresolvedEquivocation))
      else if k in obs && obs[k].state.commitment.sequence >= o.state.commitment.sequence
          then RestoredFrom(limits, obs, o, i + 1)
      else if k !in obs && |obs| >= limits.maxObservations then (obs, Some(ObservationCapacity))
      else RestoredFrom(limits, obs[k := o], o, i + 1)
  }

  function RestoredObservation(v: Rules, limits: Limits, obs: map<Key, Observation>, o: Observation)
    : (map<Key, Observation>, Option<StoreError>)
  {
    if v.signed(o.state).Some? then (obs, Some(Invalid(v.signed(o.state).value))) else RestoredFrom(limits, obs, o, 0)
  }

  function RestoredProof(v: Rules, limits: Limits, proofs: map<string, EquivocationProof>, p: EquivocationProof)
    : (map<string, EquivocationProof>, Option<StoreError>)
  {
    var id := v.id(p);
    if v.proof(p).Some? then (proofs, Some(Invalid(v.proof(p).value)))
    else if id in proofs then (proofs, None)
    else if |proofs| >= limits.maxProofs then (proofs, Some(ProofCapacity))
    else (proofs[id := p], None)
  }

  function RestoredActivation(v: Rules, limits: Limits, activations: map<string, ActivationRecord>, r: ActivationRecord)
    : (map<string, ActivationRecord>, Option<StoreError>)
  {
    var id := r.certificate.commitment.channelId;
    if v.record(r).Some? then (activations, Some(InvalidRecord(v.record(r).value)))
    else if id in activations then (activations, if activations[id] == r then None else Some(ActivationConflict))
    else if |activations| >= limits.maxObservations / 2 then (activations, Some(ActivationCapacity))
    else (activations[id := r], None)
  }

  /** A stored observation an activation may start from. */
  predicate CanStart(v: Rules, certificate: SignedActivation, o: Observation) {
    MatchesState(certificate, o.state) && v.both(o.state)
  }

  /** `activate` with the chosen initial observation, if any. */
  function Activated(v: Rules, s: Store, certificate: SignedActivation, initial: Option<Observation>, now: nat)
    : (Store, Result<ActivationRecord, StoreError>)
  {
    var id := certificate.commitment.channelId;
    if v.certificate(certificate).Some? then (s, Err(Invalid(v.certificate(certificate).value)))
    else if id in s.activations then
      (s, if s.activations[id].certificate.hash == certificate.hash then Ok(s.activations[id])
          else Err(DifferentActivation))
    else if initial.None? then (s, Err(InitialStateNotStored))
    else
      var record := ActivationRecord(now, certificate, initial.value.state);
      var error := v.record(record);
      if error.Some? then (s, Err(InvalidRecord(error.value)))
          else (s.(activations := s.activations[id := record]), Ok(record))
  }

  // ----- the store -----

  class ChannelStateStoreV2 {
    const rules: Rules
    const limits: Limits
    var observations: map<Key, Observation>
    var proofs: map<string, EquivocationProof>
    var activations: map<string, ActivationRecord>

    constructor (crypto: Crypto, maxChannels: nat)
      ensures Valid() && rules == RulesOf(crypto) && limits == LimitsFor(maxChannels)
      ensures View() == Store(map[], map[], map[])
      ensures 0 < 2 * maxChannels <= U64_MAX ==> limits.maxObservations == 2 * maxChannels
      ensures 128 <= limits.maxProofs <= 100_000 && (128 <= maxChannels <= 100_000 ==> limits.maxProofs == maxChannels)
    {
      SignedIsLawful(crypto);
      rules, limits := RulesOf(crypto), LimitsFor(maxChannels);
      observations, proofs, activations := map[], map[], map[];
    }

    ghost predicate Valid() { SignedLaw(rules) }

    function View(): Store
      reads this
    {
      Store(observations, proofs, activations)
    }

    /** Adds the known signatures of the same state. */
    method Merge(state: SignedState) returns (m: SignedState)
      requires DistinctSigners(state.signatures)
      ensures IsMerge(observations, state, m)
    {
      var signatures := state.signatures;
      var rest := observations.Keys;
      while rest != {}
        invariant rest <= observations.Keys && Extends(observations, observations.Keys - rest, state, signatures)
        decreases |rest|
      {
        var k :| k in rest;
        signatures := MergeOne(state, k, observations.Keys - rest, signatures);
        assert observations.Keys - (rest - {k}) == observations.Keys - rest + {k};
        rest := rest - {k};
      }
      assert observations.Keys - {} == observations.Keys;
      m := SortSignatures(state, signatures);
    }

    method MergeOne(state: SignedState, k: Key, ghost done: set<Key>, signatures: seq<StateSignature>)
      returns (more: seq<StateSignature>)
      requires k in observations && Extends(observations, done, state, signatures)
      ensures Extends(observations, done + {k}, state, more)
    {
      more := signatures;
      if SameState(observations[k].state, state) {
        more := AddKnown(state, k, done, signatures);
      }
    }

    method SortSignatures(state: SignedState, signatures: seq<StateSignature>) returns (m: SignedState)
      requires Extends(observations, observations.Keys, state, signatures)
      ensures IsMerge(observations, state, m)
    {
      var sorted := Sort(signatures, AddressAtMost);
      AddressOrder();
      SortedIsOrdered(signatures, AddressAtMost);
      PermutedExtends(observations, observations.Keys, state, signatures, sorted);
      m := state.(signatures := sorted);
    }

    method AddKnown(state: SignedState, k: Key, ghost done: set<Key>, signatures: seq<StateSignature>)
      returns (more: seq<StateSignature>)
      requires k in observations && SameState(observations[k].state, state)
      requires Extends(observations, done, state, signatures)
      ensures Extends(observations, done + {k}, state, more)
    {
      more := signatures;
      var known := observations[k].state.signatures;
      for i := 0 to |known|
        invariant Extends(observations, done, state, more)
        invariant forall j :: 0 <= j < i ==> HasAddress(more, known[j].address)
      {
        if !HasAddress(more, known[i].address) {
          PushExtends(observations, done, state, more, k, known[i]);
          ghost var before := more;
          more := more + [known[i]];
          assert more[|before|].address == known[i].address;
          forall j | 0 <= j < i ensures HasAddress(more, known[j].address) {
            var q :| 0 <= q < |before| && before[q].address == known[j].address;
            assert more[q].address == known[j].address;
          }
        }
      }
    }

    /** The signature loop of `observe`. */
    method Examine(m: SignedState)
      returns (conflicts: Result<seq<EquivocationProof>, StateError>, updates: seq<Key>, duplicates: nat, stale: nat)
      ensures conflicts == Conflicts(rules, observations, m, |m.signatures|)
      ensures conflicts.Ok? ==>
                && updates == Updates(observations, m, |m.signatures|)
                && duplicates == Count(observations, m, |m.signatures|, IsSame)
                && stale == Count(observations, m, |m.signatures|, IsOlder)
    {
      var found: seq<EquivocationProof> := [];
      updates, duplicates, stale := [], 0, 0;
      for i := 0 to |m.signatures|
        invariant Conflicts(rules, observations, m, i) == Ok(found)
        invariant updates == Updates(observations, m, i)
        invariant duplicates == Count(observations, m, i, IsSame) && stale == Count(observations, m, i, IsOlder)
      {
        var signer := m.signatures[i].address;
        var key := Key(m.commitment.channelId, signer);
        match Classify(observations, m, signer)
        case Same =>
          duplicates := duplicates + 1;
        case SameWithFewer =>
          duplicates := duplicates + 1;
          updates := updates + [key];
        case Conflicting =>
          var proof := rules.build(signer, observations[key].state, m);
          if proof.Err? {
            assert Conflicts(rules, observations, m, i + 1) == Err(proof.error);
            ErrorStays(rules, observations, m, i + 1, |m.signatures|, proof.error);
            return Err(proof.error), updates, duplicates, stale;
          }
          found := found + [proof.value];
        case Older =>
          stale := stale + 1;
        case Fresh =>
          updates := updates + [key];
      }
      return Ok(found), updates, duplicates, stale;
    }

    /** The first proof loop: room for every new id. */
    method CheckRoom(idOf: Ids, conflicts: seq<EquivocationProof>) returns (ids: Option<seq<string>>)
      ensures ids.Some? <==> IdsWithin(idOf, limits, proofs, conflicts)
      ensures ids.Some? ==> ids.value == IdsOf(idOf, conflicts)
    {
      var found: seq<string> := [];
      for i := 0 to |conflicts|
        invariant |found| == i && forall j :: 0 <= j < i ==> found[j] == idOf(conflicts[j])
        invariant forall j :: 0 <= j < i && idOf(conflicts[j]) !in proofs ==> |proofs| < limits.maxProofs
      {
        var id := idOf(conflicts[i]);
        if id !in proofs && |proofs| >= limits.maxProofs {
          assert conflicts[i] in conflicts;
          return None;
        }
        found := found + [id];
      }
      assert found == IdsOf(idOf, conflicts);
      return Some(found);
    }

    /** The second: insert what is not there yet. */
    method InsertProofs(idOf: Ids, conflicts: seq<EquivocationProof>, ids: seq<string>)
      requires ids == IdsOf(idOf, conflicts)
      modifies this`proofs
      ensures proofs == WithProofs(idOf, old(proofs), conflicts)
    {
      for i := 0 to |conflicts|
        invariant proofs == WithProofs(idOf, old(proofs), conflicts[..i])
      {
        assert conflicts[..i + 1][..i] == conflicts[..i];
        if ids[i] !in proofs {
          proofs := proofs[ids[i] := conflicts[i]];
        }
      }
      assert conflicts[..|conflicts|] == conflicts;
    }

    method CountNew(keys: seq<Key>) returns (n: nat)
      ensures n == NewKeys(observations, keys)
    {
      n := 0;
      for i := 0 to |keys|
        invariant n == NewKeys(observations, keys[..i])
      {
        assert keys[..i + 1][..i] == keys[..i];
        if keys[i] !in observations {
          n := n + 1;
        }
      }
      assert keys[..|keys|] == keys;
    }

    method Insert(keys: seq<Key>, o: Observation)
      modifies this`observations
      ensures observations == WithObservations(old(observations), keys, o)
    {
      for i := 0 to |keys|
        invariant observations == WithObservations(old(observations), keys[..i], o)
      {
        assert keys[..i + 1][..i] == keys[..i];
        observations := observations[keys[i] := o];
      }
      assert keys[..|keys|] == keys;
    }

    method AdvanceHead(m: SignedState)
      modifies this`activations
      ensures activations == WithHead(rules, old(activations), m)
    {
      var id := m.commitment.channelId;
      if rules.both(m) && id in activations {
        var record := activations[id];
        var head := record.head;
        if m.commitment.sequence > head.commitment.sequence
           || (m.commitment.sequence == head.commitment.sequence && m.hash == head.hash
                && |m.signatures| > |head.signatures|) {
          activations := activations[id := record.(head := m)];
        }
      }
    }

    /** `observe`: on an error nothing changed. */
    method Observe(state: SignedState, now: nat) returns (r: Result<Report, StoreError>, ghost merged: SignedState)
      requires Valid()
      modifies this
      ensures rules.signed(state).Some? ==>
                r == Err(Invalid(rules.signed(state).value)) && View() == old(View())
      ensures rules.signed(state).None? ==>
                && IsMerge(old(observations), state, merged)
                && (View(), r) == Observed(rules, limits, old(View()), merged, now)
    {
      merged := state;
      var error := rules.signed(state);
      if error.Some? {
        return Err(Invalid(error.value)), merged;
      }
      var m := Merge(state);
      merged := m;
      error := rules.signed(m);
      if error.Some? {
        return Err(Invalid(error.value)), merged;
      }
      if m.commitment.channelId in activations {
        var gap := rules.successor(m, activations[m.commitment.channelId]);
        if gap.Some? {
          return Err(NotASuccessor(gap.value)), merged;
        }
      }
      r := Apply(m, now);
    }

    method Convict(idOf: Ids, m: SignedState, conflicts: seq<EquivocationProof>) returns (r: Result<Report, StoreError>)
      modifies this`proofs
      ensures (View(), r) == Convicted(idOf, limits, old(View()), m, conflicts)
    {
      var ids := CheckRoom(idOf, conflicts);
      if ids.None? {
        return Err(ProofCapacity);
      }
      InsertProofs(idOf, conflicts, ids.value);
      var sorted := Sort(ids.value, TextAtMost);
      return Ok(ReportOf(m, Equivocation, Dedup(sorted)));
    }

    method Record(m: SignedState, now: nat, updates: seq<Key>, duplicates: nat, stale: nat)
      returns (r: Result<Report, StoreError>)
      requires updates == Updates(observations, m, |m.signatures|)
      requires duplicates == Count(observations, m, |m.signatures|, IsSame)
      requires stale == Count(observations, m, |m.signatures|, IsOlder)
      modifies this`observations, this`activations
      ensures (View(), r) == Recorded(rules, limits, old(View()), m, now)
    {
      var newKeys := CountNew(updates);
      if |observations| + newKeys > limits.maxObservations {
        return Err(ObservationCapacity);
      }
      var outcome := OutcomeFor(m, updates, duplicates, stale);
      Commit(m, now, updates);
      return Ok(ReportOf(m, outcome, []));
    }

    method Commit(m: SignedState, now: nat, updates: seq<Key>)
      modifies this`observations, this`activations
      ensures observations == WithObservations(old(observations), updates, Observation(now, m))
      ensures activations == WithHead(rules, old(activations), m)
    {
      Insert(updates, Observation(now, m));
      AdvanceHead(m);
    }

    method OutcomeFor(m: SignedState, updates: seq<Key>, duplicates: nat, stale: nat) returns (outcome: Outcome)
      requires updates == Updates(observations, m, |m.signatures|)
      requires duplicates == Count(observations, m, |m.signatures|, IsSame)
      requires stale == Count(observations, m, |m.signatures|, IsOlder)
      ensures outcome == OutcomeOf(observations, m)
    {
      outcome := if updates != [] then New
                 else if duplicates == |m.signatures| then Duplicate
                 else if stale == |m.signatures| then Stale else New;
    }

    /** `observe` after the merged state passed validation and the successor check. */
    method Apply(m: SignedState, now: nat) returns (r: Result<Report, StoreError>)
      modifies this
      ensures (View(), r) == Judged(rules, limits, old(View()), m, now)
    {
      var conflicts, updates, duplicates, stale := Examine(m);
      if conflicts.Err? {
        return Err(Invalid(conflicts.error));
      }
      if conflicts.value != [] {
        r := Convict(rules.id, m, conflicts.value);
      } else {
        r := Record(m, now, updates, duplicates, stale);
      }
    }

    /** `restore_observation`. */
    method RestoreObservation(o: Observation) returns (error: Option<StoreError>)
      modifies this`observations
      ensures (observations, error) == RestoredObservation(rules, limits, old(observations), o)
    {
      var invalid := rules.signed(o.state);
      if invalid.Some? {
        return Some(Invalid(invalid.value));
      }
      var signatures := o.state.signatures;
      for i := 0 to |signatures|
        invariant RestoredFrom(limits, old(observations), o, 0) == RestoredFrom(limits, observations, o, i)
      {
        var key := Key(o.state.commitment.channelId, signatures[i].address);
        if key in observations {
          var existing := observations[key].state;
          if existing.commitment.sequence == o.state.commitment.sequence && existing.hash != o.state.hash {
            return Some(UnresolvedEquivocation);
          }
          if existing.commitment.sequence >= o.state.commitment.sequence {
            continue;
          }
        } else if |observations| >= limits.maxObservations {
          return Some(ObservationCapacity);
        }
        observations := observations[key := o];
      }
      return None;
    }

    /** `restore_proof`. */
    method RestoreProof(p: EquivocationProof) returns (error: Option<StoreError>)
      modifies this`proofs
      ensures (proofs, error) == RestoredProof(rules, limits, old(proofs), p)
      ensures error.None? <==>
                rules.proof(p).None? && (rules.id(p) in old(proofs) || |old(proofs)| < limits.maxProofs)
      ensures proofs == if error.None? && rules.id(p) !in old(proofs) then old(proofs)[rules.id(p) := p]
                        else old(proofs)
    {
      var invalid := rules.proof(p);
      if invalid.Some? {
        return Some(Invalid(invalid.value));
      }
      var idOf := rules.id;
      var id := idOf(p);
      if id !in proofs {
        if |proofs| >= limits.maxProofs {
          return Some(ProofCapacity);
        }
        proofs := proofs[id := p];
      }
      return None;
    }

    /** `restore_activation`. */
    method RestoreActivation(r: ActivationRecord) returns (error: Option<StoreError>)
      modifies this`activations
      ensures (activations, error) == RestoredActivation(rules, limits, old(activations), r)
      ensures var id := r.certificate.commitment.channelId;
              && (error.None? <==>
                   && rules.record(r).None?
                   && if id in old(activations) then old(activations)[id] == r
                      else |old(activations)| < limits.maxObservations / 2)
              && activations == if error.None? then old(activations)[id := r] else old(activations)
    {
      var invalid := rules.record(r);
      if invalid.Some? {
        return Some(InvalidRecord(invalid.value));
      }
      var id := r.certificate.commitment.channelId;
      if id in activations {
        return if activations[id] == r then None else Some(ActivationConflict);
      }
      if |activations| >= limits.maxObservations / 2 {
        return Some(ActivationCapacity);
      }
      activations := activations[id := r];
      return None;
    }

    /** The search for a stored state the certificate can start from. */
    method FindInitial(certificate: SignedActivation) returns (initial: Option<Observation>)
      ensures initial.Some? ==>
                  CanStart(rules, certificate, initial.value) && exists k ::
                      k in observations && observations[k] == initial.value
      ensures initial.None? ==> forall k :: k in observations ==> !CanStart(rules, certificate, observations[k])
    {
      var rest := observations.Keys;
      while rest != {}
        invariant rest <= observations.Keys
        invariant forall k :: k in observations && k !in rest ==> !CanStart(rules, certificate, observations[k])
        decreases |rest|
      {
        var k :| k in rest;
        if CanStart(rules, certificate, observations[k]) {
          return Some(observations[k]);
        }
        rest := rest - {k};
      }
      return None;
    }

    /** `activate`. */
    method Activate(certificate: SignedActivation, now: nat)
      returns (r: Result<ActivationRecord, StoreError>, initial: Option<Observation>)
      modifies this`activations
      ensures (View(), r) == Activated(rules, old(View()), certificate, initial, now)
      ensures initial.Some? ==>
                  CanStart(rules, certificate, initial.value) && exists k ::
                      k in observations && observations[k] == initial.value
      ensures r == Err(InitialStateNotStored) ==>
                  forall k :: k in observations ==> !CanStart(rules, certificate, observations[k])
    {
      var invalid := rules.certificate(certificate);
      if invalid.Some? {
        return Err(Invalid(invalid.value)), None;
      }
      var id := certificate.commitment.channelId;
      if id in activations {
        return if activations[id].certificate.hash == certificate.hash then Ok(activations[id])
            else Err(DifferentActivation), None;
      }
      initial := FindInitial(certificate);
      if initial.None? {
        return Err(InitialStateNotStored), None;
      }
      var record := ActivationRecord(now, certificate, initial.value.state);
      var error := rules.record(record);
      if error.Some? {
        return Err(InvalidRecord(error.value)), initial;
      }
      activations := activations[id := record];
      return Ok(record), initial;
    }
  }

  lemma {:induction false} ErrorStays(
      v: Rules, obs: map<Key, Observation>, m: SignedState, from: nat, last: nat, e: StateError)
    requires from <= last <= |m.signatures| && Conflicts(v, obs, m, from) == Err(e)
    ensures forall j :: from <= j <= last ==> Conflicts(v, obs, m, j) == Err(e)
    decreases last - from
  {
    if from < last {
      assert Conflicts(v, obs, m, from + 1) == Err(e);
      ErrorStays(v, obs, m, from + 1, last, e);
    }
  }
}
