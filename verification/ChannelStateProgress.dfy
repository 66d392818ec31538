/**
 What the evidence store accepts and what it then holds, signer by signer: news is recorded, a direct successor
 becomes the head, a contradiction becomes evidence, and nothing else happens
 (src/channel_state_store.rs:75-333, 392-462).
 */
module ChannelStateProgress {
  import opened Prelude
  import opened Text
  import opened Sorting
  import opened Encoding
  import opened Commitments
  import opened ChannelState
  import opened ChannelStateStore
  import opened ChannelStateRuns

  // ----- one signer's entry against the observed state -----

  function SignerKeys(m: SignedState): (keys: set<Key>) {
    set i | 0 <= i < |m.signatures| :: Key(m.commitment.channelId, m.signatures[i].address)
  }

  /** The signer's entry holds a different state of this sequence. */
  predicate Contradicted(obs: map<Key, Observation>, m: SignedState, k: Key) {
    && k in obs && obs[k].state.commitment.sequence == m.commitment.sequence && obs[k].state.hash != m.hash
  }

  ghost predicate Uncontradicted(obs: map<Key, Observation>, m: SignedState) {
    forall k :: k in SignerKeys(m) ==> !Contradicted(obs, m, k)
  }

  /** The signer has no entry, an older one, or this sequence's with fewer signatures. */
  predicate IsNews(obs: map<Key, Observation>, m: SignedState, k: Key) {
    || k !in obs || obs[k].state.commitment.sequence < m.commitment.sequence
    || (obs[k].state.commitment.sequence == m.commitment.sequence && |obs[k].state.signatures| < |m.signatures|)
  }

  /** The signer's entry is this sequence's, with at least as many signatures. */
  predicate IsKnown(obs: map<Key, Observation>, m: SignedState, k: Key) {
    && k in obs && obs[k].state.commitment.sequence == m.commitment.sequence
    && |obs[k].state.signatures| >= |m.signatures|
  }

  predicate IsAhead(obs: map<Key, Observation>, m: SignedState, k: Key) {
    k in obs && obs[k].state.commitment.sequence > m.commitment.sequence
  }

  /** The channel is not activated, or the state is not later than its head, or the head's direct successor. */
  predicate MayFollow(v: Rules, s: Store, m: SignedState) {
    m.commitment.channelId in s.activations ==>
      var r := s.activations[m.commitment.channelId];
      && v.record(r).None?
      && (|| m.commitment.sequence <= r.head.commitment.sequence
          || (m.commitment.sequence == r.head.commitment.sequence + 1 && m.commitment.previous == r.head.hash))
  }

  lemma KeyOfSigner(m: SignedState, k: Key)
    ensures k in SignerKeys(m) <==> k.channelId == m.commitment.channelId && HasAddress(m.signatures, k.signer)
  {
    if k.channelId == m.commitment.channelId && HasAddress(m.signatures, k.signer) {
      var i :| 0 <= i < |m.signatures| && m.signatures[i].address == k.signer;
      assert k == Key(m.commitment.channelId, m.signatures[i].address);
    }
  }

  lemma FindingOf(obs: map<Key, Observation>, m: SignedState, k: Key)
    requires k.channelId == m.commitment.channelId
    ensures Classify(obs, m, k.signer).Conflicting? <==> Contradicted(obs, m, k)
    ensures !Contradicted(obs, m, k) ==>
              && (IsUpdate(Classify(obs, m, k.signer)) <==> IsNews(obs, m, k))
              && (Classify(obs, m, k.signer).Same? <==> IsKnown(obs, m, k))
              && (IsOlder(Classify(obs, m, k.signer)) <==> IsAhead(obs, m, k))
  {
    assert k == Key(m.commitment.channelId, k.signer);
  }

  // ----- contradictions are collected, one proof for every contradicted signer -----

  /** The proof against a contradicted signer: both states, the one whose hash sorts first in front. */
  function ProofAgainst(obs: map<Key, Observation>, m: SignedState, k: Key): (p: EquivocationProof)
    requires k in obs
    ensures p.signer == Trim(k.signer) && !TextBefore(p.second.hash, p.first.hash)
    ensures (p.first == obs[k].state && p.second == m) || (p.first == m && p.second == obs[k].state)
  {
    TextOrder(obs[k].state.hash, m.hash, obs[k].state.hash);
    Assembled(k.signer, obs[k].state, m)
  }

  ghost predicate IsEvidence(obs: map<Key, Observation>, m: SignedState, p: EquivocationProof) {
    exists k :: k in SignerKeys(m) && Contradicted(obs, m, k) && p == ProofAgainst(obs, m, k)
  }

  lemma {:induction false} ConflictsAreEvidence(
      v: Rules, reg: Registry, obs: map<Key, Observation>, m: SignedState, i: nat, p: EquivocationProof)
    requires Lawful(v) && EntriesSigned(v, reg, obs) && Admissible(v, reg, m) && i <= |m.signatures|
    requires Conflicts(v, obs, m, i).Ok? && p in Conflicts(v, obs, m, i).value
    ensures IsEvidence(obs, m, p)
  {
    if i > 0 {
      ConflictsAllBuild(v, reg, obs, m, i - 1);
      OneConflict(v, obs, m, i);
      if p in Conflicts(v, obs, m, i - 1).value {
        ConflictsAreEvidence(v, reg, obs, m, i - 1, p);
      } else {
        var a := m.signatures[i - 1].address;
        var k := Key(m.commitment.channelId, a);
        assert HasAddress(m.signatures, a);
        FindingOf(obs, m, k);
        KeyOfSigner(m, k);
        ConflictProves(v, reg, obs, m, a);
      }
    }
  }

  /** The loop builds the proofs against the contradicted signers, and no others. */
  lemma ConflictsExactly(v: Rules, reg: Registry, obs: map<Key, Observation>, m: SignedState)
    returns (all: seq<EquivocationProof>)
    requires Lawful(v) && EntriesSigned(v, reg, obs) && Admissible(v, reg, m)
    ensures Conflicts(v, obs, m, |m.signatures|) == Ok(all)
    ensures forall p :: p in all <==> IsEvidence(obs, m, p)
  {
    ConflictsAllBuild(v, reg, obs, m, |m.signatures|);
    all := Conflicts(v, obs, m, |m.signatures|).value;
    forall p ensures p in all <==> IsEvidence(obs, m, p) {
      if p in all {
        ConflictsAreEvidence(v, reg, obs, m, |m.signatures|, p);
      }
      if IsEvidence(obs, m, p) {
        var k :| k in SignerKeys(m) && Contradicted(obs, m, k) && p == ProofAgainst(obs, m, k);
        KeyOfSigner(m, k);
        FindingOf(obs, m, k);
        var j :| 0 <= j < |m.signatures| && m.signatures[j].address == k.signer;
        assert k == Key(m.commitment.channelId, m.signatures[j].address);
      }
    }
  }

  lemma {:induction false} NoneCollected(v: Rules, obs: map<Key, Observation>, m: SignedState, i: nat)
    requires i <= |m.signatures| && Uncontradicted(obs, m)
    ensures Conflicts(v, obs, m, i) == Ok([])
  {
    if i > 0 {
      NoneCollected(v, obs, m, i - 1);
      FindingOf(obs, m, Key(m.commitment.channelId, m.signatures[i - 1].address));
    }
  }

  // ----- recording -----

  /** The keys with an entry, and those of the first `i` signers. */
  function KeysWith(known: set<Key>, m: SignedState, i: nat): set<Key>
    requires i <= |m.signatures|
  {
    if i == 0 then known else KeysWith(known, m, i - 1) + {Key(m.commitment.channelId, m.signatures[i - 1].address)}
  }

  lemma {:induction false} InKeysWith(known: set<Key>, m: SignedState, i: nat, k: Key)
    requires i <= |m.signatures|
    ensures k in KeysWith(known, m, i) <==>
            k in known || exists j :: 0 <= j < i && k == Key(m.commitment.channelId, m.signatures[j].address)
  {
    if i > 0 {
      InKeysWith(known, m, i - 1, k);
    }
  }

  lemma NewSigner(known: set<Key>, m: SignedState, i: nat)
    requires 0 < i <= |m.signatures| && DistinctSigners(m.signatures)
    ensures var k := Key(m.commitment.channelId, m.signatures[i - 1].address);
            k in KeysWith(known, m, i - 1) <==> k in known
  {
    InKeysWith(known, m, i - 1, Key(m.commitment.channelId, m.signatures[i - 1].address));
  }

  lemma OneMore(some: set<Key>, k: Key)
    ensures |some + {k}| == |some| + if k in some then 0 else 1
  {
    if k in some {
      assert some + {k} == some;
    }
  }

  lemma {:induction false} KeysCounted(known: set<Key>, m: SignedState, i: nat)
    requires i <= |m.signatures| && DistinctSigners(m.signatures)
    ensures |KeysWith(known, m, i)| == |known| + Unknown(known, m, i)
  {
    if i > 0 {
      KeysCounted(known, m, i - 1);
      NewSigner(known, m, i);
      OneMore(KeysWith(known, m, i - 1), Key(m.commitment.channelId, m.signatures[i - 1].address));
    }
  }

  /** How many of the first `i` signers have no entry. */
  function Unknown(known: set<Key>, m: SignedState, i: nat): nat
    requires i <= |m.signatures|
  {
    if i == 0 then 0
    else Unknown(known, m, i - 1) + if Key(m.commitment.channelId, m.signatures[i - 1].address) in known then 0 else 1
  }

  lemma OneMoreNew(obs: map<Key, Observation>, keys: seq<Key>, k: Key)
    ensures NewKeys(obs, keys + [k]) == NewKeys(obs, keys) + if k in obs then 0 else 1
  {
    assert (keys + [k])[..|keys|] == keys;
  }

  /** A signer without an entry is always updated. */
  lemma UpdateOf(obs: map<Key, Observation>, m: SignedState, i: nat)
    requires 0 < i <= |m.signatures|
    ensures var k := Key(m.commitment.channelId, m.signatures[i - 1].address);
            && (Updates(obs, m, i) == Updates(obs, m, i - 1) + [k]
                || (k in obs && Updates(obs, m, i) == Updates(obs, m, i - 1)))
  {
    assert Updates(obs, m, i - 1) + [] == Updates(obs, m, i - 1);
  }

  /** The room asked for is that of the signers without an entry. */
  lemma {:induction false} NewKeysExact(obs: map<Key, Observation>, m: SignedState, i: nat)
    requires i <= |m.signatures|
    ensures NewKeys(obs, Updates(obs, m, i)) == Unknown(obs.Keys, m, i)
  {
    if i > 0 {
      NewKeysExact(obs, m, i - 1);
      OneMoreNew(obs, Updates(obs, m, i - 1), Key(m.commitment.channelId, m.signatures[i - 1].address));
      UpdateOf(obs, m, i);
    }
  }

  lemma AllKeys(known: set<Key>, m: SignedState)
    ensures KeysWith(known, m, |m.signatures|) == known + SignerKeys(m)
  {
    forall k ensures k in KeysWith(known, m, |m.signatures|) <==> k in known + SignerKeys(m) {
      InKeysWith(known, m, |m.signatures|, k);
    }
  }

  lemma RoomAsked(obs: map<Key, Observation>, m: SignedState)
    requires DistinctSigners(m.signatures)
    ensures |obs| + NewKeys(obs, Updates(obs, m, |m.signatures|)) == |obs.Keys + SignerKeys(m)|
  {
    NewKeysExact(obs, m, |m.signatures|);
    KeysCounted(obs.Keys, m, |m.signatures|);
    AllKeys(obs.Keys, m);
  }

  /** Every signer for whom the state is news has it as its entry, and every other entry is as before. */
  ghost predicate HoldsAfter(
      obs: map<Key, Observation>, m: SignedState, now: nat, after: map<Key, Observation>) {
    && after.Keys == obs.Keys + SignerKeys(m)
    && forall k :: k in after ==>
         after[k] == if k in SignerKeys(m) && IsNews(obs, m, k) then Observation(now, m) else obs[k]
  }

  lemma TargetIsNews(obs: map<Key, Observation>, m: SignedState, k: Key)
    requires Uncontradicted(obs, m)
    ensures IsTarget(obs, m, k) <==> k in SignerKeys(m) && IsNews(obs, m, k)
  {
    KeyOfSigner(m, k);
    if k in SignerKeys(m) {
      FindingOf(obs, m, k);
    }
  }

  lemma RecordedHolds(obs: map<Key, Observation>, m: SignedState, now: nat, after: map<Key, Observation>)
    requires Uncontradicted(obs, m) && Records(obs, m, now, after)
    ensures HoldsAfter(obs, m, now, after)
  {
    forall k ensures IsTarget(obs, m, k) <==> k in SignerKeys(m) && IsNews(obs, m, k) {
      TargetIsNews(obs, m, k);
    }
  }

  /** A state that contradicts no signer is recorded exactly if there is room for its signers. */
  lemma EntriesRecorded(v: Rules, limits: Limits, s: Store, m: SignedState, now: nat)
    requires DistinctSigners(m.signatures) && Uncontradicted(s.observations, m)
    ensures var (after, r) := Recorded(v, limits, s, m, now);
            && (r.Ok? <==> |s.observations.Keys + SignerKeys(m)| <= limits.maxObservations)
            && (r.Err? ==> r == Err(ObservationCapacity) && after == s)
            && (r.Ok? ==> after.proofs == s.proofs && HoldsAfter(s.observations, m, now, after.observations))
  {
    RoomAsked(s.observations, m);
    RecordingUpdatesTargets(s.observations, m, now);
    if Recorded(v, limits, s, m, now).1.Ok? {
      RecordedHolds(s.observations, m, now, Recorded(v, limits, s, m, now).0.observations);
    }
  }

  // ----- what is reported -----

  lemma {:induction false} CountAll(obs: map<Key, Observation>, m: SignedState, i: nat, p: Finding -> bool)
    requires i <= |m.signatures|
    ensures Count(obs, m, i, p) <= i
    ensures Count(obs, m, i, p) == i <==> forall j :: 0 <= j < i ==> p(Classify(obs, m, m.signatures[j].address))
  {
    if i > 0 {
      CountAll(obs, m, i - 1, p);
    }
  }

  lemma NothingUpdated(obs: map<Key, Observation>, m: SignedState)
    ensures Updates(obs, m, |m.signatures|) == [] <==>
            forall j :: 0 <= j < |m.signatures| ==> !IsUpdate(Classify(obs, m, m.signatures[j].address))
  {
    var keys := Updates(obs, m, |m.signatures|);
    if keys != [] {
      UpdatedKeys(obs, m, |m.signatures|, keys[0]);
    }
    if j :| 0 <= j < |m.signatures| && IsUpdate(Classify(obs, m, m.signatures[j].address)) {
      UpdatedKeys(obs, m, |m.signatures|, Key(m.commitment.channelId, m.signatures[j].address));
    }
  }

  lemma FindingAt(obs: map<Key, Observation>, m: SignedState, j: nat)
    requires Uncontradicted(obs, m) && j < |m.signatures|
    ensures var k, f := Key(m.commitment.channelId, m.signatures[j].address), Classify(obs, m, m.signatures[j].address);
            && k in SignerKeys(m) && (f.Same? <==> IsKnown(obs, m, k)) && (IsUpdate(f) <==> IsNews(obs, m, k))
            && (IsOlder(f) <==> IsAhead(obs, m, k)) && !f.Conflicting?
  {
    FindingOf(obs, m, Key(m.commitment.channelId, m.signatures[j].address));
  }

  /** Duplicate when every signer's entry already is this state in full, stale when every signer is ahead of it. */
  lemma OutcomeIsExact(obs: map<Key, Observation>, m: SignedState)
    requires Uncontradicted(obs, m) && m.signatures != []
    ensures OutcomeOf(obs, m).Duplicate? <==> forall k :: k in SignerKeys(m) ==> IsKnown(obs, m, k)
    ensures OutcomeOf(obs, m).Stale? <==> forall k :: k in SignerKeys(m) ==> IsAhead(obs, m, k)
    ensures !OutcomeOf(obs, m).Equivocation?
  {
    NothingUpdated(obs, m);
    CountAll(obs, m, |m.signatures|, IsSame);
    CountAll(obs, m, |m.signatures|, IsOlder);
    forall j | 0 <= j < |m.signatures|
      ensures var k, f := Key(m.commitment.channelId, m.signatures[j].address),
                          Classify(obs, m, m.signatures[j].address);
              && k in SignerKeys(m) && (f.Same? <==> IsKnown(obs, m, k)) && (IsUpdate(f) <==> IsNews(obs, m, k))
              && (IsOlder(f) <==> IsAhead(obs, m, k)) && !f.Conflicting?
    {
      FindingAt(obs, m, j);
    }
    assert Key(m.commitment.channelId, m.signatures[0].address) in SignerKeys(m);
  }

  // ----- the head -----

  /** Signed by both parties, and later than the head or the head with more signatures. */
  predicate TakesHead(r: ActivationRecord, m: SignedState) {
    && HasAddress(m.signatures, m.commitment.left) && HasAddress(m.signatures, m.commitment.right)
    && (|| m.commitment.sequence > r.head.commitment.sequence
        || (m.commitment.sequence == r.head.commitment.sequence && m.hash == r.head.hash
             && |m.signatures| > |r.head.signatures|))
  }

  /** Only the state's own channel may get it as its head. */
  ghost predicate HeadsAfter(
      records: map<string, ActivationRecord>, m: SignedState, after: map<string, ActivationRecord>) {
    && after.Keys == records.Keys
    && forall id :: id in after ==>
         after[id] == if id == m.commitment.channelId && TakesHead(records[id], m) then records[id].(head := m)
                      else records[id]
  }

  lemma HeadsMove(v: Rules, records: map<string, ActivationRecord>, m: SignedState)
    requires BothLaw(v) && v.signed(m).None?
    ensures HeadsAfter(records, m, WithHead(v, records, m))
  {
  }

  // ----- observing -----

  /** What recording a state reports and leaves. */
  ghost predicate IsRecorded(s: Store, m: SignedState, now: nat, after: Store, report: Report) {
    && after.proofs == s.proofs && HoldsAfter(s.observations, m, now, after.observations)
    && HeadsAfter(s.activations, m, after.activations)
    && report.channelId == m.commitment.channelId && report.sequence == m.commitment.sequence
    && report.hash == m.hash && report.proofIds == []
    && (report.outcome.Duplicate? <==> forall k :: k in SignerKeys(m) ==> IsKnown(s.observations, m, k))
    && (report.outcome.Stale? <==> forall k :: k in SignerKeys(m) ==> IsAhead(s.observations, m, k))
    && !report.outcome.Equivocation?
  }

  /**
   A valid state that may follow and contradicts no signer is recorded exactly if there is room for its signers:
   each gets it as its entry unless its own is newer or as complete, and nothing else changes but the head.
   */
  lemma StateIsRecorded(v: Rules, limits: Limits, s: Store, m: SignedState, now: nat)
    requires Lawful(v) && v.signed(m).None? && MayFollow(v, s, m) && Uncontradicted(s.observations, m)
    ensures var (after, r) := Observed(v, limits, s, m, now);
            && (r.Ok? <==> |s.observations.Keys + SignerKeys(m)| <= limits.maxObservations)
            && (r.Ok? ==> IsRecorded(s, m, now, after, r.value))
            && (r.Err? ==> r == Err(ObservationCapacity) && after == s)
  {
    NoneCollected(v, s.observations, m, |m.signatures|);
    JudgedRecords(v, limits, s, m, now);
    EntriesRecorded(v, limits, s, m, now);
    OutcomeIsExact(s.observations, m);
    HeadsMove(v, s.activations, m);
    if Recorded(v, limits, s, m, now).1.Ok? {
      RecordedParts(v, limits, s, m, now);
    }
  }

  lemma JudgedRecords(v: Rules, limits: Limits, s: Store, m: SignedState, now: nat)
    requires SuccessorLaw(v) && v.signed(m).None? && MayFollow(v, s, m)
    requires Conflicts(v, s.observations, m, |m.signatures|) == Ok([])
    ensures Observed(v, limits, s, m, now) == Recorded(v, limits, s, m, now)
  {
  }

  lemma RecordedParts(v: Rules, limits: Limits, s: Store, m: SignedState, now: nat)
    requires Recorded(v, limits, s, m, now).1.Ok?
    ensures var (after, r) := Recorded(v, limits, s, m, now);
            && after.activations == WithHead(v, s.activations, m)
            && r.value.outcome == OutcomeOf(s.observations, m) && r.value.channelId == m.commitment.channelId
            && r.value.sequence == m.commitment.sequence && r.value.hash == m.hash && r.value.proofIds == []
  {
  }

  /** An invalid state, and one that skips ahead of the head or does not bind it, change nothing. */
  lemma OthersAreRefused(v: Rules, limits: Limits, s: Store, m: SignedState, now: nat)
    requires SuccessorLaw(v) && (v.signed(m).Some? || !MayFollow(v, s, m))
    ensures var (after, r) := Observed(v, limits, s, m, now);
            && after == s && r.Err? && (v.signed(m).Some? ==> r.error.Invalid?)
            && (v.signed(m).None? ==> r.error.NotASuccessor?)
  {
  }

  // ----- contradictions -----

  /** The id of the proof against some contradicted signer. */
  ghost predicate IsEvidenceId(idOf: Ids, obs: map<Key, Observation>, m: SignedState, id: string) {
    exists k :: k in SignerKeys(m) && Contradicted(obs, m, k) && idOf(ProofAgainst(obs, m, k)) == id
  }

  ghost predicate IsIdOf(idOf: Ids, all: seq<EquivocationProof>, id: string) {
    exists p :: p in all && idOf(p) == id
  }

  lemma EvidenceIds(idOf: Ids, obs: map<Key, Observation>, m: SignedState, all: seq<EquivocationProof>, id: string)
    requires forall p :: p in all <==> IsEvidence(obs, m, p)
    ensures IsIdOf(idOf, all, id) <==> IsEvidenceId(idOf, obs, m, id)
  {
    if IsIdOf(idOf, all, id) {
      var p :| p in all && idOf(p) == id;
      assert IsEvidence(obs, m, p);
    }
    if IsEvidenceId(idOf, obs, m, id) {
      var k :| k in SignerKeys(m) && Contradicted(obs, m, k) && idOf(ProofAgainst(obs, m, k)) == id;
      assert IsEvidence(obs, m, ProofAgainst(obs, m, k));
    }
  }

  lemma {:induction false} ProofsAdded(idOf: Ids, proofs: map<string, EquivocationProof>, all: seq<EquivocationProof>)
    ensures var after := WithProofs(idOf, proofs, all);
            && (forall id :: id in after <==> id in proofs || IsIdOf(idOf, all, id))
            && (forall id :: id in proofs ==> after[id] == proofs[id])
            && forall id :: id in after && id !in proofs ==> after[id] in all && idOf(after[id]) == id
  {
    if all != [] {
      var n := |all| - 1;
      ProofsAdded(idOf, proofs, all[..n]);
      assert all == all[..n] + [all[n]];
      assert forall p :: p in all <==> p in all[..n] || p == all[n];
      forall id ensures IsIdOf(idOf, all, id) <==> IsIdOf(idOf, all[..n], id) || id == idOf(all[n]) {
        IdsOfMore(idOf, all, id);
      }
    }
  }

  lemma IdsOfMore(idOf: Ids, all: seq<EquivocationProof>, id: string)
    requires all != []
    ensures IsIdOf(idOf, all, id) <==> IsIdOf(idOf, all[..|all| - 1], id) || id == idOf(all[|all| - 1])
  {
    var n := |all| - 1;
    assert all == all[..n] + [all[n]];
    if IsIdOf(idOf, all, id) {
      var p :| p in all && idOf(p) == id;
    }
    if IsIdOf(idOf, all[..n], id) {
      var p :| p in all[..n] && idOf(p) == id;
      assert p in all;
    }
  }

  lemma TextsAreOrdered()
    ensures Preorder(TextAtMost)
  {
    forall a, b, c: string
      ensures (TextAtMost(a, b) || TextAtMost(b, a)) && (TextAtMost(a, b) && TextAtMost(b, c) ==> TextAtMost(a, c))
    {
      TextOrder(a, b, a);
      TextOrder(c, b, a);
      TextOrder(b, c, a);
      TextOrder(c, a, b);
    }
  }

  /** Each text once, in increasing order. */
  predicate Increasing(s: seq<string>) {
    forall i, j :: 0 <= i < j < |s| ==> TextBefore(s[i], s[j])
  }

  lemma {:induction false} DedupIncreases(s: seq<string>)
    requires Ordered(s, TextAtMost)
    ensures Increasing(Dedup(s)) && (forall id :: id in Dedup(s) <==> id in s)
    ensures s != [] ==> Dedup(s) != [] && Dedup(s)[|Dedup(s)| - 1] == s[|s| - 1]
  {
    if |s| >= 2 {
      var n := |s| - 1;
      assert s == s[..n] + [s[n]];
      DedupIncreases(s[..n]);
      var before := Dedup(s[..n]);
      assert s[..n][|s[..n]| - 1] == s[n - 1];
      assert TextAtMost(s[n - 1], s[n]);
      if s[n - 1] != s[n] {
        forall i | 0 <= i < |before| ensures TextBefore(before[i], s[n]) {
          TextOrder(s[n - 1], s[n], s[n]);
          TextOrder(before[i], s[n - 1], s[n]);
        }
      }
    }
  }

  lemma IdsReported(idOf: Ids, all: seq<EquivocationProof>)
    ensures var ids := Dedup(Sorted(IdsOf(idOf, all), TextAtMost));
            Increasing(ids) && forall id :: id in ids <==> IsIdOf(idOf, all, id)
  {
    var some := IdsOf(idOf, all);
    TextsAreOrdered();
    SortedIsOrdered(some, TextAtMost);
    DedupIncreases(Sorted(some, TextAtMost));
    forall id ensures id in Sorted(some, TextAtMost) <==> IsIdOf(idOf, all, id) {
      assert id in multiset(Sorted(some, TextAtMost)) <==> id in multiset(some);
      if id in some {
        var i :| 0 <= i < |some| && some[i] == id;
        assert all[i] in all;
      }
      if IsIdOf(idOf, all, id) {
        var p :| p in all && idOf(p) == id;
        var i :| 0 <= i < |all| && all[i] == p;
        assert some[i] == id;
      }
    }
  }

  /** What convicting reports and leaves: a proof against every contradicted signer, and no other change. */
  ghost predicate IsConvicted(idOf: Ids, s: Store, m: SignedState, after: Store, report: Report) {
    && after.observations == s.observations && after.activations == s.activations
    && (forall id :: id in after.proofs <==> id in s.proofs || IsEvidenceId(idOf, s.observations, m, id))
    && (forall id :: id in s.proofs ==> after.proofs[id] == s.proofs[id])
    && (forall id :: id in after.proofs && id !in s.proofs ==>
          IsEvidence(s.observations, m, after.proofs[id]) && idOf(after.proofs[id]) == id)
    && report.outcome == Equivocation && report.channelId == m.commitment.channelId
    && report.sequence == m.commitment.sequence && report.hash == m.hash
    && Increasing(report.proofIds)
    && forall id :: id in report.proofIds <==> IsEvidenceId(idOf, s.observations, m, id)
  }

  lemma ConvictedLeaves(
      idOf: Ids, limits: Limits, s: Store, m: SignedState, all: seq<EquivocationProof>)
    requires forall p :: p in all <==> IsEvidence(s.observations, m, p)
    ensures var (after, r) := Convicted(idOf, limits, s, m, all);
            && (r.Ok? <==> |s.proofs| < limits.maxProofs
                           || forall id :: IsEvidenceId(idOf, s.observations, m, id) ==> id in s.proofs)
            && (r.Ok? ==> IsConvicted(idOf, s, m, after, r.value))
            && (r.Err? ==> r == Err(ProofCapacity) && after == s)
  {
    forall id ensures IsIdOf(idOf, all, id) <==> IsEvidenceId(idOf, s.observations, m, id) {
      EvidenceIds(idOf, s.observations, m, all, id);
    }
    ProofsAdded(idOf, s.proofs, all);
    IdsReported(idOf, all);
    assert IdsWithin(idOf, limits, s.proofs, all) <==>
           |s.proofs| < limits.maxProofs || forall id :: IsIdOf(idOf, all, id) ==> id in s.proofs;
  }

  /**
   A valid state that may follow and contradicts some signer gives a proof against each such signer, and is
   refused exactly if one of them is new and the proofs are full.
   */
  lemma ContradictionIsEvidence(v: Rules, reg: Registry, limits: Limits, s: Store, m: SignedState, now: nat)
    requires Lawful(v) && EntriesSigned(v, reg, s.observations) && Admissible(v, reg, m)
    requires MayFollow(v, s, m) && !Uncontradicted(s.observations, m)
    ensures var (after, r) := Observed(v, limits, s, m, now);
            && (r.Ok? <==> |s.proofs| < limits.maxProofs
                           || forall id :: IsEvidenceId(v.id, s.observations, m, id) ==> id in s.proofs)
            && (r.Ok? ==> IsConvicted(v.id, s, m, after, r.value))
            && (r.Err? ==> r == Err(ProofCapacity) && after == s)
  {
    var all := ConflictsExactly(v, reg, s.observations, m);
    var k :| k in SignerKeys(m) && Contradicted(s.observations, m, k);
    assert IsEvidence(s.observations, m, ProofAgainst(s.observations, m, k));
    JudgedConvicts(v, limits, s, m, now, all);
    ConvictedLeaves(v.id, limits, s, m, all);
  }

  lemma JudgedConvicts(
      v: Rules, limits: Limits, s: Store, m: SignedState, now: nat, all: seq<EquivocationProof>)
    requires SuccessorLaw(v) && v.signed(m).None? && MayFollow(v, s, m)
    requires Conflicts(v, s.observations, m, |m.signatures|) == Ok(all) && all != []
    ensures Observed(v, limits, s, m, now) == Convicted(v.id, limits, s, m, all)
  {
  }

  // ----- the head of an activated channel -----

  /** The state after the head that names the head's hash as its predecessor's. */
  predicate Succeeds(h: SignedState, m: SignedState) {
    m.commitment.sequence == h.commitment.sequence + 1 && m.commitment.previous == h.hash
  }

  lemma TwoSigners(signatures: seq<StateSignature>, left: string, right: string, i: nat)
    requires |signatures| == 2 && DistinctSigners(signatures) && left != right && i < 2
    requires HasAddress(signatures, left) && HasAddress(signatures, right)
    ensures signatures[i].address == left || signatures[i].address == right
  {
  }

  /** The parties of an activated channel have their entries, so a both-signed state of it always finds room. */
  lemma PartiesHaveRoom(v: Rules, reg: Registry, s: Store, m: SignedState)
    requires SignedLaw(v) && BothLaw(v) && RecordLaw(v) && ActivationsSound(v, reg, s) && Admissible(v, reg, m)
    requires m.commitment.channelId in s.activations
    requires HasAddress(m.signatures, m.commitment.left) && HasAddress(m.signatures, m.commitment.right)
    ensures s.observations.Keys + SignerKeys(m) == s.observations.Keys
  {
    var id := m.commitment.channelId;
    var h := s.activations[id].head.commitment;
    assert v.record(s.activations[id]).None? && h.channelId == id;
    forall k | k in SignerKeys(m) ensures k in s.observations.Keys {
      var i :| 0 <= i < |m.signatures| && k == Key(id, m.signatures[i].address);
      TwoSigners(m.signatures, m.commitment.left, m.commitment.right, i);
    }
  }

  ghost predicate LaterOfBoth(v: Rules, reg: Registry, s: Store, m: SignedState) {
    && Admissible(v, reg, m) && m.commitment.channelId in s.activations
    && HasAddress(m.signatures, m.commitment.left) && HasAddress(m.signatures, m.commitment.right)
    && m.commitment.sequence > s.activations[m.commitment.channelId].head.commitment.sequence
  }

  lemma LaterFollows(v: Rules, reg: Registry, s: Store, m: SignedState)
    requires ActivationsSound(v, reg, s) && LaterOfBoth(v, reg, s, m)
    ensures MayFollow(v, s, m) <==> Succeeds(s.activations[m.commitment.channelId].head, m)
  {
  }

  lemma HeadTaken(
      records: map<string, ActivationRecord>, m: SignedState, after: map<string, ActivationRecord>)
    requires HeadsAfter(records, m, after) && m.commitment.channelId in records
    requires TakesHead(records[m.commitment.channelId], m)
    ensures after == records[m.commitment.channelId := records[m.commitment.channelId].(head := m)]
  {
  }

  lemma SuccessorIsHead(v: Rules, limits: Limits, s: Store, m: SignedState, now: nat)
    requires Lawful(v) && v.signed(m).None? && MayFollow(v, s, m) && Uncontradicted(s.observations, m)
    requires s.observations.Keys + SignerKeys(m) == s.observations.Keys && |s.observations| <= limits.maxObservations
    requires m.commitment.channelId in s.activations && TakesHead(s.activations[m.commitment.channelId], m)
    ensures var (after, r) := Observed(v, limits, s, m, now);
            && r.Ok? && IsRecorded(s, m, now, after, r.value)
            && after.activations == s.activations[
                 m.commitment.channelId := s.activations[m.commitment.channelId].(head := m)]
  {
    StateIsRecorded(v, limits, s, m, now);
    HeadTaken(s.activations, m, Observed(v, limits, s, m, now).0.activations);
  }

  lemma GoodParts(v: Rules, reg: Registry, limits: Limits, s: Store)
    requires Good(v, reg, limits, s)
    ensures Lawful(v) && EntriesSigned(v, reg, s.observations) && ActivationsSound(v, reg, s)
    ensures |s.observations| <= limits.maxObservations
  {
    GoodMeans(v, reg, limits, s);
  }

  lemma LaterParts(v: Rules, reg: Registry, limits: Limits, s: Store, m: SignedState)
    requires Good(v, reg, limits, s) && LaterOfBoth(v, reg, s, m)
    ensures Lawful(v) && EntriesSigned(v, reg, s.observations) && |s.observations| <= limits.maxObservations
    ensures MayFollow(v, s, m) <==> Succeeds(s.activations[m.commitment.channelId].head, m)
    ensures s.observations.Keys + SignerKeys(m) == s.observations.Keys
  {
    GoodParts(v, reg, limits, s);
    LaterFollows(v, reg, s, m);
    PartiesHaveRoom(v, reg, s, m);
  }

  /** The head's direct successor by both, contradicting no signer, becomes the head: there is always room. */
  lemma HeadAdvancesOn(v: Rules, reg: Registry, limits: Limits, s: Store, m: SignedState, now: nat)
    requires Good(v, reg, limits, s) && LaterOfBoth(v, reg, s, m) && Uncontradicted(s.observations, m)
    requires Succeeds(s.activations[m.commitment.channelId].head, m)
    ensures var (after, r) := Observed(v, limits, s, m, now);
            && r.Ok? && IsRecorded(s, m, now, after, r.value)
            && after.activations == s.activations[
                 m.commitment.channelId := s.activations[m.commitment.channelId].(head := m)]
  {
    LaterParts(v, reg, limits, s, m);
    SuccessorIsHead(v, limits, s, m, now);
  }

  /** Any other later both-signed state moves no head and no entry. */
  lemma HeadHolds(v: Rules, reg: Registry, limits: Limits, s: Store, m: SignedState, now: nat)
    requires Good(v, reg, limits, s) && LaterOfBoth(v, reg, s, m)
    requires !Succeeds(s.activations[m.commitment.channelId].head, m) || !Uncontradicted(s.observations, m)
    ensures Observed(v, limits, s, m, now).0.activations == s.activations
    ensures Observed(v, limits, s, m, now).0.observations == s.observations
  {
    LaterParts(v, reg, limits, s, m);
    if !MayFollow(v, s, m) {
      OthersAreRefused(v, limits, s, m, now);
    } else {
      ContradictionIsEvidence(v, reg, limits, s, m, now);
    }
  }

  /**
   A later both-signed state becomes the head of its activated channel exactly if it is the head's direct
   successor and contradicts no signer: nothing else, capacity included, keeps the head from advancing.
   */
  lemma HeadMovesIff(v: Rules, reg: Registry, limits: Limits, s: Store, m: SignedState, now: nat)
    requires Good(v, reg, limits, s) && LaterOfBoth(v, reg, s, m)
    ensures m.commitment.channelId in Observed(v, limits, s, m, now).0.activations
    ensures Observed(v, limits, s, m, now).0.activations[m.commitment.channelId].head == m <==>
            Succeeds(s.activations[m.commitment.channelId].head, m) && Uncontradicted(s.observations, m)
  {
    if Succeeds(s.activations[m.commitment.channelId].head, m) && Uncontradicted(s.observations, m) {
      HeadAdvancesOn(v, reg, limits, s, m, now);
    } else {
      HeadHolds(v, reg, limits, s, m, now);
    }
  }

  // ----- merged signatures -----

  /** Entries of the observed state are valid. */
  ghost predicate KnownIsValid(x: Crypto, obs: map<Key, Observation>, state: SignedState) {
    forall k :: k in obs && SameState(obs[k].state, state) ==> CheckSigned(x, obs[k].state).None?
  }

  /** Where a merged signature comes from: the state itself, or a valid entry of the same state. */
  lemma MergedFrom(x: Crypto, obs: map<Key, Observation>, state: SignedState, m: SignedState, s: StateSignature)
    returns (t: SignedState)
    requires Injective(x) && CheckSigned(x, state).None? && KnownIsValid(x, obs, state)
    requires IsMerge(obs, state, m) && s in m.signatures
    ensures CheckSigned(x, t).None? && t.commitment == m.commitment && t.hash == m.hash && s in t.signatures
    ensures forall a :: HasAddress(t.signatures, a) ==> HasAddress(m.signatures, a)
  {
    if s in state.signatures {
      t := state;
      forall a | HasAddress(t.signatures, a) ensures HasAddress(m.signatures, a) {
        MergeKeepsSigner(obs, state, m, a);
      }
    } else {
      var k :| k in obs && SameState(obs[k].state, state) && s in obs[k].state.signatures;
      t := obs[k].state;
      HashNamesState(x, t, state);
      MergeCarriesKnown(obs, state, m);
    }
  }

  lemma SignatureHolds(x: Crypto, t: SignedState, s: StateSignature)
    requires CheckSigned(x, t).None? && s in t.signatures
    ensures IsParty(t.commitment, Trim(s.address)) && HasAddress(t.signatures, Trim(s.address))
    ensures Trim(s.address) == s.address ==> x.verifies(t.hash, s.address, s.signatureHex, s.publicKeyHex)
  {
    SignedIsSound(x, t);
    var i :| 0 <= i < |t.signatures| && t.signatures[i] == s;
    SignedByIff(x, t, s.address);
    FoundIsThere(t.signatures, s.address, i);
  }

  /** Every merged signature passes the check of one signer. */
  lemma MergedIsSigned(x: Crypto, obs: map<Key, Observation>, state: SignedState, m: SignedState, s: StateSignature)
    requires Injective(x) && CheckSigned(x, state).None? && KnownIsValid(x, obs, state)
    requires IsMerge(obs, state, m) && s in m.signatures
    ensures CheckSignedBy(x, m, s.address).None?
  {
    var t := MergedFrom(x, obs, state, m, s);
    SignatureHolds(x, t, s);
    var a := Trim(s.address);
    PartiesTrimmed(t.commitment);
    var j :| 0 <= j < |m.signatures| && m.signatures[j].address == a;
    FoundIsThere(m.signatures, a, j);
    var u := MergedFrom(x, obs, state, m, m.signatures[j]);
    SignatureHolds(x, u, m.signatures[j]);
  }

  /** A merge is valid exactly if it has no more than two signatures. */
  lemma MergeIsValidIff(x: Crypto, obs: map<Key, Observation>, state: SignedState, m: SignedState)
    requires Injective(x) && CheckSigned(x, state).None? && KnownIsValid(x, obs, state) && IsMerge(obs, state, m)
    ensures CheckSigned(x, m).None? <==> |m.signatures| <= 2
    ensures |m.signatures| > 2 ==> CheckSigned(x, m) == Some(SignatureCount)
  {
    forall j | 0 <= j < |m.signatures| ensures CheckSignedBy(x, m, m.signatures[j].address).None? {
      MergedIsSigned(x, obs, state, m, m.signatures[j]);
    }
    SignedIsSound(x, state);
    assert state.signatures[0] in m.signatures;
    SignedIsSound(x, m);
  }

  function Addresses(signatures: seq<StateSignature>, i: nat): set<string>
    requires i <= |signatures|
  {
    if i == 0 then {} else Addresses(signatures, i - 1) + {signatures[i - 1].address}
  }

  lemma {:induction false} InAddresses(signatures: seq<StateSignature>, i: nat, a: string)
    requires i <= |signatures|
    ensures a in Addresses(signatures, i) <==> exists j :: 0 <= j < i && signatures[j].address == a
  {
    if i > 0 {
      InAddresses(signatures, i - 1, a);
    }
  }

  lemma {:induction false} EachAddressOnce(signatures: seq<StateSignature>, i: nat)
    requires DistinctSigners(signatures) && i <= |signatures|
    ensures |Addresses(signatures, i)| == i
  {
    if i > 0 {
      EachAddressOnce(signatures, i - 1);
      InAddresses(signatures, i - 1, signatures[i - 1].address);
    }
  }

  lemma NoSmaller<T>(a: set<T>, b: set<T>)
    requires a <= b
    ensures |a| <= |b| && (|a| == |b| ==> a == b)
  {
    assert b == a + (b - a);
    if |a| == |b| {
      assert b - a == {};
    }
  }

  /** Signers of one sequence among those of another: no more of them, and as many only if they are the same. */
  lemma SignersWithin(some: seq<StateSignature>, all: seq<StateSignature>)
    requires DistinctSigners(some) && DistinctSigners(all)
    requires forall a :: HasAddress(some, a) ==> HasAddress(all, a)
    ensures |some| <= |all| && (|some| == |all| ==> forall a :: HasAddress(all, a) ==> HasAddress(some, a))
  {
    var s, t := Addresses(some, |some|), Addresses(all, |all|);
    forall a ensures (a in s <==> HasAddress(some, a)) && (a in t <==> HasAddress(all, a)) {
      InAddresses(some, |some|, a);
      InAddresses(all, |all|, a);
    }
    EachAddressOnce(some, |some|);
    EachAddressOnce(all, |all|);
    NoSmaller(s, t);
  }

  /** A state by both parties merges with what is known of it exactly if it has all the signers, as written. */
  lemma BothMergesIff(x: Crypto, obs: map<Key, Observation>, state: SignedState, m: SignedState)
    requires Injective(x) && CheckSigned(x, state).None? && KnownIsValid(x, obs, state) && IsMerge(obs, state, m)
    requires |state.signatures| == 2
    ensures CheckSigned(x, m).None? <==> CarriesKnown(obs, state)
    ensures CheckSigned(x, m).Some? ==> CheckSigned(x, m) == Some(SignatureCount)
  {
    MergeIsValidIff(x, obs, state, m);
    MergeCarriesKnown(obs, state, m);
    SignedIsSound(x, state);
    forall a | HasAddress(state.signatures, a) ensures HasAddress(m.signatures, a) {
      MergeKeepsSigner(obs, state, m, a);
    }
    SignersWithin(state.signatures, m.signatures);
    if CarriesKnown(obs, state) {
      MergeAddsNobody(obs, state, m);
      SignersWithin(m.signatures, state.signatures);
    }
  }

  lemma MergeAddsNobody(obs: map<Key, Observation>, state: SignedState, m: SignedState)
    requires IsMerge(obs, state, m) && CarriesKnown(obs, state)
    ensures forall a :: HasAddress(m.signatures, a) ==> HasAddress(state.signatures, a)
  {
    forall a | HasAddress(m.signatures, a) ensures HasAddress(state.signatures, a) {
      var j :| 0 <= j < |m.signatures| && m.signatures[j].address == a;
      var s := m.signatures[j];
      assert s in m.signatures;
      if s in state.signatures {
        var i :| 0 <= i < |state.signatures| && state.signatures[i] == s;
      } else {
        var k :| k in obs && SameState(obs[k].state, state) && s in obs[k].state.signatures;
        var i :| 0 <= i < |obs[k].state.signatures| && obs[k].state.signatures[i] == s;
        assert HasAddress(obs[k].state.signatures, a);
      }
    }
  }

  lemma MergeKeepsSigner(obs: map<Key, Observation>, state: SignedState, m: SignedState, a: string)
    requires IsMerge(obs, state, m) && HasAddress(state.signatures, a)
    ensures HasAddress(m.signatures, a)
  {
    var i :| 0 <= i < |state.signatures| && state.signatures[i].address == a;
    assert state.signatures[i] in m.signatures;
    var j :| 0 <= j < |m.signatures| && m.signatures[j] == state.signatures[i];
  }

  lemma SameSigners(obs: map<Key, Observation>, state: SignedState, m: SignedState)
    requires IsMerge(obs, state, m) && CarriesKnown(obs, state)
    requires HasAddress(state.signatures, m.commitment.left) && HasAddress(state.signatures, m.commitment.right)
    ensures HasAddress(m.signatures, m.commitment.left) && HasAddress(m.signatures, m.commitment.right)
    ensures forall k :: k in SignerKeys(m) ==> k in SignerKeys(state)
  {
    MergeKeepsSigner(obs, state, m, m.commitment.left);
    MergeKeepsSigner(obs, state, m, m.commitment.right);
    MergeAddsNobody(obs, state, m);
    forall k | k in SignerKeys(m) ensures k in SignerKeys(state) {
      KeyOfSigner(m, k);
      KeyOfSigner(state, k);
    }
  }

  lemma LaterMerges(x: Crypto, reg: Registry, limits: Limits, s: Store, state: SignedState, m: SignedState)
    requires Injective(x) && Good(RulesOf(x), reg, limits, s) && LaterOfBoth(RulesOf(x), reg, s, state)
    requires IsMerge(s.observations, state, m)
    ensures CheckSigned(x, m).None? <==> CarriesKnown(s.observations, state)
    ensures CheckSigned(x, m).Some? ==> CheckSigned(x, m) == Some(SignatureCount)
  {
    var v := RulesOf(x);
    GoodParts(v, reg, limits, s);
    assert v.signed(state).None? && forall k :: k in s.observations ==> v.signed(s.observations[k].state).None?;
    assert |state.signatures| == 2;
    BothMergesIff(x, s.observations, state, m);
  }

  /** The merge of a head's successor is its successor still, and contradicts nobody either. */
  lemma SuccessorMerges(v: Rules, reg: Registry, s: Store, state: SignedState, m: SignedState)
    requires v.signed(m).None? && LaterOfBoth(v, reg, s, state) && CarriesKnown(s.observations, state)
    requires Uncontradicted(s.observations, state) && IsMerge(s.observations, state, m)
    ensures LaterOfBoth(v, reg, s, m) && Uncontradicted(s.observations, m)
  {
    SameSigners(s.observations, state, m);
  }

  /**
   In any run: the valid direct successor of an activated channel's head, signed by both parties and contradicting
   no entry of theirs, becomes the head exactly if no entry of the same state has a signer that it lacks as
   written; otherwise it is refused, and nothing changes.
   */
  lemma SuccessorReachesHead(
      x: Crypto, reg: Registry, limits: Limits, s: Store, ops: seq<Op>, state: SignedState, m: SignedState, now: nat)
    requires Injective(x) && Ran(RulesOf(x), reg, limits, EMPTY, ops) == Some(s)
    requires LaterOfBoth(RulesOf(x), reg, s, state) && Succeeds(s.activations[state.commitment.channelId].head, state)
    requires Uncontradicted(s.observations, state) && IsMerge(s.observations, state, m)
    ensures Possible(RulesOf(x), reg, s, ObserveOp(state, m, now))
    ensures var (after, r) := Observed(RulesOf(x), limits, s, m, now);
            if CarriesKnown(s.observations, state) then
              && r.Ok? && m.hash == state.hash && m.commitment == state.commitment
              && after.activations == s.activations[
                   m.commitment.channelId := s.activations[m.commitment.channelId].(head := m)]
            else after == s && r == Err(Invalid(SignatureCount))
  {
    ReachedInv(x, reg, limits, s, ops);
    LaterMerges(x, reg, limits, s, state, m);
    if CarriesKnown(s.observations, state) {
      SuccessorMerges(RulesOf(x), reg, s, state, m);
      HeadAdvancesOn(RulesOf(x), reg, limits, s, m, now);
    }
  }

  /** Where signers are written without blanks around them, a state by both parties lacks nobody. */
  lemma TrimmedCarriesKnown(x: Crypto, obs: map<Key, Observation>, state: SignedState)
    requires Injective(x) && CheckSigned(x, state).None? && KnownIsValid(x, obs, state)
    requires HasAddress(state.signatures, state.commitment.left)
    requires HasAddress(state.signatures, state.commitment.right)
    requires forall k :: k in obs ==> TrimmedSigners(obs[k].state)
    ensures CarriesKnown(obs, state)
  {
    forall k, a | k in obs && SameState(obs[k].state, state) && HasAddress(obs[k].state.signatures, a)
      ensures HasAddress(state.signatures, a)
    {
      var t := obs[k].state;
      var i :| 0 <= i < |t.signatures| && t.signatures[i].address == a;
      HashNamesState(x, t, state);
      SignatureHolds(x, t, t.signatures[i]);
    }
  }

  // ----- activating -----

  /** A sound record: a valid certificate, and a valid state by both parties that is not before its start. */
  lemma RecordIff(x: Crypto, r: ActivationRecord)
    ensures CheckActivationRecord(x, r).None? <==>
            var c, h := r.certificate.commitment, r.head.commitment;
            && r.activatedUnix > 0 && CheckSignedActivation(x, r.certificate).None? && CheckSigned(x, r.head).None?
            && HasAddress(r.head.signatures, h.left) && HasAddress(r.head.signatures, h.right)
            && c.channelId == h.channelId && c.genesis == h.genesis && c.anchor == h.anchor
            && c.left == h.left && c.right == h.right && h.sequence >= c.initialSequence
            && (h.sequence == c.initialSequence ==> r.head.hash == c.initialHash)
  {
    if CheckSigned(x, r.head).None? {
      BothIff(x, r.head);
    }
  }

  /** The certificate names this state of its channel, and both parties signed it. */
  predicate NamesState(c: ActivationCommitment, s: SignedState) {
    && c.channelId == s.commitment.channelId && c.genesis == s.commitment.genesis && c.anchor == s.commitment.anchor
    && c.left == s.commitment.left && c.right == s.commitment.right
    && c.initialSequence == s.commitment.sequence && c.initialHash == s.hash
    && HasAddress(s.signatures, s.commitment.left) && HasAddress(s.signatures, s.commitment.right)
  }

  lemma CanStartIff(x: Crypto, certificate: SignedActivation, o: Observation)
    requires CheckSigned(x, o.state).None?
    ensures CanStart(RulesOf(x), certificate, o) <==> NamesState(certificate.commitment, o.state)
  {
    BothIff(x, o.state);
  }

  /**
   A valid certificate activates its channel exactly if the channel has no other and the clock is set: the head is
   the state it names, and the same certificate again changes nothing.
   */
  lemma ActivationIsExact(
      x: Crypto, s: Store, certificate: SignedActivation, initial: Option<Observation>, now: nat)
    requires initial.Some? ==> NamesState(certificate.commitment, initial.value.state)
    requires initial.Some? ==> CheckSigned(x, initial.value.state).None?
    ensures var (after, r) := Activated(RulesOf(x), s, certificate, initial, now);
            var id := certificate.commitment.channelId;
            && (r.Ok? <==>
                 && CheckSignedActivation(x, certificate).None?
                 && if id in s.activations then s.activations[id].certificate.hash == certificate.hash
                    else initial.Some? && now > 0)
            && (r.Ok? ==> id in after.activations && after.activations[id] == r.value)
            && (r.Ok? && id !in s.activations ==>
                 && r.value == ActivationRecord(now, certificate, initial.value.state)
                 && after == s.(activations := s.activations[id := r.value]))
            && (r.Err? || id in s.activations ==> after == s)
  {
    if initial.Some? {
      RecordIff(x, ActivationRecord(now, certificate, initial.value.state));
    }
  }

  // ----- restoring one observation -----

  ghost function KeysFrom(m: SignedState, i: nat): set<Key>
    requires i <= |m.signatures|
    decreases |m.signatures| - i
  {
    if i == |m.signatures| then {} else {Key(m.commitment.channelId, m.signatures[i].address)} + KeysFrom(m, i + 1)
  }

  lemma {:induction false} InKeysFrom(m: SignedState, i: nat, k: Key)
    requires i <= |m.signatures|
    ensures k in KeysFrom(m, i) <==>
            exists j :: i <= j < |m.signatures| && k == Key(m.commitment.channelId, m.signatures[j].address)
    decreases |m.signatures| - i
  {
    if i < |m.signatures| {
      InKeysFrom(m, i + 1, k);
    }
  }

  /** There is room for the keys: they have entries, or all of them fit. */
  ghost predicate HasRoom(limits: Limits, known: set<Key>, keys: set<Key>) {
    keys <= known || |known + keys| <= limits.maxObservations
  }

  lemma RoomForOne(limits: Limits, known: set<Key>, k: Key, rest: set<Key>)
    requires k !in rest
    ensures k in known ==> (HasRoom(limits, known, {k} + rest) <==> HasRoom(limits, known, rest))
    ensures k !in known && |known| >= limits.maxObservations ==> !HasRoom(limits, known, {k} + rest)
    ensures k !in known && |known| < limits.maxObservations ==>
              (HasRoom(limits, known, {k} + rest) <==> HasRoom(limits, known + {k}, rest))
  {
    assert known + ({k} + rest) == (known + {k}) + rest;
    if k in known {
      assert known + {k} == known;
    } else {
      NoSmaller(known + {k}, known + {k} + rest);
      if rest <= known + {k} {
        assert known + {k} + rest == known + {k};
      }
    }
  }

  /** The entry is older than the observation, or there is none. */
  predicate GetsBack(obs: map<Key, Observation>, o: Observation, k: Key) {
    k !in obs || obs[k].state.commitment.sequence < o.state.commitment.sequence
  }

  function Next(obs: map<Key, Observation>, o: Observation, k: Key): map<Key, Observation> {
    if GetsBack(obs, o, k) then obs[k := o] else obs
  }

  lemma OneRestored(limits: Limits, obs: map<Key, Observation>, o: Observation, i: nat)
    requires i < |o.state.signatures|
    ensures var k := Key(o.state.commitment.channelId, o.state.signatures[i].address);
            if Contradicted(obs, o.state, k) || (k !in obs && |obs| >= limits.maxObservations) then
              RestoredFrom(limits, obs, o, i).1.Some?
            else RestoredFrom(limits, obs, o, i) == RestoredFrom(limits, Next(obs, o, k), o, i + 1)
  {
  }

  ghost predicate FreeFrom(obs: map<Key, Observation>, o: Observation, keys: set<Key>) {
    forall k :: k in keys ==> !Contradicted(obs, o.state, k)
  }

  lemma OthersStayFree(obs: map<Key, Observation>, o: Observation, k: Key, rest: set<Key>)
    requires k !in rest
    ensures FreeFrom(obs, o, {k} + rest) <==> !Contradicted(obs, o.state, k) && FreeFrom(Next(obs, o, k), o, rest)
    ensures Next(obs, o, k).Keys == obs.Keys + {k}
  {
    assert forall q :: q in rest ==> (Contradicted(Next(obs, o, k), o.state, q) <==> Contradicted(obs, o.state, q));
    assert k in {k} + rest;
  }

  lemma {:induction false} RestoresIff(limits: Limits, obs: map<Key, Observation>, o: Observation, i: nat)
    requires DistinctSigners(o.state.signatures) && i <= |o.state.signatures|
    ensures RestoredFrom(limits, obs, o, i).1.None? <==>
            HasRoom(limits, obs.Keys, KeysFrom(o.state, i)) && FreeFrom(obs, o, KeysFrom(o.state, i))
    decreases |o.state.signatures| - i
  {
    if i < |o.state.signatures| {
      var k := Key(o.state.commitment.channelId, o.state.signatures[i].address);
      InKeysFrom(o.state, i + 1, k);
      OneRestored(limits, obs, o, i);
      RoomForOne(limits, obs.Keys, k, KeysFrom(o.state, i + 1));
      OthersStayFree(obs, o, k, KeysFrom(o.state, i + 1));
      RestoresIff(limits, Next(obs, o, k), o, i + 1);
      assert k in obs ==> obs.Keys + {k} == obs.Keys;
    }
  }

  /** Every signer without a newer entry has the observation, and every other entry is as before. */
  ghost predicate HoldsRestored(
      obs: map<Key, Observation>, o: Observation, keys: set<Key>, after: map<Key, Observation>) {
    && after.Keys == obs.Keys + keys
    && forall k :: k in after ==> after[k] == if k in keys && GetsBack(obs, o, k) then o else obs[k]
  }

  lemma HoldsOneMore(
      obs: map<Key, Observation>, o: Observation, k: Key, rest: set<Key>, after: map<Key, Observation>)
    requires HoldsRestored(Next(obs, o, k), o, rest, after) && k !in rest
    ensures HoldsRestored(obs, o, {k} + rest, after)
  {
    assert Next(obs, o, k).Keys == obs.Keys + {k};
  }

  lemma {:induction false} RestoredHolds(limits: Limits, obs: map<Key, Observation>, o: Observation, i: nat)
    requires DistinctSigners(o.state.signatures) && i <= |o.state.signatures|
    requires RestoredFrom(limits, obs, o, i).1.None?
    ensures HoldsRestored(obs, o, KeysFrom(o.state, i), RestoredFrom(limits, obs, o, i).0)
    decreases |o.state.signatures| - i
  {
    if i < |o.state.signatures| {
      var k := Key(o.state.commitment.channelId, o.state.signatures[i].address);
      InKeysFrom(o.state, i + 1, k);
      OneRestored(limits, obs, o, i);
      RestoredHolds(limits, Next(obs, o, k), o, i + 1);
      HoldsOneMore(obs, o, k, KeysFrom(o.state, i + 1), RestoredFrom(limits, obs, o, i).0);
    }
  }

  /** An observation is restored exactly if it is valid, contradicts no entry and its signers find room. */
  lemma RestoreIsExact(v: Rules, limits: Limits, obs: map<Key, Observation>, o: Observation)
    requires SignedLaw(v)
    ensures var (after, e) := RestoredObservation(v, limits, obs, o);
            && (e.None? <==>
                 && v.signed(o.state).None? && HasRoom(limits, obs.Keys, SignerKeys(o.state))
                 && Uncontradicted(obs, o.state))
            && (e.None? ==> HoldsRestored(obs, o, SignerKeys(o.state), after))
  {
    if v.signed(o.state).None? {
      forall k ensures k in KeysFrom(o.state, 0) <==> k in SignerKeys(o.state) {
        InKeysFrom(o.state, 0, k);
      }
      assert KeysFrom(o.state, 0) == SignerKeys(o.state);
      RestoresIff(limits, obs, o, 0);
      if RestoredFrom(limits, obs, o, 0).1.None? {
        RestoredHolds(limits, obs, o, 0);
      }
    }
  }
}
