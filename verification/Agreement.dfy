/** Main results of the two-phase commit, over every run of any number of hubs. */
module Agreement {
  import opened Prelude
  import opened Transactions
  import opened Log
  import opened Descriptors
  import opened TwoPhaseCommit

  /** Hubs with empty journals, before any message. */
  function Start(hubs: set<Provider>): Wire {
    Wire(map p | p in hubs :: [], {}, {})
  }

  ghost function Ran(n: Wire, lands: Territory, steps: seq<NetStep>): Option<Wire>
    decreases steps
  {
    if steps == [] then Some(n)
    else if Allowed(n, lands, steps[0]) then Ran(NextNet(n, lands, steps[0]), lands, steps[1..])
    else None
  }

  ghost predicate Reached(hubs: set<Provider>, lands: Territory, n: Wire) {
    exists steps :: Ran(Start(hubs), lands, steps) == Some(n)
  }

  lemma StartInv(hubs: set<Provider>, lands: Territory)
    ensures Sound(Start(hubs), lands)
  {
    assert forall p, t :: RecordAt(Start(hubs), p, t).None?;
    SoundMeans(Start(hubs), lands);
  }

  lemma {:induction false} RanKeepsInv(n: Wire, lands: Territory, steps: seq<NetStep>)
    requires Sound(n, lands) && Ran(n, lands, steps).Some?
    ensures Sound(Ran(n, lands, steps).value, lands)
    decreases steps
  {
    if steps != [] {
      StepStaysSound(n, lands, steps[0]);
      RanKeepsInv(NextNet(n, lands, steps[0]), lands, steps[1..]);
    }
  }

  lemma ReachedInv(hubs: set<Provider>, lands: Territory, n: Wire)
    requires Reached(hubs, lands, n)
    ensures Sound(n, lands)
  {
    var steps :| Ran(Start(hubs), lands, steps) == Some(n);
    StartInv(hubs, lands);
    RanKeepsInv(Start(hubs), lands, steps);
  }

  /** What a durable record implies about the newest one of its transaction. */
  lemma {:induction false} RecordIsOutlived(log: Log, i: nat)
    requires ValidLog(log) && i < |log|
    ensures log[i].txId in Latest(log)
    ensures var now := Latest(log)[log[i].txId];
            && SameImmutableFields(log[i], now)
            && (HasCommitDecision(log[i].state) ==> HasCommitDecision(now.state))
            && (HasAbortDecision(log[i].state) ==> HasAbortDecision(now.state))
            && (log[i].state.ParticipantCommitted? ==> now.state.ParticipantCommitted?)
            && (log[i].state.ParticipantAborted? ==> now.state.ParticipantAborted?)
  {
    var n := |log| - 1;
    if i < n {
      RecordIsOutlived(log[..n], i);
      if log[n].txId == log[i].txId {
        SuccessorKeeps(Latest(log[..n])[log[i].txId], log[n]);
      }
    }
  }

  /** Every decision at any hub is its coordinator's decision. */
  lemma DecisionsAreTheCoordinators(n: Wire, lands: Territory, p: Provider, t: TxId)
    requires Sound(n, lands) && p in n.logs && RecordAt(n, p, t).Some?
    ensures var tx := RecordAt(n, p, t).value;
            && (HasCommitDecision(tx.state) ==> CoordinatorCommits(n, tx.coordinator, t))
            && (HasAbortDecision(tx.state) ==> CoordinatorAborts(n, tx.coordinator, t))
  {
    SoundMeans(n, lands);
    var tx := RecordAt(n, p, t).value;
    if tx.role.Coordinator? {
      var owners :| Begun(p, tx, owners);
    }
  }

  lemma NoHubDisagrees(n: Wire, lands: Territory, p: Provider, i: nat, q: Provider, j: nat)
    requires Sound(n, lands) && p in n.logs && q in n.logs && i < |n.logs[p]| && j < |n.logs[q]|
    requires n.logs[p][i].txId == n.logs[q][j].txId && n.logs[p][i].coordinator == n.logs[q][j].coordinator
    ensures !(HasCommitDecision(n.logs[p][i].state) && HasAbortDecision(n.logs[q][j].state))
  {
    SoundMeans(n, lands);
    var t := n.logs[p][i].txId;
    RecordIsOutlived(n.logs[p], i);
    RecordIsOutlived(n.logs[q], j);
    DecisionsAreTheCoordinators(n, lands, p, t);
    DecisionsAreTheCoordinators(n, lands, q, t);
  }

  /**
   Agreement: in no run does any hub ever journal a commit decision for a coordinator's transaction
   while any hub, the same or another, ever journals an abort for it.
   */
  lemma Agreement(hubs: set<Provider>, lands: Territory, n: Wire, p: Provider, i: nat, q: Provider, j: nat)
    requires Reached(hubs, lands, n)
    requires p in n.logs && q in n.logs && i < |n.logs[p]| && j < |n.logs[q]|
    requires n.logs[p][i].txId == n.logs[q][j].txId && n.logs[p][i].coordinator == n.logs[q][j].coordinator
    ensures !(HasCommitDecision(n.logs[p][i].state) && HasAbortDecision(n.logs[q][j].state))
  {
    ReachedInv(hubs, lands, n);
    NoHubDisagrees(n, lands, p, i, q, j);
  }

  // ----- acknowledgements -----

  lemma PassedIsNow(n: Wire, lands: Territory, d: Descriptor, state: TxState)
    requires Sound(n, lands) && Passed(n.logs, d, state)
    ensures RecordAt(n, d.participant, d.txId).Some?
    ensures var now := RecordAt(n, d.participant, d.txId).value;
            && Matches(now, d)
            && (state.ParticipantCommitted? ==> now.state.ParticipantCommitted?)
            && (state.ParticipantAborted? ==> now.state.ParticipantAborted?)
  {
    SoundMeans(n, lands);
    var i :| 0 <= i < |n.logs[d.participant]| && Matches(n.logs[d.participant][i], d)
        && n.logs[d.participant][i].state == state;
    RecordIsOutlived(n.logs[d.participant], i);
  }

  ghost predicate DistinctParticipants(tx: Transaction) {
    forall i, j :: 0 <= i < j < |tx.participants| ==>
      tx.participants[i].descriptor.participant != tx.participants[j].descriptor.participant
  }

  lemma CoordinatorRecord(n: Wire, lands: Territory, p: Provider, t: TxId)
    requires Sound(n, lands) && p in n.logs && RecordAt(n, p, t).Some? && RecordAt(n, p, t).value.role.Coordinator?
    ensures var tx := RecordAt(n, p, t).value;
            && StateTrue(tx) && tx.coordinator == p && tx.txId == t
            && forall k :: 0 <= k < |tx.participants| ==>
                 && FlagsTrue(n, tx.participants[k])
                 && tx.participants[k].descriptor.coordinator == p && tx.participants[k].descriptor.txId == t
                 && tx.participants[k].descriptor.participant != p
    ensures DistinctParticipants(RecordAt(n, p, t).value)
  {
    SoundMeans(n, lands);
    var owners :| Begun(p, RecordAt(n, p, t).value, owners);
  }

  lemma OwnersOf(n: Wire, lands: Territory, p: Provider, t: TxId) returns (owners: seq<Provider>)
    requires Sound(n, lands) && p in n.logs && RecordAt(n, p, t).Some? && RecordAt(n, p, t).value.role.Coordinator?
    ensures Begun(p, RecordAt(n, p, t).value, owners)
  {
    SoundMeans(n, lands);
    owners :| Begun(p, RecordAt(n, p, t).value, owners);
  }

  lemma FlagsAreNow(n: Wire, lands: Territory, p: Provider, t: TxId, k: nat)
    requires Sound(n, lands) && p in n.logs && RecordAt(n, p, t).Some? && RecordAt(n, p, t).value.role.Coordinator?
    requires k < |RecordAt(n, p, t).value.participants|
    ensures var e := RecordAt(n, p, t).value.participants[k];
            var there := RecordAt(n, e.descriptor.participant, t);
            && (e.prepared || e.committed || e.aborted ==> there.Some? && Matches(there.value, e.descriptor))
            && (e.committed ==> there.value.state.ParticipantCommitted?)
            && (e.aborted ==> there.value.state.ParticipantAborted?)
  {
    CoordinatorRecord(n, lands, p, t);
    var e := RecordAt(n, p, t).value.participants[k];
    if e.prepared { PassedIsNow(n, lands, e.descriptor, ParticipantPrepared); }
    if e.committed { PassedIsNow(n, lands, e.descriptor, ParticipantCommitted); }
    if e.aborted { PassedIsNow(n, lands, e.descriptor, ParticipantAborted); }
  }

  /**
   A participant whose coordinator decided to commit is prepared, commit-decided or committed; never aborted,
   never absent.
   */
  lemma DecidedReachesAll(n: Wire, lands: Territory, p: Provider, t: TxId, k: nat)
    requires Sound(n, lands) && p in n.logs && CoordinatorCommits(n, p, t) && k < |RecordAt(n, p, t).value.participants|
    ensures var d := RecordAt(n, p, t).value.participants[k].descriptor;
            var there := RecordAt(n, d.participant, t);
            && there.Some? && Matches(there.value, d)
            && (IsPrepared(there.value.state) || HasCommitDecision(there.value.state))
            && d.participant in lands && CheckRequest(lands[d.participant], Request(PreparePhase, d, [])).None?
  {
    CoordinatorRecord(n, lands, p, t);
    FlagsAreNow(n, lands, p, t, k);
    var tx := RecordAt(n, p, t).value;
    var d := tx.participants[k].descriptor;
    assert AllPrepared(tx) && tx.participants[k].prepared;
    var there := RecordAt(n, d.participant, t).value;
    DecisionsAreTheCoordinators(n, lands, d.participant, t);
    RoleOf(n, lands, d.participant, t);
    DescriptorOf(n, lands, p, t, k, there);
  }

  lemma RoleOf(n: Wire, lands: Territory, p: Provider, t: TxId)
    requires Sound(n, lands) && p in n.logs && RecordAt(n, p, t).Some?
    ensures RoleMatchesState(RecordAt(n, p, t).value) && RecordAt(n, p, t).value.txId == t
  {
    SoundMeans(n, lands);
    RolesMatch(n.logs[p]);
  }

  /** The descriptor a participant accepted is the one in its coordinator's journal. */
  lemma DescriptorOf(n: Wire, lands: Territory, p: Provider, t: TxId, k: nat, there: Transaction)
    requires Sound(n, lands) && p in n.logs && RecordAt(n, p, t).Some? && RecordAt(n, p, t).value.role.Coordinator?
    requires k < |RecordAt(n, p, t).value.participants|
    requires var d := RecordAt(n, p, t).value.participants[k].descriptor;
             RecordAt(n, d.participant, t) == Some(there) && Matches(there, d) && d.participant in n.logs
    ensures var d := RecordAt(n, p, t).value.participants[k].descriptor;
            IsAbout(n, lands, d.participant, there, d)
  {
    SoundMeans(n, lands);
    CoordinatorRecord(n, lands, p, t);
    var tx := RecordAt(n, p, t).value;
    var d := tx.participants[k].descriptor;
    var e :| IsAbout(n, lands, d.participant, there, e);
    var owners :| Begun(p, tx, owners);
    var i :| 0 <= i < |tx.participants| && tx.participants[i].descriptor == e;
    assert i == k;
  }

  /** Acknowledgements never lie: a committed coordinator means every participant durably committed. */
  lemma CommittedEverywhere(hubs: set<Provider>, lands: Territory, n: Wire, p: Provider, t: TxId, k: nat)
    requires Reached(hubs, lands, n)
    requires RecordAt(n, p, t).Some? && RecordAt(n, p, t).value.state.CoordinatorCommitted?
    requires k < |RecordAt(n, p, t).value.participants|
    ensures var there := RecordAt(n, RecordAt(n, p, t).value.participants[k].descriptor.participant, t);
            there.Some? && there.value.state.ParticipantCommitted? && there.value.coordinator == p
  {
    ReachedInv(hubs, lands, n);
    RoleOf(n, lands, p, t);
    CoordinatorRecord(n, lands, p, t);
    FlagsAreNow(n, lands, p, t, k);
    assert RecordAt(n, p, t).value.participants[k].committed;
  }

  /** And an aborted coordinator means every participant durably aborted. */
  lemma AbortedEverywhere(hubs: set<Provider>, lands: Territory, n: Wire, p: Provider, t: TxId, k: nat)
    requires Reached(hubs, lands, n)
    requires RecordAt(n, p, t).Some? && RecordAt(n, p, t).value.state.CoordinatorAborted?
    requires k < |RecordAt(n, p, t).value.participants|
    ensures var there := RecordAt(n, RecordAt(n, p, t).value.participants[k].descriptor.participant, t);
            there.Some? && there.value.state.ParticipantAborted? && there.value.coordinator == p
  {
    ReachedInv(hubs, lands, n);
    RoleOf(n, lands, p, t);
    CoordinatorRecord(n, lands, p, t);
    FlagsAreNow(n, lands, p, t, k);
    assert RecordAt(n, p, t).value.participants[k].aborted;
  }

  /** After a tombstone no message about the transaction is ever journaled: a late prepare finds only refusal. */
  lemma TombstonesHold(tx: Transaction, r: Request, now: nat)
    requires tx.state.ParticipantAborted?
    ensures NextRecord(Some(tx), r, now).None?
    ensures ReplyState(Some(tx), r).Some? <==> r.phase.AbortPhase? && Matches(tx, r.descriptor)
  {
  }
}
