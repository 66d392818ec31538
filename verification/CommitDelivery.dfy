/**
 Delivering a commit decision (src/distributed_tx.rs:943-1041, 1431-1541): a commit-decided coordinator,
 and with it all its participants, gets to Committed exactly if the hubs it still needs can come back.
 */
module CommitDelivery {
  import opened Prelude
  import opened Transactions
  import opened Log
  import opened Ledger
  import opened HubLedger
  import opened Hub
  import opened HubRuns
  import opened Descriptors
  import opened TwoPhaseCommit
  import opened Agreement
  import opened AbortDelivery
  import opened Cluster
  import opened Completion
  import opened Recovery

  /** Coordinator `p` is up, decided to commit `tx` and moved its own balances. */
  ghost predicate Committing(c: Cluster, sites: Sites, p: Provider, tx: Transaction) {
    && ClusterInv(c, sites) && p in c.hubs && c.hubs[p].up && RecordAt(WireOf(c), p, tx.txId) == Some(tx)
    && tx.role.Coordinator? && tx.state.CoordinatorCommitDecided? && tx.txId in c.hubs[p].ledger.applied
  }

  /** Steps of other hubs leave the coordinator as it is. */
  lemma OthersKeepCommitting(c: Cluster, sites: Sites, p: Provider, tx: Transaction, s: ClusterStep)
    requires Committing(c, sites, p, tx) && Possible(c, sites, s) && ActorOf(s) != p
    ensures Committing(Stepped(c, sites, s), sites, p, tx)
  {
    var c2 := Stepped(c, sites, s);
    ClusterStepKeepsInv(c, sites, s);
    StepIsOnlyAt(c, sites, s);
    assert WireOf(c2).logs[p] == c.hubs[p].log == WireOf(c).logs[p];
  }

  // ----- the request -----

  /** A commit request of a decided coordinator passes every check of its participant. */
  lemma CommitRequestPasses(n: Wire, lands: Territory, p: Provider, tx: Transaction, k: nat)
    requires Sound(n, lands) && p in n.logs && RecordAt(n, p, tx.txId) == Some(tx) && tx.role.Coordinator?
    requires HasCommitDecision(tx.state) && k < |tx.participants|
    ensures var d := tx.participants[k].descriptor;
            && d.participant in lands && d.participant in n.logs && d.participant != p && d.txId == tx.txId
                 && d.coordinator == p
            && CheckRequest(lands[d.participant], RequestFor(tx, k, CommitPhase)).None?
  {
    var d := tx.participants[k].descriptor;
    CoordinatorRecord(n, lands, p, tx.txId);
    DecidedReachesAll(n, lands, p, tx.txId, k);
    DecidedIsSigned(n, lands, p, tx, k);
    SignedPasses(lands[d.participant], d, tx.payment.value.signatures);
  }

  /** A decided coordinator holds the signatures its participants ask for. */
  lemma DecidedIsSigned(n: Wire, lands: Territory, p: Provider, tx: Transaction, k: nat)
    requires Sound(n, lands) && p in n.logs && RecordAt(n, p, tx.txId) == Some(tx) && tx.role.Coordinator?
    requires HasCommitDecision(tx.state) && k < |tx.participants|
    ensures tx.payment.Some?
    ensures CheckAuthorization(true, tx.payment.value.signatures,
                               tx.participants[k].descriptor.payment.requiredSigners).None?
  {
    var d := tx.participants[k].descriptor;
    CoordinatorRecord(n, lands, p, tx.txId);
    var owners := OwnersOf(n, lands, p, tx.txId);
    DecidedReachesAll(n, lands, p, tx.txId, k);
    PassingIsSound(lands[d.participant], d);
    AllSignedIsAuthorized(tx.payment.value.signatures, d.payment.requiredSigners);
  }

  lemma PassingIsSound(channels: set<ChannelId>, d: Descriptor)
    requires CheckRequest(channels, Request(PreparePhase, d, [])).None?
    ensures SimplePath(d.payment)
  {
    DescriptorIsSound(d);
  }

  /** A descriptor that passed at prepare passes at commit with the signatures. */
  lemma SignedPasses(channels: set<ChannelId>, d: Descriptor, signatures: seq<Signature>)
    requires CheckRequest(channels, Request(PreparePhase, d, [])).None?
    requires CheckAuthorization(true, signatures, d.payment.requiredSigners).None?
    ensures CheckRequest(channels, Request(CommitPhase, d, signatures)).None?
  {
  }

  lemma SendCommit(c: Cluster, sites: Sites, p: Provider, tx: Transaction, k: nat) returns (c2: Cluster)
    requires Committing(c, sites, p, tx) && k < |tx.participants|
    ensures Run(c, sites, [Protocol(Send(p, tx.txId, k, CommitPhase))]) == Some(c2) && Committing(c2, sites, p, tx)
    ensures RequestFor(tx, k, CommitPhase) in c2.requests && c2.hubs == c.hubs && OnlyAt(c, c2, p)
  {
    var s := Protocol(Send(p, tx.txId, k, CommitPhase));
    assert Possible(c, sites, s);
    ClusterStepKeepsInv(c, sites, s);
    RunOne(c, sites, s);
    c2 := Stepped(c, sites, s);
    assert WireOf(c2).logs == WireOf(c).logs;
  }

  // ----- the participant -----

  /** What is known of participant `k` while its coordinator is committing and the request was sent. */
  ghost predicate Asked(c: Cluster, sites: Sites, p: Provider, tx: Transaction, k: nat, there: Transaction) {
    && Committing(c, sites, p, tx) && k < |tx.participants|
    && var r := RequestFor(tx, k, CommitPhase);
    && var q := r.descriptor.participant;
    && r in c.requests && q != p && q in c.hubs && Holds(c.hubs[q], tx.txId) && r.descriptor.txId == tx.txId
         && there.txId == tx.txId
    && RecordAt(WireOf(c), q, tx.txId) == Some(there) && Matches(there, r.descriptor)
    && q in Lands(sites) && Passes(Lands(sites)[q], r)
  }

  ghost predicate PassesUnfolded(u: Unfolding, channels: set<ChannelId>, r: Request) {
    CheckRequest(channels, r).None?
  }

  ghost predicate Passes(channels: set<ChannelId>, r: Request) {
    forall u: Unfolding :: PassesUnfolded(u, channels, r)
  }

  lemma PassesMeans(channels: set<ChannelId>, r: Request)
    ensures Passes(channels, r) <==> CheckRequest(channels, r).None?
  {
    assert PassesUnfolded(Unfolding, channels, r) <==> CheckRequest(channels, r).None?;
  }

  /** How far the participant is once its coordinator decided. */
  predicate Underway(state: TxState) {
    state.ParticipantPrepared? || state.ParticipantCommitDecided? || state.ParticipantCommitted?
  }

  lemma AskedNow(c: Cluster, sites: Sites, p: Provider, tx: Transaction, k: nat) returns (there: Transaction)
    requires Committing(c, sites, p, tx) && k < |tx.participants| && RequestFor(tx, k, CommitPhase) in c.requests
    requires tx.participants[k].descriptor.participant in c.hubs
    requires Holds(c.hubs[tx.participants[k].descriptor.participant], tx.txId)
    ensures Asked(c, sites, p, tx, k, there) && Underway(there.state)
  {
    var n, lands, d := WireOf(c), Lands(sites), tx.participants[k].descriptor;
    CommitRequestPasses(n, lands, p, tx, k);
    PassesMeans(lands[d.participant], RequestFor(tx, k, CommitPhase));
    DecidedReachesAll(n, lands, p, tx.txId, k);
    RoleOf(n, lands, d.participant, tx.txId);
    there := RecordAt(n, d.participant, tx.txId).value;
  }

  lemma HandleIsAllowed(c: Cluster, sites: Sites, p: Provider, tx: Transaction, k: nat, there: Transaction)
    requires Asked(c, sites, p, tx, k, there)
    requires there.state.ParticipantPrepared? || there.state.ParticipantCommitDecided?
    ensures var r := RequestFor(tx, k, CommitPhase);
            var q := r.descriptor.participant;
            && NextRecord(Some(there), r, 0).Some?
            && Allowed(WireOf(c), Lands(sites), Handle(q, r, 0))
            && Appending(WireOf(c), Handle(q, r, 0)) == Some((q, NextRecord(Some(there), r, 0).value))
  {
    var r := RequestFor(tx, k, CommitPhase);
    PassesMeans(Lands(sites)[r.descriptor.participant], r);
  }

  lemma NextIsAccepted(c: Cluster, sites: Sites, p: Provider, tx: Transaction, k: nat, there: Transaction)
    requires Asked(c, sites, p, tx, k, there)
    requires there.state.ParticipantPrepared? || there.state.ParticipantCommitDecided?
    ensures var r := RequestFor(tx, k, CommitPhase);
            NextRecord(Some(there), r, 0).Some? && MayFollow(Some(there), NextRecord(Some(there), r, 0).value)
  {
    var r := RequestFor(tx, k, CommitPhase);
    var q := r.descriptor.participant;
    PassesMeans(Lands(sites)[q], r);
    WellFormedRecord(WireOf(c), Lands(sites), q, tx.txId);
    NextRecordAccepted(Some(there), Lands(sites)[q], r, 0);
  }

  lemma HandleFitsHub(c: Cluster, sites: Sites, p: Provider, tx: Transaction, k: nat, there: Transaction)
    requires Asked(c, sites, p, tx, k, there)
    requires there.state.ParticipantPrepared? || there.state.ParticipantCommitDecided?
    requires there.state.ParticipantCommitDecided? ==>
               tx.txId in c.hubs[tx.participants[k].descriptor.participant].ledger.applied
    ensures var r := RequestFor(tx, k, CommitPhase);
            var q := r.descriptor.participant;
            NextRecord(Some(there), r, 0).Some? && q in sites
                && HubMay(c.hubs[q], sites[q].maxHops, NextRecord(Some(there), r, 0).value)
  {
    var r := RequestFor(tx, k, CommitPhase);
    var q := r.descriptor.participant;
    NextIsAccepted(c, sites, p, tx, k, there);
    assert RecordAt(WireOf(c), q, tx.txId) == Lookup(Latest(c.hubs[q].log), tx.txId);
  }

  lemma HandleIsPossible(c: Cluster, sites: Sites, p: Provider, tx: Transaction, k: nat, there: Transaction)
    requires Asked(c, sites, p, tx, k, there)
    requires there.state.ParticipantPrepared? || there.state.ParticipantCommitDecided?
    requires there.state.ParticipantCommitDecided? ==>
               tx.txId in c.hubs[tx.participants[k].descriptor.participant].ledger.applied
    ensures var r := RequestFor(tx, k, CommitPhase);
            && NextRecord(Some(there), r, 0).Some?
            && Possible(c, sites, Protocol(Handle(r.descriptor.participant, r, 0)))
  {
    HandleIsAllowed(c, sites, p, tx, k, there);
    HandleFitsHub(c, sites, p, tx, k, there);
  }

  /** Handling the request appends the participant's next record. */
  lemma HandleCommit(c: Cluster, sites: Sites, p: Provider, tx: Transaction, k: nat, there: Transaction)
    returns (c2: Cluster, next: Transaction)
    requires Asked(c, sites, p, tx, k, there)
    requires there.state.ParticipantPrepared? || there.state.ParticipantCommitDecided?
    requires there.state.ParticipantCommitDecided? ==>
               tx.txId in c.hubs[tx.participants[k].descriptor.participant].ledger.applied
    ensures var r := RequestFor(tx, k, CommitPhase);
            && Run(c, sites, [Protocol(Handle(r.descriptor.participant, r, 0))]) == Some(c2)
            && OnlyAt(c, c2, r.descriptor.participant)
    ensures Asked(c2, sites, p, tx, k, next)
    ensures next.state == if there.state.ParticipantPrepared? then ParticipantCommitDecided else ParticipantCommitted
  {
    var r := RequestFor(tx, k, CommitPhase);
    var s := Protocol(Handle(r.descriptor.participant, r, 0));
    HandleIsPossible(c, sites, p, tx, k, there);
    RunOne(c, sites, s);
    c2 := Stepped(c, sites, s);
    next := AskedAgain(c, c2, sites, p, tx, k, there, s);
  }

  lemma AskedAgain(
      c: Cluster, c2: Cluster, sites: Sites, p: Provider, tx: Transaction, k: nat, there: Transaction, s: ClusterStep)
    returns (next: Transaction)
    requires Asked(c, sites, p, tx, k, there)
    requires there.state.ParticipantPrepared? || there.state.ParticipantCommitDecided?
    requires s == Protocol(Handle(tx.participants[k].descriptor.participant, RequestFor(tx, k, CommitPhase), 0))
    requires Possible(c, sites, s) && c2 == Stepped(c, sites, s)
    ensures OnlyAt(c, c2, tx.participants[k].descriptor.participant) && Asked(c2, sites, p, tx, k, next)
    ensures next.state == if there.state.ParticipantPrepared? then ParticipantCommitDecided else ParticipantCommitted
  {
    var r := RequestFor(tx, k, CommitPhase);
    next := NextOnCommit(there, r);
    OthersKeepCommitting(c, sites, p, tx, s);
    StepIsOnlyAt(c, sites, s);
    HandledRecord(c, sites, s, r.descriptor.participant, next);
  }

  /** What a commit request makes a participant append. */
  lemma NextOnCommit(there: Transaction, r: Request) returns (next: Transaction)
    requires Matches(there, r.descriptor) && r.phase.CommitPhase? && there.txId == r.descriptor.txId
    requires there.state.ParticipantPrepared? || there.state.ParticipantCommitDecided?
    ensures NextRecord(Some(there), r, 0) == Some(next) && Matches(next, r.descriptor) && next.txId == there.txId
    ensures next.state == if there.state.ParticipantPrepared? then ParticipantCommitDecided else ParticipantCommitted
  {
    next := NextRecord(Some(there), r, 0).value;
    NextRecordMatches(Some(there), r, 0);
  }

  lemma HandledRecord(c: Cluster, sites: Sites, s: ClusterStep, q: Provider, record: Transaction)
    requires Possible(c, sites, s) && s.Protocol? && Appending(WireOf(c), s.move) == Some((q, record)) && q in c.hubs
    requires !HasAbortDecision(record.state)
    ensures RecordAt(WireOf(Stepped(c, sites, s)), q, record.txId) == Some(record)
    ensures Stepped(c, sites, s).hubs[q].up && Stepped(c, sites, s).hubs[q].ledger == c.hubs[q].ledger
    ensures Stepped(c, sites, s).hubs[q].sessions.lost == c.hubs[q].sessions.lost
  {
    Extended(c.hubs[q].log, record);
    assert WireOf(Stepped(c, sites, s)).logs[q] == c.hubs[q].log + [record];
  }

  lemma SettleThere(c: Cluster, sites: Sites, p: Provider, tx: Transaction, k: nat, there: Transaction)
    returns (c2: Cluster)
    requires Asked(c, sites, p, tx, k, there) && there.state.ParticipantCommitDecided?
    ensures var q := tx.participants[k].descriptor.participant;
            && Run(c, sites, [Local(q, Settle(tx.txId))]) == Some(c2) && OnlyAt(c, c2, q)
            && Asked(c2, sites, p, tx, k, there) && tx.txId in c2.hubs[q].ledger.applied
  {
    var q := tx.participants[k].descriptor.participant;
    var s := Local(q, Settle(tx.txId));
    SettleIsPossible(c, sites, q, tx.txId);
    OthersKeepCommitting(c, sites, p, tx, s);
    ProjectsToWire(c, sites, s);
    StepIsOnlyAt(c, sites, s);
    RunOne(c, sites, s);
    c2 := Stepped(c, sites, s);
  }

  lemma SettleWorks(site: Site, h: Hub, t: TxId)
    requires Fine(site, h) && Holds(h, t) && t in Latest(h.log) && HasCommitDecision(Latest(h.log)[t].state)
    ensures Applied(h.ledger, t, TermsOf(Latest(h.log)[t])).Ok?
  {
    FineMeans(site, h);
    CommitOrderIsDecided(h.log);
    DecidedIsSettleable(site.base, site.maxHops, h, t);
  }

  lemma SettleIsPossible(c: Cluster, sites: Sites, q: Provider, t: TxId)
    requires ClusterInv(c, sites) && q in c.hubs && RecordAt(WireOf(c), q, t).Some? && Holds(c.hubs[q], t)
    requires HasCommitDecision(RecordAt(WireOf(c), q, t).value.state)
    ensures Possible(c, sites, Local(q, Settle(t)))
    ensures t in Stepped(c, sites, Local(q, Settle(t))).hubs[q].ledger.applied
    ensures Stepped(c, sites, Local(q, Settle(t))).hubs[q].up
  {
    assert q in sites;
    SettleWorks(sites[q], c.hubs[q], t);
    AppliedGrows(c.hubs[q].ledger, t, TermsOf(Latest(c.hubs[q].log)[t]));
  }

  lemma ReplyIsAllowed(c: Cluster, sites: Sites, p: Provider, tx: Transaction, k: nat, there: Transaction)
    requires Asked(c, sites, p, tx, k, there) && there.state.ParticipantCommitted?
    ensures var r := RequestFor(tx, k, CommitPhase);
            Allowed(WireOf(c), Lands(sites), Reply(r.descriptor.participant, r))
  {
    var r := RequestFor(tx, k, CommitPhase);
    PassesMeans(Lands(sites)[r.descriptor.participant], r);
  }

  lemma ReplyIsPossible(c: Cluster, sites: Sites, p: Provider, tx: Transaction, k: nat, there: Transaction)
    requires Asked(c, sites, p, tx, k, there) && there.state.ParticipantCommitted?
    ensures var r := RequestFor(tx, k, CommitPhase);
            var s := Protocol(Reply(r.descriptor.participant, r));
            Possible(c, sites, s) && Acknowledgement(CommitPhase, r.descriptor) in Stepped(c, sites, s).responses
  {
    ReplyIsAllowed(c, sites, p, tx, k, there);
  }

  lemma ReplyCommitted(c: Cluster, sites: Sites, p: Provider, tx: Transaction, k: nat, there: Transaction)
    returns (c2: Cluster)
    requires Asked(c, sites, p, tx, k, there) && there.state.ParticipantCommitted?
    ensures var r := RequestFor(tx, k, CommitPhase);
            && Run(c, sites, [Protocol(Reply(r.descriptor.participant, r))]) == Some(c2)
                 && OnlyAt(c, c2, r.descriptor.participant)
            && Committing(c2, sites, p, tx) && Acknowledgement(CommitPhase, r.descriptor) in c2.responses
  {
    var r := RequestFor(tx, k, CommitPhase);
    var s := Protocol(Reply(r.descriptor.participant, r));
    ReplyIsPossible(c, sites, p, tx, k, there);
    OthersKeepCommitting(c, sites, p, tx, s);
    StepIsOnlyAt(c, sites, s);
    RunOne(c, sites, s);
    c2 := Stepped(c, sites, s);
  }

  /** A participant with a durable decision settles, records Committed and acknowledges. */
  lemma DecidedCommits(c: Cluster, sites: Sites, p: Provider, tx: Transaction, k: nat, there: Transaction)
    returns (steps: seq<ClusterStep>, c2: Cluster)
    requires Asked(c, sites, p, tx, k, there) && there.state.ParticipantCommitDecided?
    ensures Run(c, sites, steps) == Some(c2) && Committing(c2, sites, p, tx)
    ensures OnlyAt(c, c2, tx.participants[k].descriptor.participant)
    ensures Acknowledgement(CommitPhase, tx.participants[k].descriptor) in c2.responses
  {
    var r := RequestFor(tx, k, CommitPhase);
    var q := r.descriptor.participant;
    var c1 := SettleThere(c, sites, p, tx, k, there);
    var rest;
    rest, c2 := SettledCommits(c1, sites, p, tx, k, there);
    OnlyAtTwice(c, c1, c2, q);
    steps := ThenRun(c, sites, [Local(q, Settle(tx.txId))], c1, rest, c2);
  }

  /** Once settled, it records Committed and acknowledges. */
  lemma SettledCommits(c: Cluster, sites: Sites, p: Provider, tx: Transaction, k: nat, there: Transaction)
    returns (steps: seq<ClusterStep>, c2: Cluster)
    requires Asked(c, sites, p, tx, k, there) && there.state.ParticipantCommitDecided?
    requires tx.txId in c.hubs[tx.participants[k].descriptor.participant].ledger.applied
    ensures Run(c, sites, steps) == Some(c2) && Committing(c2, sites, p, tx)
    ensures OnlyAt(c, c2, tx.participants[k].descriptor.participant)
    ensures Acknowledgement(CommitPhase, tx.participants[k].descriptor) in c2.responses
  {
    var r := RequestFor(tx, k, CommitPhase);
    var q := r.descriptor.participant;
    var c1, next := HandleCommit(c, sites, p, tx, k, there);
    c2 := ReplyCommitted(c1, sites, p, tx, k, next);
    OnlyAtTwice(c, c1, c2, q);
    steps := ThenRun(c, sites, [Protocol(Handle(q, r, 0))], c1, [Protocol(Reply(q, r))], c2);
  }

  /** From whatever it has journaled, the participant gets to Committed and acknowledges. */
  lemma ParticipantCommits(c: Cluster, sites: Sites, p: Provider, tx: Transaction, k: nat, there: Transaction)
    returns (steps: seq<ClusterStep>, c2: Cluster)
    requires Asked(c, sites, p, tx, k, there) && Underway(there.state)
    ensures Run(c, sites, steps) == Some(c2) && Committing(c2, sites, p, tx)
    ensures OnlyAt(c, c2, tx.participants[k].descriptor.participant)
    ensures Acknowledgement(CommitPhase, tx.participants[k].descriptor) in c2.responses
  {
    var r := RequestFor(tx, k, CommitPhase);
    var q := r.descriptor.participant;
    if there.state.ParticipantCommitted? {
      c2 := ReplyCommitted(c, sites, p, tx, k, there);
      steps := [Protocol(Reply(q, r))];
    } else if there.state.ParticipantCommitDecided? {
      steps, c2 := DecidedCommits(c, sites, p, tx, k, there);
    } else {
      var c3, next := HandleCommit(c, sites, p, tx, k, there);
      var rest;
      rest, c2 := DecidedCommits(c3, sites, p, tx, k, next);
      steps := ThenRun(c, sites, [Protocol(Handle(q, r, 0))], c3, rest, c2);
    }
  }

  // ----- the coordinator -----

  function CommitAcked(tx: Transaction, k: nat): Transaction
    requires k < |tx.participants|
  {
    WithEntry(tx, k, tx.participants[k].(committed := true))
  }

  lemma CommitAckAllowed(n: Wire, lands: Territory, p: Provider, tx: Transaction, k: nat)
    requires Sound(n, lands) && p in n.logs && RecordAt(n, p, tx.txId) == Some(tx) && tx.role.Coordinator?
    requires tx.state.CoordinatorCommitDecided? && k < |tx.participants|
    requires Acknowledgement(CommitPhase, tx.participants[k].descriptor) in n.responses
    ensures Allowed(n, lands, Advance(p, CommitAcked(tx, k)))
  {
    WellFormedRecord(n, lands, p, tx.txId);
    FlagsExclude(n, lands, p, tx.txId);
    CoordinatorRecord(n, lands, p, tx.txId);
    EntryAccepted(tx, k, tx.participants[k].(committed := true));
  }

  lemma CommitDoneAllowed(n: Wire, lands: Territory, p: Provider, tx: Transaction)
    requires Sound(n, lands) && p in n.logs && RecordAt(n, p, tx.txId) == Some(tx) && tx.role.Coordinator?
    requires tx.state.CoordinatorCommitDecided? && AllCommitted(tx)
    ensures Allowed(n, lands, Advance(p, tx.(state := CoordinatorCommitted)))
  {
    WellFormedRecord(n, lands, p, tx.txId);
    FlagsExclude(n, lands, p, tx.txId);
    CoordinatorRecord(n, lands, p, tx.txId);
    StateAccepted(tx, CoordinatorCommitted);
    assert AllCommitted(tx.(state := CoordinatorCommitted));
  }

  /** The coordinator may append a later record of a committing transaction. */
  lemma CoordinatorAppends(c: Cluster, sites: Sites, p: Provider, tx: Transaction, next: Transaction)
    returns (c2: Cluster)
    requires Committing(c, sites, p, tx) && Allowed(WireOf(c), Lands(sites), Advance(p, next))
    requires next.txId == tx.txId && (next.state.CoordinatorCommitDecided? ==> next.role.Coordinator?)
    requires next.state.CoordinatorCommitDecided? || next.state.CoordinatorCommitted?
    ensures Run(c, sites, [Protocol(Advance(p, next))]) == Some(c2)
    ensures RecordAt(WireOf(c2), p, tx.txId) == Some(next) && OnlyAt(c, c2, p)
    ensures next.state.CoordinatorCommitDecided? ==> Committing(c2, sites, p, next)
  {
    CoordinatorMayAppend(c, sites, p, tx, next);
    c2 := AdvanceRuns(c, sites, p, next);
  }

  lemma AdvanceRuns(c: Cluster, sites: Sites, p: Provider, next: Transaction) returns (c2: Cluster)
    requires ClusterInv(c, sites) && Possible(c, sites, Protocol(Advance(p, next))) && !HasAbortDecision(next.state)
    ensures Run(c, sites, [Protocol(Advance(p, next))]) == Some(c2) && ClusterInv(c2, sites) && OnlyAt(c, c2, p)
    ensures p in c2.hubs && c2.hubs[p].up && c2.hubs[p].ledger.applied == c.hubs[p].ledger.applied
    ensures RecordAt(WireOf(c2), p, next.txId) == Some(next)
  {
    var s := Protocol(Advance(p, next));
    ClusterStepKeepsInv(c, sites, s);
    RunOne(c, sites, s);
    c2 := AdvanceEffects(c, sites, p, next);
  }

  /** What appending at the coordinator changes. */
  lemma AdvanceEffects(c: Cluster, sites: Sites, p: Provider, next: Transaction) returns (c2: Cluster)
    requires Possible(c, sites, Protocol(Advance(p, next))) && !HasAbortDecision(next.state)
    ensures c2 == Stepped(c, sites, Protocol(Advance(p, next))) && OnlyAt(c, c2, p)
    ensures p in c2.hubs && c2.hubs[p].up && c2.hubs[p].ledger.applied == c.hubs[p].ledger.applied
    ensures RecordAt(WireOf(c2), p, next.txId) == Some(next)
  {
    var s := Protocol(Advance(p, next));
    StepIsOnlyAt(c, sites, s);
    c2 := Stepped(c, sites, s);
    HandledRecord(c, sites, s, p, next);
  }

  lemma CoordinatorMayAppend(c: Cluster, sites: Sites, p: Provider, tx: Transaction, next: Transaction)
    requires Committing(c, sites, p, tx) && Allowed(WireOf(c), Lands(sites), Advance(p, next)) && next.txId == tx.txId
    requires next.state.CoordinatorCommitDecided? || next.state.CoordinatorCommitted?
    ensures Possible(c, sites, Protocol(Advance(p, next)))
  {
    assert RecordAt(WireOf(c), p, tx.txId) == Lookup(Latest(c.hubs[p].log), tx.txId);
    DecidedIsNotClosed(c, sites, p, tx);
    assert HubMay(c.hubs[p], sites[p].maxHops, next);
  }

  lemma DecidedIsNotClosed(c: Cluster, sites: Sites, p: Provider, tx: Transaction)
    requires Committing(c, sites, p, tx)
    ensures p in sites && tx.txId !in c.hubs[p].sessions.closed
  {
    assert p in sites;
    FineMeans(sites[p], c.hubs[p]);
    assert RecordAt(WireOf(c), p, tx.txId) == Lookup(Latest(c.hubs[p].log), tx.txId);
  }

  /** Entry `k` is done, acknowledged, or its hub can serve the commit, if need be after a restart. */
  ghost predicate Servable(c: Cluster, sites: Sites, tx: Transaction, k: nat)
    requires k < |tx.participants|
  {
    var d := tx.participants[k].descriptor;
    || tx.participants[k].committed || Acknowledgement(CommitPhase, d) in c.responses
    || (d.participant in c.hubs && d.participant in sites
        && (Holds(c.hubs[d.participant], tx.txId) || Recovers(sites[d.participant], c.hubs[d.participant])))
  }

  /** Nothing changed but at the coordinator and at hub `q`. */
  ghost predicate OnlyAtBoth(c: Cluster, c2: Cluster, p: Provider, q: Provider) {
    && c2.hubs.Keys == c.hubs.Keys && c.responses <= c2.responses
    && forall u :: u in c.hubs && u != p && u != q ==> c2.hubs[u] == c.hubs[u]
  }

  /** The participant is brought back, asked, and answers. */
  lemma ServeCommit(c: Cluster, sites: Sites, p: Provider, tx: Transaction, k: nat)
    returns (steps: seq<ClusterStep>, c2: Cluster)
    requires Committing(c, sites, p, tx) && k < |tx.participants| && Servable(c, sites, tx, k)
    requires !tx.participants[k].committed
    requires Acknowledgement(CommitPhase, tx.participants[k].descriptor) !in c.responses
    ensures Run(c, sites, steps) == Some(c2) && Committing(c2, sites, p, tx)
    ensures OnlyAtBoth(c, c2, p, tx.participants[k].descriptor.participant)
    ensures Acknowledgement(CommitPhase, tx.participants[k].descriptor) in c2.responses
  {
    var q := tx.participants[k].descriptor.participant;
    CommitRequestPasses(WireOf(c), Lands(sites), p, tx, k);
    var woken, c0 := Revive(c, sites, q, tx.txId);
    var c1 := SendCommit(c0, sites, p, tx, k);
    var there := AskedNow(c1, sites, p, tx, k);
    var served;
    served, c2 := ParticipantCommits(c1, sites, p, tx, k, there);
    steps := ThenRun(c0, sites, [Protocol(Send(p, tx.txId, k, CommitPhase))], c1, served, c2);
    steps := ThenRun(c, sites, woken, c0, steps, c2);
  }

  /** One participant served and its acknowledgement recorded. */
  lemma CommitRound(c: Cluster, sites: Sites, p: Provider, tx: Transaction, k: nat)
    returns (steps: seq<ClusterStep>, c2: Cluster)
    requires Committing(c, sites, p, tx) && k < |tx.participants| && Servable(c, sites, tx, k)
    requires !tx.participants[k].committed
    ensures Run(c, sites, steps) == Some(c2) && Committing(c2, sites, p, CommitAcked(tx, k))
    ensures OnlyAtBoth(c, c2, p, tx.participants[k].descriptor.participant)
  {
    var served, c1 := [], c;
    if Acknowledgement(CommitPhase, tx.participants[k].descriptor) !in c.responses {
      served, c1 := ServeCommit(c, sites, p, tx, k);
    }
    CommitAckAllowed(WireOf(c1), Lands(sites), p, tx, k);
    c2 := CoordinatorAppends(c1, sites, p, tx, CommitAcked(tx, k));
    steps := ThenRun(c, sites, served, c1, [Protocol(Advance(p, CommitAcked(tx, k)))], c2);
  }

  lemma StillServable(c: Cluster, c2: Cluster, sites: Sites, p: Provider, tx: Transaction, k: nat, i: nat)
    requires Committing(c, sites, p, tx) && k < i < |tx.participants| && Servable(c, sites, tx, i)
    requires OnlyAtBoth(c, c2, p, tx.participants[k].descriptor.participant)
    ensures Servable(c2, sites, CommitAcked(tx, k), i)
  {
    CommitRequestPasses(WireOf(c), Lands(sites), p, tx, i);
    CoordinatorRecord(WireOf(c), Lands(sites), p, tx.txId);
  }

  lemma RestServable(c: Cluster, c2: Cluster, sites: Sites, p: Provider, tx: Transaction, k: nat)
    requires Committing(c, sites, p, tx) && k < |tx.participants|
    requires forall i :: k <= i < |tx.participants| ==> Servable(c, sites, tx, i)
    requires OnlyAtBoth(c, c2, p, tx.participants[k].descriptor.participant)
    ensures forall i :: k < i < |tx.participants| ==> Servable(c2, sites, CommitAcked(tx, k), i)
  {
    forall i | k < i < |tx.participants| ensures Servable(c2, sites, CommitAcked(tx, k), i) {
      StillServable(c, c2, sites, p, tx, k, i);
    }
  }

  /** After one round the remaining entries can still be served. */
  lemma CommitNext(c: Cluster, sites: Sites, p: Provider, tx: Transaction, k: nat)
    returns (steps: seq<ClusterStep>, c2: Cluster)
    requires Committing(c, sites, p, tx) && k < |tx.participants| && !tx.participants[k].committed
    requires forall i :: k <= i < |tx.participants| ==> Servable(c, sites, tx, i)
    ensures Run(c, sites, steps) == Some(c2) && Committing(c2, sites, p, CommitAcked(tx, k))
    ensures forall i :: k < i < |tx.participants| ==> Servable(c2, sites, CommitAcked(tx, k), i)
  {
    steps, c2 := CommitRound(c, sites, p, tx, k);
    RestServable(c, c2, sites, p, tx, k);
  }

  /** The last record. */
  lemma RecordsCommitted(c: Cluster, sites: Sites, p: Provider, tx: Transaction)
    returns (steps: seq<ClusterStep>, c2: Cluster)
    requires Committing(c, sites, p, tx) && AllCommitted(tx)
    ensures Run(c, sites, steps) == Some(c2)
    ensures RecordAt(WireOf(c2), p, tx.txId).Some? && RecordAt(WireOf(c2), p, tx.txId).value.state.CoordinatorCommitted?
  {
    var done := tx.(state := CoordinatorCommitted);
    CommitDoneAllowed(WireOf(c), Lands(sites), p, tx);
    c2 := CoordinatorAppends(c, sites, p, tx, done);
    steps := [Protocol(Advance(p, done))];
  }

  lemma {:induction false} CommitFrom(c: Cluster, sites: Sites, p: Provider, tx: Transaction, k: nat)
    returns (steps: seq<ClusterStep>, c2: Cluster)
    requires Committing(c, sites, p, tx) && k <= |tx.participants|
    requires forall i :: 0 <= i < k ==> tx.participants[i].committed
    requires forall i :: k <= i < |tx.participants| ==> Servable(c, sites, tx, i)
    ensures Run(c, sites, steps) == Some(c2)
    ensures RecordAt(WireOf(c2), p, tx.txId).Some? && RecordAt(WireOf(c2), p, tx.txId).value.state.CoordinatorCommitted?
    decreases |tx.participants| - k
  {
    if k == |tx.participants| {
      steps, c2 := RecordsCommitted(c, sites, p, tx);
    } else if tx.participants[k].committed {
      steps, c2 := CommitFrom(c, sites, p, tx, k + 1);
    } else {
      var first, c1 := CommitNext(c, sites, p, tx, k);
      var rest;
      rest, c2 := CommitFrom(c1, sites, p, CommitAcked(tx, k), k + 1);
      steps := ThenRun(c, sites, first, c1, rest, c2);
    }
  }

  /** A coordinator never loses a reservation. */
  lemma CoordinatorHolds(c: Cluster, sites: Sites, p: Provider, t: TxId)
    requires ClusterInv(c, sites) && p in c.hubs && RecordAt(WireOf(c), p, t).Some?
    requires RecordAt(WireOf(c), p, t).value.role.Coordinator?
    ensures c.hubs[p].up ==> Holds(c.hubs[p], t)
  {
    assert p in sites;
    FineMeans(sites[p], c.hubs[p]);
    assert RecordAt(WireOf(c), p, t) == Lookup(Latest(c.hubs[p].log), t);
    assert SessionsFit(Latest(c.hubs[p].log), c.hubs[p].sessions);
  }

  lemma ServableElsewhere(c: Cluster, c1: Cluster, sites: Sites, p: Provider, tx: Transaction)
    requires ClusterInv(c, sites) && RecordAt(WireOf(c), p, tx.txId) == Some(tx) && p in c.hubs && tx.role.Coordinator?
    requires HasCommitDecision(tx.state) && OnlyAt(c, c1, p)
    requires forall k :: 0 <= k < |tx.participants| ==> Servable(c, sites, tx, k)
    ensures forall k :: 0 <= k < |tx.participants| ==> Servable(c1, sites, tx, k)
  {
    forall k | 0 <= k < |tx.participants| ensures Servable(c1, sites, tx, k) {
      assert Servable(c, sites, tx, k);
      CommitRequestPasses(WireOf(c), Lands(sites), p, tx, k);
    }
  }

  /** The coordinator comes back and settles its own hops. */
  lemma CoordinatorSettles(c: Cluster, sites: Sites, p: Provider, tx: Transaction)
    returns (steps: seq<ClusterStep>, c2: Cluster)
    requires ClusterInv(c, sites) && p in c.hubs && RecordAt(WireOf(c), p, tx.txId) == Some(tx)
    requires tx.role.Coordinator? && tx.state.CoordinatorCommitDecided?
    requires (c.hubs[p].up || Recovers(sites[p], c.hubs[p]))
    ensures Run(c, sites, steps) == Some(c2) && Committing(c2, sites, p, tx) && OnlyAt(c, c2, p)
  {
    CoordinatorHolds(c, sites, p, tx.txId);
    var woken, c1 := Revive(c, sites, p, tx.txId);
    var settle := Local(p, Settle(tx.txId));
    SettleIsPossible(c1, sites, p, tx.txId);
    ClusterStepKeepsInv(c1, sites, settle);
    ProjectsToWire(c1, sites, settle);
    StepIsOnlyAt(c1, sites, settle);
    RunOne(c1, sites, settle);
    c2 := Stepped(c1, sites, settle);
    steps := ThenRun(c, sites, woken, c1, [settle], c2);
  }

  /** What the coordinator's last record says of its participants. */
  lemma AllAreCommitted(c: Cluster, sites: Sites, p: Provider, t: TxId)
    requires ClusterInv(c, sites) && RecordAt(WireOf(c), p, t).Some?
    requires RecordAt(WireOf(c), p, t).value.state.CoordinatorCommitted?
    ensures p in c.hubs && RecordAt(WireOf(c), p, t).value.role.Coordinator?
    ensures AllCommitted(RecordAt(WireOf(c), p, t).value)
    ensures forall k :: 0 <= k < |RecordAt(WireOf(c), p, t).value.participants| ==>
              var q := RecordAt(WireOf(c), p, t).value.participants[k].descriptor.participant;
              var there := RecordAt(WireOf(c), q, t);
              there.Some? && there.value.state.ParticipantCommitted?
  {
    var n := WireOf(c);
    RoleOf(n, Lands(sites), p, t);
    CoordinatorRecord(n, Lands(sites), p, t);
    forall k | 0 <= k < |RecordAt(n, p, t).value.participants|
      ensures var there := RecordAt(n, RecordAt(n, p, t).value.participants[k].descriptor.participant, t);
              there.Some? && there.value.state.ParticipantCommitted?
    {
      assert RecordAt(n, p, t).value.participants[k].committed;
      FlagsAreNow(n, Lands(sites), p, t, k);
    }
  }

  /**
   Liveness of a decision: a commit-decided coordinator that is up or recovers can be taken to
   CoordinatorCommitted by finitely many steps if every participant still to acknowledge runs with its
   reservation or recovers, whatever it has journaled so far; then every participant is durably Committed.
   */
  lemma CommitCompletes(sites: Sites, c: Cluster, p: Provider, tx: Transaction)
    returns (steps: seq<ClusterStep>, c2: Cluster)
    requires ClusterInv(c, sites) && p in c.hubs && RecordAt(WireOf(c), p, tx.txId) == Some(tx)
    requires tx.state.CoordinatorCommitDecided?
    requires c.hubs[p].up || Recovers(sites[p], c.hubs[p])
    requires forall k :: 0 <= k < |tx.participants| ==> Servable(c, sites, tx, k)
    ensures Run(c, sites, steps) == Some(c2)
    ensures RecordAt(WireOf(c2), p, tx.txId).Some? && RecordAt(WireOf(c2), p, tx.txId).value.state.CoordinatorCommitted?
    ensures forall k :: 0 <= k < |RecordAt(WireOf(c2), p, tx.txId).value.participants| ==>
              var q := RecordAt(WireOf(c2), p, tx.txId).value.participants[k].descriptor.participant;
              var there := RecordAt(WireOf(c2), q, tx.txId);
              there.Some? && there.value.state.ParticipantCommitted?
  {
    RoleOf(WireOf(c), Lands(sites), p, tx.txId);
    var first, c1 := CoordinatorSettles(c, sites, p, tx);
    ServableElsewhere(c, c1, sites, p, tx);
    var rest;
    rest, c2 := CommitFrom(c1, sites, p, tx, 0);
    steps := ThenRun(c, sites, first, c1, rest, c2);
    RunStaysInv(c, sites, steps);
    AllAreCommitted(c2, sites, p, tx.txId);
  }

  // ----- both directions -----

  lemma NeededAreHubs(sites: Sites, c: Cluster, p: Provider, tx: Transaction, q: Provider)
    requires ClusterInv(c, sites) && p in c.hubs && RecordAt(WireOf(c), p, tx.txId) == Some(tx)
    requires tx.state.CoordinatorCommitDecided? && Needed(c, CommitPhase, p, tx, q)
    ensures q in c.hubs && q in sites
  {
    RoleOf(WireOf(c), Lands(sites), p, tx.txId);
    if q != p {
      var k :| Owes(c.responses, CommitPhase, tx, q, k);
      CommitRequestPasses(WireOf(c), Lands(sites), p, tx, k);
    }
  }

  lemma NeededServe(sites: Sites, c: Cluster, p: Provider, tx: Transaction)
    requires ClusterInv(c, sites) && p in c.hubs && RecordAt(WireOf(c), p, tx.txId) == Some(tx)
    requires tx.state.CoordinatorCommitDecided?
    requires forall q :: Needed(c, CommitPhase, p, tx, q) ==>
               q in c.hubs && q in sites && (Holds(c.hubs[q], tx.txId) || Recovers(sites[q], c.hubs[q]))
    ensures forall k :: 0 <= k < |tx.participants| ==> Servable(c, sites, tx, k)
  {
    forall k | 0 <= k < |tx.participants| ensures Servable(c, sites, tx, k) {
      var e := tx.participants[k];
      if !e.committed && Acknowledgement(CommitPhase, e.descriptor) !in c.responses {
        assert Owes(c.responses, CommitPhase, tx, e.descriptor.participant, k);
        assert Needed(c, CommitPhase, p, tx, e.descriptor.participant);
      }
    }
  }

  /**
   Exactly when a commit decision can be carried to CoordinatorCommitted, provided a running hub it needs
   holds its reservation or would recover: when every hub it needs that is down recovers.
   */
  lemma CommitCompletesIff(sites: Sites, c: Cluster, p: Provider, tx: Transaction)
    requires (forall q :: q in sites ==> Registration(sites[q].base)) && Occurs(sites, c)
    requires p in c.hubs && RecordAt(WireOf(c), p, tx.txId) == Some(tx) && tx.state.CoordinatorCommitDecided?
    requires forall q :: q in c.hubs && q in sites && Needed(c, CommitPhase, p, tx, q) && c.hubs[q].up ==>
               Holds(c.hubs[q], tx.txId) || Recovers(sites[q], c.hubs[q])
    ensures Completes(c, sites, CommitPhase, p, tx.txId) <==>
            forall q :: q in c.hubs && q in sites && Needed(c, CommitPhase, p, tx, q) && !c.hubs[q].up ==>
                Recovers(sites[q], c.hubs[q])
  {
    OccursInv(sites, c);
    RoleOf(WireOf(c), Lands(sites), p, tx.txId);
    if forall q :: q in c.hubs && q in sites && Needed(c, CommitPhase, p, tx, q) && !c.hubs[q].up ==>
        Recovers(sites[q], c.hubs[q])
    {
      forall q | Needed(c, CommitPhase, p, tx, q)
        ensures q in c.hubs && q in sites && (Holds(c.hubs[q], tx.txId) || Recovers(sites[q], c.hubs[q]))
      {
        NeededAreHubs(sites, c, p, tx, q);
      }
      assert Needed(c, CommitPhase, p, tx, p);
      CoordinatorHolds(c, sites, p, tx.txId);
      NeededServe(sites, c, p, tx);
      var steps, c2 := CommitCompletes(sites, c, p, tx);
      assert ConcludedAt(c2, CommitPhase, p, tx.txId);
    } else {
      var q :| q in c.hubs && q in sites && Needed(c, CommitPhase, p, tx, q) && !c.hubs[q].up
               && !Recovers(sites[q], c.hubs[q]);
      DownBlocks(sites, c, CommitPhase, p, tx, q);
    }
  }

  // ----- a running hub without its reservation -----

  /** The decided coordinator's participant `k` is hub `q`, which gave up its reservation and has not settled. */
  ghost predicate WaitsForLost(c: Cluster, sites: Sites, p: Provider, t: TxId, q: Provider, k: nat) {
    && ClusterInv(c, sites) && p in c.hubs && q in c.hubs
    && t in c.hubs[q].sessions.lost && t !in c.hubs[q].ledger.applied
    && RecordAt(WireOf(c), p, t).Some?
    && var tx := RecordAt(WireOf(c), p, t).value;
    && tx.role.Coordinator? && HasCommitDecision(tx.state)
    && k < |tx.participants| && tx.participants[k].descriptor.participant == q
  }

  lemma CommittedHasSettled(c: Cluster, sites: Sites, q: Provider, t: TxId)
    requires ClusterInv(c, sites) && q in c.hubs && RecordAt(WireOf(c), q, t).Some?
    requires RecordAt(WireOf(c), q, t).value.state.ParticipantCommitted?
    ensures t in c.hubs[q].ledger.applied
  {
    assert q in sites;
    FineMeans(sites[q], c.hubs[q]);
    assert RecordAt(WireOf(c), q, t) == Lookup(Latest(c.hubs[q].log), t);
  }

  /** A participant that is not settled is not committed, so the coordinator is not done. */
  lemma LostIsUnfinished(c: Cluster, sites: Sites, p: Provider, t: TxId, q: Provider, k: nat)
    requires WaitsForLost(c, sites, p, t, q, k)
    ensures !ConcludedAt(c, CommitPhase, p, t)
  {
    if ConcludedAt(c, CommitPhase, p, t) {
      AllAreCommitted(c, sites, p, t);
      CommittedHasSettled(c, sites, q, t);
    }
  }

  lemma LostIsNotHeld(site: Site, h: Hub, t: TxId)
    requires Fine(site, h) && t in h.sessions.lost && t !in h.ledger.applied
    ensures t !in h.ledger.reservations
  {
    FineMeans(site, h);
    assert HoldsKept(Latest(h.log), h.ledger, h.sessions);
  }

  /** What a hub lost it neither settles nor gets back by anything it does while it runs. */
  lemma LostStaysLost(h: Hub, maxHops: nat, s: Step, t: TxId)
    requires Enabled(h, maxHops, s) && !s.Append? && !s.Restart?
    requires t in h.sessions.lost && t !in h.ledger.applied && t !in h.ledger.reservations
    ensures t in Next(h, maxHops, s).sessions.lost && t !in Next(h, maxHops, s).ledger.applied
  {
    if s.Settle? {
      AppliedGrows(h.ledger, s.tx, TermsOf(Latest(h.log)[s.tx]));
    }
  }

  predicate RestartsHub(s: ClusterStep, q: Provider) { s.Local? && s.p == q && s.step.Restart? }

  /** Nor by anything the protocol does: a decided transaction is not aborted. */
  lemma StillLost(c: Cluster, sites: Sites, s: ClusterStep, q: Provider, t: TxId)
    requires ClusterInv(c, sites) && Possible(c, sites, s) && q in c.hubs && !RestartsHub(s, q)
    requires t in c.hubs[q].sessions.lost && t !in c.hubs[q].ledger.applied
    requires var there := RecordAt(WireOf(Stepped(c, sites, s)), q, t);
             there.Some? && !HasAbortDecision(there.value.state)
    ensures var c2 := Stepped(c, sites, s);
            q in c2.hubs && t in c2.hubs[q].sessions.lost && t !in c2.hubs[q].ledger.applied
  {
    assert q in sites;
    if s.Protocol? {
      LostSurvivesProtocol(c, sites, s, q, t);
    } else if s.p == q {
      LostIsNotHeld(sites[q], c.hubs[q], t);
      LostStaysLost(c.hubs[q], sites[q].maxHops, s.step, t);
    }
  }

  lemma LostSurvivesProtocol(c: Cluster, sites: Sites, s: ClusterStep, q: Provider, t: TxId)
    requires Possible(c, sites, s) && s.Protocol? && q in c.hubs && t in c.hubs[q].sessions.lost
    requires var there := RecordAt(WireOf(Stepped(c, sites, s)), q, t);
             there.Some? && !HasAbortDecision(there.value.state)
    ensures var c2 := Stepped(c, sites, s);
            q in c2.hubs && t in c2.hubs[q].sessions.lost && c2.hubs[q].ledger == c.hubs[q].ledger
  {
    var record := Appending(WireOf(c), s.move);
    if record.Some? && record.value.0 == q {
      Extended(c.hubs[q].log, record.value.1);
    }
  }

  lemma DecisionRemains(n: Wire, lands: Territory, m: NetStep, p: Provider, t: TxId)
    requires Sound(n, lands) && Allowed(n, lands, m) && p in n.logs && RecordAt(n, p, t).Some?
    requires RecordAt(n, p, t).value.role.Coordinator? && HasCommitDecision(RecordAt(n, p, t).value.state)
    ensures var next := RecordAt(NextNet(n, lands, m), p, t);
            next.Some? && next.value.role.Coordinator? && HasCommitDecision(next.value.state)
                && Continues(RecordAt(n, p, t), next)
  {
    RoleOf(n, lands, p, t);
    StepContinues(n, lands, m, p, t);
    if m.Advance? && m.p == p && m.tx.txId == t {
      Extended(n.logs[p], m.tx);
    } else {
      RecordStays(n, lands, m, p, t);
    }
  }

  /** The coordinator's newest record is still decided, with the same participant `k`. */
  lemma StillDecided(c: Cluster, sites: Sites, s: ClusterStep, p: Provider, t: TxId, q: Provider, k: nat)
    requires WaitsForLost(c, sites, p, t, q, k) && Possible(c, sites, s)
    ensures var c2 := Stepped(c, sites, s);
            var next := RecordAt(WireOf(c2), p, t);
            && ClusterInv(c2, sites) && p in c2.hubs && next.Some? && next.value.role.Coordinator?
            && HasCommitDecision(next.value.state)
            && k < |next.value.participants| && next.value.participants[k].descriptor.participant == q
  {
    ClusterStepKeepsInv(c, sites, s);
    ProjectsToWire(c, sites, s);
    if s.Protocol? {
      DecisionRemains(WireOf(c), Lands(sites), s.move, p, t);
    }
  }

  lemma StillWaits(c: Cluster, sites: Sites, s: ClusterStep, p: Provider, t: TxId, q: Provider, k: nat)
    requires WaitsForLost(c, sites, p, t, q, k) && Possible(c, sites, s) && !RestartsHub(s, q)
    ensures WaitsForLost(Stepped(c, sites, s), sites, p, t, q, k)
  {
    StillDecided(c, sites, s, p, t, q, k);
    DecidedIsNotAborted(Stepped(c, sites, s), sites, p, t, q, k);
    StillLost(c, sites, s, q, t);
  }

  lemma DecidedIsNotAborted(c: Cluster, sites: Sites, p: Provider, t: TxId, q: Provider, k: nat)
    requires ClusterInv(c, sites) && p in c.hubs && RecordAt(WireOf(c), p, t).Some?
    requires var tx := RecordAt(WireOf(c), p, t).value;
             && tx.role.Coordinator? && HasCommitDecision(tx.state)
             && k < |tx.participants| && tx.participants[k].descriptor.participant == q
    ensures RecordAt(WireOf(c), q, t).Some? && !HasAbortDecision(RecordAt(WireOf(c), q, t).value.state)
  {
    DecidedReachesAll(WireOf(c), Lands(sites), p, t, k);
  }

  /**
   While a participant runs without the reservation it has to settle, no continuation completes the commit
   unless that hub restarts in it.
   */
  lemma {:induction false} LostNeedsRestart(
      c: Cluster, sites: Sites, steps: seq<ClusterStep>, p: Provider, t: TxId, q: Provider, k: nat)
    requires WaitsForLost(c, sites, p, t, q, k) && Run(c, sites, steps).Some?
    requires ConcludedAt(Run(c, sites, steps).value, CommitPhase, p, t)
    ensures exists i :: 0 <= i < |steps| && RestartsHub(steps[i], q)
    decreases steps
  {
    if steps == [] {
      LostIsUnfinished(c, sites, p, t, q, k);
    } else if !RestartsHub(steps[0], q) {
      StillWaits(c, sites, steps[0], p, t, q, k);
      LostNeedsRestart(Stepped(c, sites, steps[0]), sites, steps[1..], p, t, q, k);
      var i :| 0 <= i < |steps[1..]| && RestartsHub(steps[1..][i], q);
      assert RestartsHub(steps[i + 1], q);
    }
  }
}
