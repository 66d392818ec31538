/**
 What stands in the way of finishing a phase: hubs that are down. Runs of a cluster put one after the other,
 hubs brought back over their snapshot and journal, and, the other way round, what a hub that cannot come
 back keeps from ever finishing (src/distributed_tx.rs:1346-1428, 1431-1541).
 */
module Completion {
  import opened Prelude
  import opened Transactions
  import opened Log
  import opened Ledger
  import opened HubLedger
  import opened Hub
  import opened Recovery
  import opened HubRuns
  import opened Descriptors
  import opened TwoPhaseCommit
  import opened Agreement
  import opened Cluster

  lemma RunFirst(c: Cluster, sites: Sites, steps: seq<ClusterStep>)
    requires steps != []
    ensures Possible(c, sites, steps[0]) ==> Run(c, sites, steps) == Run(Stepped(c, sites, steps[0]), sites, steps[1..])
    ensures !Possible(c, sites, steps[0]) ==> Run(c, sites, steps).None?
  {
  }

  lemma {:induction false} RunTwice(c: Cluster, sites: Sites, a: seq<ClusterStep>, b: seq<ClusterStep>)
    requires Run(c, sites, a).Some?
    ensures Run(c, sites, a + b) == Run(Run(c, sites, a).value, sites, b)
    decreases a
  {
    if a == [] {
      assert a + b == b;
    } else {
      var rest, ab := a[1..], a + b;
      assert ab[0] == a[0] && ab[1..] == rest + b && ab != [];
      RunFirst(c, sites, a);
      var next := Stepped(c, sites, a[0]);
      assert Run(c, sites, ab) == Run(next, sites, rest + b) by {
        RunFirst(c, sites, ab);
      }
      RunTwice(next, sites, rest, b);
    }
  }

  lemma RunOne(c: Cluster, sites: Sites, s: ClusterStep)
    requires Possible(c, sites, s)
    ensures Run(c, sites, [s]) == Some(Stepped(c, sites, s))
  {
    assert Run(Stepped(c, sites, s), sites, [s][1..]) == Some(Stepped(c, sites, s));
  }

  /** Only hub `q` changed, and nothing that was sent is gone. */
  ghost predicate OnlyAt(c: Cluster, c2: Cluster, q: Provider) {
    && c2.hubs.Keys == c.hubs.Keys && c.requests <= c2.requests && c.responses <= c2.responses
    && forall u :: u in c.hubs && u != q ==> c2.hubs[u] == c.hubs[u]
  }

  lemma StepIsOnlyAt(c: Cluster, sites: Sites, s: ClusterStep)
    requires Possible(c, sites, s)
    ensures OnlyAt(c, Stepped(c, sites, s), ActorOf(s))
  {
  }

  lemma OnlyAtTwice(c: Cluster, c1: Cluster, c2: Cluster, q: Provider)
    requires OnlyAt(c, c1, q) && OnlyAt(c1, c2, q)
    ensures OnlyAt(c, c2, q)
  {
  }

  // ----- bringing a hub back -----

  /** A restart of this hub succeeds: its listing replays over its snapshot. */
  ghost predicate Recovers(site: Site, h: Hub) {
    |h.log| < U64_MAX && exists ids :: RecoversBy(site, h, ids)
  }

  ghost predicate RecoversBy(site: Site, h: Hub, ids: seq<TxId>) {
    IsListing(IndexOf(h.log), ids) && Recovered(h.saved, site.maxHops, Latest(h.log), ids).Ok?
  }

  lemma SameFiles(site: Site, h: Hub, g: Hub)
    requires h.log == g.log && h.saved == g.saved
    ensures Recovers(site, h) <==> Recovers(site, g)
  {
    assert forall ids :: RecoversBy(site, h, ids) <==> RecoversBy(site, g, ids);
  }

  /** The hub can settle `t` as it runs. */
  predicate Holds(h: Hub, t: TxId) {
    h.up && (t in h.ledger.applied || t !in h.sessions.lost)
  }

  lemma RestartIsPossible(c: Cluster, sites: Sites, q: Provider) returns (ids: seq<TxId>)
    requires q in c.hubs && q in sites && !c.hubs[q].up && Recovers(sites[q], c.hubs[q])
    ensures Possible(c, sites, Local(q, Restart(ids)))
  {
    ids :| RecoversBy(sites[q], c.hubs[q], ids);
  }

  /** After a restart nothing is lost that is not settled. */
  lemma RestartHolds(site: Site, h: Hub, ids: seq<TxId>, t: TxId)
    requires Fine(site, h) && Enabled(h, site.maxHops, Restart(ids))
    ensures Holds(Next(h, site.maxHops, Restart(ids)), t)
  {
    FineMeans(site, h);
    var latest, order := Latest(h.log), CommitOrder(h.log);
    CommitOrderIsDecided(h.log);
    ListingListsAll(h.log, ids);
    SnapshotIsSaved(site.base, latest, order, h.saved, h.savedAt, h.pledges, h.sessions.lost);
    ReplayWhole(site.base, site.maxHops, latest, order, h.saved, ids);
    AppliedIsDecided(latest, order, h.saved);
  }

  /** A hub that recovers can be crashed, if it is not down yet, and restarted. */
  lemma Revive(c: Cluster, sites: Sites, q: Provider, t: TxId) returns (steps: seq<ClusterStep>, c2: Cluster)
    requires ClusterInv(c, sites) && q in c.hubs && (Holds(c.hubs[q], t) || Recovers(sites[q], c.hubs[q]))
    ensures Run(c, sites, steps) == Some(c2) && ClusterInv(c2, sites) && OnlyAt(c, c2, q) && WireOf(c2) == WireOf(c)
    ensures q in c2.hubs && Holds(c2.hubs[q], t)
  {
    steps, c2 := [], c;
    if !Holds(c.hubs[q], t) {
      if c.hubs[q].up {
        var crash := Local(q, Crash);
        ClusterStepKeepsInv(c, sites, crash);
        ProjectsToWire(c, sites, crash);
        RunOne(c, sites, crash);
        var c1 := Stepped(c, sites, crash);
        SameFiles(sites[q], c.hubs[q], c1.hubs[q]);
        var restart;
        restart, c2 := ReviveDown(c1, sites, q, t);
        steps := ThenRun(c, sites, [crash], c1, [restart], c2);
      } else {
        var restart;
        restart, c2 := ReviveDown(c, sites, q, t);
        steps := [restart];
      }
    }
  }

  lemma ReviveDown(c: Cluster, sites: Sites, q: Provider, t: TxId) returns (restart: ClusterStep, c2: Cluster)
    requires ClusterInv(c, sites) && q in c.hubs && !c.hubs[q].up && Recovers(sites[q], c.hubs[q])
    ensures Run(c, sites, [restart]) == Some(c2) && ClusterInv(c2, sites) && OnlyAt(c, c2, q) && WireOf(c2) == WireOf(c)
    ensures q in c2.hubs && Holds(c2.hubs[q], t)
  {
    var ids := RestartIsPossible(c, sites, q);
    restart := Local(q, Restart(ids));
    ClusterStepKeepsInv(c, sites, restart);
    ProjectsToWire(c, sites, restart);
    StepIsOnlyAt(c, sites, restart);
    RunOne(c, sites, restart);
    c2 := Stepped(c, sites, restart);
    RestartHolds(sites[q], c.hubs[q], ids, t);
  }

  lemma ThenRun(c: Cluster, sites: Sites, a: seq<ClusterStep>, c2: Cluster, b: seq<ClusterStep>, c3: Cluster)
    returns (ab: seq<ClusterStep>)
    requires Run(c, sites, a) == Some(c2) && Run(c2, sites, b) == Some(c3)
    ensures Run(c, sites, ab) == Some(c3)
  {
    RunTwice(c, sites, a, b);
    ab := a + b;
  }

  // ----- phases that cannot be finished -----

  /** The flag a participant's acknowledgement of the phase sets. */
  predicate Acknowledged(phase: Phase, e: ParticipantEntry) {
    match phase
    case PreparePhase => e.prepared
    case CommitPhase => e.committed
    case AbortPhase => e.aborted
  }

  /** The coordinator's state once everyone acknowledged the phase. */
  predicate Concluded(phase: Phase, state: TxState) {
    match phase
    case PreparePhase => state.CoordinatorPrepared?
    case CommitPhase => state.CoordinatorCommitted?
    case AbortPhase => state.CoordinatorAborted?
  }

  /** Participant `k` is hub `q`, and has not acknowledged the phase yet. */
  ghost predicate Owes(responses: set<Response>, phase: Phase, tx: Transaction, q: Provider, k: nat) {
    && k < |tx.participants| && tx.participants[k].descriptor.participant == q
    && !Acknowledged(phase, tx.participants[k])
    && Acknowledgement(phase, tx.participants[k].descriptor) !in responses
  }

  /** Hub `q` has still to do something for the phase: it is the coordinator, or has not acknowledged yet. */
  ghost predicate Needed(c: Cluster, phase: Phase, p: Provider, tx: Transaction, q: Provider) {
    q == p || exists k :: Owes(c.responses, phase, tx, q, k)
  }

  /** Some continuation ends with everyone's acknowledgement of the phase journaled. */
  ghost predicate Completes(c: Cluster, sites: Sites, phase: Phase, p: Provider, t: TxId) {
    exists steps :: Run(c, sites, steps).Some? && ConcludedAt(Run(c, sites, steps).value, phase, p, t)
  }

  ghost predicate ConcludedAt(c: Cluster, phase: Phase, p: Provider, t: TxId) {
    RecordAt(WireOf(c), p, t).Some? && Concluded(phase, RecordAt(WireOf(c), p, t).value.state)
  }

  /** The phase is not finished, and hub `q`, which it still needs, is down and does not recover. */
  ghost predicate Stuck(c: Cluster, sites: Sites, phase: Phase, p: Provider, t: TxId, q: Provider, k: nat) {
    && ClusterInv(c, sites) && p in c.hubs && q in c.hubs && q in sites
    && !c.hubs[q].up && !Recovers(sites[q], c.hubs[q])
    && RecordAt(WireOf(c), p, t).Some?
    && var tx := RecordAt(WireOf(c), p, t).value;
    tx.role.Coordinator? && !Concluded(phase, tx.state) && (q == p || Owes(c.responses, phase, tx, q, k))
  }

  /** All a hub that is down can do is recover. */
  lemma DownMayRecover(c: Cluster, sites: Sites, s: ClusterStep, q: Provider)
    requires Possible(c, sites, s) && q in c.hubs && q in sites
    ensures ActorOf(s) == q && !c.hubs[q].up ==> Recovers(sites[q], c.hubs[q])
  {
    if ActorOf(s) == q && !c.hubs[q].up {
      assert RecoversBy(sites[q], c.hubs[q], s.step.order);
    }
  }

  lemma RepliesAreOwn(c: Cluster, sites: Sites, s: ClusterStep, phase: Phase, d: Descriptor)
    requires Possible(c, sites, s) && ActorOf(s) != d.participant && Acknowledgement(phase, d) !in c.responses
    ensures Acknowledgement(phase, d) !in Stepped(c, sites, s).responses
  {
  }

  lemma AdvanceStillOwes(
      c: Cluster, sites: Sites, phase: Phase, p: Provider, tx: Transaction, next: Transaction, q: Provider, k: nat)
    requires Possible(c, sites, Protocol(Advance(p, next))) && RecordAt(WireOf(c), p, next.txId) == Some(tx)
    requires !Concluded(phase, tx.state) && Owes(c.responses, phase, tx, q, k)
    ensures next.role.Coordinator? && !Concluded(phase, next.state) && Owes(c.responses, phase, next, q, k)
  {
    SuccessorKeeps(tx, next);
    assert EntryMay(c.responses, tx.state, tx.participants[k], next.participants[k]);
  }

  lemma HandleIsElsewhere(n: Wire, lands: Territory, q: Provider, r: Request, now: nat, p: Provider, t: TxId)
    requires Allowed(n, lands, Handle(q, r, now)) && p in n.logs && RecordAt(n, p, t).Some?
    requires RecordAt(n, p, t).value.role.Coordinator?
    ensures RecordAt(NextNet(n, lands, Handle(q, r, now)), p, t) == RecordAt(n, p, t)
  {
    var existing := RecordAt(n, q, r.descriptor.txId);
    NextRecordMatches(existing, r, now);
    Extended(n.logs[q], NextRecord(existing, r, now).value);
  }

  /** Another hub's step, or one about another transaction, leaves the coordinator's newest record. */
  lemma RecordStays(n: Wire, lands: Territory, m: NetStep, p: Provider, t: TxId)
    requires Allowed(n, lands, m) && p in n.logs && RecordAt(n, p, t).Some? && RecordAt(n, p, t).value.role.Coordinator?
    requires RecordAt(n, p, t).value.txId == t && !(m.Advance? && m.p == p && m.tx.txId == t)
    ensures RecordAt(NextNet(n, lands, m), p, t) == RecordAt(n, p, t)
  {
    match m
    case Begin(u, tx, owners) => Extended(n.logs[u], tx);
    case Advance(u, tx) => Extended(n.logs[u], tx);
    case Send(u, v, entry, phase) =>
    case Handle(u, r, now) => HandleIsElsewhere(n, lands, u, r, now, p, t);
    case Reply(u, r) =>
  }

  lemma StuckStays(c: Cluster, sites: Sites, s: ClusterStep, phase: Phase, p: Provider, t: TxId, q: Provider, k: nat)
    requires Stuck(c, sites, phase, p, t, q, k) && Possible(c, sites, s)
    ensures Stuck(Stepped(c, sites, s), sites, phase, p, t, q, k)
  {
    var c2, tx := Stepped(c, sites, s), RecordAt(WireOf(c), p, t).value;
    ClusterStepKeepsInv(c, sites, s);
    DownMayRecover(c, sites, s, q);
    StepIsOnlyAt(c, sites, s);
    ProjectsToWire(c, sites, s);
    assert c2.hubs[q] == c.hubs[q];
    RoleOf(WireOf(c), Lands(sites), p, t);
    if q != p {
      RepliesAreOwn(c, sites, s, phase, tx.participants[k].descriptor);
    }
    if s.Protocol? && s.move.Advance? && s.move.p == p && s.move.tx.txId == t {
      AdvanceStillOwes(c, sites, phase, p, tx, s.move.tx, q, k);
      AdvancedRecord(WireOf(c), Lands(sites), p, s.move.tx);
    } else if s.Protocol? {
      RecordStays(WireOf(c), Lands(sites), s.move, p, t);
    }
  }

  lemma AdvancedRecord(n: Wire, lands: Territory, p: Provider, tx: Transaction)
    requires Allowed(n, lands, Advance(p, tx)) && p in n.logs
    ensures RecordAt(NextNet(n, lands, Advance(p, tx)), p, tx.txId) == Some(tx)
  {
    Extended(n.logs[p], tx);
  }

  lemma {:induction false} StuckForever(
      c: Cluster, sites: Sites, steps: seq<ClusterStep>, phase: Phase, p: Provider, t: TxId, q: Provider, k: nat)
    requires Stuck(c, sites, phase, p, t, q, k) && Run(c, sites, steps).Some?
    ensures Stuck(Run(c, sites, steps).value, sites, phase, p, t, q, k)
    decreases steps
  {
    if steps != [] {
      StuckStays(c, sites, steps[0], phase, p, t, q, k);
      StuckForever(Stepped(c, sites, steps[0]), sites, steps[1..], phase, p, t, q, k);
    }
  }

  /** While a hub the phase needs is down and does not recover, no continuation finishes the phase. */
  lemma DownBlocks(sites: Sites, c: Cluster, phase: Phase, p: Provider, tx: Transaction, q: Provider)
    requires ClusterInv(c, sites) && p in c.hubs && RecordAt(WireOf(c), p, tx.txId) == Some(tx)
    requires tx.role.Coordinator? && !Concluded(phase, tx.state)
    requires Needed(c, phase, p, tx, q) && q in c.hubs && !c.hubs[q].up && !Recovers(sites[q], c.hubs[q])
    ensures !Completes(c, sites, phase, p, tx.txId)
  {
    var k: nat := 0;
    if q != p {
      k :| Owes(c.responses, phase, tx, q, k);
    }
    assert q in sites;
    forall steps | Run(c, sites, steps).Some?
      ensures !ConcludedAt(Run(c, sites, steps).value, phase, p, tx.txId)
    {
      StuckForever(c, sites, steps, phase, p, tx.txId, q, k);
    }
  }

  ghost predicate GuardedBy(site: Site, h: Hub, ids: seq<TxId>) {
    && IsListing(IndexOf(h.log), ids)
    && Guards(site.base, Latest(h.log), CommitOrder(h.log), site.maxHops, h.saved, {}, ids)
  }

  /** Recovering, read off the snapshot and the journal. */
  lemma RecoversIff(sites: Sites, c: Cluster, q: Provider)
    requires (forall u :: u in sites ==> Registration(sites[u].base)) && Occurs(sites, c) && q in c.hubs && q in sites
    ensures Recovers(sites[q], c.hubs[q]) <==>
                |c.hubs[q].log| < U64_MAX && exists ids :: GuardedBy(sites[q], c.hubs[q], ids)
  {
    OccursInv(sites, c);
    var h, site := c.hubs[q], sites[q];
    if |h.log| < U64_MAX {
      forall ids ensures RecoversBy(site, h, ids) <==> GuardedBy(site, h, ids) {
        if IsListing(IndexOf(h.log), ids) {
          ListingGuards(site, h, ids);
        }
      }
    }
  }

  lemma ListingGuards(site: Site, h: Hub, ids: seq<TxId>)
    requires Fine(site, h) && |h.log| < U64_MAX && IsListing(IndexOf(h.log), ids)
    ensures RecoversBy(site, h, ids) <==> GuardedBy(site, h, ids)
  {
    FineMeans(site, h);
    ListingListsAll(h.log, ids);
    SnapshotIsSaved(site.base, Latest(h.log), CommitOrder(h.log), h.saved, h.savedAt, h.pledges, h.sessions.lost);
    ReplayWhole(site.base, site.maxHops, Latest(h.log), CommitOrder(h.log), h.saved, ids);
  }
}
