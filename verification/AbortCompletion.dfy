/**
 An abort decision over real hubs, some of which may be down (src/distributed_tx.rs:1045-1138, 1346-1428):
 exactly when it can be carried to CoordinatorAborted.
 */
module AbortCompletion {
  import opened Prelude
  import opened Transactions
  import opened Log
  import opened Ledger
  import opened HubLedger
  import opened Hub
  import opened HubRuns
  import opened Descriptors
  import opened TwoPhaseCommit
  import opened Agreement
  import opened AbortDelivery
  import opened Cluster
  import opened Completion

  // ----- from the protocol's run to the cluster's -----

  function Protocols(moves: seq<NetStep>): seq<ClusterStep> {
    if moves == [] then [] else [Protocol(moves[0])] + Protocols(moves[1..])
  }

  /** All hubs `who` are up. */
  predicate AllUp(c: Cluster, who: set<Provider>) {
    forall q :: q in who ==> q in c.hubs && c.hubs[q].up
  }

  /** A hub may always append a record that serves to abort. */
  lemma HubMayAbort(h: Hub, maxHops: nat, tx: Transaction)
    requires h.up && HasAbortDecision(tx.state) && MayFollow(Lookup(Latest(h.log), tx.txId), tx)
    ensures HubMay(h, maxHops, tx)
  {
  }

  lemma AbortAppends(n: Wire, lands: Territory, m: NetStep, who: set<Provider>)
    requires Sound(n, lands) && Allowed(n, lands, m) && OfAbort(m, who)
    ensures ActorOf(Protocol(m)) in who
    ensures var record := Appending(n, m);
            record.Some? ==>
                && record.value.0 == ActorOf(Protocol(m)) && HasAbortDecision(record.value.1.state)
                && MayFollow(RecordAt(n, record.value.0, record.value.1.txId), record.value.1)
  {
    if m.Handle? {
      HandleFollows(n, lands, m.q, m.request, m.now);
      NextRecordMatches(RecordAt(n, m.q, m.request.descriptor.txId), m.request, m.now);
    }
  }

  lemma AbortStepPossible(c: Cluster, sites: Sites, m: NetStep, who: set<Provider>)
    requires ClusterInv(c, sites) && Allowed(WireOf(c), Lands(sites), m) && OfAbort(m, who) && AllUp(c, who)
    ensures Possible(c, sites, Protocol(m)) && AllUp(Stepped(c, sites, Protocol(m)), who)
  {
    var record := Appending(WireOf(c), m);
    AbortAppends(WireOf(c), Lands(sites), m, who);
    if record.Some? {
      var (q, tx) := record.value;
      assert RecordAt(WireOf(c), q, tx.txId) == Lookup(Latest(c.hubs[q].log), tx.txId);
      HubMayAbort(c.hubs[q], sites[q].maxHops, tx);
    }
  }

  /** What the protocol can do to abort with the hubs `who`, the cluster can do while they are up. */
  lemma {:induction false} AbortsRun(c: Cluster, sites: Sites, moves: seq<NetStep>, who: set<Provider>)
    requires ClusterInv(c, sites) && Ran(WireOf(c), Lands(sites), moves).Some?
    requires AllOfAbort(moves, who) && AllUp(c, who)
    ensures Run(c, sites, Protocols(moves)).Some?
    ensures WireOf(Run(c, sites, Protocols(moves)).value) == Ran(WireOf(c), Lands(sites), moves).value
    decreases moves
  {
    if moves != [] {
      var s := Protocol(moves[0]);
      assert OfAbort(moves[0], who);
      AbortStepPossible(c, sites, moves[0], who);
      ProjectsToWire(c, sites, s);
      ClusterStepKeepsInv(c, sites, s);
      AbortsRun(Stepped(c, sites, s), sites, moves[1..], who);
      RunFirst(c, sites, Protocols(moves));
      assert Protocols(moves)[1..] == Protocols(moves[1..]);
    }
  }

  // ----- and back -----

  /** The protocol steps of a cluster's run. */
  function MovesOf(steps: seq<ClusterStep>): seq<NetStep> {
    if steps == [] then [] else (if steps[0].Protocol? then [steps[0].move] else []) + MovesOf(steps[1..])
  }

  lemma {:induction false} RunIsRan(c: Cluster, sites: Sites, steps: seq<ClusterStep>)
    requires Run(c, sites, steps).Some?
    ensures Ran(WireOf(c), Lands(sites), MovesOf(steps)) == Some(WireOf(Run(c, sites, steps).value))
    decreases steps
  {
    if steps != [] {
      var s := steps[0];
      ProjectsToWire(c, sites, s);
      RunIsRan(Stepped(c, sites, s), sites, steps[1..]);
      if s.Protocol? {
        assert Possible(c, sites, s);
        RanFirst(WireOf(c), Lands(sites), MovesOf(steps));
        assert MovesOf(steps)[1..] == MovesOf(steps[1..]);
      } else {
        assert MovesOf(steps) == MovesOf(steps[1..]);
      }
    }
  }

  // ----- waking the hubs that are needed -----

  /** Every hub of `qs` is up or recovers. */
  ghost predicate Wakeable(c: Cluster, sites: Sites, qs: set<Provider>) {
    forall q :: q in qs ==> q in c.hubs && q in sites && (c.hubs[q].up || Recovers(sites[q], c.hubs[q]))
  }

  ghost predicate StaysUp(c: Cluster, c2: Cluster) {
    forall u :: u in c.hubs && c.hubs[u].up ==> u in c2.hubs && c2.hubs[u].up
  }

  lemma WakeOne(c: Cluster, sites: Sites, q: Provider, t: TxId) returns (steps: seq<ClusterStep>, c2: Cluster)
    requires ClusterInv(c, sites) && Wakeable(c, sites, {q})
    ensures Run(c, sites, steps) == Some(c2) && ClusterInv(c2, sites) && WireOf(c2) == WireOf(c)
    ensures OnlyAt(c, c2, q) && StaysUp(c, c2) && AllUp(c2, {q})
  {
    steps, c2 := [], c;
    if !c.hubs[q].up {
      var restart;
      restart, c2 := ReviveDown(c, sites, q, t);
      steps := [restart];
    }
  }

  /** They can all be restarted; journals and messages stay as they are. */
  lemma {:induction false} Wake(c: Cluster, sites: Sites, qs: set<Provider>, t: TxId)
    returns (steps: seq<ClusterStep>, c2: Cluster)
    requires ClusterInv(c, sites) && Wakeable(c, sites, qs)
    ensures Run(c, sites, steps) == Some(c2) && ClusterInv(c2, sites) && WireOf(c2) == WireOf(c)
    ensures StaysUp(c, c2) && AllUp(c2, qs)
    decreases |qs|
  {
    steps, c2 := [], c;
    if qs != {} {
      var q :| q in qs;
      var first, c1 := WakeOne(c, sites, q, t);
      var rest;
      rest, c2 := Wake(c1, sites, qs - {q}, t);
      steps := ThenRun(c, sites, first, c1, rest, c2);
    }
  }

  // ----- the result -----

  /** The hubs that the abort of `tx` still needs. */
  function NeededHubs(c: Cluster, p: Provider, tx: Transaction): set<Provider> {
    {p} + set k | 0 <= k < |tx.participants| && !tx.participants[k].aborted
                  && Acknowledgement(AbortPhase, tx.participants[k].descriptor) !in c.responses
            :: tx.participants[k].descriptor.participant
  }

  lemma NeededHubsAre(c: Cluster, p: Provider, tx: Transaction, q: Provider)
    ensures q in NeededHubs(c, p, tx) <==> Needed(c, AbortPhase, p, tx, q)
  {
    if q != p && q in NeededHubs(c, p, tx) {
      var k :| 0 <= k < |tx.participants| && !tx.participants[k].aborted
               && Acknowledgement(AbortPhase, tx.participants[k].descriptor) !in c.responses
               && tx.participants[k].descriptor.participant == q;
      assert Owes(c.responses, AbortPhase, tx, q, k);
    }
  }

  /** Every hub the abort needs that is down recovers. */
  ghost predicate NeededRecover(c: Cluster, sites: Sites, p: Provider, tx: Transaction) {
    forall q :: q in c.hubs && q in sites && Needed(c, AbortPhase, p, tx, q) && !c.hubs[q].up ==>
        Recovers(sites[q], c.hubs[q])
  }

  lemma ParticipantIsHub(n: Wire, lands: Territory, tx: Transaction, k: nat)
    requires AllReachable(n, lands, tx) && k < |tx.participants|
    ensures tx.participants[k].descriptor.participant in n.logs
  {
    assert AbortDelivery.Reachable(n, lands, tx.participants[k].descriptor);
  }

  lemma NeededIsHub(c: Cluster, sites: Sites, p: Provider, tx: Transaction, q: Provider)
    requires p in c.hubs && AllReachable(WireOf(c), Lands(sites), tx) && q in NeededHubs(c, p, tx)
    ensures q in c.hubs && Needed(c, AbortPhase, p, tx, q)
  {
    NeededHubsAre(c, p, tx, q);
    if q != p {
      var k :| Owes(c.responses, AbortPhase, tx, q, k);
      ParticipantIsHub(WireOf(c), Lands(sites), tx, k);
    }
  }

  lemma NeededWake(c: Cluster, sites: Sites, p: Provider, tx: Transaction)
    requires c.hubs.Keys == sites.Keys && p in c.hubs && AllReachable(WireOf(c), Lands(sites), tx)
    requires NeededRecover(c, sites, p, tx)
    ensures Wakeable(c, sites, NeededHubs(c, p, tx))
  {
    forall q | q in NeededHubs(c, p, tx)
      ensures q in c.hubs && q in sites && (c.hubs[q].up || Recovers(sites[q], c.hubs[q]))
    {
      NeededIsHub(c, sites, p, tx, q);
    }
  }

  lemma NeededServe(c: Cluster, p: Provider, tx: Transaction)
    ensures Serving(WireOf(c), tx, 0, NeededHubs(c, p, tx))
  {
  }

  lemma AbortCompletes(c: Cluster, sites: Sites, p: Provider, tx: Transaction)
    requires ClusterInv(c, sites) && p in c.hubs && RecordAt(WireOf(c), p, tx.txId) == Some(tx)
    requires tx.state.CoordinatorAbortDecided? && AllReachable(WireOf(c), Lands(sites), tx)
    requires NeededRecover(c, sites, p, tx)
    ensures Completes(c, sites, AbortPhase, p, tx.txId)
  {
    var who := NeededHubs(c, p, tx);
    NeededWake(c, sites, p, tx);
    NeededServe(c, p, tx);
    RoleOf(WireOf(c), Lands(sites), p, tx.txId);
    var woken, c1 := Wake(c, sites, who, tx.txId);
    var moves, n2 := DeliverAbortFrom(WireOf(c1), Lands(sites), p, tx, 0, who);
    AbortsRun(c1, sites, moves, who);
    var c2 := Run(c1, sites, Protocols(moves)).value;
    var steps := ThenRun(c, sites, woken, c1, Protocols(moves), c2);
    assert ConcludedAt(c2, AbortPhase, p, tx.txId);
  }

  lemma CompletedIsReachable(c: Cluster, sites: Sites, p: Provider, tx: Transaction)
    requires ClusterInv(c, sites) && p in c.hubs && RecordAt(WireOf(c), p, tx.txId) == Some(tx)
    requires tx.role.Coordinator? && Completes(c, sites, AbortPhase, p, tx.txId)
    ensures AllReachable(WireOf(c), Lands(sites), tx)
  {
    var steps :| Run(c, sites, steps).Some? && ConcludedAt(Run(c, sites, steps).value, AbortPhase, p, tx.txId);
    RunIsRan(c, sites, steps);
    AbortedWasReachable(WireOf(c), Lands(sites), MovesOf(steps), WireOf(Run(c, sites, steps).value), p, tx);
  }

  lemma CompletedRecover(c: Cluster, sites: Sites, p: Provider, tx: Transaction)
    requires ClusterInv(c, sites) && p in c.hubs && RecordAt(WireOf(c), p, tx.txId) == Some(tx)
    requires tx.role.Coordinator? && !Concluded(AbortPhase, tx.state) && Completes(c, sites, AbortPhase, p, tx.txId)
    ensures NeededRecover(c, sites, p, tx)
  {
    forall q | q in c.hubs && q in sites && Needed(c, AbortPhase, p, tx, q) && !c.hubs[q].up
      ensures Recovers(sites[q], c.hubs[q])
    {
      if !Recovers(sites[q], c.hubs[q]) {
        DownBlocks(sites, c, AbortPhase, p, tx, q);
      }
    }
  }

  /**
   Exactly when an abort decision can be carried to CoordinatorAborted: every participant hub accepts the
   descriptor by its own checks and holds no other transaction under the same id, and every hub that has still
   to answer, and the coordinator itself, is up or recovers over its snapshot and journal.
   */
  lemma AbortCompletesIff(sites: Sites, c: Cluster, p: Provider, tx: Transaction)
    requires (forall q :: q in sites ==> Registration(sites[q].base)) && Occurs(sites, c)
    requires p in c.hubs && RecordAt(WireOf(c), p, tx.txId) == Some(tx) && tx.state.CoordinatorAbortDecided?
    ensures Completes(c, sites, AbortPhase, p, tx.txId) <==>
            AllReachable(WireOf(c), Lands(sites), tx) && NeededRecover(c, sites, p, tx)
  {
    OccursInv(sites, c);
    AbortCompletesIffInv(sites, c, p, tx);
  }

  lemma AbortCompletesIffInv(sites: Sites, c: Cluster, p: Provider, tx: Transaction)
    requires ClusterInv(c, sites) && p in c.hubs && RecordAt(WireOf(c), p, tx.txId) == Some(tx)
    requires tx.state.CoordinatorAbortDecided?
    ensures Completes(c, sites, AbortPhase, p, tx.txId) <==>
            AllReachable(WireOf(c), Lands(sites), tx) && NeededRecover(c, sites, p, tx)
  {
    RoleOf(WireOf(c), Lands(sites), p, tx.txId);
    if AllReachable(WireOf(c), Lands(sites), tx) && NeededRecover(c, sites, p, tx) {
      AbortCompletes(c, sites, p, tx);
    }
    if Completes(c, sites, AbortPhase, p, tx.txId) {
      CompletedIsReachable(c, sites, p, tx);
      CompletedRecover(c, sites, p, tx);
    }
  }
}
