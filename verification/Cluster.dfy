/**
 Any number of hubs, each with its ledger, journal and snapshot, running the two-phase commit: every
 append of the protocol is an append of a hub, and a Committed record is written only after the local
 apply (src/distributed_tx.rs:976-1041, 1276-1297).
 */
module Cluster {
  import opened Prelude
  import opened Transactions
  import opened Log
  import opened Ledger
  import opened HubLedger
  import opened Hub
  import opened Recovery
  import opened HubRuns
  import opened TwoPhaseCommit
  import opened Agreement

  /** A hub's channels as registered, and its hop limit. */
  datatype Site = Site(base: Channels, maxHops: nat)

  type Sites = map<Provider, Site>

  datatype Cluster = Cluster(hubs: map<Provider, Hub>, requests: set<Request>, responses: set<Response>)

  datatype ClusterStep =
    | Local(p: Provider, step: Step)
    | Protocol(move: NetStep)

  function WireOf(c: Cluster): Wire {
    Wire(map p | p in c.hubs :: c.hubs[p].log, c.requests, c.responses)
  }

  function Lands(sites: Sites): Territory {
    map p | p in sites :: sites[p].base.Keys
  }

  predicate IsCommitted(state: TxState) {
    state.CoordinatorCommitted? || state.ParticipantCommitted?
  }

  /** The hub and record a protocol step appends. */
  function Appending(n: Wire, m: NetStep): Option<(Provider, Transaction)> {
    match m
    case Begin(p, tx, owners) => Some((p, tx))
    case Advance(p, tx) => Some((p, tx))
    case Send(p, t, entry, phase) => None
    case Reply(q, r) => None
    case Handle(q, r, now) =>
      var record := NextRecord(RecordAt(n, q, r.descriptor.txId), r, now);
      if record.None? then None else Some((q, record.value))
  }

  /** The hub can append the record now: money reserved before a first record, moved before a Committed one. */
  ghost predicate HubMay(h: Hub, maxHops: nat, tx: Transaction) {
    CanAppend(h, maxHops, tx) && (IsCommitted(tx.state) ==> tx.txId in h.ledger.applied)
  }

  /** The hub a step belongs to. */
  function ActorOf(s: ClusterStep): Provider {
    match s
    case Local(p, step) => p
    case Protocol(m) =>
      match m
      case Begin(p, tx, owners) => p
      case Advance(p, tx) => p
      case Send(p, t, entry, phase) => p
      case Handle(q, r, now) => q
      case Reply(q, r) => q
  }

  ghost predicate Possible(c: Cluster, sites: Sites, s: ClusterStep) {
    match s
    case Local(p, step) => p in c.hubs && p in sites && !step.Append? && Enabled(c.hubs[p], sites[p].maxHops, step)
    case Protocol(m) =>
      && Allowed(WireOf(c), Lands(sites), m) && ActorOf(s) in c.hubs && c.hubs[ActorOf(s)].up
      && var record := Appending(WireOf(c), m);
      record.Some? ==>
        var (p, tx) := record.value;
        p in c.hubs && p in sites && HubMay(c.hubs[p], sites[p].maxHops, tx)
  }

  ghost function Stepped(c: Cluster, sites: Sites, s: ClusterStep): Cluster
    requires Possible(c, sites, s)
  {
    match s
    case Local(p, step) => c.(hubs := c.hubs[p := Next(c.hubs[p], sites[p].maxHops, step)])
    case Protocol(m) =>
      var n := NextNet(WireOf(c), Lands(sites), m);
      var record := Appending(WireOf(c), m);
      Cluster(if record.Some? then c.hubs[record.value.0 := Appended(c.hubs[record.value.0], record.value.1)]
          else c.hubs,
              n.requests, n.responses)
  }

  lemma NextNetLogs(n: Wire, lands: Territory, m: NetStep)
    requires Allowed(n, lands, m)
    ensures var record := Appending(n, m);
            NextNet(n, lands, m).logs ==
            if record.Some? && record.value.0 in n.logs
            then n.logs[record.value.0 := n.logs[record.value.0] + [record.value.1]] else n.logs
  {
  }

  lemma WireOfAppend(hubs: map<Provider, Hub>, p: Provider, h: Hub, requests: set<Request>, responses: set<Response>)
    requires p in hubs
    ensures WireOf(Cluster(hubs[p := h], requests, responses)).logs
                == WireOf(Cluster(hubs, requests, responses)).logs[p := h.log]
  {
  }

  /** Protocol steps act on the journals as in TwoPhaseCommit; local steps leave them alone. */
  lemma ProjectsToWire(c: Cluster, sites: Sites, s: ClusterStep)
    requires Possible(c, sites, s)
    ensures s.Protocol? ==> WireOf(Stepped(c, sites, s)) == NextNet(WireOf(c), Lands(sites), s.move)
    ensures s.Local? ==> WireOf(Stepped(c, sites, s)) == WireOf(c)
  {
    match s
    case Local(p, step) =>
      var h := Next(c.hubs[p], sites[p].maxHops, step);
      LocalKeepsLog(c.hubs[p], sites[p].maxHops, step);
      WireOfAppend(c.hubs, p, h, c.requests, c.responses);
      assert WireOf(c).logs[p := h.log] == WireOf(c).logs;
    case Protocol(m) =>
      var record, n := Appending(WireOf(c), m), NextNet(WireOf(c), Lands(sites), m);
      NextNetLogs(WireOf(c), Lands(sites), m);
      if record.Some? {
        var (p, tx) := record.value;
        WireOfAppend(c.hubs, p, Appended(c.hubs[p], tx), n.requests, n.responses);
      }
  }

  lemma LocalKeepsLog(h: Hub, maxHops: nat, s: Step)
    requires Enabled(h, maxHops, s) && !s.Append?
    ensures Next(h, maxHops, s).log == h.log
  {
  }

  // ----- one hub of the cluster -----

  ghost predicate CommittedIsApplied(h: Hub) {
    forall t :: t in Latest(h.log) && IsCommitted(Latest(h.log)[t].state) ==> t in h.ledger.applied
  }

  ghost predicate HubUnfolded(u: Unfolding, site: Site, h: Hub) {
    Registration(site.base) && HubInv(site.base, site.maxHops, h) && CommittedIsApplied(h)
  }

  /** The hub invariant, behind a quantifier so that it is unfolded only by FineMeans. */
  ghost predicate Fine(site: Site, h: Hub) {
    forall u: Unfolding :: HubUnfolded(u, site, h)
  }

  lemma FineMeans(site: Site, h: Hub)
    ensures Fine(site, h) <==> Registration(site.base) && HubInv(site.base, site.maxHops, h) && CommittedIsApplied(h)
  {
    assert HubUnfolded(Unfolding, site, h) <==>
        Registration(site.base) && HubInv(site.base, site.maxHops, h) && CommittedIsApplied(h);
  }

  lemma AppliedStays(site: Site, h: Hub, s: Step)
    requires HubInv(site.base, site.maxHops, h) && CommittedIsApplied(h) && Enabled(h, site.maxHops, s) && !s.Append?
    ensures CommittedIsApplied(Next(h, site.maxHops, s))
  {
    LocalKeepsLog(h, site.maxHops, s);
    match s
    case Restart(ids) =>
      ListingListsAll(h.log, ids);
      CommitOrderIsDecided(h.log);
      SnapshotIsSaved(site.base, Latest(h.log), CommitOrder(h.log), h.saved, h.savedAt, h.pledges, h.sessions.lost);
      ReplayWhole(site.base, site.maxHops, Latest(h.log), CommitOrder(h.log), h.saved, ids);
      AppliedIsDecided(Latest(h.log), CommitOrder(h.log), h.saved);
    case Settle(tx) => AppliedGrows(h.ledger, tx, TermsOf(Latest(h.log)[tx]));
    case Reserve(tx, terms) =>
    case Release(tx) =>
    case Abandon(tx) =>
    case Close(tx) =>
    case ReleaseUnacknowledged(tx) =>
    case Crash =>
    case Save(keep) =>
  }

  lemma AppliedGrows(l: Ledger, tx: TxId, t: Terms)
    requires Applied(l, tx, t).Ok?
    ensures Applied(l, tx, t).value.applied == l.applied + {tx}
  {
  }

  lemma LocalStaysFine(site: Site, h: Hub, s: Step)
    requires Fine(site, h) && Enabled(h, site.maxHops, s) && !s.Append?
    ensures Fine(site, Next(h, site.maxHops, s))
  {
    FineMeans(site, h);
    StepKeepsInv(site.base, site.maxHops, h, s);
    AppliedStays(site, h, s);
    FineMeans(site, Next(h, site.maxHops, s));
  }

  lemma AppendStaysFine(site: Site, h: Hub, tx: Transaction)
    requires Fine(site, h) && HubMay(h, site.maxHops, tx)
    ensures Fine(site, Appended(h, tx))
  {
    FineMeans(site, h);
    AppendStepInv(site.base, site.maxHops, h, tx);
    Extended(h.log, tx);
    FineMeans(site, Appended(h, tx));
  }

  // ----- the cluster -----

  ghost predicate ClusterInv(c: Cluster, sites: Sites) {
    && c.hubs.Keys == sites.Keys
    && (forall p :: p in sites ==> Fine(sites[p], c.hubs[p]))
    && Sound(WireOf(c), Lands(sites))
  }

  lemma ClusterStepKeepsInv(c: Cluster, sites: Sites, s: ClusterStep)
    requires ClusterInv(c, sites) && Possible(c, sites, s)
    ensures ClusterInv(Stepped(c, sites, s), sites)
  {
    ProjectsToWire(c, sites, s);
    match s
    case Local(p, step) => LocalStaysFine(sites[p], c.hubs[p], step);
    case Protocol(m) =>
      StepStaysSound(WireOf(c), Lands(sites), m);
      var record := Appending(WireOf(c), m);
      if record.Some? {
        AppendStaysFine(sites[record.value.0], c.hubs[record.value.0], record.value.1);
      }
  }

  function Founded(sites: Sites): Cluster {
    Cluster(map p | p in sites :: Fresh(sites[p].base), {}, {})
  }

  ghost function Run(c: Cluster, sites: Sites, steps: seq<ClusterStep>): Option<Cluster>
    decreases steps
  {
    if steps == [] then Some(c)
    else if Possible(c, sites, steps[0]) then Run(Stepped(c, sites, steps[0]), sites, steps[1..])
    else None
  }

  ghost predicate Occurs(sites: Sites, c: Cluster) {
    exists steps :: Run(Founded(sites), sites, steps) == Some(c)
  }

  lemma FoundedInv(sites: Sites)
    requires forall p :: p in sites ==> Registration(sites[p].base)
    ensures ClusterInv(Founded(sites), sites)
  {
    forall p | p in sites ensures Fine(sites[p], Fresh(sites[p].base)) {
      FreshInv(sites[p].base, sites[p].maxHops);
      FineMeans(sites[p], Fresh(sites[p].base));
    }
    StartInv(sites.Keys, Lands(sites));
    assert WireOf(Founded(sites)) == Start(sites.Keys);
  }

  lemma {:induction false} RunStaysInv(c: Cluster, sites: Sites, steps: seq<ClusterStep>)
    requires ClusterInv(c, sites) && Run(c, sites, steps).Some?
    ensures ClusterInv(Run(c, sites, steps).value, sites)
    decreases steps
  {
    if steps != [] {
      ClusterStepKeepsInv(c, sites, steps[0]);
      RunStaysInv(Stepped(c, sites, steps[0]), sites, steps[1..]);
    }
  }

  lemma OccursInv(sites: Sites, c: Cluster)
    requires (forall p :: p in sites ==> Registration(sites[p].base)) && Occurs(sites, c)
    ensures ClusterInv(c, sites)
  {
    var steps :| Run(Founded(sites), sites, steps) == Some(c);
    FoundedInv(sites);
    RunStaysInv(Founded(sites), sites, steps);
  }
}
