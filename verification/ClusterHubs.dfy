/**
 Every hub of a cluster is a hub in the sense of HubRuns, and so is the hub behind the handlers: what is
 proved of a hub's runs holds of the hubs of every run of the protocol.
 */
module ClusterHubs {
  import opened Prelude
  import opened SetSums
  import opened Transactions
  import opened Log
  import Journal
  import opened Ledger
  import opened HubLedger
  import opened Hub
  import opened Recovery
  import opened HubRuns
  import opened TwoPhaseCommit
  import opened Cluster
  import opened Completion
  import opened NodeRuns
  import opened OneHub

  // ----- the hubs of a cluster are hubs -----

  ghost predicate AllReachable(sites: Sites, c: Cluster) {
    forall p :: p in sites ==> p in c.hubs && HubRuns.Reachable(sites[p].base, sites[p].maxHops, c.hubs[p])
  }

  lemma StepStaysReachable(sites: Sites, c: Cluster, s: ClusterStep)
    requires AllReachable(sites, c) && Possible(c, sites, s)
    ensures AllReachable(sites, Stepped(c, sites, s))
  {
    var record := if s.Protocol? then Appending(WireOf(c), s.move) else None;
    match s
    case Local(p, step) => OneMoreStep(sites[p].base, sites[p].maxHops, c.hubs[p], step);
    case Protocol(m) =>
      if record.Some? {
        var (p, tx) := record.value;
        OneMoreStep(sites[p].base, sites[p].maxHops, c.hubs[p], Append(tx));
      }
  }

  lemma {:induction false} RunStaysReachable(sites: Sites, c: Cluster, steps: seq<ClusterStep>)
    requires AllReachable(sites, c) && Run(c, sites, steps).Some?
    ensures AllReachable(sites, Run(c, sites, steps).value)
    decreases steps
  {
    if steps != [] {
      StepStaysReachable(sites, c, steps[0]);
      RunStaysReachable(sites, Stepped(c, sites, steps[0]), steps[1..]);
    }
  }

  lemma FoundedIsReachable(sites: Sites)
    ensures AllReachable(sites, Founded(sites))
  {
    forall p | p in sites ensures HubRuns.Reachable(sites[p].base, sites[p].maxHops, Fresh(sites[p].base)) {
      FreshIsReachable(sites[p].base, sites[p].maxHops);
    }
  }

  /** Whatever the protocol does, each hub of the cluster has only run as HubRuns lets a hub run. */
  lemma HubIsReachable(sites: Sites, c: Cluster, p: Provider)
    requires Occurs(sites, c) && p in sites
    ensures p in c.hubs && HubRuns.Reachable(sites[p].base, sites[p].maxHops, c.hubs[p])
  {
    var steps :| Run(Founded(sites), sites, steps) == Some(c);
    FoundedIsReachable(sites);
    RunStaysReachable(sites, Founded(sites), steps);
  }

  lemma {:induction false} PlayStaysReachable(sites: Sites, c: Cluster, events: seq<Event>)
    requires AllReachable(sites, c) && Play(c, sites, events).Some?
    ensures AllReachable(sites, Play(c, sites, events).value)
    decreases events
  {
    if events != [] {
      if events[0].Act? {
        StepStaysReachable(sites, c, events[0].step);
      }
      PlayStaysReachable(sites, Do(c, sites, events[0]), events[1..]);
    }
  }

  /** So has the hub that the handlers run. */
  lemma HandledHubIsReachable(k: Track, log: Log, ledger: Ledger)
    requires OnTrack(k, log, ledger)
    ensures k.p in k.c.hubs && k.c.hubs[k.p].log == log && k.c.hubs[k.p].ledger == ledger
    ensures HubRuns.Reachable(k.site.base, k.site.maxHops, k.c.hubs[k.p])
  {
    OnTrackMeans(k, log, ledger);
    FoundedIsReachable(Home(k));
    PlayStaysReachable(Home(k), Founded(Home(k)), k.trace);
  }

  // ----- what that gives -----

  /** All hubs registered their channels, and some run of the protocol ends in `c`. */
  ghost predicate Running(sites: Sites, c: Cluster, p: Provider) {
    (forall q :: q in sites ==> Registration(sites[q].base)) && Occurs(sites, c) && p in sites
  }

  /** At every hub, at any time, money has moved only for durable commit decisions, and no side is over-promised. */
  lemma NeverOverdrawn(sites: Sites, c: Cluster, p: Provider, n: Lane)
    requires Running(sites, c, p) && n.channel in sites[p].base
    ensures p in c.hubs
    ensures var h, base := c.hubs[p], sites[p].base;
            && n.channel in h.ledger.channels && h.ledger.applied <= Elements(CommitOrder(h.log))
            && BalanceAt(h.ledger.channels, n) == BalanceAt(base, n) + Net(base, Latest(h.log), h.ledger.applied, n)
            && HeldAt(h.ledger.channels, h.ledger.reservations, n) <= BalanceAt(h.ledger.channels, n)
  {
    HubIsReachable(sites, c, p);
    HubRuns.NeverOverdrawn(sites[p].base, sites[p].maxHops, c.hubs[p], n);
  }

  /** A running hub can settle a transaction it has decided exactly if it settled it already or kept its reservation. */
  lemma DecidedCanSettle(sites: Sites, c: Cluster, p: Provider, t: TxId)
    requires Running(sites, c, p) && p in c.hubs && c.hubs[p].up && t in CommitOrder(c.hubs[p].log)
    ensures Possible(c, sites, Local(p, Settle(t))) <==> Holds(c.hubs[p], t)
  {
    HubIsReachable(sites, c, p);
    HubRuns.DecidedCanSettle(sites[p].base, sites[p].maxHops, c.hubs[p], t);
  }

  /**
   A hub of any run of the protocol that crashes and restarts counts each decided transaction exactly once, and
   holds the journaled terms of every prepared one and nothing else that is journaled.
   */
  lemma ExactlyOnce(sites: Sites, c: Cluster, p: Provider, ids: seq<TxId>)
    requires Running(sites, c, p) && Possible(c, sites, Local(p, Restart(ids)))
    ensures var h, base := c.hubs[p], sites[p].base;
            var l, latest := Stepped(c, sites, Local(p, Restart(ids))).hubs[p].ledger, Latest(h.log);
            && l.applied == Elements(CommitOrder(h.log))
            && (forall n: Lane :: n.channel in base ==>
                  && n.channel in l.channels
                  && BalanceAt(l.channels, n) == BalanceAt(base, n) + Net(base, latest, l.applied, n))
            && (forall t :: t in latest ==>
                  if IsPrepared(latest[t].state) then t in l.reservations && l.reservations[t] == TermsOf(latest[t])
                  else t !in l.reservations)
            && Recovered(l, sites[p].maxHops, latest, ids) == Ok(l)
  {
    HubIsReachable(sites, c, p);
    HubRuns.ExactlyOnce(sites[p].base, sites[p].maxHops, c.hubs[p], ids);
  }

  /** There is an order in which `list()` may return the journal. */
  lemma SomeListing(index: Index) returns (ids: seq<TxId>)
    ensures IsListing(index, ids)
  {
    ids := [];
    var todo := index.Keys;
    while todo != {}
      invariant todo <= index.Keys && Distinct(ids) && Elements(ids) == index.Keys - todo
      invariant forall i :: 0 <= i < |ids| ==> ids[i] in index
      invariant forall i, j :: 0 <= i < j < |ids| ==> KeyBefore(index[ids[i]], index[ids[j]])
      decreases |todo|
    {
      var t :| t in todo;
      todo := todo - {t};
      var at := Place(index, ids, t);
      Journal.InsertKeepsSorted(index, ids, at, t);
      ids := ids[..at] + [t] + ids[at..];
    }
  }

  lemma Place(index: Index, ids: seq<TxId>, t: TxId) returns (at: nat)
    requires t in index && forall i :: 0 <= i < |ids| ==> ids[i] in index
    ensures at <= |ids| && forall i :: 0 <= i < at ==> KeyBefore(index[ids[i]], index[t])
    ensures at < |ids| ==> !KeyBefore(index[ids[at]], index[t])
  {
    at := 0;
    while at < |ids| && KeyBefore(index[ids[at]], index[t])
      invariant at <= |ids| && forall i :: 0 <= i < at ==> KeyBefore(index[ids[i]], index[t])
    {
      at := at + 1;
    }
  }

  /**
   When a hub of a run recovers: if nothing its snapshot holds was released since, none of its prepared payments was
   closed and it lost no reservation, exactly if what it reserves again is within the hop limit.
   */
  lemma RecoversIfHealthy(sites: Sites, c: Cluster, p: Provider)
    requires Running(sites, c, p) && p in c.hubs && |c.hubs[p].log| < U64_MAX
    requires NoneStale(c.hubs[p]) && NoneClosed(Latest(c.hubs[p].log), c.hubs[p].sessions) && NoneLost(c.hubs[p])
    ensures Recovers(sites[p], c.hubs[p]) <==>
            HopsWithinLimit(Latest(c.hubs[p].log), c.hubs[p].saved, sites[p].maxHops)
  {
    var h, site := c.hubs[p], sites[p];
    HubIsReachable(sites, c, p);
    forall ids | IsListing(IndexOf(h.log), ids)
      ensures RecoversBy(site, h, ids) <==> HopsWithinLimit(Latest(h.log), h.saved, site.maxHops)
    {
      RestartSucceeds(site.base, site.maxHops, h, ids);
    }
    var ids := SomeListing(IndexOf(h.log));
  }
}
