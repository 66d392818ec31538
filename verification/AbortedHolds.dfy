/**
 How long the reservation of an aborted transaction stays (src/distributed_tx.rs:1299-1340, 1346-1428): until
 the handler that journaled the abort releases it, and if its append failed although the record landed, until
 the hub restarts.
 */
module AbortedHolds {
  import opened Prelude
  import opened SetSums
  import opened Transactions
  import opened Log
  import opened Ledger
  import opened HubLedger
  import opened Hub
  import opened HubRuns
  import opened Descriptors
  import opened TwoPhaseCommit
  import opened Cluster
  import opened OneHub
  import opened Manager

  /** Hub `h` journaled that `t` is aborted. */
  ghost predicate HasAborted(h: Hub, t: TxId) {
    t in Latest(h.log) && HasAbortDecision(Latest(h.log)[t].state)
  }

  // ----- along a run -----

  lemma AbortedStaysAborted(h: Hub, maxHops: nat, tx: Transaction, t: TxId)
    requires CanAppend(h, maxHops, tx) && HasAborted(h, t)
    ensures HasAborted(Appended(h, tx), t)
  {
    Extended(h.log, tx);
  }

  lemma RestartFreesAborted(base: Channels, maxHops: nat, h: Hub, ids: seq<TxId>, t: TxId)
    requires HubInv(base, maxHops, h) && Enabled(h, maxHops, Restart(ids)) && HasAborted(h, t)
    ensures t !in Next(h, maxHops, Restart(ids)).ledger.reservations
  {
    RestartIsSettled(base, maxHops, h, ids);
  }

  /** The steps of a hub that give back what the aborted `t` holds. */
  predicate Frees(s: Step, t: TxId) { s == Release(t) || s.Restart? }

  lemma AbortedIsNotApplied(base: Channels, maxHops: nat, h: Hub, t: TxId)
    requires HubInv(base, maxHops, h) && HasAborted(h, t)
    ensures t !in h.ledger.applied
  {
    CommitOrderIsDecided(h.log);
  }

  lemma OthersKeepHold(h: Hub, maxHops: nat, s: Step, t: TxId)
    requires Enabled(h, maxHops, s) && !s.Append? && !s.Restart? && HasAborted(h, t) && t !in h.ledger.applied
    ensures t in Next(h, maxHops, s).ledger.reservations <==> t in h.ledger.reservations && s != Release(t)
  {
  }

  lemma AbortedHoldsStep(site: Site, h: Hub, s: Step, t: TxId)
    requires Fine(site, h) && Enabled(h, site.maxHops, s) && !s.Append? && HasAborted(h, t)
    ensures HasAborted(Next(h, site.maxHops, s), t)
    ensures t in Next(h, site.maxHops, s).ledger.reservations <==> t in h.ledger.reservations && !Frees(s, t)
  {
    FineMeans(site, h);
    LocalKeepsLog(h, site.maxHops, s);
    if s.Restart? {
      RestartFreesAborted(site.base, site.maxHops, h, s.order, t);
    } else {
      AbortedIsNotApplied(site.base, site.maxHops, h, t);
      OthersKeepHold(h, site.maxHops, s, t);
    }
  }

  predicate FreesAt(s: ClusterStep, p: Provider, t: TxId) { s.Local? && s.p == p && Frees(s.step, t) }

  lemma AbortedHoldsClusterStep(sites: Sites, c: Cluster, s: ClusterStep, p: Provider, t: TxId)
    requires ClusterInv(c, sites) && Possible(c, sites, s) && p in c.hubs && HasAborted(c.hubs[p], t)
    ensures var c2 := Stepped(c, sites, s);
            && p in c2.hubs && HasAborted(c2.hubs[p], t)
            && (t in c2.hubs[p].ledger.reservations <==> t in c.hubs[p].ledger.reservations && !FreesAt(s, p, t))
  {
    assert p in sites;
    match s
    case Local(q, step) =>
      if q == p {
        AbortedHoldsStep(sites[p], c.hubs[p], step, t);
      }
    case Protocol(m) =>
      var record := Appending(WireOf(c), m);
      if record.Some? && record.value.0 == p {
        AbortedStaysAborted(c.hubs[p], sites[p].maxHops, record.value.1, t);
      }
  }

  /**
   In every continuation of every run, an aborted transaction holds its reservation exactly if it did before
   and its hub neither released it nor restarted since. Nothing the protocol does gives it back.
   */
  lemma {:induction false} AbortedHoldsIff(sites: Sites, c: Cluster, steps: seq<ClusterStep>, p: Provider, t: TxId)
    requires ClusterInv(c, sites) && p in c.hubs && HasAborted(c.hubs[p], t) && Run(c, sites, steps).Some?
    ensures var c2 := Run(c, sites, steps).value;
            && p in c2.hubs && HasAborted(c2.hubs[p], t)
            && (t in c2.hubs[p].ledger.reservations <==>
                  t in c.hubs[p].ledger.reservations && forall i :: 0 <= i < |steps| ==> !FreesAt(steps[i], p, t))
    decreases steps
  {
    if steps != [] {
      AbortedHoldsClusterStep(sites, c, steps[0], p, t);
      ClusterStepKeepsInv(c, sites, steps[0]);
      AbortedHoldsIff(sites, Stepped(c, sites, steps[0]), steps[1..], p, t);
      forall i | 0 <= i < |steps| ensures FreesAt(steps[i], p, t) <==>
          if i == 0 then FreesAt(steps[0], p, t) else FreesAt(steps[1..][i - 1], p, t)
      {
      }
    }
  }

  // ----- in the handler -----

  /**
   An abort of a prepared transaction, delivered twice, the second time with a working disk: acknowledged in
   the end, and its reservation is still held exactly if the first append failed although its record landed.
   */
  method AbortTwice(m: DistributedTxManager, r: Request)
    returns (first: Result<TxState, TxError>, second: Result<TxState, TxError>)
    requires m.Valid() && Verified(m.track, r) && r.phase.AbortPhase? && m.world.writes(m.tick + 1).Durable?
    requires var newest := m.Newest(r.descriptor.txId);
             newest.Some? && Matches(newest.value, r.descriptor) && newest.value.state.ParticipantPrepared?
    requires r.descriptor.txId in m.hub.reservations && r.descriptor.txId !in m.hub.applied
    modifies m, m.hub
    ensures m.Valid() && second == Ok(ParticipantAborted)
    ensures first.Ok? <==> m.world.writes(old(m.tick)).Durable?
    ensures m.Newest(r.descriptor.txId).Some? && m.Newest(r.descriptor.txId).value.state.ParticipantAborted?
    ensures r.descriptor.txId in m.hub.reservations <==> m.world.writes(old(m.tick)).Unsure?
  {
    first := m.HandleAbort(r);
    second := m.HandleAbort(r);
  }
}
