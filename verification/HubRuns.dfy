/** What holds in every run of a hub, and what every restart of it does. */
module HubRuns {
  import opened Prelude
  import opened SetSums
  import opened Transactions
  import opened Log
  import opened Ledger
  import opened HubLedger
  import opened Hub
  import opened Recovery

  /** The hub after `steps`, each enabled in turn; None if one is not. */
  ghost function After(h: Hub, maxHops: nat, steps: seq<Step>): Option<Hub>
    decreases steps
  {
    if steps == [] then Some(h)
    else if Enabled(h, maxHops, steps[0]) then After(Next(h, maxHops, steps[0]), maxHops, steps[1..])
    else None
  }

  ghost predicate Reachable(base: Channels, maxHops: nat, h: Hub) {
    exists steps :: After(Fresh(base), maxHops, steps) == Some(h)
  }

  lemma ListingListsAll(log: Log, ids: seq<TxId>)
    requires ValidLog(log) && |log| < U64_MAX && IsListing(IndexOf(log), ids)
    ensures ListsAll(Latest(log), ids) && DecisionsFirst(CommitOrder(log), ids)
  {
    IndexIsRight(log);
    ListingStartsWithCommitOrder(log, ids);
  }

  lemma AppendStepInv(base: Channels, maxHops: nat, h: Hub, tx: Transaction)
    requires HubInv(base, maxHops, h) && CanAppend(h, maxHops, tx)
    ensures HubInv(base, maxHops, Appended(h, tx))
  {
    Extended(h.log, tx);
    AcceptedFollows(Latest(h.log), tx);
    AppendInv(base, maxHops, Latest(h.log), CommitOrder(h.log), h, h.log + [tx], tx);
  }

  /** Sessions that need fewer reservations. */
  lemma FewerNeeds(base: Channels, latest: Records, order: seq<TxId>, l: Ledger, open: Sessions, fewer: Sessions)
    requires RunningInv(base, latest, order, l, open) && SessionsFit(latest, fewer)
    requires fewer.preparing <= open.preparing && open.closed <= fewer.closed && open.lost <= fewer.lost
    requires forall t :: t in fewer.lost ==> t in l.applied || t !in l.reservations
    ensures RunningInv(base, latest, order, l, fewer)
  {
    forall t | NeedsHold(latest, l.applied, fewer, t) ensures t in l.reservations {
      assert NeedsHold(latest, l.applied, open, t);
    }
  }

  lemma AbandonInv(base: Channels, maxHops: nat, latest: Records, order: seq<TxId>, h: Hub, tx: TxId)
    requires InvOver(base, maxHops, latest, order, h)
    ensures InvOver(base, maxHops, latest, order, h.(sessions := h.sessions.(preparing := h.sessions.preparing - {tx})))
  {
    FewerNeeds(base, latest, order, h.ledger, h.sessions, h.sessions.(preparing := h.sessions.preparing - {tx}));
  }

  lemma CloseInv(base: Channels, maxHops: nat, latest: Records, order: seq<TxId>, h: Hub, tx: TxId)
    requires InvOver(base, maxHops, latest, order, h)
    requires tx in latest && (latest[tx].state.CoordinatorPreparing? || latest[tx].state.CoordinatorPrepared?)
    requires latest[tx].role.Coordinator?
    ensures InvOver(base, maxHops, latest, order,
                    h.(ledger := Released(h.ledger, tx), sessions := h.sessions.(closed := h.sessions.closed + {tx}),
                       kept := h.kept - {tx}))
  {
    var closing := h.sessions.(closed := h.sessions.closed + {tx});
    FewerNeeds(base, latest, order, h.ledger, h.sessions, closing);
    ReleaseInv(base, maxHops, latest, order, h.(sessions := closing), tx);
  }

  lemma LoseInv(base: Channels, maxHops: nat, latest: Records, order: seq<TxId>, h: Hub, tx: TxId)
    requires InvOver(base, maxHops, latest, order, h)
    requires tx in latest && latest[tx].state.ParticipantPrepared? && latest[tx].role.Participant?
    ensures InvOver(base, maxHops, latest, order,
                    h.(ledger := Released(h.ledger, tx), sessions := h.sessions.(lost := h.sessions.lost + {tx}),
                       kept := h.kept - {tx}))
  {
    var l, open := Released(h.ledger, tx), h.sessions.(lost := h.sessions.lost + {tx});
    ReleaseKeepsInv(base, latest, h.ledger, tx);
    assert tx !in order && tx !in h.ledger.applied;
    forall t | NeedsHold(latest, l.applied, open, t) ensures t in l.reservations {
      assert NeedsHold(latest, h.ledger.applied, h.sessions, t);
    }
    assert NoneLostOf(order, open) ==> NoneLostOf(order, h.sessions);
    LoseKeepsRoom(h, l, open, tx);
  }

  lemma LoseKeepsRoom(h: Hub, l: Ledger, open: Sessions, tx: TxId)
    requires h.kept <= h.saved.reservations.Keys
    ensures NoneStale(h.(ledger := l, sessions := open, kept := h.kept - {tx})) ==> NoneStale(h)
  {
  }

  lemma LoseStepInv(base: Channels, maxHops: nat, h: Hub, tx: TxId)
    requires HubInv(base, maxHops, h) && Enabled(h, maxHops, ReleaseUnacknowledged(tx))
    ensures HubInv(base, maxHops, Next(h, maxHops, ReleaseUnacknowledged(tx)))
  {
    RolesMatch(h.log);
    LoseInv(base, maxHops, Latest(h.log), CommitOrder(h.log), h, tx);
  }

  lemma CloseStepInv(base: Channels, maxHops: nat, h: Hub, tx: TxId)
    requires HubInv(base, maxHops, h) && Enabled(h, maxHops, Close(tx))
    ensures HubInv(base, maxHops, Next(h, maxHops, Close(tx)))
  {
    RolesMatch(h.log);
    CloseInv(base, maxHops, Latest(h.log), CommitOrder(h.log), h, tx);
  }

  lemma RestartStepInv(base: Channels, maxHops: nat, h: Hub, ids: seq<TxId>)
    requires HubInv(base, maxHops, h) && Enabled(h, maxHops, Restart(ids))
    ensures HubInv(base, maxHops, Next(h, maxHops, Restart(ids)))
  {
    ListingListsAll(h.log, ids);
    RestartInv(base, maxHops, Latest(h.log), CommitOrder(h.log), h, ids);
  }

  lemma ReserveStepInv(base: Channels, maxHops: nat, h: Hub, tx: TxId, terms: Terms)
    requires HubInv(base, maxHops, h) && Enabled(h, maxHops, Reserve(tx, terms))
    ensures HubInv(base, maxHops, Next(h, maxHops, Reserve(tx, terms)))
  {
    ReserveInv(base, maxHops, Latest(h.log), CommitOrder(h.log), h, tx, terms);
  }

  lemma SettleStepInv(base: Channels, maxHops: nat, h: Hub, tx: TxId)
    requires HubInv(base, maxHops, h) && Enabled(h, maxHops, Settle(tx))
    ensures HubInv(base, maxHops, Next(h, maxHops, Settle(tx)))
  {
    CommitOrderIsDecided(h.log);
    SettleInv(base, maxHops, Latest(h.log), CommitOrder(h.log), h, tx);
  }

  lemma NotNeeded(latest: Records, applied: set<TxId>, open: Sessions, tx: TxId)
    requires tx !in latest || HasAbortDecision(latest[tx].state)
                 || (latest[tx].state.CoordinatorPreparing? && tx !in open.preparing)
    requires SessionsFit(latest, open)
    ensures !NeedsHold(latest, applied, open, tx)
  {
  }

  lemma ReleaseStepInv(base: Channels, maxHops: nat, h: Hub, tx: TxId)
    requires HubInv(base, maxHops, h) && Enabled(h, maxHops, Release(tx))
    ensures HubInv(base, maxHops, Next(h, maxHops, Release(tx)))
  {
    NotNeeded(Latest(h.log), h.ledger.applied, h.sessions, tx);
    ReleaseInv(base, maxHops, Latest(h.log), CommitOrder(h.log), h, tx);
  }

  lemma AbandonStepInv(base: Channels, maxHops: nat, h: Hub, tx: TxId)
    requires HubInv(base, maxHops, h) && h.up
    ensures HubInv(base, maxHops, Next(h, maxHops, Abandon(tx)))
  {
    AbandonInv(base, maxHops, Latest(h.log), CommitOrder(h.log), h, tx);
  }

  lemma SaveStepInv(base: Channels, maxHops: nat, h: Hub, keep: set<TxId>)
    requires HubInv(base, maxHops, h) && Enabled(h, maxHops, Save(keep))
    ensures HubInv(base, maxHops, Next(h, maxHops, Save(keep)))
  {
    SaveInv(base, maxHops, Latest(h.log), CommitOrder(h.log), h, keep);
  }

  lemma StepKeepsInv(base: Channels, maxHops: nat, h: Hub, s: Step)
    requires HubInv(base, maxHops, h) && Enabled(h, maxHops, s)
    ensures HubInv(base, maxHops, Next(h, maxHops, s))
  {
    match s
    case Reserve(tx, terms) => ReserveStepInv(base, maxHops, h, tx, terms);
    case Append(record) => AppendStepInv(base, maxHops, h, record);
    case Settle(tx) => SettleStepInv(base, maxHops, h, tx);
    case Release(tx) => ReleaseStepInv(base, maxHops, h, tx);
    case Abandon(tx) => AbandonStepInv(base, maxHops, h, tx);
    case Close(tx) => CloseStepInv(base, maxHops, h, tx);
    case ReleaseUnacknowledged(tx) => LoseStepInv(base, maxHops, h, tx);
    case Crash =>
    case Save(keep) => SaveStepInv(base, maxHops, h, keep);
    case Restart(ids) => RestartStepInv(base, maxHops, h, ids);
  }

  lemma {:induction false} RunKeepsInv(base: Channels, maxHops: nat, h: Hub, steps: seq<Step>)
    requires HubInv(base, maxHops, h) && After(h, maxHops, steps).Some?
    ensures HubInv(base, maxHops, After(h, maxHops, steps).value)
    decreases steps
  {
    if steps != [] {
      StepKeepsInv(base, maxHops, h, steps[0]);
      RunKeepsInv(base, maxHops, Next(h, maxHops, steps[0]), steps[1..]);
    }
  }

  lemma {:induction false} AfterOneMore(h: Hub, maxHops: nat, steps: seq<Step>, s: Step)
    requires After(h, maxHops, steps).Some? && Enabled(After(h, maxHops, steps).value, maxHops, s)
    ensures After(h, maxHops, steps + [s]) == Some(Next(After(h, maxHops, steps).value, maxHops, s))
    decreases steps
  {
    if steps == [] {
      assert steps + [s] == [s];
      assert [s][1..] == [];
    } else {
      AfterOneMore(Next(h, maxHops, steps[0]), maxHops, steps[1..], s);
      assert (steps + [s])[1..] == steps[1..] + [s];
    }
  }

  lemma FreshIsReachable(base: Channels, maxHops: nat)
    ensures Reachable(base, maxHops, Fresh(base))
  {
    assert After(Fresh(base), maxHops, []) == Some(Fresh(base));
  }

  lemma OneMoreStep(base: Channels, maxHops: nat, h: Hub, s: Step)
    requires Reachable(base, maxHops, h) && Enabled(h, maxHops, s)
    ensures Reachable(base, maxHops, Next(h, maxHops, s))
  {
    var steps :| After(Fresh(base), maxHops, steps) == Some(h);
    AfterOneMore(Fresh(base), maxHops, steps, s);
  }

  lemma ReachableInv(base: Channels, maxHops: nat, h: Hub)
    requires Registration(base) && Reachable(base, maxHops, h)
    ensures HubInv(base, maxHops, h)
  {
    var steps :| After(Fresh(base), maxHops, steps) == Some(h);
    FreshInv(base, maxHops);
    RunKeepsInv(base, maxHops, Fresh(base), steps);
  }

  // ----- main results -----

  /** Money moves only for durable commit decisions, and no side is ever promised more than it has. */
  lemma NeverOverdrawn(base: Channels, maxHops: nat, h: Hub, n: Lane)
    requires Registration(base) && Reachable(base, maxHops, h) && n.channel in base
    ensures n.channel in h.ledger.channels && h.ledger.applied <= Elements(CommitOrder(h.log))
    ensures BalanceAt(h.ledger.channels, n) == BalanceAt(base, n) + Net(base, Latest(h.log), h.ledger.applied, n)
    ensures HeldAt(h.ledger.channels, h.ledger.reservations, n) <= BalanceAt(h.ledger.channels, n)
  {
    ReachableInv(base, maxHops, h);
  }

  lemma DecidedIsSettleable(base: Channels, maxHops: nat, h: Hub, t: TxId)
    requires HubInv(base, maxHops, h) && t in CommitOrder(h.log)
    ensures t in Latest(h.log)
    ensures Applied(h.ledger, t, TermsOf(Latest(h.log)[t])).Ok? <==> t in h.ledger.applied || t !in h.sessions.lost
  {
    var latest := Latest(h.log);
    if t !in h.ledger.applied && t !in h.sessions.lost {
      DecidedAreReserved(base, latest, CommitOrder(h.log), h.ledger, h.sessions);
      ReservedAlwaysSettles(base, latest, h.ledger, t, TermsOf(latest[t]));
    }
  }

  /** A running hub can settle a durable commit decision right away, exactly if it did not lose the reservation. */
  lemma DecidedCanSettle(base: Channels, maxHops: nat, h: Hub, t: TxId)
    requires Registration(base) && Reachable(base, maxHops, h) && t in CommitOrder(h.log) && h.up
    ensures Enabled(h, maxHops, Settle(t)) <==> t in h.ledger.applied || t !in h.sessions.lost
  {
    ReachableInv(base, maxHops, h);
    DecidedInLatest(h, t);
    DecidedIsSettleable(base, maxHops, h, t);
  }

  lemma DecidedInLatest(h: Hub, t: TxId)
    requires ValidLog(h.log) && t in CommitOrder(h.log)
    ensures t in Latest(h.log) && HasCommitDecision(Latest(h.log)[t].state)
  {
    CommitOrderIsDecided(h.log);
  }

  /**
   Crash anywhere, load the last snapshot, replay: balances are the registered ones plus each decided
   transaction exactly once, every prepared transaction holds its journaled terms again, nothing that
   was aborted or presumed aborted holds anything, and replaying once more changes nothing.
   */
  lemma ExactlyOnce(base: Channels, maxHops: nat, h: Hub, ids: seq<TxId>)
    requires Registration(base) && Reachable(base, maxHops, h) && Enabled(h, maxHops, Restart(ids))
    ensures var l, latest := Next(h, maxHops, Restart(ids)).ledger, Latest(h.log);
            && l.applied == Elements(CommitOrder(h.log))
            && (forall n: Lane :: n.channel in base ==>
                  && n.channel in l.channels
                  && BalanceAt(l.channels, n) == BalanceAt(base, n)
                     + Net(base, latest, Elements(CommitOrder(h.log)), n))
            && (forall t :: t in latest ==>
                  if IsPrepared(latest[t].state) then t in l.reservations && l.reservations[t] == TermsOf(latest[t])
                  else t !in l.reservations)
            && Recovered(l, maxHops, latest, ids) == Ok(l)
  {
    ReachableInv(base, maxHops, h);
    var latest, order := Latest(h.log), CommitOrder(h.log);
    ListingListsAll(h.log, ids);
    SnapshotIsSaved(base, latest, order, h.saved, h.savedAt, h.pledges, h.sessions.lost);
    RestartSettles(base, maxHops, latest, order, h.saved, ids);
    ReplayWhole(base, maxHops, latest, order, h.saved, ids);
    AppliedIsDecided(latest, order, h.saved);
    RestartIsSettled(base, maxHops, h, ids);
  }

  /** After a restart the prepared transactions, and no others that are journaled, hold their journaled terms. */
  lemma RestartIsSettled(base: Channels, maxHops: nat, h: Hub, ids: seq<TxId>)
    requires HubInv(base, maxHops, h) && Enabled(h, maxHops, Restart(ids))
    ensures var l, latest := Next(h, maxHops, Restart(ids)).ledger, Latest(h.log);
            forall t :: t in latest ==>
              if IsPrepared(latest[t].state) then t in l.reservations && l.reservations[t] == TermsOf(latest[t])
              else t !in l.reservations
  {
    var l, latest := Next(h, maxHops, Restart(ids)).ledger, Latest(h.log);
    ListingListsAll(h.log, ids);
    SnapshotIsSaved(base, latest, CommitOrder(h.log), h.saved, h.savedAt, h.pledges, h.sessions.lost);
    RestartSettles(base, maxHops, latest, CommitOrder(h.log), h.saved, ids);
    forall t | t in latest
      ensures if IsPrepared(latest[t].state) then t in l.reservations && l.reservations[t] == TermsOf(latest[t])
              else t !in l.reservations
    {
      assert Settled(maxHops, latest, l, t);
    }
  }

  /** Exactly when a restart from any reachable state succeeds, in terms of snapshot and journal. */
  lemma RestartSucceedsIff(base: Channels, maxHops: nat, h: Hub, ids: seq<TxId>)
    requires Registration(base) && Reachable(base, maxHops, h)
    requires |h.log| < U64_MAX && IsListing(IndexOf(h.log), ids)
    ensures Recovered(h.saved, maxHops, Latest(h.log), ids).Ok? <==>
            Guards(base, Latest(h.log), CommitOrder(h.log), maxHops, h.saved, {}, ids)
  {
    ReachableInv(base, maxHops, h);
    ListingListsAll(h.log, ids);
    SnapshotIsSaved(base, Latest(h.log), CommitOrder(h.log), h.saved, h.savedAt, h.pledges, h.sessions.lost);
    ReplayWhole(base, maxHops, Latest(h.log), CommitOrder(h.log), h.saved, ids);
  }

  /**
   Replay order is safe: if no reservation stored in the snapshot was released since, no prepared payment
   timed out or was failed, and no participant lost a reservation, a restart succeeds exactly if what it
   reserves again is within the hop limit.
   */
  lemma RestartSucceeds(base: Channels, maxHops: nat, h: Hub, ids: seq<TxId>)
    requires Registration(base) && Reachable(base, maxHops, h)
    requires NoneStale(h) && NoneClosed(Latest(h.log), h.sessions) && NoneLost(h)
    requires |h.log| < U64_MAX && IsListing(IndexOf(h.log), ids)
    ensures Recovered(h.saved, maxHops, Latest(h.log), ids).Ok? <==> HopsWithinLimit(Latest(h.log), h.saved, maxHops)
  {
    ReachableInv(base, maxHops, h);
    var latest, order := Latest(h.log), CommitOrder(h.log);
    RestartSucceedsIff(base, maxHops, h, ids);
    ListingListsAll(h.log, ids);
    if HopsWithinLimit(latest, h.saved, maxHops) {
      NoneStaleGuards(base, maxHops, latest, order, h, ids);
    } else {
      var t :| RereservedOnReplay(latest, h.saved, t) && |latest[t].localHops| > maxHops;
      assert t in Elements(ids);
      if Guards(base, latest, order, maxHops, h.saved, {}, ids) {
        GuardsLimitHops(base, latest, order, maxHops, h.saved, {}, ids, t);
      }
    }
  }
}
