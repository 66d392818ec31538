/**
 Four runs of the protocol that end in a crashed hub which cannot restart, each for a reason of its own, so
 that none of the four conditions of a restart can be dropped; and one where a running hub cannot settle.
 */
module RestartFailures {
  import opened Prelude
  import opened SetSums
  import opened Transactions
  import opened Log
  import opened Ledger
  import opened HubLedger
  import opened Hub
  import opened Recovery
  import opened HubRuns
  import opened Descriptors
  import opened TwoPhaseCommit
  import opened Cluster
  import opened Completion
  import opened CommitDelivery
  import Agreement
  import opened AbortDelivery
  import opened SampleRuns

  const X: TxId := Uuid(0)
  const Y: TxId := Uuid(1)

  /** Everything RestartSucceeds asks for, as four separate facts about a hub. */
  datatype Health = Health(noneStale: bool, noneClosed: bool, noneLost: bool, hopsWithinLimit: bool)

  ghost function HealthOf(site: Site, h: Hub): Health {
    Health(NoneStale(h), NoneClosed(Latest(h.log), h.sessions), NoneLost(h),
           HopsWithinLimit(Latest(h.log), h.saved, site.maxHops))
  }

  /** Hub `p` of a cluster some run reaches is down for good. */
  ghost predicate CannotRestart(c: Cluster, sites: Sites, p: Provider) {
    Occurs(sites, c) && p in c.hubs && p in sites && !c.hubs[p].up && !Recovers(sites[p], c.hubs[p])
  }

  // ----- why a restart fails -----

  lemma HeldByTwo(reservations: map<TxId, Terms>, x: TxId, y: TxId, channel: ChannelId, from: Address, a: Asset)
    requires x != y && x in reservations && y in reservations
    ensures Held(reservations, channel, from, a) >= Due(reservations[x], channel, from, a)
            + Due(reservations[y], channel, from, a)
  {
    var less := reservations - {x};
    HeldRemove(reservations, x, channel, from, a);
    HeldRemove(less, y, channel, from, a);
    HeldMonotone(map[], less - {y}, channel, from, a);
    NothingHeld(channel, from, a);
  }

  lemma NothingDecided(log: Log)
    requires ValidLog(log) && forall t :: t in Latest(log) ==> !HasCommitDecision(Latest(log)[t].state)
    ensures CommitOrder(log) == []
  {
    CommitOrderIsDecided(log);
    if CommitOrder(log) != [] {
      assert CommitOrder(log)[0] in CommitOrder(log);
    }
  }

  /** A lane on which both terms are held. */
  lemma CoversBoth(base: Channels, latest: Records, l: Ledger, x: TxId, y: TxId, n: Lane)
    requires LedgerInv(base, latest, l) && l.applied == {} && n.channel in base && x != y
    requires x in l.reservations && y in l.reservations
    ensures var from := SenderAt(base, n);
            Due(l.reservations[x], n.channel, from, n.asset) + Due(l.reservations[y], n.channel, from, n.asset)
                <= BalanceAt(base, n)
  {
    HeldByTwo(l.reservations, x, y, n.channel, SenderAt(base, n), n.asset);
    assert Net(base, latest, {}, n) == 0;
    assert HeldAt(l.channels, l.reservations, n) <= BalanceAt(l.channels, n);
  }

  lemma RestartedHolds(base: Channels, maxHops: nat, h: Hub, t: TxId)
    requires HubInv(base, maxHops, h) && h.sessions.preparing == h.sessions.closed == {} && t !in h.sessions.lost
    requires t in Latest(h.log) && IsPrepared(Latest(h.log)[t].state)
    ensures t in h.ledger.reservations && h.ledger.reservations[t] == TermsOf(Latest(h.log)[t])
  {
    assert NeedsHold(Latest(h.log), h.ledger.applied, h.sessions, t);
  }

  /** What a restarted hub would hold on one lane. */
  lemma HoldsBoth(site: Site, h: Hub, ids: seq<TxId>, x: TxId, y: TxId, n: Lane)
    requires Fine(site, h) && Enabled(h, site.maxHops, Restart(ids)) && x != y && n.channel in site.base
    requires forall t :: t in Latest(h.log) ==> !HasCommitDecision(Latest(h.log)[t].state)
    requires x in Latest(h.log) && IsPrepared(Latest(h.log)[x].state) && y in Latest(h.log)
    requires IsPrepared(Latest(h.log)[y].state)
    ensures var from := SenderAt(site.base, n);
            Due(TermsOf(Latest(h.log)[x]), n.channel, from, n.asset)
                + Due(TermsOf(Latest(h.log)[y]), n.channel, from, n.asset)
            <= BalanceAt(site.base, n)
  {
    FineMeans(site, h);
    var h2 := Next(h, site.maxHops, Restart(ids));
    StepKeepsInv(site.base, site.maxHops, h, Restart(ids));
    RestartedHolds(site.base, site.maxHops, h2, x);
    RestartedHolds(site.base, site.maxHops, h2, y);
    NothingDecided(h.log);
    NothingApplied(site.base, site.maxHops, h2);
    CoversBoth(site.base, Latest(h.log), h2.ledger, x, y, n);
  }

  lemma NothingApplied(base: Channels, maxHops: nat, h: Hub)
    requires HubInv(base, maxHops, h) && CommitOrder(h.log) == []
    ensures h.ledger.applied == {} && LedgerInv(base, Latest(h.log), h.ledger)
  {
  }

  /** Two prepared transactions that together need more of a lane than was registered there. */
  lemma TwoHoldsTooMany(site: Site, h: Hub, x: TxId, y: TxId, n: Lane)
    requires Fine(site, h) && !h.up && x != y && n.channel in site.base
    requires forall t :: t in Latest(h.log) ==> !HasCommitDecision(Latest(h.log)[t].state)
    requires x in Latest(h.log) && IsPrepared(Latest(h.log)[x].state) && y in Latest(h.log)
    requires IsPrepared(Latest(h.log)[y].state)
    requires var from := SenderAt(site.base, n);
             Due(TermsOf(Latest(h.log)[x]), n.channel, from, n.asset)
                 + Due(TermsOf(Latest(h.log)[y]), n.channel, from, n.asset)
             > BalanceAt(site.base, n)
    ensures !Recovers(site, h)
  {
    if Recovers(site, h) {
      var ids :| RecoversBy(site, h, ids);
      HoldsBoth(site, h, ids, x, y, n);
    }
  }

  lemma ReplayedIsShort(site: Site, h: Hub, ids: seq<TxId>, t: TxId)
    requires Fine(site, h) && |h.log| < U64_MAX && RecoversBy(site, h, ids) && t in Latest(h.log)
    requires IsPrepared(Latest(h.log)[t].state)
    ensures |Latest(h.log)[t].localHops| <= site.maxHops
  {
    FineMeans(site, h);
    var latest, order := Latest(h.log), CommitOrder(h.log);
    ListingListsAll(h.log, ids);
    SnapshotIsSaved(site.base, latest, order, h.saved, h.savedAt, h.pledges, h.sessions.lost);
    RestartSettles(site.base, site.maxHops, latest, order, h.saved, ids);
    assert Settled(site.maxHops, latest, Recovered(h.saved, site.maxHops, latest, ids).value, t);
  }

  /** A prepared transaction over more hops than the limit. */
  lemma TooLongToReplay(site: Site, h: Hub, t: TxId)
    requires Fine(site, h) && t in Latest(h.log) && IsPrepared(Latest(h.log)[t].state)
    requires |Latest(h.log)[t].localHops| > site.maxHops
    ensures !Recovers(site, h)
  {
    if Recovers(site, h) {
      var ids :| RecoversBy(site, h, ids);
      ReplayedIsShort(site, h, ids, t);
    }
  }

  lemma OnlyDecided(log: Log, y: TxId)
    requires ValidLog(log) && y in Latest(log) && HasCommitDecision(Latest(log)[y].state)
    requires forall t :: t in Latest(log) && t != y ==> !HasCommitDecision(Latest(log)[t].state)
    ensures CommitOrder(log) == [y]
  {
    CommitOrderIsDecided(log);
    var order := CommitOrder(log);
    assert y in order;
    forall i | 0 <= i < |order| ensures order[i] == y {
      assert order[i] in order;
    }
    AllAlike(order, y);
  }

  lemma AllAlike(s: seq<TxId>, y: TxId)
    requires Distinct(s) && y in s && forall i :: 0 <= i < |s| ==> s[i] == y
    ensures s == [y]
  {
    assert Elements(s) == {y};
    DistinctCount(s);
  }

  /**
   The only decided transaction, which is replayed first, finds its lane taken by what the snapshot holds for
   another.
   */
  lemma TakenBySnapshot(site: Site, h: Hub, x: TxId, y: TxId, n: Lane)
    requires Fine(site, h) && n.channel in site.base && x != y
    requires y in Latest(h.log) && HasCommitDecision(Latest(h.log)[y].state)
    requires forall t :: t in Latest(h.log) && t != y ==> !HasCommitDecision(Latest(h.log)[t].state)
    requires h.saved.applied == {} && x in h.saved.reservations && y !in h.saved.reservations
    requires Debit(site.base, TermsOf(Latest(h.log)[y]), n) + Debit(site.base, h.saved.reservations[x], n)
             > BalanceAt(site.base, n)
    ensures !Recovers(site, h)
  {
    if Recovers(site, h) {
      var ids :| RecoversBy(site, h, ids);
      FirstHasRoom(site, h, ids, x, y, n);
    }
  }

  lemma FirstHasRoom(site: Site, h: Hub, ids: seq<TxId>, x: TxId, y: TxId, n: Lane)
    requires Fine(site, h) && |h.log| < U64_MAX && RecoversBy(site, h, ids) && n.channel in site.base && x != y
    requires y in Latest(h.log) && HasCommitDecision(Latest(h.log)[y].state)
    requires forall t :: t in Latest(h.log) && t != y ==> !HasCommitDecision(Latest(h.log)[t].state)
    requires h.saved.applied == {} && x in h.saved.reservations && y !in h.saved.reservations
    ensures Debit(site.base, TermsOf(Latest(h.log)[y]), n) + Debit(site.base, h.saved.reservations[x], n)
            <= BalanceAt(site.base, n)
  {
    FineMeans(site, h);
    OnlyDecided(h.log, y);
    var latest := Latest(h.log);
    ListingListsAll(h.log, ids);
    SnapshotIsSaved(site.base, latest, [y], h.saved, h.savedAt, h.pledges, h.sessions.lost);
    ReplayWhole(site.base, site.maxHops, latest, [y], h.saved, ids);
    GuardedFirst(site, latest, h.saved, ids, x, y, n);
  }

  lemma GuardedFirst(site: Site, latest: Records, saved: Ledger, ids: seq<TxId>, x: TxId, y: TxId, n: Lane)
    requires n.channel in site.base && x != y && y in latest && HasCommitDecision(latest[y].state)
    requires saved.applied == {} && x in saved.reservations && y !in saved.reservations && DecisionsFirst([y], ids)
    requires Guards(site.base, latest, [y], site.maxHops, saved, {}, ids)
    ensures Debit(site.base, TermsOf(latest[y]), n) + Debit(site.base, saved.reservations[x], n)
            <= BalanceAt(site.base, n)
  {
    assert ids[0] == y by {
      assert ids[..1][0] == ids[0];
    }
    assert HeldAfter(saved.reservations, latest, {}) == saved.reservations;
    assert saved.applied + {} * Elements([y]) == {};
    assert Net(site.base, latest, {}, n) == 0;
    var from := SenderAt(site.base, n);
    HeldRemove(saved.reservations, x, n.channel, from, n.asset);
    HeldMonotone(map[], saved.reservations - {x}, n.channel, from, n.asset);
    NothingHeld(n.channel, from, n.asset);
    assert Guard(site.base, latest, [y], site.maxHops, saved, {}, y);
    assert HasRoom(site.base, latest, {}, saved.reservations, TermsOf(latest[y]));
  }

  // ----- the lanes of the sample -----

  const LANE_P: Lane := Lane(C1(), Left, Hac)
  const LANE_Q: Lane := Lane(C3(), Left, Hac)

  lemma LaneOfP(t: TxId)
    ensures LANE_P.channel in BaseP() && SenderAt(BaseP(), LANE_P) == "a" && BalanceAt(BaseP(), LANE_P) == 10
    ensures Due(TermsP(t), C1(), "a", Hac) == 10 && Debit(BaseP(), TermsP(t), LANE_P) == 10
  {
    IdsDiffer();
    assert HopsP()[0].channelId == C1() && HopsP()[0].fromAddress == "a";
  }

  lemma LaneOfQ(t: TxId)
    ensures LANE_Q.channel in BaseQ(10) && SenderAt(BaseQ(10), LANE_Q) == "c" && BalanceAt(BaseQ(10), LANE_Q) == 10
    ensures Due(TermsQ(t), C3(), "c", Hac) == 10
  {
    assert HopsQ()[0].channelId == C3() && HopsQ()[0].fromAddress == "c";
  }

  lemma FineHub(c: Cluster, maxHops: nat, balance: nat, p: Provider)
    requires Reached(c, Hubs(maxHops, balance)) && p in c.hubs && balance <= 20
    ensures p in Hubs(maxHops, balance) && Fine(Hubs(maxHops, balance)[p], c.hubs[p])
  {
    Registrations(maxHops, balance);
    OccursInv(Hubs(maxHops, balance), c);
  }

  lemma TermsOfRecords(t: TxId, state: TxState, prepared: bool, signed: bool)
    ensures TermsOf(Rec(t, state, prepared, signed)) == TermsP(t)
    ensures Rec(t, state, prepared, signed).localHops == HopsP()
    ensures TermsOf(Part(t)) == TermsQ(t) && Part(t).localHops == HopsQ() && Part(t).state == ParticipantPrepared
  {
  }

  // ----- a snapshot that holds what was released since -----

  /** X is created and saved, then aborted. */
  lemma SavedRun(maxHops: nat) returns (c: Cluster)
    ensures Reached(c, Hubs(maxHops, 10)) && c.hubs[P].up && c.hubs[Q] == Fresh(BaseQ(10))
    ensures c.hubs[P].saved == Ledger(BaseP(), map[X := TermsP(X)], {}) && c.hubs[P].kept == {}
    ensures c.hubs[P].ledger == Ledger(BaseP(), map[], {})
    ensures c.hubs[P].sessions.closed == {} && c.hubs[P].sessions.lost == {}
    ensures Latest(c.hubs[P].log) == map[][X := Rec(X, CoordinatorAbortDecided, false, false)]
  {
    var c0 := Start(maxHops, 10);
    var c1 := Reserves(c0, maxHops, 10, X);
    var c2 := LocalStep(c1, Hubs(maxHops, 10), P, Save({X}));
    assert Keep(map[X := TermsP(X)], {X}) == map[X := TermsP(X)];
    var c3 := OffersReserved(c2, maxHops, 10, X);
    c := Aborts(c3, maxHops, 10, X);
    Overwritten(map[], X, Rec(X, CoordinatorPreparing, false, false), Rec(X, CoordinatorAbortDecided, false, false));
  }

  /** Y takes its place and is decided. */
  lemma StaleRun(maxHops: nat) returns (c: Cluster)
    ensures Reached(c, Hubs(maxHops, 10)) && !c.hubs[P].up && c.hubs[P].kept == {}
    ensures c.hubs[P].saved == Ledger(BaseP(), map[X := TermsP(X)], {})
    ensures c.hubs[P].sessions.closed == {} && c.hubs[P].sessions.lost == {}
    ensures Latest(c.hubs[P].log) ==
            map[][X := Rec(X, CoordinatorAbortDecided, false, false)][Y := Rec(Y, CoordinatorCommitDecided, true, true)]
  {
    var c4 := SavedRun(maxHops);
    EmptyHasRoom(10);
    var c5 := Prepares(c4, maxHops, 10, Y);
    var c6 := DecidesToCommit(c5, maxHops, 10, Y);
    c := Crashes(c6, maxHops, 10, P);
    Overwritten(Latest(c4.hubs[P].log), Y, Rec(Y, CoordinatorPrepared, true, false),
                Rec(Y, CoordinatorCommitDecided, true, true));
  }

  /**
   A reservation that was saved and then released blocks the restart: the decided Y is replayed while the
   stale hold of X still takes the whole balance. The commit that P decided can then never complete.
   */
  lemma StaleHoldBlocksRestart(maxHops: nat) returns (c: Cluster)
    requires maxHops >= 2
    ensures CannotRestart(c, Hubs(maxHops, 10), P)
    ensures HealthOf(Hubs(maxHops, 10)[P], c.hubs[P]) == Health(false, true, true, true)
    ensures !Completes(c, Hubs(maxHops, 10), CommitPhase, P, Y)
  {
    c := StaleRun(maxHops);
    StaleIsDown(c, maxHops);
    TermsOfRecords(Y, CoordinatorCommitDecided, true, true);
    assert c.hubs[P].saved.reservations.Keys == {X};
    DecisionIsBlocked(c, maxHops);
  }

  lemma DecisionIsBlocked(c: Cluster, maxHops: nat)
    requires Reached(c, Hubs(maxHops, 10)) && !c.hubs[P].up && !Recovers(Hubs(maxHops, 10)[P], c.hubs[P])
    requires Lookup(Latest(c.hubs[P].log), Y) == Some(Rec(Y, CoordinatorCommitDecided, true, true))
    ensures !Completes(c, Hubs(maxHops, 10), CommitPhase, P, Y)
  {
    Registrations(maxHops, 10);
    OccursInv(Hubs(maxHops, 10), c);
    RecordsOf(c, P, Y);
    DownBlocks(Hubs(maxHops, 10), c, CommitPhase, P, Rec(Y, CoordinatorCommitDecided, true, true), P);
  }

  lemma StaleIsDown(c: Cluster, maxHops: nat)
    requires Reached(c, Hubs(maxHops, 10)) && c.hubs[P].saved == Ledger(BaseP(), map[X := TermsP(X)], {})
    requires Latest(c.hubs[P].log) ==
             map[][X := Rec(X, CoordinatorAbortDecided, false, false)]
                  [Y := Rec(Y, CoordinatorCommitDecided, true, true)]
    ensures !Recovers(Hubs(maxHops, 10)[P], c.hubs[P])
  {
    LaneOfP(X);
    LaneOfP(Y);
    TermsOfRecords(X, CoordinatorAbortDecided, false, false);
    TermsOfRecords(Y, CoordinatorCommitDecided, true, true);
    FineHub(c, maxHops, 10, P);
    TakenBySnapshot(Hubs(maxHops, 10)[P], c.hubs[P], X, Y, LANE_P);
  }

  // ----- a payment over too many hops -----

  /** A prepared payment over more local hops than the limit can never be replayed. */
  lemma LongRouteBlocksRestart() returns (c: Cluster)
    ensures CannotRestart(c, Hubs(1, 10), P)
    ensures HealthOf(Hubs(1, 10)[P], c.hubs[P]) == Health(true, true, true, false)
  {
    var c0 := Start(1, 10);
    EmptyHasRoom(10);
    var c1 := Prepares(c0, 1, 10, X);
    c := Crashes(c1, 1, 10, P);
    TermsOfRecords(X, CoordinatorPrepared, true, false);
    assert RereservedOnReplay(Latest(c.hubs[P].log), c.hubs[P].saved, X);
    FineHub(c, 1, 10, P);
    TooLongToReplay(Hubs(1, 10)[P], c.hubs[P], X);
  }

  // ----- a payment closed after it was prepared -----

  lemma ClosedFirst(maxHops: nat) returns (c: Cluster)
    ensures Reached(c, Hubs(maxHops, 20)) && c.hubs[P].up && c.hubs[Q].up
    ensures c.hubs[P].kept == {} && c.hubs[P].saved == c.hubs[P].ledger == Ledger(BaseP(), map[], {})
    ensures c.hubs[P].sessions.closed == {X} && c.hubs[P].sessions.lost == {}
    ensures c.hubs[Q].ledger == Ledger(BaseQ(20), map[X := TermsQ(X)], {})
    ensures Latest(c.hubs[P].log) == map[][X := Rec(X, CoordinatorPrepared, true, false)]
    ensures Latest(c.hubs[Q].log) == map[][X := Part(X)]
  {
    var c0 := Start(maxHops, 20);
    EmptyHasRoom(20);
    var c1 := Prepares(c0, maxHops, 20, X);
    c := LocalStep(c1, Hubs(maxHops, 20), P, Close(X));
    assert map[X := TermsP(X)] - {X} == map[];
    assert map[][X := TermsQ(X)] == map[X := TermsQ(X)];
  }

  lemma ClosedRun(maxHops: nat) returns (c: Cluster)
    ensures Reached(c, Hubs(maxHops, 20)) && !c.hubs[P].up && c.hubs[P].kept == {}
    ensures c.hubs[P].saved == Ledger(BaseP(), map[], {})
    ensures c.hubs[P].sessions.closed == {X} && c.hubs[P].sessions.lost == {}
    ensures Latest(c.hubs[P].log) ==
            map[][X := Rec(X, CoordinatorPrepared, true, false)][Y := Rec(Y, CoordinatorPrepared, true, false)]
  {
    var c2 := ClosedFirst(maxHops);
    HeldByOne(X);
    var c3 := Prepares(c2, maxHops, 20, Y);
    c := Crashes(c3, maxHops, 20, P);
  }

  /**
   The reservation of the journaled CoordinatorPrepared X is released, by the payment TTL or, if the append of
   that record failed and landed, by the caller of `prepare_origin`. Y takes the liquidity, and `recover_local`,
   which must reserve both, fails.
   */
  lemma ClosedPaymentBlocksRestart(maxHops: nat) returns (c: Cluster)
    requires maxHops >= 2
    ensures CannotRestart(c, Hubs(maxHops, 20), P)
    ensures HealthOf(Hubs(maxHops, 20)[P], c.hubs[P]) == Health(true, false, true, true)
  {
    c := ClosedRun(maxHops);
    TermsOfRecords(X, CoordinatorPrepared, true, false);
    TermsOfRecords(Y, CoordinatorPrepared, true, false);
    TwoPreparedAtP(c, maxHops);
  }

  lemma TwoPreparedAtP(c: Cluster, maxHops: nat)
    requires Reached(c, Hubs(maxHops, 20)) && !c.hubs[P].up
    requires Latest(c.hubs[P].log) ==
             map[][X := Rec(X, CoordinatorPrepared, true, false)][Y := Rec(Y, CoordinatorPrepared, true, false)]
    ensures P in Hubs(maxHops, 20) && !Recovers(Hubs(maxHops, 20)[P], c.hubs[P])
  {
    LaneOfP(X);
    LaneOfP(Y);
    TermsOfRecords(X, CoordinatorPrepared, true, false);
    TermsOfRecords(Y, CoordinatorPrepared, true, false);
    FineHub(c, maxHops, 20, P);
    TwoHoldsTooMany(Hubs(maxHops, 20)[P], c.hubs[P], X, Y, LANE_P);
  }

  // ----- an append that failed and landed -----

  /** Hub Q journals the prepare of X, is told that the append failed, and gives the reservation back. */
  lemma LosesX(maxHops: nat) returns (c: Cluster)
    ensures Reached(c, Hubs(maxHops, 10)) && c.hubs[P].up && c.hubs[Q].up
    ensures c.hubs[P].ledger == Ledger(BaseP(), map[X := TermsP(X)], {}) && X in c.hubs[P].sessions.preparing
    ensures c.hubs[P].sessions.closed == {} && c.hubs[P].sessions.lost == {}
    ensures Latest(c.hubs[P].log) == map[X := Rec(X, CoordinatorPreparing, false, false)]
    ensures c.hubs[Q].ledger == Ledger(BaseQ(10), map[], {}) && c.hubs[Q].saved == c.hubs[Q].ledger
    ensures c.hubs[Q].kept == {}
    ensures c.hubs[Q].sessions.lost == {X} && c.hubs[Q].sessions.closed == {}
    ensures Latest(c.hubs[Q].log) == map[X := Part(X)] && Asking(X) in c.requests
  {
    var c0 := Start(maxHops, 10);
    EmptyHasRoom(10);
    var c1 := Offers(c0, maxHops, 10, X);
    var c2 := Accepts(c1, maxHops, 10, X);
    c := LocalStep(c2, Hubs(maxHops, 10), Q, ReleaseUnacknowledged(X));
    assert map[X := TermsQ(X)] - {X} == map[];
  }

  lemma LostRun(maxHops: nat) returns (c: Cluster)
    ensures Reached(c, Hubs(maxHops, 10)) && !c.hubs[Q].up && c.hubs[Q].kept == {}
    ensures c.hubs[Q].saved == Ledger(BaseQ(10), map[], {})
    ensures c.hubs[Q].sessions.lost == {X} && c.hubs[Q].sessions.closed == {}
    ensures Latest(c.hubs[Q].log) == map[X := Part(X), Y := Part(Y)]
    ensures Lookup(Latest(c.hubs[P].log), X) == Some(Rec(X, CoordinatorAbortDecided, false, false))
  {
    var c0 := LosesX(maxHops);
    var c1 := Aborts(c0, maxHops, 10, X);
    var c2 := Offers(c1, maxHops, 10, Y);
    EmptyHasRoom(10);
    var c3 := Accepts(c2, maxHops, 10, Y);
    c := Crashes(c3, maxHops, 10, Q);
  }

  /**
   Y takes the liquidity that X gave back although X's record landed: the restart must reserve both, and fails.
   The abort of X that P decided, which Q would accept if it ran, can then never complete.
   */
  lemma LostReservationBlocksRestart(maxHops: nat) returns (c: Cluster)
    ensures CannotRestart(c, Hubs(maxHops, 10), Q)
    ensures HealthOf(Hubs(maxHops, 10)[Q], c.hubs[Q]) == Health(true, true, false, true)
    ensures RecordAt(WireOf(c), P, X) == Some(Rec(X, CoordinatorAbortDecided, false, false))
    ensures AllReachable(WireOf(c), Lands(Hubs(maxHops, 10)), Rec(X, CoordinatorAbortDecided, false, false))
    ensures !Completes(c, Hubs(maxHops, 10), AbortPhase, P, X)
  {
    c := LostRun(maxHops);
    TermsOfRecords(X, CoordinatorPrepared, true, false);
    TermsOfRecords(Y, CoordinatorPrepared, true, false);
    TwoPreparedAtQ(c, maxHops);
    AbortIsBlocked(c, maxHops);
  }

  lemma TwoPreparedAtQ(c: Cluster, maxHops: nat)
    requires Reached(c, Hubs(maxHops, 10)) && !c.hubs[Q].up
    requires Latest(c.hubs[Q].log) == map[X := Part(X), Y := Part(Y)]
    ensures Q in Hubs(maxHops, 10) && !Recovers(Hubs(maxHops, 10)[Q], c.hubs[Q])
  {
    LaneOfQ(X);
    LaneOfQ(Y);
    TermsOfRecords(X, CoordinatorPrepared, true, false);
    TermsOfRecords(Y, CoordinatorPrepared, true, false);
    FineHub(c, maxHops, 10, Q);
    TwoHoldsTooMany(Hubs(maxHops, 10)[Q], c.hubs[Q], X, Y, LANE_Q);
  }

  lemma AbortIsBlocked(c: Cluster, maxHops: nat)
    requires Reached(c, Hubs(maxHops, 10)) && !c.hubs[Q].up && !Recovers(Hubs(maxHops, 10)[Q], c.hubs[Q])
    requires Lookup(Latest(c.hubs[P].log), X) == Some(Rec(X, CoordinatorAbortDecided, false, false))
    requires Lookup(Latest(c.hubs[Q].log), X) == Some(Part(X))
    ensures RecordAt(WireOf(c), P, X) == Some(Rec(X, CoordinatorAbortDecided, false, false))
    ensures AllReachable(WireOf(c), Lands(Hubs(maxHops, 10)), Rec(X, CoordinatorAbortDecided, false, false))
    ensures !Completes(c, Hubs(maxHops, 10), AbortPhase, P, X)
  {
    RecordsOf(c, P, X);
    RecordsOf(c, Q, X);
    LandsOfQ(maxHops, 10);
    WouldAccept(WireOf(c), Lands(Hubs(maxHops, 10)));
    AbortStaysOpen(c, maxHops, Rec(X, CoordinatorAbortDecided, false, false));
  }

  lemma WouldAccept(n: Wire, lands: Territory)
    requires Q in n.logs && Q in lands && lands[Q] == {C3()} && RecordAt(n, Q, X) == Some(Part(X))
    ensures AllReachable(n, lands, Rec(X, CoordinatorAbortDecided, false, false))
  {
    AskingPasses(X);
    assert Matches(Part(X), Offer(X));
    assert Rec(X, CoordinatorAbortDecided, false, false).participants[0].descriptor == Offer(X);
  }

  lemma AbortStaysOpen(c: Cluster, maxHops: nat, tx: Transaction)
    requires Reached(c, Hubs(maxHops, 10)) && !c.hubs[Q].up && !Recovers(Hubs(maxHops, 10)[Q], c.hubs[Q])
    requires RecordAt(WireOf(c), P, X) == Some(tx) && RecordAt(WireOf(c), Q, X) == Some(Part(X))
    requires tx.txId == X && tx.role.Coordinator? && tx.state.CoordinatorAbortDecided? && |tx.participants| == 1
    requires tx.participants[0].descriptor == Offer(X) && !tx.participants[0].aborted
    ensures !Completes(c, Hubs(maxHops, 10), AbortPhase, P, X)
  {
    Registrations(maxHops, 10);
    OccursInv(Hubs(maxHops, 10), c);
    NotAcknowledged(WireOf(c), Lands(Hubs(maxHops, 10)));
    assert Owes(c.responses, AbortPhase, tx, Q, 0);
    DownBlocks(Hubs(maxHops, 10), c, AbortPhase, P, tx, Q);
  }

  /** While Q's newest record of X is a prepare, Q has not acknowledged an abort of it. */
  lemma NotAcknowledged(n: Wire, lands: Territory)
    requires Sound(n, lands) && RecordAt(n, Q, X) == Some(Part(X))
    ensures Acknowledgement(AbortPhase, Offer(X)) !in n.responses
  {
    if Acknowledgement(AbortPhase, Offer(X)) in n.responses {
      SoundMeans(n, lands);
      Agreement.PassedIsNow(n, lands, Offer(X), ParticipantAborted);
    }
  }

  // ----- a decided transaction that cannot be settled -----

  /** A duplicate of the request is acknowledged from the journal, and P decides to commit. */
  lemma LostIsDecided(maxHops: nat) returns (c: Cluster)
    ensures Reached(c, Hubs(maxHops, 10)) && c.hubs[P].up && c.hubs[Q].up
    ensures c.hubs[Q].ledger == Ledger(BaseQ(10), map[], {}) && c.hubs[Q].sessions.lost == {X}
    ensures Lookup(Latest(c.hubs[P].log), X) == Some(Rec(X, CoordinatorCommitDecided, true, true))
    ensures Lookup(Latest(c.hubs[Q].log), X) == Some(Part(X))
  {
    var c0 := LosesX(maxHops);
    var c1 := Answers(c0, maxHops, 10, X);
    var c2 := Collects(c1, maxHops, 10, X);
    c := DecidesToCommit(c2, maxHops, 10, X);
  }

  /** Hub Q learns of the decision and journals it, but has no reservation left to settle it with. */
  lemma LostReservationBlocksSettling(maxHops: nat) returns (c: Cluster)
    ensures Occurs(Hubs(maxHops, 10), c) && Q in c.hubs && c.hubs[Q].up
    ensures RecordAt(WireOf(c), Q, X).Some? && RecordAt(WireOf(c), Q, X).value.state.ParticipantCommitDecided?
    ensures !Enabled(c.hubs[Q], Hubs(maxHops, 10)[Q].maxHops, Settle(X))
  {
    var c0 := LostIsDecided(maxHops);
    var c1 := AsksToCommit(c0, maxHops);
    c := LearnsDecision(c1, maxHops);
    RecordsOf(c, Q, X);
  }

  function Ordering(): Request { RequestFor(Rec(X, CoordinatorCommitDecided, true, true), 0, CommitPhase) }

  lemma AsksToCommit(c: Cluster, maxHops: nat) returns (c2: Cluster)
    requires Reached(c, Hubs(maxHops, 10)) && c.hubs[P].up
    requires Lookup(Latest(c.hubs[P].log), X) == Some(Rec(X, CoordinatorCommitDecided, true, true))
    ensures Reached(c2, Hubs(maxHops, 10)) && c2.hubs == c.hubs && Ordering() in c2.requests
  {
    RecordsOf(c, P, X);
    c2 := OneStep(c, Hubs(maxHops, 10), Protocol(Send(P, X, 0, CommitPhase)));
  }

  lemma OrderPasses(c: Cluster, maxHops: nat)
    requires Reached(c, Hubs(maxHops, 10))
    requires Lookup(Latest(c.hubs[P].log), X) == Some(Rec(X, CoordinatorCommitDecided, true, true))
    ensures CheckRequest(Lands(Hubs(maxHops, 10))[Q], Ordering()).None?
  {
    Registrations(maxHops, 10);
    OccursInv(Hubs(maxHops, 10), c);
    RecordsOf(c, P, X);
    CommitRequestPasses(WireOf(c), Lands(Hubs(maxHops, 10)), P, Rec(X, CoordinatorCommitDecided, true, true), 0);
  }

  function DecidedPart(): Transaction { Part(X).(state := ParticipantCommitDecided) }

  lemma OrderIsNext()
    ensures NextRecord(Some(Part(X)), Ordering(), 0) == Some(DecidedPart()) && MayFollow(Some(Part(X)), DecidedPart())
  {
  }

  lemma LearnsDecision(c: Cluster, maxHops: nat) returns (c2: Cluster)
    requires Reached(c, Hubs(maxHops, 10)) && c.hubs[Q].up && Ordering() in c.requests
    requires c.hubs[Q].ledger == Ledger(BaseQ(10), map[], {})
    requires Lookup(Latest(c.hubs[P].log), X) == Some(Rec(X, CoordinatorCommitDecided, true, true))
    requires Lookup(Latest(c.hubs[Q].log), X) == Some(Part(X))
    ensures Reached(c2, Hubs(maxHops, 10)) && c2.hubs[Q].up && c2.hubs[Q].ledger == c.hubs[Q].ledger
    ensures Lookup(Latest(c2.hubs[Q].log), X) == Some(DecidedPart())
  {
    OrderPasses(c, maxHops);
    OrderIsNext();
    RecordsOf(c, Q, X);
    LandsOfQ(maxHops, 10);
    c2 := AppendStep(c, Hubs(maxHops, 10), Q, Handle(Q, Ordering(), 0), DecidedPart());
  }
}
