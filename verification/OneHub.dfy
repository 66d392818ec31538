/**
 The state of one hub's process tied to the run that led to it: every action of a handler is a step of
 that run. Handlers use these lemmas one action at a time.
 */
module OneHub {
  import opened Prelude
  import opened SetSums
  import opened Transactions
  import opened Log
  import opened Ledger
  import opened HubLedger
  import opened Hub
  import opened HubRuns
  import opened TwoPhaseCommit
  import opened Cluster
  import opened NodeRuns
  import opened Descriptors

  /** The hub `p`, and nothing else, in a cluster of its own. */
  datatype Track = Track(p: Provider, site: Site, trace: seq<Event>, c: Cluster)

  /** Flags go with decisions. */
  ghost predicate FlagsFit(tx: Transaction) {
    forall i :: 0 <= i < |tx.participants| ==>
      && (tx.participants[i].committed ==> HasCommitDecision(tx.state))
      && (tx.participants[i].aborted ==> HasAbortDecision(tx.state))
  }

  /** What this hub's coordinator records say of themselves. */
  ghost predicate OwnRecordsTrue(log: Log) {
    forall t :: t in Latest(log) && Latest(log)[t].role.Coordinator? ==>
        StateTrue(Latest(log)[t]) && FlagsFit(Latest(log)[t])
  }

  ghost predicate Ends(k: Track, log: Log, ledger: Ledger, up: bool) {
    && Registration(k.site.base)
    && Play(Founded(map[k.p := k.site]), map[k.p := k.site], k.trace) == Some(k.c)
    && k.c.hubs.Keys == {k.p}
    && k.c.hubs[k.p].up == up && k.c.hubs[k.p].log == log && k.c.hubs[k.p].ledger == ledger
    && Fine(k.site, k.c.hubs[k.p]) && OwnRecordsTrue(log)
  }

  ghost predicate TrackUnfolded(u: Unfolding, k: Track, log: Log, ledger: Ledger, up: bool) {
    Ends(k, log, ledger, up)
  }

  /** The recorded run is legal and ends in a running hub with this journal and this ledger. */
  ghost predicate OnTrack(k: Track, log: Log, ledger: Ledger) {
    forall u: Unfolding :: TrackUnfolded(u, k, log, ledger, true)
  }

  /** It ends in a crashed hub, whose ledger was this one. */
  ghost predicate Stopped(k: Track, log: Log, ledger: Ledger) {
    forall u: Unfolding :: TrackUnfolded(u, k, log, ledger, false)
  }

  lemma OnTrackMeans(k: Track, log: Log, ledger: Ledger)
    ensures OnTrack(k, log, ledger) <==> Ends(k, log, ledger, true)
  {
    assert TrackUnfolded(Unfolding, k, log, ledger, true) <==> Ends(k, log, ledger, true);
  }

  lemma StoppedMeans(k: Track, log: Log, ledger: Ledger)
    ensures Stopped(k, log, ledger) <==> Ends(k, log, ledger, false)
  {
    assert TrackUnfolded(Unfolding, k, log, ledger, false) <==> Ends(k, log, ledger, false);
  }

  function Home(k: Track): Sites { map[k.p := k.site] }

  ghost function SessionsAt(k: Track): Sessions {
    if k.p in k.c.hubs then k.c.hubs[k.p].sessions else Sessions({}, {}, {})
  }

  lemma FreshTrack(p: Provider, site: Site)
    requires Registration(site.base)
    ensures OnTrack(Track(p, site, [], Founded(map[p := site])), [], Ledger(site.base, map[], {}))
  {
    var k := Track(p, site, [], Founded(map[p := site]));
    FreshInv(site.base, site.maxHops);
    FineMeans(site, Fresh(site.base));
    OnTrackMeans(k, [], Ledger(site.base, map[], {}));
  }

  /** The track after one more event. */
  ghost predicate Continues(k: Track, e: Event, k2: Track) {
    k2.p == k.p && k2.site == k.site && k2.trace == k.trace + [e] && CanDo(k.c, Home(k), e)
        && k2.c == Do(k.c, Home(k), e)
  }

  lemma ContinuedRun(k: Track, e: Event, k2: Track)
    requires Play(Founded(Home(k)), Home(k), k.trace) == Some(k.c) && Continues(k, e, k2)
    ensures Play(Founded(Home(k2)), Home(k2), k2.trace) == Some(k2.c)
  {
    PlayOneMore(Founded(Home(k)), Home(k), k.trace, e);
  }

  // ----- what is known along the track -----

  lemma KnownLedger(k: Track, log: Log, ledger: Ledger)
    requires OnTrack(k, log, ledger)
    ensures ValidLog(log) && k.p in k.c.hubs && ledger.channels.Keys == k.site.base.Keys
    ensures ledger.applied <= Latest(log).Keys && ledger.applied !! ledger.reservations.Keys
  {
    OnTrackMeans(k, log, ledger);
    FineMeans(k.site, k.c.hubs[k.p]);
    assert RunningInv(k.site.base, Latest(log), CommitOrder(log), ledger, k.c.hubs[k.p].sessions);
  }

  lemma KnownRoles(k: Track, log: Log, ledger: Ledger)
    requires OnTrack(k, log, ledger)
    ensures forall t :: t in Latest(log) ==> RoleMatchesState(Latest(log)[t])
  {
    KnownLedger(k, log, ledger);
    RolesMatch(log);
  }

  lemma KnownCoordinator(k: Track, log: Log, ledger: Ledger, t: TxId)
    requires OnTrack(k, log, ledger) && t in Latest(log) && Latest(log)[t].role.Coordinator?
    ensures StateTrue(Latest(log)[t]) && FlagsFit(Latest(log)[t]) && WellFormed(Latest(log)[t])
    ensures ImageFits(Latest(log)[t])
  {
    OnTrackMeans(k, log, ledger);
    KnownLedger(k, log, ledger);
    RecordsWellFormed(log);
    WellFormedMeans(Latest(log)[t]);
  }

  /** The record carries its own payment's image. */
  predicate ImageFits(tx: Transaction) {
    tx.payment.Some? && tx.payment.value.id == tx.txId && tx.payment.value.messageHash == tx.paymentHash
  }

  ghost predicate AcceptsUnfolded(u: Unfolding, log: Log, tx: Transaction) {
    MayFollow(Lookup(Latest(log), tx.txId), tx)
  }

  /** The journal's own validation accepts `tx` next. */
  ghost predicate Accepts(log: Log, tx: Transaction) {
    forall u: Unfolding :: AcceptsUnfolded(u, log, tx)
  }

  lemma AcceptsMeans(log: Log, tx: Transaction)
    ensures Accepts(log, tx) <==> MayFollow(Lookup(Latest(log), tx.txId), tx)
  {
    assert AcceptsUnfolded(Unfolding, log, tx) <==> MayFollow(Lookup(Latest(log), tx.txId), tx);
  }

  ghost predicate WellFormedUnfolded(u: Unfolding, tx: Transaction) {
    CheckRecord(tx).None?
  }

  ghost predicate WellFormed(tx: Transaction) {
    forall u: Unfolding :: WellFormedUnfolded(u, tx)
  }

  lemma WellFormedMeans(tx: Transaction)
    ensures WellFormed(tx) <==> CheckRecord(tx).None?
  {
    assert WellFormedUnfolded(Unfolding, tx) <==> CheckRecord(tx).None?;
  }

  /** `b` is `a` with a later state, more acknowledgements, another text or time, or the session's newer image. */
  ghost predicate Updates(a: Transaction, b: Transaction) {
    && b == a.(state := b.state, participants := b.participants, payment := b.payment, updatedUnix := b.updatedUnix,
               lastError := b.lastError)
    && StateMayFollow(a.state, b.state)
    && ImageFits(b)
    && |b.participants| == |a.participants|
    && forall i :: 0 <= i < |a.participants| ==>
         && SameDescriptor(a.participants[i], b.participants[i]) && FlagsAdvance(a.participants[i], b.participants[i])
  }

  lemma UpdateAccepted(log: Log, tx: Transaction)
    requires tx.txId in Latest(log) && Latest(log)[tx.txId].role.Coordinator?
    requires WellFormed(Latest(log)[tx.txId]) && Updates(Latest(log)[tx.txId], tx)
    ensures Accepts(log, tx)
  {
    var a := Latest(log)[tx.txId];
    WellFormedMeans(a);
    EntriesAccepted(a.participants, tx.participants);
    AcceptsMeans(log, tx);
  }

  /** A session whose payment is decided never times out, and a coordinator never loses a reservation. */
  lemma KnownOpen(k: Track, log: Log, ledger: Ledger, t: TxId)
    requires OnTrack(k, log, ledger) && t in Latest(log) && HasCommitDecision(Latest(log)[t].state)
    ensures t !in SessionsAt(k).closed
    ensures Latest(log)[t].role.Coordinator? ==> t !in SessionsAt(k).lost
  {
    var h := HubBehind(k, log, ledger);
    assert SessionsFit(Latest(log), h.sessions);
  }

  /** Nothing is settled that is not decided. */
  lemma KnownUnapplied(k: Track, log: Log, ledger: Ledger, t: TxId)
    requires OnTrack(k, log, ledger) && t in Latest(log) && !HasCommitDecision(Latest(log)[t].state)
    ensures t !in ledger.applied
  {
    var h := HubBehind(k, log, ledger);
    OnTrackMeans(k, log, ledger);
    FineMeans(k.site, h);
    CommitOrderIsDecided(log);
    assert ledger.applied <= Elements(CommitOrder(log));
  }

  lemma KnownWire(k: Track, log: Log, ledger: Ledger)
    requires OnTrack(k, log, ledger)
    ensures WireOf(k.c) == Wire(map[k.p := log], k.c.requests, k.c.responses)
    ensures forall t :: RecordAt(WireOf(k.c), k.p, t) == Lookup(Latest(log), t)
  {
    OnTrackMeans(k, log, ledger);
  }

  // ----- local actions -----

  lemma LocalTrack(k: Track, log: Log, ledger: Ledger, s: Step) returns (k2: Track)
    requires OnTrack(k, log, ledger) && !s.Append? && !s.Crash? && k.p in k.c.hubs
    requires Enabled(k.c.hubs[k.p], k.site.maxHops, s)
    ensures Continues(k, Act(Local(k.p, s)), k2)
    ensures OnTrack(k2, log, Next(k.c.hubs[k.p], k.site.maxHops, s).ledger)
    ensures k2.c.requests == k.c.requests && k2.c.responses == k.c.responses
    ensures SessionsAt(k2) == Next(k.c.hubs[k.p], k.site.maxHops, s).sessions
  {
    var e := Act(Local(k.p, s));
    OnTrackMeans(k, log, ledger);
    assert CanDo(k.c, Home(k), e);
    k2 := Track(k.p, k.site, k.trace + [e], Do(k.c, Home(k), e));
    ContinuedRun(k, e, k2);
    LocalStaysFine(k.site, k.c.hubs[k.p], s);
    LocalKeepsLog(k.c.hubs[k.p], k.site.maxHops, s);
    OnTrackMeans(k2, log, Next(k.c.hubs[k.p], k.site.maxHops, s).ledger);
  }

  /** The hub's state behind the track. */
  lemma HubBehind(k: Track, log: Log, ledger: Ledger) returns (h: Hub)
    requires OnTrack(k, log, ledger)
    ensures k.p in k.c.hubs && h == k.c.hubs[k.p] && h.up && h.log == log && h.ledger == ledger
    ensures h.sessions == SessionsAt(k)
    ensures HubInv(k.site.base, k.site.maxHops, h)
  {
    OnTrackMeans(k, log, ledger);
    h := k.c.hubs[k.p];
    FineMeans(k.site, h);
  }

  /** `prepare_distributed_reservation` for a transaction the journal does not know. */
  lemma ReserveTrack(k: Track, log: Log, ledger: Ledger, tx: TxId, t: Terms) returns (k2: Track)
    requires OnTrack(k, log, ledger) && tx !in Latest(log) && Prepared(ledger, k.site.maxHops, tx, t).Ok?
    ensures k2.p == k.p && k2.site == k.site && k.trace <= k2.trace
    ensures OnTrack(k2, log, Prepared(ledger, k.site.maxHops, tx, t).value)
    ensures k2.c.requests == k.c.requests && k2.c.responses == k.c.responses && SessionsAt(k2) == SessionsAt(k)
  {
    KnownLedger(k, log, ledger);
    k2 := k;
    if tx !in ledger.reservations {
      var h := HubBehind(k, log, ledger);
      k2 := LocalTrack(k, log, ledger, Reserve(tx, t));
    }
  }

  lemma ReleaseTrack(k: Track, log: Log, ledger: Ledger, tx: TxId) returns (k2: Track)
    requires OnTrack(k, log, ledger)
    requires tx !in Latest(log) || HasAbortDecision(Latest(log)[tx].state)
    ensures k2.p == k.p && k2.site == k.site && k.trace <= k2.trace
    ensures OnTrack(k2, log, Released(ledger, tx))
    ensures k2.c.requests == k.c.requests && k2.c.responses == k.c.responses && SessionsAt(k2) == SessionsAt(k)
  {
    var h := HubBehind(k, log, ledger);
    k2 := LocalTrack(k, log, ledger, Release(tx));
  }

  /** A payment whose commit is not decided is closed: its reservation goes, whatever the journal says. */
  lemma CloseTrack(k: Track, log: Log, ledger: Ledger, tx: TxId) returns (k2: Track)
    requires OnTrack(k, log, ledger) && tx in Latest(log)
    requires Latest(log)[tx].state.CoordinatorPreparing? || Latest(log)[tx].state.CoordinatorPrepared?
    ensures k2.p == k.p && k2.site == k.site && k.trace <= k2.trace
    ensures OnTrack(k2, log, Released(ledger, tx))
    ensures SessionsAt(k2) == SessionsAt(k).(closed := SessionsAt(k).closed + {tx})
  {
    var h := HubBehind(k, log, ledger);
    k2 := LocalTrack(k, log, ledger, Close(tx));
  }

  /** Whether a decided transaction settles now. */
  lemma SettleOutcome(k: Track, log: Log, ledger: Ledger, tx: TxId)
    requires OnTrack(k, log, ledger) && tx in Latest(log) && HasCommitDecision(Latest(log)[tx].state)
    ensures Applied(ledger, tx, TermsOf(Latest(log)[tx])).Ok? <==> tx in ledger.applied || tx !in SessionsAt(k).lost
  {
    var h := HubBehind(k, log, ledger);
    CommitOrderIsDecided(log);
    DecidedIsSettleable(k.site.base, k.site.maxHops, h, tx);
  }

  lemma SettleTrack(k: Track, log: Log, ledger: Ledger, tx: TxId) returns (k2: Track)
    requires OnTrack(k, log, ledger) && tx in Latest(log) && HasCommitDecision(Latest(log)[tx].state)
    requires Applied(ledger, tx, TermsOf(Latest(log)[tx])).Ok?
    ensures k2.p == k.p && k2.site == k.site && k.trace <= k2.trace
    ensures OnTrack(k2, log, Applied(ledger, tx, TermsOf(Latest(log)[tx])).value)
    ensures tx in Applied(ledger, tx, TermsOf(Latest(log)[tx])).value.applied
    ensures k2.c.requests == k.c.requests && k2.c.responses == k.c.responses && SessionsAt(k2) == SessionsAt(k)
  {
    var h := HubBehind(k, log, ledger);
    SettleStep(h, k.site.maxHops, tx);
    k2 := LocalTrack(k, log, ledger, Settle(tx));
  }

  lemma SettleStep(h: Hub, maxHops: nat, tx: TxId)
    requires h.up && tx in Latest(h.log) && HasCommitDecision(Latest(h.log)[tx].state)
    requires Applied(h.ledger, tx, TermsOf(Latest(h.log)[tx])).Ok?
    ensures Enabled(h, maxHops, Settle(tx)) && Next(h, maxHops, Settle(tx)).sessions == h.sessions
    ensures Next(h, maxHops, Settle(tx)).ledger == Applied(h.ledger, tx, TermsOf(Latest(h.log)[tx])).value
    ensures tx in Next(h, maxHops, Settle(tx)).ledger.applied
  {
    AppliedGrows(h.ledger, tx, TermsOf(Latest(h.log)[tx]));
  }

  /** The release after a failed append whose record landed. */
  lemma LoseTrack(k: Track, log: Log, ledger: Ledger, tx: TxId) returns (k2: Track)
    requires OnTrack(k, log, ledger) && tx in Latest(log) && Latest(log)[tx].state.ParticipantPrepared?
    ensures k2.p == k.p && k2.site == k.site && k.trace <= k2.trace
    ensures OnTrack(k2, log, Released(ledger, tx))
    ensures k2.c.requests == k.c.requests && k2.c.responses == k.c.responses
    ensures SessionsAt(k2) == SessionsAt(k).(lost := SessionsAt(k).lost + {tx})
  {
    var h := HubBehind(k, log, ledger);
    k2 := LocalTrack(k, log, ledger, ReleaseUnacknowledged(tx));
  }

  // ----- messages -----

  lemma MessageTrack(k: Track, log: Log, ledger: Ledger, e: Event) returns (k2: Track)
    requires OnTrack(k, log, ledger) && !e.Act?
    ensures Continues(k, e, k2) && OnTrack(k2, log, ledger) && SessionsAt(k2) == SessionsAt(k)
    ensures k2.c.requests == k.c.requests + (if e.Arrive? then {e.request} else {})
    ensures k2.c.responses == k.c.responses + (if e.Answer? then {e.response} else {})
  {
    OnTrackMeans(k, log, ledger);
    k2 := Track(k.p, k.site, k.trace + [e], Do(k.c, Home(k), e));
    ContinuedRun(k, e, k2);
    OnTrackMeans(k2, log, ledger);
  }

  /** A protocol step that appends nothing. */
  lemma TalkTrack(k: Track, log: Log, ledger: Ledger, m: NetStep) returns (k2: Track)
    requires OnTrack(k, log, ledger) && Allowed(WireOf(k.c), Lands(Home(k)), m) && (m.Send? || m.Reply?)
    ensures Continues(k, Act(Protocol(m)), k2) && OnTrack(k2, log, ledger) && SessionsAt(k2) == SessionsAt(k)
    ensures k2.c.requests == NextNet(WireOf(k.c), Lands(Home(k)), m).requests
    ensures k2.c.responses == NextNet(WireOf(k.c), Lands(Home(k)), m).responses
  {
    var e := Act(Protocol(m));
    OnTrackMeans(k, log, ledger);
    k2 := Track(k.p, k.site, k.trace + [e], Do(k.c, Home(k), e));
    ContinuedRun(k, e, k2);
    OnTrackMeans(k2, log, ledger);
  }

  /** The participant may acknowledge what its newest record says. */
  lemma ReplyTrack(k: Track, log: Log, ledger: Ledger, r: Request) returns (k2: Track)
    requires OnTrack(k, log, ledger) && Verified(k, r) && ReplyState(Lookup(Latest(log), r.descriptor.txId), r).Some?
    ensures k2.p == k.p && k2.site == k.site && k.trace <= k2.trace && OnTrack(k2, log, ledger)
    ensures SessionsAt(k2) == SessionsAt(k)
    ensures k2.c.requests == k.c.requests && k.c.responses <= k2.c.responses
    ensures ResponseTo(r, ReplyState(Lookup(Latest(log), r.descriptor.txId), r).value) in k2.c.responses
  {
    KnownWire(k, log, ledger);
    VerifiedMeans(k, r);
    k2 := TalkTrack(k, log, ledger, Reply(k.p, r));
  }

  // ----- appends -----

  ghost predicate WritesUnfolded(u: Unfolding, k: Track, m: NetStep, tx: Transaction) {
    && Allowed(WireOf(k.c), Lands(Home(k)), m) && Appending(WireOf(k.c), m) == Some((k.p, tx))
    && k.p in k.c.hubs && HubMay(k.c.hubs[k.p], k.site.maxHops, tx)
  }

  /** `m` is a protocol step that appends `tx`, and the hub may take it now. */
  ghost predicate Writes(k: Track, m: NetStep, tx: Transaction) {
    forall u: Unfolding :: WritesUnfolded(u, k, m, tx)
  }

  lemma WritesMeans(k: Track, m: NetStep, tx: Transaction)
    ensures Writes(k, m, tx) <==> WritesUnfolded(Unfolding, k, m, tx)
  {
  }

  ghost predicate VerifiedUnfolded(u: Unfolding, k: Track, r: Request) {
    r in k.c.requests && r.descriptor.participant == k.p && CheckRequest(k.site.base.Keys, r).None?
  }

  /** The request reached this hub and passed `verify_request`. */
  ghost predicate Verified(k: Track, r: Request) {
    forall u: Unfolding :: VerifiedUnfolded(u, k, r)
  }

  lemma VerifiedMeans(k: Track, r: Request)
    ensures Verified(k, r) <==>
                r in k.c.requests && r.descriptor.participant == k.p && CheckRequest(k.site.base.Keys, r).None?
  {
    assert VerifiedUnfolded(Unfolding, k, r) <==>
        r in k.c.requests && r.descriptor.participant == k.p && CheckRequest(k.site.base.Keys, r).None?;
  }

  lemma StaysVerified(k: Track, k2: Track, r: Request)
    requires Verified(k, r) && k2.p == k.p && k2.site == k.site && k.c.requests <= k2.c.requests
    ensures Verified(k2, r)
  {
    VerifiedMeans(k, r);
    VerifiedMeans(k2, r);
  }

  lemma BegunIsTrue(n: Wire, lands: Territory, p: Provider, tx: Transaction, owners: seq<Provider>)
    requires Allowed(n, lands, Begin(p, tx, owners))
    ensures StateTrue(tx) && FlagsFit(tx)
  {
    assert forall i :: 0 <= i < |tx.participants| ==> FlagsOf(tx.participants[i]) == (false, false, false);
  }

  lemma HandledIsParticipant(n: Wire, lands: Territory, q: Provider, r: Request, now: nat)
    requires Allowed(n, lands, Handle(q, r, now))
    ensures NextRecord(RecordAt(n, q, r.descriptor.txId), r, now).value.role.Participant?
  {
    NextRecordMatches(RecordAt(n, q, r.descriptor.txId), r, now);
  }

  lemma AdvancedIsTrue(n: Wire, lands: Territory, p: Provider, tx: Transaction)
    requires Allowed(n, lands, Advance(p, tx)) && StateTrue(RecordAt(n, p, tx.txId).value)
    requires FlagsFit(RecordAt(n, p, tx.txId).value)
    ensures StateTrue(tx) && FlagsFit(tx)
  {
    AdvancedState(n, RecordAt(n, p, tx.txId).value, tx);
    AdvancedFlagsFit(n, RecordAt(n, p, tx.txId).value, tx);
  }

  lemma AdvancedFlagsFit(n: Wire, a: Transaction, b: Transaction)
    requires FlagsFit(a) && MayFollow(Some(a), b) && CoordinatorMay(n.responses, a, b)
    ensures FlagsFit(b)
  {
    SuccessorKeeps(a, b);
    forall i | 0 <= i < |b.participants|
      ensures (b.participants[i].committed ==> HasCommitDecision(b.state))
      ensures (b.participants[i].aborted ==> HasAbortDecision(b.state))
    {
      assert EntryMay(n.responses, a.state, a.participants[i], b.participants[i]);
    }
  }

  lemma AppendedIsTrue(n: Wire, lands: Territory, m: NetStep, p: Provider, tx: Transaction)
    requires Allowed(n, lands, m) && Appending(n, m) == Some((p, tx))
    requires RecordAt(n, p, tx.txId).Some? && RecordAt(n, p, tx.txId).value.role.Coordinator? ==>
               StateTrue(RecordAt(n, p, tx.txId).value) && FlagsFit(RecordAt(n, p, tx.txId).value)
    ensures tx.role.Coordinator? ==> StateTrue(tx) && FlagsFit(tx)
  {
    match m
    case Begin(q, next, owners) => BegunIsTrue(n, lands, q, next, owners);
    case Advance(q, next) => AdvancedIsTrue(n, lands, q, next);
    case Handle(q, r, now) => HandledIsParticipant(n, lands, q, r, now);
    case Send(q, t, entry, phase) =>
    case Reply(q, r) =>
  }

  lemma WrittenIsTrue(k: Track, log: Log, ledger: Ledger, m: NetStep, tx: Transaction)
    requires OnTrack(k, log, ledger) && Writes(k, m, tx)
    ensures OwnRecordsTrue(log + [tx])
  {
    assert OwnRecordsTrue(log) by {
      OnTrackMeans(k, log, ledger);
    }
    assert Allowed(WireOf(k.c), Lands(Home(k)), m) && Appending(WireOf(k.c), m) == Some((k.p, tx)) by {
      WritesMeans(k, m, tx);
    }
    KnownWire(k, log, ledger);
    AppendedIsTrue(WireOf(k.c), Lands(Home(k)), m, k.p, tx);
    ExtendedIsTrue(log, tx);
  }

  lemma ExtendedIsTrue(log: Log, tx: Transaction)
    requires OwnRecordsTrue(log) && (tx.role.Coordinator? ==> StateTrue(tx) && FlagsFit(tx))
    ensures OwnRecordsTrue(log + [tx])
  {
    Extended(log, tx);
  }

  lemma AppendTrack(k: Track, log: Log, ledger: Ledger, m: NetStep, tx: Transaction) returns (k2: Track)
    requires OnTrack(k, log, ledger) && Writes(k, m, tx)
    ensures Continues(k, Act(Protocol(m)), k2) && OnTrack(k2, log + [tx], ledger)
    ensures k2.c.requests == k.c.requests && k2.c.responses == k.c.responses
    ensures SessionsAt(k2) == SessionsAfter(Latest(log), SessionsAt(k), tx)
  {
    var e := Act(Protocol(m));
    WritesMeans(k, m, tx);
    assert k.c.hubs.Keys == {k.p} && k.c.hubs[k.p].log == log by {
      OnTrackMeans(k, log, ledger);
    }
    k2 := Track(k.p, k.site, k.trace + [e], Do(k.c, Home(k), e));
    AppendedOnTrack(k, k2, log, ledger, m, tx);
  }

  lemma AppendedOnTrack(k: Track, k2: Track, log: Log, ledger: Ledger, m: NetStep, tx: Transaction)
    requires OnTrack(k, log, ledger) && Writes(k, m, tx) && Continues(k, Act(Protocol(m)), k2)
    requires k.p in k.c.hubs && k2.c.hubs == k.c.hubs[k.p := Appended(k.c.hubs[k.p], tx)]
    ensures OnTrack(k2, log + [tx], ledger)
  {
    OnTrackMeans(k, log, ledger);
    WritesMeans(k, m, tx);
    WrittenIsTrue(k, log, ledger, m, tx);
    ContinuedRun(k, Act(Protocol(m)), k2);
    AppendStaysFine(k.site, k.c.hubs[k.p], tx);
    OnTrackMeans(k2, log + [tx], ledger);
  }

  /** What a participant must hold before it writes its next record. */
  ghost predicate MoneyFits(maxHops: nat, log: Log, ledger: Ledger, next: Transaction) {
    && (next.txId !in Latest(log) && !HasAbortDecision(next.state) ==>
          && next.txId in ledger.reservations && ledger.reservations[next.txId] == TermsOf(next)
          && |next.localHops| <= maxHops)
    && (IsCommitted(next.state) ==> next.txId in ledger.applied)
  }

  lemma HandleIsWrite(k: Track, log: Log, ledger: Ledger, r: Request, now: nat, next: Transaction)
    requires OnTrack(k, log, ledger) && Verified(k, r) && MoneyFits(k.site.maxHops, log, ledger, next)
    requires NextRecord(Lookup(Latest(log), r.descriptor.txId), r, now) == Some(next)
    ensures MayFollow(Lookup(Latest(log), next.txId), next) && Writes(k, Handle(k.p, r, now), next)
  {
    HandleFollows(k, log, ledger, r, now, next);
    HandleIsAllowed(k, log, ledger, r, now, next);
    WritesMeans(k, Handle(k.p, r, now), next);
    var h := HubBehind(k, log, ledger);
  }

  /** The journal accepts the record. */
  lemma HandleFollows(k: Track, log: Log, ledger: Ledger, r: Request, now: nat, next: Transaction)
    requires OnTrack(k, log, ledger) && Verified(k, r)
    requires NextRecord(Lookup(Latest(log), r.descriptor.txId), r, now) == Some(next)
    ensures MayFollow(Lookup(Latest(log), next.txId), next) && next.role.Participant?
    ensures !next.state.CoordinatorPrepared? && !next.state.CoordinatorCommitDecided?
  {
    var existing := Lookup(Latest(log), r.descriptor.txId);
    VerifiedMeans(k, r);
    KnownLedger(k, log, ledger);
    RecordsWellFormed(log);
    NextRecordAccepted(existing, k.site.base.Keys, r, now);
    NextRecordMatches(existing, r, now);
  }

  /** The protocol calls for it. */
  lemma HandleIsAllowed(k: Track, log: Log, ledger: Ledger, r: Request, now: nat, next: Transaction)
    requires OnTrack(k, log, ledger) && Verified(k, r)
    requires NextRecord(Lookup(Latest(log), r.descriptor.txId), r, now) == Some(next)
    ensures Allowed(WireOf(k.c), Lands(Home(k)), Handle(k.p, r, now))
    ensures Appending(WireOf(k.c), Handle(k.p, r, now)) == Some((k.p, next))
  {
    VerifiedMeans(k, r);
    KnownWire(k, log, ledger);
  }

  /** `prepare_origin`'s first record: the local hops are reserved, every flag is down. */
  ghost predicate Beginnable(k: Track, log: Log, ledger: Ledger, tx: Transaction, owners: seq<Provider>) {
    && tx.txId !in Latest(log) && tx.state.CoordinatorPreparing? && Begun(k.p, tx, owners) && SessionFits(tx)
    && tx.txId in ledger.reservations && ledger.reservations[tx.txId] == TermsOf(tx)
    && forall i :: 0 <= i < |tx.participants| ==> FlagsOf(tx.participants[i]) == (false, false, false)
  }

  lemma BeginIsAllowed(k: Track, log: Log, ledger: Ledger, tx: Transaction, owners: seq<Provider>)
    requires OnTrack(k, log, ledger) && Beginnable(k, log, ledger, tx, owners) && MayFollow(None, tx)
    ensures Allowed(WireOf(k.c), Lands(Home(k)), Begin(k.p, tx, owners))
  {
    KnownWire(k, log, ledger);
  }

  lemma BeginFitsHub(k: Track, log: Log, ledger: Ledger, tx: Transaction, owners: seq<Provider>)
    requires OnTrack(k, log, ledger) && Beginnable(k, log, ledger, tx, owners) && MayFollow(None, tx)
    ensures k.p in k.c.hubs && HubMay(k.c.hubs[k.p], k.site.maxHops, tx)
  {
    var h := HubBehind(k, log, ledger);
  }

  lemma BeginIsWrite(k: Track, log: Log, ledger: Ledger, tx: Transaction, owners: seq<Provider>)
    requires OnTrack(k, log, ledger) && Beginnable(k, log, ledger, tx, owners) && MayFollow(None, tx)
    ensures Writes(k, Begin(k.p, tx, owners), tx)
  {
    BeginIsAllowed(k, log, ledger, tx, owners);
    BeginFitsHub(k, log, ledger, tx, owners);
    WritesMeans(k, Begin(k.p, tx, owners), tx);
  }

  /** What a coordinator must hold before it writes its next record. */
  ghost predicate SessionAllows(k: Track, log: Log, ledger: Ledger, tx: Transaction) {
    && tx.txId in Latest(log)
    && (Latest(log)[tx.txId].state.CoordinatorPreparing? && tx.state.CoordinatorPrepared? ==>
         tx.txId in SessionsAt(k).preparing)
    && (tx.state.CoordinatorCommitDecided? ==> tx.txId !in SessionsAt(k).closed)
    && (IsCommitted(tx.state) ==> tx.txId in ledger.applied)
  }

  lemma AdvanceIsAllowed(k: Track, log: Log, ledger: Ledger, tx: Transaction)
    requires OnTrack(k, log, ledger) && SessionAllows(k, log, ledger, tx)
    requires Latest(log)[tx.txId].role.Coordinator? && MayFollow(Some(Latest(log)[tx.txId]), tx)
    requires CoordinatorMay(k.c.responses, Latest(log)[tx.txId], tx)
    ensures Allowed(WireOf(k.c), Lands(Home(k)), Advance(k.p, tx))
  {
    KnownWire(k, log, ledger);
  }

  lemma AdvanceFitsHub(k: Track, log: Log, ledger: Ledger, tx: Transaction)
    requires OnTrack(k, log, ledger) && SessionAllows(k, log, ledger, tx)
    requires MayFollow(Some(Latest(log)[tx.txId]), tx)
    ensures k.p in k.c.hubs && HubMay(k.c.hubs[k.p], k.site.maxHops, tx)
  {
    var h := HubBehind(k, log, ledger);
  }

  lemma AdvanceIsWrite(k: Track, log: Log, ledger: Ledger, tx: Transaction)
    requires OnTrack(k, log, ledger) && SessionAllows(k, log, ledger, tx)
    requires Latest(log)[tx.txId].role.Coordinator? && MayFollow(Some(Latest(log)[tx.txId]), tx)
    requires CoordinatorMay(k.c.responses, Latest(log)[tx.txId], tx)
    ensures Writes(k, Advance(k.p, tx), tx)
  {
    AdvanceIsAllowed(k, log, ledger, tx);
    AdvanceFitsHub(k, log, ledger, tx);
    WritesMeans(k, Advance(k.p, tx), tx);
  }

  lemma SendTrack(k: Track, log: Log, ledger: Ledger, t: TxId, entry: nat, phase: Phase) returns (k2: Track)
    requires OnTrack(k, log, ledger) && t in Latest(log) && Latest(log)[t].role.Coordinator?
    requires entry < |Latest(log)[t].participants| && Calls(Latest(log)[t].state, phase)
    ensures k2.p == k.p && k2.site == k.site && k.trace <= k2.trace && OnTrack(k2, log, ledger)
    ensures SessionsAt(k2) == SessionsAt(k)
    ensures k2.c.responses == k.c.responses && k.c.requests <= k2.c.requests
    ensures RequestFor(Latest(log)[t], entry, phase) in k2.c.requests
  {
    KnownWire(k, log, ledger);
    k2 := TalkTrack(k, log, ledger, Send(k.p, t, entry, phase));
  }

  // ----- restart -----

  /** The process starts after a crash: the journal is as it was, the ledger is the snapshot's. */
  ghost predicate Loaded(k: Track, log: Log, ledger: Ledger) {
    k.p in k.c.hubs && ledger == k.c.hubs[k.p].saved && Stopped(k, log, k.c.hubs[k.p].ledger)
  }

  ghost function SavedAt(k: Track): Ledger
    requires k.p in k.c.hubs
  {
    k.c.hubs[k.p].saved
  }

  /** A hub may crash at any time; what is left is its journal and its last snapshot. */
  lemma CrashTrack(k: Track, log: Log, ledger: Ledger) returns (k2: Track)
    requires OnTrack(k, log, ledger)
    ensures k.p in k.c.hubs && k2.p == k.p && k2.site == k.site && k.trace <= k2.trace && Loaded(k2, log, SavedAt(k))
  {
    var e := Act(Local(k.p, Crash));
    OnTrackMeans(k, log, ledger);
    k2 := Track(k.p, k.site, k.trace + [e], Do(k.c, Home(k), e));
    ContinuedRun(k, e, k2);
    LocalStaysFine(k.site, k.c.hubs[k.p], Crash);
    StoppedMeans(k2, log, ledger);
  }

  lemma RestartTrack(k: Track, log: Log, ledger: Ledger, ids: seq<TxId>) returns (k2: Track)
    requires Loaded(k, log, ledger) && IsListing(IndexOf(log), ids) && |log| < U64_MAX
    requires Recovered(ledger, k.site.maxHops, Latest(log), ids).Ok?
    ensures k2.p == k.p && k2.site == k.site && k.trace <= k2.trace
    ensures OnTrack(k2, log, Recovered(ledger, k.site.maxHops, Latest(log), ids).value)
    ensures k2.c.requests == k.c.requests && k2.c.responses == k.c.responses
    ensures SessionsAt(k2).preparing == SessionsAt(k2).closed == {}
  {
    var s := Restart(ids);
    var e := Act(Local(k.p, s));
    StoppedMeans(k, log, k.c.hubs[k.p].ledger);
    assert CanDo(k.c, Home(k), e);
    k2 := Track(k.p, k.site, k.trace + [e], Do(k.c, Home(k), e));
    ContinuedRun(k, e, k2);
    LocalStaysFine(k.site, k.c.hubs[k.p], s);
    LocalKeepsLog(k.c.hubs[k.p], k.site.maxHops, s);
    OnTrackMeans(k2, log, Next(k.c.hubs[k.p], k.site.maxHops, s).ledger);
  }

  /** The snapshot: everything as it is now, but of the reservations only those of coordinators. */
  lemma SaveTrack(k: Track, log: Log, ledger: Ledger, keep: set<TxId>) returns (k2: Track)
    requires OnTrack(k, log, ledger) && forall t :: t in keep && t in Latest(log) ==> Latest(log)[t].role.Coordinator?
    ensures k2.p == k.p && k2.site == k.site && k.trace <= k2.trace && k2.p in k2.c.hubs
    ensures SavedAt(k2) == ledger.(reservations := Keep(ledger.reservations, keep)) && OnTrack(k2, log, ledger)
    ensures SessionsAt(k2) == SessionsAt(k).(lost := SessionsAt(k).lost - ledger.applied)
    ensures k2.c.requests == k.c.requests && k2.c.responses == k.c.responses
  {
    var h := HubBehind(k, log, ledger);
    k2 := LocalTrack(k, log, ledger, Save(keep));
    var h2 := HubBehind(k2, log, ledger);
  }

  // ----- the hub in its cluster -----

  /**
   What the handlers do refines the cluster: in every interleaving with hubs that play by their rules, from
   the founding on, the cluster reaches a state in which this hub has exactly this journal and ledger.
   */
  lemma TrackOccurs(k: Track, log: Log, ledger: Ledger, sites: Sites, turns: seq<Turn>) returns (c: Cluster)
    requires OnTrack(k, log, ledger) && k.p in sites && sites[k.p] == k.site
    requires Events(turns) == k.trace && Genuine(k.p, Founded(sites), sites, turns)
    ensures Run(Founded(sites), sites, Acts(turns)) == Some(c) && Occurs(sites, c)
    ensures k.p in c.hubs && c.hubs[k.p].log == log && c.hubs[k.p].ledger == ledger
    ensures k.c.responses <= c.responses && k.c.requests <= c.requests
  {
    OnTrackMeans(k, log, ledger);
    NodeRunIsClusterRun(k.p, k.site, sites, Founded(Home(k)), Founded(sites), turns);
    c := Run(Founded(sites), sites, Acts(turns)).value;
  }
}
