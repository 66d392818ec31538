/**
 One hub as a step system: reserve, journal, settle, release, snapshot, crash and restart
 (src/distributed_tx.rs, src/persist.rs, src/state.rs). Only distributed transactions move balances.
 */
module Hub {
  import opened Prelude
  import opened SetSums
  import opened Transactions
  import opened Log
  import opened Ledger
  import opened HubLedger

  /**
   A process's coordinator sessions: `preparing` are those whose `prepare_origin` is running, `closed`
   those whose payment takes no more signatures, because it timed out (src/state.rs:3413-3421, 3765-3785) or
   because `prepare_origin` reported a failure and the caller failed it (src/api.rs:2156-2161).
   `lost` are participant transactions that gave up their reservation although their record is durable,
   because the append reported a failure (src/distributed_tx.rs:326-343, 1250-1259); once such a one is
   decided the mark outlives the process, until a snapshot that has it settled.
   */
  datatype Sessions = Sessions(preparing: set<TxId>, closed: set<TxId>, lost: set<TxId>)

  /**
   `log` and `saved` are on disk, `ledger` and `sessions` belong to the process: while the hub is not `up`
   they are what the crash left behind. The last three fields only remember history:
   how many commit decisions the snapshot has seen, every reservation live when it was taken, and
   which reservations stored in it have been held ever since.
   */
  datatype Hub = Hub(
    up: bool, log: Log, ledger: Ledger, sessions: Sessions,
    saved: Ledger, savedAt: nat, pledges: map<TxId, Terms>, kept: set<TxId>)

  datatype Step =
    | Reserve(tx: TxId, terms: Terms)
    | Append(record: Transaction)
    | Settle(tx: TxId)
    | Release(tx: TxId)
    | Abandon(tx: TxId)
    | Close(tx: TxId)
    | ReleaseUnacknowledged(tx: TxId)
    | Crash
    | Save(keep: set<TxId>)
    | Restart(order: seq<TxId>)

  // ----- recover_local -----

  /** One transaction of `recover_local`. */
  ghost function RecoverOne(l: Ledger, maxHops: nat, tx: Transaction): Result<Ledger, LedgerError> {
    var t := TermsOf(tx);
    if IsPrepared(tx.state) then Prepared(l, maxHops, tx.txId, t)
    else if HasCommitDecision(tx.state) then
      var prepared := Prepared(l, maxHops, tx.txId, t);
      Applied(if prepared.Ok? then prepared.value else l, tx.txId, t)
    else Ok(Released(l, tx.txId))
  }

  /** `recover_local` over the transactions in `list()` order; the first error stops the hub. */
  ghost function Recovered(l: Ledger, maxHops: nat, latest: Records, order: seq<TxId>): Result<Ledger, LedgerError>
    decreases order
  {
    if order == [] then Ok(l)
    else if order[0] !in latest then Recovered(l, maxHops, latest, order[1..])
    else
      var one := RecoverOne(l, maxHops, latest[order[0]]);
      if one.Err? then one else Recovered(one.value, maxHops, latest, order[1..])
  }

  // ----- steps -----

  /**
   A first record is written for terms that are reserved; `prepare_origin` finishes only in the process that
   began it.
   */
  ghost predicate CanAppend(h: Hub, maxHops: nat, tx: Transaction) {
    var latest := Latest(h.log);
    && h.up && MayFollow(Lookup(latest, tx.txId), tx)
    && (tx.txId !in latest && !HasAbortDecision(tx.state) ==>
          && tx.txId in h.ledger.reservations && h.ledger.reservations[tx.txId] == TermsOf(tx)
          && (tx.role.Participant? ==> |tx.localHops| <= maxHops))
    && (tx.txId in latest && latest[tx.txId].state.CoordinatorPreparing? && tx.state.CoordinatorPrepared? ==>
          tx.txId in h.sessions.preparing)
    && (tx.state.CoordinatorCommitDecided? ==> tx.txId !in h.sessions.closed)
  }

  function SessionsAfter(latest: Records, open: Sessions, tx: Transaction): Sessions {
    open.(preparing :=
            if !tx.state.CoordinatorPreparing? then open.preparing - {tx.txId}
            else if tx.txId in latest then open.preparing else open.preparing + {tx.txId},
          lost := if HasAbortDecision(tx.state) then open.lost - {tx.txId} else open.lost)
  }

  function Appended(h: Hub, tx: Transaction): Hub {
    h.(log := h.log + [tx],
       sessions := SessionsAfter(Latest(h.log), h.sessions, tx))
  }

  function Keep(reservations: map<TxId, Terms>, keep: set<TxId>): map<TxId, Terms> {
    map t | t in reservations && t in keep :: reservations[t]
  }

  ghost predicate Enabled(h: Hub, maxHops: nat, s: Step) {
    var latest := Latest(h.log);
    && (h.up <==> !s.Restart?)
    && match s
    case Reserve(tx, terms) =>
      && tx !in latest && tx !in h.ledger.reservations && tx !in h.ledger.applied
      && CheckShape(terms.hops, {}).None? && CheckHops(h.ledger, terms, terms.hops).None?
    case Append(record) => CanAppend(h, maxHops, record)
    case Settle(tx) =>
      && tx in latest && HasCommitDecision(latest[tx].state) && Applied(h.ledger, tx, TermsOf(latest[tx])).Ok?
    case Release(tx) =>
      tx !in latest || HasAbortDecision(latest[tx].state)
          || (latest[tx].state.CoordinatorPreparing? && tx !in h.sessions.preparing)
    case Abandon(tx) => true
    case Close(tx) => tx in latest
        && (latest[tx].state.CoordinatorPreparing? || latest[tx].state.CoordinatorPrepared?)
    case ReleaseUnacknowledged(tx) => tx in latest && latest[tx].state.ParticipantPrepared?
    case Crash => true
    case Save(keep) => forall t :: t in keep && t in latest ==> latest[t].role.Coordinator?
    case Restart(order) =>
      && IsListing(IndexOf(h.log), order) && |h.log| < U64_MAX
      && Recovered(h.saved, maxHops, latest, order).Ok?
  }

  function Decided(latest: Records, s: set<TxId>): set<TxId> {
    set t | t in s && t in latest && HasCommitDecision(latest[t].state)
  }

  ghost function Next(h: Hub, maxHops: nat, s: Step): Hub
    requires Enabled(h, maxHops, s)
  {
    match s
    case Reserve(tx, terms) => h.(ledger := h.ledger.(reservations := h.ledger.reservations[tx := terms]))
    case Append(record) => Appended(h, record)
    case Settle(tx) => h.(ledger := Applied(h.ledger, tx, TermsOf(Latest(h.log)[tx])).value)
    case Release(tx) => h.(ledger := Released(h.ledger, tx), kept := h.kept - {tx})
    case Abandon(tx) => h.(sessions := h.sessions.(preparing := h.sessions.preparing - {tx}))
    case Close(tx) =>
      h.(ledger := Released(h.ledger, tx), sessions := h.sessions.(closed := h.sessions.closed + {tx}),
         kept := h.kept - {tx})
    case ReleaseUnacknowledged(tx) =>
      h.(ledger := Released(h.ledger, tx), sessions := h.sessions.(lost := h.sessions.lost + {tx}),
         kept := h.kept - {tx})
    case Crash => h.(up := false)
    case Save(keep) =>
      h.(sessions := h.sessions.(lost := h.sessions.lost - h.ledger.applied),
         saved := h.ledger.(reservations := Keep(h.ledger.reservations, keep)),
         savedAt := |CommitOrder(h.log)|,
         pledges := h.ledger.reservations,
         kept := Keep(h.ledger.reservations, keep).Keys)
    case Restart(order) =>
      var l := Recovered(h.saved, maxHops, Latest(h.log), order).value;
      h.(up := true, ledger := l, sessions := Sessions({}, {}, Decided(Latest(h.log), h.sessions.lost)),
         kept := h.kept * (l.reservations.Keys + l.applied))
  }

  /** A hub that just registered its channels and saved them. */
  function Fresh(base: Channels): Hub {
    var l := Ledger(base, map[], {});
    Hub(true, [], l, Sessions({}, {}, {}), l, 0, map[], {})
  }

  // ----- the invariant -----

  /** Channels as registered: distinct parties, u64 totals, no settlement yet. */
  ghost predicate Registration(base: Channels) {
    Registered(base) && forall id :: id in base ==> base[id].lastSettle.None?
  }

  /** `order` lists the transactions with a commit decision. */
  ghost predicate Decides(latest: Records, order: seq<TxId>) {
    && Distinct(order)
    && (forall t :: t in order <==> t in latest && HasCommitDecision(latest[t].state))
    && (forall t :: t in latest ==> latest[t].txId == t)
  }

  /** The reservation of `t` must still be there. */
  predicate NeedsHold(latest: Records, applied: set<TxId>, open: Sessions, t: TxId) {
    t in latest && t !in open.lost && (
      || ((IsPrepared(latest[t].state) || t in open.preparing) && t !in open.closed)
      || (HasCommitDecision(latest[t].state) && t !in applied))
  }

  ghost predicate Shaped(reservations: map<TxId, Terms>) {
    forall t :: t in reservations ==> CheckShape(reservations[t].hops, {}).None?
  }

  /** Journaled terms that are not aborted are well-shaped and fit the hub's channels. */
  ghost predicate LiveTermsFit(base: Channels, latest: Records, maxHops: nat) {
    forall t :: t in latest && !HasAbortDecision(latest[t].state) ==>
      && Fits(base, TermsOf(latest[t])) && CheckShape(latest[t].localHops, {}).None?
      && (latest[t].role.Participant? ==> |latest[t].localHops| <= maxHops)
  }

  /** Needed reservations are there, lost ones are not, and a live transaction's is for its journaled terms. */
  ghost predicate HoldsKept(latest: Records, l: Ledger, open: Sessions) {
    && (forall t :: t in open.lost ==> t in l.applied || t !in l.reservations)
    && (forall t :: NeedsHold(latest, l.applied, open, t) ==> t in l.reservations)
    && (forall t :: t in l.reservations && t in latest && !HasAbortDecision(latest[t].state) ==>
          l.reservations[t] == TermsOf(latest[t]))
  }

  /** The running process, seen from its journal. */
  ghost predicate RunningInv(base: Channels, latest: Records, order: seq<TxId>, l: Ledger, open: Sessions) {
    && LedgerInv(base, latest, l) && Shaped(l.reservations)
    && l.applied <= Elements(order)
    && SessionsFit(latest, open)
    && HoldsKept(latest, l, open)
  }

  ghost predicate SessionsFit(latest: Records, open: Sessions) {
    && (forall t :: t in open.preparing ==> t in latest && latest[t].state.CoordinatorPreparing?)
    && (forall t :: t in open.lost ==> t in latest && latest[t].role.Participant? && !HasAbortDecision(latest[t].state))
    && (forall t :: t in open.closed ==>
         t in latest && latest[t].role.Coordinator? && !HasCommitDecision(latest[t].state))
  }

  /** Before the k-th decision the lane could pay it and still honour what the snapshot holds for later. */
  ghost predicate RoomAt(base: Channels, latest: Records, order: seq<TxId>, held: map<TxId, Terms>, k: nat, n: Lane)
    requires k < |order| && n.channel in base
  {
    order[k] in latest
    && BalanceAt(base, n) + Net(base, latest, Elements(order[..k]), n)
       >= Debit(base, TermsOf(latest[order[k]]), n) + DueOn(base, held, held.Keys - Elements(order[..k + 1]), n)
  }

  /** The snapshot and the reservations that were live when it was taken. */
  ghost predicate SnapshotInv(
      base: Channels, latest: Records, order: seq<TxId>, saved: Ledger, savedAt: nat, pledges: map<TxId, Terms>,
      lost: set<TxId>)
  {
    && savedAt <= |order|
    && LedgerInv(base, latest, saved) && Shaped(saved.reservations)
    && saved.applied <= Elements(order[..savedAt])
    && (forall t :: t in saved.reservations ==> t in pledges && pledges[t] == saved.reservations[t])
    && (forall n: Lane :: n.channel in base ==> DueOn(base, pledges, pledges.Keys, n) <= BalanceAt(saved.channels, n))
    && (forall t :: t in order[..savedAt] && t !in saved.applied && t !in lost ==>
          t in pledges && t in latest && pledges[t] == TermsOf(latest[t]))
  }

  /** What is known of snapshot reservations that were held ever since. */
  ghost predicate KeptInv(latest: Records, l: Ledger, held: map<TxId, Terms>, kept: set<TxId>) {
    && kept <= held.Keys
    && (forall t :: t in kept && t !in l.applied ==> t in l.reservations && l.reservations[t] == held[t])
    && (forall t :: t in kept && t in latest && !HasAbortDecision(latest[t].state) ==> held[t] == TermsOf(latest[t]))
  }

  ghost predicate RoomFrom(base: Channels, latest: Records, order: seq<TxId>, held: map<TxId, Terms>, from: nat) {
    forall k: nat, n: Lane :: from <= k < |order| && n.channel in base ==> RoomAt(base, latest, order, held, k, n)
  }

  /** No reservation stored in the snapshot has been released since. */
  ghost predicate NoneStale(h: Hub) {
    h.kept == h.saved.reservations.Keys
  }

  /** No prepared payment timed out or was failed in this process. */
  ghost predicate NoneClosed(latest: Records, open: Sessions) {
    forall t :: t in latest && IsPrepared(latest[t].state) ==> t !in open.closed
  }

  /** No reservation was lost, or its transaction was aborted or settled and saved since. */
  ghost predicate NoneLost(h: Hub) {
    h.sessions.lost == {}
  }

  ghost predicate NoneLostOf(order: seq<TxId>, open: Sessions) {
    forall t :: t in order ==> t !in open.lost
  }

  ghost predicate InvOver(base: Channels, maxHops: nat, latest: Records, order: seq<TxId>, h: Hub) {
    && Registration(base) && Decides(latest, order) && LiveTermsFit(base, latest, maxHops)
    && RunningInv(base, latest, order, h.ledger, h.sessions)
    && SnapshotInv(base, latest, order, h.saved, h.savedAt, h.pledges, h.sessions.lost)
    && KeptInv(latest, h.ledger, h.saved.reservations, h.kept)
    && (NoneStale(h) && NoneLostOf(order, h.sessions) ==>
         RoomFrom(base, latest, order, h.saved.reservations, h.savedAt))
  }

  ghost predicate HubInv(base: Channels, maxHops: nat, h: Hub) {
    ValidLog(h.log) && InvOver(base, maxHops, Latest(h.log), CommitOrder(h.log), h)
  }

  lemma FreshInv(base: Channels, maxHops: nat)
    requires Registration(base)
    ensures HubInv(base, maxHops, Fresh(base))
  {
    var h := Fresh(base);
    assert forall n: Lane :: Net(base, map[], {}, n) == 0;
    assert forall c: ChannelId, from: Address, a: Asset :: Held(map[], c, from, a) == 0;
    assert forall n: Lane :: n.channel in base ==> DueOn(base, map[], {}, n) == 0;
    assert LedgerInv(base, map[], h.ledger);
  }

  // ----- every step keeps it -----

  lemma ReserveRunning(
      base: Channels, latest: Records, order: seq<TxId>, l: Ledger, open: Sessions, tx: TxId, terms: Terms)
    requires RunningInv(base, latest, order, l, open)
    requires tx !in latest && tx !in l.reservations && tx !in l.applied
    requires CheckShape(terms.hops, {}).None? && CheckHops(l, terms, terms.hops).None?
    ensures RunningInv(base, latest, order, l.(reservations := l.reservations[tx := terms]), open)
  {
    ReserveKeepsInv(base, latest, l, tx, terms);
  }

  lemma ReserveInv(base: Channels, maxHops: nat, latest: Records, order: seq<TxId>, h: Hub, tx: TxId, terms: Terms)
    requires InvOver(base, maxHops, latest, order, h)
    requires tx !in latest && tx !in h.ledger.reservations && tx !in h.ledger.applied
    requires CheckShape(terms.hops, {}).None? && CheckHops(h.ledger, terms, terms.hops).None?
    ensures InvOver(base, maxHops, latest, order,
                    h.(ledger := h.ledger.(reservations := h.ledger.reservations[tx := terms])))
  {
    ReserveRunning(base, latest, order, h.ledger, h.sessions, tx, terms);
    KeptWithMore(latest, h.ledger, h.saved.reservations, h.kept, tx, terms);
  }

  lemma KeptWithMore(latest: Records, l: Ledger, held: map<TxId, Terms>, kept: set<TxId>, tx: TxId, terms: Terms)
    requires KeptInv(latest, l, held, kept) && tx !in l.reservations && tx !in l.applied
    ensures KeptInv(latest, l.(reservations := l.reservations[tx := terms]), held, kept)
  {
  }

  lemma ReleaseInv(base: Channels, maxHops: nat, latest: Records, order: seq<TxId>, h: Hub, tx: TxId)
    requires InvOver(base, maxHops, latest, order, h)
    requires !NeedsHold(latest, h.ledger.applied, h.sessions, tx)
    ensures InvOver(base, maxHops, latest, order, h.(ledger := Released(h.ledger, tx), kept := h.kept - {tx}))
  {
    ReleaseKeepsInv(base, latest, h.ledger, tx);
    var h' := h.(ledger := Released(h.ledger, tx), kept := h.kept - {tx});
    assert NoneStale(h') ==> NoneStale(h);
  }

  lemma SettleRunning(base: Channels, latest: Records, order: seq<TxId>, l: Ledger, open: Sessions, tx: TxId)
    requires RunningInv(base, latest, order, l, open) && Decides(latest, order)
    requires tx in order && Applied(l, tx, TermsOf(latest[tx])).Ok?
    ensures var after := Applied(l, tx, TermsOf(latest[tx])).value;
            && RunningInv(base, latest, order, after, open)
            && after.applied == l.applied + {tx} && after.reservations == l.reservations - {tx}
  {
    AppliedKeepsInv(base, latest, l, tx);
  }

  lemma SettleInv(base: Channels, maxHops: nat, latest: Records, order: seq<TxId>, h: Hub, tx: TxId)
    requires InvOver(base, maxHops, latest, order, h)
    requires tx in order && Applied(h.ledger, tx, TermsOf(latest[tx])).Ok?
    ensures InvOver(base, maxHops, latest, order, h.(ledger := Applied(h.ledger, tx, TermsOf(latest[tx])).value))
  {
    SettleRunning(base, latest, order, h.ledger, h.sessions, tx);
    var after := Applied(h.ledger, tx, TermsOf(latest[tx])).value;
    assert KeptInv(latest, after, h.saved.reservations, h.kept);
  }

  lemma CoveredInBase(base: Channels, latest: Records, l: Ledger, n: Lane)
    requires LedgerInv(base, latest, l) && n.channel in base
    ensures DueOn(base, l.reservations, l.reservations.Keys, n) <= BalanceAt(l.channels, n)
  {
    assert HeldAt(l.channels, l.reservations, n) <= BalanceAt(l.channels, n);
  }

  lemma KeepingFewer(base: Channels, latest: Records, l: Ledger, keep: set<TxId>)
    requires LedgerInv(base, latest, l)
    ensures LedgerInv(base, latest, l.(reservations := Keep(l.reservations, keep)))
  {
    var fewer := Keep(l.reservations, keep);
    forall n: Lane | n.channel in l.channels ensures HeldAt(l.channels, fewer, n) <= BalanceAt(l.channels, n) {
      HeldMonotone(fewer, l.reservations, n.channel, SenderAt(l.channels, n), n.asset);
      assert HeldAt(l.channels, l.reservations, n) <= BalanceAt(l.channels, n);
    }
  }

  lemma SavedSessions(base: Channels, latest: Records, order: seq<TxId>, l: Ledger, open: Sessions)
    requires RunningInv(base, latest, order, l, open) && Decides(latest, order)
    ensures RunningInv(base, latest, order, l, open.(lost := open.lost - l.applied))
  {
    var fewer := open.(lost := open.lost - l.applied);
    forall t | NeedsHold(latest, l.applied, fewer, t) ensures t in l.reservations {
      assert t in l.applied ==> t in order;
      assert NeedsHold(latest, l.applied, open, t);
    }
  }

  lemma SaveInv(base: Channels, maxHops: nat, latest: Records, order: seq<TxId>, h: Hub, keep: set<TxId>)
    requires InvOver(base, maxHops, latest, order, h)
    ensures InvOver(base, maxHops, latest, order,
                    h.(sessions := h.sessions.(lost := h.sessions.lost - h.ledger.applied),
                       saved := h.ledger.(reservations := Keep(h.ledger.reservations, keep)), savedAt := |order|,
                       pledges := h.ledger.reservations, kept := Keep(h.ledger.reservations, keep).Keys))
  {
    assert order[..|order|] == order;
    KeepingFewer(base, latest, h.ledger, keep);
    forall n: Lane | n.channel in base
      ensures DueOn(base, h.ledger.reservations, h.ledger.reservations.Keys, n) <= BalanceAt(h.ledger.channels, n)
    {
      CoveredInBase(base, latest, h.ledger, n);
    }
    assert forall t :: t in order && t !in h.ledger.applied && t !in h.sessions.lost ==>
        NeedsHold(latest, h.ledger.applied, h.sessions, t);
    SavedSessions(base, latest, order, h.ledger, h.sessions);
  }

  // ----- appending a record -----

  /** What an accepted record may be, in terms of the newest records. */
  ghost predicate Follows(latest: Records, tx: Transaction) {
    && (tx.txId in latest ==>
          SameImmutableFields(latest[tx.txId], tx) && StateMayFollow(latest[tx.txId].state, tx.state))
    && RoleMatchesState(tx)
    && (tx.txId !in latest ==> IsInitialState(tx.state))
  }

  lemma AcceptedFollows(latest: Records, tx: Transaction)
    requires MayFollow(Lookup(latest, tx.txId), tx)
    ensures Follows(latest, tx)
  {
  }

  function OrderAfter(order: seq<TxId>, tx: Transaction): seq<TxId> {
    if HasCommitDecision(tx.state) && tx.txId !in order then order + [tx.txId] else order
  }

  lemma OrderStaysDecided(latest: Records, order: seq<TxId>, tx: Transaction)
    requires Decides(latest, order) && Follows(latest, tx)
    ensures Decides(latest[tx.txId := tx], OrderAfter(order, tx))
    ensures order <= OrderAfter(order, tx)
  {
  }

  lemma TermsAreFixed(latest: Records, tx: Transaction)
    requires Follows(latest, tx)
    ensures forall u :: u in latest ==> TermsOf(latest[tx.txId := tx][u]) == TermsOf(latest[u])
  {
  }

  /** The guards of `CanAppend`. */
  ghost predicate Guarded(latest: Records, l: Ledger, open: Sessions, maxHops: nat, tx: Transaction) {
    && (tx.txId !in latest && !HasAbortDecision(tx.state) ==>
          && tx.txId in l.reservations && l.reservations[tx.txId] == TermsOf(tx)
          && (tx.role.Participant? ==> |tx.localHops| <= maxHops))
    && (tx.txId in latest && latest[tx.txId].state.CoordinatorPreparing? && tx.state.CoordinatorPrepared? ==>
          tx.txId in open.preparing)
    && (tx.state.CoordinatorCommitDecided? ==> tx.txId !in open.closed)
  }

  lemma AppendFits(
      base: Channels, maxHops: nat, latest: Records, order: seq<TxId>, l: Ledger, open: Sessions, tx: Transaction)
    requires LiveTermsFit(base, latest, maxHops) && RunningInv(base, latest, order, l, open)
    requires Follows(latest, tx) && Guarded(latest, l, open, maxHops, tx)
    ensures LiveTermsFit(base, latest[tx.txId := tx], maxHops)
  {
  }

  lemma AppendHolds(latest: Records, order: seq<TxId>, l: Ledger, open: Sessions, maxHops: nat, tx: Transaction)
    requires Decides(latest, order) && l.applied <= Elements(order)
    requires HoldsKept(latest, l, open) && Follows(latest, tx) && Guarded(latest, l, open, maxHops, tx)
    requires SessionsFit(latest, open) && RoleMatchesState(tx)
    ensures HoldsKept(latest[tx.txId := tx], l, SessionsAfter(latest, open, tx))
    ensures SessionsFit(latest[tx.txId := tx], SessionsAfter(latest, open, tx))
  {
    var more, open' := latest[tx.txId := tx], SessionsAfter(latest, open, tx);
    forall t | NeedsHold(more, l.applied, open', t) ensures t in l.reservations {
      if t == tx.txId && t in latest {
        assert NeedsHold(latest, l.applied, open, t);
      }
    }
  }

  lemma AppendRunning(
      base: Channels, maxHops: nat, latest: Records, order: seq<TxId>, l: Ledger, open: Sessions, tx: Transaction)
    requires RunningInv(base, latest, order, l, open) && Decides(latest, order)
    requires Follows(latest, tx) && Guarded(latest, l, open, maxHops, tx)
    ensures RunningInv(base, latest[tx.txId := tx], OrderAfter(order, tx), l, SessionsAfter(latest, open, tx))
  {
    TermsAreFixed(latest, tx);
    NewRecordKeepsInv(base, latest, latest[tx.txId := tx], l);
    AppendHolds(latest, order, l, open, maxHops, tx);
    OrderStaysDecided(latest, order, tx);
  }

  lemma AppendSnapshot(
      base: Channels, latest: Records, order: seq<TxId>, saved: Ledger, savedAt: nat, pledges: map<TxId, Terms>,
      open: Sessions, tx: Transaction)
    requires SnapshotInv(base, latest, order, saved, savedAt, pledges, open.lost) && Decides(latest, order)
    requires Follows(latest, tx)
    ensures SnapshotInv(base, latest[tx.txId := tx], OrderAfter(order, tx), saved, savedAt, pledges,
                        SessionsAfter(latest, open, tx).lost)
  {
    TermsAreFixed(latest, tx);
    NewRecordKeepsInv(base, latest, latest[tx.txId := tx], saved);
    OrderStaysDecided(latest, order, tx);
    assert OrderAfter(order, tx)[..savedAt] == order[..savedAt];
  }

  lemma AppendKept(
      latest: Records, l: Ledger, held: map<TxId, Terms>, kept: set<TxId>, open: Sessions, maxHops: nat,
      tx: Transaction)
    requires KeptInv(latest, l, held, kept) && l.applied <= latest.Keys
    requires Follows(latest, tx) && Guarded(latest, l, open, maxHops, tx)
    ensures KeptInv(latest[tx.txId := tx], l, held, kept)
  {
    TermsAreFixed(latest, tx);
  }

  lemma DecidedAreReserved(base: Channels, latest: Records, order: seq<TxId>, l: Ledger, open: Sessions)
    requires RunningInv(base, latest, order, l, open) && Decides(latest, order)
    ensures forall t :: t in order && t !in l.applied && t !in open.lost ==>
              t in l.reservations && t in latest && SamePayment(l.reservations[t], TermsOf(latest[t]))
  {
    forall t | t in order && t !in l.applied && t !in open.lost
      ensures t in l.reservations && t in latest && SamePayment(l.reservations[t], TermsOf(latest[t]))
    {
      assert NeedsHold(latest, l.applied, open, t);
    }
  }

  lemma RoomOnceDecided(base: Channels, latest: Records, order: seq<TxId>, l: Ledger, rest: set<TxId>, n: Lane)
    requires Balanced(base, latest, l.channels, l.applied) && SameParties(base, l.channels)
    requires l.applied <= Elements(order) && n.channel in base
    requires DueOn(base, l.reservations, l.reservations.Keys, n) <= BalanceAt(l.channels, n)
    requires forall t :: t in order && t !in l.applied ==>
               t in l.reservations && t in latest && SamePayment(l.reservations[t], TermsOf(latest[t]))
    requires rest <= l.reservations.Keys && rest !! Elements(order)
    ensures BalanceAt(base, n) + Net(base, latest, Elements(order), n) >= DueOn(base, l.reservations, rest, n)
  {
    var settled := Elements(order) - l.applied;
    RoomAfterSettling(base, latest, l.channels, l.applied, l.reservations, settled, rest, n);
    assert l.applied + settled == Elements(order);
  }

  /** Live reservations outside `order` stay covered after every decided transaction has settled. */
  lemma RunningRoom(
      base: Channels, latest: Records, order: seq<TxId>, l: Ledger, open: Sessions, rest: set<TxId>, n: Lane)
    requires RunningInv(base, latest, order, l, open) && Decides(latest, order) && NoneLostOf(order, open)
    requires rest <= l.reservations.Keys && rest !! Elements(order) && n.channel in base
    ensures BalanceAt(base, n) + Net(base, latest, Elements(order), n) >= DueOn(base, l.reservations, rest, n)
  {
    DecidedAreReserved(base, latest, order, l, open);
    CoveredInBase(base, latest, l, n);
    RoomOnceDecided(base, latest, order, l, rest, n);
  }

  lemma DueWithOneMore(
      base: Channels, reservations: map<TxId, Terms>, held: map<TxId, Terms>, later: set<TxId>, t: TxId, n: Lane)
    requires n.channel in base && t !in later && t in reservations
    requires forall u :: u in later ==> u in held && u in reservations && reservations[u] == held[u]
    ensures DueOn(base, reservations, later + {t}, n) == Debit(base, reservations[t], n) + DueOn(base, held, later, n)
  {
    var from := SenderAt(base, n);
    SumAdd(later, DueIn(reservations, n.channel, from, n.asset), t);
    SumCongruent(later, DueIn(reservations, n.channel, from, n.asset), DueIn(held, n.channel, from, n.asset));
  }

  /** Reservations stored in the snapshot and held ever since are live until they are decided. */
  lemma KeptAreReserved(latest: Records, order: seq<TxId>, l: Ledger, held: map<TxId, Terms>)
    requires KeptInv(latest, l, held, held.Keys) && l.applied <= Elements(order)
    ensures forall u :: u in held && u !in Elements(order) ==> u in l.reservations && l.reservations[u] == held[u]
  {
  }

  /** After all decided transactions settled, every lane still covers any set of other live reservations. */
  ghost predicate Roomy(base: Channels, latest: Records, order: seq<TxId>, reservations: map<TxId, Terms>) {
    forall rest: set<TxId>, n: Lane :: rest <= reservations.Keys && rest !! Elements(order) && n.channel in base ==>
      BalanceAt(base, n) + Net(base, latest, Elements(order), n) >= DueOn(base, reservations, rest, n)
  }

  lemma RunningIsRoomy(base: Channels, latest: Records, order: seq<TxId>, l: Ledger, open: Sessions)
    requires RunningInv(base, latest, order, l, open) && Decides(latest, order) && NoneLostOf(order, open)
    ensures Roomy(base, latest, order, l.reservations)
  {
    forall rest: set<TxId>, n: Lane | rest <= l.reservations.Keys && rest !! Elements(order) && n.channel in base
      ensures BalanceAt(base, n) + Net(base, latest, Elements(order), n) >= DueOn(base, l.reservations, rest, n)
    {
      RunningRoom(base, latest, order, l, open, rest, n);
    }
  }

  /** A decision is taken with room for it and for everything the snapshot holds for later. */
  lemma DecisionHasRoom(
      base: Channels, latest: Records, order: seq<TxId>, reservations: map<TxId, Terms>, held: map<TxId, Terms>,
      t: TxId, n: Lane)
    requires Roomy(base, latest, order, reservations) && n.channel in base
    requires forall u :: u in held && u !in Elements(order) ==> u in reservations && reservations[u] == held[u]
    requires t in latest && t in reservations && reservations[t] == TermsOf(latest[t]) && t !in Elements(order)
    ensures BalanceAt(base, n) + Net(base, latest, Elements(order), n)
            >= Debit(base, TermsOf(latest[t]), n) + DueOn(base, held, held.Keys - Elements(order) - {t}, n)
  {
    var later := held.Keys - Elements(order) - {t};
    assert later + {t} <= reservations.Keys && later + {t} !! Elements(order);
    DueWithOneMore(base, reservations, held, later, t, n);
  }

  lemma PreparedIsReserved(base: Channels, latest: Records, order: seq<TxId>, l: Ledger, open: Sessions, t: TxId)
    requires RunningInv(base, latest, order, l, open) && Decides(latest, order)
    requires t in latest && IsPrepared(latest[t].state) && t !in open.closed && t !in open.lost
    ensures t in l.reservations && l.reservations[t] == TermsOf(latest[t]) && t !in Elements(order)
  {
    assert NeedsHold(latest, l.applied, open, t);
  }

  lemma OldDecisionKeepsRoom(
      base: Channels, latest: Records, more: Records, order: seq<TxId>, order': seq<TxId>, held: map<TxId, Terms>,
      k: nat, n: Lane)
    requires k < |order| && order <= order' && n.channel in base && RoomAt(base, latest, order, held, k, n)
    requires forall u :: u in order ==> u in latest && u in more && TermsOf(more[u]) == TermsOf(latest[u])
    ensures RoomAt(base, more, order', held, k, n)
  {
    assert order'[..k] == order[..k] && order'[..k + 1] == order[..k + 1] && order'[k] == order[k];
    assert order[k] in order;
    SumCongruent(Elements(order[..k]), DeltaIn(base, more, n), DeltaIn(base, latest, n)) by {
      assert forall u :: u in Elements(order[..k]) ==> u in order;
    }
  }

  lemma NewDecisionHasRoom(
      base: Channels, latest: Records, more: Records, order: seq<TxId>, reservations: map<TxId, Terms>,
      held: map<TxId, Terms>, t: TxId, n: Lane)
    requires Roomy(base, latest, order, reservations) && n.channel in base
    requires forall u :: u in held && u !in Elements(order) ==> u in reservations && reservations[u] == held[u]
    requires t in latest && t in reservations && reservations[t] == TermsOf(latest[t]) && t !in Elements(order)
    requires forall u :: u in latest ==> u in more && TermsOf(more[u]) == TermsOf(latest[u])
    requires forall u :: u in order ==> u in latest
    ensures RoomAt(base, more, order + [t], held, |order|, n)
  {
    DecisionHasRoom(base, latest, order, reservations, held, t, n);
    var order' := order + [t];
    assert order'[..|order|] == order && order'[..|order| + 1] == order + [t];
    assert held.Keys - Elements(order + [t]) == held.Keys - Elements(order) - {t};
    SumCongruent(Elements(order), DeltaIn(base, more, n), DeltaIn(base, latest, n));
  }

  lemma RoomWithNewOrder(
      base: Channels, latest: Records, more: Records, order: seq<TxId>, reservations: map<TxId, Terms>,
      held: map<TxId, Terms>, from: nat, tx: Transaction)
    requires Roomy(base, latest, order, reservations) && RoomFrom(base, latest, order, held, from)
    requires forall u :: u in held && u !in Elements(order) ==> u in reservations && reservations[u] == held[u]
    requires HasCommitDecision(tx.state) && tx.txId !in order ==>
               && tx.txId in latest && tx.txId in reservations
               && reservations[tx.txId] == TermsOf(latest[tx.txId])
    requires forall u :: u in latest ==> u in more && TermsOf(more[u]) == TermsOf(latest[u])
    requires forall u :: u in order ==> u in latest
    ensures RoomFrom(base, more, OrderAfter(order, tx), held, from)
  {
    var order' := OrderAfter(order, tx);
    forall k: nat, n: Lane | from <= k < |order'| && n.channel in base ensures RoomAt(base, more, order', held, k, n) {
      if k < |order| {
        assert RoomAt(base, latest, order, held, k, n);
        OldDecisionKeepsRoom(base, latest, more, order, order', held, k, n);
      } else {
        NewDecisionHasRoom(base, latest, more, order, reservations, held, tx.txId, n);
      }
    }
  }

  /** Only an open session's transaction is decided. */
  lemma DeciderIsOpen(latest: Records, order: seq<TxId>, l: Ledger, open: Sessions, maxHops: nat, tx: Transaction)
    requires Decides(latest, order) && SessionsFit(latest, open)
    requires Follows(latest, tx) && Guarded(latest, l, open, maxHops, tx)
    requires HasCommitDecision(tx.state) && tx.txId !in order
    ensures tx.txId in latest && IsPrepared(latest[tx.txId].state) && tx.txId !in open.closed
  {
  }

  /** An append loses nothing, and takes the mark off an aborted transaction only. */
  lemma StillNoneLost(latest: Records, order: seq<TxId>, open: Sessions, tx: Transaction)
    requires Decides(latest, order) && Follows(latest, tx)
    requires NoneLostOf(OrderAfter(order, tx), SessionsAfter(latest, open, tx))
    ensures NoneLostOf(order, open)
    ensures HasCommitDecision(tx.state) && tx.txId !in order ==> tx.txId !in open.lost
  {
  }

  lemma AppendRoom(
      base: Channels, latest: Records, order: seq<TxId>, l: Ledger, open: Sessions, maxHops: nat,
      held: map<TxId, Terms>, from: nat, tx: Transaction)
    requires RunningInv(base, latest, order, l, open) && Decides(latest, order)
    requires KeptInv(latest, l, held, held.Keys) && Follows(latest, tx) && Guarded(latest, l, open, maxHops, tx)
    requires RoomFrom(base, latest, order, held, from)
    requires NoneLostOf(OrderAfter(order, tx), SessionsAfter(latest, open, tx))
    ensures RoomFrom(base, latest[tx.txId := tx], OrderAfter(order, tx), held, from)
  {
    StillNoneLost(latest, order, open, tx);
    TermsAreFixed(latest, tx);
    RunningIsRoomy(base, latest, order, l, open);
    KeptAreReserved(latest, order, l, held);
    if HasCommitDecision(tx.state) && tx.txId !in order {
      DeciderIsOpen(latest, order, l, open, maxHops, tx);
      PreparedIsReserved(base, latest, order, l, open, tx.txId);
    }
    RoomWithNewOrder(base, latest, latest[tx.txId := tx], order, l.reservations, held, from, tx);
  }

  lemma AppendInv(base: Channels, maxHops: nat, latest: Records, order: seq<TxId>, h: Hub, log: Log, tx: Transaction)
    requires InvOver(base, maxHops, latest, order, h)
    requires Follows(latest, tx) && Guarded(latest, h.ledger, h.sessions, maxHops, tx)
    ensures InvOver(base, maxHops, latest[tx.txId := tx], OrderAfter(order, tx),
                    h.(log := log, sessions := SessionsAfter(latest, h.sessions, tx)))
  {
    OrderStaysDecided(latest, order, tx);
    AppendFits(base, maxHops, latest, order, h.ledger, h.sessions, tx);
    AppendRunning(base, maxHops, latest, order, h.ledger, h.sessions, tx);
    AppendSnapshot(base, latest, order, h.saved, h.savedAt, h.pledges, h.sessions, tx);
    AppendKept(latest, h.ledger, h.saved.reservations, h.kept, h.sessions, maxHops, tx);
    if NoneStale(h) && NoneLostOf(OrderAfter(order, tx), SessionsAfter(latest, h.sessions, tx)) {
      StillNoneLost(latest, order, h.sessions, tx);
      AppendRoom(base, latest, order, h.ledger, h.sessions, maxHops, h.saved.reservations, h.savedAt, tx);
    }
  }
}
