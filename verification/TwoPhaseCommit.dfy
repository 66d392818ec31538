/**
 The cross-hub two-phase commit as a step system over the hubs' journals and every message ever sent
 (src/distributed_tx.rs:774-1343). A message may be delivered any number of times, in any order, or
 never; a crash between two steps loses nothing this state holds. That an expired prepare is refused is
 left to the handler: here such a request may also be handled.
 */
module TwoPhaseCommit {
  import opened Prelude
  import opened Transactions
  import opened Log
  import opened Descriptors
  import Amounts

  datatype Phase = PreparePhase | CommitPhase | AbortPhase

  /** A request signed by the coordinator its descriptor names. */
  datatype Request = Request(phase: Phase, descriptor: Descriptor, signatures: seq<Signature>)

  /** An acknowledgement signed by the hub `provider`; only successful handling is ever signed. */
  datatype Response = Response(
    phase: Phase, txId: TxId, descriptorHash: Digest, provider: Provider, coordinator: Provider, state: TxState)

  datatype Wire = Wire(logs: map<Provider, Log>, requests: set<Request>, responses: set<Response>)

  type Territory = map<Provider, set<ChannelId>>

  // ----- the participant: handle_participant_request -----

  /** `verify_request` without identities and clocks. */
  function CheckRequest(channels: set<ChannelId>, r: Request): Option<DescriptorError> {
    var d := r.descriptor;
    if CheckPayment(d).Some? then CheckPayment(d)
    else if CheckCoverage(channels, d).Some? then CheckCoverage(channels, d)
    else if CheckAuthorization(r.phase.CommitPhase?, r.signatures, d.payment.requiredSigners).Some?
    then CheckAuthorization(r.phase.CommitPhase?, r.signatures, d.payment.requiredSigners)
    else if d.coordinator == d.participant then Some(CoordinatorIsParticipant)
    else if !IsHash(d.paymentHash) then Some(PaymentHashMismatch)
    else if d.hops == [] || |d.hops| > MAX_ROUTE then Some(BadHopCount)
    else None
  }

  /**
   A request passes exactly if its descriptor is that of a payment its users signed, describes the hops over this
   hub's channels and no others, comes from another hub, and carries all signatures if it is to commit.
   */
  lemma RequestIff(channels: set<ChannelId>, r: Request)
    ensures CheckRequest(channels, r).None? <==>
            var d := r.descriptor;
            && CheckPayment(d).None? && d.coordinator != d.participant && d.hops != []
            && 1 <= |d.payment.route| <= 32 && |d.payment.requiredSigners| == |d.payment.route| + 1
            && (forall i :: 0 <= i < |d.payment.route| ==>
                 (Owns(channels, d.payment.route[i]) <==> PathHop(d.payment, i) in d.hops))
            && (if r.phase == CommitPhase then
                  && |r.signatures| == |d.payment.requiredSigners|
                  && forall i :: 0 <= i < |d.payment.requiredSigners| ==>
                       SignsFirst(r.signatures, Signature(d.payment.requiredSigners[i], i))
                else r.signatures == [])
  {
    var d := r.descriptor;
    AuthorizedIff(r.phase.CommitPhase?, r.signatures, d.payment.requiredSigners);
    if CheckPayment(d).None? {
      DescriptorIsSound(d);
      CoverageIff(channels, d);
      HopsFitRoute(d.payment, d.hops);
    }
  }

  lemma HopsFitRoute(p: PaymentCommit, hops: seq<Hop>)
    requires SimplePath(p) && DistinctChannels(hops) && forall h :: h in hops ==> IsPathHop(p, h)
    ensures |hops| <= MAX_ROUTE
  {
    var ids := seq(|hops|, k requires 0 <= k < |hops| => hops[k].channelId);
    forall k | 0 <= k < |hops| ensures ids[k] in Elements(p.route) {
      assert hops[k] in hops;
      var i: nat :| i < |p.route| && hops[k] == PathHop(p, i);
      assert p.route[i] in p.route;
    }
    DistinctFits(ids, Elements(p.route));
    ElementsAtMost(p.route);
  }

  lemma {:induction false} DistinctFits(s: seq<ChannelId>, all: set<ChannelId>)
    requires Distinct(s) && forall k :: 0 <= k < |s| ==> s[k] in all
    ensures |s| <= |all|
    decreases s
  {
    if s != [] {
      var n := |s| - 1;
      DistinctFits(s[..n], all - {s[n]});
    }
  }

  lemma {:induction false} ElementsAtMost(s: seq<ChannelId>)
    ensures |Elements(s)| <= |s|
    decreases s
  {
    if s == [] {
      assert Elements(s) == {};
    } else {
      var n := |s| - 1;
      ElementsAtMost(s[..n]);
      ElementsOfTake(s, n);
      assert s[..n + 1] == s;
    }
  }

  /** The participant's first record for a descriptor. */
  function FirstRecord(d: Descriptor, state: TxState, now: nat): Transaction {
    Transaction(d.txId, Participant, state, d.coordinator, d.coordinatorUrl, d.paymentHash, d.amountZhu,
                d.amountSatoshi, d.expiresUnix, d.hops, [], None, None, now, now, "")
  }

  /** `validate_existing_descriptor`. */
  predicate Matches(tx: Transaction, d: Descriptor) {
    && tx.role.Participant?
    && Descriptor(tx.txId, tx.coordinator, tx.coordinatorUrl, d.participant, d.payment, tx.paymentHash, tx.amountZhu,
                  tx.amountSatoshi, tx.expiresUnix, tx.localHops) == d
  }

  /** The next record a verified request makes the participant append; None if there is none. */
  function NextRecord(existing: Option<Transaction>, r: Request, now: nat): Option<Transaction> {
    if existing.None? then
      match r.phase
      case PreparePhase => Some(FirstRecord(r.descriptor, ParticipantPrepared, now))
      case CommitPhase => None
      case AbortPhase => Some(FirstRecord(r.descriptor, ParticipantAborted, now))
    else if !Matches(existing.value, r.descriptor) then None
    else
      var tx := existing.value;
      match r.phase
      case PreparePhase => None
      case CommitPhase =>
        if tx.state.ParticipantPrepared? then Some(tx.(state := ParticipantCommitDecided, updatedUnix := now))
        else if tx.state.ParticipantCommitDecided? then
          Some(tx.(state := ParticipantCommitted, lastError := "", updatedUnix := now))
        else None
      case AbortPhase =>
        if tx.state.ParticipantPrepared? then Some(tx.(state := ParticipantAborted, updatedUnix := now)) else None
  }

  /** The state the participant acknowledges without appending anything; None while it has none to acknowledge. */
  function ReplyState(existing: Option<Transaction>, r: Request): Option<TxState> {
    if existing.None? || !Matches(existing.value, r.descriptor) then None
    else
      var state := existing.value.state;
      var acknowledged := match r.phase
        case PreparePhase => state.ParticipantPrepared? || state.ParticipantCommitted?
        case CommitPhase => state.ParticipantCommitted?
        case AbortPhase => state.ParticipantAborted?;
      if acknowledged then Some(state) else None
  }

  function ResponseTo(r: Request, state: TxState): Response {
    Response(r.phase, r.descriptor.txId, DescriptorDigest(r.descriptor), r.descriptor.participant,
             r.descriptor.coordinator, state)
  }

  // ----- the coordinator: prepare_origin, commit_origin_locked, abort_origin -----

  /** One hub per route channel, one address more than channels. */
  predicate Assigned(c: PaymentCommit, owners: seq<Provider>) {
    |owners| == |c.route| && |c.requiredSigners| == |c.route| + 1
  }

  /** Path hops whose channel is assigned to `provider`, in path order. */
  function HopsOwned(c: PaymentCommit, owners: seq<Provider>, provider: Provider, from: nat): seq<Hop>
    requires Assigned(c, owners) && from <= |c.route|
    decreases |c.route| - from
  {
    if from == |c.route| then []
    else (if owners[from] == provider then [PathHop(c, from)] else []) + HopsOwned(c, owners, provider, from + 1)
  }

  /** What `create_payment` and `build_participants` put into the first coordinator record of `p`. */
  ghost predicate Begun(p: Provider, tx: Transaction, owners: seq<Provider>) {
    && tx.role.Coordinator? && tx.coordinator == p && tx.participants != []
    && var c := tx.participants[0].descriptor.payment;
    && c.sessionId == tx.txId && c.providerId == p && tx.paymentHash == PaymentDigest(c)
    && Amounts.Parsed(c.amountHac) == Ok(tx.amountZhu) && c.amountSatoshi == tx.amountSatoshi
    && Assigned(c, owners)
    && tx.localHops == HopsOwned(c, owners, p, 0)
    && (forall i :: 0 <= i < |tx.participants| ==>
          var d := tx.participants[i].descriptor;
          && d == Descriptor(tx.txId, p, tx.coordinatorUrl, d.participant, c, tx.paymentHash, tx.amountZhu,
                             tx.amountSatoshi, tx.expiresUnix, HopsOwned(c, owners, d.participant, 0))
          && d.participant in owners && d.participant != p)
    && (forall i, j :: 0 <= i < j < |tx.participants| ==>
          tx.participants[i].descriptor.participant != tx.participants[j].descriptor.participant)
    && (forall o :: o in owners && o != p ==>
         exists i :: 0 <= i < |tx.participants| && tx.participants[i].descriptor.participant == o)
  }

  function FlagsOf(e: ParticipantEntry): (bool, bool, bool) {
    (e.prepared, e.committed, e.aborted)
  }

  /** `send_phase` and the prepare loop accept exactly the state the phase asks for. */
  function Expected(phase: Phase): TxState {
    match phase
    case PreparePhase => ParticipantPrepared
    case CommitPhase => ParticipantCommitted
    case AbortPhase => ParticipantAborted
  }

  /** The response `verify_response` accepts for a request about `d`. */
  function Acknowledgement(phase: Phase, d: Descriptor): Response {
    ResponseTo(Request(phase, d, []), Expected(phase))
  }

  /** One entry may change only as an acknowledgement allows. */
  ghost predicate EntryMay(responses: set<Response>, state: TxState, a: ParticipantEntry, b: ParticipantEntry) {
    && (b.prepared && !a.prepared ==>
         state.CoordinatorPreparing? && Acknowledgement(PreparePhase, a.descriptor) in responses)
    && (b.committed && !a.committed ==>
         state.CoordinatorCommitDecided? && Acknowledgement(CommitPhase, a.descriptor) in responses)
    && (b.aborted && !a.aborted ==>
         state.CoordinatorAbortDecided? && Acknowledgement(AbortPhase, a.descriptor) in responses)
  }

  predicate AllPrepared(tx: Transaction) { forall i :: 0 <= i < |tx.participants| ==> tx.participants[i].prepared }

  predicate AllCommitted(tx: Transaction) { forall i :: 0 <= i < |tx.participants| ==> tx.participants[i].committed }

  predicate AllAborted(tx: Transaction) { forall i :: 0 <= i < |tx.participants| ==> tx.participants[i].aborted }

  /** The payment session `hub.get_payment` returns for a coordinator record: `add_signature` keeps it in order. */
  ghost predicate SessionFits(tx: Transaction) {
    && tx.payment.Some? && tx.participants != []
    && tx.payment.value.requiredSigners == tx.participants[0].descriptor.payment.requiredSigners
    && SignedInOrder(tx.payment.value.signatures, tx.payment.value.requiredSigners)
  }

  /** The coordinator's next record: an acknowledgement recorded, a phase finished, or a decision. */
  ghost predicate CoordinatorMay(responses: set<Response>, a: Transaction, b: Transaction) {
    && |a.participants| == |b.participants|
    && (b.payment == a.payment || (a.state.CoordinatorPrepared? && b.state.CoordinatorCommitDecided?)) && SessionFits(b)
    && (forall i :: 0 <= i < |a.participants| ==> EntryMay(responses, a.state, a.participants[i], b.participants[i]))
    && (b.state.CoordinatorPrepared? && a.state.CoordinatorPreparing? ==> AllPrepared(b))
    && (b.state.CoordinatorCommitDecided? && a.state.CoordinatorPrepared? ==>
          AllSigned(b.payment.value.signatures, b.payment.value.requiredSigners))
    && (b.state.CoordinatorCommitted? && a.state.CoordinatorCommitDecided? ==> AllCommitted(b))
    && (b.state.CoordinatorAborted? && a.state.CoordinatorAbortDecided? ==> AllAborted(b))
  }

  /** A phase is requested only in the state that calls for it. */
  predicate Calls(state: TxState, phase: Phase) {
    match phase
    case PreparePhase => state.CoordinatorPreparing?
    case CommitPhase => state.CoordinatorCommitDecided?
    case AbortPhase => state.CoordinatorAbortDecided?
  }

  // ----- steps -----

  datatype NetStep =
    | Begin(p: Provider, tx: Transaction, owners: seq<Provider>)
    | Advance(p: Provider, tx: Transaction)
    | Send(p: Provider, txId: TxId, entry: nat, phase: Phase)
    | Handle(q: Provider, request: Request, now: nat)
    | Reply(q: Provider, request: Request)

  function RecordAt(n: Wire, p: Provider, t: TxId): Option<Transaction> {
    if p in n.logs then Lookup(Latest(n.logs[p]), t) else None
  }

  function RequestFor(tx: Transaction, entry: nat, phase: Phase): Request
    requires entry < |tx.participants|
  {
    Request(phase, tx.participants[entry].descriptor,
            if phase.CommitPhase? && tx.payment.Some? then tx.payment.value.signatures else [])
  }

  ghost predicate Allowed(n: Wire, lands: Territory, m: NetStep) {
    match m
    case Begin(p, tx, owners) =>
      && p in n.logs && RecordAt(n, p, tx.txId).None? && MayFollow(None, tx)
      && tx.state.CoordinatorPreparing? && Begun(p, tx, owners) && SessionFits(tx)
      && (forall i :: 0 <= i < |tx.participants| ==> FlagsOf(tx.participants[i]) == (false, false, false))
    case Advance(p, tx) =>
      var previous := RecordAt(n, p, tx.txId);
      && previous.Some? && previous.value.role.Coordinator? && MayFollow(previous, tx)
      && CoordinatorMay(n.responses, previous.value, tx)
    case Send(p, t, entry, phase) =>
      var tx := RecordAt(n, p, t);
      && tx.Some? && tx.value.role.Coordinator? && entry < |tx.value.participants| && Calls(tx.value.state, phase)
    case Handle(q, r, now) =>
      && q in n.logs && q in lands && r in n.requests && r.descriptor.participant == q
           && CheckRequest(lands[q], r).None?
      && NextRecord(RecordAt(n, q, r.descriptor.txId), r, now).Some?
    case Reply(q, r) =>
      && q in n.logs && q in lands && r in n.requests && r.descriptor.participant == q
           && CheckRequest(lands[q], r).None?
      && ReplyState(RecordAt(n, q, r.descriptor.txId), r).Some?
  }

  function WithRecord(n: Wire, p: Provider, tx: Transaction): Wire
    requires p in n.logs
  {
    n.(logs := n.logs[p := n.logs[p] + [tx]])
  }

  ghost function NextNet(n: Wire, lands: Territory, m: NetStep): Wire
    requires Allowed(n, lands, m)
  {
    match m
    case Begin(p, tx, owners) => WithRecord(n, p, tx)
    case Advance(p, tx) => WithRecord(n, p, tx)
    case Send(p, t, entry, phase) => n.(requests := n.requests + {RequestFor(RecordAt(n, p, t).value, entry, phase)})
    case Handle(q, r, now) => WithRecord(n, q, NextRecord(RecordAt(n, q, r.descriptor.txId), r, now).value)
    case Reply(q, r) =>
      n.(responses := n.responses + {ResponseTo(r, ReplyState(RecordAt(n, q, r.descriptor.txId), r).value)})
  }

  // ----- the invariant -----

  ghost predicate LogsValid(n: Wire) {
    forall p :: p in n.logs ==> ValidLog(n.logs[p])
  }

  /** Coordinator records are the ones their hub began. */
  ghost predicate CoordinatorsBegan(n: Wire) {
    forall p, t :: p in n.logs && RecordAt(n, p, t).Some? && RecordAt(n, p, t).value.role.Coordinator? ==>
      exists owners :: Begun(p, RecordAt(n, p, t).value, owners)
  }

  /** The entry of `tx` that `d` belongs to. */
  ghost predicate Describes(tx: Transaction, d: Descriptor) {
    exists i :: 0 <= i < |tx.participants| && tx.participants[i].descriptor == d
  }

  /** The coordinator named by `d` has a record for it. */
  ghost predicate Originates(n: Wire, d: Descriptor) {
    var tx := RecordAt(n, d.coordinator, d.txId);
    tx.Some? && tx.value.role.Coordinator? && Describes(tx.value, d)
  }

  /** Whether the coordinator of transaction `t` at hub `c` durably decided to commit, or to abort. */
  ghost predicate CoordinatorCommits(n: Wire, c: Provider, t: TxId) {
    var tx := RecordAt(n, c, t);
    tx.Some? && tx.value.role.Coordinator? && HasCommitDecision(tx.value.state)
  }

  ghost predicate CoordinatorAborts(n: Wire, c: Provider, t: TxId) {
    var tx := RecordAt(n, c, t);
    tx.Some? && tx.value.role.Coordinator? && HasAbortDecision(tx.value.state)
  }

  /** No request runs ahead of the coordinator's journal. */
  ghost predicate RequestsBacked(n: Wire) {
    forall r :: r in n.requests ==>
      && Originates(n, r.descriptor)
      && (r.phase.CommitPhase? ==> CoordinatorCommits(n, r.descriptor.coordinator, r.descriptor.txId))
      && (r.phase.AbortPhase? ==> CoordinatorAborts(n, r.descriptor.coordinator, r.descriptor.txId))
  }

  /** No participant runs ahead of its coordinator's journal, and each knows a descriptor its coordinator wrote. */
  ghost predicate ParticipantsBacked(n: Wire, lands: Territory) {
    forall q, t :: q in n.logs && RecordAt(n, q, t).Some? && RecordAt(n, q, t).value.role.Participant? ==>
      var tx := RecordAt(n, q, t).value;
      && (exists d :: IsAbout(n, lands, q, tx, d))
      && (HasCommitDecision(tx.state) ==> CoordinatorCommits(n, tx.coordinator, t))
      && (HasAbortDecision(tx.state) ==> CoordinatorAborts(n, tx.coordinator, t))
  }

  ghost predicate IsAbout(n: Wire, lands: Territory, q: Provider, tx: Transaction, d: Descriptor) {
    && Matches(tx, d) && Originates(n, d) && d.participant == q
    && q in lands && CheckRequest(lands[q], Request(PreparePhase, d, [])).None?
  }

  /** Some durable record of hub `d.participant` for descriptor `d` had `state`. */
  ghost predicate Passed(logs: map<Provider, Log>, d: Descriptor, state: TxState) {
    && d.participant in logs
    && exists i ::
         0 <= i < |logs[d.participant]| && Matches(logs[d.participant][i], d) && logs[d.participant][i].state == state
  }

  ghost predicate ResponsesTrue(n: Wire) {
    forall s, d :: s in n.responses && s.descriptorHash == DescriptorDigest(d) ==> Passed(n.logs, d, s.state)
  }

  ghost predicate FlagsTrue(n: Wire, e: ParticipantEntry) {
    && (e.prepared ==> Passed(n.logs, e.descriptor, ParticipantPrepared))
    && (e.committed ==> Passed(n.logs, e.descriptor, ParticipantCommitted))
    && (e.aborted ==> Passed(n.logs, e.descriptor, ParticipantAborted))
  }

  ghost predicate StateTrue(tx: Transaction) {
    && SessionFits(tx)
    && (HasCommitDecision(tx.state) ==> AllSigned(tx.payment.value.signatures, tx.payment.value.requiredSigners))
    && (tx.state.CoordinatorPrepared? || HasCommitDecision(tx.state) ==> AllPrepared(tx))
    && (tx.state.CoordinatorCommitted? ==> AllCommitted(tx))
    && (tx.state.CoordinatorAborted? ==> AllAborted(tx))
  }

  ghost predicate CoordinatorsTrue(n: Wire) {
    forall p, t :: p in n.logs && RecordAt(n, p, t).Some? && RecordAt(n, p, t).value.role.Coordinator? ==>
      var tx := RecordAt(n, p, t).value;
      StateTrue(tx) && forall i :: 0 <= i < |tx.participants| ==> FlagsTrue(n, tx.participants[i])
  }

  ghost predicate WireInv(n: Wire, lands: Territory) {
    && LogsValid(n) && CoordinatorsBegan(n) && RequestsBacked(n) && ParticipantsBacked(n, lands)
    && ResponsesTrue(n) && CoordinatorsTrue(n)
  }

  ghost predicate UnfoldedInv(u: Unfolding, n: Wire, lands: Territory) {
    WireInv(n, lands)
  }

  /** WireInv behind a quantifier, so that proofs unfold it only where they call SoundMeans. */
  ghost predicate Sound(n: Wire, lands: Territory) {
    forall u: Unfolding :: UnfoldedInv(u, n, lands)
  }

  lemma SoundMeans(n: Wire, lands: Territory)
    ensures Sound(n, lands) <==> WireInv(n, lands)
  {
    assert UnfoldedInv(Unfolding, n, lands) <==> WireInv(n, lands);
  }

  // ----- what an append leaves alone -----

  /** `n2` is `n` with the accepted record `tx` appended at hub `p`. */
  ghost predicate Appends(n: Wire, n2: Wire, p: Provider, tx: Transaction) {
    p in n.logs && n2 == WithRecord(n, p, tx) && MayFollow(RecordAt(n, p, tx.txId), tx)
  }

  lemma RecordsAfter(n: Wire, n2: Wire, p: Provider, tx: Transaction)
    requires Appends(n, n2, p, tx)
    ensures forall q, t :: RecordAt(n2, q, t) == if q == p && t == tx.txId then Some(tx) else RecordAt(n, q, t)
  {
    Extended(n.logs[p], tx);
  }

  lemma LogsStayValid(n: Wire, n2: Wire, p: Provider, tx: Transaction)
    requires LogsValid(n) && Appends(n, n2, p, tx)
    ensures LogsValid(n2)
  {
    Extended(n.logs[p], tx);
  }

  /** An accepted successor keeps role, descriptors and any decision. */
  lemma SuccessorKeeps(a: Transaction, b: Transaction)
    requires MayFollow(Some(a), b)
    ensures SameImmutableFields(a, b) && StateMayFollow(a.state, b.state)
    ensures forall i :: 0 <= i < |a.participants| ==>
                          a.participants[i].descriptor == b.participants[i].descriptor
                              && FlagsAdvance(a.participants[i], b.participants[i])
    ensures HasCommitDecision(a.state) ==> HasCommitDecision(b.state)
    ensures HasAbortDecision(a.state) ==> HasAbortDecision(b.state)
  {
    EntriesAccepted(a.participants, b.participants);
  }

  lemma DecisionsStand(n: Wire, n2: Wire, p: Provider, tx: Transaction)
    requires Appends(n, n2, p, tx)
    ensures forall c, t :: CoordinatorCommits(n, c, t) ==> CoordinatorCommits(n2, c, t)
    ensures forall c, t :: CoordinatorAborts(n, c, t) ==> CoordinatorAborts(n2, c, t)
  {
    RecordsAfter(n, n2, p, tx);
    if RecordAt(n, p, tx.txId).Some? {
      SuccessorKeeps(RecordAt(n, p, tx.txId).value, tx);
    }
  }

  lemma OriginsStand(n: Wire, n2: Wire, p: Provider, tx: Transaction, d: Descriptor)
    requires Appends(n, n2, p, tx) && Originates(n, d)
    ensures Originates(n2, d)
  {
    RecordsAfter(n, n2, p, tx);
    if d.coordinator == p && d.txId == tx.txId {
      var prior := RecordAt(n, p, tx.txId).value;
      SuccessorKeeps(prior, tx);
      var i :| 0 <= i < |prior.participants| && prior.participants[i].descriptor == d;
      assert tx.participants[i].descriptor == d;
    }
  }

  lemma PassedStands(n: Wire, n2: Wire, p: Provider, tx: Transaction, d: Descriptor, state: TxState)
    requires Appends(n, n2, p, tx) && Passed(n.logs, d, state)
    ensures Passed(n2.logs, d, state)
  {
    var i :| 0 <= i < |n.logs[d.participant]| && Matches(n.logs[d.participant][i], d)
        && n.logs[d.participant][i].state == state;
    assert n2.logs[d.participant][i] == n.logs[d.participant][i];
  }

  lemma RequestsStayBacked(n: Wire, n2: Wire, p: Provider, tx: Transaction)
    requires RequestsBacked(n) && Appends(n, n2, p, tx)
    ensures RequestsBacked(n2)
  {
    DecisionsStand(n, n2, p, tx);
    forall r | r in n2.requests ensures Originates(n2, r.descriptor) {
      OriginsStand(n, n2, p, tx, r.descriptor);
    }
  }

  lemma ResponsesStayTrue(n: Wire, n2: Wire, p: Provider, tx: Transaction)
    requires ResponsesTrue(n) && Appends(n, n2, p, tx)
    ensures ResponsesTrue(n2)
  {
    forall s, d | s in n2.responses && s.descriptorHash == DescriptorDigest(d) ensures Passed(n2.logs, d, s.state) {
      PassedStands(n, n2, p, tx, d, s.state);
    }
  }

  lemma FlagsStayTrue(n: Wire, n2: Wire, p: Provider, tx: Transaction, e: ParticipantEntry)
    requires FlagsTrue(n, e) && Appends(n, n2, p, tx)
    ensures FlagsTrue(n2, e)
  {
    if e.prepared { PassedStands(n, n2, p, tx, e.descriptor, ParticipantPrepared); }
    if e.committed { PassedStands(n, n2, p, tx, e.descriptor, ParticipantCommitted); }
    if e.aborted { PassedStands(n, n2, p, tx, e.descriptor, ParticipantAborted); }
  }

  lemma IsAboutStands(
      n: Wire, n2: Wire, lands: Territory, p: Provider, tx: Transaction, q: Provider, y: Transaction, d: Descriptor)
    requires Appends(n, n2, p, tx) && IsAbout(n, lands, q, y, d)
    ensures IsAbout(n2, lands, q, y, d)
  {
    OriginsStand(n, n2, p, tx, d);
  }

  /** Participants stay backed if the appended record, when it is a participant's, is backed itself. */
  lemma ParticipantsStayBacked(n: Wire, n2: Wire, lands: Territory, p: Provider, tx: Transaction)
    requires ParticipantsBacked(n, lands) && Appends(n, n2, p, tx)
    requires tx.role.Participant? ==>
               && (exists d :: IsAbout(n, lands, p, tx, d))
               && (HasCommitDecision(tx.state) ==> CoordinatorCommits(n, tx.coordinator, tx.txId))
               && (HasAbortDecision(tx.state) ==> CoordinatorAborts(n, tx.coordinator, tx.txId))
    ensures ParticipantsBacked(n2, lands)
  {
    RecordsAfter(n, n2, p, tx);
    DecisionsStand(n, n2, p, tx);
    forall q, t | q in n2.logs && RecordAt(n2, q, t).Some? && RecordAt(n2, q, t).value.role.Participant?
      ensures exists d :: IsAbout(n2, lands, q, RecordAt(n2, q, t).value, d)
    {
      StillAbout(n, n2, lands, p, tx, q, RecordAt(n2, q, t).value);
    }
  }

  lemma StillAbout(n: Wire, n2: Wire, lands: Territory, p: Provider, tx: Transaction, q: Provider, y: Transaction)
    requires Appends(n, n2, p, tx) && exists d :: IsAbout(n, lands, q, y, d)
    ensures exists d :: IsAbout(n2, lands, q, y, d)
  {
    var d :| IsAbout(n, lands, q, y, d);
    IsAboutStands(n, n2, lands, p, tx, q, y, d);
  }

  // ----- the coordinator's moves -----

  lemma BegunIsFixed(p: Provider, a: Transaction, b: Transaction, owners: seq<Provider>)
    requires Begun(p, a, owners) && MayFollow(Some(a), b)
    ensures Begun(p, b, owners)
  {
    SuccessorKeeps(a, b);
    forall o | o in owners && o != p
      ensures exists i :: 0 <= i < |b.participants| && b.participants[i].descriptor.participant == o
    {
      var i :| 0 <= i < |a.participants| && a.participants[i].descriptor.participant == o;
      assert b.participants[i].descriptor.participant == o;
    }
  }

  lemma CoordinatorsStayBegun(n: Wire, n2: Wire, p: Provider, tx: Transaction)
    requires CoordinatorsBegan(n) && Appends(n, n2, p, tx)
    requires tx.role.Coordinator? && RecordAt(n, p, tx.txId).None? ==> exists owners :: Begun(p, tx, owners)
    ensures CoordinatorsBegan(n2)
  {
    RecordsAfter(n, n2, p, tx);
    forall q, t | q in n2.logs && RecordAt(n2, q, t).Some? && RecordAt(n2, q, t).value.role.Coordinator?
      ensures exists owners :: Begun(q, RecordAt(n2, q, t).value, owners)
    {
      if q == p && t == tx.txId && RecordAt(n, q, t).Some? {
        var prior := RecordAt(n, q, t).value;
        SuccessorKeeps(prior, tx);
        var owners :| Begun(p, prior, owners);
        BegunIsFixed(p, prior, tx, owners);
      }
    }
  }

  /** The coordinator's records stay true if the appended one, when it is a coordinator's, is true. */
  lemma CoordinatorsStayTrue(n: Wire, n2: Wire, p: Provider, tx: Transaction)
    requires CoordinatorsTrue(n) && Appends(n, n2, p, tx)
    requires tx.role.Coordinator? ==>
               StateTrue(tx) && forall i :: 0 <= i < |tx.participants| ==> FlagsTrue(n, tx.participants[i])
    ensures CoordinatorsTrue(n2)
  {
    RecordsAfter(n, n2, p, tx);
    forall q, t | q in n2.logs && RecordAt(n2, q, t).Some? && RecordAt(n2, q, t).value.role.Coordinator?
      ensures var y := RecordAt(n2, q, t).value;
              StateTrue(y) && forall i :: 0 <= i < |y.participants| ==> FlagsTrue(n2, y.participants[i])
    {
      var y := RecordAt(n2, q, t).value;
      forall i | 0 <= i < |y.participants| ensures FlagsTrue(n2, y.participants[i]) {
        FlagsStayTrue(n, n2, p, tx, y.participants[i]);
      }
    }
  }

  lemma AdvancedFlags(n: Wire, a: ParticipantEntry, b: ParticipantEntry, state: TxState)
    requires ResponsesTrue(n) && FlagsTrue(n, a) && a.descriptor == b.descriptor && EntryMay(n.responses, state, a, b)
    ensures FlagsTrue(n, b)
  {
    var d := a.descriptor;
    assert forall phase :: Acknowledgement(phase, d).descriptorHash == DescriptorDigest(d);
  }

  lemma AdvancedState(n: Wire, a: Transaction, b: Transaction)
    requires StateTrue(a) && a.role.Coordinator? && MayFollow(Some(a), b) && CoordinatorMay(n.responses, a, b)
    ensures StateTrue(b)
  {
    SuccessorKeeps(a, b);
    assert AllPrepared(a) ==> AllPrepared(b);
    assert AllCommitted(a) ==> AllCommitted(b);
    assert AllAborted(a) ==> AllAborted(b);
  }

  lemma AdvanceKeepsTrue(n: Wire, n2: Wire, p: Provider, tx: Transaction)
    requires CoordinatorsTrue(n) && ResponsesTrue(n) && Appends(n, n2, p, tx)
    requires RecordAt(n, p, tx.txId).Some? && RecordAt(n, p, tx.txId).value.role.Coordinator?
    requires CoordinatorMay(n.responses, RecordAt(n, p, tx.txId).value, tx)
    ensures CoordinatorsTrue(n2)
  {
    var a := RecordAt(n, p, tx.txId).value;
    SuccessorKeeps(a, tx);
    AdvancedState(n, a, tx);
    forall i | 0 <= i < |tx.participants| ensures FlagsTrue(n, tx.participants[i]) {
      AdvancedFlags(n, a.participants[i], tx.participants[i], a.state);
    }
    CoordinatorsStayTrue(n, n2, p, tx);
  }

  lemma BeginInv(n: Wire, lands: Territory, p: Provider, tx: Transaction, owners: seq<Provider>)
    requires WireInv(n, lands) && Allowed(n, lands, Begin(p, tx, owners))
    ensures WireInv(WithRecord(n, p, tx), lands)
  {
    var n2 := WithRecord(n, p, tx);
    LogsStayValid(n, n2, p, tx);
    CoordinatorsStayBegun(n, n2, p, tx);
    RequestsStayBacked(n, n2, p, tx);
    ParticipantsStayBacked(n, n2, lands, p, tx);
    ResponsesStayTrue(n, n2, p, tx);
    CoordinatorsStayTrue(n, n2, p, tx);
  }

  lemma AdvanceInv(n: Wire, lands: Territory, p: Provider, tx: Transaction)
    requires WireInv(n, lands) && Allowed(n, lands, Advance(p, tx))
    ensures WireInv(WithRecord(n, p, tx), lands)
  {
    var n2 := WithRecord(n, p, tx);
    SuccessorKeeps(RecordAt(n, p, tx.txId).value, tx);
    LogsStayValid(n, n2, p, tx);
    CoordinatorsStayBegun(n, n2, p, tx);
    RequestsStayBacked(n, n2, p, tx);
    ParticipantsStayBacked(n, n2, lands, p, tx);
    ResponsesStayTrue(n, n2, p, tx);
    AdvanceKeepsTrue(n, n2, p, tx);
  }

  lemma SendInv(n: Wire, lands: Territory, p: Provider, t: TxId, entry: nat, phase: Phase)
    requires WireInv(n, lands) && Allowed(n, lands, Send(p, t, entry, phase))
    ensures WireInv(NextNet(n, lands, Send(p, t, entry, phase)), lands)
  {
    var tx := RecordAt(n, p, t).value;
    var owners :| Begun(p, tx, owners);
    var n2 := NextNet(n, lands, Send(p, t, entry, phase));
    assert tx.txId == t;
    assert Originates(n, tx.participants[entry].descriptor);
    SameJournals(n, n2, lands);
  }

  /** Everything about journals carries over to a state that only has more messages. */
  lemma SameJournals(n: Wire, n2: Wire, lands: Territory)
    requires n2.logs == n.logs
    ensures LogsValid(n) ==> LogsValid(n2)
    ensures CoordinatorsBegan(n) ==> CoordinatorsBegan(n2)
    ensures CoordinatorsTrue(n) ==> CoordinatorsTrue(n2)
    ensures ParticipantsBacked(n, lands) ==> ParticipantsBacked(n2, lands)
    ensures forall d :: Originates(n, d) ==> Originates(n2, d)
    ensures forall c, t :: CoordinatorCommits(n, c, t) ==> CoordinatorCommits(n2, c, t)
    ensures forall c, t :: CoordinatorAborts(n, c, t) ==> CoordinatorAborts(n2, c, t)
  {
    assert forall p, t :: RecordAt(n2, p, t) == RecordAt(n, p, t);
    if ParticipantsBacked(n, lands) {
      forall q, t | q in n2.logs && RecordAt(n2, q, t).Some? && RecordAt(n2, q, t).value.role.Participant?
        ensures exists d :: IsAbout(n2, lands, q, RecordAt(n2, q, t).value, d)
      {
        var d :| IsAbout(n, lands, q, RecordAt(n, q, t).value, d);
        assert IsAbout(n2, lands, q, RecordAt(n2, q, t).value, d);
      }
    }
  }

  // ----- the participant's moves -----

  lemma NextRecordMatches(existing: Option<Transaction>, r: Request, now: nat)
    requires NextRecord(existing, r, now).Some?
    ensures Matches(NextRecord(existing, r, now).value, r.descriptor)
    ensures existing.Some? ==> existing.value.role.Participant? && existing.value.txId == r.descriptor.txId
    ensures var state := NextRecord(existing, r, now).value.state;
            && (HasCommitDecision(state) ==> r.phase.CommitPhase?)
            && (HasAbortDecision(state) ==> r.phase.AbortPhase?)
  {
  }

  /** A verified request's record passes `validate_journal_transition`. */
  lemma NextRecordAccepted(existing: Option<Transaction>, channels: set<ChannelId>, r: Request, now: nat)
    requires NextRecord(existing, r, now).Some? && CheckRequest(channels, r).None?
    requires existing.Some? ==> CheckRecord(existing.value).None?
    ensures MayFollow(existing, NextRecord(existing, r, now).value)
  {
  }

  lemma {:induction false} RecordsWellFormed(log: Log)
    requires ValidLog(log)
    ensures forall t :: t in Latest(log) ==> CheckRecord(Latest(log)[t]).None?
  {
    if log != [] {
      RecordsWellFormed(log[..|log| - 1]);
    }
  }

  lemma HandleInv(n: Wire, lands: Territory, q: Provider, r: Request, now: nat)
    requires WireInv(n, lands) && Allowed(n, lands, Handle(q, r, now))
    ensures WireInv(NextNet(n, lands, Handle(q, r, now)), lands)
  {
    var d, existing := r.descriptor, RecordAt(n, q, r.descriptor.txId);
    var tx := NextRecord(existing, r, now).value;
    var n2 := WithRecord(n, q, tx);
    assert CheckRequest(lands[q], Request(PreparePhase, d, [])).None?;
    RecordsWellFormed(n.logs[q]);
    NextRecordMatches(existing, r, now);
    NextRecordAccepted(existing, lands[q], r, now);
    LogsStayValid(n, n2, q, tx);
    CoordinatorsStayBegun(n, n2, q, tx);
    RequestsStayBacked(n, n2, q, tx);
    ResponsesStayTrue(n, n2, q, tx);
    CoordinatorsStayTrue(n, n2, q, tx);
    assert IsAbout(n, lands, q, tx, d);
    ParticipantsStayBacked(n, n2, lands, q, tx);
  }

  lemma {:induction false} LatestIsLogged(log: Log, t: TxId)
    requires t in Latest(log)
    ensures Latest(log)[t] in log
  {
    if log[|log| - 1].txId != t {
      LatestIsLogged(log[..|log| - 1], t);
    }
  }

  lemma ReplyInv(n: Wire, lands: Territory, q: Provider, r: Request)
    requires WireInv(n, lands) && Allowed(n, lands, Reply(q, r))
    ensures WireInv(NextNet(n, lands, Reply(q, r)), lands)
  {
    var n2, d := NextNet(n, lands, Reply(q, r)), r.descriptor;
    var state := ReplyState(RecordAt(n, q, d.txId), r).value;
    SameJournals(n, n2, lands);
    LatestIsLogged(n.logs[q], d.txId);
    var i :| 0 <= i < |n.logs[q]| && n.logs[q][i] == RecordAt(n, q, d.txId).value;
    assert Passed(n2.logs, d, state);
  }

  lemma NetStepKeepsInv(n: Wire, lands: Territory, m: NetStep)
    requires WireInv(n, lands) && Allowed(n, lands, m)
    ensures WireInv(NextNet(n, lands, m), lands)
  {
    match m
    case Begin(p, tx, owners) => BeginInv(n, lands, p, tx, owners);
    case Advance(p, tx) => AdvanceInv(n, lands, p, tx);
    case Send(p, t, entry, phase) => SendInv(n, lands, p, t, entry, phase);
    case Handle(q, r, now) => HandleInv(n, lands, q, r, now);
    case Reply(q, r) => ReplyInv(n, lands, q, r);
  }

  lemma StepStaysSound(n: Wire, lands: Territory, m: NetStep)
    requires Sound(n, lands) && Allowed(n, lands, m)
    ensures Sound(NextNet(n, lands, m), lands)
  {
    SoundMeans(n, lands);
    NetStepKeepsInv(n, lands, m);
    SoundMeans(NextNet(n, lands, m), lands);
  }
}
