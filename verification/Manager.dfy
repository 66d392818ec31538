/** The transaction manager's handlers (src/distributed_tx.rs:774-1430), each proved to follow the protocol. */
module Manager {
  import opened Prelude
  import opened Transactions
  import opened Log
  import opened Ledger
  import opened HubLedger
  import opened Hub
  import opened LedgerStore
  import opened TwoPhaseCommit
  import opened Cluster
  import opened NodeRuns
  import opened OneHub
  import opened Descriptors
  import opened Participants
  import Amounts

  /**
   An append reports success, or a failure; after a failure the record may be in the journal all the same,
   and the journal in memory is read back from the file (src/distributed_tx.rs:331-343).
   */
  datatype Write = Durable | Unsure | Nothing

  /** What the n-th event outside the program brings: how a write goes, the time, the verified reply to a request. */
  datatype World = World(writes: nat -> Write, clock: nat -> nat, reply: (nat, Request) -> Option<Response>)

  datatype TxError =
    | Rejected(request: DescriptorError)
    | NotThisHub
    | Expired
    | DescriptorDiffers
    | RecoveryPending
    | AlreadyAborted
    | CommitBeforePrepare
    | ConflictsWithAbort
    | ConflictsWithCommit
    | Unreserved(ledger: LedgerError)
    | NotJournaled
    | NotDecided
    | InvalidState
    | BadAmount
    | BadParticipants(participants: ParticipantError)
    | PrepareFailed
    | NotCoordinator
    | SessionRefuses

  /** Every write is durable. */
  ghost predicate Calm(w: World) {
    forall n: nat :: w.writes(n).Durable?
  }

  /** Every request is acknowledged. */
  ghost predicate Helpful(w: World) {
    forall n: nat, r: Request :: w.reply(n, r) == Some(Acknowledgement(r.phase, r.descriptor))
  }

  // ----- what a request does -----

  /** One more record, the one the request calls for. */
  ghost predicate Takes(before: Log, after: Log, r: Request) {
    exists now: nat ::
      var next := NextRecord(Lookup(Latest(before), r.descriptor.txId), r, now);
      next.Some? && after == before + [next.value]
  }

  /** No record, one, or two. */
  ghost predicate Serves(before: Log, after: Log, r: Request) {
    after == before || Takes(before, after, r) || exists mid :: Takes(before, mid, r) && Takes(mid, after, r)
  }

  function TermsFor(d: Descriptor): Terms {
    Terms(d.amountZhu, d.amountSatoshi, d.hops, d.expiresUnix)
  }

  /** The money a request moves, as the newest records before and after it and the error tell. */
  ghost predicate Moves(
      maxHops: nat, before: Option<Transaction>, after: Option<Transaction>, a: Ledger, b: Ledger, r: Request,
      error: Option<TxError>)
  {
    var t, terms := r.descriptor.txId, TermsFor(r.descriptor);
    match r.phase
    case PreparePhase =>
      if before.None? && error.None? then Prepared(a, maxHops, t, terms) == Ok(b)
      else if before.None? && error == Some(NotJournaled) then Prepared(a, maxHops, t, terms).Ok? && b == Released(a, t)
      else b == a
    case CommitPhase =>
      if before.Some? && Matches(before.value, r.descriptor) && error != Some(NotDecided)
         && (before.value.state.ParticipantPrepared? || before.value.state.ParticipantCommitDecided?)
         && Applied(a, t, terms).Ok?
      then Applied(a, t, terms) == Ok(b) else b == a
    case AbortPhase =>
      if error.None? && before != after then b == Released(a, t) else b == a
  }

  function ErrorOf<T>(res: Result<T, TxError>): Option<TxError> {
    if res.Err? then Some(res.error) else None
  }

  /** Whether the participant answers a verified request when every write is durable. */
  ghost predicate Answerable(maxHops: nat, before: Option<Transaction>, a: Ledger, r: Request) {
    || ReplyState(before, r).Some?
    || (NextRecord(before, r, 0).Some?
        && (r.phase.PreparePhase? ==> Prepared(a, maxHops, r.descriptor.txId, TermsFor(r.descriptor)).Ok?)
        && (r.phase.CommitPhase? ==> Applied(a, r.descriptor.txId, TermsFor(r.descriptor)).Ok?))
  }

  /** The record is the participant's own for exactly this descriptor. */
  ghost predicate IsFor(tx: Transaction, d: Descriptor) {
    && tx.role == Participant && tx.txId == d.txId && tx.coordinator == d.coordinator
    && tx.coordinatorUrl == d.coordinatorUrl && tx.paymentHash == d.paymentHash && tx.amountZhu == d.amountZhu
    && tx.amountSatoshi == d.amountSatoshi && tx.expiresUnix == d.expiresUnix && tx.localHops == d.hops
  }

  /** The answer names the request and the hubs it passes between. */
  ghost predicate Echoes(r: Request, answer: Response) {
    && answer.phase == r.phase && answer.txId == r.descriptor.txId
    && answer.descriptorHash == DescriptorDigest(r.descriptor) && answer.provider == r.descriptor.participant
    && answer.coordinator == r.descriptor.coordinator
    && (r.phase == CommitPhase ==> answer.state == ParticipantCommitted)
    && (r.phase == AbortPhase ==> answer.state == ParticipantAborted)
  }

  /** The clock has no say in what is answered to a commit, an abort, or a prepare in time. */
  ghost predicate Answers(
      before: Option<Transaction>, a: Ledger, r: Request, inTime: bool, res: Result<Response, TxError>)
  {
    && (res.Ok? ==> Echoes(r, res.value))
    && match r.phase
       case PreparePhase =>
         before.Some? && inTime ==>
           (res.Ok? <==>
             && IsFor(before.value, r.descriptor)
             && (before.value.state.ParticipantPrepared? || before.value.state.ParticipantCommitted?))
       case CommitPhase =>
         res.Ok? <==>
           && before.Some? && IsFor(before.value, r.descriptor)
           && (before.value.state.ParticipantCommitted?
               || ((before.value.state.ParticipantPrepared? || before.value.state.ParticipantCommitDecided?)
                   && Applied(a, r.descriptor.txId, TermsFor(r.descriptor)).Ok?))
       case AbortPhase =>
         res.Ok? <==>
           before.Some? ==>
             && IsFor(before.value, r.descriptor)
             && (before.value.state.ParticipantPrepared? || before.value.state.ParticipantAborted?)
  }

  lemma AnswersAre(
      maxHops: nat, before: Option<Transaction>, after: Option<Transaction>, a: Ledger, b: Ledger, r: Request,
      res: Result<Response, TxError>)
    requires Moves(maxHops, before, after, a, b, r, ErrorOf(res))
    requires res.Ok? <==> Answerable(maxHops, before, a, r)
    requires res.Ok? ==> ReplyState(after, r).Some? && res.value == ResponseTo(r, ReplyState(after, r).value)
    ensures Answers(before, a, r, true, res)
    ensures r.phase.PreparePhase? && before.None? ==>
              var spec := Prepared(a, maxHops, r.descriptor.txId, TermsFor(r.descriptor));
              if spec.Ok? then res.Ok? && b == spec.value else res.Err? && b == a
    ensures res.Ok? && r.phase.PreparePhase? ==>
              res.value.state.ParticipantPrepared? || res.value.state.ParticipantCommitted?
  {
  }

  /** A prepare of an unknown transaction finds nothing settled under its id. */
  lemma FreshPrepare(k: Track, log: Log, ledger: Ledger, d: Descriptor)
    requires OnTrack(k, log, ledger)
    ensures Lookup(Latest(log), d.txId).None? && d.txId !in ledger.reservations ==>
              && (Prepared(ledger, k.site.maxHops, d.txId, TermsFor(d)).Ok? <==>
                    && |d.hops| <= k.site.maxHops
                    && (forall i :: 0 <= i < |d.hops| ==>
                          HopIsProper(d.hops[i]) && SenderCanPay(ledger, TermsFor(d), d.hops[i]))
                    && (forall i, j :: 0 <= i < j < |d.hops| ==> d.hops[i].channelId != d.hops[j].channelId))
              && (Prepared(ledger, k.site.maxHops, d.txId, TermsFor(d)).Ok? ==>
                    Prepared(ledger, k.site.maxHops, d.txId, TermsFor(d)).value
                        == ledger.(reservations := ledger.reservations[d.txId := TermsFor(d)]))
  {
    KnownLedger(k, log, ledger);
    if Lookup(Latest(log), d.txId).None? && d.txId !in ledger.reservations {
      PreparedIff(ledger, k.site.maxHops, d.txId, TermsFor(d));
    }
  }

  /** `verify_request` and the two checks after it. */
  predicate Admits(provider: Provider, site: Site, now: nat, r: Request) {
    && CheckRequest(site.base.Keys, r).None? && r.descriptor.participant == provider
    && !(r.phase.PreparePhase? && r.descriptor.expiresUnix > 0 && now >= r.descriptor.expiresUnix)
  }

  // ----- what a coordinator holds in memory -----

  /** `tx` is `record` with acknowledgements that arrived, whether or not they were journaled. */
  ghost predicate Ahead(k: Track, record: Transaction, tx: Transaction) {
    && tx == record.(participants := tx.participants, updatedUnix := tx.updatedUnix, lastError := tx.lastError)
    && |tx.participants| == |record.participants|
    && forall i :: 0 <= i < |tx.participants| ==>
         && SameDescriptor(record.participants[i], tx.participants[i])
              && FlagsAdvance(record.participants[i], tx.participants[i])
         && EntryMay(k.c.responses, record.state, record.participants[i], tx.participants[i])
  }

  lemma AheadWithMore(k: Track, k2: Track, record: Transaction, tx: Transaction)
    requires Ahead(k, record, tx) && k.c.responses <= k2.c.responses
    ensures Ahead(k2, record, tx)
  {
  }

  lemma AheadMay(k: Track, record: Transaction, tx: Transaction)
    requires Ahead(k, record, tx) && StateTrue(record)
    ensures CoordinatorMay(k.c.responses, record, tx)
  {
  }

  lemma AheadUpdates(k: Track, record: Transaction, tx: Transaction)
    requires Ahead(k, record, tx) && ImageFits(record)
    ensures Updates(record, tx)
  {
  }

  /** `tx` with one more acknowledgement. */
  function Acked(tx: Transaction, index: nat, phase: Phase, now: nat): Transaction
    requires index < |tx.participants|
  {
    var e := tx.participants[index];
    var acked := match phase
      case PreparePhase => e.(prepared := true)
      case CommitPhase => e.(committed := true)
      case AbortPhase => e.(aborted := true);
    tx.(participants := tx.participants[index := acked], updatedUnix := now)
  }

  lemma AckedIsAhead(k: Track, record: Transaction, tx: Transaction, index: nat, phase: Phase, now: nat)
    requires Ahead(k, record, tx) && FlagsFit(record) && index < |tx.participants| && Calls(record.state, phase)
    requires Acknowledgement(phase, record.participants[index].descriptor) in k.c.responses
    ensures Ahead(k, record, Acked(tx, index, phase, now))
  {
  }

  lemma AheadOfItself(k: Track, tx: Transaction)
    requires FlagsFit(tx)
    ensures Ahead(k, tx, tx)
  {
  }

  /** A record with one more acknowledgement may be appended. */
  lemma AckReady(k: Track, log: Log, ledger: Ledger, tx: Transaction, index: nat, phase: Phase, now: nat)
    requires OnTrack(k, log, ledger) && tx.txId in Latest(log) && Latest(log)[tx.txId].role.Coordinator?
    requires Ahead(k, Latest(log)[tx.txId], tx) && index < |tx.participants| && Calls(Latest(log)[tx.txId].state, phase)
    requires Acknowledgement(phase, Latest(log)[tx.txId].participants[index].descriptor) in k.c.responses
    ensures CoordinatorMay(k.c.responses, Latest(log)[tx.txId], Acked(tx, index, phase, now))
    ensures Accepts(log, Acked(tx, index, phase, now)) && Ahead(k, Latest(log)[tx.txId], Acked(tx, index, phase, now))
  {
    var record, next := Latest(log)[tx.txId], Acked(tx, index, phase, now);
    KnownCoordinator(k, log, ledger, tx.txId);
    AckedIsAhead(k, record, tx, index, phase, now);
    AheadMay(k, record, next);
    AheadUpdates(k, record, next);
    UpdateAccepted(log, next);
  }

  lemma AckNewest(k: Track, log: Log, ledger: Ledger, tx: Transaction, index: nat, phase: Phase, now: nat)
    requires OnTrack(k, log, ledger) && tx.txId in Latest(log) && Latest(log)[tx.txId] == tx && tx.role.Coordinator?
    requires index < |tx.participants| && Calls(tx.state, phase)
    requires Acknowledgement(phase, tx.participants[index].descriptor) in k.c.responses
    ensures CoordinatorMay(k.c.responses, tx, Acked(tx, index, phase, now))
    ensures Accepts(log, Acked(tx, index, phase, now))
  {
    KnownCoordinator(k, log, ledger, tx.txId);
    AheadOfItself(k, tx);
    AckReady(k, log, ledger, tx, index, phase, now);
  }

  lemma AheadConcludes(k: Track, record: Transaction, tx: Transaction, next: Transaction)
    requires Ahead(k, record, tx) && StateTrue(record) && ImageFits(record) && record.state.CoordinatorAbortDecided?
    requires next == tx.(state := next.state, lastError := next.lastError, updatedUnix := next.updatedUnix)
    requires next.state == tx.state || (next.state.CoordinatorAborted? && AllAborted(tx))
    ensures CoordinatorMay(k.c.responses, record, next) && Updates(record, next)
  {
    AheadMay(k, record, tx);
  }

  /** The last record of an abort round may be appended. */
  lemma ConcludeReady(k: Track, log: Log, ledger: Ledger, tx: Transaction, next: Transaction)
    requires OnTrack(k, log, ledger) && Aborting(k, log, tx) && Latest(log)[tx.txId].state.CoordinatorAbortDecided?
    requires next == tx.(state := next.state, lastError := next.lastError, updatedUnix := next.updatedUnix)
    requires next.state == tx.state || (next.state.CoordinatorAborted? && AllAborted(tx))
    ensures next.txId == tx.txId && CoordinatorMay(k.c.responses, Latest(log)[tx.txId], next) && Accepts(log, next)
  {
    KnownCoordinator(k, log, ledger, tx.txId);
    AheadConcludes(k, Latest(log)[tx.txId], tx, next);
    UpdateAccepted(log, next);
  }

  lemma DecisionMay(k: Track, record: Transaction, tx: Transaction)
    requires StateTrue(record) && FlagsFit(record) && ImageFits(record) && tx.state.CoordinatorAbortDecided?
    requires record.state.CoordinatorPreparing? || record.state.CoordinatorPrepared?
    requires tx == record.(state := tx.state, lastError := tx.lastError, updatedUnix := tx.updatedUnix)
    ensures CoordinatorMay(k.c.responses, record, tx) && Updates(record, tx) && Ahead(k, tx, tx)
  {
  }

  /** The abort decision is durable, and `tx` is its record in memory. */
  ghost predicate Aborting(k: Track, log: Log, tx: Transaction) {
    && tx.txId in Latest(log) && Latest(log)[tx.txId].role.Coordinator? && tx.state.CoordinatorAbortDecided?
    && Ahead(k, Latest(log)[tx.txId], tx)
  }

  /**
   The payment session of a coordinator's record: the journaled one once decided, and open while it can still
   be signed.
   */
  ghost predicate SessionOf(k: Track, record: Transaction, payment: Payment) {
    record.role.Coordinator? ==>
      && SessionFits(record.(payment := Some(payment))) && ImageFits(record.(payment := Some(payment)))
      && (record.state.CoordinatorCommitDecided? ==> record.payment == Some(payment))
      && (record.state.CoordinatorPrepared? && AllSigned(payment.signatures, payment.requiredSigners) ==>
            record.txId !in SessionsAt(k).closed)
  }

  /** The commit decision is durable and applied here, and `tx` is its newest record. */
  ghost predicate Committing(log: Log, ledger: Ledger, tx: Transaction) {
    && tx.txId in Latest(log) && Latest(log)[tx.txId] == tx
    && tx.role.Coordinator? && tx.state.CoordinatorCommitDecided? && tx.txId in ledger.applied
  }

  lemma CommitDecisionMay(k: Track, record: Transaction, tx: Transaction)
    requires StateTrue(record) && FlagsFit(record) && record.state.CoordinatorPrepared?
    requires tx.state.CoordinatorCommitDecided?
    requires tx == record.(state := tx.state, payment := tx.payment, lastError := tx.lastError,
                           updatedUnix := tx.updatedUnix)
    requires SessionFits(tx) && ImageFits(tx)
    requires AllSigned(tx.payment.value.signatures, tx.payment.value.requiredSigners)
    ensures CoordinatorMay(k.c.responses, record, tx) && Updates(record, tx)
  {
  }

  lemma CommitMay(k: Track, tx: Transaction, next: Transaction)
    requires StateTrue(tx) && FlagsFit(tx) && ImageFits(tx) && tx.state.CoordinatorCommitDecided?
    requires next == tx.(state := next.state, lastError := next.lastError, updatedUnix := next.updatedUnix)
    requires next.state == tx.state || (next.state.CoordinatorCommitted? && AllCommitted(tx))
    ensures CoordinatorMay(k.c.responses, tx, next) && Updates(tx, next)
  {
  }

  /** A coordinator's payment session with its hops on other hubs. */
  datatype OriginSession = OriginSession(
    payment: Payment, commit: PaymentCommit, remote: seq<RemoteHop>, expiresUnix: nat, idempotency: Option<Idempotency>)

  /** The record is that of the session's payment: who coordinates it, what it pays, when it expires, its own hops. */
  predicate RecordsSession(tx: Transaction, p: Provider, url: string, s: OriginSession, hops: seq<Hop>) {
    && tx.role == Coordinator && tx.txId == s.payment.id && tx.coordinator == p && tx.coordinatorUrl == url
    && tx.paymentHash == s.payment.messageHash && Amounts.Parsed(s.commit.amountHac) == Ok(tx.amountZhu)
    && tx.amountSatoshi == s.commit.amountSatoshi && tx.expiresUnix == s.expiresUnix && tx.localHops == hops
  }

  /** A transaction's later records keep the fields its first one fixed. */
  lemma {:induction false} KeepsFields(before: Log, after: Log, t: TxId)
    requires ValidLog(after) && before <= after && t in Latest(before)
    ensures t in Latest(after) && SameImmutableFields(Latest(before)[t], Latest(after)[t])
    decreases |after|
  {
    if |before| < |after| {
      var init, tx := after[..|after| - 1], after[|after| - 1];
      KeepsFields(before, init, t);
      if tx.txId == t {
        assert MayFollow(Some(Latest(init)[t]), tx);
      }
    } else {
      assert before == after;
    }
  }

  lemma LaterKeepsFields(k: Track, before: Log, after: Log, ledger: Ledger, t: TxId)
    requires OnTrack(k, after, ledger) && Touches(before, after, t) && t in Latest(before)
    ensures t in Latest(after) && SameImmutableFields(Latest(before)[t], Latest(after)[t])
  {
    KnownLedger(k, after, ledger);
    TouchesMeans(before, after, t);
    KeepsFields(before, after, t);
  }

  /** What `create_payment` left behind: the session of one path, and the reservation of this hub's hops. */
  ghost predicate Created(p: Provider, ledger: Ledger, s: OriginSession, owners: seq<Provider>) {
    && FromPath(p, s.commit, s.remote, owners)
    && s.commit.sessionId == s.payment.id && s.payment.messageHash == PaymentDigest(s.commit)
    && s.payment.requiredSigners == s.commit.requiredSigners
    && SignedInOrder(s.payment.signatures, s.payment.requiredSigners)
    && (s.idempotency.Some? ==> s.idempotency.value.paymentId == s.payment.id)
    && (s.payment.id in ledger.reservations && Amounts.Parsed(s.commit.amountHac).Ok? ==>
          ledger.reservations[s.payment.id] ==
          Terms(Amounts.Parsed(s.commit.amountHac).value, s.commit.amountSatoshi, HopsOwned(s.commit, owners, p, 0),
                s.expiresUnix))
  }

  lemma BuiltFits(p: Provider, ledger: Ledger, s: OriginSession, owners: seq<Provider>, tx: Transaction)
    requires Created(p, ledger, s, owners) && Begun(p, tx, owners) && tx.txId == s.payment.id
    requires tx.payment == Some(s.payment)
    requires tx.participants[0].descriptor.payment == s.commit && tx.txId in ledger.reservations
    requires tx.amountZhu == Amounts.Parsed(s.commit.amountHac).value && tx.expiresUnix == s.expiresUnix
    ensures SessionFits(tx) && ledger.reservations[tx.txId] == TermsOf(tx)
  {
  }

  lemma FirstAccepted(base: Descriptor, remote: seq<RemoteHop>, tx: Transaction)
    requires Groups(base, remote, tx.participants) && tx.role.Coordinator? && tx.state.CoordinatorPreparing?
    requires ImageFits(tx)
    requires tx.paymentHash.PaymentDigest? && (tx.idempotency.Some? ==> tx.idempotency.value.paymentId == tx.txId)
    ensures MayFollow(None, tx)
  {
  }

  /** The newest record is `tx`, still preparing in the process that began it. */
  ghost predicate Preparing(k: Track, log: Log, tx: Transaction) {
    && tx.txId in Latest(log) && Latest(log)[tx.txId] == tx
    && tx.role.Coordinator? && tx.state.CoordinatorPreparing? && tx.txId in SessionsAt(k).preparing
  }

  lemma PreparedMay(k: Track, tx: Transaction, next: Transaction)
    requires StateTrue(tx) && FlagsFit(tx) && ImageFits(tx) && tx.state.CoordinatorPreparing? && AllPrepared(tx)
    requires next == tx.(state := CoordinatorPrepared, updatedUnix := next.updatedUnix)
    ensures CoordinatorMay(k.c.responses, tx, next) && Updates(tx, next)
  {
  }

  ghost predicate TouchesUnfolded(u: Unfolding, before: Log, after: Log, t: TxId) {
    && before <= after
    && forall v :: v != t ==> Lookup(Latest(before), v) == Lookup(Latest(after), v)
  }

  /** The journal only grew by records of transaction `t`. */
  ghost predicate Touches(before: Log, after: Log, t: TxId) {
    forall u: Unfolding :: TouchesUnfolded(u, before, after, t)
  }

  lemma TouchesMeans(before: Log, after: Log, t: TxId)
    ensures Touches(before, after, t) <==> TouchesUnfolded(Unfolding, before, after, t)
  {
  }

  lemma Untouched(log: Log, t: TxId)
    ensures Touches(log, log, t)
  {
    TouchesMeans(log, log, t);
  }

  lemma TouchesOn(a: Log, b: Log, c: Log, t: TxId)
    requires Touches(a, b, t) && Touches(b, c, t)
    ensures Touches(a, c, t)
  {
    TouchesMeans(a, b, t);
    TouchesMeans(b, c, t);
    TouchesMeans(a, c, t);
  }

  /** Every address the payment asks for has signed. */
  predicate SignedByAll(p: Payment) {
    forall a :: a in p.requiredSigners ==> exists k :: 0 <= k < |p.signatures| && p.signatures[k].address == a
  }

  /** `commit_origin_locked` goes on to decide, or to deliver its decision. */
  predicate Ready(before: Option<Transaction>, session: Option<Payment>) {
    && before.Some? && before.value.role.Coordinator?
    && (before.value.state.CoordinatorPrepared? || before.value.state.CoordinatorCommitDecided?)
    && session.Some? && SignedByAll(session.value)
  }

  /** Participants not known to have committed were all asked, whether or not others answered. */
  ghost predicate CommitAsks(before: Transaction, payment: Payment, requests: set<Request>) {
    forall i :: 0 <= i < |before.participants| && !before.participants[i].committed ==>
      Request(CommitPhase, before.participants[i].descriptor, payment.signatures) in requests
  }

  /** What `retry_pending` knows of one transaction besides its record. */
  datatype Standing = Standing(session: Option<Payment>, settled: bool, committing: bool, failable: bool)

  /**
   A retry never guesses. A prepared payment is decided once everyone signed, aborted once it has expired at
   the time `now` without that, and left alone until then; decisions stand, incomplete prepares are aborted.
   */
  ghost predicate RetryMay(before: Transaction, after: Transaction, at: Standing, now: nat) {
    || after == before
    || (before.role.Coordinator? &&
        match before.state
        case CoordinatorPrepared =>
          at.session.Some? &&
          if SignedByAll(at.session.value) then HasCommitDecision(after.state)
          else !at.committing && 0 < before.expiresUnix <= now && HasAbortDecision(after.state)
        case CoordinatorCommitDecided => HasCommitDecision(after.state)
        case CoordinatorPreparing => HasAbortDecision(after.state)
        case CoordinatorAbortDecided => HasAbortDecision(after.state)
        case _ => false)
  }

  /** What a retry without faults leaves: every decision finished, every incomplete or expired prepare aborted. */
  ghost predicate RetryDone(before: Transaction, after: Transaction, at: Standing, now: nat) {
    before.role.Coordinator? ==>
      match before.state
      case CoordinatorPrepared =>
        at.session.Some? ==>
          if SignedByAll(at.session.value) then after.state.CoordinatorCommitted?
          else !at.committing && 0 < before.expiresUnix <= now ==> after.state.CoordinatorAborted?
      case CoordinatorCommitDecided => at.session.Some? ==> after.state.CoordinatorCommitted?
      case CoordinatorPreparing => after.state.CoordinatorAborted?
      case CoordinatorAbortDecided => after.state.CoordinatorAborted?
      case _ => true
  }

  /** Whether a retry without faults counts as progress. */
  ghost predicate Progresses(before: Transaction, at: Standing, now: nat) {
    before.role.Coordinator? &&
    match before.state
    case CoordinatorPrepared =>
      at.session.Some?
      && (SignedByAll(at.session.value) || (!at.committing && 0 < before.expiresUnix <= now && at.failable))
    case CoordinatorCommitDecided => at.session.Some?
    case CoordinatorCommitted => !at.settled
    case CoordinatorPreparing => at.failable
    case CoordinatorAbortDecided => at.failable
    case _ => false
  }

  /** A payment that this retry finished aborting holds nothing, unless its session forbids that. */
  ghost predicate RetryFrees(before: Transaction, after: Transaction, at: Standing, ledger: Ledger) {
    after.state.CoordinatorAborted? && !before.state.CoordinatorAborted? && at.failable ==>
        after.txId !in ledger.reservations
  }

  /** Participants not known to have aborted are all asked again, whether or not others answer. */
  ghost predicate AbortAsks(before: Transaction, requests: set<Request>) {
    before.role.Coordinator? && before.state.CoordinatorAbortDecided? ==>
      forall i :: 0 <= i < |before.participants| && !before.participants[i].aborted ==>
        Request(AbortPhase, before.participants[i].descriptor, []) in requests
  }

  ghost predicate DeliveringUnfolded(
      u: Unfolding, start: Transaction, tx: Transaction, n: nat, failures: nat, requests: set<Request>)
  {
    && n <= |start.participants| == |tx.participants|
    && (failures == 0 ==> forall i :: 0 <= i < n ==> tx.participants[i].aborted)
    && (forall i :: n <= i < |start.participants| ==> tx.participants[i] == start.participants[i])
    && (forall i :: 0 <= i < n && !start.participants[i].aborted ==>
         Request(AbortPhase, start.participants[i].descriptor, []) in requests)
  }

  /** The first `n` participants that had not aborted were asked to, and did unless one failed. */
  ghost predicate Delivering(start: Transaction, tx: Transaction, n: nat, failures: nat, requests: set<Request>) {
    forall u: Unfolding :: DeliveringUnfolded(u, start, tx, n, failures, requests)
  }

  lemma DeliveringMeans(start: Transaction, tx: Transaction, n: nat, failures: nat, requests: set<Request>)
    ensures Delivering(start, tx, n, failures, requests) <==>
            DeliveringUnfolded(Unfolding, start, tx, n, failures, requests)
  {
  }

  lemma NextDelivery(start: Transaction, tx: Transaction, n: nat, failures: nat, requests: set<Request>)
    requires Delivering(start, tx, n, failures, requests) && n < |start.participants|
    ensures n < |tx.participants| && tx.participants[n] == start.participants[n]
  {
    DeliveringMeans(start, tx, n, failures, requests);
  }

  lemma OneMoreDelivered(
      start: Transaction, tx: Transaction, next: Transaction, n: nat, failures: nat, more: nat, requests: set<Request>,
      sent: set<Request>)
    requires Delivering(start, tx, n, failures, requests) && n < |start.participants| && requests <= sent
    requires failures <= more && |next.participants| == |tx.participants|
    requires forall i :: 0 <= i < |tx.participants| && i != n ==> next.participants[i] == tx.participants[i]
    requires |next.participants| > n && (more == 0 ==> next.participants[n].aborted)
    requires !start.participants[n].aborted ==> Request(AbortPhase, start.participants[n].descriptor, []) in sent
    ensures Delivering(start, next, n + 1, more, sent)
  {
    DeliveringMeans(start, tx, n, failures, requests);
    DeliveringMeans(start, next, n + 1, more, sent);
  }

  /** The outcome of one retry, at the time `now`. */
  ghost predicate RetryOutcome(
      w: World, before: Transaction, after: Transaction, at: Standing, now: nat, ledger: Ledger,
      requests: set<Request>)
  {
    && RetryMay(before, after, at, now) && RetryFrees(before, after, at, ledger) && AbortAsks(before, requests)
    && (Calm(w) && Helpful(w) ==> RetryDone(before, after, at, now))
  }

  ghost predicate RetriedUnfolded(
      u: Unfolding, w: World, a: Records, b: Records, ids: seq<TxId>, at: TxId -> Standing, ticks: seq<nat>,
      ledger: Ledger, requests: set<Request>)
  {
    && |ticks| == |ids|
    && (forall t :: t !in ids ==> Lookup(b, t) == Lookup(a, t))
    && (forall i :: 0 <= i < |ids| ==>
          && ids[i] in a && ids[i] in b
          && RetryOutcome(w, a[ids[i]], b[ids[i]], at(ids[i]), w.clock(ticks[i]), ledger, requests))
  }

  /**
   What a round of retries made of the newest records `a`, each at its own tick; transactions outside `ids` keep
   theirs.
   */
  ghost predicate Retried(
      w: World, a: Records, b: Records, ids: seq<TxId>, at: TxId -> Standing, ticks: seq<nat>, ledger: Ledger,
      requests: set<Request>)
  {
    forall u: Unfolding :: RetriedUnfolded(u, w, a, b, ids, at, ticks, ledger, requests)
  }

  lemma RetriedMeans(
      w: World, a: Records, b: Records, ids: seq<TxId>, at: TxId -> Standing, ticks: seq<nat>, ledger: Ledger,
      requests: set<Request>)
    ensures Retried(w, a, b, ids, at, ticks, ledger, requests) <==>
            RetriedUnfolded(Unfolding, w, a, b, ids, at, ticks, ledger, requests)
  {
  }

  lemma NoneRetried(
      w: World, a: Records, ids: seq<TxId>, at: TxId -> Standing, ledger: Ledger, requests: set<Request>)
    ensures Retried(w, a, a, ids[..0], at, [], ledger, requests)
  {
    RetriedMeans(w, a, a, ids[..0], at, [], ledger, requests);
  }

  /** Another transaction's retry leaves this one's outcome. */
  lemma OutcomeStands(
      w: World, before: Transaction, after: Transaction, at: Standing, now: nat, l: Ledger, l2: Ledger,
      requests: set<Request>, more: set<Request>)
    requires RetryOutcome(w, before, after, at, now, l, requests) && requests <= more
    requires after.txId in l2.reservations ==> after.txId in l.reservations
    ensures RetryOutcome(w, before, after, at, now, l2, more)
  {
  }

  lemma RetriedOneMore(
      w: World, a: Records, b: Records, c: Records, ids: seq<TxId>, i: nat, at: TxId -> Standing, ticks: seq<nat>,
      now: nat, l: Ledger, l2: Ledger, requests: set<Request>, more: set<Request>)
    requires Distinct(ids) && i < |ids| && Retried(w, a, b, ids[..i], at, ticks, l, requests) && requests <= more
    requires forall u :: u != ids[i] ==> Lookup(b, u) == Lookup(c, u)
    requires forall u :: u != ids[i] && u in l2.reservations ==> u in l.reservations
    requires ids[i] in a && ids[i] in b && ids[i] in c && forall t :: t in b ==> b[t].txId == t
    requires RetryOutcome(w, b[ids[i]], c[ids[i]], at(ids[i]), w.clock(now), l2, more)
    ensures Retried(w, a, c, ids[..i + 1], at, ticks + [now], l2, more)
  {
    RetriedMeans(w, a, b, ids[..i], at, ticks, l, requests);
    RetriedMeans(w, a, c, ids[..i + 1], at, ticks + [now], l2, more);
    assert ids[..i + 1] == ids[..i] + [ids[i]];
    assert Lookup(a, ids[i]) == Lookup(b, ids[i]);
    forall j | 0 <= j < i
      ensures ids[j] in c && RetryOutcome(w, a[ids[j]], c[ids[j]], at(ids[j]), w.clock(ticks[j]), l2, more)
    {
      assert ids[..i][j] == ids[j] && Lookup(b, ids[j]) == Lookup(c, ids[j]);
      OutcomeStands(w, a[ids[j]], b[ids[j]], at(ids[j]), w.clock(ticks[j]), l, l2, requests, more);
    }
    forall t | t !in ids[..i + 1] ensures Lookup(c, t) == Lookup(a, t) {
      assert Lookup(b, t) == Lookup(c, t);
    }
  }

  /** What a round makes of payments that are prepared or decided. */
  lemma RoundDecides(
      w: World, a: Records, b: Records, ids: seq<TxId>, at: TxId -> Standing, ticks: seq<nat>, l: Ledger,
      requests: set<Request>)
    requires Retried(w, a, b, ids, at, ticks, l, requests)
    ensures |ticks| == |ids| && forall i :: 0 <= i < |ids| ==> ids[i] in a && ids[i] in b
    ensures forall i :: 0 <= i < |ids| ==>
              var before, s := a[ids[i]], at(ids[i]);
              before.role.Coordinator? && before.state.CoordinatorPrepared? && s.session.Some? && !s.committing
              && (exists x :: x in s.session.value.requiredSigners &&
                    forall k :: 0 <= k < |s.session.value.signatures| ==> s.session.value.signatures[k].address != x)
              ==>
                && (before.expiresUnix == 0 || w.clock(ticks[i]) < before.expiresUnix ==> b[ids[i]] == before)
                && (0 < before.expiresUnix <= w.clock(ticks[i]) && Calm(w) && Helpful(w) ==>
                     b[ids[i]].state.CoordinatorAborted?)
    ensures Calm(w) && Helpful(w) ==>
              forall i :: 0 <= i < |ids| ==>
                var before, s := a[ids[i]], at(ids[i]);
                before.role.Coordinator? && s.session.Some?
                && (before.state.CoordinatorCommitDecided? || before.state.CoordinatorPrepared?)
                && (forall x :: x in s.session.value.requiredSigners ==>
                      exists k :: 0 <= k < |s.session.value.signatures|
                                  && s.session.value.signatures[k].address == x)
                ==> b[ids[i]].state.CoordinatorCommitted?
  {
    RetriedMeans(w, a, b, ids, at, ticks, l, requests);
  }

  lemma OneMoreTurn(
      w: World, a: Records, before: Log, after: Log, ids: seq<TxId>, i: nat, at: TxId -> Standing, ticks: seq<nat>,
      now: nat, l: Ledger, l2: Ledger, requests: set<Request>, more: set<Request>)
    requires Distinct(ids) && i < |ids| && Retried(w, a, Latest(before), ids[..i], at, ticks, l, requests)
    requires requests <= more && Touches(before, after, ids[i]) && OthersStay(l, l2, ids[i])
    requires ids[i] in a && ids[i] in Latest(before) && ids[i] in Latest(after)
    requires RetryOutcome(w, Latest(before)[ids[i]], Latest(after)[ids[i]], at(ids[i]), w.clock(now), l2, more)
    ensures Retried(w, a, Latest(after), ids[..i + 1], at, ticks + [now], l2, more) && before <= after
  {
    TouchesMeans(before, after, ids[i]);
    KnownIds(before);
    RetriedOneMore(w, a, Latest(before), Latest(after), ids, i, at, ticks, now, l, l2, requests, more);
  }

  ghost predicate TalliedUnfolded(
      u: Unfolding, w: World, a: Records, ids: seq<TxId>, at: TxId -> Standing, ticks: seq<nat>, moved: seq<bool>)
  {
    && |moved| == |ticks| <= |ids|
    && forall i :: 0 <= i < |moved| ==>
         ids[i] in a && (moved[i] <==> Progresses(a[ids[i]], at(ids[i]), w.clock(ticks[i])))
  }

  /** `moved` tells which retries count as progress when nothing fails. */
  ghost predicate Tallied(
      w: World, a: Records, ids: seq<TxId>, at: TxId -> Standing, ticks: seq<nat>, moved: seq<bool>)
  {
    Calm(w) && Helpful(w) ==> forall u: Unfolding :: TalliedUnfolded(u, w, a, ids, at, ticks, moved)
  }

  lemma TalliedMeans(w: World, a: Records, ids: seq<TxId>, at: TxId -> Standing, ticks: seq<nat>, moved: seq<bool>)
    ensures Tallied(w, a, ids, at, ticks, moved) <==>
            (Calm(w) && Helpful(w) ==> TalliedUnfolded(Unfolding, w, a, ids, at, ticks, moved))
  {
  }

  lemma TalliedOneMore(
      w: World, a: Records, ids: seq<TxId>, at: TxId -> Standing, ticks: seq<nat>, moved: seq<bool>, now: nat,
      more: bool)
    requires Tallied(w, a, ids, at, ticks, moved) && |moved| == |ticks| < |ids| && ids[|ticks|] in a
    requires Calm(w) && Helpful(w) ==> (more <==> Progresses(a[ids[|ticks|]], at(ids[|ticks|]), w.clock(now)))
    ensures Tallied(w, a, ids, at, ticks + [now], moved + [more])
  {
    TalliedMeans(w, a, ids, at, ticks, moved);
    TalliedMeans(w, a, ids, at, ticks + [now], moved + [more]);
  }

  lemma CountOneMore(s: seq<bool>, b: bool)
    ensures CountTrue(s + [b]) == CountTrue(s) + if b then 1 else 0
  {
    assert (s + [b])[..|s|] == s;
  }

  function CountTrue(s: seq<bool>): nat {
    if s == [] then 0 else CountTrue(s[..|s| - 1]) + if s[|s| - 1] then 1 else 0
  }

  lemma AppliedOthersStay(a: Ledger, b: Ledger, t: TxId, terms: Terms)
    requires b == a || Applied(a, t, terms) == Ok(b)
    ensures OthersStay(a, b, t)
  {
    if b != a {
      AppliedGrows(a, t, terms);
      AppliedDrops(a, t, terms);
    }
  }

  lemma AppliedDrops(l: Ledger, t: TxId, terms: Terms)
    requires Applied(l, t, terms).Ok?
    ensures Applied(l, t, terms).value.reservations == l.reservations - {t}
  {
  }

  /** What `abort_origin` leaves is what the retry may. */
  lemma AbortIsOutcome(
      w: World, before: Transaction, after: Transaction, at: Standing, now: nat, l: Ledger, l2: Ledger,
      requests: set<Request>, res: Result<(), TxError>)
    requires before.role.Coordinator? && before.txId == after.txId && before.txId !in l.applied
    requires before.state.CoordinatorPrepared? || before.state.CoordinatorPreparing?
                 || before.state.CoordinatorAbortDecided?
    requires before.state.CoordinatorPrepared? ==>
               at.session.Some? && !SignedByAll(at.session.value) && !at.committing && 0 < before.expiresUnix <= now
    requires after == before || HasAbortDecision(after.state)
    requires res != Err(NotDecided) ==> HasAbortDecision(after.state) && AbortAsks(before, requests)
    requires l2 == if at.failable && res != Err(NotDecided) then Released(l, before.txId) else l
    requires res == Err(NotDecided) ==> !before.state.CoordinatorAbortDecided? && !after.state.CoordinatorAborted?
    requires Calm(w) ==> res == if at.failable then Ok(()) else Err(SessionRefuses)
    requires Calm(w) && Helpful(w) ==> after.state.CoordinatorAborted?
    ensures RetryOutcome(w, before, after, at, now, l2, requests) && OthersStay(l, l2, before.txId)
    ensures Calm(w) && Helpful(w) ==> (res.Ok? <==> Progresses(before, at, now))
  {
  }

  /** What `commit_origin_locked` leaves is what the retry may. */
  lemma CommitIsOutcome(
      w: World, before: Transaction, after: Transaction, at: Standing, now: nat, l: Ledger, requests: set<Request>,
      res: Result<bool, TxError>)
    requires before.role.Coordinator? && (before.state.CoordinatorPrepared? || before.state.CoordinatorCommitDecided?)
    requires before.state.CoordinatorPrepared? ==>
               at.session.Some? && (SignedByAll(at.session.value) || at.committing)
    requires before.state.CoordinatorCommitDecided? && at.session.Some? ==> SignedByAll(at.session.value)
    requires !Ready(Some(before), at.session) ==> after == before && res.Err?
    requires Ready(Some(before), at.session) ==> after == before || HasCommitDecision(after.state)
    requires Ready(Some(before), at.session) && Calm(w) && Helpful(w) ==> res.Ok? && after.state.CoordinatorCommitted?
    ensures RetryOutcome(w, before, after, at, now, l, requests)
    ensures Calm(w) && Helpful(w) ==> (res.Ok? <==> Progresses(before, at, now))
  {
  }

  /** The next transaction's record and session are as before the round. */
  lemma StillOpen(
      k: Track, k2: Track, w: World, a: Records, b: Records, ids: seq<TxId>, i: nat, at: TxId -> Standing,
      ticks: seq<nat>, l: Ledger, requests: set<Request>, session: Option<Payment>)
    requires Distinct(ids) && i < |ids| && Retried(w, a, b, ids[..i], at, ticks, l, requests) && Onward(k, k2)
    requires ids[i] in a
    ensures ids[i] in b && b[ids[i]] == a[ids[i]]
    ensures session.Some? && SessionOf(k, a[ids[i]], session.value) ==> SessionOf(k2, b[ids[i]], session.value)
  {
    RetriedMeans(w, a, b, ids[..i], at, ticks, l, requests);
    assert Lookup(a, ids[i]) == Lookup(b, ids[i]);
  }

  /**
   What a failed `prepare_origin` may leave: a first record not yet answered by all, the last one unreported,
   or an abort.
   */
  predicate Originating(tx: Transaction) {
    tx.state.CoordinatorPreparing? || (tx.state.CoordinatorPrepared? && AllPrepared(tx)) || HasAbortDecision(tx.state)
  }

  /** Begun, and neither decided nor aborted. */
  predicate Undecided(newest: Option<Transaction>) {
    newest.Some? && (newest.value.state.CoordinatorPreparing? || newest.value.state.CoordinatorPrepared?)
  }

  /** At most the record `tx` was appended. */
  ghost predicate Grew(before: Log, after: Log, k: Track, k2: Track, tx: Transaction) {
    || (after == before && k2 == k)
    || (after == before + [tx] && Latest(after) == Latest(before)[tx.txId := tx]
        && SessionsAt(k2) == SessionsAfter(Latest(before), SessionsAt(k), tx))
  }

  /** One more record of a transaction, or none. */
  lemma GrewTouches(before: Log, after: Log, k: Track, k2: Track, tx: Transaction)
    requires Grew(before, after, k, k2, tx)
    ensures Touches(before, after, tx.txId)
    ensures Lookup(Latest(after), tx.txId) == Lookup(Latest(before), tx.txId)
            || (after == before + [tx] && Lookup(Latest(after), tx.txId) == Some(tx))
    ensures after == before + [tx] ==> Lookup(Latest(after), tx.txId) == Some(tx)
  {
    TouchesMeans(before, after, tx.txId);
    Extended(before, tx);
  }

  /** The run went on, no message was unsent, and no payment was closed in between. */
  ghost predicate Onward(k: Track, k2: Track) {
    && k.trace <= k2.trace && SessionsAt(k2).closed == SessionsAt(k).closed
    && k.c.requests <= k2.c.requests && k.c.responses <= k2.c.responses
  }

  /** Other transactions hold and have settled what they did. */
  ghost predicate OthersStay(a: Ledger, b: Ledger, t: TxId) {
    && (forall u :: u != t ==> (u in b.reservations <==> u in a.reservations))
    && (forall u :: u != t ==> (u in b.applied <==> u in a.applied))
  }

  lemma {:induction false} KnownIds(log: Log)
    ensures forall t :: t in Latest(log) ==> Latest(log)[t].txId == t
  {
    if log != [] {
      KnownIds(log[..|log| - 1]);
    }
  }

  class DistributedTxManager {
    const provider: Provider
    const site: Site
    const world: World
    const hub: HubState
    var log: Log
    var tick: nat
    ghost var track: Track

    /** A hub that has just registered its channels. */
    constructor (provider: Provider, site: Site, world: World)
      requires Registration(site.base)
      ensures Valid() && fresh(hub) && log == []
    {
      this.provider, this.site, this.world := provider, site, world;
      hub := new HubState(site.maxHops, site.base);
      log, tick := [], 0;
      track := Track(provider, site, [], Founded(map[provider := site]));
      FreshTrack(provider, site);
    }

    ghost predicate Valid()
      reads this, hub
    {
      && track.p == provider && track.site == site && hub.maxHops == site.maxHops
      && OnTrack(track, log, hub.View())
    }

    function Newest(t: TxId): Option<Transaction>
      reads this
    {
      Lookup(Latest(log), t)
    }

    /** `append_at`: the journal validates the record, then writes it or fails. */
    method Append(tx: Transaction, ghost m: NetStep) returns (ok: bool)
      requires Valid() && (MayFollow(Newest(tx.txId), tx) ==> Writes(track, m, tx))
      modifies this`log, this`tick, this`track
      ensures Valid() && Onward(old(track), track) && tick == old(tick) + 1
      ensures track.c.requests == old(track).c.requests && track.c.responses == old(track).c.responses
      ensures ok <==> world.writes(old(tick)).Durable? && MayFollow(old(Newest(tx.txId)), tx)
      ensures (log == old(log) + [tx]) <==> !world.writes(old(tick)).Nothing? && MayFollow(old(Newest(tx.txId)), tx)
      ensures Grew(old(log), log, old(track), track, tx)
    {
      var accepted := CheckTransition(Newest(tx.txId), tx).None?;
      ok := accepted && world.writes(tick).Durable?;
      var landed := accepted && !world.writes(tick).Nothing?;
      tick := tick + 1;
      if landed {
        ghost var more := AppendTrack(track, log, hub.View(), m, tx);
        Extended(log, tx);
        log, track := log + [tx], more;
      }
    }

    // ----- the participant -----

    /** The prepare branch of `handle_participant_request`. */
    method HandlePrepare(r: Request) returns (res: Result<TxState, TxError>)
      requires Valid() && Verified(track, r) && r.phase.PreparePhase?
      requires Newest(r.descriptor.txId).Some? ==> Matches(Newest(r.descriptor.txId).value, r.descriptor)
      modifies this`log, this`tick, this`track, hub
      ensures Valid() && Verified(track, r) && Onward(old(track), track) && tick >= old(tick)
      ensures log == old(log) || Takes(old(log), log, r)
      ensures SessionsAt(track).lost == if res == Err(NotJournaled) && log != old(log)
                                       then SessionsAt(old(track)).lost + {r.descriptor.txId}
                                           else SessionsAt(old(track)).lost
      ensures Moves(site.maxHops, old(Newest(r.descriptor.txId)), Newest(r.descriptor.txId), old(hub.View()),
                    hub.View(), r, ErrorOf(res))
      ensures res.Ok? ==> ReplyState(Newest(r.descriptor.txId), r) == Some(res.value)
      ensures world.writes(old(tick)).Durable? ==>
                (res.Ok? <==> Answerable(site.maxHops, old(Newest(r.descriptor.txId)), old(hub.View()), r))
    {
      var d := r.descriptor;
      var existing := Newest(d.txId);
      if existing.Some? {
        match existing.value.state {
          case ParticipantPrepared => return Ok(ParticipantPrepared);
          case ParticipantCommitted => return Ok(ParticipantCommitted);
          case ParticipantAborted => return Err(AlreadyAborted);
          case ParticipantCommitDecided => return Err(RecoveryPending);
          case _ => return Err(InvalidState);
        }
      }
      var error := ReserveTerms(r);
      if error.Some? {
        return Err(Unreserved(error.value));
      }
      var ok := TakePrepare(r);
      return if ok then Ok(ParticipantPrepared) else Err(NotJournaled);
    }

    /** Reserves the terms of a new prepare. */
    method ReserveTerms(r: Request) returns (error: Option<LedgerError>)
      requires Valid() && Verified(track, r) && r.phase.PreparePhase? && Newest(r.descriptor.txId).None?
      modifies this`track, hub
      ensures Valid() && Verified(track, r) && Onward(old(track), track) && SessionsAt(track) == SessionsAt(old(track))
      ensures var d := r.descriptor;
              && var spec := Prepared(old(hub.View()), site.maxHops, d.txId, TermsFor(d));
              && (error.None? ==> spec == Ok(hub.View()) && |d.hops| <= site.maxHops)
              && (error.None? ==> d.txId in hub.reservations && hub.reservations[d.txId] == TermsFor(d))
              && (error.None? ==> Released(hub.View(), d.txId) == Released(old(hub.View()), d.txId))
              && (error.Some? ==> spec == Err(error.value) && hub.View() == old(hub.View()))
    {
      var d := r.descriptor;
      error := hub.PrepareDistributedReservation(d.txId, TermsFor(d));
      if error.None? {
        track := ReserveTrack(track, log, old(hub.View()), d.txId, TermsFor(d));
        StaysVerified(old(track), track, r);
        PreparedHolds(track, log, old(hub.View()), site.maxHops, d.txId, TermsFor(d));
      }
    }

    /** Journals the prepare whose terms are reserved, or gives the reservation back. */
    method TakePrepare(r: Request) returns (ok: bool)
      requires Valid() && Verified(track, r) && r.phase.PreparePhase? && Newest(r.descriptor.txId).None?
      requires r.descriptor.txId in hub.reservations && hub.reservations[r.descriptor.txId] == TermsFor(r.descriptor)
      requires |r.descriptor.hops| <= site.maxHops
      modifies this`log, this`tick, this`track, hub
      ensures Valid() && Verified(track, r) && Onward(old(track), track) && tick >= old(tick)
      ensures log == old(log) || Takes(old(log), log, r)
      ensures SessionsAt(track).lost == if !ok && log != old(log)
                                       then SessionsAt(old(track)).lost + {r.descriptor.txId}
                                           else SessionsAt(old(track)).lost
      ensures hub.View() == if ok then old(hub.View()) else Released(old(hub.View()), r.descriptor.txId)
      ensures ok ==> ReplyState(Newest(r.descriptor.txId), r) == Some(ParticipantPrepared)
      ensures ok <==> world.writes(old(tick)).Durable?
    {
      var d := r.descriptor;
      var now := world.clock(tick);
      var next := FirstRecord(d, ParticipantPrepared, now);
      ghost var reserved := hub.View();
      HandleIsWrite(track, log, hub.View(), r, now, next);
      ok := Append(next, Handle(provider, r, now));
      StaysVerified(old(track), track, r);
      if !ok {
        hub.ReleaseDistributedReservation(d.txId);
        if Newest(d.txId).Some? {
          track := LoseTrack(track, log, reserved, d.txId);
        } else {
          track := ReleaseTrack(track, log, reserved, d.txId);
        }
        StaysVerified(old(track), track, r);
      }
    }

    /** One record of the commit branch. */
    method TakeCommit(r: Request, tx: Transaction) returns (ok: bool, next: Transaction)
      requires Valid() && Verified(track, r) && r.phase.CommitPhase?
      requires Newest(r.descriptor.txId) == Some(tx) && Matches(tx, r.descriptor)
      requires tx.state.ParticipantPrepared? || (tx.state.ParticipantCommitDecided? && tx.txId in hub.applied)
      modifies this`log, this`tick, this`track
      ensures Valid() && Verified(track, r) && Onward(old(track), track) && tick == old(tick) + 1
      ensures ok <==> world.writes(old(tick)).Durable?
      ensures if world.writes(old(tick)).Nothing? then log == old(log)
              else Takes(old(log), log, r) && Newest(r.descriptor.txId) == Some(next)
      ensures next.txId == tx.txId && Matches(next, r.descriptor)
      ensures next.state == if tx.state.ParticipantPrepared? then ParticipantCommitDecided else ParticipantCommitted
    {
      var now := world.clock(tick);
      next := NextRecord(Some(tx), r, now).value;
      HandleIsWrite(track, log, hub.View(), r, now, next);
      ok := Append(next, Handle(provider, r, now));
      StaysVerified(old(track), track, r);
    }

    /** Settles a transaction whose commit decision is durable; refused exactly if its reservation was lost. */
    method Apply(tx: Transaction) returns (error: Option<LedgerError>)
      requires Valid() && Newest(tx.txId) == Some(tx) && HasCommitDecision(tx.state)
      modifies this`track, hub
      ensures Valid() && Onward(old(track), track)
      ensures track.c.requests == old(track).c.requests && track.c.responses == old(track).c.responses
      ensures SessionsAt(track) == SessionsAt(old(track))
      ensures error.None? <==> tx.txId in old(hub.applied) || tx.txId !in SessionsAt(track).lost
      ensures var spec := Applied(old(hub.View()), tx.txId, TermsOf(tx));
              if error.None? then spec == Ok(hub.View()) && tx.txId in hub.applied
              else spec == Err(error.value) && hub.View() == old(hub.View())
    {
      SettleOutcome(track, log, hub.View(), tx.txId);
      ghost var ledger := hub.View();
      var r := hub.ApplyDistributedSettlement(tx.txId, TermsOf(tx));
      if r.Err? {
        return Some(r.error);
      }
      track := SettleTrack(track, log, ledger, tx.txId);
      return None;
    }

    /** Settles, then records it. */
    method FinishCommit(r: Request, tx: Transaction) returns (res: Result<TxState, TxError>)
      requires Valid() && Verified(track, r) && r.phase.CommitPhase?
      requires Newest(r.descriptor.txId) == Some(tx) && Matches(tx, r.descriptor) && tx.state.ParticipantCommitDecided?
      modifies this`log, this`tick, this`track, hub
      ensures Valid() && Verified(track, r) && Onward(old(track), track) && tick >= old(tick)
      ensures log == old(log) || Takes(old(log), log, r)
      ensures var spec := Applied(old(hub.View()), tx.txId, TermsFor(r.descriptor));
              && hub.View() == (if spec.Ok? then spec.value else old(hub.View()))
              && (res.Ok? ==> ReplyState(Newest(r.descriptor.txId), r) == Some(res.value))
              && (world.writes(old(tick)).Durable? ==> (res.Ok? <==> spec.Ok?))
              && (res.Err? ==> res.error != NotDecided)
    {
      ghost var decided := track;
      var error := Apply(tx);
      StaysVerified(decided, track, r);
      if error.Some? {
        return Err(Unreserved(error.value));
      }
      var ok, next := TakeCommit(r, tx);
      return if ok then Ok(ParticipantCommitted) else Err(NotJournaled);
    }

    /** The commit branch of `handle_participant_request`. */
    method HandleCommit(r: Request) returns (res: Result<TxState, TxError>)
      requires Valid() && Verified(track, r) && r.phase.CommitPhase?
      requires Newest(r.descriptor.txId).Some? ==> Matches(Newest(r.descriptor.txId).value, r.descriptor)
      modifies this`log, this`tick, this`track, hub
      ensures Valid() && Verified(track, r) && Onward(old(track), track) && tick >= old(tick)
      ensures Serves(old(log), log, r)
      ensures Moves(site.maxHops, old(Newest(r.descriptor.txId)), Newest(r.descriptor.txId), old(hub.View()),
                    hub.View(), r, ErrorOf(res))
      ensures res.Ok? ==> ReplyState(Newest(r.descriptor.txId), r) == Some(res.value)
      ensures world.writes(old(tick)).Durable? && world.writes(old(tick) + 1).Durable? ==>
                (res.Ok? <==> Answerable(site.maxHops, old(Newest(r.descriptor.txId)), old(hub.View()), r))
    {
      var existing := Newest(r.descriptor.txId);
      if existing.None? {
        return Err(CommitBeforePrepare);
      }
      var tx := existing.value;
      match tx.state {
        case ParticipantCommitted => return Ok(ParticipantCommitted);
        case ParticipantAborted => return Err(ConflictsWithAbort);
        case ParticipantPrepared =>
        case ParticipantCommitDecided =>
        case _ => return Err(InvalidState);
      }
      res := CommitFrom(r, tx);
    }

    /** Makes the decision durable unless it is already, and goes on from there. */
    method CommitFrom(r: Request, start: Transaction) returns (res: Result<TxState, TxError>)
      requires Valid() && Verified(track, r) && r.phase.CommitPhase?
      requires Newest(r.descriptor.txId) == Some(start) && Matches(start, r.descriptor)
      requires start.state.ParticipantPrepared? || start.state.ParticipantCommitDecided?
      modifies this`log, this`tick, this`track, hub
      ensures Valid() && Verified(track, r) && Onward(old(track), track) && tick >= old(tick)
      ensures Serves(old(log), log, r)
      ensures var spec := Applied(old(hub.View()), r.descriptor.txId, TermsFor(r.descriptor));
              && hub.View() == (if spec.Ok? && res != Err(NotDecided) then spec.value else old(hub.View()))
              && (world.writes(old(tick)).Durable? && world.writes(old(tick) + 1).Durable? ==> (res.Ok? <==> spec.Ok?))
      ensures res.Ok? ==> ReplyState(Newest(r.descriptor.txId), r) == Some(res.value)
    {
      var tx := start;
      if tx.state.ParticipantPrepared? {
        var ok, next := TakeCommit(r, tx);
        if !ok {
          return Err(NotDecided);
        }
        tx := next;
      }
      res := FinishCommit(r, tx);
    }

    method TakeAbort(r: Request, now: nat, next: Transaction) returns (ok: bool)
      requires Valid() && Verified(track, r) && r.phase.AbortPhase?
      requires NextRecord(Newest(r.descriptor.txId), r, now) == Some(next)
      modifies this`log, this`tick, this`track
      ensures Valid() && Verified(track, r) && Onward(old(track), track) && tick == old(tick) + 1
      ensures track.c.requests == old(track).c.requests
      ensures ok <==> world.writes(old(tick)).Durable?
      ensures if world.writes(old(tick)).Nothing? then log == old(log)
              else Takes(old(log), log, r) && Newest(r.descriptor.txId) == Some(next)
    {
      HandleIsWrite(track, log, hub.View(), r, now, next);
      ok := Append(next, Handle(provider, r, now));
      StaysVerified(old(track), track, r);
    }

    /** The abort branch of `handle_participant_request`. */
    method HandleAbort(r: Request) returns (res: Result<TxState, TxError>)
      requires Valid() && Verified(track, r) && r.phase.AbortPhase?
      requires Newest(r.descriptor.txId).Some? ==> Matches(Newest(r.descriptor.txId).value, r.descriptor)
      modifies this`log, this`tick, this`track, hub
      ensures Valid() && Verified(track, r) && Onward(old(track), track) && tick >= old(tick)
      ensures log == old(log) || Takes(old(log), log, r)
      ensures Moves(site.maxHops, old(Newest(r.descriptor.txId)), Newest(r.descriptor.txId), old(hub.View()),
                    hub.View(), r, ErrorOf(res))
      ensures res.Ok? ==> ReplyState(Newest(r.descriptor.txId), r) == Some(res.value)
      ensures NextRecord(old(Newest(r.descriptor.txId)), r, 0).Some? ==>
                && tick == old(tick) + 1 && (res.Ok? <==> world.writes(old(tick)).Durable?)
                && (log == old(log) <==> world.writes(old(tick)).Nothing?)
      ensures NextRecord(old(Newest(r.descriptor.txId)), r, 0).None? ==>
                && tick == old(tick) && log == old(log)
                && (res.Ok? <==> ReplyState(old(Newest(r.descriptor.txId)), r).Some?)
    {
      var d := r.descriptor;
      var existing := Newest(d.txId);
      var now := world.clock(tick);
      var next;
      if existing.Some? {
        var tx := existing.value;
        if HasCommitDecision(tx.state) {
          return Err(ConflictsWithCommit);
        }
        if tx.state.ParticipantAborted? {
          return Ok(ParticipantAborted);
        }
        next := tx.(state := ParticipantAborted, updatedUnix := now);
      } else {
        next := FirstRecord(d, ParticipantAborted, now);
      }
      KnownRoles(track, log, hub.View());
      var ok := TakeAbort(r, now, next);
      if !ok {
        return Err(NotJournaled);
      }
      FailPayment(d.txId, true);
      StaysVerified(old(track), track, r);
      return Ok(ParticipantAborted);
    }

    /** The phases of `handle_participant_request`, after `validate_existing_descriptor`. */
    method Dispatch(r: Request) returns (res: Result<TxState, TxError>)
      requires Valid() && Verified(track, r)
      modifies this`log, this`tick, this`track, hub
      ensures Valid() && Verified(track, r) && Onward(old(track), track)
      ensures Serves(old(log), log, r)
      ensures Moves(site.maxHops, old(Newest(r.descriptor.txId)), Newest(r.descriptor.txId), old(hub.View()),
                    hub.View(), r, ErrorOf(res))
      ensures res.Ok? ==> ReplyState(Newest(r.descriptor.txId), r) == Some(res.value)
      ensures Calm(world) ==>
                (res.Ok? <==> Answerable(site.maxHops, old(Newest(r.descriptor.txId)), old(hub.View()), r))
    {
      var existing := Newest(r.descriptor.txId);
      if existing.Some? && !Matches(existing.value, r.descriptor) {
        return Err(DescriptorDiffers);
      }
      match r.phase
      case PreparePhase => res := HandlePrepare(r);
      case CommitPhase => res := HandleCommit(r);
      case AbortPhase => res := HandleAbort(r);
    }

    /** `verify_request` and the two checks after it. */
    method Admit(r: Request) returns (error: Option<TxError>)
      requires Valid()
      modifies this`track
      ensures Valid() && Onward(old(track), track)
      ensures error.None? <==> Admits(provider, site, world.clock(tick), r)
      ensures error.None? ==> Verified(track, r)
    {
      var invalid := CheckRequest(hub.channels.Keys, r);
      KnownLedger(track, log, hub.View());
      if invalid.Some? {
        return Some(Rejected(invalid.value));
      }
      if r.descriptor.participant != provider {
        return Some(NotThisHub);
      }
      if r.phase.PreparePhase? && r.descriptor.expiresUnix > 0 && world.clock(tick) >= r.descriptor.expiresUnix {
        return Some(Expired);
      }
      track := MessageTrack(track, log, hub.View(), Arrive(r));
      VerifiedMeans(track, r);
      return None;
    }

    /** Admits the request, serves its phase and signs the answer. */
    method ServeRequest(r: Request) returns (res: Result<Response, TxError>)
      requires Valid()
      modifies this`log, this`tick, this`track, hub
      ensures Valid() && Onward(old(track), track)
      ensures Serves(old(log), log, r)
      ensures if Admits(provider, site, world.clock(old(tick)), r)
              then Moves(site.maxHops, old(Newest(r.descriptor.txId)), Newest(r.descriptor.txId), old(hub.View()),
                         hub.View(), r, ErrorOf(res))
              else res.Err? && log == old(log) && hub.View() == old(hub.View())
      ensures res.Ok? ==>
                && ReplyState(Newest(r.descriptor.txId), r).Some?
                && res.value == ResponseTo(r, ReplyState(Newest(r.descriptor.txId), r).value)
                && res.value in track.c.responses
      ensures Calm(world) ==>
                (res.Ok? <==>
                  && Admits(provider, site, world.clock(old(tick)), r)
                  && Answerable(site.maxHops, old(Newest(r.descriptor.txId)), old(hub.View()), r))
    {
      var error := Admit(r);
      if error.Some? {
        return Err(error.value);
      }
      var state := Dispatch(r);
      if state.Err? {
        return Err(state.error);
      }
      track := ReplyTrack(track, log, hub.View(), r);
      return Ok(ResponseTo(r, state.value));
    }

    /** Serves the request; what is answered follows from the newest record and the ledger. */
    method AnswerRequest(r: Request) returns (res: Result<Response, TxError>)
      requires Valid()
      modifies this`log, this`tick, this`track, hub
      ensures Valid() && Onward(old(track), track)
      ensures Serves(old(log), log, r)
      ensures if Admits(provider, site, world.clock(old(tick)), r)
              then Moves(site.maxHops, old(Newest(r.descriptor.txId)), Newest(r.descriptor.txId), old(hub.View()),
                         hub.View(), r, ErrorOf(res))
              else res.Err? && log == old(log) && hub.View() == old(hub.View())
      ensures res.Ok? ==>
                && ReplyState(Newest(r.descriptor.txId), r).Some?
                && res.value == ResponseTo(r, ReplyState(Newest(r.descriptor.txId), r).value)
                && res.value in track.c.responses
      ensures Calm(world) ==>
                (res.Ok? <==>
                  && Admits(provider, site, world.clock(old(tick)), r)
                  && Answerable(site.maxHops, old(Newest(r.descriptor.txId)), old(hub.View()), r))
      ensures Calm(world) && CheckRequest(site.base.Keys, r).None? && r.descriptor.participant == provider ==>
                Answers(old(Newest(r.descriptor.txId)), old(hub.View()), r,
                        r.descriptor.expiresUnix == 0 || world.clock(old(tick)) < r.descriptor.expiresUnix, res)
      ensures Calm(world) && Admits(provider, site, world.clock(old(tick)), r)
              && r.phase.PreparePhase? && old(Newest(r.descriptor.txId)).None? ==>
                var spec := Prepared(old(hub.View()), site.maxHops, r.descriptor.txId, TermsFor(r.descriptor));
                if spec.Ok? then res.Ok? && res.value.state.ParticipantPrepared? && hub.View() == spec.value
                else res.Err? && hub.View() == old(hub.View())
    {
      ghost var before, ledger := Newest(r.descriptor.txId), hub.View();
      res := ServeRequest(r);
      if Calm(world) && Admits(provider, site, world.clock(old(tick)), r) {
        AnswersAre(site.maxHops, before, Newest(r.descriptor.txId), ledger, hub.View(), r, res);
      }
    }

    /** `handle_participant_request`. */
    method HandleParticipantRequest(r: Request) returns (res: Result<Response, TxError>)
      requires Valid()
      modifies this`log, this`tick, this`track, hub
      ensures Valid() && Onward(old(track), track)
      ensures Serves(old(log), log, r)
      ensures if Admits(provider, site, world.clock(old(tick)), r)
              then Moves(site.maxHops, old(Newest(r.descriptor.txId)), Newest(r.descriptor.txId), old(hub.View()),
                         hub.View(), r, ErrorOf(res))
              else res.Err? && log == old(log) && hub.View() == old(hub.View())
      ensures res.Ok? ==>
                && ReplyState(Newest(r.descriptor.txId), r).Some?
                && res.value == ResponseTo(r, ReplyState(Newest(r.descriptor.txId), r).value)
                && res.value in track.c.responses
      ensures Calm(world) ==>
                (res.Ok? <==>
                  && Admits(provider, site, world.clock(old(tick)), r)
                  && Answerable(site.maxHops, old(Newest(r.descriptor.txId)), old(hub.View()), r))
      ensures CheckRequest(site.base.Keys, r).Some? || r.descriptor.participant != provider
              || (r.phase.PreparePhase? && 0 < r.descriptor.expiresUnix <= world.clock(old(tick))) ==>
                res.Err? && log == old(log) && hub.View() == old(hub.View())
      ensures Calm(world) && CheckRequest(site.base.Keys, r).None? && r.descriptor.participant == provider
              && r.phase.PreparePhase?
              && (r.descriptor.expiresUnix == 0 || world.clock(old(tick)) < r.descriptor.expiresUnix)
              && old(Newest(r.descriptor.txId)).None? && r.descriptor.txId !in old(hub.reservations) ==>
                var d := r.descriptor;
                if |d.hops| <= site.maxHops
                   && (forall i, j :: 0 <= i < j < |d.hops| ==> d.hops[i].channelId != d.hops[j].channelId)
                   && (forall i :: 0 <= i < |d.hops| ==>
                         HopIsProper(d.hops[i]) && SenderCanPay(old(hub.View()), TermsFor(d), d.hops[i]))
                then res.Ok? && res.value.state.ParticipantPrepared?
                     && d.txId in hub.reservations && hub.reservations[d.txId] == TermsFor(d)
                else res.Err? && hub.View() == old(hub.View())
      ensures Calm(world) && CheckRequest(site.base.Keys, r).None? && r.descriptor.participant == provider ==>
                Answers(old(Newest(r.descriptor.txId)), old(hub.View()), r,
                        r.descriptor.expiresUnix == 0 || world.clock(old(tick)) < r.descriptor.expiresUnix, res)
    {
      FreshPrepare(track, log, hub.View(), r.descriptor);
      res := AnswerRequest(r);
    }

    // ----- the coordinator -----

    /** Appends a coordinator's next record. */
    method Advance(tx: Transaction) returns (ok: bool)
      requires Valid() && Newest(tx.txId).Some? && Newest(tx.txId).value.role.Coordinator?
      requires SessionAllows(track, log, hub.View(), tx)
      requires CoordinatorMay(track.c.responses, Newest(tx.txId).value, tx)
      modifies this`log, this`tick, this`track
      ensures Valid() && Onward(old(track), track) && tick == old(tick) + 1
      ensures track.c.requests == old(track).c.requests && track.c.responses == old(track).c.responses
      ensures world.writes(old(tick)).Durable? && Accepts(old(log), tx) ==> ok
      ensures ok ==> log == old(log) + [tx]
      ensures Grew(old(log), log, old(track), track, tx)
    {
      ghost var m := NetStep.Advance(provider, tx);
      AcceptsMeans(log, tx);
      if MayFollow(Newest(tx.txId), tx) {
        AdvanceIsWrite(track, log, hub.View(), tx);
      }
      ok := Append(tx, m);
    }

    /** `send_phase`: posts the request of one entry and accepts only the acknowledgement the phase asks for. */
    method SendPhase(t: TxId, entry: nat, phase: Phase) returns (ok: bool)
      requires Valid() && Newest(t).Some? && Newest(t).value.role.Coordinator?
      requires entry < |Newest(t).value.participants| && Calls(Newest(t).value.state, phase)
      modifies this`tick, this`track
      ensures Valid() && Onward(old(track), track) && tick == old(tick) + 1
      ensures SessionsAt(track) == SessionsAt(old(track)) && old(track).c.responses <= track.c.responses
      ensures RequestFor(Newest(t).value, entry, phase) in track.c.requests
      ensures ok ==> Acknowledgement(phase, Newest(t).value.participants[entry].descriptor) in track.c.responses
      ensures Helpful(world) ==> ok
      ensures ok <==> world.reply(old(tick), RequestFor(Newest(t).value, entry, phase))
                      == Some(Acknowledgement(phase, Newest(t).value.participants[entry].descriptor))
    {
      track := SendTrack(track, log, hub.View(), t, entry, phase);
      var reply := world.reply(tick, RequestFor(Newest(t).value, entry, phase));
      tick := tick + 1;
      ok := reply == Some(Acknowledgement(phase, Newest(t).value.participants[entry].descriptor));
      if ok {
        track := MessageTrack(track, log, hub.View(), Answer(reply.value));
      }
    }

    /** `deliver_abort`: every participant not yet known to have aborted is asked once. */
    method DeliverAbort(start: Transaction) returns (tx: Transaction, failures: nat)
      requires Valid() && Aborting(track, log, start)
      modifies this`log, this`tick, this`track
      ensures Valid() && Onward(old(track), track) && Touches(old(log), log, start.txId) && tick >= old(tick)
      ensures Aborting(track, log, tx) && tx.txId == start.txId
      ensures failures == 0 ==> AllAborted(tx)
      ensures forall i :: 0 <= i < |start.participants| && !start.participants[i].aborted ==>
                Request(AbortPhase, start.participants[i].descriptor, []) in track.c.requests
      ensures Calm(world) && Helpful(world) ==> failures == 0
    {
      tx, failures := start, 0;
      DeliveringMeans(start, start, 0, 0, track.c.requests);
      for index := 0 to |start.participants|
        invariant Valid() && Onward(old(track), track) && Touches(old(log), log, start.txId) && tick >= old(tick)
        invariant Aborting(track, log, tx) && tx.txId == start.txId
        invariant Delivering(start, tx, index, failures, track.c.requests)
        invariant Calm(world) && Helpful(world) ==> failures == 0
      {
        ghost var before := log;
        tx, failures := DeliverNext(start, tx, index, failures);
        TouchesOn(old(log), before, log, start.txId);
      }
      DeliveringMeans(start, tx, |start.participants|, failures, track.c.requests);
    }

    /** One turn of the loop. */
    method DeliverNext(ghost start: Transaction, tx: Transaction, index: nat, failed: nat)
      returns (next: Transaction, failures: nat)
      requires Valid() && Aborting(track, log, tx) && index < |start.participants|
      requires Delivering(start, tx, index, failed, track.c.requests)
      modifies this`log, this`tick, this`track
      ensures Valid() && Onward(old(track), track) && Touches(old(log), log, tx.txId) && tick >= old(tick)
      ensures Aborting(track, log, next) && next.txId == tx.txId
      ensures Delivering(start, next, index + 1, failures, track.c.requests)
      ensures Calm(world) && Helpful(world) && failed == 0 ==> failures == 0
    {
      next, failures := tx, failed;
      ghost var asked := track.c.requests;
      NextDelivery(start, tx, index, failed, asked);
      if !tx.participants[index].aborted {
        var ok;
        next, ok := AskAbort(tx, index);
        failures := failures + (if ok then 0 else 1);
      }
      OneMoreDelivered(start, tx, next, index, failed, failures, asked, track.c.requests);
    }

    method AskAbort(tx: Transaction, index: nat) returns (next: Transaction, ok: bool)
      requires Valid() && Aborting(track, log, tx) && index < |tx.participants|
      modifies this`log, this`tick, this`track
      ensures Valid() && Onward(old(track), track) && Touches(old(log), log, tx.txId) && tick >= old(tick)
      ensures Aborting(track, log, next) && next.txId == tx.txId && |next.participants| == |tx.participants|
      ensures forall i :: 0 <= i < |tx.participants| && i != index ==> next.participants[i] == tx.participants[i]
      ensures ok ==> next.participants[index].aborted
      ensures Request(AbortPhase, tx.participants[index].descriptor, []) in track.c.requests
      ensures Calm(world) && Helpful(world) ==> ok
    {
      ghost var record := Newest(tx.txId).value;
      next := tx;
      ok := SendPhase(tx.txId, index, AbortPhase);
      AheadWithMore(old(track), track, record, tx);
      if ok {
        next, ok := RecordAbortAck(tx, index);
      }
    }

    /** Journals an abort acknowledgement that arrived; in memory it counts even if that fails. */
    method RecordAbortAck(tx: Transaction, index: nat) returns (next: Transaction, ok: bool)
      requires Valid() && Aborting(track, log, tx) && index < |tx.participants|
      requires Acknowledgement(AbortPhase, tx.participants[index].descriptor) in track.c.responses
      modifies this`log, this`tick, this`track
      ensures Valid() && Onward(old(track), track) && Touches(old(log), log, tx.txId) && tick >= old(tick)
      ensures Aborting(track, log, next) && next == Acked(tx, index, AbortPhase, next.updatedUnix)
      ensures Calm(world) ==> ok
    {
      next := Acked(tx, index, AbortPhase, world.clock(tick));
      AckReady(track, log, hub.View(), tx, index, AbortPhase, next.updatedUnix);
      ok := Advance(next);
    }

    /** The last append of an abort: finished if every participant acknowledged. */
    method ConcludeAbort(tx: Transaction, failures: nat, done: string, pending: string) returns (ok: bool)
      requires Valid() && Aborting(track, log, tx)
      modifies this`log, this`tick, this`track
      ensures Valid() && Onward(old(track), track) && Touches(old(log), log, tx.txId) && tick >= old(tick)
      ensures Newest(tx.txId).Some? && HasAbortDecision(Newest(tx.txId).value.state)
      ensures Calm(world) ==> ok
      ensures ok && failures == 0 && AllAborted(tx) ==> Newest(tx.txId).value.state.CoordinatorAborted?
    {
      var next := if failures == 0 && AllAborted(tx) then tx.(state := CoordinatorAborted, lastError := done)
                  else tx.(lastError := pending);
      next := next.(updatedUnix := world.clock(tick));
      ConcludeReady(track, log, hub.View(), tx, next);
      ghost var start, k := log, track;
      ok := Advance(next);
      GrewTouches(start, log, k, track, next);
    }

    /** Makes the abort decision durable unless it is already. */
    method DecideAbort(record: Transaction, reason: string) returns (ok: bool, tx: Transaction)
      requires Valid() && Newest(record.txId) == Some(record) && record.role.Coordinator?
      requires record.state.CoordinatorPreparing? || record.state.CoordinatorPrepared?
                   || record.state.CoordinatorAbortDecided?
      modifies this`log, this`tick, this`track
      ensures Valid() && Onward(old(track), track) && Touches(old(log), log, record.txId) && tick >= old(tick)
      ensures track.c.responses == old(track).c.responses
      ensures ok ==> Aborting(track, log, tx) && tx.txId == record.txId && tx.participants == record.participants
      ensures !ok ==> !record.state.CoordinatorAbortDecided? && Newest(record.txId).Some?
      ensures !ok ==>
                Newest(record.txId) == Some(record) || Newest(record.txId).value.state.CoordinatorAbortDecided?
      ensures Calm(world) ==> ok
    {
      ok, tx := true, record;
      if record.state.CoordinatorAbortDecided? {
        KnownCoordinator(track, log, hub.View(), record.txId);
        AheadOfItself(track, record);
      } else {
        tx := record.(state := CoordinatorAbortDecided, lastError := reason, updatedUnix := world.clock(tick));
        KnownCoordinator(track, log, hub.View(), record.txId);
        DecisionMay(track, record, tx);
        UpdateAccepted(log, tx);
        ok := Advance(tx);
      }
    }

    /** `fail_payment` once no commit can follow: the reservation goes, unless the session forbids it. */
    method FailPayment(t: TxId, failable: bool)
      requires Valid() && (Newest(t).None? || HasAbortDecision(Newest(t).value.state))
      modifies this`track, hub
      ensures Valid() && Onward(old(track), track)
      ensures track.c.responses == old(track).c.responses && SessionsAt(track) == SessionsAt(old(track))
      ensures track.c.requests == old(track).c.requests
      ensures hub.View() == if failable then Released(old(hub.View()), t) else old(hub.View())
    {
      if failable {
        ghost var ledger := hub.View();
        hub.ReleaseDistributedReservation(t);
        track := ReleaseTrack(track, log, ledger, t);
      }
    }

    /** `abort_origin`; `failable` tells whether the payment session exists and is neither committing nor settled. */
    method AbortOrigin(t: TxId, reason: string, failable: bool) returns (res: Result<(), TxError>)
      requires Valid()
      modifies this`log, this`tick, this`track, hub
      ensures Valid() && Onward(old(track), track) && Touches(old(log), log, t) && tick >= old(tick)
      ensures var before, after := old(Newest(t)), Newest(t);
              var mayAbort := before.Some? && before.value.role.Coordinator? && !HasCommitDecision(before.value.state);
              && (before.None? || !mayAbort ==> log == old(log))
              && (mayAbort ==> after == before || (after.Some? && HasAbortDecision(after.value.state)))
              && (mayAbort && res != Err(NotDecided) ==> after.Some? && HasAbortDecision(after.value.state))
              && (hub.View() == if failable && (before.None? || (mayAbort && !before.value.state.CoordinatorAborted?
                                                                  && res != Err(NotDecided)))
                                then Released(old(hub.View()), t) else old(hub.View()))
              && (res.Ok? ==> before.None? || (mayAbort && HasAbortDecision(after.value.state)))
              && (mayAbort && res != Err(NotDecided) && !before.value.state.CoordinatorAborted? ==>
                    forall i :: 0 <= i < |before.value.participants| && !before.value.participants[i].aborted ==>
                      Request(AbortPhase, before.value.participants[i].descriptor, []) in track.c.requests)
              && (mayAbort && res == Err(NotDecided) ==>
                    !HasAbortDecision(before.value.state) && !after.value.state.CoordinatorAborted?)
              && (mayAbort && Calm(world) ==>
                    res == if failable || before.value.state.CoordinatorAborted? then Ok(()) else Err(SessionRefuses))
              && (mayAbort && Calm(world) && Helpful(world) ==> after.value.state.CoordinatorAborted?)
    {
      var existing := Newest(t);
      if existing.None? {
        FailPayment(t, failable);
        return if failable then Ok(()) else Err(SessionRefuses);
      }
      var record := existing.value;
      if !record.role.Coordinator? {
        return Err(NotCoordinator);
      }
      if HasCommitDecision(record.state) {
        return Err(ConflictsWithCommit);
      }
      if record.state.CoordinatorAborted? {
        return Ok(());
      }
      KnownRoles(track, log, hub.View());
      res := DecideAndAbort(record, if |reason| > 256 then reason[..256] else reason, "",
                            "durable abort acknowledgement pending", failable);
    }

    /** Decides, tells everyone, releases, and records how far that got. */
    method DecideAndAbort(record: Transaction, reason: string, done: string, pending: string, failable: bool)
      returns (res: Result<(), TxError>)
      requires Valid() && Newest(record.txId) == Some(record) && record.role.Coordinator?
      requires record.state.CoordinatorPreparing? || record.state.CoordinatorPrepared?
                   || record.state.CoordinatorAbortDecided?
      modifies this`log, this`tick, this`track, hub
      ensures Valid() && Onward(old(track), track) && Touches(old(log), log, record.txId) && tick >= old(tick)
      ensures Newest(record.txId).Some?
      ensures if res == Err(NotDecided)
              then !HasAbortDecision(record.state) && (Newest(record.txId) == Some(record)
                   || Newest(record.txId).value.state.CoordinatorAbortDecided?)
              else HasAbortDecision(Newest(record.txId).value.state)
      ensures hub.View() == if failable && res != Err(NotDecided) then Released(old(hub.View()), record.txId)
                  else old(hub.View())
      ensures res != Err(NotDecided) ==>
                forall i :: 0 <= i < |record.participants| && !record.participants[i].aborted ==>
                  Request(AbortPhase, record.participants[i].descriptor, []) in track.c.requests
      ensures Calm(world) ==> res == if failable then Ok(()) else Err(SessionRefuses)
      ensures Calm(world) && Helpful(world) ==> Newest(record.txId).value.state.CoordinatorAborted?
    {
      var ok, tx := DecideAbort(record, reason);
      if !ok {
        return Err(NotDecided);
      }
      ghost var decided := log;
      var more, failures := DeliverAbort(tx);
      TouchesOn(old(log), decided, log, record.txId);
      ghost var delivered := log;
      FailPayment(record.txId, failable);
      ok := ConcludeAbort(more, failures, done, pending);
      TouchesOn(old(log), delivered, log, record.txId);
      return if !ok then Err(NotJournaled) else if failable then Ok(()) else Err(SessionRefuses);
    }

    /** The irreversible append. */
    method DecideCommit(record: Transaction, payment: Payment) returns (ok: bool, tx: Transaction)
      requires Valid() && Newest(record.txId) == Some(record) && record.role.Coordinator?
      requires record.state.CoordinatorPrepared? || record.state.CoordinatorCommitDecided?
      requires SessionOf(track, record, payment) && AllSigned(payment.signatures, payment.requiredSigners)
      modifies this`log, this`tick, this`track
      ensures Valid() && Onward(old(track), track) && Touches(old(log), log, record.txId) && tick >= old(tick)
      ensures ok ==> Newest(record.txId) == Some(tx) && tx.txId == record.txId && tx.state.CoordinatorCommitDecided?
      ensures ok ==> tx.role.Coordinator? && TermsOf(tx) == TermsOf(record) && tx.participants == record.participants
      ensures ok ==> tx.payment == Some(payment)
      ensures !ok ==> record.state.CoordinatorPrepared? && Newest(record.txId).Some?
      ensures !ok ==> Newest(record.txId) == Some(record) || Newest(record.txId).value.state.CoordinatorCommitDecided?
      ensures Calm(world) ==> ok
    {
      ok, tx := true, record;
      if record.state.CoordinatorPrepared? {
        tx := record.(state := CoordinatorCommitDecided, payment := Some(payment), lastError := "",
                      updatedUnix := world.clock(tick));
        KnownCoordinator(track, log, hub.View(), record.txId);
        CommitDecisionMay(track, record, tx);
        UpdateAccepted(log, tx);
        ok := Advance(tx);
      }
    }

    /** One participant of the commit loop. */
    method AskCommit(tx: Transaction, index: nat) returns (next: Transaction, ok: bool, journaled: bool)
      requires Valid() && Committing(log, hub.View(), tx) && index < |tx.participants|
      modifies this`log, this`tick, this`track
      ensures Valid() && Onward(old(track), track) && Touches(old(log), log, tx.txId) && tick >= old(tick)
      ensures Newest(tx.txId).Some? && Newest(tx.txId).value.state.CoordinatorCommitDecided?
      ensures journaled ==>
                  Committing(log, hub.View(), next) && next.txId == tx.txId && |next.participants| == |tx.participants|
      ensures journaled ==> next.payment == tx.payment
      ensures journaled ==>
                  forall i :: 0 <= i < |tx.participants| && i != index ==> next.participants[i] == tx.participants[i]
      ensures RequestFor(tx, index, CommitPhase) in track.c.requests
      ensures journaled && ok ==> next.participants[index].committed
      ensures Calm(world) ==> journaled
      ensures Helpful(world) ==> ok
    {
      next, journaled := tx, true;
      ok := SendPhase(tx.txId, index, CommitPhase);
      if ok {
        next, journaled := RecordCommitAck(tx, index);
      }
    }

    /** Journals a commit acknowledgement that arrived. */
    method RecordCommitAck(tx: Transaction, index: nat) returns (next: Transaction, ok: bool)
      requires Valid() && Committing(log, hub.View(), tx) && index < |tx.participants|
      requires Acknowledgement(CommitPhase, tx.participants[index].descriptor) in track.c.responses
      modifies this`log, this`tick, this`track
      ensures Valid() && Onward(old(track), track) && Touches(old(log), log, tx.txId) && tick >= old(tick)
      ensures Newest(tx.txId).Some? && Newest(tx.txId).value.state.CoordinatorCommitDecided?
      ensures next == Acked(tx, index, CommitPhase, next.updatedUnix) && (ok ==> Committing(log, hub.View(), next))
      ensures Calm(world) ==> ok
    {
      next := Acked(tx, index, CommitPhase, world.clock(tick));
      KnownOpen(track, log, hub.View(), tx.txId);
      AckNewest(track, log, hub.View(), tx, index, CommitPhase, next.updatedUnix);
      ok := Advance(next);
    }

    /** The commit loop and the append after it. */
    method CollectCommits(start: Transaction) returns (res: Result<bool, TxError>)
      requires Valid() && Committing(log, hub.View(), start) && start.payment.Some?
      modifies this`log, this`tick, this`track
      ensures Valid() && Onward(old(track), track) && Touches(old(log), log, start.txId) && tick >= old(tick)
      ensures Newest(start.txId).Some? && HasCommitDecision(Newest(start.txId).value.state)
      ensures res.Ok? ==>
                forall i :: 0 <= i < |start.participants| && !start.participants[i].committed ==>
                  Request(CommitPhase, start.participants[i].descriptor, start.payment.value.signatures)
                  in track.c.requests
      ensures res == Ok(true) ==> Newest(start.txId).value.state.CoordinatorCommitted?
      ensures res != Err(NotDecided)
      ensures Calm(world) && Helpful(world) ==> res == Ok(true)
    {
      var tx, failures := start, 0;
      for index := 0 to |start.participants|
        invariant Valid() && Onward(old(track), track) && Touches(old(log), log, start.txId) && tick >= old(tick)
        invariant Committing(log, hub.View(), tx) && tx.txId == start.txId && |tx.participants| == |start.participants|
        invariant failures == 0 ==> forall i :: 0 <= i < index ==> tx.participants[i].committed
        invariant tx.payment == start.payment
        invariant forall i :: index <= i < |start.participants| ==> tx.participants[i] == start.participants[i]
        invariant forall i :: 0 <= i < index && !start.participants[i].committed ==>
                    Request(CommitPhase, start.participants[i].descriptor, start.payment.value.signatures)
                    in track.c.requests
        invariant Helpful(world) ==> failures == 0
      {
        if !tx.participants[index].committed {
          ghost var before := log;
          var next, ok, journaled := AskCommit(tx, index);
          TouchesOn(old(log), before, log, start.txId);
          if !journaled {
            return Err(NotJournaled);
          }
          tx := next;
          failures := failures + (if ok then 0 else 1);
        }
      }
      ghost var asked := log;
      var ok := ConcludeCommit(tx, failures == 0);
      TouchesOn(old(log), asked, log, start.txId);
      return if ok then Ok(failures == 0) else Err(NotJournaled);
    }

    /** The last append of a commit round. */
    method ConcludeCommit(tx: Transaction, all: bool) returns (ok: bool)
      requires Valid() && Committing(log, hub.View(), tx) && (all ==> AllCommitted(tx))
      modifies this`log, this`tick, this`track
      ensures Valid() && Onward(old(track), track) && Touches(old(log), log, tx.txId) && tick >= old(tick)
      ensures Newest(tx.txId).Some? && HasCommitDecision(Newest(tx.txId).value.state)
      ensures ok && all ==> Newest(tx.txId).value.state.CoordinatorCommitted?
      ensures Calm(world) ==> ok
    {
      var next := if !all then tx.(lastError := "commit acknowledgement pending", updatedUnix := world.clock(tick))
                  else tx.(state := CoordinatorCommitted, lastError := "", updatedUnix := world.clock(tick));
      KnownCoordinator(track, log, hub.View(), tx.txId);
      KnownOpen(track, log, hub.View(), tx.txId);
      CommitMay(track, tx, next);
      UpdateAccepted(log, next);
      ok := Advance(next);
    }

    /** Decides, settles, then tells everyone. */
    method DecideAndCommit(record: Transaction, payment: Payment) returns (res: Result<bool, TxError>)
      requires Valid() && Newest(record.txId) == Some(record) && record.role.Coordinator?
      requires record.state.CoordinatorPrepared? || record.state.CoordinatorCommitDecided?
      requires SessionOf(track, record, payment) && AllSigned(payment.signatures, payment.requiredSigners)
      modifies this`log, this`tick, this`track, hub
      ensures Valid() && Onward(old(track), track) && Touches(old(log), log, record.txId) && tick >= old(tick)
      ensures Newest(record.txId).Some?
      ensures Newest(record.txId) == Some(record) || HasCommitDecision(Newest(record.txId).value.state)
      ensures if res != Err(NotDecided)
              then HasCommitDecision(Newest(record.txId).value.state)
                   && Applied(old(hub.View()), record.txId, TermsOf(record)) == Ok(hub.View())
                        && record.txId in hub.applied
              else hub.View() == old(hub.View())
      ensures res == Ok(true) ==> Newest(record.txId).value.state.CoordinatorCommitted?
      ensures res.Ok? ==>
                forall i :: 0 <= i < |record.participants| && !record.participants[i].committed ==>
                  Request(CommitPhase, record.participants[i].descriptor, payment.signatures) in track.c.requests
      ensures Calm(world) && Helpful(world) ==> res == Ok(true)
    {
      var ok, tx := DecideCommit(record, payment);
      if !ok {
        return Err(NotDecided);
      }
      KnownOpen(track, log, hub.View(), tx.txId);
      var error := Apply(tx);
      ghost var decided := log;
      res := CollectCommits(tx);
      TouchesOn(old(log), decided, log, record.txId);
    }

    /** `commit_origin_locked`; `session` is the payment the hub holds. Ok(true) when every participant acknowledged. */
    method CommitOriginLocked(t: TxId, session: Option<Payment>) returns (res: Result<bool, TxError>)
      requires Valid()
      requires Newest(t).Some? && session.Some? ==> SessionOf(track, Newest(t).value, session.value)
      modifies this`log, this`tick, this`track, hub
      ensures Valid() && Onward(old(track), track) && Touches(old(log), log, t) && tick >= old(tick)
      ensures old(Newest(t)).Some? && old(Newest(t)).value.role.Coordinator? && session.Some?
              && (old(Newest(t)).value.state.CoordinatorPrepared?
                  || old(Newest(t)).value.state.CoordinatorCommitDecided?)
              && (forall a :: a in session.value.requiredSigners ==>
                    exists k :: 0 <= k < |session.value.signatures| && session.value.signatures[k].address == a)
              && Calm(world) && Helpful(world) ==>
                res == Ok(true) && Newest(t).Some? && Newest(t).value.state.CoordinatorCommitted? && t in hub.applied
      ensures old(Newest(t)).None? || !old(Newest(t)).value.role.Coordinator? || session.None?
              || !(old(Newest(t)).value.state.CoordinatorPrepared?
                   || old(Newest(t)).value.state.CoordinatorCommitDecided?)
              || (exists a :: a in session.value.requiredSigners &&
                    forall k :: 0 <= k < |session.value.signatures| ==> session.value.signatures[k].address != a) ==>
                log == old(log) && hub.View() == old(hub.View())
      ensures !Ready(old(Newest(t)), session) ==>
                (res.Ok? <==> session.Some? && old(Newest(t)).Some? && old(Newest(t)).value.role.Coordinator?
                              && old(Newest(t)).value.state.CoordinatorCommitted?)
      ensures Ready(old(Newest(t)), session) ==>
                && Newest(t).Some? && (Newest(t) == old(Newest(t)) || HasCommitDecision(Newest(t).value.state))
                && (if res != Err(NotDecided)
                    then HasCommitDecision(Newest(t).value.state) && t in hub.applied
                         && Applied(old(hub.View()), t, TermsOf(old(Newest(t)).value)) == Ok(hub.View())
                    else hub.View() == old(hub.View()))
      ensures Ready(old(Newest(t)), session) && res.Ok? ==>
                CommitAsks(old(Newest(t)).value, session.value, track.c.requests)
      ensures res == Ok(true) ==> Newest(t).Some? && Newest(t).value.state.CoordinatorCommitted?
    {
      var existing := Newest(t);
      if existing.None? || !existing.value.role.Coordinator? {
        return Err(NotCoordinator);
      }
      var record := existing.value;
      if HasAbortDecision(record.state) {
        return Err(ConflictsWithAbort);
      }
      if record.state.CoordinatorCommitted? {
        return if session.Some? then Ok(true) else Err(SessionRefuses);
      }
      if session.None? || !AllSigned(session.value.signatures, session.value.requiredSigners) {
        return Err(SessionRefuses);
      }
      if record.state.CoordinatorPreparing? {
        return Err(InvalidState);
      }
      KnownRoles(track, log, hub.View());
      res := DecideAndCommit(record, session.value);
    }

    /** The first record of `prepare_origin`, or why there is none. */
    method FirstTransaction(s: OriginSession, peers: map<Provider, Peer>, url: string, ghost owners: seq<Provider>)
      returns (r: Result<Transaction, TxError>)
      requires Valid() && Created(provider, hub.View(), s, owners) && Newest(s.payment.id).None?
      ensures r.Ok? ==> Beginnable(track, log, hub.View(), r.value, owners) && r.value.txId == s.payment.id
      ensures r.Ok? ==> MayFollow(None, r.value)
      ensures r.Ok? ==> && RecordsSession(r.value, provider, url, s, hub.reservations[s.payment.id].hops)
                        && r.value.payment == Some(s.payment) && r.value.idempotency == s.idempotency
      ensures r != Err(PrepareFailed)
      ensures r.Ok? <==> s.payment.id in hub.reservations && Amounts.Parsed(s.commit.amountHac).Ok?
                         && forall k :: 0 <= k < |s.remote| ==>
                              HasDirection(s.remote[k]) && Trusted(peers, s.remote[k].via)
    {
      if s.payment.id !in hub.reservations {
        return Err(Unreserved(ReservationMissing));
      }
      var hops := hub.reservations[s.payment.id].hops;
      var zhu := Amounts.Parse(s.commit.amountHac);
      if zhu.Err? {
        return Err(BadAmount);
      }
      var base := Descriptor(s.payment.id, provider, url, "", s.commit, s.payment.messageHash, zhu.value,
                             s.commit.amountSatoshi, s.expiresUnix, []);
      var participants := BuildParticipants(base, s.remote, peers);
      if participants.Err? {
        return Err(BadParticipants(participants.error));
      }
      var now := world.clock(tick);
      var tx := Transaction(s.payment.id, Coordinator, CoordinatorPreparing, provider, url, s.payment.messageHash,
                            zhu.value, s.commit.amountSatoshi, s.expiresUnix, hops, participants.value,
                            Some(s.payment), s.idempotency, now, now, "");
      BuiltIsBegun(provider, base, s.commit, s.remote, owners, tx);
      BuiltFits(provider, hub.View(), s, owners, tx);
      FirstAccepted(base, s.remote, tx);
      return Ok(tx);
    }

    /** One participant of the prepare loop. */
    method AskPrepare(tx: Transaction, index: nat) returns (next: Transaction, ok: bool, journaled: bool)
      requires Valid() && Preparing(track, log, tx) && index < |tx.participants|
      modifies this`log, this`tick, this`track
      ensures Valid() && Onward(old(track), track) && Touches(old(log), log, tx.txId) && tick >= old(tick)
      ensures Newest(tx.txId).Some? && Newest(tx.txId).value.state.CoordinatorPreparing?
      ensures journaled ==>
                  Preparing(track, log, next) && next.txId == tx.txId && |next.participants| == |tx.participants|
      ensures journaled ==>
                  forall i :: 0 <= i < |tx.participants| && tx.participants[i].prepared ==>
                      next.participants[i].prepared
      ensures journaled && ok ==> next.participants[index].prepared
      ensures !ok ==> next == tx && journaled
      ensures Calm(world) ==> journaled
      ensures Helpful(world) ==> ok
    {
      next, journaled := tx, true;
      ok := SendPhase(tx.txId, index, PreparePhase);
      if ok {
        next, journaled := RecordPrepareAck(tx, index);
      }
    }

    /** Journals a prepare acknowledgement that arrived. */
    method RecordPrepareAck(tx: Transaction, index: nat) returns (next: Transaction, ok: bool)
      requires Valid() && Preparing(track, log, tx) && index < |tx.participants|
      requires Acknowledgement(PreparePhase, tx.participants[index].descriptor) in track.c.responses
      modifies this`log, this`tick, this`track
      ensures Valid() && Onward(old(track), track) && Touches(old(log), log, tx.txId) && tick >= old(tick)
      ensures Newest(tx.txId).Some? && Newest(tx.txId).value.state.CoordinatorPreparing?
      ensures next == Acked(tx, index, PreparePhase, next.updatedUnix) && (ok ==> Preparing(track, log, next))
      ensures Calm(world) ==> ok
    {
      next := Acked(tx, index, PreparePhase, world.clock(tick));
      AckNewest(track, log, hub.View(), tx, index, PreparePhase, next.updatedUnix);
      ok := Advance(next);
    }

    /** The prepare loop and the append after it; None in `failed` unless a participant refused. */
    method CollectPrepares(start: Transaction) returns (ok: bool, failed: Option<Transaction>)
      requires Valid() && Preparing(track, log, start)
      modifies this`log, this`tick, this`track
      ensures Valid() && Onward(old(track), track) && Touches(old(log), log, start.txId) && tick >= old(tick)
      ensures Newest(start.txId).Some?
      ensures if Newest(start.txId).value.state.CoordinatorPrepared? then AllPrepared(Newest(start.txId).value)
              else !ok && Newest(start.txId).value.state.CoordinatorPreparing?
      ensures Calm(world) && Helpful(world) ==> ok
      ensures failed.Some? ==> !ok && Preparing(track, log, failed.value) && failed.value.txId == start.txId
    {
      var tx := start;
      for index := 0 to |start.participants|
        invariant Valid() && Onward(old(track), track) && Touches(old(log), log, start.txId) && tick >= old(tick)
        invariant Preparing(track, log, tx) && tx.txId == start.txId && |tx.participants| == |start.participants|
        invariant forall i :: 0 <= i < index ==> tx.participants[i].prepared
      {
        ghost var before := log;
        var next, accepted, journaled := AskPrepare(tx, index);
        TouchesOn(old(log), before, log, start.txId);
        if !journaled {
          return false, None;
        }
        if !accepted {
          return false, Some(tx);
        }
        tx := next;
      }
      ghost var asked := log;
      ok := ConcludePrepare(tx);
      TouchesOn(old(log), asked, log, start.txId);
      failed := None;
    }

    /** The append that ends the prepare phase. */
    method ConcludePrepare(tx: Transaction) returns (ok: bool)
      requires Valid() && Preparing(track, log, tx) && AllPrepared(tx)
      modifies this`log, this`tick, this`track
      ensures Valid() && Onward(old(track), track) && Touches(old(log), log, tx.txId) && tick >= old(tick)
      ensures Newest(tx.txId).Some?
      ensures if Newest(tx.txId).value.state.CoordinatorPrepared? then AllPrepared(Newest(tx.txId).value)
              else !ok && Newest(tx.txId).value.state.CoordinatorPreparing?
      ensures Calm(world) ==> ok
    {
      var next := tx.(state := CoordinatorPrepared, updatedUnix := world.clock(tick));
      KnownCoordinator(track, log, hub.View(), tx.txId);
      PreparedMay(track, tx, next);
      UpdateAccepted(log, next);
      ok := Advance(next);
    }

    /** Journals the first record, then prepares. */
    method Originate(tx: Transaction, failable: bool, ghost owners: seq<Provider>) returns (res: Result<(), TxError>)
      requires Valid() && Beginnable(track, log, hub.View(), tx, owners) && MayFollow(None, tx)
      modifies this`log, this`tick, this`track, hub
      ensures Valid() && Onward(old(track), track) && Touches(old(log), log, tx.txId) && tick >= old(tick)
      ensures res.Ok? ==>
                  Newest(tx.txId).Some? && Newest(tx.txId).value.state.CoordinatorPrepared?
                      && AllPrepared(Newest(tx.txId).value)
      ensures res.Err? ==> Newest(tx.txId).None? || Originating(Newest(tx.txId).value)
      ensures res == Err(PrepareFailed) ==> Newest(tx.txId).Some? && HasAbortDecision(Newest(tx.txId).value.state)
      ensures Newest(tx.txId).Some? ==> SameImmutableFields(tx, Newest(tx.txId).value)
      ensures Calm(world) && Helpful(world) ==> res.Ok?
      ensures hub.View() == if res == Err(PrepareFailed) && failable
                            then Released(old(hub.View()), tx.txId) else old(hub.View())
    {
      var ok := Start(tx, owners);
      if !ok {
        return Err(NotJournaled);
      }
      ghost var begun := log;
      res := PrepareAll(tx, failable);
      TouchesOn(old(log), begun, log, tx.txId);
      LaterKeepsFields(track, begun, log, hub.View(), tx.txId);
    }

    /** Journals the first record. */
    method Start(tx: Transaction, ghost owners: seq<Provider>) returns (ok: bool)
      requires Valid() && Beginnable(track, log, hub.View(), tx, owners) && MayFollow(None, tx)
      modifies this`log, this`tick, this`track
      ensures Valid() && Onward(old(track), track) && Touches(old(log), log, tx.txId) && tick >= old(tick)
      ensures if ok then Preparing(track, log, tx) else Newest(tx.txId).None? || Newest(tx.txId) == Some(tx)
      ensures Calm(world) ==> ok
    {
      BeginIsWrite(track, log, hub.View(), tx, owners);
      ok := Append(tx, Begin(provider, tx, owners));
    }

    /** Asks every participant to prepare; a refusal aborts. */
    method PrepareAll(tx: Transaction, failable: bool) returns (res: Result<(), TxError>)
      requires Valid() && Preparing(track, log, tx)
      modifies this`log, this`tick, this`track, hub
      ensures Valid() && Onward(old(track), track) && Touches(old(log), log, tx.txId) && tick >= old(tick)
      ensures Newest(tx.txId).Some? && Originating(Newest(tx.txId).value)
      ensures res.Ok? ==> Newest(tx.txId).value.state.CoordinatorPrepared?
      ensures res == Err(PrepareFailed) ==> HasAbortDecision(Newest(tx.txId).value.state)
      ensures Calm(world) && Helpful(world) ==> res.Ok?
      ensures hub.View() == if res == Err(PrepareFailed) && failable
                            then Released(old(hub.View()), tx.txId) else old(hub.View())
    {
      var ok, failed := CollectPrepares(tx);
      if ok {
        return Ok(());
      }
      if failed.Some? {
        // Every participant is told: a lost acknowledgement is uncertain.
        ghost var asked := log;
        var aborted := DecideAndAbort(failed.value, "prepare failed", "prepare failed",
                                      "prepare failed; abort acknowledgement pending", failable);
        TouchesOn(old(log), asked, log, tx.txId);
        return Err(if aborted == Err(NotDecided) then NotDecided else PrepareFailed);
      }
      return Err(NotJournaled);
    }

    /** `prepare_origin` for a payment with remote hops; `failable` as in AbortOrigin. */
    method PrepareOrigin(
        s: OriginSession, peers: map<Provider, Peer>, url: string, failable: bool, ghost owners: seq<Provider>)
      returns (res: Result<(), TxError>)
      requires Valid() && Created(provider, hub.View(), s, owners)
      modifies this`log, this`tick, this`track, hub
      ensures Valid() && Onward(old(track), track) && Touches(old(log), log, s.payment.id) && tick >= old(tick)
      ensures var before, after := old(Newest(s.payment.id)), Newest(s.payment.id);
              && (before.Some? ==> log == old(log) && hub.View() == old(hub.View()))
              && (before.None? && res.Ok? ==>
                   after.Some? && after.value.state.CoordinatorPrepared? && AllPrepared(after.value))
              && (before.None? && Calm(world) && Helpful(world) ==>
                    (res.Ok? <==> s.payment.id in old(hub.View()).reservations && Amounts.Parsed(s.commit.amountHac).Ok?
                                  && forall k :: 0 <= k < |s.remote| ==>
                                       HasDirection(s.remote[k]) && Trusted(peers, s.remote[k].via)))
              && (before.Some? ==>
                    (res.Ok? <==> before.value.state.CoordinatorPrepared?
                                  || before.value.state.CoordinatorCommitDecided?
                                  || before.value.state.CoordinatorCommitted?))
              && (before.None? && res.Err? ==> after.None? || Originating(after.value))
              && (before.None? && after.Some? ==>
                    && s.payment.id in old(hub.View()).reservations
                    && RecordsSession(after.value, provider, url, s, old(hub.View()).reservations[s.payment.id].hops))
              && (res == Err(PrepareFailed) ==> after.Some? && HasAbortDecision(after.value.state))
              && (hub.View() == if res == Err(PrepareFailed) && failable
                                then Released(old(hub.View()), s.payment.id) else old(hub.View()))
    {
      var t := s.payment.id;
      var existing := Newest(t);
      if existing.Some? {
        match existing.value.state {
          case CoordinatorPrepared => return Ok(());
          case CoordinatorCommitDecided => return Ok(());
          case CoordinatorCommitted => return Ok(());
          case CoordinatorAbortDecided => return Err(AlreadyAborted);
          case CoordinatorAborted => return Err(AlreadyAborted);
          case _ => return Err(InvalidState);
        }
      }
      var first := FirstTransaction(s, peers, url, owners);
      if first.Err? {
        return Err(first.error);
      }
      var tx := first.value;
      res := Originate(tx, failable, owners);
    }

    /** `fail_payment` after `prepare_origin` reported a failure. */
    method FailCreated(t: TxId, failable: bool)
      requires Valid() && (Newest(t).Some? ==> Originating(Newest(t).value))
      modifies this`track, hub
      ensures Valid() && old(track).trace <= track.trace
      ensures hub.View() == if failable then Released(old(hub.View()), t) else old(hub.View())
      ensures SessionsAt(track).closed ==
              SessionsAt(old(track)).closed + if failable && Undecided(Newest(t)) then {t} else {}
    {
      if failable {
        ghost var ledger := hub.View();
        hub.ReleaseDistributedReservation(t);
        if Undecided(Newest(t)) {
          track := CloseTrack(track, log, ledger, t);
        } else {
          track := ReleaseTrack(track, log, ledger, t);
        }
      }
    }

    /**
     `prepare_created_payment` (src/api.rs:2140-2163): a payment that was just created is prepared, and failed
     if that reports an error. If the append of the prepared record failed but landed, the reservation goes
     although the journal says prepared.
     */
    method PrepareCreatedPayment(
        s: OriginSession, peers: map<Provider, Peer>, url: string, failable: bool, ghost owners: seq<Provider>)
      returns (res: Result<(), TxError>)
      requires Valid() && Created(provider, hub.View(), s, owners) && Newest(s.payment.id).None?
      modifies this`log, this`tick, this`track, hub
      ensures Valid() && old(track).trace <= track.trace && Touches(old(log), log, s.payment.id)
      ensures hub.View() == if res.Err? && failable then Released(old(hub.View()), s.payment.id) else old(hub.View())
      ensures var after := Newest(s.payment.id);
              && (res.Ok? && s.remote != [] ==> after.Some? && after.value.state.CoordinatorPrepared?)
              && (after.Some? && after.value.state.CoordinatorPrepared? ==> AllPrepared(after.value))
              && SessionsAt(track).closed ==
                 SessionsAt(old(track)).closed + if res.Err? && failable && Undecided(after) then {s.payment.id} else {}
    {
      if s.remote == [] {
        return Ok(());
      }
      res := PrepareOrigin(s, peers, url, failable, owners);
      if res.Err? {
        FailCreated(s.payment.id, failable);
      }
    }

    // ----- retry -----

    /** A decided or signed coordinator in `retry_pending`. */
    method RetryCommit(tx: Transaction, at: Standing, ghost now: nat) returns (progressed: bool)
      requires Valid() && Newest(tx.txId) == Some(tx) && tx.role.Coordinator?
      requires tx.state.CoordinatorPrepared? || tx.state.CoordinatorCommitDecided?
      requires tx.state.CoordinatorPrepared? ==>
                 at.session.Some? && (SignedByAll(at.session.value) || at.committing)
      requires at.session.Some? ==> SessionOf(track, tx, at.session.value)
      modifies this`log, this`tick, this`track, hub
      ensures Valid() && Onward(old(track), track) && Touches(old(log), log, tx.txId) && tick >= old(tick)
      ensures Newest(tx.txId).Some?
      ensures RetryOutcome(world, tx, Newest(tx.txId).value, at, now, hub.View(), track.c.requests)
      ensures Calm(world) && Helpful(world) ==> (progressed <==> Progresses(tx, at, now))
      ensures OthersStay(old(hub.View()), hub.View(), tx.txId)
    {
      KnownCoordinator(track, log, hub.View(), tx.txId);
      var res := CommitOriginLocked(tx.txId, at.session);
      progressed := res.Ok?;
      AppliedOthersStay(old(hub.View()), hub.View(), tx.txId, TermsOf(tx));
      CommitIsOutcome(world, tx, Newest(tx.txId).value, at, now, hub.View(), track.c.requests, res);
    }

    /** An incomplete, expired or aborting coordinator in `retry_pending`. */
    method RetryAbort(tx: Transaction, reason: string, at: Standing, ghost now: nat) returns (progressed: bool)
      requires Valid() && Newest(tx.txId) == Some(tx) && tx.role.Coordinator?
      requires tx.state.CoordinatorPrepared? || tx.state.CoordinatorPreparing? || tx.state.CoordinatorAbortDecided?
      requires tx.state.CoordinatorPrepared? ==>
                 && at.session.Some? && !SignedByAll(at.session.value) && !at.committing && 0 < tx.expiresUnix <= now
      modifies this`log, this`tick, this`track, hub
      ensures Valid() && Onward(old(track), track) && Touches(old(log), log, tx.txId) && tick >= old(tick)
      ensures Newest(tx.txId).Some?
      ensures RetryOutcome(world, tx, Newest(tx.txId).value, at, now, hub.View(), track.c.requests)
      ensures Calm(world) && Helpful(world) ==> (progressed <==> Progresses(tx, at, now))
      ensures OthersStay(old(hub.View()), hub.View(), tx.txId)
    {
      KnownUnapplied(track, log, hub.View(), tx.txId);
      var res := AbortOrigin(tx.txId, reason, at.failable);
      progressed := res.Ok?;
      KnownIds(log);
      AbortIsOutcome(world, tx, Newest(tx.txId).value, at, now, old(hub.View()), hub.View(), track.c.requests, res);
    }

    /** A prepared coordinator in `retry_pending`: commit once signed, abort once expired, else wait. */
    method RetryPrepared(tx: Transaction, at: Standing) returns (progressed: bool)
      requires Valid() && Newest(tx.txId) == Some(tx) && tx.role.Coordinator? && tx.state.CoordinatorPrepared?
      requires at.session.Some? ==> SessionOf(track, tx, at.session.value)
      modifies this`log, this`tick, this`track, hub
      ensures Valid() && Onward(old(track), track) && Touches(old(log), log, tx.txId) && tick >= old(tick)
      ensures Newest(tx.txId).Some?
      ensures RetryOutcome(world, tx, Newest(tx.txId).value, at, world.clock(old(tick)), hub.View(), track.c.requests)
      ensures Calm(world) && Helpful(world) ==> (progressed <==> Progresses(tx, at, world.clock(old(tick))))
      ensures OthersStay(old(hub.View()), hub.View(), tx.txId)
    {
      Untouched(log, tx.txId);
      if at.session.None? {
        return false;
      }
      if AllSigned(at.session.value.signatures, at.session.value.requiredSigners) || at.committing {
        progressed := RetryCommit(tx, at, world.clock(tick));
      } else if tx.expiresUnix > 0 && world.clock(tick) >= tx.expiresUnix {
        progressed := RetryAbort(tx, "distributed payment expired before commit decision", at, world.clock(tick));
      } else {
        progressed := false;
      }
    }

    /** A decided or incomplete coordinator in `retry_pending`. */
    method RetryUnprepared(tx: Transaction, at: Standing) returns (progressed: bool)
      requires Valid() && Newest(tx.txId) == Some(tx) && tx.role.Coordinator?
      requires tx.state.CoordinatorCommitDecided? || tx.state.CoordinatorPreparing? || tx.state.CoordinatorAbortDecided?
      requires at.session.Some? ==> SessionOf(track, tx, at.session.value)
      modifies this`log, this`tick, this`track, hub
      ensures Valid() && Onward(old(track), track) && Touches(old(log), log, tx.txId) && tick >= old(tick)
      ensures Newest(tx.txId).Some?
      ensures RetryOutcome(world, tx, Newest(tx.txId).value, at, world.clock(old(tick)), hub.View(), track.c.requests)
      ensures Calm(world) && Helpful(world) ==> (progressed <==> Progresses(tx, at, world.clock(old(tick))))
      ensures OthersStay(old(hub.View()), hub.View(), tx.txId)
    {
      if tx.state.CoordinatorCommitDecided? {
        progressed := RetryCommit(tx, at, world.clock(tick));
      } else {
        progressed := RetryAbort(
          tx,
          if tx.state.CoordinatorPreparing? then "recovery presumed abort for incomplete prepare"
              else "retrying durable abort decision",
          at, world.clock(tick));
      }
    }

    /** One transaction of `retry_pending`. */
    method RetryOne(t: TxId, at: Standing) returns (progressed: bool)
      requires Valid() && Newest(t).Some? && (at.session.Some? ==> SessionOf(track, Newest(t).value, at.session.value))
      modifies this`log, this`tick, this`track, hub
      ensures Valid() && Onward(old(track), track) && Touches(old(log), log, t) && tick >= old(tick)
      ensures Newest(t).Some?
      ensures RetryOutcome(world, old(Newest(t)).value, Newest(t).value, at, world.clock(old(tick)), hub.View(),
                           track.c.requests)
      ensures Calm(world) && Helpful(world) ==>
                (progressed <==> Progresses(old(Newest(t)).value, at, world.clock(old(tick))))
      ensures OthersStay(old(hub.View()), hub.View(), t)
    {
      var tx := Newest(t).value;
      KnownRoles(track, log, hub.View());
      if tx.role.Participant? || tx.state.CoordinatorAborted? || (tx.state.CoordinatorCommitted? && at.settled) {
        Untouched(log, t);
        return false;
      }
      if tx.state.CoordinatorCommitted? {
        KnownOpen(track, log, hub.View(), t);
        Untouched(log, t);
        var error := Apply(tx);
        return error.None?;
      }
      if tx.state.CoordinatorPrepared? {
        progressed := RetryPrepared(tx, at);
      } else {
        progressed := RetryUnprepared(tx, at);
      }
    }

    /** The turn of `ids[i]` in a round that found the records `a`. */
    method RetryTurn(
        ids: seq<TxId>, at: TxId -> Standing, i: nat, ghost k: Track, ghost a: Records, ghost ticks: seq<nat>,
        ghost moved: seq<bool>)
      returns (more: bool)
      requires Valid() && Onward(k, track) && Distinct(ids) && i < |ids| && |ticks| == |moved| == i && ids[i] in a
      requires at(ids[i]).session.Some? ==> SessionOf(k, a[ids[i]], at(ids[i]).session.value)
      requires Retried(world, a, Latest(log), ids[..i], at, ticks, hub.View(), track.c.requests)
      requires Tallied(world, a, ids, at, ticks, moved)
      modifies this`log, this`tick, this`track, hub
      ensures Valid() && Onward(k, track) && old(log) <= log && tick >= old(tick)
      ensures Retried(world, a, Latest(log), ids[..i + 1], at, ticks + [old(tick)], hub.View(), track.c.requests)
      ensures Tallied(world, a, ids, at, ticks + [old(tick)], moved + [more])
    {
      ghost var before, ledger, requests := log, hub.View(), track.c.requests;
      StillOpen(k, track, world, a, Latest(before), ids, i, at, ticks, ledger, requests, at(ids[i]).session);
      more := RetryOne(ids[i], at(ids[i]));
      OneMoreTurn(world, a, before, log, ids, i, at, ticks, old(tick), ledger, hub.View(), requests,
                  track.c.requests);
      TalliedOneMore(world, a, ids, at, ticks, moved, old(tick), more);
    }

    /** The loop of `retry_pending`. */
    method RetryRound(ids: seq<TxId>, at: TxId -> Standing)
      returns (progressed: nat, ghost ticks: seq<nat>, ghost moved: seq<bool>)
      requires Valid() && Distinct(ids) && forall t :: t in ids ==> t in Latest(log)
      requires forall t :: t in ids && at(t).session.Some? ==> SessionOf(track, Latest(log)[t], at(t).session.value)
      modifies this`log, this`tick, this`track, hub
      ensures Valid() && Onward(old(track), track) && old(log) <= log
      ensures |ticks| == |ids| && forall i :: 0 <= i < |ids| ==> old(tick) <= ticks[i] <= tick
      ensures Retried(world, Latest(old(log)), Latest(log), ids, at, ticks, hub.View(), track.c.requests)
      ensures progressed == CountTrue(moved) && |moved| == |ids|
      ensures Tallied(world, Latest(old(log)), ids, at, ticks, moved)
    {
      progressed, ticks, moved := 0, [], [];
      TalliedMeans(world, Latest(log), ids, at, [], []);
      NoneRetried(world, Latest(log), ids, at, hub.View(), track.c.requests);
      for i := 0 to |ids|
        invariant Valid() && Onward(old(track), track) && old(log) <= log && tick >= old(tick)
        invariant |ticks| == i && forall j :: 0 <= j < i ==> old(tick) <= ticks[j] <= tick
        invariant Retried(world, Latest(old(log)), Latest(log), ids[..i], at, ticks, hub.View(), track.c.requests)
        invariant progressed == CountTrue(moved) && |moved| == i
        invariant Tallied(world, Latest(old(log)), ids, at, ticks, moved)
      {
        ghost var now := tick;
        var more := RetryTurn(ids, at, i, old(track), Latest(old(log)), ticks, moved);
        CountOneMore(moved, more);
        progressed := progressed + (if more then 1 else 0);
        ticks, moved := ticks + [now], moved + [more];
      }
      assert ids[..|ids|] == ids;
    }

    /**
     `retry_pending` over the journal's listing. Each payment is dealt with exactly as its record, its session and
     the clock at its turn call for: `ticks` tells when that was, `moved` what counted as progress.
     */
    method RetryPending(ids: seq<TxId>, at: TxId -> Standing)
      returns (progressed: nat, ghost ticks: seq<nat>, ghost moved: seq<bool>)
      requires Valid() && Distinct(ids) && forall t :: t in ids ==> t in Latest(log)
      requires forall t :: t in ids && at(t).session.Some? ==> SessionOf(track, Latest(log)[t], at(t).session.value)
      modifies this`log, this`tick, this`track, hub
      ensures Valid() && Onward(old(track), track) && old(log) <= log
      ensures |ticks| == |ids| && forall i :: 0 <= i < |ids| ==> old(tick) <= ticks[i] <= tick
      ensures Retried(world, Latest(old(log)), Latest(log), ids, at, ticks, hub.View(), track.c.requests)
      ensures forall i :: 0 <= i < |ids| ==>
                var before, s := Latest(old(log))[ids[i]], at(ids[i]);
                before.role.Coordinator? && before.state.CoordinatorPrepared? && s.session.Some? && !s.committing
                && (exists a :: a in s.session.value.requiredSigners &&
                      forall k :: 0 <= k < |s.session.value.signatures| ==> s.session.value.signatures[k].address != a)
                ==>
                  && ids[i] in Latest(log)
                  && (before.expiresUnix == 0 || world.clock(ticks[i]) < before.expiresUnix ==>
                       Latest(log)[ids[i]] == before)
                  && (0 < before.expiresUnix <= world.clock(ticks[i]) && Calm(world) && Helpful(world) ==>
                       Latest(log)[ids[i]].state.CoordinatorAborted?)
      ensures Calm(world) && Helpful(world) ==>
                forall i :: 0 <= i < |ids| ==>
                  var before, s := Latest(old(log))[ids[i]], at(ids[i]);
                  before.role.Coordinator? && s.session.Some?
                  && (before.state.CoordinatorCommitDecided? || before.state.CoordinatorPrepared?)
                  && (forall a :: a in s.session.value.requiredSigners ==>
                        exists k :: 0 <= k < |s.session.value.signatures|
                                    && s.session.value.signatures[k].address == a)
                  ==> ids[i] in Latest(log) && Latest(log)[ids[i]].state.CoordinatorCommitted?
      ensures progressed == CountTrue(moved) && |moved| == |ids|
      ensures Tallied(world, Latest(old(log)), ids, at, ticks, moved)
    {
      progressed, ticks, moved := RetryRound(ids, at);
      RoundDecides(world, Latest(old(log)), Latest(log), ids, at, ticks, hub.View(), track.c.requests);
    }

    // ----- snapshot and restart -----

    /** The ledger half of `save_from`: balances and applied markers together, and the reservations worth keeping. */
    method Save(keep: set<TxId>) returns (saved: Ledger)
      requires Valid() && forall t :: t in keep && t in Latest(log) ==> Latest(log)[t].role.Coordinator?
      modifies this`track
      ensures Valid() && Onward(old(track), track) && provider in track.c.hubs && SavedAt(track) == saved
      ensures saved == hub.View().(reservations := Keep(hub.reservations, keep))
      ensures forall t :: t in saved.reservations <==> t in hub.reservations && t in keep
      ensures forall t :: t in saved.reservations ==> saved.reservations[t] == hub.reservations[t]
    {
      saved := Ledger(hub.channels, Keep(hub.reservations, keep), hub.applied);
      track := SaveTrack(track, log, hub.View(), keep);
    }

    /** One transaction of `recover_local`. */
    method RecoverTransaction(tx: Transaction) returns (error: Option<LedgerError>)
      modifies hub
      ensures var spec := RecoverOne(old(hub.View()), hub.maxHops, tx);
              if spec.Ok? then error.None? && hub.View() == spec.value else error == Some(spec.error)
    {
      var t := TermsOf(tx);
      if IsPrepared(tx.state) {
        error := hub.PrepareDistributedReservation(tx.txId, t);
      } else if HasCommitDecision(tx.state) {
        var ignored := hub.PrepareDistributedReservation(tx.txId, t);
        var r := hub.ApplyDistributedSettlement(tx.txId, t);
        return if r.Err? then Some(r.error) else None;
      } else {
        hub.ReleaseDistributedReservation(tx.txId);
        return None;
      }
    }

    /** `recover_local` over the journal's listing; the count leaves out coordinators still preparing. */
    method RecoverLocal(ids: seq<TxId>) returns (r: Result<nat, LedgerError>)
      requires track.p == provider && track.site == site && hub.maxHops == site.maxHops
      requires Loaded(track, log, hub.View())
      requires IsListing(IndexOf(log), ids) && |log| < U64_MAX
      modifies this`track, hub
      ensures var spec := Recovered(old(hub.View()), site.maxHops, Latest(log), ids);
              if spec.Ok? then hub.View() == spec.value && r == Ok(RecoveredCount(Latest(log), ids))
                  else r == Err(spec.error)
      ensures r.Ok? ==>
                  Valid() && old(track).trace <= track.trace
                      && SessionsAt(track).preparing == SessionsAt(track).closed == {}
    {
      var latest := Latest(log);
      var count := 0;
      ReplayStarts(hub.View(), hub.maxHops, latest, ids);
      for i := 0 to |ids|
        invariant track == old(track) && Replaying(old(hub.View()), hub.View(), hub.maxHops, latest, ids, i, count)
      {
        ReplayGoesOn(old(hub.View()), hub.View(), hub.maxHops, latest, ids, i, count);
        if ids[i] in latest {
          var tx := latest[ids[i]];
          var error := RecoverTransaction(tx);
          if error.Some? {
            return Err(error.value);
          }
          count := count + if tx.state.CoordinatorPreparing? then 0 else 1;
        }
      }
      ReplayEnds(old(hub.View()), hub.View(), hub.maxHops, latest, ids, count);
      track := RestartTrack(track, log, old(hub.View()), ids);
      return Ok(count);
    }
  }

  ghost predicate ReplayUnfolded(
      u: Unfolding, start: Ledger, l: Ledger, maxHops: nat, latest: Records, ids: seq<TxId>, i: nat, count: nat)
  {
    && i <= |ids| && count + RecoveredCount(latest, ids[i..]) == RecoveredCount(latest, ids)
    && Recovered(l, maxHops, latest, ids[i..]) == Recovered(start, maxHops, latest, ids)
  }

  /** The first `i` transactions were replayed, and `count` of them counted. */
  ghost predicate Replaying(
      start: Ledger, l: Ledger, maxHops: nat, latest: Records, ids: seq<TxId>, i: nat, count: nat)
  {
    forall u: Unfolding :: ReplayUnfolded(u, start, l, maxHops, latest, ids, i, count)
  }

  lemma ReplayingMeans(start: Ledger, l: Ledger, maxHops: nat, latest: Records, ids: seq<TxId>, i: nat, count: nat)
    ensures Replaying(start, l, maxHops, latest, ids, i, count) <==>
            ReplayUnfolded(Unfolding, start, l, maxHops, latest, ids, i, count)
  {
  }

  lemma ReplayStarts(l: Ledger, maxHops: nat, latest: Records, ids: seq<TxId>)
    ensures Replaying(l, l, maxHops, latest, ids, 0, 0)
  {
    assert ids[0..] == ids;
    ReplayingMeans(l, l, maxHops, latest, ids, 0, 0);
  }

  lemma ReplayGoesOn(start: Ledger, l: Ledger, maxHops: nat, latest: Records, ids: seq<TxId>, i: nat, count: nat)
    requires i < |ids| && Replaying(start, l, maxHops, latest, ids, i, count)
    ensures ids[i] !in latest ==> Replaying(start, l, maxHops, latest, ids, i + 1, count)
    ensures ids[i] in latest ==>
              var one := RecoverOne(l, maxHops, latest[ids[i]]);
              if one.Err? then Recovered(start, maxHops, latest, ids) == Err(one.error)
              else Replaying(start, one.value, maxHops, latest, ids, i + 1,
                             count + if latest[ids[i]].state.CoordinatorPreparing? then 0 else 1)
  {
    ReplayingMeans(start, l, maxHops, latest, ids, i, count);
    assert ids[i..][1..] == ids[i + 1..];
    RecoverStep(l, maxHops, latest, ids[i..]);
    ReplayingMeans(start, l, maxHops, latest, ids, i + 1, count);
    if ids[i] in latest && RecoverOne(l, maxHops, latest[ids[i]]).Ok? {
      ReplayingMeans(start, RecoverOne(l, maxHops, latest[ids[i]]).value, maxHops, latest, ids, i + 1,
                     count + if latest[ids[i]].state.CoordinatorPreparing? then 0 else 1);
    }
  }

  lemma ReplayEnds(start: Ledger, l: Ledger, maxHops: nat, latest: Records, ids: seq<TxId>, count: nat)
    requires Replaying(start, l, maxHops, latest, ids, |ids|, count)
    ensures Recovered(start, maxHops, latest, ids) == Ok(l) && count == RecoveredCount(latest, ids)
  {
    ReplayingMeans(start, l, maxHops, latest, ids, |ids|, count);
    assert ids[|ids|..] == [];
  }

  /** What one transaction adds to a replay and its count. */
  lemma RecoverStep(l: Ledger, maxHops: nat, latest: Records, ids: seq<TxId>)
    requires ids != []
    ensures ids[0] !in latest ==>
              && Recovered(l, maxHops, latest, ids) == Recovered(l, maxHops, latest, ids[1..])
              && RecoveredCount(latest, ids) == RecoveredCount(latest, ids[1..])
    ensures ids[0] in latest ==>
              var one := RecoverOne(l, maxHops, latest[ids[0]]);
              && Recovered(l, maxHops, latest, ids) ==
                 (if one.Err? then one else Recovered(one.value, maxHops, latest, ids[1..]))
              && RecoveredCount(latest, ids) ==
                 (if latest[ids[0]].state.CoordinatorPreparing? then 0 else 1) + RecoveredCount(latest, ids[1..])
  {
  }

  function RecoveredCount(latest: Records, ids: seq<TxId>): nat {
    if ids == [] then 0 else
      (if ids[0] in latest && !latest[ids[0]].state.CoordinatorPreparing? then 1
          else 0) + RecoveredCount(latest, ids[1..])
  }

  /** The transactions of a listing that are past their preparing record. */
  function RecoverableOf(latest: Records, ids: seq<TxId>): set<TxId> {
    set t | t in ids && t in latest && latest[t].state != CoordinatorPreparing
  }

  lemma RecoverableRest(latest: Records, ids: seq<TxId>)
    requires ids != [] && Distinct(ids)
    ensures ids[0] !in RecoverableOf(latest, ids[1..])
    ensures RecoverableOf(latest, ids) ==
            (if ids[0] in latest && latest[ids[0]].state != CoordinatorPreparing then {ids[0]} else {})
            + RecoverableOf(latest, ids[1..])
  {
    assert forall t :: t in ids <==> t == ids[0] || t in ids[1..];
  }

  /** Over a listing, the count of recovered transactions is the number of those past preparing. */
  lemma {:induction false} CountIsOfRecoverable(latest: Records, ids: seq<TxId>)
    requires Distinct(ids)
    ensures RecoveredCount(latest, ids) == |RecoverableOf(latest, ids)|
    decreases ids
  {
    if ids != [] {
      RecoverableRest(latest, ids);
      CountIsOfRecoverable(latest, ids[1..]);
    }
  }

  lemma PreparedStores(l: Ledger, maxHops: nat, t: TxId, terms: Terms, after: Ledger)
    requires Prepared(l, maxHops, t, terms) == Ok(after) && t !in after.applied
    ensures t in after.reservations && after.reservations[t] == terms && |terms.hops| <= maxHops
    ensures after.applied == l.applied && after.reservations - {t} == l.reservations - {t}
    ensures after.channels == l.channels
  {
  }

  /** After a successful prepare of an unknown transaction its terms are reserved, within the hop limit. */
  lemma PreparedHolds(k: Track, log: Log, l: Ledger, maxHops: nat, t: TxId, terms: Terms)
    requires Prepared(l, maxHops, t, terms).Ok? && OnTrack(k, log, Prepared(l, maxHops, t, terms).value)
    requires t !in Latest(log)
    ensures var after := Prepared(l, maxHops, t, terms).value;
            t in after.reservations && after.reservations[t] == terms && |terms.hops| <= maxHops
    ensures var after := Prepared(l, maxHops, t, terms).value;
            Released(after, t) == Released(l, t)
  {
    var after := Prepared(l, maxHops, t, terms).value;
    assert t !in after.applied by {
      KnownLedger(k, log, after);
    }
    PreparedStores(l, maxHops, t, terms, after);
  }
}
