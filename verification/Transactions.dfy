/** The 2PC transaction record and the rule every journal append must satisfy (src/distributed_tx.rs). */
module Transactions {
  import opened Prelude

  /** A UUID; only equality matters. */
  datatype TxId = Uuid(bits: nat)
  type Provider = string
  type Address = string
  type ChannelId = string

  datatype TxRole = Coordinator | Participant

  datatype TxState =
    | CoordinatorPreparing
    | CoordinatorPrepared
    | CoordinatorCommitDecided
    | CoordinatorCommitted
    | CoordinatorAbortDecided
    | CoordinatorAborted
    | ParticipantPrepared
    | ParticipantCommitDecided
    | ParticipantCommitted
    | ParticipantAborted

  predicate IsCoordinatorState(s: TxState) {
    || s.CoordinatorPreparing? || s.CoordinatorPrepared? || s.CoordinatorCommitDecided?
    || s.CoordinatorCommitted? || s.CoordinatorAbortDecided? || s.CoordinatorAborted?
  }

  predicate HasCommitDecision(s: TxState) {
    || s.CoordinatorCommitDecided? || s.CoordinatorCommitted?
    || s.ParticipantCommitDecided? || s.ParticipantCommitted?
  }

  predicate HasAbortDecision(s: TxState) {
    s.CoordinatorAbortDecided? || s.CoordinatorAborted? || s.ParticipantAborted?
  }

  predicate IsPrepared(s: TxState) {
    s.CoordinatorPrepared? || s.ParticipantPrepared?
  }

  datatype Hop = Hop(channelId: ChannelId, fromAddress: Address, toAddress: Address)

  /** The user-signed payment fields. */
  datatype PaymentCommit = PaymentCommit(
    sessionId: TxId, providerId: Provider, payer: Address, payee: Address,
    amountHac: string, amountSatoshi: nat, feeHac: string,
    route: seq<ChannelId>, requiredSigners: seq<Address>, createdUnix: nat)

  datatype Descriptor = Descriptor(
    txId: TxId, coordinator: Provider, coordinatorUrl: string, participant: Provider,
    payment: PaymentCommit, paymentHash: Digest,
    amountZhu: nat, amountSatoshi: nat, expiresUnix: nat, hops: seq<Hop>)

  /** SHA3-256 as a free, hence injective, constructor per hashed domain; `Text` is any other string. */
  datatype Digest =
    | PaymentDigest(payment: PaymentCommit)
    | DescriptorDigest(descriptor: Descriptor)
    | Text(text: string)

  predicate IsHexDigit(c: char) {
    '0' <= c <= '9' || 'a' <= c <= 'f' || 'A' <= c <= 'F'
  }

  /** Whether a digest field holds 32 bytes of hex. */
  predicate IsHash(d: Digest) {
    d.Text? ==> |d.text| == 64 && forall i :: 0 <= i < 64 ==> IsHexDigit(d.text[i])
  }

  datatype ParticipantEntry = ParticipantEntry(
    descriptor: Descriptor, descriptorHash: Digest, prepared: bool, committed: bool, aborted: bool)

  /** A user signature that was verified when it was stored. */
  datatype Signature = Signature(address: Address, orderIndex: nat)

  /** The coordinator's payment recovery image. */
  datatype Payment = Payment(
    id: TxId, messageHash: Digest, requiredSigners: seq<Address>, signatures: seq<Signature>)

  datatype Idempotency = Idempotency(key: string, paymentId: TxId)

  datatype Transaction = Transaction(
    txId: TxId, role: TxRole, state: TxState,
    coordinator: Provider, coordinatorUrl: string, paymentHash: Digest,
    amountZhu: nat, amountSatoshi: nat, expiresUnix: nat,
    localHops: seq<Hop>, participants: seq<ParticipantEntry>,
    payment: Option<Payment>, idempotency: Option<Idempotency>,
    createdUnix: nat, updatedUnix: nat, lastError: string)

  datatype TransitionError =
    | RoleDoesNotMatchState
    | PaymentHashNotHex
    | DescriptorHashMismatch
    | IdempotencyPointsElsewhere
    | LacksRecoveryImage
    | RecoveryImageDiffers
    | CoordinatorOnlyData
    | InvalidInitialState
    | ImmutableFieldsChanged
    | ImmutableDescriptorChanged
    | FlagsMovedBackwards
    | InvalidTransition

  // ----- validate_journal_transition -----

  predicate RoleMatchesState(tx: Transaction) {
    tx.role.Coordinator? <==> IsCoordinatorState(tx.state)
  }

  predicate SameImmutableFields(a: Transaction, b: Transaction) {
    && a.txId == b.txId && a.role == b.role
    && a.coordinator == b.coordinator && a.coordinatorUrl == b.coordinatorUrl
    && a.paymentHash == b.paymentHash
    && a.amountZhu == b.amountZhu && a.amountSatoshi == b.amountSatoshi
    && a.expiresUnix == b.expiresUnix && a.localHops == b.localHops
    && a.createdUnix == b.createdUnix && |a.participants| == |b.participants|
  }

  predicate SameDescriptor(a: ParticipantEntry, b: ParticipantEntry) {
    a.descriptorHash == b.descriptorHash && a.descriptor == b.descriptor
  }

  predicate FlagsAdvance(a: ParticipantEntry, b: ParticipantEntry) {
    && (a.prepared ==> b.prepared) && (a.committed ==> b.committed) && (a.aborted ==> b.aborted)
    && !(b.committed && b.aborted)
  }

  /** The first complaint of the pairwise participant loop. */
  function CheckEntries(a: seq<ParticipantEntry>, b: seq<ParticipantEntry>): Option<TransitionError>
    requires |a| == |b|
  {
    if a == [] then None
    else if !SameDescriptor(a[0], b[0]) then Some(ImmutableDescriptorChanged)
    else if !FlagsAdvance(a[0], b[0]) then Some(FlagsMovedBackwards)
    else CheckEntries(a[1..], b[1..])
  }

  predicate StateMayFollow(a: TxState, b: TxState) {
    match a
    case CoordinatorPreparing => b.CoordinatorPreparing? || b.CoordinatorPrepared? || b.CoordinatorAbortDecided?
    case CoordinatorPrepared => b.CoordinatorPrepared? || b.CoordinatorCommitDecided? || b.CoordinatorAbortDecided?
    case CoordinatorCommitDecided => b.CoordinatorCommitDecided? || b.CoordinatorCommitted?
    case CoordinatorCommitted => b.CoordinatorCommitted?
    case CoordinatorAbortDecided => b.CoordinatorAbortDecided? || b.CoordinatorAborted?
    case CoordinatorAborted => b.CoordinatorAborted?
    case ParticipantPrepared => b.ParticipantPrepared? || b.ParticipantCommitDecided? || b.ParticipantAborted?
    case ParticipantCommitDecided => b.ParticipantCommitDecided? || b.ParticipantCommitted?
    case ParticipantCommitted => b.ParticipantCommitted?
    case ParticipantAborted => b.ParticipantAborted?
  }

  predicate IsInitialState(s: TxState) {
    s.CoordinatorPreparing? || s.ParticipantPrepared? || s.ParticipantAborted?
  }

  /** The checks on the new record alone. */
  function CheckRecord(next: Transaction): Option<TransitionError> {
    if !RoleMatchesState(next) then Some(RoleDoesNotMatchState)
    else if !IsHash(next.paymentHash) then Some(PaymentHashNotHex)
    else if exists i :: 0 <= i < |next.participants|
                        && next.participants[i].descriptorHash != DescriptorDigest(next.participants[i].descriptor)
    then Some(DescriptorHashMismatch)
    else if next.idempotency.Some? && next.idempotency.value.paymentId != next.txId
        then Some(IdempotencyPointsElsewhere)
    else if next.role.Coordinator? then
      if next.payment.None? then Some(LacksRecoveryImage)
      else if next.payment.value.id != next.txId || next.payment.value.messageHash != next.paymentHash
      then Some(RecoveryImageDiffers)
      else None
    else if next.payment.Some? || next.idempotency.Some? || next.participants != [] then Some(CoordinatorOnlyData)
    else None
  }

  /** `validate_journal_transition`: None accepts. */
  function CheckTransition(previous: Option<Transaction>, next: Transaction): Option<TransitionError> {
    var own := CheckRecord(next);
    if own.Some? then own
    else if previous.None? then
      if IsInitialState(next.state) then None else Some(InvalidInitialState)
    else if !SameImmutableFields(previous.value, next) then Some(ImmutableFieldsChanged)
    else
      var entries := CheckEntries(previous.value.participants, next.participants);
      if entries.Some? then entries
      else if StateMayFollow(previous.value.state, next.state) then None
      else Some(InvalidTransition)
  }

  predicate MayFollow(previous: Option<Transaction>, next: Transaction) {
    CheckTransition(previous, next).None?
  }

  lemma {:induction false} EntriesAccepted(a: seq<ParticipantEntry>, b: seq<ParticipantEntry>)
    requires |a| == |b|
    ensures CheckEntries(a, b).None? <==>
                forall i :: 0 <= i < |a| ==> SameDescriptor(a[i], b[i]) && FlagsAdvance(a[i], b[i])
  {
    if a != [] {
      EntriesAccepted(a[1..], b[1..]);
      assert forall i :: 0 < i < |a| ==> a[i] == a[1..][i - 1] && b[i] == b[1..][i - 1];
      if CheckEntries(a, b).None? {
        forall i | 0 <= i < |a| ensures SameDescriptor(a[i], b[i]) && FlagsAdvance(a[i], b[i]) {
          if i > 0 {
            assert SameDescriptor(a[1..][i - 1], b[1..][i - 1]);
          }
        }
      } else if SameDescriptor(a[0], b[0]) && FlagsAdvance(a[0], b[0]) {
        var k :| 0 <= k < |a[1..]| && !(SameDescriptor(a[1..][k], b[1..][k]) && FlagsAdvance(a[1..][k], b[1..][k]));
        assert a[k + 1] == a[1..][k] && b[k + 1] == b[1..][k];
      }
    }
  }

  /** A record is sound by itself: its role, its hashes, and the recovery image a coordinator alone must carry. */
  lemma RecordIff(tx: Transaction)
    ensures CheckRecord(tx).None? <==>
            && (tx.role == Coordinator <==>
                 tx.state in {CoordinatorPreparing, CoordinatorPrepared, CoordinatorCommitDecided,
                              CoordinatorCommitted, CoordinatorAbortDecided, CoordinatorAborted})
            && IsHash(tx.paymentHash)
            && (forall e :: e in tx.participants ==> e.descriptorHash == DescriptorDigest(e.descriptor))
            && (tx.idempotency.Some? ==> tx.idempotency.value.paymentId == tx.txId)
            && (tx.role == Coordinator ==>
                 tx.payment.Some? && tx.payment.value.id == tx.txId && tx.payment.value.messageHash == tx.paymentHash)
            && (tx.role == Participant ==> tx.payment.None? && tx.idempotency.None? && tx.participants == [])
  {
  }

  /** The flags of an entry only rise, never to both, and the rest of it stays. */
  predicate EntryAdvances(a: ParticipantEntry, b: ParticipantEntry) {
    && b == a.(prepared := b.prepared, committed := b.committed, aborted := b.aborted)
    && (a.prepared ==> b.prepared) && (a.committed ==> b.committed) && (a.aborted ==> b.aborted)
    && !(b.committed && b.aborted)
  }

  lemma EntryIff(a: ParticipantEntry, b: ParticipantEntry)
    ensures SameDescriptor(a, b) && FlagsAdvance(a, b) <==> EntryAdvances(a, b)
  {
  }

  /** The protocol's moves from one state to another. */
  predicate IsMove(a: TxState, b: TxState) {
    (a, b) in {(CoordinatorPreparing, CoordinatorPrepared), (CoordinatorPreparing, CoordinatorAbortDecided),
               (CoordinatorPrepared, CoordinatorCommitDecided), (CoordinatorPrepared, CoordinatorAbortDecided),
               (CoordinatorCommitDecided, CoordinatorCommitted), (CoordinatorAbortDecided, CoordinatorAborted),
               (ParticipantPrepared, ParticipantCommitDecided), (ParticipantPrepared, ParticipantAborted),
               (ParticipantCommitDecided, ParticipantCommitted)}
  }

  lemma MoveIff(a: TxState, b: TxState)
    ensures StateMayFollow(a, b) <==> a == b || IsMove(a, b)
  {
  }

  /**
   What the journal accepts after a record: a sound one that keeps its state or makes one of nine moves, and
   otherwise differs in risen flags, recovery image, idempotency key, update time and error text only.
   */
  lemma FollowsIff(a: Transaction, b: Transaction)
    ensures MayFollow(Some(a), b) <==>
            && CheckRecord(b).None? && (a.state == b.state || IsMove(a.state, b.state))
            && |a.participants| == |b.participants|
            && (forall i :: 0 <= i < |a.participants| ==> EntryAdvances(a.participants[i], b.participants[i]))
            && b == a.(state := b.state, participants := b.participants, payment := b.payment,
                       idempotency := b.idempotency, updatedUnix := b.updatedUnix, lastError := b.lastError)
  {
    MoveIff(a.state, b.state);
    if |a.participants| == |b.participants| {
      EntriesAccepted(a.participants, b.participants);
      forall i | 0 <= i < |a.participants|
        ensures SameDescriptor(a.participants[i], b.participants[i])
                && FlagsAdvance(a.participants[i], b.participants[i]) <==>
                EntryAdvances(a.participants[i], b.participants[i])
      {
        EntryIff(a.participants[i], b.participants[i]);
      }
    }
  }

  /** A history starts with a sound record that prepares, or remembers a participant's abort. */
  lemma StartsIff(b: Transaction)
    ensures MayFollow(None, b) <==>
            CheckRecord(b).None? && b.state in {CoordinatorPreparing, ParticipantPrepared, ParticipantAborted}
  {
  }

  // ----- whole histories of one transaction -----

  /** A sequence of records for one transaction, each accepted after its predecessor. */
  ghost predicate Accepted(h: seq<Transaction>) {
    && h != []
    && MayFollow(None, h[0])
    && forall i :: 0 < i < |h| ==> MayFollow(Some(h[i - 1]), h[i])
  }

  lemma EachStep(h: seq<Transaction>, i: nat)
    requires Accepted(h) && 0 < i < |h|
    ensures SameImmutableFields(h[i - 1], h[i]) && StateMayFollow(h[i - 1].state, h[i].state)
    ensures forall p :: 0 <= p < |h[i].participants| ==>
                          SameDescriptor(h[i - 1].participants[p], h[i].participants[p])
                          && FlagsAdvance(h[i - 1].participants[p], h[i].participants[p])
  {
    assert MayFollow(Some(h[i - 1]), h[i]);
    EntriesAccepted(h[i - 1].participants, h[i].participants);
  }

  /** Immutable fields and participant descriptors never change, and acknowledgement flags never fall. */
  lemma {:induction false} ImmutableForever(h: seq<Transaction>, i: nat, j: nat)
    requires Accepted(h) && i <= j < |h|
    ensures SameImmutableFields(h[i], h[j])
    ensures forall p :: 0 <= p < |h[i].participants| ==>
                          SameDescriptor(h[i].participants[p], h[j].participants[p])
                          && (h[i].participants[p].prepared ==> h[j].participants[p].prepared)
                          && (h[i].participants[p].committed ==> h[j].participants[p].committed)
                          && (h[i].participants[p].aborted ==> h[j].participants[p].aborted)
  {
    if i < j {
      ImmutableForever(h, i, j - 1);
      EachStep(h, j);
    }
  }

  lemma {:induction false} DecisionsAreKept(h: seq<Transaction>, i: nat, j: nat)
    requires Accepted(h) && i <= j < |h|
    ensures HasCommitDecision(h[i].state) ==> HasCommitDecision(h[j].state)
    ensures HasAbortDecision(h[i].state) ==> HasAbortDecision(h[j].state)
  {
    if i < j {
      DecisionsAreKept(h, i, j - 1);
      EachStep(h, j);
    }
  }

  /** No accepted history ever holds both a commit decision and an abort decision. */
  lemma DecisionsNeverMix(h: seq<Transaction>, i: nat, j: nat)
    requires Accepted(h) && i < |h| && j < |h|
    ensures !(HasCommitDecision(h[i].state) && HasAbortDecision(h[j].state))
  {
    var last := if i <= j then j else i;
    DecisionsAreKept(h, i, last);
    DecisionsAreKept(h, j, last);
  }

  // ----- how often a history can change -----

  function Rank(s: TxState): nat {
    match s
    case CoordinatorPreparing => 0
    case CoordinatorPrepared => 1
    case CoordinatorCommitDecided => 2
    case CoordinatorCommitted => 3
    case CoordinatorAbortDecided => 2
    case CoordinatorAborted => 3
    case ParticipantPrepared => 0
    case ParticipantCommitDecided => 1
    case ParticipantCommitted => 2
    case ParticipantAborted => 2
  }

  function Bit(b: bool): nat { if b then 1 else 0 }

  function FlagCount(ps: seq<ParticipantEntry>): nat {
    if ps == [] then 0 else Bit(ps[0].prepared) + Bit(ps[0].committed) + Bit(ps[0].aborted) + FlagCount(ps[1..])
  }

  predicate SameFlags(a: ParticipantEntry, b: ParticipantEntry) {
    a.prepared == b.prepared && a.committed == b.committed && a.aborted == b.aborted
  }

  /** The state or some acknowledgement flag differs. */
  predicate Changes(a: Transaction, b: Transaction) {
    || a.state != b.state
    || |a.participants| != |b.participants|
    || exists p :: 0 <= p < |a.participants| && !SameFlags(a.participants[p], b.participants[p])
  }

  /** Number of records in `h` that change state or flags. */
  function ChangeCount(h: seq<Transaction>): nat {
    if |h| < 2 then 0 else
      ChangeCount(h[..|h| - 1]) + Bit(Changes(h[|h| - 2], h[|h| - 1]))
  }

  lemma {:induction false} FlagsGrow(a: seq<ParticipantEntry>, b: seq<ParticipantEntry>)
    requires |a| == |b|
    requires forall p :: 0 <= p < |a| ==> FlagsAdvance(a[p], b[p])
    ensures FlagCount(a) <= FlagCount(b) <= 2 * |b|
    ensures (exists p :: 0 <= p < |a| && !SameFlags(a[p], b[p])) ==> FlagCount(a) < FlagCount(b)
  {
    if a != [] {
      FlagsGrow(a[1..], b[1..]);
      if SameFlags(a[0], b[0]) && exists p :: 0 <= p < |a| && !SameFlags(a[p], b[p]) {
        var p :| 0 <= p < |a| && !SameFlags(a[p], b[p]);
        assert !SameFlags(a[1..][p - 1], b[1..][p - 1]);
      }
    }
  }

  lemma {:induction false} ChangesAreMeasured(h: seq<Transaction>)
    requires Accepted(h)
    ensures ChangeCount(h) <= Rank(h[|h| - 1].state) + FlagCount(h[|h| - 1].participants)
    ensures |h| > 1 ==> FlagCount(h[|h| - 1].participants) <= 2 * |h[0].participants|
  {
    if |h| > 1 {
      var init := h[..|h| - 1];
      ChangesAreMeasured(init);
      EachStep(h, |h| - 1);
      FlagsGrow(h[|h| - 2].participants, h[|h| - 1].participants);
      ImmutableForever(h, 0, |h| - 1);
    }
  }

  /** At most 3 + 2 * participants records after the first change anything. */
  lemma ChangesAreBounded(h: seq<Transaction>)
    requires Accepted(h)
    ensures ChangeCount(h) <= 3 + 2 * |h[0].participants|
  {
    ChangesAreMeasured(h);
  }
}
