# Hacash L2 hub: verified model

A Dafny model of the payment hub's hardest machinery, with proofs about every run rather than sample runs:

* **Cross-hub two-phase commit** (`src/distributed_tx.rs` over the ledger of `src/state.rs` and the snapshot of
  `src/persist.rs`). `Journal` is the hash-chained file as an object that appends and replays bytes;
  `Transactions` and `Log` are the rule every append must satisfy; `Ledger` and `LedgerStore` are balances,
  reservations and applied markers; `Hub`, `Recovery` and `HubRuns` are one hub with snapshots, crashes and restarts;
  `TwoPhaseCommit` and `Agreement` are the protocol as steps over all journals and every message ever sent, so
  messages may be lost, repeated and reordered; `Cluster` puts hubs and protocol together, each hub up or down, and
  `Payments`, `Conservation`, `Completion`, `CommitDelivery`, `AbortDelivery`, `AbortCompletion` and `AbortedHolds` state
  what that gives. `Manager` holds the handlers as methods of an object: `OneHub` ties each of their actions to a step of
  the hub, and `NodeRuns` shows that whatever a hub does so is, in every interleaving with the others, a run of the
  cluster; `ClusterHubs` carries what is proved of one hub to the hubs of a cluster and to the handlers. `SampleRuns` is
  one concrete payment over two hubs; `RestartFailures` and `AbortRefusals` drive it into the states where a promise fails.
* **The channel-state evidence store** (`src/channel_state_store.rs`): `ChannelStateStore` is the object with its three
  maps, `ChannelStateRuns` what holds over every run, `ChannelStateProgress` what exactly is accepted and what then
  changes, `ChannelStateRestore` the export and restore round trip, and `PaddedSigners` the runs in which a promise fails.
  `ChannelState` has the validators of `src/channel_state.rs` and `src/channel_activation.rs`.
* **Routing** (`src/route.rs`), with the router's output checked against the descriptor validator of the commit protocol.
* **Exact codecs and the rate limiter**: HAC amounts, the length-delimited encodings, the agent intent message, the
  advertisement commitment, and the fixed-window limiter.

Signatures are facts that cannot be forged: a message in the model is one its sender signed. SHA3-256 is injective, as a
free constructor where only equality matters and as a function from bytes to text with that property where bytes are
hashed. Clocks, the outcome of each journal write and the reply to each request are parameters (`World` in `Manager`), so a
claim about a handler holds for all of them. A write is durable, fails without a trace, or fails although its record
landed, in which case the handler is told of a failure and its journal holds the record all the same.

## Results that differ from what the code promises

The code is modelled as it is. Where a promise fails there is a concrete run, and the exact condition under which it holds.

* *Recovery always brings a hub back.* It does exactly when `Guards` holds (`HubRuns.RestartSucceedsIff`), a condition on
  the snapshot and the journal. Four things break it, and each of these runs is one of the whole protocol that meets the
  other three conditions:
  a snapshot that still holds a reservation released since, because decided transactions are replayed before it is dropped
  (`RestartFailures.StaleHoldBlocksRestart`);
  an explicit route with more local hops than `max_hops`, which `create_payment` accepts (src/state.rs:1444-1474) and the
  replay refuses (`RestartFailures.LongRouteBlocksRestart`);
  a journaled CoordinatorPrepared transaction whose reservation is released, by the payment TTL, or because its append
  failed although the record landed and the caller failed the payment (`RestartFailures.ClosedPaymentBlocksRestart`,
  `Manager.DistributedTxManager.PrepareCreatedPayment`);
  and a participant's append that fails although its record landed, after which the handler gives back the reservation of a
  transaction its journal calls prepared (`RestartFailures.LostReservationBlocksRestart`). With the first, third and fourth
  excluded, a hub recovers exactly if what it reserves again is within the hop limit (`ClusterHubs.RecoversIfHealthy`).
* *A decided transaction can be settled at once.* A running hub can settle it exactly if it did not lose the reservation in
  that last way (`ClusterHubs.DecidedCanSettle`); `RestartFailures.LostReservationBlocksSettling` is a run in which it did,
  and in which the coordinator decided to commit on a late duplicate's acknowledgement.
* *A commit decision is retried until it is complete.* A hub that is down and does not recover blocks it for good
  (`Completion.DownBlocks`, and the run of `RestartFailures.StaleHoldBlocksRestart`). If no running hub that is still
  needed lost its reservation and would not recover either, the decision can be completed exactly if every needed hub that
  is down recovers (`CommitDelivery.CommitCompletesIff`), which is again `Guards` (`Completion.RecoversIff`). A running hub
  that lost its reservation has to restart first, whatever else happens (`CommitDelivery.LostNeedsRestart`).
* *An abort decision is retried until it is acknowledged.* A participant that refuses a descriptor at prepare refuses the abort
  for the same reason, so the coordinator stays in AbortDecided (the run of `AbortRefusals.RefusalBlocksAbort`); and so it
  does if a participant is down and does not recover (the run of `RestartFailures.LostReservationBlocksRestart`). It can
  finish exactly if every participant accepts the descriptor and every hub that is still needed and down recovers
  (`AbortCompletion.AbortCompletesIff`).
* *An acknowledged abort holds nothing.* If the participant's append fails although its record landed, the retried abort is
  acknowledged from the journal and releases nothing (`AbortedHolds.AbortTwice`). The reservation of an aborted transaction
  stays exactly until it is released or the hub restarts (`AbortedHolds.AbortedHoldsIff`).
* *An exported evidence store can be restored.* From every reachable store it can, in every order, exactly if no signer's
  signatures stand under two different states of one channel and sequence (`ChannelStateRestore.RoundTrip`), as they never
  do where signers are written without surrounding blanks (`ChannelStateRestore.TrimmedSignersAgree`). Two spellings of one
  address lead to a store where they do (`PaddedSigners.PaddedSignerBreaksRoundTrip`).
* *A valid next state with both signatures becomes the head.* It does exactly if it contradicts no signer
  (`ChannelStateProgress.HeadMovesIff`) and the store knows no signature of it under a spelling it lacks
  (`ChannelStateProgress.SuccessorReachesHead`). The store adds known signatures by address as written, so after one party's
  signature was stored with a blank before the address the state counts three signatures and is refused
  (`PaddedSigners.PaddingBlocksBothSigned`).
* *At most 2 x max requests fit into one window's length.* The tight bound is 2 x max - 1
  (`RateLimit.LimiterBurstBound`, `RateLimit.BurstBoundIsTight`).

## Model

| member | source | states |
|---|---|---|
| Transactions.ImmutableForever | src/distributed_tx.rs:571-592 | in every history the journal accepts, immutable fields and descriptors never change and acknowledgement flags never fall |
| Transactions.DecisionsNeverMix | src/distributed_tx.rs:593-632 | no accepted history holds both a commit decision and an abort decision |
| Transactions.ChangesAreBounded | src/distributed_tx.rs:497-632 | after its first record, at most 3 + 2 x participants records change state or flags |
| Transactions.EntriesAccepted | src/distributed_tx.rs:585-592 | the pairwise participant loop accepts exactly if every descriptor is unchanged and every flag advances |
| Transactions.FollowsIff | src/distributed_tx.rs:567-632 | after a record the journal accepts exactly the sound ones that keep its state or make one of nine moves and otherwise differ in risen flags, recovery image, idempotency key, update time and error text only |
| Transactions.StartsIff | src/distributed_tx.rs:555-565 | a history starts exactly with a sound record that prepares or remembers a participant's abort |
| Transactions.RecordIff | src/distributed_tx.rs:497-553 | when exactly a record is sound by itself: role and state agree, hashes are hashes of what they name, and a coordinator alone carries the matching recovery image |
| Log.CommitOrderIsDecided | src/distributed_tx.rs:445-453 | the commit order lists exactly the transactions with a commit decision, once each |
| Log.CommitSequenceIsFixed | src/distributed_tx.rs:345-346 | the first decision record fixes a transaction's commit sequence forever |
| Log.ListingStartsWithCommitOrder | src/distributed_tx.rs:368-376 | every order `list()` can return starts with the decided transactions in the order they were decided, undecided ones after |
| Log.EachHistoryIsAccepted | src/distributed_tx.rs:497-632 | in a journal built by accepted appends each transaction has an accepted history that ends in its newest record |
| Journal.DurableTxJournal.Append | src/distributed_tx.rs:271-358 | an append succeeds exactly if the transition is valid, the file stays under the cap and the write is durable; then file and memory both hold one record more. A failed write leaves both as before or both with the record; no byte already there is lost |
| Journal.DurableTxJournal.Open | src/distributed_tx.rs:257-270 | opening keeps the complete lines, drops a torn tail and leaves memory equal to a replay of the file |
| Journal.DurableTxJournal.List | src/distributed_tx.rs:368-376 | the listing is sorted by commit sequence, undecided last, then newest record, and lists every transaction once |
| Journal.Replay | src/distributed_tx.rs:379-490 | the byte loop returns the fold of the complete lines and their length, or the first error |
| Journal.PrefixReplays | src/distributed_tx.rs:379-490 | every byte prefix of a file that replays also replays, to the state of exactly its complete lines; cutting there is idempotent, and the rest of the file continues from that state |
| Journal.TornAppendRecovers | src/distributed_tx.rs:271-358 | a crash after any number of bytes of an append leaves a file that replays to the state before it, or after it once the newline is there |
| Journal.ReplayRepairs | src/distributed_tx.rs:473-489 | truncating to the valid length leaves a file that replays to the same state, with no tail |
| Journal.JournalIsItsLog | src/distributed_tx.rs:379-490 | the replayed state is the one determined by the records on the file's lines, and those form a valid log |
| Journal.ChainPinsHistory | src/distributed_tx.rs:284-296 | two journals with the same last hash hold the same records |
| LedgerStore.HubState.Reserved | src/state.rs:4897-4912 | the loop over reservations sums what others hold on one side, or reports that a sum leaves u64 |
| LedgerStore.HubState.ReservePaymentLiquidity | src/state.rs:4879-4939 | every hop is checked against unreserved liquidity before the reservation is stored; only the report of a duplicate id comes after it |
| LedgerStore.HubState.PrepareDistributedReservation | src/state.rs:3289-3342 | idempotent per id, refuses other terms under the same id, and stores nothing when it refuses; a new one is stored exactly if hops are proper, on different channels, within the limit, and every sender's balance covers the amounts beside what is reserved |
| LedgerStore.HubState.ReleaseDistributedReservation | src/state.rs:3344-3350 | drops the reservation unless the settlement was applied |
| LedgerStore.HubState.ApplyDistributedSettlement | src/state.rs:4777-4877 | moves the amounts of all hops from the sender's to the receiver's side and sets the applied marker, once; an error changes nothing |
| Ledger.ReservesIffLiquid | src/state.rs:4879-4939 | a well-shaped reservation passes exactly if every side it spends from has that much left beside what is reserved |
| Ledger.SettlesIff | src/state.rs:4777-4877 | settling succeeds exactly if every side can pay and no hop channel carries this settlement's mark |
| Ledger.PreparedIff | src/state.rs:3289-3342 | when exactly a new reservation passes, in terms of the balances and what others reserve of them |
| Ledger.SettlePaysAcross | src/state.rs:4777-4877 | on every hop channel of a settlement the sender's balance falls and the receiver's rises by the amounts, and no other channel changes |
| Ledger.SettleConserves | src/state.rs:4777-4877 | settling keeps every channel's left + right total |
| Ledger.SettleKeepsCovered | src/state.rs:4777-4877 | after settling no side has promised more than it holds |
| HubLedger.ReservedAlwaysSettles | src/state.rs:3354-3363 | what was reserved always settles |
| HubLedger.RoomAfterSettling | src/distributed_tx.rs:1346-1428 | pledged money is there whatever order some of the pledges settle in |
| Recovery.ReplayAll | src/distributed_tx.rs:1346-1428 | a replay in any order succeeds exactly if every step's guard holds, and its result is a closed form of snapshot and journal |
| Recovery.RecoverAgain | src/distributed_tx.rs:1346-1428 | replaying a recovered ledger again changes nothing |
| HubRuns.StepKeepsInv | src/distributed_tx.rs:1232-1330 | every step of a hub, crash, restart and giving back an unacknowledged reservation included, keeps the hub invariant |
| HubRuns.NeverOverdrawn | src/distributed_tx.rs:976-994 | in every run balances are the registered ones plus exactly the applied transactions, applied implies a durable commit decision, and no side promises more than it has |
| HubRuns.DecidedCanSettle | src/distributed_tx.rs:976-994 | in every run a running hub can settle a durably decided transaction at once, exactly if it is settled already or its reservation was not given back after a failed append that landed |
| HubRuns.ExactlyOnce | src/distributed_tx.rs:1346-1428 | after a crash anywhere and a replay over the last snapshot, each decided transaction counts exactly once, every prepared one is reserved again, aborted ones hold nothing, and a second replay changes nothing |
| HubRuns.RestartSucceedsIff | src/distributed_tx.rs:1346-1428 | when exactly a restart succeeds from any reachable state |
| HubRuns.RestartSucceeds | src/distributed_tx.rs:368-376 | in `list()` order, if nothing in the snapshot was released since, no prepared payment was closed and no reservation was lost to a failed append, a restart succeeds exactly if what is reserved again fits the hop limit |
| ClusterHubs.HubIsReachable | src/distributed_tx.rs:774-1428 | in every run of the protocol each hub has only done what the theorems about one hub cover |
| ClusterHubs.HandledHubIsReachable | src/distributed_tx.rs:774-1428 | so has the hub that the handlers run |
| ClusterHubs.NeverOverdrawn | src/distributed_tx.rs:976-994 | in every run of the protocol each hub's balances are the registered ones plus exactly its applied transactions, and no side promises more than it has |
| ClusterHubs.DecidedCanSettle | src/distributed_tx.rs:976-994 | in every run of the protocol a running hub can settle what it decided exactly if it settled it already or kept its reservation |
| ClusterHubs.ExactlyOnce | src/distributed_tx.rs:1346-1428 | whenever a hub of a run restarts, it counts each decided transaction exactly once, reserves every prepared one again and holds nothing else that is journaled; replaying again changes nothing |
| ClusterHubs.RecoversIfHealthy | src/distributed_tx.rs:1346-1428 | a hub of a run with no stale hold, no closed prepared payment and no lost reservation recovers exactly if what it reserves again fits the hop limit |
| RestartFailures.StaleHoldBlocksRestart | src/distributed_tx.rs:1348-1420 | a run of the cluster in which a hub that decided to commit goes down over a snapshot with a reservation released since, cannot restart, and the commit can never complete; all other causes are absent |
| RestartFailures.LongRouteBlocksRestart | src/state.rs:1444-1474 | a run of the cluster in which a payment over more local hops than the limit is prepared at every hub, and its coordinator cannot restart; all other causes are absent |
| RestartFailures.ClosedPaymentBlocksRestart | src/state.rs:3765-3785 | a run of the cluster in which the reservation of a journaled prepared payment was released, another took its liquidity, and the hub cannot restart; all other causes are absent |
| RestartFailures.LostReservationBlocksRestart | src/distributed_tx.rs:1250-1259 | a run of the cluster in which a participant released after an append that failed but landed, another payment took the liquidity, and the hub cannot restart; all other causes are absent, and the abort its coordinator decided can never complete although the participant would accept it |
| RestartFailures.LostReservationBlocksSettling | src/distributed_tx.rs:326-343 | a run of the cluster in which that participant journals the commit decision and, running, cannot settle it |
| Descriptors.DescriptorIsSound | src/distributed_tx.rs:1757-1829 | a descriptor passes exactly if it matches its payment and holds distinct hops, each with its direction, of the simple path the users signed |
| Descriptors.CoversOwnHops | src/distributed_tx.rs:2887-2914 | a covered, valid descriptor holds a path hop exactly if the hub owns its channel |
| Descriptors.CoverageIff | src/distributed_tx.rs:2887-2914 | a sound descriptor covers the hub exactly if its hops are the path's hops over channels the hub owns |
| Descriptors.AuthorizedIff | src/distributed_tx.rs:1831-1874 | only a commit carries signatures, exactly as many as signers, each signer's first at its own position |
| Descriptors.AllSignedIsAuthorized | src/distributed_tx.rs:1831-1874 | signatures collected by the session authorize a commit at participants exactly if every required signer signed |
| Descriptors.SigningKeepsOrder | src/state.rs:3495-3503 | adding a signature keeps one per signer, each with its place in the required order |
| TwoPhaseCommit.RequestIff | src/distributed_tx.rs:1717-1755 | when exactly a genuine request passes: a sound descriptor with at most 32 channels, the hub's own hops and no others, another hub as coordinator, and all signatures in place if it is to commit |
| TwoPhaseCommit.NextRecordAccepted | src/distributed_tx.rs:1204-1341 | every record a verified request leads to passes the journal's transition check |
| TwoPhaseCommit.StepStaysSound | src/distributed_tx.rs:774-1343 | every protocol step keeps the invariant that no message and no participant runs ahead of its coordinator's journal |
| Agreement.Agreement | src/distributed_tx.rs:774-1343 | in every run with loss, duplication, reordering and crashes between steps, no hub ever journals a commit of a transaction while any hub ever journals an abort of it |
| Agreement.CommittedEverywhere | src/distributed_tx.rs:997-1036 | CoordinatorCommitted implies that every participant's journal says Committed |
| Agreement.AbortedEverywhere | src/distributed_tx.rs:1106-1138 | CoordinatorAborted implies that every participant's journal says Aborted |
| Agreement.DecidedReachesAll | src/distributed_tx.rs:963-985 | a commit decision implies that every participant is prepared or further, and passes its checks |
| AbortDelivery.TombstonesAreFinal | src/distributed_tx.rs:1299-1340 | once a participant journaled an abort, a tombstone included, that stays its newest record in every continuation, whatever arrives late or again |
| AbortDelivery.AbortFinishesIff | src/distributed_tx.rs:1038-1139 | the protocol by itself can carry an abort decision to CoordinatorAborted exactly if every participant accepts the descriptor and holds nothing else under its id |
| AbortCompletion.AbortCompletesIff | src/distributed_tx.rs:1038-1139 | in every run of the cluster an abort decision can be carried to CoordinatorAborted exactly if that holds and every hub that is needed and down recovers |
| AbortedHolds.AbortedHoldsIff | src/distributed_tx.rs:1299-1340 | in every continuation of every run an aborted transaction holds its reservation exactly until its hub releases it or restarts |
| AbortedHolds.AbortTwice | src/distributed_tx.rs:1299-1340 | a prepared transaction aborted twice, the second time with a working disk, is acknowledged, and still holds its reservation exactly if the first append failed although its record landed |
| AbortRefusals.RefusalBlocksAbort | src/distributed_tx.rs:2887-2914 | a reached state with an abort decision that no continuation carries to CoordinatorAborted, because the participant does not own a channel it was asked for |
| Conservation.PathGains | src/distributed_tx.rs:1782-1828 | all hubs' hops together move the amount from the start of the signed path to its end |
| Conservation.PathConservation | src/distributed_tx.rs:1544-1616 | settling every hub's own hops takes the amount from the payer, gives it to the payee and leaves everyone else as they were |
| Conservation.ShareIsGains | src/state.rs:4777-4877 | one hub's settlement moves money along its own hops and nowhere else |
| Cluster.ProjectsToWire | src/distributed_tx.rs:774-1343 | protocol steps of the cluster act on journals and messages as in the step system, local ones leave them alone |
| Cluster.ClusterStepKeepsInv | src/distributed_tx.rs:774-1428 | every step of any hub keeps all hubs' invariants and the protocol's |
| Payments.MoneyMovesOnlyOnCommit | src/distributed_tx.rs:976-994 | a hub that moved balances for a transaction has a coordinator that durably decided to commit, and nobody ever journals an abort |
| Payments.CommittedPaymentIsConserved | src/distributed_tx.rs:1017-1036 | at CoordinatorCommitted every involved hub has moved its balances, and together they moved the amount from payer to payee |
| Payments.WealthAtHub | src/state.rs:4777-4877 | at any time an address owns at a hub what it registered with plus its share of each applied transaction |
| CommitDelivery.CommitCompletes | src/distributed_tx.rs:1431-1541 | a commit-decided coordinator that is up or recovers can be taken to CoordinatorCommitted, with every participant Committed, if each participant still to acknowledge runs with its reservation or recovers |
| CommitDelivery.CommitCompletesIff | src/distributed_tx.rs:1431-1541 | in every run, unless a needed hub is running without its reservation and would not recover, a commit decision can be completed exactly if every needed hub that is down recovers |
| CommitDelivery.LostNeedsRestart | src/distributed_tx.rs:1276-1297 | while a participant runs without the reservation it has to settle, a continuation that completes the commit restarts that hub |
| Completion.DownBlocks | src/distributed_tx.rs:1431-1541 | while a hub that a phase needs is down and does not recover, no continuation finishes that phase, be it prepare, commit or abort |
| Completion.RecoversIff | src/distributed_tx.rs:1346-1428 | in every run a hub recovers exactly if the guards hold of its snapshot and journal |
| Participants.GroupHops | src/distributed_tx.rs:1549-1568 | groups remote hops by hub in path order, or refuses a hop without a direction |
| Participants.BuildParticipants | src/distributed_tx.rs:1544-1616 | succeeds exactly if every hop names both addresses and every hub is a peer that advertises two-phase commit, has an identity and sent a verified hello; then one entry a hub, sorted by name, with exactly its hops |
| Participants.BuiltIsBegun | src/distributed_tx.rs:1544-1616 | for the session of a path, every other hub's entry holds exactly the path hops it owns |
| Manager.DistributedTxManager.Append | src/distributed_tx.rs:764-772 | reports success exactly if the journal accepts the record and the write is durable, and holds the record exactly if it is accepted and the write left it there; every record held is a step of the protocol |
| Manager.DistributedTxManager.HandleParticipantRequest | src/distributed_tx.rs:1186-1343 | whatever the writes do, journals only the records the protocol calls for, moves exactly the money those imply and acknowledges only what its journal says. A prepare at or past its expiry is an error that leaves journal and ledger alone; with durable writes a new one in time is acknowledged and reserved exactly if every hop's sender can pay beside what is reserved, and the answers to a known prepare in time, a commit and an abort depend on the newest record and the ledger, not on the clock |
| Manager.DistributedTxManager.HandlePrepare | src/distributed_tx.rs:1212-1263 | reserves, then journals; a failed append releases again, and if its record landed the reservation is lost, which the new state says; an answer is what the journal says |
| Manager.DistributedTxManager.HandleCommit | src/distributed_tx.rs:1264-1297 | journals the decision, settles once the append of the decision succeeded, then journals Committed; settling fails, with the decision journaled and no money moved, if the reservation is lost |
| Manager.DistributedTxManager.HandleAbort | src/distributed_tx.rs:1299-1340 | journals Aborted, as a tombstone if nothing is known, and then releases |
| Manager.DistributedTxManager.SendPhase | src/distributed_tx.rs:1141-1184 | asks one participant and accepts exactly the acknowledgement the phase calls for |
| Manager.DistributedTxManager.PrepareOrigin | src/distributed_tx.rs:774-919 | Ok for a new payment means Prepared with every acknowledgement journaled and the reservation kept; otherwise nothing, Preparing, a fully acknowledged Prepared that was not reported, or an abort is journaled, and an abort releases; whatever is journaled records the session's amounts, expiry and payment hash, this hub and its reserved hops. Without faults it succeeds exactly if the payment is reserved and its participants can be built; for a known one it succeeds exactly if it is prepared or decided to commit, and changes nothing |
| Manager.DistributedTxManager.PrepareCreatedPayment | src/api.rs:2140-2163 | a new payment whose prepare reports a failure loses its reservation, and its session is closed if the journal says Preparing or Prepared |
| Manager.DistributedTxManager.CommitOriginLocked | src/distributed_tx.rs:938-1036 | a prepared or decided coordinator whose session holds a signature of every required signer ends in CoordinatorCommitted with the transaction applied if writes are durable and replies helpful; without session or signatures, or in any other state but CoordinatorCommitted, nothing changes. It settles locally exactly if the decision is known durable, and asks every participant not known to have committed |
| Manager.DistributedTxManager.DeliverAbort | src/distributed_tx.rs:1038-1074 | asks everyone not known to have aborted, also after one that does not answer; no failure means all acknowledged, and every acknowledgement held in memory really arrived |
| Manager.DistributedTxManager.AbortOrigin | src/distributed_tx.rs:1076-1139 | never aborts a decided commit, journals the decision first, asks every participant that has not aborted, releases exactly when the abort is known durable and the session allows, and without faults ends in CoordinatorAborted |
| Manager.DistributedTxManager.RetryPending | src/distributed_tx.rs:1431-1541 | a round touches only coordinators, keeps every decision and guesses none: a prepared payment not fully signed and not being committed keeps its newest record unless it has expired. Without faults it finishes every commit and abort decision, commits every signed prepared payment, and aborts every incomplete prepare and every expired payment |
| Manager.DistributedTxManager.RecoverLocal | src/distributed_tx.rs:1346-1428 | computes the specified replay over the loaded snapshot, or its first error, and resumes the hub's run |
| Manager.CountIsOfRecoverable | src/distributed_tx.rs:1346-1428 | the count reported is the number of listed transactions past their preparing record |
| Manager.DistributedTxManager.Save | src/persist.rs:166-183 | balances, applied markers and exactly the coordinators' reservations are captured together at one point of the run |
| NodeRuns.NodeRunIsClusterRun | src/distributed_tx.rs:774-1428 | what one hub does on its own is, in every interleaving with others that play by their rules, a run of the cluster |
| OneHub.TrackOccurs | src/distributed_tx.rs:774-1428 | the journal and ledger the handlers produce are those of this hub in a reachable cluster, so every theorem about clusters holds of them |
| ChannelState.SignedIsSound | src/channel_state.rs:177-193 | a valid signed state carries the hash of its commitment and one or two verified signatures of distinct addresses |
| ChannelState.OneSignerCountsTwice | src/channel_state.rs:185-204 | one party's signature stated twice, with and without a blank before the address, is a valid state of two signatures that is not both-signed |
| ChannelState.BuildProof | src/channel_state.rs:229-247 | builds exactly the assembled proof, or the validator's error |
| ChannelState.ProofIsEvidence | src/channel_state.rs:249-281 | a valid proof names a party that signed two different states of one channel and sequence |
| ChannelState.ProofIff | src/channel_state.rs:249-281 | a proof is valid exactly if it holds two different valid states of one channel and sequence and the named party signed both |
| ChannelState.CertificateIsSound | src/channel_activation.rs:113-140 | a certificate is valid exactly if both parties, and nobody else, signed the hash of its valid commitment |
| ChannelState.SuccessorIff | src/channel_state_store.rs:438-462 | against a valid record a state passes exactly if it is not later than the head, or is the next one and binds the head's hash |
| ChannelState.BuildIsSymmetric | src/channel_state.rs:229-247 | the order of the two states does not matter, so proof ids deduplicate |
| ChannelState.RulesAreLawful | src/channel_state_store.rs:408-462 | the validators obey the laws the store's theorems assume |
| ChannelStateStore.ChannelStateStoreV2.Merge | src/channel_state_store.rs:82-100 | adds one known signature of each further signer of the same state, sorted by address |
| ChannelStateStore.ChannelStateStoreV2.Examine | src/channel_state_store.rs:105-136 | classifies every signer against its own entry |
| ChannelStateStore.ChannelStateStoreV2.Observe | src/channel_state_store.rs:75-210 | the new maps and report are those specified for the merged state; an error changes nothing |
| ChannelStateStore.ChannelStateStoreV2.RestoreObservation | src/channel_state_store.rs:212-235 | one exported observation is restored for every signer it is news for |
| ChannelStateStore.ChannelStateStoreV2.RestoreProof | src/channel_state_store.rs:237-246 | restored exactly if valid and there under its id already or while there is room; then it is filed under its id, and nothing else changes |
| ChannelStateStore.ChannelStateStoreV2.RestoreActivation | src/channel_state_store.rs:300-315 | restored exactly if valid and the same as the channel's record, or the channel has none and there is room; another record is refused and nothing changes |
| ChannelStateStore.ChannelStateStoreV2.Activate | src/channel_state_store.rs:266-298 | activates from some stored both-signed state the certificate matches; the same certificate again is a no-op |
| ChannelStateRuns.ReachedInv | src/channel_state_store.rs:75-298 | in every run each entry is a valid state signed by its key, each signer's own entry is at least as new, proofs stay valid and at most max_proofs + 1, and activations stay valid |
| ChannelStateRuns.EquivocationIsRecorded | src/channel_state_store.rs:119-161 | a valid conflicting state that passes the successor check leaves its proof in the store, or is refused for capacity with nothing changed; observations and heads never change |
| ChannelStateRuns.HeadsFormAChain | src/channel_state_store.rs:181-192 | over any run an activated channel's heads form a both-signed chain that binds each predecessor and skips no sequence |
| ChannelStateRuns.SplitHeadNeverMoves | src/channel_state_store.rs:438-462 | once the parties' states directly after the head differ, the head never changes again |
| ChannelStateProgress.StateIsRecorded | src/channel_state_store.rs:75-210 | a valid state that may follow the head and contradicts no signer is recorded exactly if its signers find room: it becomes the entry of each signer with an older entry, none, or this one with fewer signatures; no other entry and no proof changes, the head changes only to a later both-signed state, and the outcome is Duplicate or Stale exactly if every signer holds it in full or is ahead |
| ChannelStateProgress.ContradictionIsEvidence | src/channel_state_store.rs:119-161 | a valid state that may follow and contradicts signers stores one proof against each of them and nothing else, reports exactly their ids in order, and is refused exactly if a new proof finds no room |
| ChannelStateProgress.HeadMovesIff | src/channel_state_store.rs:181-192 | in every reachable store a later both-signed state becomes the head of its activated channel exactly if it is the head's direct successor and contradicts no signer; there is always room for it |
| ChannelStateProgress.SuccessorReachesHead | src/channel_state_store.rs:75-210 | in every run the valid direct successor of a head, observed with both parties' signatures and contradicting no entry, is accepted and becomes the head exactly if no entry of the same state has a signer it lacks as written; otherwise it is refused and nothing changes |
| ChannelStateProgress.MergeIsValidIff | src/channel_state_store.rs:82-101 | a valid state with the known signatures of valid entries added to it is valid exactly if it has no more than two |
| ChannelStateProgress.TrimmedCarriesKnown | src/channel_state_store.rs:82-101 | where signers are written without surrounding blanks, a state by both parties lacks no known signer |
| PaddedSigners.PaddingBlocksBothSigned | src/channel_state_store.rs:82-101 | a run after which a valid state with both parties' signatures that contradicts nothing is refused, because one party's signature of it was stored under a padded spelling |
| ChannelStateProgress.ActivationIsExact | src/channel_state_store.rs:266-298 | a valid certificate activates exactly if the channel has the same one already, or has none, a stored valid state is the one it names with both signatures, and the clock is set; that state is the head, and nothing else changes |
| ChannelStateProgress.RecordIff | src/channel_state_store.rs:408-436 | a record is valid exactly if it is dated, its certificate is valid and its head is a valid state by both parties of the same channel, not before the initial one nor a different initial one |
| ChannelStateProgress.RestoreIsExact | src/channel_state_store.rs:212-235 | an observation is restored exactly if it is valid, contradicts no entry of its signers and they find room; each signer with an older entry or none has it then, and no other entry changes |
| ChannelStateRestore.RoundTrip | src/channel_state_store.rs:372-390 | from any reachable store, exported observations restored in any order into an empty store of equal capacity rebuild the same map exactly if no signer's signatures stand under two different states of one channel and sequence; activations always come back, proofs when there are at most max_proofs |
| ChannelStateRestore.TrimmedSignersAgree | src/channel_state_store.rs:75-210 | where signers are written without surrounding blanks, they never do |
| PaddedSigners.PaddedSignerBreaksRoundTrip | src/channel_state_store.rs:212-235 | a run of three valid states, one with a blank before a signer, to a store that an empty store of equal capacity cannot restore in every order |
| ChannelStateRestore.ActivationsFit | src/channel_state_store.rs:300-315 | every activated channel has both parties' entries, so activations never exceed half the observation capacity |
| Route.BuildGraph | src/route.rs:110-118 | the adjacency lists exactly the neighbours over the edges |
| Route.FindPathForAmount | src/route.rs:131-241 | Ok exactly if the trimmed endpoints differ and a walk within the hop limit exists on which, for a positive amount and known liquidity, the balance shown for the address each hop leaves from covers the amount; the path is such a walk, shortest, visits distinct addresses, and the final re-check never fails |
| Route.LocalHopCanPay | src/route.rs:30-93 | where a routed hop runs over one of the hub's own channels on which nothing is reserved, the ledger lets the hop's sender pay: the side that is debited is the one the router looked at |
| Route.OrderedSigners | src/route.rs:245-269 | the loop computes the specified walk back from the payee |
| Route.SignersAreReversed | src/route.rs:245-269 | the signers of a found path are its addresses reversed, each once |
| Route.RouteIsSimplePath | src/distributed_tx.rs:1773-1828 | a route of at most 32 hops signs as a simple path, and hop k of the signed path is edge k with its direction |
| Route.RouteDescriptorPasses | src/distributed_tx.rs:1757-1829 | a descriptor of any hops of a found route passes the participant's validator |
| Route.MergeNetworkEdges | src/route.rs:273-292 | one edge per channel id: an id held locally has that channel's own parties and balances whatever is advertised, any other id its first advertisement |
| Amounts.Parse | src/amounts.rs:17-59 | the parsing loops compute the specified value or error for any text |
| Amounts.FormatZhu | src/amounts.rs:103-113 | prints a mantissa and a unit from 240 to 255 of exactly this value, with no trailing zero left in the mantissa below unit 255 |
| Amounts.ParseIsExact | src/amounts.rs:17-59 | a u64 mantissa and u8 unit are accepted exactly if their value is a whole number of Zhu below 2^64, which is returned |
| Amounts.ParsesNotation | src/amounts.rs:17-59 | the same for the written form, with leading zeroes and surrounding blanks |
| Amounts.AcceptedIff | src/amounts.rs:17-59 | any text is accepted, as a given number of Zhu, exactly if between blanks it is empty, a plain zero, or a mantissa numeral of at most 2^64 - 1, a colon and a unit numeral of at most 255 whose value is exactly that number below 2^64 |
| Amounts.RoundTrip | src/amounts.rs:103-113 | every u64 amount survives printing and parsing |
| Amounts.NormalizeIsCanonical | src/amounts.rs:99-101 | normalizing is idempotent, and two accepted texts normalize alike exactly if they are worth the same |
| Encoding.DecodeInverts | src/channel_state.rs:321-341 | a decoder that knows the layout reads every delimited field back, whatever follows |
| Encoding.WrittenInjective | src/channel_state.rs:321-341 | records of one layout have the same bytes, even as prefixes, only if they are equal |
| Encoding.WrittenDecodes | src/channel_state.rs:321-341 | the fields of a record are read back from its bytes |
| Commitments.WriteState | src/channel_state.rs:140-165 | the appending method writes the seventeen fields of a valid commitment in this order and with these widths, or returns its first error |
| Commitments.WriteActivation | src/channel_activation.rs:85-101 | the same for the twelve fields of an activation |
| Commitments.StateIsSound | src/channel_state.rs:80-138 | a state is valid exactly if its identifiers are lower-case hex of the right length, its previous hash is there unless it is the first, its parties are two valid addresses, and the balances add up to the funding |
| Commitments.ActivationIsSound | src/channel_activation.rs:50-83 | an activation is valid exactly if it names an initial state of two parties in lower-case hex and grants no authority |
| Commitments.AnchorIsSound | src/l1_anchor.rs:69-119 | the fields of an anchor are valid exactly if they describe an opening between two valid addresses, seen on the main network since it happened, with balances that fit |
| Commitments.StateBytesInjective | src/channel_state.rs:140-165 | no two valid channel states share canonical bytes |
| Commitments.ActivationBytesInjective | src/channel_activation.rs:85-101 | no two valid activations share canonical bytes |
| Commitments.AnchorBytesInjective | src/l1_anchor.rs:146-177 | two valid anchors hash the same bytes exactly if they describe the same channel opening |
| Commitments.DomainsNeverCollide | src/channel_activation.rs:85-101 | bytes of a state, an activation and an anchor are never equal |
| AgentIntent.AgentIntentMessage | src/agent_pay.rs:212-261 | the pushing loops build the specified text exactly if none of nine fields has a control character and the nonce has 16 to 128 bytes; otherwise the first such field is named |
| AgentIntent.MessageInjective | src/agent_pay.rs:201-261 | two intents with the same message are equal, even when route entries contain newlines |
| ChannelAds.ComparatorIsTotal | src/crypto.rs:236-268 | the comparator over all eleven fields is a total order in which only identical advertisements are equal |
| ChannelAds.AdOrder | src/crypto.rs:236-284 | the hashed fields are the compared ones, in the same order |
| ChannelAds.ChannelAdsBytes | src/crypto.rs:233-284 | sorting and appending writes the specified bytes |
| ChannelAds.SameHashIffSameAds | src/crypto.rs:233-289 | two lists hash the same bytes exactly if they are equal as multisets |
| RateLimit.RateLimiter.Check | src/ratelimit.rs:23-43 | the decision and the new table are those specified, pruning included |
| RateLimit.PruningIsInvisible | src/ratelimit.rs:38-41 | for clocks that never run back, pruning changes no decision |
| RateLimit.AdmittedIff | src/ratelimit.rs:23-43 | a request is admitted exactly if fewer than the maximum were admitted for its key in the window it falls into, which is that of the key's last request unless it has ended |
| RateLimit.RefusalChangesNothing | src/ratelimit.rs:31-37 | without a request that was refused, every other request of the run is answered the same |
| RateLimit.LimiterBurstBound | src/ratelimit.rs:23-43 | any span as long as the window admits at most 2 x max - 1 requests per key |

## Left out

- Manager.DistributedTxManager.RecoverLocal: replays the ledger only; the restored payment sessions and idempotency records are not part of the model.
- Manager.DistributedTxManager.HandleParticipantRequest: identities, message timestamps and curve cryptography are left out; a request in the
  model is genuine, and an unverifiable one is one that was never delivered.
- Manager.DistributedTxManager.SendPhase: likewise for responses.
- Manager.DistributedTxManager.PrepareOrigin: the peer table is fixed while the handler runs; a participant that disappears from it in between
  counts as one that does not answer.
- Manager.DistributedTxManager.AbortOrigin: error texts kept in `last_error` are fixed ones, here and in the other coordinator handlers.
- Manager.DistributedTxManager.Append: `log` is the sequence of records and not the journal object itself; that the file
  behaves as this sequence is Journal.JournalIsItsLog and Journal.DurableTxJournal.Append.
- Manager.DistributedTxManager.HandleParticipantRequest: this contract, like those of the other handlers, fixes the hub's
  balances over one call, so no other handler and no TTL release of the same hub runs between its awaits; steps of one hub
  interleave in OneHub and NodeRuns.
- CommitDelivery.CommitCompletesIff: says nothing while a needed hub runs without its reservation and would not recover as
  it stands; CommitDelivery.LostNeedsRestart says what has to happen then, not whether it can.
- A participant's reservation may be given back at any time while its newest record is ParticipantPrepared, where the code
  does so only right after the failed append.
- Journal.DurableTxJournal.Append: if the re-read after a failed write fails too, memory and file are no longer claimed to agree.
- Journal.JournalIsItsLog: assumes that a line's stored hash was computed over the fields this version knows.
- ChannelState.SignedIsSound: signature verification is an uninterpreted predicate.
- Route.RouteIsSimplePath: endpoints are trimmed, and channel ids in the graph are distinct, as `merge_network_edges` makes them.
- Cancelling a payment while its first coordinator record is being appended.
- Registering or closing channels while transactions run: a hub's channels are fixed for a run, only balances change.
- Local payments, receipts, invoices, micro streams, bills and deferred payments: other state machines in `src/state.rs`.
- Balances as HAC strings: channels hold their Zhu and satoshi numbers.
- The rotation of snapshot files on disk, fsync, permissions and JSON; a snapshot here is read whole or not at all.
- Async locks: one handler per transaction at a time, as they ensure; handlers of different transactions interleave as steps.
- HTTP handlers, gossip, webhooks, the fullnode client, hub scoring, close plans, metrics and the SDKs.
