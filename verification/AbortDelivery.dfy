/**
 Delivering an abort decision (src/distributed_tx.rs:1045-1138, 1489-1525): exactly when the protocol by
 itself, all hubs running, lets the coordinator reach CoordinatorAborted. AbortCompletion adds hubs that are down.
 */
module AbortDelivery {
  import opened Prelude
  import opened Transactions
  import opened Log
  import opened Descriptors
  import opened TwoPhaseCommit
  import opened Agreement

  lemma RanFirst(n: Wire, lands: Territory, steps: seq<NetStep>)
    requires steps != []
    ensures Allowed(n, lands, steps[0]) ==> Ran(n, lands, steps) == Ran(NextNet(n, lands, steps[0]), lands, steps[1..])
    ensures !Allowed(n, lands, steps[0]) ==> Ran(n, lands, steps).None?
  {
  }

  lemma {:induction false} RanTwice(n: Wire, lands: Territory, a: seq<NetStep>, b: seq<NetStep>)
    requires Ran(n, lands, a).Some?
    ensures Ran(n, lands, a + b) == Ran(Ran(n, lands, a).value, lands, b)
    decreases a
  {
    if a == [] {
      assert a + b == b;
    } else {
      var rest, ab := a[1..], a + b;
      assert ab[0] == a[0] && ab[1..] == rest + b && ab != [];
      RanFirst(n, lands, a);
      var next := NextNet(n, lands, a[0]);
      assert Ran(n, lands, ab) == Ran(next, lands, rest + b) by {
        RanFirst(n, lands, ab);
      }
      RanTwice(next, lands, rest, b);
    }
  }

  lemma RanOne(n: Wire, lands: Territory, m: NetStep)
    requires Allowed(n, lands, m)
    ensures Ran(n, lands, [m]) == Some(NextNet(n, lands, m))
  {
    assert Ran(NextNet(n, lands, m), lands, [m][1..]) == Some(NextNet(n, lands, m));
  }

  /** `tx` with acknowledgement flags of entry `k` replaced. */
  function WithEntry(tx: Transaction, k: nat, e: ParticipantEntry): Transaction
    requires k < |tx.participants|
  {
    tx.(participants := tx.participants[k := e])
  }

  /** Recording an acknowledgement is an accepted append. */
  lemma EntryAccepted(tx: Transaction, k: nat, e: ParticipantEntry)
    requires CheckRecord(tx).None? && k < |tx.participants|
    requires SameDescriptor(tx.participants[k], e) && FlagsAdvance(tx.participants[k], e)
    requires forall i :: 0 <= i < |tx.participants| ==> !(tx.participants[i].committed && tx.participants[i].aborted)
    ensures MayFollow(Some(tx), WithEntry(tx, k, e))
  {
    EntriesAccepted(tx.participants, WithEntry(tx, k, e).participants);
  }

  lemma StateAccepted(tx: Transaction, state: TxState)
    requires CheckRecord(tx).None? && StateMayFollow(tx.state, state)
    requires (IsCoordinatorState(tx.state) <==> IsCoordinatorState(state))
    requires forall i :: 0 <= i < |tx.participants| ==> !(tx.participants[i].committed && tx.participants[i].aborted)
    ensures MayFollow(Some(tx), tx.(state := state))
  {
    EntriesAccepted(tx.participants, tx.participants);
  }

  lemma WellFormedRecord(n: Wire, lands: Territory, p: Provider, t: TxId)
    requires Sound(n, lands) && p in n.logs && RecordAt(n, p, t).Some?
    ensures CheckRecord(RecordAt(n, p, t).value).None? && RecordAt(n, p, t).value.txId == t
  {
    SoundMeans(n, lands);
    RecordsWellFormed(n.logs[p]);
  }

  /** No entry is acknowledged both ways. */
  lemma FlagsExclude(n: Wire, lands: Territory, p: Provider, t: TxId)
    requires Sound(n, lands) && p in n.logs && RecordAt(n, p, t).Some? && RecordAt(n, p, t).value.role.Coordinator?
    ensures forall i :: 0 <= i < |RecordAt(n, p, t).value.participants| ==>
              !(RecordAt(n, p, t).value.participants[i].committed && RecordAt(n, p, t).value.participants[i].aborted)
    ensures HasAbortDecision(RecordAt(n, p, t).value.state) ==>
              forall i :: 0 <= i < |RecordAt(n, p, t).value.participants| ==>
                  !RecordAt(n, p, t).value.participants[i].committed
    ensures HasCommitDecision(RecordAt(n, p, t).value.state) ==>
              forall i :: 0 <= i < |RecordAt(n, p, t).value.participants| ==>
                  !RecordAt(n, p, t).value.participants[i].aborted
  {
    var tx := RecordAt(n, p, t).value;
    CoordinatorRecord(n, lands, p, t);
    forall i | 0 <= i < |tx.participants|
      ensures tx.participants[i].committed ==> HasCommitDecision(tx.state)
      ensures tx.participants[i].aborted ==> HasAbortDecision(tx.state)
    {
      FlagsAreNow(n, lands, p, t, i);
      if tx.participants[i].committed || tx.participants[i].aborted {
        DecisionsAreTheCoordinators(n, lands, tx.participants[i].descriptor.participant, t);
      }
    }
  }

  /** The participant behind entry `k` accepts messages about it. */
  ghost predicate Reachable(n: Wire, lands: Territory, d: Descriptor) {
    && d.participant in n.logs && d.participant in lands
    && CheckRequest(lands[d.participant], Request(PreparePhase, d, [])).None?
    && (RecordAt(n, d.participant, d.txId).Some? ==> Matches(RecordAt(n, d.participant, d.txId).value, d))
  }

  ghost predicate AllReachable(n: Wire, lands: Territory, tx: Transaction) {
    forall i :: 0 <= i < |tx.participants| ==> Reachable(n, lands, tx.participants[i].descriptor)
  }

  lemma AllReachableStands(n: Wire, n2: Wire, lands: Territory, q: Provider, record: Transaction, tx: Transaction)
    requires Appends(n, n2, q, record) && AllReachable(n, lands, tx)
    requires forall i :: 0 <= i < |tx.participants| ==>
               var d := tx.participants[i].descriptor;
               d.participant == q && d.txId == record.txId ==> Matches(record, d)
    ensures AllReachable(n2, lands, tx)
  {
    RecordsAfter(n, n2, q, record);
    forall i | 0 <= i < |tx.participants| ensures Reachable(n2, lands, tx.participants[i].descriptor) {
      assert Reachable(n, lands, tx.participants[i].descriptor);
    }
  }

  /** The coordinator `p` decided to abort `tx`. */
  ghost predicate Aborting(n: Wire, lands: Territory, p: Provider, tx: Transaction) {
    && Sound(n, lands) && p in n.logs && RecordAt(n, p, tx.txId) == Some(tx) && tx.state.CoordinatorAbortDecided?
    && tx.role.Coordinator? && AllReachable(n, lands, tx)
  }

  /** A step of one of the hubs `who` that serves to abort. */
  predicate OfAbort(m: NetStep, who: set<Provider>) {
    match m
    case Begin(p, tx, owners) => false
    case Advance(p, tx) => p in who && HasAbortDecision(tx.state)
    case Send(p, t, entry, phase) => p in who
    case Handle(q, r, now) => q in who && r.phase.AbortPhase?
    case Reply(q, r) => q in who
  }

  predicate AllOfAbort(steps: seq<NetStep>, who: set<Provider>) {
    forall i :: 0 <= i < |steps| ==> OfAbort(steps[i], who)
  }

  /** Participant `k` acknowledged the abort, or is one of the hubs `who`. */
  predicate ToldOr(n: Wire, tx: Transaction, k: nat, who: set<Provider>)
    requires k < |tx.participants|
  {
    tx.participants[k].aborted || Acknowledgement(AbortPhase, tx.participants[k].descriptor) in n.responses
        || tx.participants[k].descriptor.participant in who
  }

  /** Request sent, abort recorded by the participant if it was not yet, acknowledgement sent. */
  lemma DeliverAbortTo(n: Wire, lands: Territory, p: Provider, tx: Transaction, k: nat, who: set<Provider>)
    returns (steps: seq<NetStep>, n2: Wire)
    requires Aborting(n, lands, p, tx) && k < |tx.participants|
    requires p in who && tx.participants[k].descriptor.participant in who
    ensures Ran(n, lands, steps) == Some(n2) && Aborting(n2, lands, p, tx) && AllOfAbort(steps, who)
    ensures Acknowledgement(AbortPhase, tx.participants[k].descriptor) in n2.responses
  {
    var t, d := tx.txId, tx.participants[k].descriptor;
    var q, r := d.participant, Request(AbortPhase, d, []);
    CoordinatorRecord(n, lands, p, t);
    assert RequestFor(tx, k, AbortPhase) == r;
    var send := Send(p, t, k, AbortPhase);
    var n1 := NextNet(n, lands, send);
    StepStaysSound(n, lands, send);
    RanOne(n, lands, send);
    assert Reachable(n, lands, d);
    SameLogsReachable(n, n1, lands, tx);
    assert Aborting(n1, lands, p, tx);
    steps, n2 := ParticipantAborts(n1, lands, p, tx, k, r, who);
    RanTwice(n, lands, [send], steps);
    steps := [send] + steps;
  }

  /** A participant of an aborting coordinator has aborted already, or can. */
  lemma AbortHandleable(n: Wire, lands: Territory, p: Provider, tx: Transaction, k: nat)
    requires Aborting(n, lands, p, tx) && k < |tx.participants|
    requires Request(AbortPhase, tx.participants[k].descriptor, []) in n.requests
    ensures var d := tx.participants[k].descriptor;
            var there := RecordAt(n, d.participant, tx.txId);
            || (there.Some? && there.value.state.ParticipantAborted?)
            || Allowed(n, lands, Handle(d.participant, Request(AbortPhase, d, []), 0))
  {
    var d := tx.participants[k].descriptor;
    assert d.txId == tx.txId && d.coordinator == p by { CoordinatorRecord(n, lands, p, tx.txId); }
    assert Reachable(n, lands, d);
    if RecordAt(n, d.participant, tx.txId).Some? {
      DecisionsAreTheCoordinators(n, lands, d.participant, tx.txId);
      RoleOf(n, lands, d.participant, tx.txId);
    }
  }

  lemma ParticipantAborts(
      n: Wire, lands: Territory, p: Provider, tx: Transaction, k: nat, r: Request, who: set<Provider>)
    returns (steps: seq<NetStep>, n2: Wire)
    requires Aborting(n, lands, p, tx) && k < |tx.participants|
    requires r == Request(AbortPhase, tx.participants[k].descriptor, []) && r in n.requests
    requires r.descriptor.participant in who
    ensures Ran(n, lands, steps) == Some(n2) && Aborting(n2, lands, p, tx) && AllOfAbort(steps, who)
    ensures Acknowledgement(AbortPhase, tx.participants[k].descriptor) in n2.responses
  {
    var q := r.descriptor.participant;
    AbortHandleable(n, lands, p, tx, k);
    if RecordAt(n, q, tx.txId).Some? && RecordAt(n, q, tx.txId).value.state.ParticipantAborted? {
      steps, n2 := ParticipantReplies(n, lands, p, tx, k, r, who);
    } else {
      var handle := Handle(q, r, 0);
      var n1 := NextNet(n, lands, handle);
      StepStaysSound(n, lands, handle);
      RanOne(n, lands, handle);
      HandleKeepsAborting(n, lands, p, tx, k, r);
      steps, n2 := ParticipantReplies(n1, lands, p, tx, k, r, who);
      RanTwice(n, lands, [handle], steps);
      steps := [handle] + steps;
    }
  }

  lemma HandleAppends(n: Wire, lands: Territory, q: Provider, r: Request) returns (record: Transaction)
    requires Sound(n, lands) && Allowed(n, lands, Handle(q, r, 0)) && r.phase.AbortPhase?
    ensures q in n.logs && NextNet(n, lands, Handle(q, r, 0)) == WithRecord(n, q, record)
    ensures Appends(n, WithRecord(n, q, record), q, record) && Matches(record, r.descriptor)
    ensures record.state.ParticipantAborted?
  {
    record := NextRecord(RecordAt(n, q, r.descriptor.txId), r, 0).value;
    NextRecordMatches(RecordAt(n, q, r.descriptor.txId), r, 0);
    HandleFollows(n, lands, q, r, 0);
  }

  /** The record a request leads to passes the journal's check. */
  lemma HandleFollows(n: Wire, lands: Territory, q: Provider, r: Request, now: nat)
    requires Sound(n, lands) && Allowed(n, lands, Handle(q, r, now))
    ensures var existing := RecordAt(n, q, r.descriptor.txId);
            MayFollow(existing, NextRecord(existing, r, now).value)
  {
    SoundMeans(n, lands);
    RecordsWellFormed(n.logs[q]);
    NextRecordAccepted(RecordAt(n, q, r.descriptor.txId), lands[q], r, now);
  }

  lemma HandleKeepsAborting(n: Wire, lands: Territory, p: Provider, tx: Transaction, k: nat, r: Request)
    requires Aborting(n, lands, p, tx) && k < |tx.participants|
    requires r == Request(AbortPhase, tx.participants[k].descriptor, [])
    requires Allowed(n, lands, Handle(r.descriptor.participant, r, 0))
    ensures var n1 := NextNet(n, lands, Handle(r.descriptor.participant, r, 0));
            && Aborting(n1, lands, p, tx)
            && RecordAt(n1, r.descriptor.participant, tx.txId).Some?
            && RecordAt(n1, r.descriptor.participant, tx.txId).value.state.ParticipantAborted?
  {
    var q := r.descriptor.participant;
    StepStaysSound(n, lands, Handle(q, r, 0));
    var record := HandleAppends(n, lands, q, r);
    RecordsAfter(n, WithRecord(n, q, record), q, record);
    StaysReachable(n, lands, p, tx, k, record);
  }

  lemma StaysReachable(n: Wire, lands: Territory, p: Provider, tx: Transaction, k: nat, record: Transaction)
    requires Aborting(n, lands, p, tx) && k < |tx.participants| && Matches(record, tx.participants[k].descriptor)
    requires Appends(n, WithRecord(n, tx.participants[k].descriptor.participant, record),
                     tx.participants[k].descriptor.participant, record)
    ensures AllReachable(WithRecord(n, tx.participants[k].descriptor.participant, record), lands, tx)
    ensures tx.participants[k].descriptor.participant != p && tx.participants[k].descriptor.txId == tx.txId
  {
    var q := tx.participants[k].descriptor.participant;
    CoordinatorRecord(n, lands, p, tx.txId);
    assert forall i :: 0 <= i < |tx.participants| && i != k ==> tx.participants[i].descriptor.participant != q;
    AllReachableStands(n, WithRecord(n, q, record), lands, q, record, tx);
  }

  lemma SameLogsReachable(n: Wire, n2: Wire, lands: Territory, tx: Transaction)
    requires AllReachable(n, lands, tx) && n2.logs == n.logs
    ensures AllReachable(n2, lands, tx)
  {
    forall i | 0 <= i < |tx.participants| ensures Reachable(n2, lands, tx.participants[i].descriptor) {
      assert Reachable(n, lands, tx.participants[i].descriptor);
    }
  }

  lemma AbortReplyAllowed(n: Wire, lands: Territory, d: Descriptor)
    requires Reachable(n, lands, d) && Request(AbortPhase, d, []) in n.requests
    requires RecordAt(n, d.participant, d.txId).Some?
    requires RecordAt(n, d.participant, d.txId).value.state.ParticipantAborted?
    ensures var reply := Reply(d.participant, Request(AbortPhase, d, []));
            && Allowed(n, lands, reply)
            && NextNet(n, lands, reply) == n.(responses := n.responses + {Acknowledgement(AbortPhase, d)})
  {
  }

  lemma ParticipantReplies(
      n: Wire, lands: Territory, p: Provider, tx: Transaction, k: nat, r: Request, who: set<Provider>)
    returns (steps: seq<NetStep>, n2: Wire)
    requires Aborting(n, lands, p, tx) && k < |tx.participants|
    requires r == Request(AbortPhase, tx.participants[k].descriptor, []) && r in n.requests
    requires RecordAt(n, r.descriptor.participant, tx.txId).Some?
    requires RecordAt(n, r.descriptor.participant, tx.txId).value.state.ParticipantAborted?
    requires r.descriptor.participant in who
    ensures Ran(n, lands, steps) == Some(n2) && Aborting(n2, lands, p, tx) && AllOfAbort(steps, who)
    ensures Acknowledgement(AbortPhase, tx.participants[k].descriptor) in n2.responses
  {
    var d := r.descriptor;
    assert d.txId == tx.txId by { CoordinatorRecord(n, lands, p, tx.txId); }
    assert Reachable(n, lands, d);
    var reply := Reply(d.participant, r);
    AbortReplyAllowed(n, lands, d);
    n2 := NextNet(n, lands, reply);
    StepStaysSound(n, lands, reply);
    RanOne(n, lands, reply);
    steps := [reply];
    SameLogsReachable(n, n2, lands, tx);
  }

  function AbortAcked(tx: Transaction, k: nat): Transaction
    requires k < |tx.participants|
  {
    WithEntry(tx, k, tx.participants[k].(aborted := true))
  }

  lemma AbortAckAllowed(n: Wire, lands: Territory, p: Provider, tx: Transaction, k: nat)
    requires Aborting(n, lands, p, tx) && k < |tx.participants|
    requires Acknowledgement(AbortPhase, tx.participants[k].descriptor) in n.responses
    ensures Allowed(n, lands, Advance(p, AbortAcked(tx, k)))
  {
    WellFormedRecord(n, lands, p, tx.txId);
    FlagsExclude(n, lands, p, tx.txId);
    CoordinatorRecord(n, lands, p, tx.txId);
    EntryAccepted(tx, k, tx.participants[k].(aborted := true));
  }

  lemma SameDescriptorsReachable(n: Wire, lands: Territory, tx: Transaction, tx2: Transaction)
    requires AllReachable(n, lands, tx) && |tx2.participants| == |tx.participants|
    requires forall i :: 0 <= i < |tx.participants| ==> tx2.participants[i].descriptor == tx.participants[i].descriptor
    ensures AllReachable(n, lands, tx2)
  {
    forall i | 0 <= i < |tx2.participants| ensures Reachable(n, lands, tx2.participants[i].descriptor) {
      assert Reachable(n, lands, tx.participants[i].descriptor);
    }
  }

  /** The coordinator records an abort acknowledgement. */
  lemma RecordAbortAck(n: Wire, lands: Territory, p: Provider, tx: Transaction, k: nat)
    requires Aborting(n, lands, p, tx) && k < |tx.participants|
    requires Acknowledgement(AbortPhase, tx.participants[k].descriptor) in n.responses
    ensures Allowed(n, lands, Advance(p, AbortAcked(tx, k)))
    ensures Aborting(NextNet(n, lands, Advance(p, AbortAcked(tx, k))), lands, p, AbortAcked(tx, k))
  {
    var tx2 := AbortAcked(tx, k);
    AbortAckAllowed(n, lands, p, tx, k);
    var n2 := NextNet(n, lands, Advance(p, tx2));
    StepStaysSound(n, lands, Advance(p, tx2));
    RecordsAfter(n, n2, p, tx2);
    AllReachableStands(n, n2, lands, p, tx2, tx) by {
      CoordinatorRecord(n, lands, p, tx.txId);
    }
    SameDescriptorsReachable(n2, lands, tx, tx2);
  }

  lemma {:induction false} ResponsesStay(n: Wire, lands: Territory, steps: seq<NetStep>)
    requires Ran(n, lands, steps).Some?
    ensures n.responses <= Ran(n, lands, steps).value.responses
    decreases steps
  {
    if steps != [] {
      ResponsesStay(NextNet(n, lands, steps[0]), lands, steps[1..]);
    }
  }

  /** Deliver to entry `k`, unless it acknowledged already, and record its acknowledgement. */
  lemma AbortRound(n: Wire, lands: Territory, p: Provider, tx: Transaction, k: nat, who: set<Provider>)
    returns (steps: seq<NetStep>, n2: Wire)
    requires Aborting(n, lands, p, tx) && k < |tx.participants| && p in who
    requires !tx.participants[k].aborted && ToldOr(n, tx, k, who)
    ensures Ran(n, lands, steps) == Some(n2) && Aborting(n2, lands, p, AbortAcked(tx, k)) && AllOfAbort(steps, who)
  {
    var n1 := n;
    steps := [];
    if Acknowledgement(AbortPhase, tx.participants[k].descriptor) !in n.responses {
      steps, n1 := DeliverAbortTo(n, lands, p, tx, k, who);
    }
    RecordAbortAck(n1, lands, p, tx, k);
    var record := Advance(p, AbortAcked(tx, k));
    n2 := NextNet(n1, lands, record);
    RanOne(n1, lands, record);
    RanTwice(n, lands, steps, [record]);
    steps := steps + [record];
  }

  lemma FinishAbort(n: Wire, lands: Territory, p: Provider, tx: Transaction)
    requires Aborting(n, lands, p, tx) && AllAborted(tx)
    ensures var done := Advance(p, tx.(state := CoordinatorAborted));
            && Allowed(n, lands, done)
            && RecordAt(NextNet(n, lands, done), p, tx.txId) == Some(tx.(state := CoordinatorAborted))
  {
    var record := tx.(state := CoordinatorAborted);
    WellFormedRecord(n, lands, p, tx.txId);
    FlagsExclude(n, lands, p, tx.txId);
    CoordinatorRecord(n, lands, p, tx.txId);
    StateAccepted(tx, CoordinatorAborted);
    assert AllAborted(record);
    assert Allowed(n, lands, Advance(p, record));
    RecordsAfter(n, NextNet(n, lands, Advance(p, record)), p, record);
  }

  lemma FinalRecord(n: Wire, lands: Territory, p: Provider, tx: Transaction, who: set<Provider>)
    returns (steps: seq<NetStep>, n2: Wire)
    requires Aborting(n, lands, p, tx) && AllAborted(tx) && p in who
    ensures Ran(n, lands, steps) == Some(n2) && AllOfAbort(steps, who)
    ensures RecordAt(n2, p, tx.txId).Some? && RecordAt(n2, p, tx.txId).value.state.CoordinatorAborted?
  {
    var done := Advance(p, tx.(state := CoordinatorAborted));
    FinishAbort(n, lands, p, tx);
    RanOne(n, lands, done);
    steps, n2 := [done], NextNet(n, lands, done);
  }

  /** From entry `k` on, every participant acknowledged the abort or is one of the hubs `who`. */
  ghost predicate Serving(n: Wire, tx: Transaction, k: nat, who: set<Provider>) {
    forall i :: k <= i < |tx.participants| ==> ToldOr(n, tx, i, who)
  }

  lemma StillServing(n: Wire, n2: Wire, tx: Transaction, k: nat, who: set<Provider>)
    requires n.responses <= n2.responses && k < |tx.participants| && Serving(n, tx, k, who)
    ensures Serving(n2, AbortAcked(tx, k), k + 1, who)
  {
    forall i | k < i < |tx.participants| ensures ToldOr(n2, AbortAcked(tx, k), i, who) {
      assert ToldOr(n, tx, i, who);
    }
  }

  /** The first `k` entries are recorded as aborted. */
  predicate AbortedUpTo(tx: Transaction, k: nat)
    requires k <= |tx.participants|
  {
    forall i :: 0 <= i < k ==> tx.participants[i].aborted
  }

  lemma AbortNext(n: Wire, lands: Territory, p: Provider, tx: Transaction, k: nat, who: set<Provider>)
    returns (steps: seq<NetStep>, n2: Wire)
    requires Aborting(n, lands, p, tx) && k < |tx.participants| && p in who && !tx.participants[k].aborted
    requires AbortedUpTo(tx, k) && Serving(n, tx, k, who)
    ensures Ran(n, lands, steps) == Some(n2) && Aborting(n2, lands, p, AbortAcked(tx, k)) && AllOfAbort(steps, who)
    ensures AbortedUpTo(AbortAcked(tx, k), k + 1) && Serving(n2, AbortAcked(tx, k), k + 1, who)
  {
    assert ToldOr(n, tx, k, who);
    steps, n2 := AbortRound(n, lands, p, tx, k, who);
    ResponsesStay(n, lands, steps);
    StillServing(n, n2, tx, k, who);
  }

  lemma ThenRan(n: Wire, lands: Territory, a: seq<NetStep>, n1: Wire, b: seq<NetStep>, n2: Wire, who: set<Provider>)
    returns (ab: seq<NetStep>)
    requires Ran(n, lands, a) == Some(n1) && Ran(n1, lands, b) == Some(n2) && AllOfAbort(a, who) && AllOfAbort(b, who)
    ensures Ran(n, lands, ab) == Some(n2) && AllOfAbort(ab, who)
  {
    RanTwice(n, lands, a, b);
    ab := a + b;
  }

  /** One round of `deliver_abort` from entry `k` on, then the final record. */
  lemma {:induction false} DeliverAbortFrom(
      n: Wire, lands: Territory, p: Provider, tx: Transaction, k: nat, who: set<Provider>)
    returns (steps: seq<NetStep>, n2: Wire)
    requires Aborting(n, lands, p, tx) && k <= |tx.participants| && p in who
    requires AbortedUpTo(tx, k) && Serving(n, tx, k, who)
    ensures Ran(n, lands, steps) == Some(n2) && AllOfAbort(steps, who)
    ensures RecordAt(n2, p, tx.txId).Some? && RecordAt(n2, p, tx.txId).value.state.CoordinatorAborted?
    decreases |tx.participants| - k
  {
    if k == |tx.participants| {
      steps, n2 := FinalRecord(n, lands, p, tx, who);
    } else if tx.participants[k].aborted {
      steps, n2 := DeliverAbortFrom(n, lands, p, tx, k + 1, who);
    } else {
      var first, n1 := AbortNext(n, lands, p, tx, k, who);
      var rest;
      rest, n2 := DeliverAbortFrom(n1, lands, p, AbortAcked(tx, k), k + 1, who);
      steps := ThenRan(n, lands, first, n1, rest, n2, who);
    }
  }

  // ----- the other direction -----

  /** `b` is a later record of the same transaction as `a`. */
  ghost predicate Continues(a: Option<Transaction>, b: Option<Transaction>) {
    a.Some? ==> b.Some? && SameImmutableFields(a.value, b.value)
                && forall i :: 0 <= i < |a.value.participants| ==>
                     a.value.participants[i].descriptor == b.value.participants[i].descriptor
  }

  lemma AppendContinues(n: Wire, n2: Wire, p: Provider, tx: Transaction, q: Provider, t: TxId)
    requires Appends(n, n2, p, tx)
    ensures Continues(RecordAt(n, q, t), RecordAt(n2, q, t))
  {
    RecordsAfter(n, n2, p, tx);
    if q == p && t == tx.txId && RecordAt(n, p, t).Some? {
      SuccessorKeeps(RecordAt(n, p, t).value, tx);
    }
  }

  lemma HandleContinues(n: Wire, lands: Territory, p: Provider, r: Request, now: nat, q: Provider, t: TxId)
    requires Sound(n, lands) && Allowed(n, lands, Handle(p, r, now))
    ensures Continues(RecordAt(n, q, t), RecordAt(NextNet(n, lands, Handle(p, r, now)), q, t))
  {
    SoundMeans(n, lands);
    var existing := RecordAt(n, p, r.descriptor.txId);
    NextRecordMatches(existing, r, now);
    RecordsWellFormed(n.logs[p]);
    NextRecordAccepted(existing, lands[p], r, now);
    AppendContinues(n, NextNet(n, lands, Handle(p, r, now)), p, NextRecord(existing, r, now).value, q, t);
  }

  lemma StepContinues(n: Wire, lands: Territory, m: NetStep, q: Provider, t: TxId)
    requires Sound(n, lands) && Allowed(n, lands, m)
    ensures Continues(RecordAt(n, q, t), RecordAt(NextNet(n, lands, m), q, t))
  {
    match m
    case Begin(p, tx, owners) => AppendContinues(n, NextNet(n, lands, m), p, tx, q, t);
    case Advance(p, tx) => AppendContinues(n, NextNet(n, lands, m), p, tx, q, t);
    case Send(p, u, entry, phase) =>
    case Handle(p, r, now) => HandleContinues(n, lands, p, r, now, q, t);
    case Reply(p, r) =>
  }

  lemma ContinuesOn(a: Option<Transaction>, b: Option<Transaction>, c: Option<Transaction>)
    requires Continues(a, b) && Continues(b, c)
    ensures Continues(a, c)
  {
  }

  lemma {:induction false} RunContinues(n: Wire, lands: Territory, steps: seq<NetStep>, q: Provider, t: TxId)
    requires Sound(n, lands) && Ran(n, lands, steps).Some?
    ensures Continues(RecordAt(n, q, t), RecordAt(Ran(n, lands, steps).value, q, t))
    decreases steps
  {
    if steps != [] {
      var n1 := NextNet(n, lands, steps[0]);
      StepContinues(n, lands, steps[0], q, t);
      StepStaysSound(n, lands, steps[0]);
      RunContinues(n1, lands, steps[1..], q, t);
      ContinuesOn(RecordAt(n, q, t), RecordAt(n1, q, t), RecordAt(Ran(n, lands, steps).value, q, t));
    }
  }

  lemma TombstoneOutlives(n: Wire, lands: Territory, m: NetStep, q: Provider, t: TxId)
    requires Sound(n, lands) && Allowed(n, lands, m)
    requires RecordAt(n, q, t).Some? && RecordAt(n, q, t).value.state.ParticipantAborted?
    ensures RecordAt(NextNet(n, lands, m), q, t) == RecordAt(n, q, t)
  {
    RoleOf(n, lands, q, t);
    match m
    case Begin(p, tx, owners) => AppendSpares(n, p, tx, q, t);
    case Advance(p, tx) => AppendSpares(n, p, tx, q, t);
    case Send(p, u, entry, phase) =>
    case Handle(p, r, now) => HandleSpares(n, lands, p, r, now, q, t);
    case Reply(p, r) =>
  }

  lemma AppendSpares(n: Wire, p: Provider, tx: Transaction, q: Provider, t: TxId)
    requires p in n.logs && !(p == q && tx.txId == t)
    ensures RecordAt(WithRecord(n, p, tx), q, t) == RecordAt(n, q, t)
  {
    Extended(n.logs[p], tx);
  }

  lemma HandleSpares(n: Wire, lands: Territory, p: Provider, r: Request, now: nat, q: Provider, t: TxId)
    requires Allowed(n, lands, Handle(p, r, now))
    requires RecordAt(n, q, t).Some? && RecordAt(n, q, t).value.state.ParticipantAborted?
    ensures RecordAt(NextNet(n, lands, Handle(p, r, now)), q, t) == RecordAt(n, q, t)
  {
    var existing := RecordAt(n, p, r.descriptor.txId);
    if existing == RecordAt(n, q, t) {
      TombstonesHold(existing.value, r, now);
    }
    NextRecordMatches(existing, r, now);
    Extended(n.logs[p], NextRecord(existing, r, now).value);
  }

  /**
   Tombstones are final: once a hub journaled ParticipantAborted for a transaction, in every continuation of
   the run, whatever prepares, commits or aborts are delivered late or again, that record stays its newest.
   */
  lemma {:induction false} TombstonesAreFinal(n: Wire, lands: Territory, steps: seq<NetStep>, q: Provider, t: TxId)
    requires Sound(n, lands) && Ran(n, lands, steps).Some?
    requires RecordAt(n, q, t).Some? && RecordAt(n, q, t).value.state.ParticipantAborted?
    ensures RecordAt(Ran(n, lands, steps).value, q, t) == RecordAt(n, q, t)
    decreases steps
  {
    if steps != [] {
      TombstoneOutlives(n, lands, steps[0], q, t);
      StepStaysSound(n, lands, steps[0]);
      TombstonesAreFinal(NextNet(n, lands, steps[0]), lands, steps[1..], q, t);
    }
  }

  lemma {:induction false} RunKeepsHubs(n: Wire, lands: Territory, steps: seq<NetStep>)
    requires Ran(n, lands, steps).Some?
    ensures Ran(n, lands, steps).value.logs.Keys == n.logs.Keys
    decreases steps
  {
    if steps != [] {
      RunKeepsHubs(NextNet(n, lands, steps[0]), lands, steps[1..]);
    }
  }

  /** A participant that acknowledged an abort accepts messages about it, and did so before. */
  lemma AbortedAccepts(n: Wire, n2: Wire, lands: Territory, p: Provider, t: TxId, k: nat)
    requires Sound(n2, lands) && n2.logs.Keys == n.logs.Keys && p in n2.logs
    requires RecordAt(n2, p, t).Some? && RecordAt(n2, p, t).value.role.Coordinator?
    requires k < |RecordAt(n2, p, t).value.participants|
    requires RecordAt(n2, p, t).value.participants[k].aborted
    requires var q := RecordAt(n2, p, t).value.participants[k].descriptor.participant;
             Continues(RecordAt(n, q, t), RecordAt(n2, q, t))
    ensures Reachable(n, lands, RecordAt(n2, p, t).value.participants[k].descriptor)
  {
    var d := RecordAt(n2, p, t).value.participants[k].descriptor;
    CoordinatorRecord(n2, lands, p, t);
    FlagsAreNow(n2, lands, p, t, k);
    DescriptorOf(n2, lands, p, t, k, RecordAt(n2, d.participant, t).value);
  }

  lemma AbortedWasReachable(n: Wire, lands: Territory, steps: seq<NetStep>, n2: Wire, p: Provider, tx: Transaction)
    requires Sound(n, lands) && p in n.logs && RecordAt(n, p, tx.txId) == Some(tx) && tx.role.Coordinator?
    requires Ran(n, lands, steps) == Some(n2)
    requires RecordAt(n2, p, tx.txId).Some? && RecordAt(n2, p, tx.txId).value.state.CoordinatorAborted?
    ensures AllReachable(n, lands, tx)
  {
    var t := tx.txId;
    RanKeepsInv(n, lands, steps);
    RunKeepsHubs(n, lands, steps);
    RunContinues(n, lands, steps, p, t);
    var tx2 := RecordAt(n2, p, t).value;
    assert AllAborted(tx2) by { CoordinatorRecord(n2, lands, p, t); }
    forall k | 0 <= k < |tx.participants| ensures Reachable(n, lands, tx.participants[k].descriptor) {
      RunContinues(n, lands, steps, tx.participants[k].descriptor.participant, t);
      AbortedAccepts(n, n2, lands, p, t, k);
    }
  }

  /**
   An abort decision can be carried to CoordinatorAborted exactly if every participant hub accepts the
   descriptor by its own checks and holds no other transaction under the same id. A participant that
   refused the prepare refuses the abort as well, and then the decision stays pending forever.
   */
  lemma AbortFinishesIff(hubs: set<Provider>, lands: Territory, n: Wire, p: Provider, tx: Transaction)
    requires Reached(hubs, lands, n) && p in n.logs && RecordAt(n, p, tx.txId) == Some(tx)
    requires tx.state.CoordinatorAbortDecided?
    ensures (exists steps :: && Ran(n, lands, steps).Some?
                             && RecordAt(Ran(n, lands, steps).value, p, tx.txId).Some?
                             && RecordAt(Ran(n, lands, steps).value, p, tx.txId).value.state.CoordinatorAborted?)
            <==> AllReachable(n, lands, tx)
  {
    ReachedInv(hubs, lands, n);
    RoleOf(n, lands, p, tx.txId);
    if AllReachable(n, lands, tx) {
      forall i | 0 <= i < |tx.participants| ensures ToldOr(n, tx, i, n.logs.Keys) {
        assert Reachable(n, lands, tx.participants[i].descriptor);
      }
      var steps, n2 := DeliverAbortFrom(n, lands, p, tx, 0, n.logs.Keys);
    }
    forall steps | && Ran(n, lands, steps).Some?
                   && RecordAt(Ran(n, lands, steps).value, p, tx.txId).Some?
                   && RecordAt(Ran(n, lands, steps).value, p, tx.txId).value.state.CoordinatorAborted?
      ensures AllReachable(n, lands, tx)
    {
      AbortedWasReachable(n, lands, steps, Ran(n, lands, steps).value, p, tx);
    }
  }
}
