/** A run in which an abort decision stays pending forever (src/distributed_tx.rs:1038-1139, 2887-2914). */
module AbortRefusals {
  import opened Prelude
  import opened Transactions
  import opened Log
  import opened Descriptors
  import opened TwoPhaseCommit
  import opened Agreement
  import opened AbortDelivery
  import opened SampleRuns

  const X: TxId := Uuid(0)

  /** Hub P took its peer's advertisement for granted: hub Q no longer has the third channel. */
  function Mistaken(): Territory { map[P := {C1(), C2()}, Q := {}] }

  function Opening(): NetStep { Begin(P, Rec(X, CoordinatorPreparing, false, false), Owners()) }

  function GivingUp(): NetStep { Advance(P, Rec(X, CoordinatorAbortDecided, false, false)) }

  function Outset(): Wire { Agreement.Start({P, Q}) }

  lemma OpeningAllowed()
    ensures Allowed(Outset(), Mistaken(), Opening())
  {
    BeginAllowed(Outset(), Mistaken(), X);
  }

  /** After the first record. */
  function Opened(): Wire { WithRecord(Outset(), P, Rec(X, CoordinatorPreparing, false, false)) }

  /** After the abort decision. */
  function Pending(): Wire { WithRecord(Opened(), P, Rec(X, CoordinatorAbortDecided, false, false)) }

  lemma OpenedRecord()
    ensures RecordAt(Opened(), P, X) == Some(Rec(X, CoordinatorPreparing, false, false))
    ensures RecordAt(Opened(), Q, X).None?
  {
    Extended([], Rec(X, CoordinatorPreparing, false, false));
  }

  lemma PendingRecord()
    ensures RecordAt(Pending(), P, X) == Some(Rec(X, CoordinatorAbortDecided, false, false))
    ensures RecordAt(Pending(), Q, X).None?
  {
    OpenedRecord();
    Extended(Opened().logs[P], Rec(X, CoordinatorAbortDecided, false, false));
  }

  lemma GivingUpAllowed()
    ensures Allowed(Opened(), Mistaken(), GivingUp())
  {
    OpenedRecord();
    AbortMay(X, {});
    MayAdvanceMeans({}, Rec(X, CoordinatorPreparing, false, false), Rec(X, CoordinatorAbortDecided, false, false));
  }

  lemma PendingIsReached()
    ensures Agreement.Reached({P, Q}, Mistaken(), Pending())
  {
    OpeningAllowed();
    GivingUpAllowed();
    TwoSteps(Outset(), Mistaken(), Opening(), Opened(), GivingUp(), Pending());
  }

  lemma TwoSteps(n: Wire, lands: Territory, a: NetStep, n1: Wire, b: NetStep, n2: Wire)
    requires Allowed(n, lands, a) && NextNet(n, lands, a) == n1 && Allowed(n1, lands, b) && NextNet(n1, lands, b) == n2
    ensures Ran(n, lands, [a] + [b]) == Some(n2)
  {
    RanOne(n, lands, a);
    RanOne(n1, lands, b);
    RanTwice(n, lands, [a], [b]);
  }

  /** Hub Q refuses every request about X: it does not own the channel. */
  lemma RefusesAll(r: Request)
    requires r.descriptor == Offer(X)
    ensures CheckRequest(Mistaken()[Q], r).Some?
  {
    assert HopsQ()[0] in HopsQ();
    assert !Owns({}, C3());
  }

  /**
   The participant refuses the prepare, the coordinator decides to abort, and the participant refuses the
   abort for the same reason: no continuation of this run ever reaches CoordinatorAborted.
   */
  lemma RefusalBlocksAbort()
    ensures Agreement.Reached({P, Q}, Mistaken(), Pending())
    ensures RecordAt(Pending(), P, X).Some? && RecordAt(Pending(), P, X).value.state.CoordinatorAbortDecided?
    ensures forall steps :: Ran(Pending(), Mistaken(), steps).Some? ==>
              var last := RecordAt(Ran(Pending(), Mistaken(), steps).value, P, X);
              last.Some? ==> !last.value.state.CoordinatorAborted?
  {
    PendingIsReached();
    PendingRecord();
    var tx := Rec(X, CoordinatorAbortDecided, false, false);
    RefusesAll(Request(PreparePhase, Offer(X), []));
    assert !Reachable(Pending(), Mistaken(), Offer(X));
    assert tx.participants[0].descriptor == Offer(X);
    AbortFinishesIff({P, Q}, Mistaken(), Pending(), P, tx);
  }
}
