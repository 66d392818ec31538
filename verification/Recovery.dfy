/**
 `recover_local` from any snapshot (src/distributed_tx.rs:1346-1428, src/persist.rs:172-183): what a
 restart rebuilds, when it succeeds, and that doing it again changes nothing.
 */
module Recovery {
  import opened Prelude
  import opened SetSums
  import opened Transactions
  import opened Log
  import opened Ledger
  import opened HubLedger
  import opened Hub

  /** Reservations after the transactions in `done` were replayed over the snapshot's. */
  function HeldAfter(saved: map<TxId, Terms>, latest: Records, done: set<TxId>): map<TxId, Terms> {
    map t | t in saved.Keys + done && (if t in done then t in latest && IsPrepared(latest[t].state) else t in saved) ::
      if t in done then TermsOf(latest[t]) else saved[t]
  }

  /** The ledger once `done` was replayed: a closed form, whatever order they came in. */
  ghost predicate Replayed(
      base: Channels, latest: Records, order: seq<TxId>, saved: Ledger, done: set<TxId>, l: Ledger) {
    && LedgerInv(base, latest, l) && Shaped(l.reservations)
    && l.applied == saved.applied + done * Elements(order)
    && l.reservations == HeldAfter(saved.reservations, latest, done)
  }

  /** Each lane can pay `terms` beside `held`, once `settled` settled. */
  ghost predicate HasRoom(base: Channels, latest: Records, settled: set<TxId>, held: map<TxId, Terms>, terms: Terms) {
    forall n: Lane :: n.channel in base ==>
      Debit(base, terms, n) + DueOn(base, held, held.Keys, n) <= BalanceAt(base, n) + Net(base, latest, settled, n)
  }

  /** What replaying `t` after `done` needs, read off the snapshot and the journal alone. */
  ghost predicate Guard(
      base: Channels, latest: Records, order: seq<TxId>, maxHops: nat, saved: Ledger, done: set<TxId>, t: TxId)
    requires t in latest
  {
    var terms := TermsOf(latest[t]);
    var settled := saved.applied + done * Elements(order);
    var reservable := |terms.hops| <= maxHops
        && HasRoom(base, latest, settled, HeldAfter(saved.reservations, latest, done), terms);
    if IsPrepared(latest[t].state) then
      if t in saved.reservations then |terms.hops| <= maxHops && saved.reservations[t] == terms else reservable
    else if HasCommitDecision(latest[t].state) && t !in saved.applied then
      if t in saved.reservations then SamePayment(saved.reservations[t], terms) else reservable
    else true
  }

  lemma LiquidIsRoom(base: Channels, latest: Records, l: Ledger, t: Terms)
    requires LedgerInv(base, latest, l) && Fits(base, t)
    ensures Fits(l.channels, t)
    ensures CheckHops(l, t, t.hops).None? <==> HasRoom(base, latest, l.applied, l.reservations, t)
  {
    PartiesDecideFit(base, l.channels, t);
    ReservesIffLiquid(l, t);
    forall n: Lane | n.channel in base
      ensures Debit(l.channels, t, n) == Debit(base, t, n)
      ensures HeldAt(l.channels, l.reservations, n) == DueOn(base, l.reservations, l.reservations.Keys, n)
      ensures HeldAt(l.channels, l.reservations, n) <= BalanceAt(l.channels, n)
      ensures BalanceAt(l.channels, n) == BalanceAt(base, n) + Net(base, latest, l.applied, n)
    {
    }
    LiquidByDebit(l, t);
  }

  lemma LiquidByDebit(l: Ledger, t: Terms)
    requires Covered(l)
    ensures Liquid(l, t) <==>
            forall n: Lane :: n.channel in l.channels ==>
                Debit(l.channels, t, n) + HeldAt(l.channels, l.reservations, n) <= BalanceAt(l.channels, n)
  {
    forall n: Lane | n.channel in l.channels
      ensures (SpendsLane(l.channels, t, n) ==> LaneHasRoom(l, t, n))
              <==> Debit(l.channels, t, n) + HeldAt(l.channels, l.reservations, n) <= BalanceAt(l.channels, n)
    {
      assert HeldAt(l.channels, l.reservations, n) <= BalanceAt(l.channels, n);
    }
  }

  lemma HoldsPrepared(saved: map<TxId, Terms>, latest: Records, done: set<TxId>, t: TxId)
    requires t in latest && t !in done && IsPrepared(latest[t].state)
    ensures HeldAfter(saved, latest, done + {t}) == HeldAfter(saved, latest, done)[t := TermsOf(latest[t])]
  {
  }

  lemma HoldsNoLonger(saved: map<TxId, Terms>, latest: Records, done: set<TxId>, t: TxId)
    requires t in latest && t !in done && !IsPrepared(latest[t].state)
    ensures HeldAfter(saved, latest, done + {t}) == HeldAfter(saved, latest, done) - {t}
  {
  }

  lemma ShapedTerms(base: Channels, latest: Records, maxHops: nat, t: TxId)
    requires LiveTermsFit(base, latest, maxHops) && t in latest && !HasAbortDecision(latest[t].state)
    ensures Fits(base, TermsOf(latest[t])) && CheckShape(TermsOf(latest[t]).hops, {}).None?
  {
  }

  /** Reserving well-shaped terms on a ledger where the transaction is not applied. */
  lemma ReserveOutcome(base: Channels, latest: Records, l: Ledger, maxHops: nat, t: TxId, terms: Terms)
    requires LedgerInv(base, latest, l) && t !in l.applied && Fits(base, terms) && CheckShape(terms.hops, {}).None?
    ensures t in l.reservations ==>
                (Prepared(l, maxHops, t, terms).Ok? <==> |terms.hops| <= maxHops && l.reservations[t] == terms)
    ensures t !in l.reservations ==>
              (Prepared(l, maxHops, t, terms).Ok? <==>
                  |terms.hops| <= maxHops && HasRoom(base, latest, l.applied, l.reservations, terms))
    ensures Prepared(l, maxHops, t, terms).Ok? ==>
              var after := Prepared(l, maxHops, t, terms).value;
              && LedgerInv(base, latest, after) && after.applied == l.applied
              && after.reservations == l.reservations[t := terms]
  {
    LiquidIsRoom(base, latest, l, terms);
    if Prepared(l, maxHops, t, terms).Ok? {
      PreparedKeepsInv(base, latest, l, maxHops, t, terms);
    }
  }

  lemma StillShaped(reservations: map<TxId, Terms>, t: TxId, terms: Terms)
    requires Shaped(reservations) && CheckShape(terms.hops, {}).None?
    ensures Shaped(reservations[t := terms])
  {
  }

  /** Replaying a prepared transaction. */
  lemma ReplayPrepared(
      base: Channels, latest: Records, order: seq<TxId>, maxHops: nat, saved: Ledger, done: set<TxId>, l: Ledger,
      t: TxId)
    requires Replayed(base, latest, order, saved, done, l) && Decides(latest, order)
    requires LiveTermsFit(base, latest, maxHops)
    requires saved.applied <= Elements(order) && t in latest && t !in done && IsPrepared(latest[t].state)
    ensures RecoverOne(l, maxHops, latest[t]).Ok? <==> Guard(base, latest, order, maxHops, saved, done, t)
    ensures RecoverOne(l, maxHops, latest[t]).Ok? ==>
              Replayed(base, latest, order, saved, done + {t}, RecoverOne(l, maxHops, latest[t]).value)
  {
    var terms := TermsOf(latest[t]);
    ShapedTerms(base, latest, maxHops, t);
    assert t !in l.applied;
    ReserveOutcome(base, latest, l, maxHops, t, terms);
    StillShaped(l.reservations, t, terms);
    HoldsPrepared(saved.reservations, latest, done, t);
    assert (done + {t}) * Elements(order) == done * Elements(order);
  }

  /** Replaying a decided transaction whose money already moved. */
  lemma ReplayApplied(
      base: Channels, latest: Records, order: seq<TxId>, maxHops: nat, saved: Ledger, done: set<TxId>, l: Ledger,
      t: TxId)
    requires Replayed(base, latest, order, saved, done, l) && Decides(latest, order)
    requires t in latest && t !in done && t in saved.applied && HasCommitDecision(latest[t].state)
    ensures RecoverOne(l, maxHops, latest[t]).Ok?
    ensures Replayed(base, latest, order, saved, done + {t}, RecoverOne(l, maxHops, latest[t]).value)
  {
    assert t !in l.reservations;
    assert l.reservations - {t} == l.reservations;
    assert saved.applied + (done + {t}) * Elements(order) == saved.applied + done * Elements(order);
    HoldsNoLonger(saved.reservations, latest, done, t);
  }

  /** A decided transaction on a ledger that holds its reservation. */
  lemma ReplaySettles(
      base: Channels, latest: Records, order: seq<TxId>, saved: Ledger, done: set<TxId>, l: Ledger, before: Ledger,
      t: TxId)
    requires Replayed(base, latest, order, saved, done, l)
    requires t in latest && t !in done && t in order && HasCommitDecision(latest[t].state)
    requires LedgerInv(base, latest, before) && before.applied == l.applied
    requires before.reservations - {t} == l.reservations - {t}
    requires t in before.reservations && SamePayment(before.reservations[t], TermsOf(latest[t]))
    ensures Applied(before, t, TermsOf(latest[t])).Ok?
    ensures Replayed(base, latest, order, saved, done + {t}, Applied(before, t, TermsOf(latest[t])).value)
  {
    ReservedAlwaysSettles(base, latest, before, t, TermsOf(latest[t]));
    AppliedKeepsInv(base, latest, before, t);
    assert l.applied + {t} == saved.applied + (done + {t}) * Elements(order);
    HoldsNoLonger(saved.reservations, latest, done, t);
  }

  /** Replaying a decided transaction whose reservation the snapshot holds. */
  lemma ReplayHeld(
      base: Channels, latest: Records, order: seq<TxId>, maxHops: nat, saved: Ledger, done: set<TxId>, l: Ledger,
      t: TxId)
    requires Replayed(base, latest, order, saved, done, l)
    requires t in latest && latest[t].txId == t && t !in done && t in order && t !in saved.applied
    requires HasCommitDecision(latest[t].state)
    requires t in saved.reservations
    ensures var after := Applied(l, t, TermsOf(latest[t]));
            && (after.Ok? <==> SamePayment(saved.reservations[t], TermsOf(latest[t])))
            && (after.Ok? ==> Replayed(base, latest, order, saved, done + {t}, after.value))
  {
    assert t !in l.applied && t in l.reservations && l.reservations[t] == saved.reservations[t];
    if SamePayment(saved.reservations[t], TermsOf(latest[t])) {
      ReplaySettles(base, latest, order, saved, done, l, l, t);
    }
  }

  /** Replaying a decided transaction the snapshot knows nothing of: reserve, then settle. */
  lemma ReplayFresh(
      base: Channels, latest: Records, order: seq<TxId>, maxHops: nat, saved: Ledger, done: set<TxId>, l: Ledger,
      t: TxId)
    requires Replayed(base, latest, order, saved, done, l) && LiveTermsFit(base, latest, maxHops)
    requires t in latest && latest[t].txId == t && t !in done && t in order && t !in saved.applied
    requires HasCommitDecision(latest[t].state)
    requires t !in saved.reservations
    ensures RecoverOne(l, maxHops, latest[t]).Ok? <==> Guard(base, latest, order, maxHops, saved, done, t)
    ensures RecoverOne(l, maxHops, latest[t]).Ok? ==>
              Replayed(base, latest, order, saved, done + {t}, RecoverOne(l, maxHops, latest[t]).value)
  {
    var terms := TermsOf(latest[t]);
    var prepared := Prepared(l, maxHops, t, terms);
    assert t !in l.applied && t !in l.reservations;
    ShapedTerms(base, latest, maxHops, t);
    ReserveOutcome(base, latest, l, maxHops, t, terms);
    RecoverUnheld(l, maxHops, latest[t]);
    if prepared.Ok? {
      ReplaySettles(base, latest, order, saved, done, l, prepared.value, t);
    }
  }

  /** Without a reservation a decided transaction is replayed by reserving and settling. */
  lemma RecoverUnheld(l: Ledger, maxHops: nat, tx: Transaction)
    requires HasCommitDecision(tx.state) && tx.txId !in l.applied && tx.txId !in l.reservations
    ensures var prepared := Prepared(l, maxHops, tx.txId, TermsOf(tx));
            if prepared.Ok? then RecoverOne(l, maxHops, tx) == Applied(prepared.value, tx.txId, TermsOf(tx))
            else RecoverOne(l, maxHops, tx).Err?
  {
  }

  lemma ReplayDecided(
      base: Channels, latest: Records, order: seq<TxId>, maxHops: nat, saved: Ledger, done: set<TxId>, l: Ledger,
      t: TxId)
    requires Replayed(base, latest, order, saved, done, l) && LiveTermsFit(base, latest, maxHops)
    requires t in latest && latest[t].txId == t && t !in done && t in order && t !in saved.applied
    requires HasCommitDecision(latest[t].state)
    ensures RecoverOne(l, maxHops, latest[t]).Ok? <==> Guard(base, latest, order, maxHops, saved, done, t)
    ensures RecoverOne(l, maxHops, latest[t]).Ok? ==>
              Replayed(base, latest, order, saved, done + {t}, RecoverOne(l, maxHops, latest[t]).value)
  {
    if t in saved.reservations {
      assert t !in l.applied && t in l.reservations;
      ReplayHeld(base, latest, order, maxHops, saved, done, l, t);
      assert RecoverOne(l, maxHops, latest[t]) == Applied(l, t, TermsOf(latest[t]));
    } else {
      ReplayFresh(base, latest, order, maxHops, saved, done, l, t);
    }
  }

  lemma ReplayReleased(
      base: Channels, latest: Records, order: seq<TxId>, saved: Ledger, done: set<TxId>, l: Ledger, t: TxId)
    requires Replayed(base, latest, order, saved, done, l) && Decides(latest, order) && saved.applied <= Elements(order)
    requires t in latest && t !in done && !HasCommitDecision(latest[t].state) && !IsPrepared(latest[t].state)
    ensures Replayed(base, latest, order, saved, done + {t}, Released(l, t))
  {
    ReleaseKeepsInv(base, latest, l, t);
    assert (done + {t}) * Elements(order) == done * Elements(order);
    HoldsNoLonger(saved.reservations, latest, done, t);
  }

  lemma ReplayStep(
      base: Channels, latest: Records, order: seq<TxId>, maxHops: nat, saved: Ledger, done: set<TxId>, l: Ledger,
      t: TxId)
    requires Replayed(base, latest, order, saved, done, l) && Decides(latest, order)
    requires LiveTermsFit(base, latest, maxHops)
    requires saved.applied <= Elements(order) && t in latest && t !in done
    ensures RecoverOne(l, maxHops, latest[t]).Ok? <==> Guard(base, latest, order, maxHops, saved, done, t)
    ensures RecoverOne(l, maxHops, latest[t]).Ok? ==>
              Replayed(base, latest, order, saved, done + {t}, RecoverOne(l, maxHops, latest[t]).value)
  {
    if IsPrepared(latest[t].state) {
      ReplayPrepared(base, latest, order, maxHops, saved, done, l, t);
    } else if !HasCommitDecision(latest[t].state) {
      ReplayReleased(base, latest, order, saved, done, l, t);
    } else if t in saved.applied {
      ReplayApplied(base, latest, order, maxHops, saved, done, l, t);
    } else {
      ReplayDecided(base, latest, order, maxHops, saved, done, l, t);
    }
  }

  /** Every step of replaying `ids` after `done` meets its guard. */
  ghost predicate Guards(
      base: Channels, latest: Records, order: seq<TxId>, maxHops: nat, saved: Ledger, done: set<TxId>, ids: seq<TxId>)
    decreases ids
  {
    ids == [] || (
      && ids[0] in latest && Guard(base, latest, order, maxHops, saved, done, ids[0])
      && Guards(base, latest, order, maxHops, saved, done + {ids[0]}, ids[1..]))
  }

  /** A replay succeeds exactly if every guard holds, and then its result is the closed form. */
  lemma {:induction false} ReplayAll(
      base: Channels, latest: Records, order: seq<TxId>, maxHops: nat, saved: Ledger, done: set<TxId>, l: Ledger,
      ids: seq<TxId>)
    requires Replayed(base, latest, order, saved, done, l) && Decides(latest, order)
    requires LiveTermsFit(base, latest, maxHops)
    requires saved.applied <= Elements(order) && Distinct(ids) && Elements(ids) !! done && Elements(ids) <= latest.Keys
    ensures Recovered(l, maxHops, latest, ids).Ok? <==> Guards(base, latest, order, maxHops, saved, done, ids)
    ensures Recovered(l, maxHops, latest, ids).Ok? ==>
              Replayed(base, latest, order, saved, done + Elements(ids), Recovered(l, maxHops, latest, ids).value)
    decreases ids
  {
    if ids == [] {
      assert done + Elements(ids) == done;
    } else {
      var t := ids[0];
      assert t in Elements(ids);
      ReplayStep(base, latest, order, maxHops, saved, done, l, t);
      if RecoverOne(l, maxHops, latest[t]).Ok? {
        assert Elements(ids) == {t} + Elements(ids[1..]);
        assert Elements(ids[1..]) !! done + {t};
        ReplayAll(base, latest, order, maxHops, saved, done + {t}, RecoverOne(l, maxHops, latest[t]).value, ids[1..]);
        assert done + Elements(ids) == done + {t} + Elements(ids[1..]);
      }
    }
  }

  // ----- what a restart leaves -----

  lemma SavedIsReplayed(base: Channels, latest: Records, order: seq<TxId>, saved: Ledger)
    requires LedgerInv(base, latest, saved) && Shaped(saved.reservations)
    ensures Replayed(base, latest, order, saved, {}, saved)
  {
    assert saved.applied + {} * Elements(order) == saved.applied;
    assert HeldAfter(saved.reservations, latest, {}) == saved.reservations;
  }

  lemma AppliedIsDecided(latest: Records, order: seq<TxId>, saved: Ledger)
    requires Decides(latest, order) && saved.applied <= Elements(order)
    ensures saved.applied + latest.Keys * Elements(order) == Elements(order)
  {
  }

  /** A restart that succeeds leaves a running process in good order. */
  lemma RestartRuns(
      base: Channels, maxHops: nat, latest: Records, order: seq<TxId>, saved: Ledger, l: Ledger, lost: set<TxId>)
    requires Decides(latest, order) && saved.applied <= Elements(order)
    requires Replayed(base, latest, order, saved, latest.Keys, l)
    requires forall t :: t in lost ==> t in latest && latest[t].role.Participant?
    ensures RunningInv(base, latest, order, l, Sessions({}, {}, Decided(latest, lost))) && l.applied == Elements(order)
  {
    AppliedIsDecided(latest, order, saved);
    assert forall t :: t in Decided(latest, lost) ==> t in order;
    forall t | NeedsHold(latest, l.applied, Sessions({}, {}, Decided(latest, lost)), t) ensures t in l.reservations {
    }
  }

  lemma RestartKeeps(
      base: Channels, latest: Records, order: seq<TxId>, before: Ledger, saved: Ledger, l: Ledger, kept: set<TxId>)
    requires KeptInv(latest, before, saved.reservations, kept) && Replayed(base, latest, order, saved, latest.Keys, l)
    ensures KeptInv(latest, l, saved.reservations, kept * (l.reservations.Keys + l.applied))
  {
  }

  /** `ids` lists every journaled transaction once. */
  ghost predicate ListsAll(latest: Records, ids: seq<TxId>) {
    Distinct(ids) && Elements(ids) == latest.Keys
  }

  ghost predicate SavedInv(base: Channels, latest: Records, order: seq<TxId>, saved: Ledger) {
    LedgerInv(base, latest, saved) && Shaped(saved.reservations) && saved.applied <= Elements(order)
  }

  lemma SnapshotIsSaved(
      base: Channels, latest: Records, order: seq<TxId>, saved: Ledger, savedAt: nat, pledges: map<TxId, Terms>,
      lost: set<TxId>)
    requires SnapshotInv(base, latest, order, saved, savedAt, pledges, lost)
    ensures SavedInv(base, latest, order, saved)
  {
  }

  lemma ReplayWhole(base: Channels, maxHops: nat, latest: Records, order: seq<TxId>, saved: Ledger, ids: seq<TxId>)
    requires Decides(latest, order) && LiveTermsFit(base, latest, maxHops) && SavedInv(base, latest, order, saved)
    requires ListsAll(latest, ids)
    ensures Recovered(saved, maxHops, latest, ids).Ok? <==> Guards(base, latest, order, maxHops, saved, {}, ids)
    ensures Recovered(saved, maxHops, latest, ids).Ok? ==>
              Replayed(base, latest, order, saved, latest.Keys, Recovered(saved, maxHops, latest, ids).value)
  {
    SavedIsReplayed(base, latest, order, saved);
    ReplayAll(base, latest, order, maxHops, saved, {}, saved, ids);
    assert {} + Elements(ids) == latest.Keys;
  }

  lemma RestartInv(base: Channels, maxHops: nat, latest: Records, order: seq<TxId>, h: Hub, ids: seq<TxId>)
    requires InvOver(base, maxHops, latest, order, h) && ListsAll(latest, ids)
    requires Recovered(h.saved, maxHops, latest, ids).Ok?
    ensures var l := Recovered(h.saved, maxHops, latest, ids).value;
            InvOver(base, maxHops, latest, order,
                    h.(up := true, ledger := l, sessions := Sessions({}, {}, Decided(latest, h.sessions.lost)),
                       kept := h.kept * (l.reservations.Keys + l.applied)))
  {
    SnapshotIsSaved(base, latest, order, h.saved, h.savedAt, h.pledges, h.sessions.lost);
    ReplayWhole(base, maxHops, latest, order, h.saved, ids);
    var l := Recovered(h.saved, maxHops, latest, ids).value;
    RestartRuns(base, maxHops, latest, order, h.saved, l, h.sessions.lost);
    RestartKeeps(base, latest, order, h.ledger, h.saved, l, h.kept);
    StillDecided(base, latest, order, h.saved, h.savedAt, h.pledges, h.sessions.lost);
    assert h.kept * (l.reservations.Keys + l.applied) == h.saved.reservations.Keys ==> NoneStale(h);
  }

  /** What a restart forgets of the lost ones was never decided. */
  lemma StillDecided(
      base: Channels, latest: Records, order: seq<TxId>, saved: Ledger, savedAt: nat, pledges: map<TxId, Terms>,
      lost: set<TxId>)
    requires Decides(latest, order) && SnapshotInv(base, latest, order, saved, savedAt, pledges, lost)
    ensures SnapshotInv(base, latest, order, saved, savedAt, pledges, Decided(latest, lost))
    ensures (forall t :: t in order ==> t !in Decided(latest, lost)) ==> forall t :: t in order ==> t !in lost
  {
    assert forall t :: t in order ==> (t in lost <==> t in Decided(latest, lost));
    assert forall t :: t in order[..savedAt] ==> t in order;
  }

  // ----- recovering again -----

  /** The marks a finished recovery leaves for transaction `t`. */
  ghost predicate Settled(maxHops: nat, latest: Records, l: Ledger, t: TxId) {
    && t in latest
    && if IsPrepared(latest[t].state) then
         && |latest[t].localHops| <= maxHops && CheckShape(latest[t].localHops, {}).None?
         && t in l.reservations && l.reservations[t] == TermsOf(latest[t])
       else t !in l.reservations && (HasCommitDecision(latest[t].state) ==> t in l.applied)
  }

  lemma {:induction false} RecoverAgain(maxHops: nat, latest: Records, l: Ledger, ids: seq<TxId>)
    requires forall t :: t in latest ==> latest[t].txId == t
    requires forall t :: t in ids ==> Settled(maxHops, latest, l, t)
    ensures Recovered(l, maxHops, latest, ids) == Ok(l)
    decreases ids
  {
    if ids != [] {
      var t := ids[0];
      assert Settled(maxHops, latest, l, t);
      if !IsPrepared(latest[t].state) {
        assert l.reservations - {t} == l.reservations;
      }
      assert RecoverOne(l, maxHops, latest[t]) == Ok(l);
      RecoverAgain(maxHops, latest, l, ids[1..]);
    }
  }

  lemma {:induction false} GuardsLimitHops(
      base: Channels, latest: Records, order: seq<TxId>, maxHops: nat, saved: Ledger, done: set<TxId>, ids: seq<TxId>,
      t: TxId)
    requires Guards(base, latest, order, maxHops, saved, done, ids) && t in ids && RereservedOnReplay(latest, saved, t)
    ensures |latest[t].localHops| <= maxHops
    decreases ids
  {
    if t != ids[0] {
      GuardsLimitHops(base, latest, order, maxHops, saved, done + {ids[0]}, ids[1..], t);
    }
  }

  lemma RestartSettles(base: Channels, maxHops: nat, latest: Records, order: seq<TxId>, saved: Ledger, ids: seq<TxId>)
    requires Decides(latest, order) && LiveTermsFit(base, latest, maxHops) && SavedInv(base, latest, order, saved)
    requires ListsAll(latest, ids) && Recovered(saved, maxHops, latest, ids).Ok?
    ensures var l := Recovered(saved, maxHops, latest, ids).value;
            && Recovered(l, maxHops, latest, ids) == Ok(l)
            && forall t :: t in latest ==> Settled(maxHops, latest, l, t)
  {
    ReplayWhole(base, maxHops, latest, order, saved, ids);
    var l := Recovered(saved, maxHops, latest, ids).value;
    AppliedIsDecided(latest, order, saved);
    forall t | t in latest ensures Settled(maxHops, latest, l, t) {
      assert t in Elements(ids);
      if IsPrepared(latest[t].state) {
        GuardsLimitHops(base, latest, order, maxHops, saved, {}, ids, t);
        ShapedTerms(base, latest, maxHops, t);
      }
    }
    forall t | t in ids ensures Settled(maxHops, latest, l, t) {
      assert t in Elements(ids);
    }
    RecoverAgain(maxHops, latest, l, ids);
  }

  // ----- when a restart succeeds -----

  /** Replaying `t` passes the checks of `prepare_distributed_reservation` again. */
  predicate RereservedOnReplay(latest: Records, saved: Ledger, t: TxId) {
    t in latest && (
      || IsPrepared(latest[t].state)
      || (HasCommitDecision(latest[t].state) && t !in saved.applied && t !in saved.reservations))
  }

  /**
   Replayed reservations pass the hop limit. Participants always do; an explicit route longer than
   the limit is not refused when its payment is created (src/state.rs:1444-1474).
   */
  ghost predicate HopsWithinLimit(latest: Records, saved: Ledger, maxHops: nat) {
    forall t :: RereservedOnReplay(latest, saved, t) ==> |latest[t].localHops| <= maxHops
  }

  lemma HeldAfterDecisions(saved: map<TxId, Terms>, latest: Records, order: seq<TxId>, done: set<TxId>)
    requires Decides(latest, order) && done <= Elements(order)
    ensures HeldAfter(saved, latest, done) == saved - done && done * Elements(order) == done
  {
  }

  /** A pledge was covered when the snapshot was taken, and still is when others settled before it. */
  lemma PledgedRoom(
      base: Channels, latest: Records, channels: Channels, applied: set<TxId>, pledges: map<TxId, Terms>,
      done: set<TxId>, held: map<TxId, Terms>, t: TxId)
    requires Balanced(base, latest, channels, applied) && SameParties(base, channels)
    requires forall n: Lane :: n.channel in base ==> DueOn(base, pledges, pledges.Keys, n) <= BalanceAt(channels, n)
    requires forall u :: u in done && u !in applied ==> u in pledges && u in latest && pledges[u] == TermsOf(latest[u])
    requires forall u :: u in held ==> u in pledges && pledges[u] == held[u] && u !in done
    requires t in pledges && t in latest && pledges[t] == TermsOf(latest[t]) && t !in done && t !in held
    ensures HasRoom(base, latest, applied + done, held, TermsOf(latest[t]))
  {
    forall n: Lane | n.channel in base
      ensures Debit(base, TermsOf(latest[t]), n) + DueOn(base, held, held.Keys, n)
              <= BalanceAt(base, n) + Net(base, latest, applied + done, n)
    {
      RoomAfterSettling(base, latest, channels, applied, pledges, done - applied, held.Keys + {t}, n);
      DueWithOneMore(base, pledges, held, held.Keys, t, n);
      assert applied + (done - applied) == applied + done;
    }
  }

  /** A decision the snapshot had seen. */
  lemma EarlyRoom(
      base: Channels, latest: Records, order: seq<TxId>, saved: Ledger, savedAt: nat, pledges: map<TxId, Terms>,
      j: nat)
    requires SnapshotInv(base, latest, order, saved, savedAt, pledges, {}) && Decides(latest, order)
    requires j < savedAt && order[j] !in saved.applied && order[j] !in saved.reservations && order[j] in latest
    ensures HasRoom(base, latest, saved.applied + Elements(order[..j]), saved.reservations - Elements(order[..j]),
                    TermsOf(latest[order[j]]))
  {
    assert forall u :: u in order[..j] ==> u in order[..savedAt];
    assert order[j] in order[..savedAt];
    PledgedRoom(base, latest, saved.channels, saved.applied, pledges, Elements(order[..j]),
                saved.reservations - Elements(order[..j]), order[j]);
  }

  /** A later decision was taken with room for whatever the snapshot still holds. */
  lemma LateRoom(base: Channels, latest: Records, order: seq<TxId>, saved: Ledger, savedAt: nat, j: nat)
    requires RoomFrom(base, latest, order, saved.reservations, savedAt) && savedAt <= j < |order|
    requires saved.applied <= Elements(order[..savedAt]) && order[j] !in saved.reservations && order[j] in latest
    ensures HasRoom(base, latest, saved.applied + Elements(order[..j]), saved.reservations - Elements(order[..j]),
                    TermsOf(latest[order[j]]))
  {
    var t, done, held := order[j], Elements(order[..j]), saved.reservations - Elements(order[..j]);
    assert saved.applied + done == done by {
      assert order[..j][..savedAt] == order[..savedAt];
    }
    ElementsOfTake(order, j);
    assert saved.reservations.Keys - Elements(order[..j + 1]) == held.Keys;
    forall n: Lane | n.channel in base
      ensures Debit(base, TermsOf(latest[t]), n) + DueOn(base, held, held.Keys, n) <= BalanceAt(base, n)
              + Net(base, latest, done, n)
    {
      assert RoomAt(base, latest, order, saved.reservations, j, n);
      var from := SenderAt(base, n);
      SumCongruent(held.Keys, DueIn(held, n.channel, from, n.asset),
                   DueIn(saved.reservations, n.channel, from, n.asset));
    }
  }

  /** The room a decision needs that the snapshot neither settled nor holds. */
  lemma DecidedRoom(base: Channels, maxHops: nat, latest: Records, order: seq<TxId>, h: Hub, j: nat)
    requires InvOver(base, maxHops, latest, order, h) && NoneStale(h) && NoneLost(h) && j < |order|
    requires order[j] in latest && order[j] !in h.saved.applied && order[j] !in h.saved.reservations
    ensures HasRoom(base, latest, h.saved.applied + Elements(order[..j]), h.saved.reservations - Elements(order[..j]),
                    TermsOf(latest[order[j]]))
  {
    if j < h.savedAt {
      EarlyRoom(base, latest, order, h.saved, h.savedAt, h.pledges, j);
    } else {
      LateRoom(base, latest, order, h.saved, h.savedAt, j);
    }
  }

  /** What the snapshot holds for a decided transaction are its journaled terms. */
  lemma SavedTerms(base: Channels, maxHops: nat, latest: Records, order: seq<TxId>, h: Hub, t: TxId)
    requires InvOver(base, maxHops, latest, order, h) && NoneStale(h) && t in order && t in h.saved.reservations
    ensures t in latest && h.saved.reservations[t] == TermsOf(latest[t])
  {
  }

  lemma DecidedGuard(base: Channels, maxHops: nat, latest: Records, order: seq<TxId>, h: Hub, j: nat)
    requires InvOver(base, maxHops, latest, order, h) && NoneStale(h) && NoneLost(h)
    requires HopsWithinLimit(latest, h.saved, maxHops) && j < |order|
    ensures order[j] in latest && Guard(base, latest, order, maxHops, h.saved, Elements(order[..j]), order[j])
  {
    var t, done := order[j], Elements(order[..j]);
    assert t in order;
    assert RereservedOnReplay(latest, h.saved, t) ==> |latest[t].localHops| <= maxHops;
    HeldAfterDecisions(h.saved.reservations, latest, order, done);
    if t !in h.saved.applied {
      if t in h.saved.reservations {
        SavedTerms(base, maxHops, latest, order, h, t);
      } else {
        DecidedRoom(base, maxHops, latest, order, h, j);
      }
    }
  }

  /** Whatever the replay holds once all decisions are replayed is held by the crashed process too. */
  lemma HeldWasLive(
      latest: Records, order: seq<TxId>, l: Ledger, open: Sessions, held: map<TxId, Terms>, done: set<TxId>)
    requires Decides(latest, order) && HoldsKept(latest, l, open) && l.applied <= Elements(order)
    requires KeptInv(latest, l, held, held.Keys) && Elements(order) <= done && NoneClosed(latest, open)
    requires open.lost == {}
    ensures var after := HeldAfter(held, latest, done);
            forall u :: u in after ==> u in l.reservations && l.reservations[u] == after[u] && u !in Elements(order)
  {
    var after := HeldAfter(held, latest, done);
    forall u | u in after ensures u in l.reservations && l.reservations[u] == after[u] && u !in Elements(order) {
      assert u in done ==> NeedsHold(latest, l.applied, open, u);
    }
  }

  lemma UndecidedRoom(
      base: Channels, latest: Records, order: seq<TxId>, reservations: map<TxId, Terms>, held: map<TxId, Terms>,
      t: TxId)
    requires Roomy(base, latest, order, reservations)
    requires forall u :: u in held ==> u in reservations && reservations[u] == held[u] && u !in Elements(order)
    requires t in latest && t in reservations && reservations[t] == TermsOf(latest[t]) && t !in Elements(order)
    requires t !in held
    ensures HasRoom(base, latest, Elements(order), held, TermsOf(latest[t]))
  {
    forall n: Lane | n.channel in base
      ensures Debit(base, TermsOf(latest[t]), n) + DueOn(base, held, held.Keys, n) <= BalanceAt(base, n)
              + Net(base, latest, Elements(order), n)
    {
      assert held.Keys + {t} <= reservations.Keys && held.Keys + {t} !! Elements(order);
      DueWithOneMore(base, reservations, held, held.Keys, t, n);
    }
  }

  lemma UndecidedGuard(
      base: Channels, maxHops: nat, latest: Records, order: seq<TxId>, h: Hub, done: set<TxId>, t: TxId)
    requires InvOver(base, maxHops, latest, order, h) && NoneStale(h) && NoneLost(h)
    requires HopsWithinLimit(latest, h.saved, maxHops)
    requires Elements(order) <= done && t in latest && t !in done && NoneClosed(latest, h.sessions)
    ensures Guard(base, latest, order, maxHops, h.saved, done, t)
  {
    if IsPrepared(latest[t].state) {
      assert RereservedOnReplay(latest, h.saved, t);
      PreparedIsReserved(base, latest, order, h.ledger, h.sessions, t);
      if t !in h.saved.reservations {
        RunningIsRoomy(base, latest, order, h.ledger, h.sessions);
        HeldWasLive(latest, order, h.ledger, h.sessions, h.saved.reservations, done);
        UndecidedRoom(base, latest, order, h.ledger.reservations, HeldAfter(h.saved.reservations, latest, done), t);
        assert h.saved.applied + done * Elements(order) == Elements(order) by {
          SnapshotIsSaved(base, latest, order, h.saved, h.savedAt, h.pledges, h.sessions.lost);
        }
      }
    }
  }

  lemma {:induction false} GuardsByIndex(
      base: Channels, latest: Records, order: seq<TxId>, maxHops: nat, saved: Ledger, done: set<TxId>, ids: seq<TxId>)
    requires forall j :: 0 <= j < |ids| ==> ids[j] in latest
    requires forall j :: 0 <= j < |ids| ==>
                 Guard(base, latest, order, maxHops, saved, done + Elements(ids[..j]), ids[j])
    ensures Guards(base, latest, order, maxHops, saved, done, ids)
    decreases ids
  {
    if ids != [] {
      assert done + Elements(ids[..0]) == done;
      var rest := ids[1..];
      forall j | 0 <= j < |rest|
        ensures Guard(base, latest, order, maxHops, saved, done + {ids[0]} + Elements(rest[..j]), rest[j])
      {
        assert ids[..j + 1] == [ids[0]] + rest[..j];
        assert done + Elements(ids[..j + 1]) == done + {ids[0]} + Elements(rest[..j]);
      }
      GuardsByIndex(base, latest, order, maxHops, saved, done + {ids[0]}, rest);
    }
  }

  /** `ids` replays the decisions in the order they were taken, then the rest. */
  ghost predicate DecisionsFirst(order: seq<TxId>, ids: seq<TxId>) {
    |order| <= |ids| && ids[..|order|] == order
  }

  lemma NoneStaleGuards(base: Channels, maxHops: nat, latest: Records, order: seq<TxId>, h: Hub, ids: seq<TxId>)
    requires InvOver(base, maxHops, latest, order, h) && NoneStale(h) && NoneLost(h)
    requires HopsWithinLimit(latest, h.saved, maxHops)
    requires ListsAll(latest, ids) && DecisionsFirst(order, ids) && NoneClosed(latest, h.sessions)
    ensures Guards(base, latest, order, maxHops, h.saved, {}, ids)
  {
    forall j | 0 <= j < |ids|
      ensures ids[j] in latest
      ensures ids[j] in latest ==> Guard(base, latest, order, maxHops, h.saved, {} + Elements(ids[..j]), ids[j])
    {
      assert ids[j] in Elements(ids);
      assert {} + Elements(ids[..j]) == Elements(ids[..j]);
      if j < |order| {
        assert ids[j] == ids[..|order|][j] && ids[..j] == ids[..|order|][..j];
        DecidedGuard(base, maxHops, latest, order, h, j);
      } else {
        assert ids[..j][..|order|] == order;
        assert forall u :: u in order ==> u in ids[..j];
        UndecidedGuard(base, maxHops, latest, order, h, Elements(ids[..j]), ids[j]);
      }
    }
    GuardsByIndex(base, latest, order, maxHops, h.saved, {}, ids);
  }
}
