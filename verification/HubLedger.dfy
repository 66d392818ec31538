/**
 The ledger read against a hub's journal: balances are the registered ones plus the effect of exactly
 the applied transactions, and no side promises more than it has.
 */
module HubLedger {
  import opened Prelude
  import opened SetSums
  import opened Transactions
  import opened Ledger

  type Channels = map<ChannelId, Channel>
  type Records = map<TxId, Transaction>

  function TermsOf(tx: Transaction): Terms {
    Terms(tx.amountZhu, tx.amountSatoshi, tx.localHops, tx.expiresUnix)
  }

  /** What settling transaction `t` does to lane `n`. */
  function Delta(base: Channels, latest: Records, t: TxId, n: Lane): int {
    if t in latest && n.channel in base then
      Debit(base, TermsOf(latest[t]), Opposite(n)) - Debit(base, TermsOf(latest[t]), n)
    else 0
  }

  ghost function DeltaIn(base: Channels, latest: Records, n: Lane): TxId -> int {
    (t: TxId) => Delta(base, latest, t, n)
  }

  /** Net effect of a set of transactions on lane `n`. */
  ghost function Net(base: Channels, latest: Records, s: set<TxId>, n: Lane): int {
    Sum(s, DeltaIn(base, latest, n))
  }

  ghost predicate LedgerInv(base: Channels, latest: Records, l: Ledger) {
    && SameParties(base, l.channels) && Registered(l.channels)
    && l.applied <= latest.Keys
    && Balanced(base, latest, l.channels, l.applied)
    && Covered(l)
    && (forall t :: t in l.reservations ==> Fits(base, l.reservations[t]) && t !in l.applied)
    && (forall id :: id in l.channels && l.channels[id].lastSettle.Some? ==>
         l.channels[id].lastSettle.value in l.applied)
  }

  /** Each lane holds what was registered plus the effect of exactly the applied transactions. */
  ghost predicate Balanced(base: Channels, latest: Records, channels: Channels, applied: set<TxId>) {
    && base.Keys == channels.Keys
    && forall n: Lane :: n.channel in base ==>
         BalanceAt(channels, n) == BalanceAt(base, n) + Net(base, latest, applied, n)
  }

  lemma PartiesDecideFit(a: Channels, b: Channels, t: Terms)
    requires SameParties(a, b)
    ensures Fits(a, t) <==> Fits(b, t)
    ensures forall n: Lane :: n.channel in a ==> Debit(a, t, n) == Debit(b, t, n)
  {
    assert forall id, h: Hop :: id in a ==> SenderSide(a[id], h) == SenderSide(b[id], h);
  }

  lemma NetAdd(base: Channels, latest: Records, s: set<TxId>, t: TxId, n: Lane)
    requires t !in s
    ensures Net(base, latest, s + {t}, n) == Net(base, latest, s, n) + Delta(base, latest, t, n)
  {
    SumAdd(s, DeltaIn(base, latest, n), t);
  }

  /** A hop-distinct settlement never both debits and credits one lane, so its effect is at least minus its debit. */
  lemma DeltaAtLeast(base: Channels, latest: Records, t: TxId, n: Lane)
    requires n.channel in base
    ensures t in latest ==> Delta(base, latest, t, n) + Debit(base, TermsOf(latest[t]), n) >= 0
  {
  }

  // ----- ledger operations keep the invariant -----

  /** Terms that pass the checks of `prepare_distributed_reservation` on this ledger fit its channels. */
  lemma PassingTermsFit(l: Ledger, t: Terms)
    requires CheckShape(t.hops, {}).None? && CheckHops(l, t, t.hops).None?
    ensures Fits(l.channels, t)
  {
    ShapeIsDistinct(t.hops, {});
    AllHopsPass(l, t, t.hops);
    forall i | 0 <= i < |t.hops|
      ensures t.hops[i].channelId in l.channels && SenderSide(l.channels[t.hops[i].channelId], t.hops[i]).Some?
    {
      assert CheckHop(l, t, t.hops[i]).None?;
    }
  }

  lemma ReserveKeepsInv(base: Channels, latest: Records, l: Ledger, tx: TxId, t: Terms)
    requires LedgerInv(base, latest, l) && tx !in l.applied && tx !in l.reservations
    requires CheckShape(t.hops, {}).None? && CheckHops(l, t, t.hops).None?
    ensures LedgerInv(base, latest, l.(reservations := l.reservations[tx := t]))
    ensures Fits(base, t)
  {
    PassingTermsFit(l, t);
    PartiesDecideFit(base, l.channels, t);
    ReservesIffLiquid(l, t);
    ReserveKeepsCovered(l, tx, t);
  }

  lemma PreparedKeepsInv(base: Channels, latest: Records, l: Ledger, maxHops: nat, tx: TxId, t: Terms)
    requires LedgerInv(base, latest, l) && Prepared(l, maxHops, tx, t).Ok?
    ensures LedgerInv(base, latest, Prepared(l, maxHops, tx, t).value)
  {
    if tx !in l.applied && tx !in l.reservations {
      ReserveKeepsInv(base, latest, l, tx, t);
    }
  }

  lemma ReleaseKeepsInv(base: Channels, latest: Records, l: Ledger, tx: TxId)
    requires LedgerInv(base, latest, l)
    ensures LedgerInv(base, latest, Released(l, tx))
  {
    ReleaseKeepsCovered(l, tx);
  }

  /** A reserved transaction always settles: the reservation is what makes commit unable to fail locally. */
  lemma ReservedAlwaysSettles(base: Channels, latest: Records, l: Ledger, tx: TxId, t: Terms)
    requires LedgerInv(base, latest, l) && tx in l.reservations && SamePayment(l.reservations[tx], t)
    ensures Applied(l, tx, t).Ok?
  {
    PartiesDecideFit(base, l.channels, l.reservations[tx]);
    ReservedCanSettle(l, tx);
    assert CanSettle(l.channels, tx, t) by {
      forall n: Lane | n.channel in l.channels ensures Debit(l.channels, t, n) <= BalanceAt(l.channels, n) {
        assert Debit(l.channels, t, n) == Debit(l.channels, l.reservations[tx], n);
      }
    }
    SettlesIff(l.channels, tx, t);
  }

  /** Equal but for the expiry, which settlement ignores. */
  predicate SamePayment(a: Terms, b: Terms) {
    a.zhu == b.zhu && a.satoshi == b.satoshi && a.hops == b.hops
  }

  lemma SettledBalances(
      base: Channels, latest: Records, before: Channels, after: Channels, applied: set<TxId>, tx: TxId, t: Terms)
    requires Balanced(base, latest, before, applied) && SameParties(base, before) && tx !in applied
    requires tx in latest && SamePayment(t, TermsOf(latest[tx])) && IsSettled(before, after, tx, t)
    ensures Balanced(base, latest, after, applied + {tx})
  {
    forall n: Lane | n.channel in base
      ensures BalanceAt(after, n) == BalanceAt(base, n) + Net(base, latest, applied + {tx}, n)
    {
      NetAdd(base, latest, applied, tx, n);
      assert SenderAt(base, n) == SenderAt(before, n) && SenderAt(base, Opposite(n)) == SenderAt(before, Opposite(n));
      assert Debit(before, t, n) == Debit(base, TermsOf(latest[tx]), n);
      assert Debit(before, t, Opposite(n)) == Debit(base, TermsOf(latest[tx]), Opposite(n));
    }
  }

  lemma AppliedKeepsInv(base: Channels, latest: Records, l: Ledger, tx: TxId)
    requires LedgerInv(base, latest, l) && tx in latest && Applied(l, tx, TermsOf(latest[tx])).Ok?
    ensures var after := Applied(l, tx, TermsOf(latest[tx])).value;
            && LedgerInv(base, latest, after)
            && after.applied == l.applied + {tx}
            && after.reservations == l.reservations - {tx}
  {
    var t := TermsOf(latest[tx]);
    if tx in l.applied {
      assert l.applied + {tx} == l.applied;
      assert l.reservations - {tx} == l.reservations;
    } else {
      SettlingKeepsInv(base, latest, l, tx, Settle(l.channels, l.channels, tx, t, t.hops).value);
    }
  }

  lemma SettlingKeepsInv(base: Channels, latest: Records, l: Ledger, tx: TxId, channels: Channels)
    requires LedgerInv(base, latest, l) && tx in latest && tx !in l.applied && tx in l.reservations
    requires SamePayment(l.reservations[tx], TermsOf(latest[tx]))
    requires Settle(l.channels, l.channels, tx, TermsOf(latest[tx]), TermsOf(latest[tx]).hops) == Ok(channels)
    ensures LedgerInv(base, latest, Ledger(channels, l.reservations - {tx}, l.applied + {tx}))
  {
    var t, r := TermsOf(latest[tx]), l.reservations[tx];
    assert IsSettled(l.channels, channels, tx, t) by {
      PartiesDecideFit(base, l.channels, r);
      assert Fits(l.channels, t);
      SettlesIff(l.channels, tx, t);
    }
    assert Balanced(base, latest, channels, l.applied + {tx}) by {
      SettledBalances(base, latest, l.channels, channels, l.applied, tx, t);
    }
    assert Registered(channels) by {
      SettledStaysRegistered(l.channels, channels, tx, t);
    }
    assert Covered(Ledger(channels, l.reservations - {tx}, l.applied + {tx})) by {
      SettledAlike(l.channels, channels, tx, t, r);
      SettleKeepsCovered(l, channels, tx);
    }
  }

  lemma SettledAlike(before: Channels, after: Channels, tx: TxId, t: Terms, r: Terms)
    requires IsSettled(before, after, tx, t) && SamePayment(t, r)
    ensures IsSettled(before, after, tx, r)
  {
    assert forall n: Lane :: n.channel in before ==> Debit(before, t, n) == Debit(before, r, n);
  }

  /** New records never change the terms of old ones, so the balance equation carries over. */
  lemma NewRecordKeepsInv(base: Channels, latest: Records, more: Records, l: Ledger)
    requires LedgerInv(base, latest, l)
    requires forall t :: t in latest ==> t in more && TermsOf(more[t]) == TermsOf(latest[t])
    ensures LedgerInv(base, more, l)
    ensures forall s: set<TxId>, n: Lane :: s <= latest.Keys ==> Net(base, more, s, n) == Net(base, latest, s, n)
  {
    forall s: set<TxId>, n: Lane | s <= latest.Keys ensures Net(base, more, s, n) == Net(base, latest, s, n) {
      SumCongruent(s, DeltaIn(base, more, n), DeltaIn(base, latest, n));
    }
  }

  // ----- how much room a ledger proves to be there -----

  /** What the reservations under keys `ks` take from lane `n`. */
  ghost function DueOn(channels: Channels, reservations: map<TxId, Terms>, ks: set<TxId>, n: Lane): int
    requires n.channel in channels
  {
    Sum(ks, DueIn(reservations, n.channel, SenderAt(channels, n), n.asset))
  }

  /** Pledged money is really there: a lane covers all pledges, whatever order some of them settle in. */
  lemma RoomAfterSettling(
      base: Channels, latest: Records, channels: Channels, applied: set<TxId>, pledges: map<TxId, Terms>,
      settled: set<TxId>, rest: set<TxId>, n: Lane)
    requires Balanced(base, latest, channels, applied) && SameParties(base, channels)
    requires n.channel in base && DueOn(base, pledges, pledges.Keys, n) <= BalanceAt(channels, n)
    requires settled <= pledges.Keys && rest <= pledges.Keys && settled !! rest && settled !! applied
    requires forall t :: t in settled ==> t in latest && SamePayment(pledges[t], TermsOf(latest[t]))
    ensures BalanceAt(base, n) + Net(base, latest, applied + settled, n) >= DueOn(base, pledges, rest, n)
  {
    var due := DueIn(pledges, n.channel, SenderAt(base, n), n.asset);
    SumUnion(applied, settled, DeltaIn(base, latest, n));
    SumUnion(settled, rest, due);
    SumSubset(settled + rest, pledges.Keys, due);
    NetAtLeastMinusDue(base, latest, pledges, settled, n);
  }

  lemma {:induction false} NetAtLeastMinusDue(
      base: Channels, latest: Records, pledges: map<TxId, Terms>, s: set<TxId>, n: Lane)
    requires n.channel in base && s <= pledges.Keys
    requires forall t :: t in s ==> t in latest && SamePayment(pledges[t], TermsOf(latest[t]))
    ensures Net(base, latest, s, n) + DueOn(base, pledges, s, n) >= 0
    decreases |s|
  {
    var due := DueIn(pledges, n.channel, SenderAt(base, n), n.asset);
    if s != {} {
      var t :| t in s;
      SumRemove(s, due, t);
      SumRemove(s, DeltaIn(base, latest, n), t);
      NetAtLeastMinusDue(base, latest, pledges, s - {t}, n);
      DeltaAtLeast(base, latest, t, n);
    }
  }
}
