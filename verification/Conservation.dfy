/**
 Where the money goes: a settled path pays the payee exactly what the payer lost, whoever the hubs along
 it are (src/distributed_tx.rs:1544-1616, 1757-1829, 2887-2914; src/state.rs:4777-4876).
 */
module Conservation {
  import opened Prelude
  import opened SetSums
  import opened Transactions
  import opened Ledger
  import opened HubLedger
  import opened Descriptors
  import opened TwoPhaseCommit

  /** What `address` owns in one channel. */
  function OwnedIn(c: Channel, address: Address, a: Asset): nat {
    (if c.left == address then Balance(c, Left, a) else 0) + (if c.right == address then Balance(c, Right, a) else 0)
  }

  /** What `address` owns in all of a hub's channels. */
  ghost function Wealth(channels: Channels, address: Address, a: Asset): int {
    Sum(channels.Keys, Owned(channels, address, a))
  }

  ghost function Owned(channels: Channels, address: Address, a: Asset): ChannelId -> int {
    (id: ChannelId) => if id in channels then OwnedIn(channels[id], address, a) else 0
  }

  /** What settling `t` gives `address` in channel `id`. */
  function ShareIn(base: Channels, t: Terms, id: ChannelId, address: Address, a: Asset): int
    requires id in base
  {
    var left, right := Lane(id, Left, a), Lane(id, Right, a);
    var shift := Debit(base, t, right) - Debit(base, t, left);
    (if base[id].left == address then shift else 0) - (if base[id].right == address then shift else 0)
  }

  ghost function Shares(base: Channels, t: Terms, address: Address, a: Asset): ChannelId -> int {
    (id: ChannelId) => if id in base then ShareIn(base, t, id, address, a) else 0
  }

  /** What settling `t` at a hub gives `address` there. */
  ghost function Share(base: Channels, t: Terms, address: Address, a: Asset): int {
    Sum(base.Keys, Shares(base, t, address, a))
  }

  function Gain(h: Hop, amount: nat, address: Address): int {
    (if h.toAddress == address then amount else 0) - (if h.fromAddress == address then amount else 0)
  }

  function Gains(hops: seq<Hop>, amount: nat, address: Address): int {
    if hops == [] then 0 else Gain(hops[0], amount, address) + Gains(hops[1..], amount, address)
  }

  lemma {:induction false} GainsAppend(hops: seq<Hop>, h: Hop, amount: nat, address: Address)
    ensures Gains(hops + [h], amount, address) == Gains(hops, amount, address) + Gain(h, amount, address)
  {
    if hops == [] {
      assert hops + [h] == [h];
    } else {
      GainsAppend(hops[1..], h, amount, address);
      assert (hops + [h])[1..] == hops[1..] + [h];
    }
  }

  // ----- one hub -----

  lemma OneHopShare(base: Channels, t: Terms, id: ChannelId, address: Address, a: Asset, k: nat)
    requires Registered(base) && Fits(base, t) && k < |t.hops| && t.hops[k].channelId == id
    ensures id in base && ShareIn(base, t, id, address, a) == Gain(t.hops[k], Amount(t, a), address)
  {
    DebitOfHop(base, t, k, Lane(id, Left, a));
    DebitOfHop(base, t, k, Lane(id, Right, a));
  }

  lemma NoHopShare(base: Channels, t: Terms, id: ChannelId, address: Address, a: Asset)
    requires id in base && forall k :: 0 <= k < |t.hops| ==> t.hops[k].channelId != id
    ensures ShareIn(base, t, id, address, a) == 0
  {
    NoHopNoDebit(base, t, Lane(id, Left, a));
    NoHopNoDebit(base, t, Lane(id, Right, a));
  }

  function FirstHops(t: Terms, n: nat): Terms
    requires n <= |t.hops|
  {
    t.(hops := t.hops[..n])
  }

  /** Adding a hop changes the shares in its own channel only. */
  lemma ShareOfOneMore(base: Channels, t: Terms, n: nat, address: Address, a: Asset)
    requires Registered(base) && Fits(base, t) && n < |t.hops|
    ensures Share(base, FirstHops(t, n + 1), address, a)
            == Share(base, FirstHops(t, n), address, a) + Gain(t.hops[n], Amount(t, a), address)
  {
    var more, fewer, id := FirstHops(t, n + 1), FirstHops(t, n), t.hops[n].channelId;
    var f, g := Shares(base, more, address, a), Shares(base, fewer, address, a);
    assert Fits(base, more) && Fits(base, fewer);
    OneHopShare(base, more, id, address, a, n);
    NoHopShare(base, fewer, id, address, a);
    forall c | c in base.Keys - {id} ensures f(c) == g(c) {
      if k :| 0 <= k < n && t.hops[k].channelId == c {
        OneHopShare(base, more, c, address, a, k);
        OneHopShare(base, fewer, c, address, a, k);
      } else {
        NoHopShare(base, more, c, address, a);
        NoHopShare(base, fewer, c, address, a);
      }
    }
    SumRemove(base.Keys, f, id);
    SumRemove(base.Keys, g, id);
    SumCongruent(base.Keys - {id}, f, g);
  }

  lemma {:induction false} ShareOfFirst(base: Channels, t: Terms, n: nat, address: Address, a: Asset)
    requires Registered(base) && Fits(base, t) && n <= |t.hops|
    ensures Share(base, FirstHops(t, n), address, a) == Gains(t.hops[..n], Amount(t, a), address)
  {
    if n == 0 {
      forall c | c in base ensures Shares(base, FirstHops(t, 0), address, a)(c) == 0 {
        NoHopShare(base, FirstHops(t, 0), c, address, a);
      }
      SumAllZero(base.Keys, Shares(base, FirstHops(t, 0), address, a));
    } else {
      ShareOfFirst(base, t, n - 1, address, a);
      ShareOfOneMore(base, t, n - 1, address, a);
      GainsAppend(t.hops[..n - 1], t.hops[n - 1], Amount(t, a), address);
      assert t.hops[..n] == t.hops[..n - 1] + [t.hops[n - 1]];
    }
  }

  /** A hub's settlement moves money along its own hops and nowhere else. */
  lemma ShareIsGains(base: Channels, t: Terms, address: Address, a: Asset)
    requires Registered(base) && Fits(base, t)
    ensures Share(base, t, address, a) == Gains(t.hops, Amount(t, a), address)
  {
    ShareOfFirst(base, t, |t.hops|, address, a);
    assert t.hops[..|t.hops|] == t.hops;
  }

  // ----- the whole path -----

  ghost function GainsAt(
      c: PaymentCommit, owners: seq<Provider>, from: nat, amount: nat, address: Address): Provider -> int
    requires Assigned(c, owners) && from <= |c.route|
  {
    (q: Provider) => Gains(HopsOwned(c, owners, q, from), amount, address)
  }

  /** One more hop at the front is one hub's gain. */
  lemma GainsStep(
      c: PaymentCommit, owners: seq<Provider>, hubs: set<Provider>, from: nat, amount: nat, address: Address)
    requires Assigned(c, owners) && from < |c.route| && owners[from] in hubs
    ensures Sum(hubs, GainsAt(c, owners, from, amount, address))
            == Gain(PathHop(c, from), amount, address) + Sum(hubs, GainsAt(c, owners, from + 1, amount, address))
  {
    var o, h := owners[from], PathHop(c, from);
    var f, g := GainsAt(c, owners, from, amount, address), GainsAt(c, owners, from + 1, amount, address);
    assert HopsOwned(c, owners, o, from) == [h] + HopsOwned(c, owners, o, from + 1);
    assert f(o) == Gain(h, amount, address) + g(o);
    forall q | q in hubs - {o} ensures f(q) == g(q) {
      assert [] + HopsOwned(c, owners, q, from + 1) == HopsOwned(c, owners, q, from + 1);
    }
    SumRemove(hubs, f, o);
    SumRemove(hubs, g, o);
    SumCongruent(hubs - {o}, f, g);
  }

  /** What moving `amount` from point `from` of the path to its end gives `address`. */
  function EndToEnd(path: seq<Address>, from: nat, amount: nat, address: Address): int
    requires from < |path|
  {
    (if path[|path| - 1] == address then amount else 0) - (if path[from] == address then amount else 0)
  }

  lemma EndToEndStep(c: PaymentCommit, from: nat, amount: nat, address: Address)
    requires |c.requiredSigners| == |c.route| + 1 && from < |c.route|
    ensures EndToEnd(PathOf(c), from, amount, address)
            == Gain(PathHop(c, from), amount, address) + EndToEnd(PathOf(c), from + 1, amount, address)
  {
  }

  lemma EndToEndWhole(c: PaymentCommit, amount: nat, address: Address)
    requires SimplePath(c)
    ensures EndToEnd(PathOf(c), 0, amount, address)
            == if address == c.payer then 0 - amount else if address == c.payee then amount else 0
  {
    assert c.requiredSigners[0] != c.requiredSigners[|c.route|];
  }

  /** At the end of the path nothing moves any more. */
  lemma NoGains(c: PaymentCommit, owners: seq<Provider>, hubs: set<Provider>, amount: nat, address: Address)
    requires Assigned(c, owners)
    ensures Sum(hubs, GainsAt(c, owners, |c.route|, amount, address)) == EndToEnd(PathOf(c), |c.route|, amount, address)
  {
    SumAllZero(hubs, GainsAt(c, owners, |c.route|, amount, address));
  }

  /** What all hubs together move from point `i` of the path on, less what gets from there to its end. */
  ghost function Surplus(
      c: PaymentCommit, owners: seq<Provider>, hubs: set<Provider>, amount: nat, address: Address, i: nat): int
    requires Assigned(c, owners)
  {
    if i > |c.route| then 0
    else Sum(hubs, GainsAt(c, owners, i, amount, address)) - EndToEnd(PathOf(c), i, amount, address)
  }

  lemma SurplusStep(c: PaymentCommit, owners: seq<Provider>, hubs: set<Provider>, amount: nat, address: Address, i: nat)
    requires Assigned(c, owners) && i < |c.route| && owners[i] in hubs
    ensures Surplus(c, owners, hubs, amount, address, i) == Surplus(c, owners, hubs, amount, address, i + 1)
  {
    var here := Sum(hubs, GainsAt(c, owners, i, amount, address));
    var next := Sum(hubs, GainsAt(c, owners, i + 1, amount, address));
    assert here == Gain(PathHop(c, i), amount, address) + next by {
      GainsStep(c, owners, hubs, i, amount, address);
    }
    EndToEndStep(c, i, amount, address);
  }

  lemma {:induction false} ConstantDown(f: nat -> int, n: nat, from: nat)
    requires from <= n && forall i: nat :: i < n ==> f(i) == f(i + 1)
    ensures f(from) == f(n)
    decreases n - from
  {
    if from < n {
      ConstantDown(f, n, from + 1);
    }
  }

  /** All hubs together move `amount` from the start of the path to its end. */
  lemma PathGains(c: PaymentCommit, owners: seq<Provider>, hubs: set<Provider>, amount: nat, address: Address)
    requires Assigned(c, owners) && forall o :: o in owners ==> o in hubs
    ensures Sum(hubs, GainsAt(c, owners, 0, amount, address)) == EndToEnd(PathOf(c), 0, amount, address)
  {
    var surplus, n := (i: nat) => Surplus(c, owners, hubs, amount, address, i), |c.route|;
    forall i: nat | i < n ensures surplus(i) == surplus(i + 1) {
      assert owners[i] in owners;
      SurplusStep(c, owners, hubs, amount, address, i);
    }
    ConstantDown(surplus, n, 0);
    NoGains(c, owners, hubs, amount, address);
  }

  /**
   Path conservation: when every hub settles its own hops of a signed path, the payer loses the amount,
   the payee gains it, and nobody else gains or loses anything.
   */
  lemma PathConservation(
      c: PaymentCommit, owners: seq<Provider>, bases: map<Provider, Channels>, terms: map<Provider, Terms>,
      amount: nat, address: Address, a: Asset)
    requires Assigned(c, owners) && bases.Keys == terms.Keys
    requires PathOf(c)[0] == c.payer && PathOf(c)[|c.route|] == c.payee && c.payer != c.payee
    requires forall o :: o in owners ==> o in bases
    requires forall q :: q in bases ==>
               && Registered(bases[q]) && Fits(bases[q], terms[q]) && Amount(terms[q], a) == amount
               && terms[q].hops == HopsOwned(c, owners, q, 0)
    ensures Sum(bases.Keys, (q: Provider) => if q in bases && q in terms
                then Share(bases[q], terms[q], address, a) else 0)
            == if address == c.payer then 0 - amount else if address == c.payee then amount else 0
  {
    var f := (q: Provider) => if q in bases && q in terms then Share(bases[q], terms[q], address, a) else 0;
    PathGains(c, owners, bases.Keys, amount, address);
    forall q | q in bases ensures f(q) == GainsAt(c, owners, 0, amount, address)(q) {
      HubGains(c, owners, bases[q], terms[q], q, amount, address, a);
    }
    SumCongruent(bases.Keys, f, GainsAt(c, owners, 0, amount, address));
  }

  lemma HubGains(
      c: PaymentCommit, owners: seq<Provider>, base: Channels, t: Terms, q: Provider, amount: nat, address: Address,
      a: Asset)
    requires Assigned(c, owners) && Registered(base) && Fits(base, t) && Amount(t, a) == amount
    requires t.hops == HopsOwned(c, owners, q, 0)
    ensures Share(base, t, address, a) == GainsAt(c, owners, 0, amount, address)(q)
  {
    ShareIsGains(base, t, address, a);
  }

  // ----- balances -----

  /** Share of transaction `t` in channel `id`. */
  ghost function ShareTable(base: Channels, latest: Records, address: Address, a: Asset): (ChannelId, TxId) -> int {
    (id: ChannelId, t: TxId) => if id in base && t in latest
        then ShareIn(base, TermsOf(latest[t]), id, address, a) else 0
  }

  ghost function ShareOf(base: Channels, latest: Records, address: Address, a: Asset): TxId -> int {
    (t: TxId) => if t in latest then Share(base, TermsOf(latest[t]), address, a) else 0
  }

  lemma ChannelWealth(
      base: Channels, latest: Records, channels: Channels, applied: set<TxId>, id: ChannelId, address: Address,
      a: Asset)
    requires Registered(base) && SameParties(base, channels) && Balanced(base, latest, channels, applied) && id in base
    ensures OwnedIn(channels[id], address, a)
            == OwnedIn(base[id], address, a) + Sum(applied, Row(ShareTable(base, latest, address, a), id))
  {
    var left, right, row := Lane(id, Left, a), Lane(id, Right, a), Row(ShareTable(base, latest, address, a), id);
    assert BalanceAt(channels, left) == BalanceAt(base, left) + Net(base, latest, applied, left);
    assert BalanceAt(channels, right) == BalanceAt(base, right) + Net(base, latest, applied, right);
    if base[id].left == address {
      SumCongruent(applied, row, DeltaIn(base, latest, left));
    } else if base[id].right == address {
      SumCongruent(applied, row, DeltaIn(base, latest, right));
    } else {
      SumAllZero(applied, row);
    }
  }

  /** What an address owns at a hub: what it registered with, and its share of every applied transaction. */
  lemma WealthIsShares(
      base: Channels, latest: Records, channels: Channels, applied: set<TxId>, address: Address, a: Asset)
    requires Registered(base) && SameParties(base, channels) && Balanced(base, latest, channels, applied)
    ensures Wealth(channels, address, a) == Wealth(base, address, a) + Sum(applied, ShareOf(base, latest, address, a))
  {
    var table := ShareTable(base, latest, address, a);
    forall id | id in base.Keys
      ensures Owned(channels, address, a)(id) == Owned(base, address, a)(id) + RowSums(applied, table)(id)
    {
      ChannelWealth(base, latest, channels, applied, id, address, a);
    }
    SumPlus(base.Keys, Owned(base, address, a), RowSums(applied, table), Owned(channels, address, a));
    SumSwap(base.Keys, applied, table);
    forall t | t in applied ensures ColumnSums(base.Keys, table)(t) == ShareOf(base, latest, address, a)(t) {
      if t in latest {
        SumCongruent(base.Keys, Column(table, t), Shares(base, TermsOf(latest[t]), address, a));
      } else {
        SumAllZero(base.Keys, Column(table, t));
      }
    }
    SumCongruent(applied, ColumnSums(base.Keys, table), ShareOf(base, latest, address, a));
  }
}
