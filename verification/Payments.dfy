/** What a payment does to the money of a whole cluster. */
module Payments {
  import opened Prelude
  import opened SetSums
  import opened Transactions
  import opened Log
  import opened Ledger
  import opened HubLedger
  import opened Hub
  import opened HubRuns
  import opened Descriptors
  import opened TwoPhaseCommit
  import opened Agreement
  import opened Conservation
  import opened Cluster

  /** Balances of a hub move only by transactions it journaled a commit decision for. */
  lemma AppliedIsDecidedAt(c: Cluster, sites: Sites, q: Provider, t: TxId)
    requires ClusterInv(c, sites) && q in c.hubs && t in c.hubs[q].ledger.applied
    ensures RecordAt(WireOf(c), q, t).Some? && HasCommitDecision(RecordAt(WireOf(c), q, t).value.state)
  {
    assert q in sites;
    FineMeans(sites[q], c.hubs[q]);
    CommitOrderIsDecided(c.hubs[q].log);
  }

  /**
   Atomicity of money: if a hub moved balances for a transaction, its coordinator durably decided to
   commit it, and no hub ever journals an abort of it.
   */
  lemma MoneyMovesOnlyOnCommit(sites: Sites, c: Cluster, q: Provider, t: TxId, u: Provider, j: nat)
    requires (forall p :: p in sites ==> Registration(sites[p].base)) && Occurs(sites, c)
    requires q in c.hubs && t in c.hubs[q].ledger.applied
    requires u in c.hubs && j < |c.hubs[u].log| && c.hubs[u].log[j].txId == t
    ensures RecordAt(WireOf(c), q, t).Some?
    ensures CoordinatorCommits(WireOf(c), RecordAt(WireOf(c), q, t).value.coordinator, t)
    ensures c.hubs[u].log[j].coordinator == RecordAt(WireOf(c), q, t).value.coordinator ==>
              !HasAbortDecision(c.hubs[u].log[j].state)
  {
    OccursInv(sites, c);
    var n, lands := WireOf(c), Lands(sites);
    AppliedIsDecidedAt(c, sites, q, t);
    DecisionsAreTheCoordinators(n, lands, q, t);
    LatestIsLogged(c.hubs[q].log, t);
    RoleOf(n, lands, q, t);
    var i :| 0 <= i < |n.logs[q]| && n.logs[q][i] == RecordAt(n, q, t).value;
    assert n.logs[u] == c.hubs[u].log;
    if c.hubs[u].log[j].coordinator == RecordAt(n, q, t).value.coordinator {
      NoHubDisagrees(n, lands, q, i, u, j);
    }
  }

  // ----- a committed payment -----

  /** The coordinator and the participants of a transaction. */
  function Hubs(p: Provider, tx: Transaction): set<Provider> {
    {p} + set e | e in tx.participants :: e.descriptor.participant
  }

  /** Record of `q` for the committed transaction `tx` of coordinator `p`: its own hops of the path, settled. */
  ghost predicate SettledPart(
      c: Cluster, sites: Sites, p: Provider, tx: Transaction, payment: PaymentCommit, owners: seq<Provider>,
      q: Provider)
  {
    && Assigned(payment, owners)
    && q in c.hubs && q in sites && tx.txId in c.hubs[q].ledger.applied
    && RecordAt(WireOf(c), q, tx.txId).Some?
    && var part := RecordAt(WireOf(c), q, tx.txId).value;
    && part.localHops == HopsOwned(payment, owners, q, 0)
    && part.amountZhu == tx.amountZhu && part.amountSatoshi == tx.amountSatoshi
    && Registered(sites[q].base) && Fits(sites[q].base, TermsOf(part))
  }

  lemma CommittedPartFits(c: Cluster, sites: Sites, q: Provider, t: TxId)
    requires ClusterInv(c, sites) && q in c.hubs && RecordAt(WireOf(c), q, t).Some?
    requires IsCommitted(RecordAt(WireOf(c), q, t).value.state)
    ensures q in sites && t in c.hubs[q].ledger.applied
    ensures Registered(sites[q].base) && Fits(sites[q].base, TermsOf(RecordAt(WireOf(c), q, t).value))
  {
    assert q in sites;
    FineMeans(sites[q], c.hubs[q]);
    assert RecordAt(WireOf(c), q, t) == Lookup(Latest(c.hubs[q].log), t);
    assert !HasAbortDecision(Latest(c.hubs[q].log)[t].state);
  }

  lemma CoordinatorPart(c: Cluster, sites: Sites, p: Provider, tx: Transaction) returns (owners: seq<Provider>)
    requires ClusterInv(c, sites) && p in c.hubs && RecordAt(WireOf(c), p, tx.txId) == Some(tx)
    requires tx.state.CoordinatorCommitted?
    ensures Begun(p, tx, owners)
    ensures SettledPart(c, sites, p, tx, tx.participants[0].descriptor.payment, owners, p)
  {
    var n, lands := WireOf(c), Lands(sites);
    RoleOf(n, lands, p, tx.txId);
    owners := OwnersOf(n, lands, p, tx.txId);
    CommittedPartFits(c, sites, p, tx.txId);
  }

  lemma ParticipantPart(c: Cluster, sites: Sites, p: Provider, tx: Transaction, owners: seq<Provider>, k: nat)
    requires ClusterInv(c, sites) && p in c.hubs && RecordAt(WireOf(c), p, tx.txId) == Some(tx)
    requires tx.state.CoordinatorCommitted?
    requires Begun(p, tx, owners) && k < |tx.participants|
    ensures SettledPart(c, sites, p, tx, tx.participants[0].descriptor.payment, owners,
                        tx.participants[k].descriptor.participant)
  {
    var n, lands, q := WireOf(c), Lands(sites), tx.participants[k].descriptor.participant;
    CoordinatorRecord(n, lands, p, tx.txId);
    assert tx.participants[k].committed;
    FlagsAreNow(n, lands, p, tx.txId, k);
    CommittedPartFits(c, sites, q, tx.txId);
  }

  lemma EndsOfPath(c: Cluster, sites: Sites, p: Provider, tx: Transaction)
    requires ClusterInv(c, sites) && p in c.hubs && RecordAt(WireOf(c), p, tx.txId) == Some(tx)
    requires tx.state.CoordinatorCommitted?
    requires tx.participants != []
    ensures SimplePath(tx.participants[0].descriptor.payment)
  {
    var n, lands := WireOf(c), Lands(sites);
    RoleOf(n, lands, p, tx.txId);
    DecidedReachesAll(n, lands, p, tx.txId, 0);
    DescriptorIsSound(tx.participants[0].descriptor);
  }

  /** What each involved hub's settlement gives an address. */
  ghost function PartShares(c: Cluster, sites: Sites, t: TxId, address: Address, a: Asset): Provider -> int {
    (q: Provider) =>
      if q in c.hubs && q in sites then ShareOf(sites[q].base, Latest(c.hubs[q].log), address, a)(t) else 0
  }

  lemma PartIsGains(
      c: Cluster, sites: Sites, p: Provider, tx: Transaction, payment: PaymentCommit, owners: seq<Provider>,
      q: Provider, address: Address, a: Asset)
    requires SettledPart(c, sites, p, tx, payment, owners, q)
    ensures PartShares(c, sites, tx.txId, address, a)(q)
            == Gains(HopsOwned(payment, owners, q, 0), if a.Hac? then tx.amountZhu else tx.amountSatoshi, address)
  {
    var latest := Latest(c.hubs[q].log);
    assert RecordAt(WireOf(c), q, tx.txId) == Lookup(latest, tx.txId);
    var terms := TermsOf(latest[tx.txId]);
    assert Amount(terms, a) == if a.Hac? then tx.amountZhu else tx.amountSatoshi;
    ShareIsGains(sites[q].base, terms, address, a);
    assert terms.hops == HopsOwned(payment, owners, q, 0);
    assert ShareOf(sites[q].base, latest, address, a)(tx.txId) == Share(sites[q].base, terms, address, a);
    assert PartShares(c, sites, tx.txId, address, a)(q) == ShareOf(sites[q].base, latest, address, a)(tx.txId);
  }

  lemma OwnersAreInvolved(p: Provider, tx: Transaction, owners: seq<Provider>)
    requires Begun(p, tx, owners)
    ensures forall o :: o in owners ==> o in Hubs(p, tx)
    ensures var payment := tx.participants[0].descriptor.payment;
            Assigned(payment, owners)
  {
    forall o | o in owners ensures o in Hubs(p, tx) {
      if o != p {
        var i :| 0 <= i < |tx.participants| && tx.participants[i].descriptor.participant == o;
        assert tx.participants[i] in tx.participants;
      }
    }
  }

  lemma PartsAddUp(
      c: Cluster, sites: Sites, p: Provider, tx: Transaction, payment: PaymentCommit, owners: seq<Provider>,
      hubs: set<Provider>, address: Address, a: Asset)
    requires Assigned(payment, owners)
    requires forall o :: o in owners ==> o in hubs
    requires forall q :: q in hubs ==> SettledPart(c, sites, p, tx, payment, owners, q)
    ensures var amount := if a.Hac? then tx.amountZhu else tx.amountSatoshi;
            Sum(hubs, PartShares(c, sites, tx.txId, address, a))
            == EndToEnd(PathOf(payment), 0, amount, address)
  {
    var amount, parts := if a.Hac? then tx.amountZhu else tx.amountSatoshi, PartShares(c, sites, tx.txId, address, a);
    var gains := GainsAt(payment, owners, 0, amount, address);
    PathGains(payment, owners, hubs, amount, address);
    forall q | q in hubs ensures parts(q) == gains(q) {
      PartIsGains(c, sites, p, tx, payment, owners, q, address, a);
    }
    SumCongruent(hubs, parts, gains);
  }

  lemma AllParts(c: Cluster, sites: Sites, p: Provider, tx: Transaction) returns (owners: seq<Provider>)
    requires ClusterInv(c, sites) && p in c.hubs && RecordAt(WireOf(c), p, tx.txId) == Some(tx)
    requires tx.state.CoordinatorCommitted?
    ensures Begun(p, tx, owners)
    ensures forall q :: q in Hubs(p, tx) ==>
                SettledPart(c, sites, p, tx, tx.participants[0].descriptor.payment, owners, q)
  {
    owners := CoordinatorPart(c, sites, p, tx);
    forall q | q in Hubs(p, tx)
      ensures SettledPart(c, sites, p, tx, tx.participants[0].descriptor.payment, owners, q)
    {
      if q != p {
        var e :| e in tx.participants && e.descriptor.participant == q;
        var k :| 0 <= k < |tx.participants| && tx.participants[k] == e;
        ParticipantPart(c, sites, p, tx, owners, k);
      }
    }
  }

  /** The money an involved hub moves for `t`, summed over all of them. */
  ghost function TotalShare(c: Cluster, sites: Sites, p: Provider, tx: Transaction, address: Address, a: Asset): int {
    Sum(Hubs(p, tx), PartShares(c, sites, tx.txId, address, a))
  }

  lemma CommittedShares(c: Cluster, sites: Sites, p: Provider, tx: Transaction, address: Address, a: Asset)
    requires ClusterInv(c, sites) && p in c.hubs && RecordAt(WireOf(c), p, tx.txId) == Some(tx)
    requires tx.state.CoordinatorCommitted?
    ensures tx.participants != [] && SimplePath(tx.participants[0].descriptor.payment)
    ensures TotalShare(c, sites, p, tx, address, a)
            == EndToEnd(PathOf(tx.participants[0].descriptor.payment), 0, if a.Hac? then tx.amountZhu
                else tx.amountSatoshi, address)
    ensures forall q :: q in Hubs(p, tx) ==> q in c.hubs && tx.txId in c.hubs[q].ledger.applied
  {
    var owners := AllParts(c, sites, p, tx);
    var payment := tx.participants[0].descriptor.payment;
    EndsOfPath(c, sites, p, tx);
    OwnersAreInvolved(p, tx, owners);
    forall q | q in Hubs(p, tx) ensures q in c.hubs && tx.txId in c.hubs[q].ledger.applied {
      assert SettledPart(c, sites, p, tx, payment, owners, q);
    }
    PartsAddUp(c, sites, p, tx, payment, owners, Hubs(p, tx), address, a);
  }

  /**
   End to end: once a coordinator has recorded CoordinatorCommitted, the coordinator and every
   participant have moved their balances for it, and together they took the amount from the payer, gave
   it to the payee and left every other address where it was.
   */
  lemma CommittedPaymentIsConserved(sites: Sites, c: Cluster, p: Provider, tx: Transaction, address: Address, a: Asset)
    requires (forall p :: p in sites ==> Registration(sites[p].base)) && Occurs(sites, c)
    requires p in c.hubs && RecordAt(WireOf(c), p, tx.txId) == Some(tx) && tx.state.CoordinatorCommitted?
    ensures tx.participants != []
    ensures forall q :: q in Hubs(p, tx) ==> q in c.hubs && tx.txId in c.hubs[q].ledger.applied
    ensures var payment, amount := tx.participants[0].descriptor.payment, if a.Hac? then tx.amountZhu
                else tx.amountSatoshi;
            TotalShare(c, sites, p, tx, address, a)
            == if address == payment.payer then 0 - amount else if address == payment.payee then amount else 0
  {
    OccursInv(sites, c);
    CommittedShares(c, sites, p, tx, address, a);
    EndToEndWhole(tx.participants[0].descriptor.payment, if a.Hac? then tx.amountZhu else tx.amountSatoshi, address);
  }

  /**
   What an address owns at a hub, at any time: what it registered with plus its share of each transaction
   settled there.
   */
  lemma WealthAtHub(sites: Sites, c: Cluster, q: Provider, address: Address, a: Asset)
    requires (forall p :: p in sites ==> Registration(sites[p].base)) && Occurs(sites, c) && q in c.hubs
    ensures q in sites
    ensures Wealth(c.hubs[q].ledger.channels, address, a)
            == Wealth(sites[q].base, address, a)
               + Sum(c.hubs[q].ledger.applied, ShareOf(sites[q].base, Latest(c.hubs[q].log), address, a))
  {
    OccursInv(sites, c);
    assert q in sites;
    FineMeans(sites[q], c.hubs[q]);
    WealthIsShares(sites[q].base, Latest(c.hubs[q].log), c.hubs[q].ledger.channels, c.hubs[q].ledger.applied, address,
                   a);
  }
}
