/**
 One concrete payment over two hubs, a to b to c to d, and the steps that carry it: the first two channels
 belong to hub P, which coordinates, the last to hub Q.
 */
module SampleRuns {
  import opened Prelude
  import opened Transactions
  import opened Log
  import opened Ledger
  import opened HubLedger
  import opened Hub
  import opened Descriptors
  import opened TwoPhaseCommit
  import opened Cluster
  import opened Completion
  import Amounts
  import Text

  const P: Provider := "hub-p"
  const Q: Provider := "hub-q"

  /** Later payments expire later. */
  function Expires(t: TxId): nat { 1_800_000_000 + 3_600 * t.bits }

  /** A channel id of 32 equal digits. */
  function Id(digit: char): ChannelId { seq(32, i => digit) }

  function C1(): ChannelId { Id('1') }

  function C2(): ChannelId { Id('2') }

  function C3(): ChannelId { Id('3') }

  function Chan(a: Address, b: Address, balance: nat): Channel { Channel(a, b, balance, 0, 0, 0, None) }

  function BaseP(): Channels { map[C1() := Chan("a", "b", 10), C2() := Chan("b", "c", 10)] }

  function BaseQ(balance: nat): Channels { map[C3() := Chan("c", "d", balance)] }

  /** Hub P allows `maxHops` hops; at hub Q the sender owns `balance`. */
  function Hubs(maxHops: nat, balance: nat): Sites {
    map[P := Site(BaseP(), maxHops), Q := Site(BaseQ(balance), 8)]
  }

  function HopsP(): seq<Hop> { [Hop(C1(), "a", "b"), Hop(C2(), "b", "c")] }

  function HopsQ(): seq<Hop> { [Hop(C3(), "c", "d")] }

  function TermsP(t: TxId): Terms { Terms(10, 0, HopsP(), Expires(t)) }

  function TermsQ(t: TxId): Terms { Terms(10, 0, HopsQ(), Expires(t)) }

  function Signers(): seq<Address> { ["d", "c", "b", "a"] }

  /** What the users sign: 10 Zhu, written as `create_payment` normalizes it. */
  function Commit(t: TxId): PaymentCommit {
    PaymentCommit(t, P, "a", "d", Amounts.Formatted(10), 0, "0", [C1(), C2(), C3()], Signers(), 0)
  }

  function Offer(t: TxId): Descriptor {
    Descriptor(t, P, "", Q, Commit(t), PaymentDigest(Commit(t)), 10, 0, Expires(t), HopsQ())
  }

  function Signatures(): seq<Signature> {
    [Signature("d", 0), Signature("c", 1), Signature("b", 2), Signature("a", 3)]
  }

  function Session(t: TxId, signed: bool): Payment {
    Payment(t, PaymentDigest(Commit(t)), Signers(), if signed then Signatures() else [])
  }

  /** The coordinator's records. */
  function Rec(t: TxId, state: TxState, prepared: bool, signed: bool): Transaction {
    Transaction(t, Coordinator, state, P, "", PaymentDigest(Commit(t)), 10, 0, Expires(t), HopsP(),
                [ParticipantEntry(Offer(t), DescriptorDigest(Offer(t)), prepared, false, false)],
                Some(Session(t, signed)), None, 0, 0, "")
  }

  /** The participant's first record. */
  function Part(t: TxId): Transaction { FirstRecord(Offer(t), ParticipantPrepared, 0) }

  function Asking(t: TxId): Request { Request(PreparePhase, Offer(t), []) }

  function Owners(): seq<Provider> { [P, P, Q] }

  // ----- the payment is a real one -----

  lemma IdDiffers(a: char, b: char)
    requires a != b
    ensures Id(a) != Id(b)
  {
    assert Id(a)[0] != Id(b)[0];
  }

  lemma IdsDiffer()
    ensures C1() != C2() && C1() != C3() && C2() != C3()
  {
    IdDiffers('1', '2');
    IdDiffers('1', '3');
    IdDiffers('2', '3');
  }

  lemma IdIsNormal(digit: char)
    requires '0' < digit <= '9'
    ensures IsNormalized(Id(digit)) && NormalizeChannelId(Id(digit)) == Some(Id(digit))
  {
    var id := Id(digit);
    assert |id| == 32 && forall i :: 0 <= i < 32 ==> id[i] == digit;
    assert Text.TrimStart(id) == id && Text.TrimEnd(id) == id;
    assert StripPrefixes(id) == id;
    assert seq(|id|, i requires 0 <= i < |id| => Lower(id[i])) == id;
  }

  lemma AddressTrims(a: Address)
    requires |a| == 1 && !Text.IsWhitespace(a[0])
    ensures Text.Trim(a) == a
  {
  }

  lemma AmountIsTen()
    ensures Amounts.Parsed(Amounts.Formatted(10)) == Ok(10)
  {
    Amounts.RoundTrip(10);
  }

  lemma PathIsReversed(t: TxId)
    ensures PathOf(Commit(t)) == ["a", "b", "c", "d"]
  {
    var s := Signers();
    assert |PathOf(Commit(t))| == 4;
    assert forall i :: 0 <= i < 4 ==> PathOf(Commit(t))[i] == s[3 - i];
  }

  lemma PathIsSimple(t: TxId)
    ensures SimplePath(Commit(t)) && PathHop(Commit(t), 0) == HopsP()[0] && PathHop(Commit(t), 1) == HopsP()[1]
    ensures PathHop(Commit(t), 2) == HopsQ()[0]
  {
    IdsDiffer();
    PathIsReversed(t);
  }

  lemma OfferIsSound(t: TxId)
    ensures CheckPayment(Offer(t)).None?
  {
    AmountIsTen();
    PathIsSimple(t);
    assert PathHop(Commit(t), 2) in HopsQ();
    DescriptorIsSound(Offer(t));
  }

  lemma OfferIsCovered(t: TxId)
    ensures CheckCoverage({C3()}, Offer(t)).None?
  {
    IdsDiffer();
    IdIsNormal('1');
    IdIsNormal('2');
    IdIsNormal('3');
    var owned := set id | id in Commit(t).route && Owns({C3()}, id);
    assert C3() in Commit(t).route;
    assert owned == {C3()};
    assert HopsQ()[0] in HopsQ();
    assert ChannelsOf(HopsQ()) == {C3()};
  }

  /** Hub Q's checks accept the request to prepare. */
  lemma AskingPasses(t: TxId)
    ensures CheckRequest({C3()}, Asking(t)).None?
  {
    OfferIsSound(t);
    OfferIsCovered(t);
    SoundAndCovered({C3()}, Asking(t));
  }

  lemma SoundAndCovered(channels: set<ChannelId>, r: Request)
    requires CheckPayment(r.descriptor).None? && CheckCoverage(channels, r.descriptor).None?
    requires !r.phase.CommitPhase? && r.signatures == [] && r.descriptor.coordinator != r.descriptor.participant
    requires r.descriptor.paymentHash.PaymentDigest? && 1 <= |r.descriptor.hops| <= MAX_ROUTE
    ensures CheckRequest(channels, r).None?
  {
  }

  lemma PositionOf(r: seq<Address>, i: nat)
    requires Distinct(r) && i < |r|
    ensures Position(r, r[i]) == Some(i)
  {
  }

  lemma InTurn(s: seq<Signature>, r: seq<Address>)
    requires |s| == |r| && Distinct(r) && forall i :: 0 <= i < |s| ==> s[i] == Signature(r[i], i)
    ensures SignedInOrder(s, r) && AllSigned(s, r)
  {
    forall k | 0 <= k < |s| ensures Position(r, s[k].address) == Some(s[k].orderIndex) {
      PositionOf(r, k);
    }
    forall a | a in r ensures exists k :: 0 <= k < |s| && s[k].address == a {
      var i :| 0 <= i < |r| && r[i] == a;
      assert s[i].address == a;
    }
  }

  lemma SignedInTurn()
    ensures SignedInOrder(Signatures(), Signers()) && AllSigned(Signatures(), Signers())
  {
    var s, r := Signatures(), Signers();
    assert s[0] == Signature(r[0], 0) && s[1] == Signature(r[1], 1) && s[2] == Signature(r[2], 2)
        && s[3] == Signature(r[3], 3);
    InTurn(s, r);
  }

  lemma SessionsFitting(t: TxId, state: TxState, prepared: bool, signed: bool)
    ensures SessionFits(Rec(t, state, prepared, signed))
  {
    SignedInTurn();
  }

  lemma HopsOfP(t: TxId)
    ensures HopsOwned(Commit(t), Owners(), P, 0) == HopsP() && HopsOwned(Commit(t), Owners(), Q, 0) == HopsQ()
  {
    PathIsSimple(t);
    var c, o := Commit(t), Owners();
    assert HopsOwned(c, o, P, 3) == [] && HopsOwned(c, o, Q, 3) == [];
    assert HopsOwned(c, o, P, 2) == [] && HopsOwned(c, o, Q, 2) == HopsQ();
    assert HopsOwned(c, o, P, 1) == [HopsP()[1]] && HopsOwned(c, o, Q, 1) == HopsQ();
  }

  lemma RecIsBegun(t: TxId)
    ensures Begun(P, Rec(t, CoordinatorPreparing, false, false), Owners())
  {
    AmountIsTen();
    HopsOfP(t);
    var tx := Rec(t, CoordinatorPreparing, false, false);
    forall o | o in Owners() && o != P ensures exists i ::
        0 <= i < |tx.participants| && tx.participants[i].descriptor.participant == o {
      assert tx.participants[0].descriptor.participant == o;
    }
  }

  // ----- the journal accepts its records -----

  lemma FirstIsAccepted(t: TxId)
    ensures MayFollow(None, Rec(t, CoordinatorPreparing, false, false)) && MayFollow(None, Part(t))
  {
  }

  lemma NextIsAccepted(t: TxId, a: TxState, b: TxState, p: bool, q: bool, s: bool, r: bool)
    requires IsCoordinatorState(a) && IsCoordinatorState(b) && StateMayFollow(a, b) && (p ==> q)
    ensures MayFollow(Some(Rec(t, a, p, s)), Rec(t, b, q, r))
  {
    EntriesAccepted(Rec(t, a, p, s).participants, Rec(t, b, q, r).participants);
  }

  lemma Registrations(maxHops: nat, balance: nat)
    requires balance <= 20
    ensures forall p :: p in Hubs(maxHops, balance) ==> Registration(Hubs(maxHops, balance)[p].base)
  {
    IdsDiffer();
  }

  // ----- steps -----

  /** A state of the two hubs that some run from their founding reaches. */
  ghost predicate Reached(c: Cluster, sites: Sites) {
    Occurs(sites, c) && c.hubs.Keys == {P, Q}
  }

  lemma OneStep(c: Cluster, sites: Sites, s: ClusterStep) returns (c2: Cluster)
    requires Reached(c, sites) && Possible(c, sites, s)
    ensures Reached(c2, sites) && c2 == Stepped(c, sites, s)
  {
    c2 := Stepped(c, sites, s);
    var steps :| Run(Founded(sites), sites, steps) == Some(c);
    RunOne(c, sites, s);
    RunTwice(Founded(sites), sites, steps, [s]);
    assert Run(Founded(sites), sites, steps + [s]) == Some(c2);
  }

  lemma Start(maxHops: nat, balance: nat) returns (c: Cluster)
    requires balance <= 20
    ensures Reached(c, Hubs(maxHops, balance)) && c.requests == {} && c.responses == {}
    ensures c.hubs[P] == Fresh(BaseP()) && c.hubs[Q] == Fresh(BaseQ(balance))
  {
    c := Founded(Hubs(maxHops, balance));
    assert Run(c, Hubs(maxHops, balance), []) == Some(c);
  }

  lemma LocalStep(c: Cluster, sites: Sites, p: Provider, s: Step) returns (c2: Cluster)
    requires Reached(c, sites) && p in c.hubs && p in sites && !s.Append? && Enabled(c.hubs[p], sites[p].maxHops, s)
    ensures Reached(c2, sites) && c2 == c.(hubs := c.hubs[p := Next(c.hubs[p], sites[p].maxHops, s)])
  {
    c2 := OneStep(c, sites, Local(p, s));
  }

  lemma RecordsOf(c: Cluster, p: Provider, t: TxId)
    requires p in c.hubs
    ensures RecordAt(WireOf(c), p, t) == Lookup(Latest(c.hubs[p].log), t)
    ensures WireOf(c).requests == c.requests && WireOf(c).responses == c.responses
  {
  }

  /** The hub after it appended a record. */
  function With(h: Hub, tx: Transaction): Hub { Appended(h, tx) }

  lemma AppendStep(c: Cluster, sites: Sites, p: Provider, m: NetStep, tx: Transaction) returns (c2: Cluster)
    requires Reached(c, sites) && p in c.hubs && p in sites && Allowed(WireOf(c), Lands(sites), m)
    requires Appending(WireOf(c), m) == Some((p, tx)) && ActorOf(Protocol(m)) == p
    requires HubMay(c.hubs[p], sites[p].maxHops, tx)
    requires m.Begin? || m.Advance? || m.Handle?
    ensures Reached(c2, sites) && c2 == c.(hubs := c.hubs[p := With(c.hubs[p], tx)])
    ensures Latest(c2.hubs[p].log) == Latest(c.hubs[p].log)[tx.txId := tx]
  {
    c2 := OneStep(c, sites, Protocol(m));
    Extended(c.hubs[p].log, tx);
  }

  // ----- liquidity -----

  lemma NothingHeld(channel: ChannelId, from: Address, a: Asset)
    ensures Held(map[], channel, from, a) == 0
  {
  }

  lemma ShapeOfP()
    ensures CheckShape(HopsP(), {}).None?
  {
    IdsDiffer();
    IdIsNormal('1');
    IdIsNormal('2');
    AddressTrims("a");
    AddressTrims("b");
    AddressTrims("c");
    assert HopsP()[1..] == [HopsP()[1]] && HopsP()[1..][1..] == [];
    assert CheckShape(HopsP()[1..], {C1()}).None?;
  }

  lemma ShapeOfQ()
    ensures CheckShape(HopsQ(), {}).None?
  {
    IdIsNormal('3');
    AddressTrims("c");
    AddressTrims("d");
    assert HopsQ()[1..] == [];
  }

  lemma LiquidP(t: TxId)
    ensures CheckHops(Ledger(BaseP(), map[], {}), TermsP(t), HopsP()).None?
  {
    var l := Ledger(BaseP(), map[], {});
    IdsDiffer();
    NothingHeld(C1(), "a", Hac);
    NothingHeld(C1(), "a", Satoshi);
    NothingHeld(C2(), "b", Hac);
    NothingHeld(C2(), "b", Satoshi);
    var hops := HopsP();
    assert CheckHop(l, TermsP(t), hops[0]).None? && CheckHop(l, TermsP(t), hops[1]).None?;
    assert hops[1..][0] == hops[1] && hops[1..][1..] == [];
    assert CheckHops(l, TermsP(t), hops[1..]).None?;
  }

  /** Hub Q's side has ten more to give. */
  ghost predicate RoomAtQ(l: Ledger, balance: nat) {
    l.channels == BaseQ(balance) && Held(l.reservations, C3(), "c", Hac) + 10 <= balance <= 20
        && Held(l.reservations, C3(), "c", Satoshi) == 0
  }

  lemma LiquidQ(l: Ledger, balance: nat, t: TxId)
    requires RoomAtQ(l, balance)
    ensures CheckHops(l, TermsQ(t), HopsQ()).None?
  {
    assert CheckHop(l, TermsQ(t), HopsQ()[0]).None?;
    assert HopsQ()[1..] == [];
  }

  lemma EmptyHasRoom(balance: nat)
    requires 10 <= balance <= 20
    ensures RoomAtQ(Ledger(BaseQ(balance), map[], {}), balance)
  {
    NothingHeld(C3(), "c", Hac);
    NothingHeld(C3(), "c", Satoshi);
  }

  lemma HeldByOne(t: TxId)
    ensures RoomAtQ(Ledger(BaseQ(20), map[t := TermsQ(t)], {}), 20)
  {
    NothingHeld(C3(), "c", Hac);
    NothingHeld(C3(), "c", Satoshi);
    HeldAdd(map[], t, TermsQ(t), C3(), "c", Hac);
    HeldAdd(map[], t, TermsQ(t), C3(), "c", Satoshi);
    assert HopsQ()[0].channelId == C3();
    assert map[][t := TermsQ(t)] == map[t := TermsQ(t)];
  }

  // ----- each step is allowed -----

  lemma BeginAllowed(n: Wire, lands: Territory, t: TxId)
    requires P in n.logs && RecordAt(n, P, t).None?
    ensures Allowed(n, lands, Begin(P, Rec(t, CoordinatorPreparing, false, false), Owners()))
  {
    RecIsBegun(t);
    FirstIsAccepted(t);
    SessionsFitting(t, CoordinatorPreparing, false, false);
  }

  lemma HubMayBegin(h: Hub, maxHops: nat, t: TxId)
    requires h.up && t !in Latest(h.log) && t in h.ledger.reservations && h.ledger.reservations[t] == TermsP(t)
    ensures HubMay(h, maxHops, Rec(t, CoordinatorPreparing, false, false))
  {
    FirstIsAccepted(t);
  }

  lemma SendAllowed(n: Wire, lands: Territory, t: TxId)
    requires RecordAt(n, P, t) == Some(Rec(t, CoordinatorPreparing, false, false))
    ensures Allowed(n, lands, Send(P, t, 0, PreparePhase))
    ensures RequestFor(Rec(t, CoordinatorPreparing, false, false), 0, PreparePhase) == Asking(t)
  {
  }

  lemma HandleAllowed(n: Wire, lands: Territory, t: TxId)
    requires Q in n.logs && Q in lands && lands[Q] == {C3()} && Asking(t) in n.requests && RecordAt(n, Q, t).None?
    ensures Allowed(n, lands, Handle(Q, Asking(t), 0)) && Appending(n, Handle(Q, Asking(t), 0)) == Some((Q, Part(t)))
  {
    AskingPasses(t);
  }

  lemma HubMayAccept(h: Hub, maxHops: nat, t: TxId)
    requires h.up && t !in Latest(h.log) && t in h.ledger.reservations && h.ledger.reservations[t] == TermsQ(t)
    requires maxHops >= 1
    ensures HubMay(h, maxHops, Part(t))
  {
    FirstIsAccepted(t);
  }

  lemma AnswersPrepared(t: TxId)
    ensures ReplyState(Some(Part(t)), Asking(t)) == Some(ParticipantPrepared)
  {
  }

  lemma ReplyAllowed(n: Wire, lands: Territory, t: TxId)
    requires Q in n.logs && Q in lands && lands[Q] == {C3()} && Asking(t) in n.requests
    requires RecordAt(n, Q, t) == Some(Part(t))
    ensures Allowed(n, lands, Reply(Q, Asking(t)))
  {
    AskingPasses(t);
    AnswersPrepared(t);
  }

  lemma LandsOfQ(maxHops: nat, balance: nat)
    ensures Q in Lands(Hubs(maxHops, balance)) && Lands(Hubs(maxHops, balance))[Q] == {C3()}
    ensures P in Hubs(maxHops, balance) && Q in Hubs(maxHops, balance)
    ensures Hubs(maxHops, balance)[P] == Site(BaseP(), maxHops) && Hubs(maxHops, balance)[Q] == Site(BaseQ(balance), 8)
  {
  }

  // ----- what a payment goes through -----

  /** The hub runs on with the same snapshot, and none of its payments was closed or lost its reservation meanwhile. */
  predicate RunsOn(h: Hub, g: Hub) {
    && h.up && g.up && g.saved == h.saved && g.kept == h.kept
    && g.sessions.closed == h.sessions.closed && g.sessions.lost == h.sessions.lost
  }

  /** Hub P creates the payment and sends the request to prepare it. */
  lemma Offers(c: Cluster, maxHops: nat, balance: nat, t: TxId) returns (c2: Cluster)
    requires Reached(c, Hubs(maxHops, balance)) && c.hubs[P].up && t !in Latest(c.hubs[P].log)
    requires c.hubs[P].ledger == Ledger(BaseP(), map[], {})
    ensures Reached(c2, Hubs(maxHops, balance)) && RunsOn(c.hubs[P], c2.hubs[P]) && c2.hubs[Q] == c.hubs[Q]
    ensures c2.hubs[P].ledger == Ledger(BaseP(), map[t := TermsP(t)], {}) && t in c2.hubs[P].sessions.preparing
    ensures Latest(c2.hubs[P].log) == Latest(c.hubs[P].log)[t := Rec(t, CoordinatorPreparing, false, false)]
    ensures c2.requests == c.requests + {Asking(t)} && c2.responses == c.responses
  {
    var c1 := Reserves(c, maxHops, balance, t);
    c2 := OffersReserved(c1, maxHops, balance, t);
  }

  lemma Reserves(c: Cluster, maxHops: nat, balance: nat, t: TxId) returns (c2: Cluster)
    requires Reached(c, Hubs(maxHops, balance)) && c.hubs[P].up && t !in Latest(c.hubs[P].log)
    requires c.hubs[P].ledger == Ledger(BaseP(), map[], {})
    ensures Reached(c2, Hubs(maxHops, balance))
    ensures c2 == c.(hubs := c.hubs[P := c.hubs[P].(ledger := Ledger(BaseP(), map[t := TermsP(t)], {}))])
  {
    ShapeOfP();
    LiquidP(t);
    c2 := LocalStep(c, Hubs(maxHops, balance), P, Reserve(t, TermsP(t)));
    assert map[][t := TermsP(t)] == map[t := TermsP(t)];
  }

  lemma OffersReserved(c: Cluster, maxHops: nat, balance: nat, t: TxId) returns (c2: Cluster)
    requires Reached(c, Hubs(maxHops, balance)) && c.hubs[P].up && t !in Latest(c.hubs[P].log)
    requires c.hubs[P].ledger == Ledger(BaseP(), map[t := TermsP(t)], {})
    ensures Reached(c2, Hubs(maxHops, balance)) && RunsOn(c.hubs[P], c2.hubs[P]) && c2.hubs[Q] == c.hubs[Q]
    ensures c2.hubs[P].ledger == c.hubs[P].ledger && t in c2.hubs[P].sessions.preparing
    ensures Latest(c2.hubs[P].log) == Latest(c.hubs[P].log)[t := Rec(t, CoordinatorPreparing, false, false)]
    ensures c2.requests == c.requests + {Asking(t)} && c2.responses == c.responses
  {
    var c1 := Begins(c, maxHops, balance, t);
    RecordsOf(c1, P, t);
    SendAllowed(WireOf(c1), Lands(Hubs(maxHops, balance)), t);
    c2 := OneStep(c1, Hubs(maxHops, balance), Protocol(Send(P, t, 0, PreparePhase)));
  }

  lemma Begins(c: Cluster, maxHops: nat, balance: nat, t: TxId) returns (c2: Cluster)
    requires Reached(c, Hubs(maxHops, balance)) && c.hubs[P].up && t !in Latest(c.hubs[P].log)
    requires c.hubs[P].ledger == Ledger(BaseP(), map[t := TermsP(t)], {})
    ensures Reached(c2, Hubs(maxHops, balance)) && RunsOn(c.hubs[P], c2.hubs[P])
    ensures c2 == c.(hubs := c.hubs[P := c2.hubs[P]])
    ensures c2.hubs[P].ledger == c.hubs[P].ledger && t in c2.hubs[P].sessions.preparing
    ensures Latest(c2.hubs[P].log) == Latest(c.hubs[P].log)[t := Rec(t, CoordinatorPreparing, false, false)]
  {
    var sites, tx := Hubs(maxHops, balance), Rec(t, CoordinatorPreparing, false, false);
    LandsOfQ(maxHops, balance);
    RecordsOf(c, P, t);
    BeginAllowed(WireOf(c), Lands(sites), t);
    HubMayBegin(c.hubs[P], maxHops, t);
    c2 := BeginsWith(c, sites, tx);
  }

  lemma BeginsWith(c: Cluster, sites: Sites, tx: Transaction) returns (c2: Cluster)
    requires Reached(c, sites) && P in sites && tx.state.CoordinatorPreparing? && tx.txId !in Latest(c.hubs[P].log)
    requires c.hubs[P].up
    requires Allowed(WireOf(c), Lands(sites), Begin(P, tx, Owners())) && HubMay(c.hubs[P], sites[P].maxHops, tx)
    ensures Reached(c2, sites) && RunsOn(c.hubs[P], c2.hubs[P]) && c2 == c.(hubs := c.hubs[P := c2.hubs[P]])
    ensures c2.hubs[P].ledger == c.hubs[P].ledger && tx.txId in c2.hubs[P].sessions.preparing
    ensures Latest(c2.hubs[P].log) == Latest(c.hubs[P].log)[tx.txId := tx]
  {
    c2 := AppendStep(c, sites, P, Begin(P, tx, Owners()), tx);
  }

  /** Hub Q reserves and journals the prepare. */
  lemma Accepts(c: Cluster, maxHops: nat, balance: nat, t: TxId) returns (c2: Cluster)
    requires Reached(c, Hubs(maxHops, balance)) && c.hubs[Q].up && Asking(t) in c.requests
    requires t !in Latest(c.hubs[Q].log)
    requires RoomAtQ(c.hubs[Q].ledger, balance) && t !in c.hubs[Q].ledger.reservations && t !in c.hubs[Q].ledger.applied
    ensures Reached(c2, Hubs(maxHops, balance)) && RunsOn(c.hubs[Q], c2.hubs[Q])
    ensures c2 == c.(hubs := c.hubs[Q := c2.hubs[Q]])
    ensures c2.hubs[Q].ledger == c.hubs[Q].ledger.(reservations := c.hubs[Q].ledger.reservations[t := TermsQ(t)])
    ensures Latest(c2.hubs[Q].log) == Latest(c.hubs[Q].log)[t := Part(t)]
  {
    var sites := Hubs(maxHops, balance);
    LandsOfQ(maxHops, balance);
    ShapeOfQ();
    LiquidQ(c.hubs[Q].ledger, balance, t);
    var c1 := LocalStep(c, sites, Q, Reserve(t, TermsQ(t)));
    c2 := AcceptsReserved(c1, maxHops, balance, t);
  }

  lemma AcceptsReserved(c: Cluster, maxHops: nat, balance: nat, t: TxId) returns (c2: Cluster)
    requires Reached(c, Hubs(maxHops, balance)) && c.hubs[Q].up && Asking(t) in c.requests
    requires t !in Latest(c.hubs[Q].log)
    requires t in c.hubs[Q].ledger.reservations && c.hubs[Q].ledger.reservations[t] == TermsQ(t)
    ensures Reached(c2, Hubs(maxHops, balance)) && RunsOn(c.hubs[Q], c2.hubs[Q])
    ensures c2 == c.(hubs := c.hubs[Q := c2.hubs[Q]])
    ensures c2.hubs[Q].ledger == c.hubs[Q].ledger && Latest(c2.hubs[Q].log) == Latest(c.hubs[Q].log)[t := Part(t)]
  {
    var sites := Hubs(maxHops, balance);
    LandsOfQ(maxHops, balance);
    RecordsOf(c, Q, t);
    HandleAllowed(WireOf(c), Lands(sites), t);
    HubMayAccept(c.hubs[Q], 8, t);
    c2 := AppendStep(c, sites, Q, Handle(Q, Asking(t), 0), Part(t));
  }

  /** Hub Q acknowledges the prepare it journaled, at once or when a duplicate request arrives. */
  lemma Answers(c: Cluster, maxHops: nat, balance: nat, t: TxId) returns (c2: Cluster)
    requires Reached(c, Hubs(maxHops, balance)) && c.hubs[Q].up && Asking(t) in c.requests
    requires t in Latest(c.hubs[Q].log) && Latest(c.hubs[Q].log)[t] == Part(t)
    ensures Reached(c2, Hubs(maxHops, balance))
    ensures c2 == c.(responses := c.responses + {Acknowledgement(PreparePhase, Offer(t))})
  {
    RecordsOf(c, Q, t);
    LandsOfQ(maxHops, balance);
    ReplyAllowed(WireOf(c), Lands(Hubs(maxHops, balance)), t);
    AnswersPrepared(t);
    c2 := OneStep(c, Hubs(maxHops, balance), Protocol(Reply(Q, Asking(t))));
  }

  ghost predicate MayAdvanceUnfolded(u: Unfolding, responses: set<Response>, a: Transaction, b: Transaction) {
    MayFollow(Some(a), b) && CoordinatorMay(responses, a, b)
  }

  /** Journal and protocol allow the coordinator's record `b` after `a`. */
  ghost predicate MayAdvance(responses: set<Response>, a: Transaction, b: Transaction) {
    forall u: Unfolding :: MayAdvanceUnfolded(u, responses, a, b)
  }

  lemma MayAdvanceMeans(responses: set<Response>, a: Transaction, b: Transaction)
    ensures MayAdvance(responses, a, b) <==> MayFollow(Some(a), b) && CoordinatorMay(responses, a, b)
  {
    assert MayAdvanceUnfolded(Unfolding, responses, a, b) <==> MayFollow(Some(a), b) && CoordinatorMay(responses, a, b);
  }

  /** Hub P appends its next record. */
  lemma Advances(c: Cluster, maxHops: nat, balance: nat, t: TxId, a: Transaction, b: Transaction) returns (c2: Cluster)
    requires Reached(c, Hubs(maxHops, balance)) && c.hubs[P].up && Lookup(Latest(c.hubs[P].log), t) == Some(a)
    requires a.role.Coordinator? && b.txId == t && MayAdvance(c.responses, a, b)
    requires a.state.CoordinatorPreparing? && b.state.CoordinatorPrepared? ==> t in c.hubs[P].sessions.preparing
    requires b.state.CoordinatorCommitDecided? ==> t !in c.hubs[P].sessions.closed
    requires !IsCommitted(b.state) && (HasAbortDecision(b.state) ==> t !in c.hubs[P].sessions.lost)
    ensures Reached(c2, Hubs(maxHops, balance)) && RunsOn(c.hubs[P], c2.hubs[P])
    ensures c2 == c.(hubs := c.hubs[P := c2.hubs[P]])
    ensures c2.hubs[P].ledger == c.hubs[P].ledger && Latest(c2.hubs[P].log) == Latest(c.hubs[P].log)[t := b]
    ensures b.state.CoordinatorPreparing? ==> c2.hubs[P].sessions == c.hubs[P].sessions
  {
    RecordsOf(c, P, t);
    MayAdvanceMeans(c.responses, a, b);
    c2 := AppendStep(c, Hubs(maxHops, balance), P, Advance(P, b), b);
  }

  lemma AckMay(t: TxId, responses: set<Response>)
    requires Acknowledgement(PreparePhase, Offer(t)) in responses
    ensures MayAdvance(responses, Rec(t, CoordinatorPreparing, false, false), Rec(t, CoordinatorPreparing, true, false))
  {
    SessionsFitting(t, CoordinatorPreparing, true, false);
    NextIsAccepted(t, CoordinatorPreparing, CoordinatorPreparing, false, true, false, false);
    MayAdvanceMeans(responses, Rec(t, CoordinatorPreparing, false, false), Rec(t, CoordinatorPreparing, true, false));
  }

  lemma PreparedMay(t: TxId, responses: set<Response>)
    ensures MayAdvance(responses, Rec(t, CoordinatorPreparing, true, false), Rec(t, CoordinatorPrepared, true, false))
  {
    SessionsFitting(t, CoordinatorPrepared, true, false);
    NextIsAccepted(t, CoordinatorPreparing, CoordinatorPrepared, true, true, false, false);
    MayAdvanceMeans(responses, Rec(t, CoordinatorPreparing, true, false), Rec(t, CoordinatorPrepared, true, false));
  }

  lemma DecidedMay(t: TxId, responses: set<Response>)
    ensures MayAdvance(responses, Rec(t, CoordinatorPrepared, true, false),
                       Rec(t, CoordinatorCommitDecided, true, true))
  {
    SessionsFitting(t, CoordinatorCommitDecided, true, true);
    SignedInTurn();
    NextIsAccepted(t, CoordinatorPrepared, CoordinatorCommitDecided, true, true, false, true);
    MayAdvanceMeans(responses, Rec(t, CoordinatorPrepared, true, false), Rec(t, CoordinatorCommitDecided, true, true));
  }

  lemma AbortMay(t: TxId, responses: set<Response>)
    ensures MayAdvance(responses, Rec(t, CoordinatorPreparing, false, false),
                       Rec(t, CoordinatorAbortDecided, false, false))
  {
    SessionsFitting(t, CoordinatorAbortDecided, false, false);
    NextIsAccepted(t, CoordinatorPreparing, CoordinatorAbortDecided, false, false, false, false);
    MayAdvanceMeans(responses, Rec(t, CoordinatorPreparing, false, false),
                    Rec(t, CoordinatorAbortDecided, false, false));
  }

  /** Hub P journals the acknowledgement, then that everyone is prepared. */
  lemma Collects(c: Cluster, maxHops: nat, balance: nat, t: TxId) returns (c2: Cluster)
    requires Reached(c, Hubs(maxHops, balance)) && c.hubs[P].up && t in c.hubs[P].sessions.preparing
    requires Lookup(Latest(c.hubs[P].log), t) == Some(Rec(t, CoordinatorPreparing, false, false))
    requires Acknowledgement(PreparePhase, Offer(t)) in c.responses
    ensures Reached(c2, Hubs(maxHops, balance)) && RunsOn(c.hubs[P], c2.hubs[P])
    ensures c2 == c.(hubs := c.hubs[P := c2.hubs[P]])
    ensures c2.hubs[P].ledger == c.hubs[P].ledger
    ensures Latest(c2.hubs[P].log) == Latest(c.hubs[P].log)[t := Rec(t, CoordinatorPrepared, true, false)]
  {
    var r0, r1, r2 := Rec(t, CoordinatorPreparing, false, false), Rec(t, CoordinatorPreparing, true, false),
                      Rec(t, CoordinatorPrepared, true, false);
    AckMay(t, c.responses);
    PreparedMay(t, c.responses);
    c2 := CollectsWith(c, maxHops, balance, t, r0, r1, r2);
  }

  lemma CollectsWith(c: Cluster, maxHops: nat, balance: nat, t: TxId, r0: Transaction, r1: Transaction, r2: Transaction)
    returns (c2: Cluster)
    requires Reached(c, Hubs(maxHops, balance)) && c.hubs[P].up && t in c.hubs[P].sessions.preparing
    requires Lookup(Latest(c.hubs[P].log), t) == Some(r0) && r0.role.Coordinator? && r1.role.Coordinator?
    requires r1.txId == r2.txId == t && r1.state.CoordinatorPreparing? && r2.state.CoordinatorPrepared?
    requires MayAdvance(c.responses, r0, r1) && MayAdvance(c.responses, r1, r2)
    ensures Reached(c2, Hubs(maxHops, balance)) && RunsOn(c.hubs[P], c2.hubs[P])
    ensures c2 == c.(hubs := c.hubs[P := c2.hubs[P]])
    ensures c2.hubs[P].ledger == c.hubs[P].ledger && Latest(c2.hubs[P].log) == Latest(c.hubs[P].log)[t := r2]
  {
    var c1 := Advances(c, maxHops, balance, t, r0, r1);
    c2 := Advances(c1, maxHops, balance, t, r1, r2);
    Overwritten(Latest(c.hubs[P].log), t, r1, r2);
  }

  lemma Overwritten<K, V>(m: map<K, V>, k: K, a: V, b: V)
    ensures m[k := a][k := b] == m[k := b]
  {
  }

  /** The whole prepare phase. */
  lemma Prepares(c: Cluster, maxHops: nat, balance: nat, t: TxId) returns (c2: Cluster)
    requires Reached(c, Hubs(maxHops, balance)) && c.hubs[P].up && c.hubs[Q].up
    requires t !in Latest(c.hubs[P].log) && t !in Latest(c.hubs[Q].log)
    requires c.hubs[P].ledger == Ledger(BaseP(), map[], {})
    requires RoomAtQ(c.hubs[Q].ledger, balance) && t !in c.hubs[Q].ledger.reservations && t !in c.hubs[Q].ledger.applied
    ensures Reached(c2, Hubs(maxHops, balance)) && RunsOn(c.hubs[P], c2.hubs[P]) && RunsOn(c.hubs[Q], c2.hubs[Q])
    ensures c2.hubs[P].ledger == Ledger(BaseP(), map[t := TermsP(t)], {})
    ensures c2.hubs[Q].ledger == c.hubs[Q].ledger.(reservations := c.hubs[Q].ledger.reservations[t := TermsQ(t)])
    ensures Latest(c2.hubs[P].log) == Latest(c.hubs[P].log)[t := Rec(t, CoordinatorPrepared, true, false)]
    ensures Latest(c2.hubs[Q].log) == Latest(c.hubs[Q].log)[t := Part(t)]
  {
    var c1 := Offers(c, maxHops, balance, t);
    var c3 := Accepts(c1, maxHops, balance, t);
    var c4 := Answers(c3, maxHops, balance, t);
    c2 := Collects(c4, maxHops, balance, t);
    Overwritten(Latest(c.hubs[P].log), t, Rec(t, CoordinatorPreparing, false, false),
                Rec(t, CoordinatorPrepared, true, false));
  }

  /** The users signed; hub P decides to commit. */
  lemma DecidesToCommit(c: Cluster, maxHops: nat, balance: nat, t: TxId) returns (c2: Cluster)
    requires Reached(c, Hubs(maxHops, balance)) && c.hubs[P].up && t !in c.hubs[P].sessions.closed
    requires Lookup(Latest(c.hubs[P].log), t) == Some(Rec(t, CoordinatorPrepared, true, false))
    ensures Reached(c2, Hubs(maxHops, balance)) && RunsOn(c.hubs[P], c2.hubs[P])
    ensures c2 == c.(hubs := c.hubs[P := c2.hubs[P]])
    ensures c2.hubs[P].ledger == c.hubs[P].ledger
    ensures Latest(c2.hubs[P].log) == Latest(c.hubs[P].log)[t := Rec(t, CoordinatorCommitDecided, true, true)]
  {
    DecidedMay(t, c.responses);
    c2 := Advances(c, maxHops, balance, t, Rec(t, CoordinatorPrepared, true, false),
                   Rec(t, CoordinatorCommitDecided, true, true));
  }

  /** The prepare failed: hub P decides to abort and releases its own hops. */
  lemma Aborts(c: Cluster, maxHops: nat, balance: nat, t: TxId) returns (c2: Cluster)
    requires Reached(c, Hubs(maxHops, balance)) && c.hubs[P].up && t !in c.hubs[P].sessions.lost
    requires Lookup(Latest(c.hubs[P].log), t) == Some(Rec(t, CoordinatorPreparing, false, false))
    requires c.hubs[P].ledger == Ledger(BaseP(), map[t := TermsP(t)], {})
    ensures Reached(c2, Hubs(maxHops, balance)) && c2 == c.(hubs := c.hubs[P := c2.hubs[P]]) && c2.hubs[P].up
    ensures c2.hubs[P].saved == c.hubs[P].saved && c2.hubs[P].kept == c.hubs[P].kept - {t}
    ensures c2.hubs[P].sessions.closed == c.hubs[P].sessions.closed
    ensures c2.hubs[P].sessions.lost == c.hubs[P].sessions.lost
    ensures c2.hubs[P].ledger == Ledger(BaseP(), map[], {})
    ensures Latest(c2.hubs[P].log) == Latest(c.hubs[P].log)[t := Rec(t, CoordinatorAbortDecided, false, false)]
  {
    AbortMay(t, c.responses);
    var c1 := Advances(c, maxHops, balance, t, Rec(t, CoordinatorPreparing, false, false),
                       Rec(t, CoordinatorAbortDecided, false, false));
    c2 := Releases(c1, maxHops, balance, t);
  }

  /** Hub P gives back the reservation of an aborted payment. */
  lemma Releases(c: Cluster, maxHops: nat, balance: nat, t: TxId) returns (c2: Cluster)
    requires Reached(c, Hubs(maxHops, balance)) && c.hubs[P].up
    requires t in Latest(c.hubs[P].log) && HasAbortDecision(Latest(c.hubs[P].log)[t].state)
    requires c.hubs[P].ledger == Ledger(BaseP(), map[t := TermsP(t)], {})
    ensures Reached(c2, Hubs(maxHops, balance))
    ensures c2.hubs.Keys == c.hubs.Keys && c2 == c.(hubs := c.hubs[P := c2.hubs[P]])
    ensures c2.hubs[P] == c.hubs[P].(ledger := Ledger(BaseP(), map[], {}), kept := c.hubs[P].kept - {t})
  {
    c2 := LocalStep(c, Hubs(maxHops, balance), P, Release(t));
    assert map[t := TermsP(t)] - {t} == map[];
  }

  lemma Crashes(c: Cluster, maxHops: nat, balance: nat, p: Provider) returns (c2: Cluster)
    requires Reached(c, Hubs(maxHops, balance)) && p in c.hubs && c.hubs[p].up
    ensures Reached(c2, Hubs(maxHops, balance)) && c2 == c.(hubs := c.hubs[p := c.hubs[p].(up := false)])
  {
    c2 := LocalStep(c, Hubs(maxHops, balance), p, Crash);
  }
}
