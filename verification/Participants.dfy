/** Grouping a payment's remote hops into one descriptor per hub (src/distributed_tx.rs:1544-1616). */
module Participants {
  import opened Prelude
  import opened Text
  import opened Sorting
  import opened Transactions
  import opened Descriptors
  import opened TwoPhaseCommit
  import Amounts

  datatype RemoteHop = RemoteHop(via: Provider, hop: Hop)

  /** What the peer table knows of a hub. */
  datatype Peer = Peer(advertisesTwoPhase: bool, hasIdentity: bool, helloVerified: bool)

  datatype ParticipantError =
    | LacksDirection(channel: ChannelId)
    | NotAPeer(provider: Provider)
    | LacksTwoPhase(provider: Provider)
    | LacksIdentity(provider: Provider)
    | LacksVerifiedHello(provider: Provider)

  predicate HasDirection(r: RemoteHop) {
    Trim(r.hop.fromAddress) != "" && Trim(r.hop.toAddress) != ""
  }

  predicate Trusted(peers: map<Provider, Peer>, q: Provider) {
    q in peers && peers[q].advertisesTwoPhase && peers[q].hasIdentity && peers[q].helloVerified
  }

  /** Remote hops through `q`, in order. */
  function HopsVia(remote: seq<RemoteHop>, q: Provider): seq<Hop> {
    if remote == [] then [] else
      var r := remote[|remote| - 1];
      HopsVia(remote[..|remote| - 1], q) + if r.via == q then [r.hop] else []
  }

  /** The first entry for hub `q`. */
  function EntryWith(base: Descriptor, q: Provider, hops: seq<Hop>): ParticipantEntry {
    var d := base.(participant := q, hops := hops);
    ParticipantEntry(d, DescriptorDigest(d), false, false, false)
  }

  ghost predicate IsVia(remote: seq<RemoteHop>, q: Provider) {
    exists k :: 0 <= k < |remote| && remote[k].via == q
  }

  ghost predicate HasEntry(entries: seq<ParticipantEntry>, q: Provider) {
    exists i :: 0 <= i < |entries| && entries[i].descriptor.participant == q
  }

  /** Every hub with a remote hop has exactly one entry, in the order of the hubs' names. */
  ghost predicate Groups(base: Descriptor, remote: seq<RemoteHop>, entries: seq<ParticipantEntry>) {
    && (forall i :: 0 <= i < |entries| ==>
          var q := entries[i].descriptor.participant; entries[i] == EntryWith(base, q, HopsVia(remote, q)))
    && (forall q :: HasEntry(entries, q) <==> IsVia(remote, q))
    && (forall i, j :: 0 <= i < j < |entries| ==>
         TextBefore(entries[i].descriptor.participant, entries[j].descriptor.participant))
  }

  ghost predicate GroupedUnfolded(u: Unfolding, remote: seq<RemoteHop>, grouped: map<Provider, seq<Hop>>) {
    forall q :: (q in grouped <==> IsVia(remote, q)) && HopsVia(remote, q) == if q in grouped then grouped[q] else []
  }

  /** The hops collected so far, hub by hub. */
  ghost predicate Grouped(remote: seq<RemoteHop>, grouped: map<Provider, seq<Hop>>) {
    forall u: Unfolding :: GroupedUnfolded(u, remote, grouped)
  }

  lemma GroupedMeans(remote: seq<RemoteHop>, grouped: map<Provider, seq<Hop>>)
    ensures Grouped(remote, grouped) <==> GroupedUnfolded(Unfolding, remote, grouped)
  {
  }

  lemma NothingGrouped(remote: seq<RemoteHop>)
    ensures Grouped(remote[..0], map[])
  {
    GroupedMeans(remote[..0], map[]);
  }

  lemma ViaSoFar(remote: seq<RemoteHop>, i: nat, q: Provider)
    requires i < |remote|
    ensures IsVia(remote[..i + 1], q) <==> IsVia(remote[..i], q) || q == remote[i].via
  {
    var before, now := remote[..i], remote[..i + 1];
    assert now[i].via == remote[i].via;
    if IsVia(before, q) {
      var k :| 0 <= k < i && before[k].via == q;
      assert now[k].via == q;
    }
    if IsVia(now, q) && q != remote[i].via {
      var k :| 0 <= k < i + 1 && now[k].via == q;
      assert before[k].via == q;
    }
  }

  lemma OneMoreHop(remote: seq<RemoteHop>, i: nat, grouped: map<Provider, seq<Hop>>)
    requires i < |remote| && Grouped(remote[..i], grouped)
    ensures var via := remote[i].via;
            Grouped(remote[..i + 1], grouped[via := (if via in grouped then grouped[via] else []) + [remote[i].hop]])
  {
    var before, now, via := remote[..i], remote[..i + 1], remote[i].via;
    GroupedMeans(before, grouped);
    GroupedMeans(now, grouped[via := (if via in grouped then grouped[via] else []) + [remote[i].hop]]);
    assert now[..i] == before;
    forall q ensures IsVia(now, q) <==> IsVia(before, q) || q == via {
      ViaSoFar(remote, i, q);
    }
  }

  /** The first loop: hops by hub. */
  method GroupHops(remote: seq<RemoteHop>) returns (r: Result<map<Provider, seq<Hop>>, ParticipantError>)
    ensures r.Ok? <==> forall k :: 0 <= k < |remote| ==> HasDirection(remote[k])
    ensures r.Ok? ==> Grouped(remote, r.value)
  {
    var grouped: map<Provider, seq<Hop>> := map[];
    NothingGrouped(remote);
    for i := 0 to |remote|
      invariant forall k :: 0 <= k < i ==> HasDirection(remote[k])
      invariant Grouped(remote[..i], grouped)
    {
      var next := remote[i];
      if !HasDirection(next) {
        return Err(LacksDirection(next.hop.channelId));
      }
      OneMoreHop(remote, i, grouped);
      grouped := grouped[next.via := (if next.via in grouped then grouped[next.via] else []) + [next.hop]];
    }
    assert remote[..|remote|] == remote;
    return Ok(grouped);
  }

  lemma TextAtMostIsTotal()
    ensures Preorder(TextAtMost)
  {
    forall a, b, c: string ensures (TextAtMost(a, b) || TextAtMost(b, a))
        && (TextAtMost(a, b) && TextAtMost(b, c) ==> TextAtMost(a, c)) {
      TextOrder(a, b, a);
      TextOrder(c, b, a);
      TextOrder(a, b, c);
      TextOrder(c, a, b);
      TextOrder(b, c, a);
    }
  }

  lemma {:induction false} OnceEach(s: seq<string>, x: string)
    requires Distinct(s)
    ensures multiset(s)[x] <= 1
  {
    if s != [] {
      var n := |s| - 1;
      OnceEach(s[..n], x);
      assert s == s[..n] + [s[n]];
    }
  }

  lemma TwiceAtLeast(s: seq<string>, i: nat, k: nat)
    requires i < k < |s| && s[i] == s[k]
    ensures multiset(s)[s[i]] >= 2
  {
    assert s == s[..k] + [s[k]] + s[k + 1..];
    assert s[..k][i] == s[i];
    assert s[i] in s[..k];
  }

  /** Sorted distinct names are strictly increasing. */
  lemma SortedNames(s: seq<string>)
    requires Distinct(s)
    ensures var r := Sorted(s, TextAtMost);
            && (forall x :: x in r <==> x in s)
            && forall i, j :: 0 <= i < j < |r| ==> TextBefore(r[i], r[j])
  {
    var r := Sorted(s, TextAtMost);
    TextAtMostIsTotal();
    SortedIsOrdered(s, TextAtMost);
    forall x ensures x in r <==> x in s {
      assert x in r <==> x in multiset(r);
      assert x in s <==> x in multiset(s);
    }
    forall i, j | 0 <= i < j < |r| ensures TextBefore(r[i], r[j]) {
      assert TextAtMost(r[i], r[j]);
      TextOrder(r[i], r[j], r[i]);
      OnceEach(s, r[i]);
      if r[i] == r[j] {
        TwiceAtLeast(r, i, j);
      }
    }
  }

  /** The hubs of the groups, sorted. */
  method SortedProviders(grouped: map<Provider, seq<Hop>>) returns (providers: seq<Provider>)
    ensures forall q :: q in providers <==> q in grouped
    ensures forall i, j :: 0 <= i < j < |providers| ==> TextBefore(providers[i], providers[j])
  {
    var names: seq<Provider> := [];
    var rest := grouped.Keys;
    while rest != {}
      invariant rest <= grouped.Keys && Distinct(names)
      invariant forall q :: q in names <==> q in grouped && q !in rest
      decreases |rest|
    {
      var q :| q in rest;
      names, rest := names + [q], rest - {q};
    }
    SortedNames(names);
    providers := Sort(names, TextAtMost);
  }

  lemma IsGrouped(remote: seq<RemoteHop>, grouped: map<Provider, seq<Hop>>, q: Provider)
    requires Grouped(remote, grouped) && q in grouped
    ensures grouped[q] == HopsVia(remote, q) && exists k :: 0 <= k < |remote| && remote[k].via == q
  {
    GroupedMeans(remote, grouped);
    assert IsVia(remote, q);
  }

  /** Entries for the first of the sorted hubs, all of them trusted. */
  predicate EntriesFor(
      base: Descriptor, peers: map<Provider, Peer>, grouped: map<Provider, seq<Hop>>, providers: seq<Provider>,
      entries: seq<ParticipantEntry>)
  {
    && |entries| <= |providers|
    && forall k :: 0 <= k < |entries| ==>
         && providers[k] in grouped && Trusted(peers, providers[k])
         && entries[k] == EntryWith(base, providers[k], grouped[providers[k]])
  }

  /** One entry a group, in order, is what `Groups` asks for. */
  lemma EntriesCover(
      base: Descriptor, remote: seq<RemoteHop>, peers: map<Provider, Peer>, grouped: map<Provider, seq<Hop>>,
      providers: seq<Provider>, entries: seq<ParticipantEntry>)
    requires Grouped(remote, grouped) && |entries| == |providers| && forall q :: q in providers <==> q in grouped
    requires EntriesFor(base, peers, grouped, providers, entries)
    requires forall i, j :: 0 <= i < j < |providers| ==> TextBefore(providers[i], providers[j])
    ensures Groups(base, remote, entries)
    ensures forall k :: 0 <= k < |remote| ==> Trusted(peers, remote[k].via)
  {
    forall i | 0 <= i < |entries| ensures entries[i] == EntryWith(base, providers[i], HopsVia(remote, providers[i])) {
      IsGrouped(remote, grouped, providers[i]);
    }
    forall q ensures HasEntry(entries, q) <==> IsVia(remote, q) {
      GroupedMeans(remote, grouped);
      if q in providers {
        var i :| 0 <= i < |providers| && providers[i] == q;
        assert entries[i].descriptor.participant == q;
      }
    }
    forall k | 0 <= k < |remote| ensures Trusted(peers, remote[k].via) {
      assert IsVia(remote, remote[k].via);
      GroupedMeans(remote, grouped);
      var i :| 0 <= i < |providers| && providers[i] == remote[k].via;
    }
  }

  /** What `build_participants` asks of a peer. */
  method CheckPeer(peers: map<Provider, Peer>, q: Provider) returns (error: Option<ParticipantError>)
    ensures error.None? <==> Trusted(peers, q)
  {
    if q !in peers {
      return Some(NotAPeer(q));
    }
    if !peers[q].advertisesTwoPhase {
      return Some(LacksTwoPhase(q));
    }
    if !peers[q].hasIdentity {
      return Some(LacksIdentity(q));
    }
    return if peers[q].helloVerified then None else Some(LacksVerifiedHello(q));
  }

  /** `build_participants`. */
  method BuildParticipants(base: Descriptor, remote: seq<RemoteHop>, peers: map<Provider, Peer>)
    returns (r: Result<seq<ParticipantEntry>, ParticipantError>)
    ensures r.Ok? <==> forall k :: 0 <= k < |remote| ==>
              && Trim(remote[k].hop.fromAddress) != "" && Trim(remote[k].hop.toAddress) != ""
              && remote[k].via in peers && peers[remote[k].via] == Peer(true, true, true)
    ensures r.Ok? ==> Groups(base, remote, r.value)
  {
    var grouped := GroupHops(remote);
    if grouped.Err? {
      return Err(grouped.error);
    }
    r := EntriesOf(base, remote, peers, grouped.value);
  }

  /** The second loop: one entry a hub, or the first hub that is not trusted. */
  method EntriesOf(
      base: Descriptor, remote: seq<RemoteHop>, peers: map<Provider, Peer>, grouped: map<Provider, seq<Hop>>)
    returns (r: Result<seq<ParticipantEntry>, ParticipantError>)
    requires Grouped(remote, grouped)
    ensures r.Ok? <==> forall k :: 0 <= k < |remote| ==> Trusted(peers, remote[k].via)
    ensures r.Ok? ==> Groups(base, remote, r.value)
  {
    var providers := SortedProviders(grouped);
    var entries: seq<ParticipantEntry> := [];
    for i := 0 to |providers|
      invariant |entries| == i && EntriesFor(base, peers, grouped, providers, entries)
    {
      var q := providers[i];
      assert q in providers;
      IsGrouped(remote, grouped, q);
      var refused := CheckPeer(peers, q);
      if refused.Some? {
        return Err(refused.value);
      }
      entries := entries + [EntryWith(base, q, grouped[q])];
    }
    EntriesCover(base, remote, peers, grouped, providers, entries);
    return Ok(entries);
  }

  // ----- against the path the payment was created with -----

  /** The path hops of other hubs, with their hubs. */
  function RemoteOf(c: PaymentCommit, owners: seq<Provider>, p: Provider, k: nat): seq<RemoteHop>
    requires Assigned(c, owners) && k <= |c.route|
  {
    if k == 0 then [] else
      RemoteOf(c, owners, p, k - 1) + if owners[k - 1] == p then [] else [RemoteHop(owners[k - 1], PathHop(c, k - 1))]
  }

  /** Grouping the remote hops gives each other hub the hops it owns, in path order. */
  lemma {:induction false} RemoteIsOwned(c: PaymentCommit, owners: seq<Provider>, p: Provider, q: Provider, k: nat)
    requires Assigned(c, owners) && k <= |c.route| && q != p
    ensures HopsVia(RemoteOf(c, owners, p, k), q) + HopsOwned(c, owners, q, k) == HopsOwned(c, owners, q, 0)
  {
    if k > 0 {
      var own := if owners[k - 1] == q then [PathHop(c, k - 1)] else [];
      RemoteIsOwned(c, owners, p, q, k - 1);
      RemoteStep(c, owners, p, q, k);
      Regroup(HopsVia(RemoteOf(c, owners, p, k - 1), q), own, HopsOwned(c, owners, q, k));
    }
  }

  lemma Regroup(a: seq<Hop>, b: seq<Hop>, c: seq<Hop>)
    ensures (a + b) + c == a + (b + c)
  {
  }

  /** What hop `k - 1` adds on the one side and takes from the other. */
  lemma RemoteStep(c: PaymentCommit, owners: seq<Provider>, p: Provider, q: Provider, k: nat)
    requires Assigned(c, owners) && 0 < k <= |c.route| && q != p
    ensures var own := if owners[k - 1] == q then [PathHop(c, k - 1)] else [];
            && HopsVia(RemoteOf(c, owners, p, k), q) == HopsVia(RemoteOf(c, owners, p, k - 1), q) + own
            && HopsOwned(c, owners, q, k - 1) == own + HopsOwned(c, owners, q, k)
  {
    var before := RemoteOf(c, owners, p, k - 1);
    if owners[k - 1] != p {
      ViaOneMore(before, RemoteHop(owners[k - 1], PathHop(c, k - 1)), q);
    } else {
      assert RemoteOf(c, owners, p, k) == before;
    }
  }

  lemma ViaOneMore(before: seq<RemoteHop>, r: RemoteHop, q: Provider)
    ensures HopsVia(before + [r], q) == HopsVia(before, q) + if r.via == q then [r.hop] else []
  {
    assert (before + [r])[..|before|] == before;
  }

  lemma {:induction false} RemoteVias(c: PaymentCommit, owners: seq<Provider>, p: Provider, k: nat, q: Provider)
    requires Assigned(c, owners) && k <= |c.route|
    ensures IsVia(RemoteOf(c, owners, p, k), q) <==> q != p && q in owners[..k]
  {
    if k > 0 {
      RemoteVias(c, owners, p, k - 1, q);
      var before, now := RemoteOf(c, owners, p, k - 1), RemoteOf(c, owners, p, k);
      assert owners[..k] == owners[..k - 1] + [owners[k - 1]];
      if owners[k - 1] != p {
        assert now == before + [RemoteHop(owners[k - 1], PathHop(c, k - 1))];
        assert now[|before|].via == owners[k - 1];
        if IsVia(before, q) {
          var j :| 0 <= j < |before| && before[j].via == q;
          assert now[j].via == q;
        }
        if IsVia(now, q) && q != owners[k - 1] {
          var j :| 0 <= j < |now| && now[j].via == q;
          assert before[j].via == q;
        }
      } else {
        assert now == before;
      }
    }
  }

  /** The session `create_payment` stored: a path whose channels are assigned to hubs, this one's hops kept apart. */
  ghost predicate FromPath(p: Provider, c: PaymentCommit, remote: seq<RemoteHop>, owners: seq<Provider>) {
    Assigned(c, owners) && c.providerId == p && remote == RemoteOf(c, owners, p, |c.route|) && remote != []
  }

  predicate BaseOf(base: Descriptor, tx: Transaction, c: PaymentCommit) {
    base == Descriptor(tx.txId, tx.coordinator, tx.coordinatorUrl, base.participant, c, tx.paymentHash, tx.amountZhu,
                       tx.amountSatoshi, tx.expiresUnix, base.hops)
  }

  lemma GroupsCoverOwners(
      p: Provider, base: Descriptor, c: PaymentCommit, remote: seq<RemoteHop>, owners: seq<Provider>,
      entries: seq<ParticipantEntry>)
    requires FromPath(p, c, remote, owners) && Groups(base, remote, entries)
    ensures entries != []
    ensures forall i :: 0 <= i < |entries| ==>
                entries[i].descriptor.participant in owners && entries[i].descriptor.participant != p
    ensures forall o :: o in owners && o != p ==> HasEntry(entries, o)
    ensures forall i, j :: 0 <= i < j < |entries| ==>
                entries[i].descriptor.participant != entries[j].descriptor.participant
  {
    assert owners[..|c.route|] == owners;
    forall q ensures HasEntry(entries, q) <==> q != p && q in owners {
      RemoteVias(c, owners, p, |c.route|, q);
    }
    assert remote[0].via == remote[0].via;
    assert IsVia(remote, remote[0].via);
    forall i | 0 <= i < |entries| ensures entries[i].descriptor.participant in owners
        && entries[i].descriptor.participant != p {
      assert HasEntry(entries, entries[i].descriptor.participant);
    }
    forall i, j | 0 <= i < j < |entries|
      ensures entries[i].descriptor.participant != entries[j].descriptor.participant
    {
      TextOrder(entries[i].descriptor.participant, entries[i].descriptor.participant, "");
    }
  }

  lemma GroupsHoldOwned(
      p: Provider, base: Descriptor, c: PaymentCommit, remote: seq<RemoteHop>, owners: seq<Provider>,
      entries: seq<ParticipantEntry>, i: nat)
    requires FromPath(p, c, remote, owners) && Groups(base, remote, entries) && i < |entries|
    requires entries[i].descriptor.participant != p
    ensures var q := entries[i].descriptor.participant;
            entries[i] == EntryWith(base, q, HopsOwned(c, owners, q, 0))
  {
    var q := entries[i].descriptor.participant;
    RemoteIsOwned(c, owners, p, q, |c.route|);
    assert HopsVia(remote, q) + [] == HopsVia(remote, q);
  }

  /** What `build_participants` makes of a created payment is what the protocol starts from. */
  lemma BuiltIsBegun(
      p: Provider, base: Descriptor, c: PaymentCommit, remote: seq<RemoteHop>, owners: seq<Provider>, tx: Transaction)
    requires FromPath(p, c, remote, owners) && Groups(base, remote, tx.participants) && BaseOf(base, tx, c)
    requires tx.role.Coordinator? && tx.coordinator == p && c.sessionId == tx.txId && tx.paymentHash == PaymentDigest(c)
    requires Amounts.Parsed(c.amountHac) == Ok(tx.amountZhu) && c.amountSatoshi == tx.amountSatoshi
    requires tx.localHops == HopsOwned(c, owners, p, 0)
    ensures Begun(p, tx, owners)
    ensures forall i :: 0 <= i < |tx.participants| ==> FlagsOf(tx.participants[i]) == (false, false, false)
  {
    GroupsCoverOwners(p, base, c, remote, owners, tx.participants);
    forall i | 0 <= i < |tx.participants|
      ensures tx.participants[i] ==
              EntryWith(base, tx.participants[i].descriptor.participant,
                        HopsOwned(c, owners, tx.participants[i].descriptor.participant, 0))
    {
      GroupsHoldOwned(p, base, c, remote, owners, tx.participants, i);
    }
    forall o | o in owners && o != p ensures exists i ::
        0 <= i < |tx.participants| && tx.participants[i].descriptor.participant == o {
      assert HasEntry(tx.participants, o);
    }
  }
}
