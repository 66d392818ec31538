/**
 What a participant checks before it touches money (src/distributed_tx.rs:1757-1873, 2887-2914):
 the descriptor against the user-signed payment, its coverage of the hub's channels, and the signatures.
 */
module Descriptors {
  import opened Prelude
  import Amounts
  import Text
  import opened Transactions

  const MAX_ROUTE: nat := 32

  datatype DescriptorError =
    | SessionMismatch
    | ProviderNotCoordinator
    | PaymentHashMismatch
    | AmountUnreadable
    | AmountMismatch
    | NotASimplePath
    | ZeroAmount
    | RouteRepeatsChannel
    | PathRepeatsAddress
    | EndpointsDiffer
    | DescriptorRepeatsChannel
    | ChannelNotInRoute
    | DirectionDiffers
    | ChannelNotOwned
    | CoverageNotExact
    | UnexpectedSignatures
    | MissingSignatures
    | MissingSignature
    | WrongOrderIndex
    | CoordinatorIsParticipant
    | BadHopCount
    | DescriptorHashDiffers

  function Reversed<T>(s: seq<T>): (r: seq<T>)
    ensures |r| == |s| && forall i :: 0 <= i < |s| ==> r[i] == s[|s| - 1 - i]
  {
    if s == [] then [] else Reversed(s[1..]) + [s[0]]
  }

  /** Index of the first `x`, as `Iterator::position`. */
  function Position<T(==)>(s: seq<T>, x: T): (p: Option<nat>)
    ensures p.None? <==> x !in s
    ensures p.Some? ==> p.value < |s| && s[p.value] == x && x !in s[..p.value]
  {
    if s == [] then None
    else if s[0] == x then Some(0)
    else
      var rest := Position(s[1..], x);
      if rest.None? then None else Some(rest.value + 1)
  }

  predicate Repeats<T(==)>(s: seq<T>) {
    exists i, j :: 0 <= i < j < |s| && s[i] == s[j]
  }

  /** The addresses of the signed path, payer first. */
  function PathOf(payment: PaymentCommit): (path: seq<Address>)
    ensures |path| == |payment.requiredSigners|
  {
    Reversed(payment.requiredSigners)
  }

  /** The per-hop loop of `validate_descriptor_payment`. */
  function CheckDescribedHops(hops: seq<Hop>, seen: set<ChannelId>, payment: PaymentCommit): Option<DescriptorError>
    requires |payment.requiredSigners| == |payment.route| + 1
  {
    if hops == [] then None
    else if hops[0].channelId in seen then Some(DescriptorRepeatsChannel)
    else
      var index := Position(payment.route, hops[0].channelId);
      if index.None? then Some(ChannelNotInRoute)
      else if PathOf(payment)[index.value] != hops[0].fromAddress
          || PathOf(payment)[index.value + 1] != hops[0].toAddress
      then Some(DirectionDiffers)
      else CheckDescribedHops(hops[1..], seen + {hops[0].channelId}, payment)
  }

  /** `validate_descriptor_payment`. */
  function CheckPayment(d: Descriptor): Option<DescriptorError> {
    var p := d.payment;
    if p.sessionId != d.txId then Some(SessionMismatch)
    else if p.providerId != d.coordinator then Some(ProviderNotCoordinator)
    else if PaymentDigest(p) != d.paymentHash then Some(PaymentHashMismatch)
    else if Amounts.Parsed(p.amountHac).Err? then Some(AmountUnreadable)
    else if Amounts.Parsed(p.amountHac).value != d.amountZhu || p.amountSatoshi != d.amountSatoshi
        then Some(AmountMismatch)
    else if p.route == [] || |p.route| > MAX_ROUTE || |p.requiredSigners| != |p.route| + 1 then Some(NotASimplePath)
    else if d.amountZhu == 0 && d.amountSatoshi == 0 then Some(ZeroAmount)
    else if Repeats(p.route) then Some(RouteRepeatsChannel)
    else if Repeats(p.requiredSigners) then Some(PathRepeatsAddress)
    else if PathOf(p)[0] != p.payer || PathOf(p)[|p.route|] != p.payee then Some(EndpointsDiffer)
    else CheckDescribedHops(d.hops, {}, p)
  }

  /** Hop `i` of the path the users signed. */
  function PathHop(payment: PaymentCommit, i: nat): Hop
    requires i < |payment.route| && |payment.requiredSigners| == |payment.route| + 1
  {
    Hop(payment.route[i], PathOf(payment)[i], PathOf(payment)[i + 1])
  }

  /** A simple path from payer to payee. */
  ghost predicate SimplePath(p: PaymentCommit) {
    && 1 <= |p.route| <= MAX_ROUTE && |p.requiredSigners| == |p.route| + 1
    && Distinct(p.route) && Distinct(p.requiredSigners)
    && p.requiredSigners[|p.route|] == p.payer && p.requiredSigners[0] == p.payee
  }

  ghost predicate IsPathHop(p: PaymentCommit, h: Hop)
    requires |p.requiredSigners| == |p.route| + 1
  {
    exists i: nat :: i < |p.route| && h == PathHop(p, i)
  }

  /** The position and direction checks recognise exactly the hops of the signed path. */
  lemma OnPathIff(p: PaymentCommit, h: Hop)
    requires SimplePath(p)
    ensures var index := Position(p.route, h.channelId);
            IsPathHop(p, h) <==>
                index.Some? && PathOf(p)[index.value] == h.fromAddress && PathOf(p)[index.value + 1] == h.toAddress
  {
    var index := Position(p.route, h.channelId);
    if IsPathHop(p, h) {
      var i: nat :| i < |p.route| && h == PathHop(p, i);
      assert index.value == i;
    }
    if index.Some? && PathOf(p)[index.value] == h.fromAddress && PathOf(p)[index.value + 1] == h.toAddress {
      assert h == PathHop(p, index.value);
    }
  }

  ghost predicate DistinctChannels(hops: seq<Hop>) {
    forall k, l :: 0 <= k < l < |hops| ==> hops[k].channelId != hops[l].channelId
  }

  lemma DistinctFromFirst(h: Hop, rest: seq<Hop>)
    ensures DistinctChannels([h] + rest) <==>
                DistinctChannels(rest) && forall g :: g in rest ==> g.channelId != h.channelId
  {
    var hops := [h] + rest;
    assert forall k :: 0 < k < |hops| ==> hops[k] == rest[k - 1];
    if DistinctChannels(hops) {
      forall k, l | 0 <= k < l < |rest| ensures rest[k].channelId != rest[l].channelId {
        assert hops[k + 1] == rest[k] && hops[l + 1] == rest[l];
      }
      forall g | g in rest ensures g.channelId != h.channelId {
        var k :| 0 <= k < |rest| && rest[k] == g;
        assert hops[k + 1] == g && hops[0].channelId != hops[k + 1].channelId;
      }
    }
  }

  lemma {:induction false} HopsFollowPath(hops: seq<Hop>, seen: set<ChannelId>, p: PaymentCommit)
    requires SimplePath(p)
    ensures CheckDescribedHops(hops, seen, p).None? <==>
            (forall h :: h in hops ==> h.channelId !in seen && IsPathHop(p, h)) && DistinctChannels(hops)
  {
    if hops != [] {
      var h, rest := hops[0], hops[1..];
      assert hops == [h] + rest;
      HopsFollowPath(rest, seen + {h.channelId}, p);
      DistinctFromFirst(h, rest);
      OnPathIff(p, h);
      assert forall g :: g in hops <==> g == h || g in rest;
    }
  }

  /** A descriptor passes exactly if it describes distinct hops of the simple path its users signed. */
  lemma DescriptorIsSound(d: Descriptor)
    ensures CheckPayment(d).None? <==>
            && d.payment.sessionId == d.txId && d.payment.providerId == d.coordinator
            && d.paymentHash == PaymentDigest(d.payment)
            && Amounts.Parsed(d.payment.amountHac) == Ok(d.amountZhu) && d.payment.amountSatoshi == d.amountSatoshi
            && (d.amountZhu > 0 || d.amountSatoshi > 0)
            && SimplePath(d.payment)
            && (forall h :: h in d.hops ==> IsPathHop(d.payment, h))
            && DistinctChannels(d.hops)
  {
    if SimplePath(d.payment) {
      HopsFollowPath(d.hops, {}, d.payment);
    }
  }

  // ----- coverage -----

  function StripPrefixes(s: string): string {
    if |s| >= 2 && s[0] == '0' && s[1] == 'x' then StripPrefixes(s[2..]) else s
  }

  function Lower(c: char): char {
    if 'A' <= c <= 'Z' then (c as int + 32) as char else c
  }

  /** `normalize_channel_id`: trimmed, without `0x`, 32 lower-case hex digits. */
  function NormalizeChannelId(raw: string): Option<ChannelId> {
    var s := StripPrefixes(Text.Trim(raw));
    if |s| == 32 && forall i :: 0 <= i < |s| ==> IsHexDigit(s[i]) then
      Some(seq(|s|, i requires 0 <= i < |s| => Lower(s[i])))
    else None
  }

  predicate IsChannelId(id: string) {
    |id| == 32 && forall i :: 0 <= i < 32 ==> '0' <= id[i] <= '9' || 'a' <= id[i] <= 'f'
  }

  /** Normal ids stay as they are, and whatever is accepted becomes one. */
  lemma NormalIds(raw: string)
    ensures IsChannelId(raw) ==> NormalizeChannelId(raw) == Some(raw)
    ensures NormalizeChannelId(raw).Some? ==> IsChannelId(NormalizeChannelId(raw).value)
  {
    if IsChannelId(raw) {
      Text.TrimNoop(raw);
      assert StripPrefixes(raw) == raw;
      assert seq(|raw|, i requires 0 <= i < |raw| => Lower(raw[i])) == raw;
    }
  }

  /** `hub.get_channel(id).is_some()`. */
  predicate Owns(channels: set<ChannelId>, id: string) {
    var n := NormalizeChannelId(id);
    n.Some? && n.value in channels
  }

  function ChannelsOf(hops: seq<Hop>): set<ChannelId> {
    set h | h in hops :: h.channelId
  }

  /** `validate_participant_coverage`. */
  function CheckCoverage(channels: set<ChannelId>, d: Descriptor): Option<DescriptorError> {
    if exists h :: h in d.hops && !Owns(channels, h.channelId) then Some(ChannelNotOwned)
    else if (set id | id in d.payment.route && Owns(channels, id)) != ChannelsOf(d.hops) then Some(CoverageNotExact)
    else None
  }

  /** Covered and sound: the descriptor holds exactly the path hops over channels the hub owns. */
  lemma CoversOwnHops(channels: set<ChannelId>, d: Descriptor, i: nat)
    requires CheckPayment(d).None? && CheckCoverage(channels, d).None? && i < |d.payment.route|
    ensures SimplePath(d.payment)
    ensures Owns(channels, d.payment.route[i]) <==> PathHop(d.payment, i) in d.hops
  {
    DescriptorIsSound(d);
    var id := d.payment.route[i];
    if id in ChannelsOf(d.hops) {
      var h :| h in d.hops && h.channelId == id;
      var j: nat :| j < |d.payment.route| && h == PathHop(d.payment, j);
      assert i == j;
    }
    if PathHop(d.payment, i) in d.hops {
      assert PathHop(d.payment, i).channelId in ChannelsOf(d.hops);
    }
  }

  /** A sound descriptor covers the hub exactly if its hops are the path's hops over channels the hub owns. */
  lemma CoverageIff(channels: set<ChannelId>, d: Descriptor)
    requires CheckPayment(d).None?
    ensures SimplePath(d.payment)
    ensures CheckCoverage(channels, d).None? <==>
            forall i :: 0 <= i < |d.payment.route| ==>
              (Owns(channels, d.payment.route[i]) <==> PathHop(d.payment, i) in d.hops)
  {
    DescriptorIsSound(d);
    if CheckCoverage(channels, d).None? {
      forall i | 0 <= i < |d.payment.route|
        ensures Owns(channels, d.payment.route[i]) <==> PathHop(d.payment, i) in d.hops
      {
        CoversOwnHops(channels, d, i);
      }
    }
    if forall i :: 0 <= i < |d.payment.route| ==>
         (Owns(channels, d.payment.route[i]) <==> PathHop(d.payment, i) in d.hops) {
      ExactHopsCover(channels, d);
    }
  }

  lemma ExactHopsCover(channels: set<ChannelId>, d: Descriptor)
    requires SimplePath(d.payment) && forall h :: h in d.hops ==> IsPathHop(d.payment, h)
    requires forall i :: 0 <= i < |d.payment.route| ==>
               (Owns(channels, d.payment.route[i]) <==> PathHop(d.payment, i) in d.hops)
    ensures CheckCoverage(channels, d).None?
  {
    forall h | h in d.hops ensures Owns(channels, h.channelId) && h.channelId in d.payment.route {
      var i: nat :| i < |d.payment.route| && h == PathHop(d.payment, i);
      assert h.channelId == d.payment.route[i];
    }
    forall id | id in d.payment.route && Owns(channels, id) ensures id in ChannelsOf(d.hops) {
      var i :| 0 <= i < |d.payment.route| && d.payment.route[i] == id;
      assert PathHop(d.payment, i).channelId == id;
    }
    assert (set id | id in d.payment.route && Owns(channels, id)) == ChannelsOf(d.hops);
  }

  // ----- authorization -----

  /** The first signature by `address`, as `iter().find`. */
  function FindSignature(signatures: seq<Signature>, address: Address): (s: Option<Signature>)
    ensures s.None? <==> forall k :: 0 <= k < |signatures| ==> signatures[k].address != address
    ensures s.Some? ==> s.value in signatures && s.value.address == address
  {
    if signatures == [] then None
    else if signatures[0].address == address then Some(signatures[0])
    else FindSignature(signatures[1..], address)
  }

  function CheckSigners(signatures: seq<Signature>, required: seq<Address>, from: nat): Option<DescriptorError>
    requires from <= |required|
    decreases |required| - from
  {
    if from == |required| then None
    else
      var s := FindSignature(signatures, required[from]);
      if s.None? then Some(MissingSignature)
      else if s.value.orderIndex != from then Some(WrongOrderIndex)
      else CheckSigners(signatures, required, from + 1)
  }

  /** `validate_payment_authorization`; a stored signature was verified against the payment hash when it was made. */
  function CheckAuthorization(
      isCommit: bool, signatures: seq<Signature>, required: seq<Address>): Option<DescriptorError> {
    if !isCommit then if signatures == [] then None else Some(UnexpectedSignatures)
    else if |signatures| != |required| then Some(MissingSignatures)
    else CheckSigners(signatures, required, 0)
  }

  /** The signer's first signature is this one. */
  ghost predicate SignsFirst(signatures: seq<Signature>, s: Signature) {
    exists k :: 0 <= k < |signatures| && signatures[k] == s
                && forall j :: 0 <= j < k ==> signatures[j].address != s.address
  }

  lemma FirstOfRest(signatures: seq<Signature>, s: Signature)
    requires signatures != [] && signatures[0].address != s.address
    ensures SignsFirst(signatures, s) <==> SignsFirst(signatures[1..], s)
  {
    var rest := signatures[1..];
    if SignsFirst(rest, s) {
      var k :| 0 <= k < |rest| && rest[k] == s && forall j :: 0 <= j < k ==> rest[j].address != s.address;
      assert signatures[k + 1] == s;
      assert forall j :: 0 < j < k + 1 ==> signatures[j] == rest[j - 1];
    }
    if SignsFirst(signatures, s) {
      var k :| 0 <= k < |signatures| && signatures[k] == s
               && forall j :: 0 <= j < k ==> signatures[j].address != s.address;
      assert rest[k - 1] == s;
      assert forall j :: 0 <= j < k - 1 ==> rest[j] == signatures[j + 1];
    }
  }

  lemma {:induction false} FoundSignature(signatures: seq<Signature>, s: Signature)
    ensures FindSignature(signatures, s.address) == Some(s) <==> SignsFirst(signatures, s)
  {
    if signatures != [] && signatures[0].address != s.address {
      FirstOfRest(signatures, s);
      FoundSignature(signatures[1..], s);
    } else if signatures != [] {
      assert SignsFirst(signatures, s) ==> signatures[0] == s;
    }
  }

  lemma OneSigner(signatures: seq<Signature>, required: seq<Address>, from: nat)
    requires from < |required|
    ensures CheckSigners(signatures, required, from).None? <==>
            && SignsFirst(signatures, Signature(required[from], from))
            && CheckSigners(signatures, required, from + 1).None?
  {
    FoundSignature(signatures, Signature(required[from], from));
    var f := FindSignature(signatures, required[from]);
    assert f.Some? ==> (f.value == Signature(required[from], from) <==> f.value.orderIndex == from);
  }

  lemma {:induction false} SignersIff(signatures: seq<Signature>, required: seq<Address>, from: nat)
    requires from <= |required|
    ensures CheckSigners(signatures, required, from).None? <==>
            forall i :: from <= i < |required| ==> SignsFirst(signatures, Signature(required[i], i))
    decreases |required| - from
  {
    if from < |required| {
      SignersIff(signatures, required, from + 1);
      OneSigner(signatures, required, from);
    }
  }

  /** Only a commit carries signatures: exactly as many as signers, each signer's first at its own position. */
  lemma AuthorizedIff(isCommit: bool, signatures: seq<Signature>, required: seq<Address>)
    ensures CheckAuthorization(isCommit, signatures, required).None? <==>
            if isCommit then
              && |signatures| == |required|
              && forall i :: 0 <= i < |required| ==> SignsFirst(signatures, Signature(required[i], i))
            else signatures == []
  {
    SignersIff(signatures, required, 0);
  }

  /** What `add_signature` keeps true of a payment session (src/state.rs:3406-3505). */
  ghost predicate SignedInOrder(signatures: seq<Signature>, required: seq<Address>) {
    && (forall k :: 0 <= k < |signatures| ==>
         Position(required, signatures[k].address) == Some(signatures[k].orderIndex))
    && (forall k, l :: 0 <= k < l < |signatures| ==> signatures[k].address != signatures[l].address)
  }

  predicate AllSigned(signatures: seq<Signature>, required: seq<Address>) {
    forall a :: a in required ==> exists k :: 0 <= k < |signatures| && signatures[k].address == a
  }

  /** `add_signature` replaces the signer's earlier signature and appends the new one. */
  function WithSignature(signatures: seq<Signature>, address: Address, index: nat): seq<Signature> {
    Without(signatures, address) + [Signature(address, index)]
  }

  function Without(signatures: seq<Signature>, address: Address): (r: seq<Signature>)
    ensures forall s :: s in r <==> s in signatures && s.address != address
  {
    if signatures == [] then []
    else (if signatures[0].address != address then [signatures[0]] else []) + Without(signatures[1..], address)
  }

  lemma OrderedFromFirst(s: Signature, rest: seq<Signature>, required: seq<Address>)
    ensures SignedInOrder([s] + rest, required) <==>
            && SignedInOrder(rest, required) && Position(required, s.address) == Some(s.orderIndex)
            && forall r :: r in rest ==> r.address != s.address
  {
    var all := [s] + rest;
    assert all[0] == s && forall k :: 0 < k < |all| ==> all[k] == rest[k - 1];
    if SignedInOrder(all, required) {
      forall k, l | 0 <= k < l < |rest| ensures rest[k].address != rest[l].address {
        assert all[k + 1] == rest[k] && all[l + 1] == rest[l];
      }
      forall k | 0 <= k < |rest| ensures Position(required, rest[k].address) == Some(rest[k].orderIndex) {
        assert all[k + 1] == rest[k];
      }
      forall r | r in rest ensures r.address != s.address {
        var k :| 0 <= k < |rest| && rest[k] == r;
        assert all[k + 1] == r && all[0].address != all[k + 1].address;
      }
    }
  }

  lemma {:induction false} WithoutKeepsOrder(signatures: seq<Signature>, address: Address, required: seq<Address>)
    requires SignedInOrder(signatures, required)
    ensures SignedInOrder(Without(signatures, address), required)
  {
    if signatures != [] {
      var s, rest := signatures[0], signatures[1..];
      assert signatures == [s] + rest;
      OrderedFromFirst(s, rest, required);
      WithoutKeepsOrder(rest, address, required);
      OrderedFromFirst(s, Without(rest, address), required);
      assert [] + Without(rest, address) == Without(rest, address);
    }
  }

  lemma SigningKeepsOrder(signatures: seq<Signature>, required: seq<Address>, address: Address)
    requires SignedInOrder(signatures, required) && address in required
    ensures SignedInOrder(WithSignature(signatures, address, Position(required, address).value), required)
  {
    WithoutKeepsOrder(signatures, address, required);
    var kept := Without(signatures, address);
    assert forall k :: 0 <= k < |kept| ==> kept[k] in kept;
  }

  lemma {:induction false} SignersPass(signatures: seq<Signature>, required: seq<Address>, from: nat)
    requires SignedInOrder(signatures, required) && AllSigned(signatures, required) && Distinct(required)
    requires from <= |required|
    ensures CheckSigners(signatures, required, from).None?
    decreases |required| - from
  {
    if from < |required| {
      assert required[from] in required;
      var s := FindSignature(signatures, required[from]);
      var k :| 0 <= k < |signatures| && signatures[k] == s.value;
      assert Position(required, required[from]) == Some(from) by {
        assert required[from] !in required[..from];
      }
      SignersPass(signatures, required, from + 1);
    }
  }

  lemma {:induction false} OneEach(signatures: seq<Signature>, required: seq<Address>)
    requires SignedInOrder(signatures, required) && AllSigned(signatures, required) && Distinct(required)
    ensures |signatures| == |required|
  {
    var signed := set k | 0 <= k < |signatures| :: signatures[k].address;
    var addresses := seq(|signatures|, k requires 0 <= k < |signatures| => signatures[k].address);
    DistinctCount(addresses);
    DistinctCount(required);
    assert Elements(addresses) == Elements(required) by {
      forall a ensures a in Elements(addresses) <==> a in Elements(required) {
        if a in addresses {
          var k :| 0 <= k < |addresses| && addresses[k] == a;
          assert Position(required, signatures[k].address).Some?;
        }
        if a in required {
          var k :| 0 <= k < |signatures| && signatures[k].address == a;
          assert addresses[k] == a;
        }
      }
    }
  }

  lemma {:induction false} DistinctCount<T>(s: seq<T>)
    requires Distinct(s)
    ensures |Elements(s)| == |s|
  {
    if s != [] {
      var n := |s| - 1;
      DistinctCount(s[..n]);
      ElementsOfTake(s, n);
      DistinctTake(s, n);
      assert s[..n + 1] == s;
    }
  }

  /** Once every required signer signed, the commit request carries exactly what participants demand. */
  lemma AllSignedIsAuthorized(signatures: seq<Signature>, required: seq<Address>)
    requires SignedInOrder(signatures, required) && Distinct(required)
    ensures CheckAuthorization(true, signatures, required).None? <==> AllSigned(signatures, required)
  {
    if AllSigned(signatures, required) {
      OneEach(signatures, required);
      SignersPass(signatures, required, 0);
    }
    if CheckSigners(signatures, required, 0).None? {
      SignersFound(signatures, required, 0);
    }
  }

  lemma {:induction false} SignersFound(signatures: seq<Signature>, required: seq<Address>, from: nat)
    requires from <= |required| && CheckSigners(signatures, required, from).None?
    ensures forall i :: from <= i < |required| ==> FindSignature(signatures, required[i]).Some?
    decreases |required| - from
  {
    if from < |required| {
      SignersFound(signatures, required, from + 1);
    }
  }
}
