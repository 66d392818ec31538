/**
 A hub's balances, liquidity reservations and applied markers: reserve, settle and release
 (src/state.rs), the ledger that the two-phase commit drives.
 */
module Ledger {
  import opened Prelude
  import opened SetSums
  import opened Text
  import opened Transactions

  datatype Side = Left | Right

  datatype Asset = Hac | Satoshi

  datatype Channel = Channel(
    left: Address, right: Address,
    leftHac: nat, rightHac: nat, leftSatoshi: nat, rightSatoshi: nat,
    lastSettle: Option<TxId>)

  /** What a reservation holds on each of its hops. */
  datatype Terms = Terms(zhu: nat, satoshi: nat, hops: seq<Hop>, expiresUnix: nat)

  datatype Ledger = Ledger(
    channels: map<ChannelId, Channel>, reservations: map<TxId, Terms>, applied: set<TxId>)

  datatype LedgerError =
    | TooManyHops
    | ChannelIdNotNormalized
    | RepeatsChannel
    | InvalidDirection
    | DifferentReservation
    | ChannelMissing
    | DirectionMismatch
    | ReservedOverflow
    | ReservationsExceedBalance
    | InsufficientHac
    | InsufficientSatoshi
    | ReservationMissing
    | ReservationMismatch
    | PartialPriorSettlement
    | BalanceOverflow
    | DuplicateReservation

  function Flip(s: Side): Side { if s.Left? then Right else Left }

  function Party(c: Channel, s: Side): Address { if s.Left? then c.left else c.right }

  function Balance(c: Channel, s: Side, a: Asset): nat {
    match (s, a)
    case (Left, Hac) => c.leftHac
    case (Right, Hac) => c.rightHac
    case (Left, Satoshi) => c.leftSatoshi
    case (Right, Satoshi) => c.rightSatoshi
  }

  function Amount(t: Terms, a: Asset): nat { if a.Hac? then t.zhu else t.satoshi }

  /** The side a hop spends from, if the hop names this channel's two parties. */
  function SenderSide(c: Channel, h: Hop): Option<Side> {
    if c.left == h.fromAddress && c.right == h.toAddress then Some(Left)
    else if c.right == h.fromAddress && c.left == h.toAddress then Some(Right)
    else None
  }

  predicate SpendsFrom(hops: seq<Hop>, channel: ChannelId, from: Address) {
    exists i :: 0 <= i < |hops| && hops[i].channelId == channel && hops[i].fromAddress == from
  }

  /** What `t` takes from `from`'s side of `channel`. */
  function Due(t: Terms, channel: ChannelId, from: Address, a: Asset): nat {
    if SpendsFrom(t.hops, channel, from) then Amount(t, a) else 0
  }

  ghost function DueIn(reservations: map<TxId, Terms>, channel: ChannelId, from: Address, a: Asset): TxId -> int {
    (t: TxId) => if t in reservations then Due(reservations[t], channel, from, a) else 0
  }

  /** Total liquidity reserved on one side. */
  ghost function Held(reservations: map<TxId, Terms>, channel: ChannelId, from: Address, a: Asset): int {
    Sum(reservations.Keys, DueIn(reservations, channel, from, a))
  }

  // ----- hop checks -----

  predicate IsLowerHex(c: char) { '0' <= c <= '9' || 'a' <= c <= 'f' }

  /** `normalize_channel_id(id)` returns `id` itself. */
  predicate IsNormalized(id: ChannelId) {
    |id| == 32 && forall i :: 0 <= i < 32 ==> IsLowerHex(id[i])
  }

  /** The validation loop of `prepare_distributed_reservation`. */
  function CheckShape(hops: seq<Hop>, seen: set<ChannelId>): Option<LedgerError> {
    if hops == [] then None
    else if !IsNormalized(hops[0].channelId) then Some(ChannelIdNotNormalized)
    else if hops[0].channelId in seen then Some(RepeatsChannel)
    else if Trim(hops[0].fromAddress) == "" || Trim(hops[0].toAddress) == ""
            || hops[0].fromAddress == hops[0].toAddress then Some(InvalidDirection)
    else CheckShape(hops[1..], seen + {hops[0].channelId})
  }

  /** One hop of `reserve_payment_liquidity`. */
  ghost function CheckHop(l: Ledger, t: Terms, h: Hop): Option<LedgerError> {
    if h.channelId !in l.channels then Some(ChannelMissing) else
      var c := l.channels[h.channelId];
      var side := SenderSide(c, h);
      if side.None? then Some(DirectionMismatch) else
        var hac := Held(l.reservations, h.channelId, h.fromAddress, Hac);
        var sat := Held(l.reservations, h.channelId, h.fromAddress, Satoshi);
        if hac > U64_MAX || sat > U64_MAX then Some(ReservedOverflow)
        else if hac > Balance(c, side.value, Hac) || sat > Balance(c, side.value, Satoshi)
            then Some(ReservationsExceedBalance)
        else if Balance(c, side.value, Hac) - hac < t.zhu then Some(InsufficientHac)
        else if Balance(c, side.value, Satoshi) - sat < t.satoshi then Some(InsufficientSatoshi)
        else None
  }

  ghost function CheckHops(l: Ledger, t: Terms, hops: seq<Hop>): Option<LedgerError> {
    if hops == [] then None
    else if CheckHop(l, t, hops[0]).Some? then CheckHop(l, t, hops[0])
    else CheckHops(l, t, hops[1..])
  }

  /** `prepare_distributed_reservation`: idempotent per transaction id. */
  ghost function Prepared(l: Ledger, maxHops: nat, tx: TxId, t: Terms): Result<Ledger, LedgerError> {
    if |t.hops| > maxHops then Err(TooManyHops)
    else if CheckShape(t.hops, {}).Some? then Err(CheckShape(t.hops, {}).value)
    else if tx in l.applied then Ok(l)
    else if tx in l.reservations then
      if l.reservations[tx] == t then Ok(l) else Err(DifferentReservation)
    else if CheckHops(l, t, t.hops).Some? then Err(CheckHops(l, t, t.hops).value)
    else Ok(l.(reservations := l.reservations[tx := t]))
  }

  /** `release_distributed_reservation`. */
  function Released(l: Ledger, tx: TxId): Ledger {
    if tx in l.applied then l else l.(reservations := l.reservations - {tx})
  }

  /** One channel of `apply_distributed_reserved_settlement`. */
  function Move(c: Channel, tx: TxId, t: Terms, h: Hop): Result<Channel, LedgerError> {
    if c.lastSettle == Some(tx) then Err(PartialPriorSettlement)
    else if SenderSide(c, h) == Some(Left) then
      if c.leftHac < t.zhu then Err(InsufficientHac)
      else if c.rightHac + t.zhu > U64_MAX then Err(BalanceOverflow)
      else if c.leftSatoshi < t.satoshi then Err(InsufficientSatoshi)
      else if c.rightSatoshi + t.satoshi > U64_MAX then Err(BalanceOverflow)
      else Ok(c.(leftHac := c.leftHac - t.zhu, rightHac := c.rightHac + t.zhu,
                 leftSatoshi := c.leftSatoshi - t.satoshi, rightSatoshi := c.rightSatoshi + t.satoshi,
                 lastSettle := Some(tx)))
    else if SenderSide(c, h) == Some(Right) then
      if c.rightHac < t.zhu then Err(InsufficientHac)
      else if c.leftHac + t.zhu > U64_MAX then Err(BalanceOverflow)
      else if c.rightSatoshi < t.satoshi then Err(InsufficientSatoshi)
      else if c.leftSatoshi + t.satoshi > U64_MAX then Err(BalanceOverflow)
      else Ok(c.(rightHac := c.rightHac - t.zhu, leftHac := c.leftHac + t.zhu,
                 rightSatoshi := c.rightSatoshi - t.satoshi, leftSatoshi := c.leftSatoshi + t.satoshi,
                 lastSettle := Some(tx)))
    else Err(DirectionMismatch)
  }

  /** All hops are computed from the original channels; nothing changes unless every hop passes. */
  function Settle(original: map<ChannelId, Channel>, acc: map<ChannelId, Channel>, tx: TxId, t: Terms, hops: seq<Hop>)
    : Result<map<ChannelId, Channel>, LedgerError>
    decreases hops
  {
    if hops == [] then Ok(acc)
    else if hops[0].channelId !in original then Err(ChannelMissing)
    else
      var moved := Move(original[hops[0].channelId], tx, t, hops[0]);
      if moved.Err? then Err(moved.error)
      else Settle(original, acc[hops[0].channelId := moved.value], tx, t, hops[1..])
  }

  /** `apply_distributed_settlement`: the applied marker makes it exactly-once. */
  function Applied(l: Ledger, tx: TxId, t: Terms): Result<Ledger, LedgerError> {
    if tx in l.applied then Ok(l.(reservations := l.reservations - {tx}))
    else if tx !in l.reservations then Err(ReservationMissing)
    else if l.reservations[tx].zhu != t.zhu || l.reservations[tx].satoshi != t.satoshi
            || l.reservations[tx].hops != t.hops then Err(ReservationMismatch)
    else
      var channels := Settle(l.channels, l.channels, tx, t, t.hops);
      if channels.Err? then Err(channels.error)
      else Ok(Ledger(channels.value, l.reservations - {tx}, l.applied + {tx}))
  }

  // ----- lanes: one side of one channel in one asset -----

  datatype Lane = Lane(channel: ChannelId, side: Side, asset: Asset)

  function Opposite(n: Lane): Lane { n.(side := Flip(n.side)) }

  function BalanceAt(channels: map<ChannelId, Channel>, n: Lane): nat
    requires n.channel in channels
  {
    Balance(channels[n.channel], n.side, n.asset)
  }

  function SenderAt(channels: map<ChannelId, Channel>, n: Lane): Address
    requires n.channel in channels
  {
    Party(channels[n.channel], n.side)
  }

  /** What settling `t` takes from lane `n`. */
  function Debit(channels: map<ChannelId, Channel>, t: Terms, n: Lane): nat
    requires n.channel in channels
  {
    Due(t, n.channel, SenderAt(channels, n), n.asset)
  }

  ghost function HeldAt(channels: map<ChannelId, Channel>, reservations: map<TxId, Terms>, n: Lane): int
    requires n.channel in channels
  {
    Held(reservations, n.channel, SenderAt(channels, n), n.asset)
  }

  /** Parties never change and are distinct; each channel's total fits a u64. */
  ghost predicate Registered(channels: map<ChannelId, Channel>) {
    forall id :: id in channels ==>
      && channels[id].left != channels[id].right
      && channels[id].leftHac + channels[id].rightHac <= U64_MAX
      && channels[id].leftSatoshi + channels[id].rightSatoshi <= U64_MAX
  }

  /** Every hop names a registered channel and its two parties, on distinct channels. */
  ghost predicate Fits(channels: map<ChannelId, Channel>, t: Terms) {
    && (forall i :: 0 <= i < |t.hops| ==>
          t.hops[i].channelId in channels && SenderSide(channels[t.hops[i].channelId], t.hops[i]).Some?)
    && (forall i, j :: 0 <= i < j < |t.hops| ==> t.hops[i].channelId != t.hops[j].channelId)
  }

  ghost predicate SameParties(a: map<ChannelId, Channel>, b: map<ChannelId, Channel>) {
    && a.Keys == b.Keys
    && (forall id :: id in a ==> a[id].left == b[id].left && a[id].right == b[id].right)
  }

  /** No side promises more than it has. */
  ghost predicate Covered(l: Ledger) {
    forall n: Lane :: n.channel in l.channels ==> HeldAt(l.channels, l.reservations, n) <= BalanceAt(l.channels, n)
  }

  // ----- what reserving does -----

  lemma {:induction false} ShapeIsDistinct(hops: seq<Hop>, seen: set<ChannelId>)
    requires CheckShape(hops, seen).None?
    ensures forall i :: 0 <= i < |hops| ==> hops[i].channelId !in seen && hops[i].fromAddress != hops[i].toAddress
    ensures forall i, j :: 0 <= i < j < |hops| ==> hops[i].channelId != hops[j].channelId
  {
    if hops != [] {
      ShapeIsDistinct(hops[1..], seen + {hops[0].channelId});
      assert forall i :: 1 <= i < |hops| ==> hops[i] == hops[1..][i - 1];
    }
  }

  /** A normalized channel id with two different, non-blank parties. */
  predicate HopIsProper(h: Hop) {
    && |h.channelId| == 32
    && (forall k :: 0 <= k < 32 ==> '0' <= h.channelId[k] <= '9' || 'a' <= h.channelId[k] <= 'f')
    && Trim(h.fromAddress) != "" && Trim(h.toAddress) != "" && h.fromAddress != h.toAddress
  }

  lemma FirstHopIff(hops: seq<Hop>, seen: set<ChannelId>)
    requires hops != []
    ensures CheckShape(hops, seen).None? <==>
            && HopIsProper(hops[0]) && hops[0].channelId !in seen
            && CheckShape(hops[1..], seen + {hops[0].channelId}).None?
  {
  }

  /** The validation loop passes exactly proper hops on distinct channels. */
  lemma {:induction false} ShapeIff(hops: seq<Hop>, seen: set<ChannelId>)
    ensures CheckShape(hops, seen).None? <==>
            && (forall i :: 0 <= i < |hops| ==> HopIsProper(hops[i]) && hops[i].channelId !in seen)
            && (forall i, j :: 0 <= i < j < |hops| ==> hops[i].channelId != hops[j].channelId)
  {
    if hops != [] {
      var rest := hops[1..];
      FirstHopIff(hops, seen);
      ShapeIff(rest, seen + {hops[0].channelId});
      assert forall i :: 1 <= i < |hops| ==> hops[i] == rest[i - 1];
      assert forall i :: 0 <= i < |rest| ==> rest[i] == hops[i + 1];
    }
  }

  /** The hop's sender owns, on its own side of the channel, what is reserved there and the payment on top. */
  ghost predicate SenderCanPay(l: Ledger, t: Terms, h: Hop) {
    && h.channelId in l.channels
    && var c := l.channels[h.channelId];
    var hac, sat := Held(l.reservations, h.channelId, h.fromAddress, Hac),
                    Held(l.reservations, h.channelId, h.fromAddress, Satoshi);
    && hac <= U64_MAX && sat <= U64_MAX
    && (|| (c.left == h.fromAddress && c.right == h.toAddress
            && hac + t.zhu <= c.leftHac && sat + t.satoshi <= c.leftSatoshi)
        || (c.right == h.fromAddress && c.left == h.toAddress
            && hac + t.zhu <= c.rightHac && sat + t.satoshi <= c.rightSatoshi))
  }

  lemma HopPassesIff(l: Ledger, t: Terms, h: Hop)
    requires h.fromAddress != h.toAddress
    ensures CheckHop(l, t, h).None? <==> SenderCanPay(l, t, h)
  {
  }

  /** A fresh reservation is stored exactly if its hops are few enough and proper, and every sender can pay. */
  lemma PreparedIff(l: Ledger, maxHops: nat, tx: TxId, t: Terms)
    requires tx !in l.applied && tx !in l.reservations
    ensures Prepared(l, maxHops, tx, t).Ok? <==>
            && |t.hops| <= maxHops
            && (forall i :: 0 <= i < |t.hops| ==> HopIsProper(t.hops[i]) && SenderCanPay(l, t, t.hops[i]))
            && (forall i, j :: 0 <= i < j < |t.hops| ==> t.hops[i].channelId != t.hops[j].channelId)
  {
    ShapeIff(t.hops, {});
    AllHopsPass(l, t, t.hops);
    forall i | 0 <= i < |t.hops| && HopIsProper(t.hops[i])
      ensures CheckHop(l, t, t.hops[i]).None? <==> SenderCanPay(l, t, t.hops[i])
    {
      HopPassesIff(l, t, t.hops[i]);
    }
  }

  /** The payment went from the hop's sender to its receiver, on this channel and in both assets. */
  predicate PaidAcross(before: Channel, after: Channel, t: Terms, h: Hop) {
    && after.left == before.left && after.right == before.right
    && (|| (before.left == h.fromAddress && before.right == h.toAddress
            && after.leftHac == before.leftHac - t.zhu && after.rightHac == before.rightHac + t.zhu
            && after.leftSatoshi == before.leftSatoshi - t.satoshi
            && after.rightSatoshi == before.rightSatoshi + t.satoshi)
        || (before.right == h.fromAddress && before.left == h.toAddress
            && after.rightHac == before.rightHac - t.zhu && after.leftHac == before.leftHac + t.zhu
            && after.rightSatoshi == before.rightSatoshi - t.satoshi
            && after.leftSatoshi == before.leftSatoshi + t.satoshi))
  }

  lemma MovePaysAcross(c: Channel, tx: TxId, t: Terms, h: Hop)
    requires Move(c, tx, t, h).Ok?
    ensures PaidAcross(c, Move(c, tx, t, h).value, t, h)
  {
  }

  /** A settlement pays across every hop's channel and leaves the others as they were. */
  lemma SettlePaysAcross(channels: map<ChannelId, Channel>, tx: TxId, t: Terms)
    requires Settle(channels, channels, tx, t, t.hops).Ok?
    requires forall i, j :: 0 <= i < j < |t.hops| ==> t.hops[i].channelId != t.hops[j].channelId
    ensures var after := Settle(channels, channels, tx, t, t.hops).value;
            && (forall i :: 0 <= i < |t.hops| ==>
                  && t.hops[i].channelId in channels && t.hops[i].channelId in after
                  && PaidAcross(channels[t.hops[i].channelId], after[t.hops[i].channelId], t, t.hops[i]))
            && (forall id :: id in channels && (forall i :: 0 <= i < |t.hops| ==> t.hops[i].channelId != id) ==>
                  id in after && after[id] == channels[id])
  {
    forall i | 0 <= i < |t.hops|
      ensures t.hops[i].channelId in channels
      ensures Move(channels[t.hops[i].channelId], tx, t, t.hops[i]).Ok?
    {
      SettleNeedsEveryHop(channels, channels, tx, t, t.hops, i);
    }
    SettleUpdates(channels, channels, tx, t, t.hops);
    forall i | 0 <= i < |t.hops|
      ensures PaidAcross(channels[t.hops[i].channelId],
                         Move(channels[t.hops[i].channelId], tx, t, t.hops[i]).value, t, t.hops[i])
    {
      MovePaysAcross(channels[t.hops[i].channelId], tx, t, t.hops[i]);
    }
  }

  lemma {:induction false} AllHopsPass(l: Ledger, t: Terms, hops: seq<Hop>)
    ensures CheckHops(l, t, hops).None? <==> forall i :: 0 <= i < |hops| ==> CheckHop(l, t, hops[i]).None?
  {
    if hops != [] {
      AllHopsPass(l, t, hops[1..]);
      if forall i :: 0 <= i < |hops| ==> CheckHop(l, t, hops[i]).None? {
        assert forall i :: 0 <= i < |hops[1..]| ==> hops[1..][i] == hops[i + 1];
      } else if CheckHop(l, t, hops[0]).None? {
        var k :| 0 <= k < |hops| && CheckHop(l, t, hops[k]).Some?;
        assert hops[1..][k - 1] == hops[k];
      }
    }
  }

  lemma HeldAdd(reservations: map<TxId, Terms>, tx: TxId, t: Terms, channel: ChannelId, from: Address, a: Asset)
    requires tx !in reservations
    ensures Held(reservations[tx := t], channel, from, a)
                == Held(reservations, channel, from, a) + Due(t, channel, from, a)
  {
    var more := reservations[tx := t];
    SumAdd(reservations.Keys, DueIn(more, channel, from, a), tx);
    SumCongruent(reservations.Keys, DueIn(more, channel, from, a), DueIn(reservations, channel, from, a));
    assert more.Keys == reservations.Keys + {tx};
  }

  lemma HeldRemove(reservations: map<TxId, Terms>, tx: TxId, channel: ChannelId, from: Address, a: Asset)
    requires tx in reservations
    ensures Held(reservations - {tx}, channel, from, a) ==
            Held(reservations, channel, from, a) - Due(reservations[tx], channel, from, a)
  {
    var less := reservations - {tx};
    assert less[tx := reservations[tx]] == reservations;
    HeldAdd(less, tx, reservations[tx], channel, from, a);
  }

  /** A submap holds no more. */
  lemma HeldMonotone(fewer: map<TxId, Terms>, more: map<TxId, Terms>, channel: ChannelId, from: Address, a: Asset)
    requires forall t :: t in fewer ==> t in more && fewer[t] == more[t]
    ensures Held(fewer, channel, from, a) <= Held(more, channel, from, a)
  {
    SumCongruent(fewer.Keys, DueIn(fewer, channel, from, a), DueIn(more, channel, from, a));
    SumSubset(fewer.Keys, more.Keys, DueIn(more, channel, from, a));
  }

  ghost predicate LaneHasRoom(l: Ledger, t: Terms, n: Lane)
    requires n.channel in l.channels
  {
    HeldAt(l.channels, l.reservations, n) + Amount(t, n.asset) <= BalanceAt(l.channels, n)
  }

  predicate SpendsLane(channels: map<ChannelId, Channel>, t: Terms, n: Lane)
    requires n.channel in channels
  {
    SpendsFrom(t.hops, n.channel, SenderAt(channels, n))
  }

  /** The liquidity guard of `reserve_payment_liquidity` in closed form. */
  ghost predicate Liquid(l: Ledger, t: Terms) {
    forall n: Lane :: n.channel in l.channels && SpendsLane(l.channels, t, n) ==> LaneHasRoom(l, t, n)
  }

  lemma HopHasRoom(l: Ledger, t: Terms, h: Hop, side: Side)
    requires Registered(l.channels) && h.channelId in l.channels && SenderSide(l.channels[h.channelId], h) == Some(side)
    ensures CheckHop(l, t, h).None? <==>
            LaneHasRoom(l, t, Lane(h.channelId, side, Hac)) && LaneHasRoom(l, t, Lane(h.channelId, side, Satoshi))
  {
    assert SenderAt(l.channels, Lane(h.channelId, side, Hac)) == h.fromAddress;
    assert SenderAt(l.channels, Lane(h.channelId, side, Satoshi)) == h.fromAddress;
    var c := l.channels[h.channelId];
    assert Balance(c, side, Hac) <= U64_MAX && Balance(c, side, Satoshi) <= U64_MAX;
  }

  lemma HopPassesIfLiquid(l: Ledger, t: Terms, i: nat)
    requires Registered(l.channels) && Fits(l.channels, t) && Liquid(l, t) && i < |t.hops|
    ensures CheckHop(l, t, t.hops[i]).None?
  {
    var h := t.hops[i];
    var side := SenderSide(l.channels[h.channelId], h).value;
    assert SpendsLane(l.channels, t, Lane(h.channelId, side, Hac));
    assert SpendsLane(l.channels, t, Lane(h.channelId, side, Satoshi));
    HopHasRoom(l, t, h, side);
  }

  lemma RoomIfHopsPass(l: Ledger, t: Terms, n: Lane)
    requires Registered(l.channels) && Fits(l.channels, t)
    requires forall i :: 0 <= i < |t.hops| ==> CheckHop(l, t, t.hops[i]).None?
    requires n.channel in l.channels && SpendsLane(l.channels, t, n)
    ensures LaneHasRoom(l, t, n)
  {
    var i :| 0 <= i < |t.hops| && t.hops[i].channelId == n.channel && t.hops[i].fromAddress == SenderAt(l.channels, n);
    HopHasRoom(l, t, t.hops[i], n.side);
    assert n == Lane(n.channel, n.side, Hac) || n == Lane(n.channel, n.side, Satoshi);
  }

  /** A fresh, well-shaped reservation succeeds exactly if every lane it spends from has room. */
  lemma ReservesIffLiquid(l: Ledger, t: Terms)
    requires Registered(l.channels) && Fits(l.channels, t)
    ensures CheckHops(l, t, t.hops).None? <==> Liquid(l, t)
  {
    AllHopsPass(l, t, t.hops);
    if Liquid(l, t) {
      forall i | 0 <= i < |t.hops| ensures CheckHop(l, t, t.hops[i]).None? {
        HopPassesIfLiquid(l, t, i);
      }
    }
    if CheckHops(l, t, t.hops).None? {
      forall n: Lane | n.channel in l.channels && SpendsLane(l.channels, t, n) ensures LaneHasRoom(l, t, n) {
        RoomIfHopsPass(l, t, n);
      }
    }
  }

  /** A successful fresh reservation keeps the ledger covered. */
  lemma ReserveKeepsCovered(l: Ledger, tx: TxId, t: Terms)
    requires Registered(l.channels) && Fits(l.channels, t) && Covered(l)
    requires tx !in l.reservations && Liquid(l, t)
    ensures Covered(l.(reservations := l.reservations[tx := t]))
  {
    var after := l.(reservations := l.reservations[tx := t]);
    forall n: Lane | n.channel in l.channels
      ensures HeldAt(l.channels, after.reservations, n) <= BalanceAt(l.channels, n)
    {
      HeldAdd(l.reservations, tx, t, n.channel, SenderAt(l.channels, n), n.asset);
      assert SpendsLane(l.channels, t, n) ==> LaneHasRoom(l, t, n);
    }
  }

  lemma ReleaseKeepsCovered(l: Ledger, tx: TxId)
    requires Covered(l)
    ensures Covered(Released(l, tx))
  {
    forall n: Lane | n.channel in l.channels
      ensures HeldAt(l.channels, Released(l, tx).reservations, n) <= BalanceAt(l.channels, n)
    {
      HeldMonotone(Released(l, tx).reservations, l.reservations, n.channel, SenderAt(l.channels, n), n.asset);
    }
  }

  // ----- what settling does -----

  /** Channels after settling `t`: lanes move by debit and credit, parties stay. */
  ghost predicate IsSettled(before: map<ChannelId, Channel>, after: map<ChannelId, Channel>, tx: TxId, t: Terms) {
    && SameParties(before, after)
    && (forall n: Lane {:trigger BalanceAt(after, n)} :: n.channel in before ==>
          BalanceAt(after, n) == BalanceAt(before, n) - Debit(before, t, n) + Debit(before, t, Opposite(n)))
    && (forall id :: id in before && after[id].lastSettle != before[id].lastSettle ==> after[id].lastSettle == Some(tx))
  }

  /** Settling can pay: no hop's channel was settled by `tx`, and every lane has its debit. */
  ghost predicate CanSettle(channels: map<ChannelId, Channel>, tx: TxId, t: Terms) {
    && (forall id :: id in channels ==> channels[id].lastSettle != Some(tx))
    && (forall n: Lane :: n.channel in channels ==> Debit(channels, t, n) <= BalanceAt(channels, n))
  }

  /** `Settle` updates exactly the hop channels, each once, from its original. */
  lemma {:induction false} SettleUpdates(
      original: map<ChannelId, Channel>, acc: map<ChannelId, Channel>, tx: TxId, t: Terms, hops: seq<Hop>)
    requires forall i :: 0 <= i < |hops| ==>
                 hops[i].channelId in original && Move(original[hops[i].channelId], tx, t, hops[i]).Ok?
    requires forall i, j :: 0 <= i < j < |hops| ==> hops[i].channelId != hops[j].channelId
    decreases hops
    ensures var r := Settle(original, acc, tx, t, hops);
            && r.Ok?
            && (forall id :: id in r.value <==> id in acc || exists i :: 0 <= i < |hops| && hops[i].channelId == id)
            && (forall i :: 0 <= i < |hops| ==>
                  && hops[i].channelId in r.value
                  && r.value[hops[i].channelId] == Move(original[hops[i].channelId], tx, t, hops[i]).value)
            && (forall id :: id in acc && (forall i :: 0 <= i < |hops| ==> hops[i].channelId != id) ==>
                 r.value[id] == acc[id])
  {
    if hops != [] {
      var id0 := hops[0].channelId;
      var next := acc[id0 := Move(original[id0], tx, t, hops[0]).value];
      var rest := hops[1..];
      assert forall i :: 0 <= i < |rest| ==> rest[i] == hops[i + 1];
      SettleUpdates(original, next, tx, t, rest);
      var r := Settle(original, next, tx, t, rest).value;
      assert r[id0] == next[id0];
      forall i | 0 <= i < |hops| ensures hops[i].channelId in r
          && r[hops[i].channelId] == Move(original[hops[i].channelId], tx, t, hops[i]).value {
        if i > 0 {
          assert rest[i - 1] == hops[i];
        }
      }
      forall id ensures id in r <==> id in acc || exists i :: 0 <= i < |hops| && hops[i].channelId == id {
        if id in r && id !in next {
          var i :| 0 <= i < |rest| && rest[i].channelId == id;
          assert hops[i + 1].channelId == id;
        }
        if exists i :: 0 <= i < |hops| && hops[i].channelId == id {
          var i :| 0 <= i < |hops| && hops[i].channelId == id;
        }
      }
    }
  }

  lemma {:induction false} SettleNeedsEveryHop(
      original: map<ChannelId, Channel>, acc: map<ChannelId, Channel>, tx: TxId, t: Terms, hops: seq<Hop>, i: nat)
    requires Settle(original, acc, tx, t, hops).Ok? && i < |hops|
    decreases hops
    ensures hops[i].channelId in original && Move(original[hops[i].channelId], tx, t, hops[i]).Ok?
  {
    if i > 0 {
      var id0 := hops[0].channelId;
      SettleNeedsEveryHop(original, acc[id0 := Move(original[id0], tx, t, hops[0]).value], tx, t, hops[1..], i - 1);
    }
  }

  /** With distinct hop channels, a channel's hop alone decides its debits. */
  lemma DebitOfHop(channels: map<ChannelId, Channel>, t: Terms, i: nat, n: Lane)
    requires Registered(channels) && Fits(channels, t) && i < |t.hops| && t.hops[i].channelId == n.channel
    ensures Debit(channels, t, n) == if SenderSide(channels[n.channel], t.hops[i]) == Some(n.side)
                then Amount(t, n.asset) else 0
  {
    if SpendsFrom(t.hops, n.channel, SenderAt(channels, n)) {
      var j :| 0 <= j < |t.hops| && t.hops[j].channelId == n.channel && t.hops[j].fromAddress == SenderAt(channels, n);
      assert j == i;
    }
  }

  lemma NoHopNoDebit(channels: map<ChannelId, Channel>, t: Terms, n: Lane)
    requires n.channel in channels && forall i :: 0 <= i < |t.hops| ==> t.hops[i].channelId != n.channel
    ensures Debit(channels, t, n) == 0
  {
  }

  lemma MovePays(c: Channel, tx: TxId, t: Terms, h: Hop)
    requires c.leftHac + c.rightHac <= U64_MAX && c.leftSatoshi + c.rightSatoshi <= U64_MAX
    requires SenderSide(c, h).Some? && c.lastSettle != Some(tx)
    requires t.zhu <= Balance(c, SenderSide(c, h).value, Hac)
    requires t.satoshi <= Balance(c, SenderSide(c, h).value, Satoshi)
    ensures Move(c, tx, t, h).Ok?
  {
  }

  lemma MoveShifts(c: Channel, tx: TxId, t: Terms, h: Hop, s: Side, a: Asset)
    requires c.left != c.right && Move(c, tx, t, h).Ok?
    ensures var m := Move(c, tx, t, h).value;
            && m.left == c.left && m.right == c.right && m.lastSettle == Some(tx) && c.lastSettle != Some(tx)
            && Balance(m, s, a) == Balance(c, s, a)
                 - (if SenderSide(c, h) == Some(s) then Amount(t, a) else 0)
                 + (if SenderSide(c, h) == Some(Flip(s)) then Amount(t, a) else 0)
            && SenderSide(c, h).Some?
            && Amount(t, a) <= Balance(c, SenderSide(c, h).value, a)
  {
  }

  /** Settling succeeds exactly if every lane can pay and no hop channel carries this settlement's mark. */
  lemma SettlesIff(channels: map<ChannelId, Channel>, tx: TxId, t: Terms)
    requires Registered(channels) && Fits(channels, t)
    ensures (forall id :: id in channels ==> channels[id].lastSettle != Some(tx)) ==>
              (Settle(channels, channels, tx, t, t.hops).Ok? <==> CanSettle(channels, tx, t))
    ensures Settle(channels, channels, tx, t, t.hops).Ok? ==>
              IsSettled(channels, Settle(channels, channels, tx, t, t.hops).value, tx, t)
  {
    var r := Settle(channels, channels, tx, t, t.hops);
    if CanSettle(channels, tx, t) {
      forall i | 0 <= i < |t.hops| ensures Move(channels[t.hops[i].channelId], tx, t, t.hops[i]).Ok? {
        var h := t.hops[i];
        var side := SenderSide(channels[h.channelId], h).value;
        DebitOfHop(channels, t, i, Lane(h.channelId, side, Hac));
        DebitOfHop(channels, t, i, Lane(h.channelId, side, Satoshi));
        MovePays(channels[h.channelId], tx, t, h);
      }
      SettleUpdates(channels, channels, tx, t, t.hops);
    }
    if r.Ok? {
      forall i | 0 <= i < |t.hops| ensures Move(channels[t.hops[i].channelId], tx, t, t.hops[i]).Ok? {
        SettleNeedsEveryHop(channels, channels, tx, t, t.hops, i);
      }
      SettleUpdates(channels, channels, tx, t, t.hops);
      forall n: Lane | n.channel in channels
        ensures n.channel in r.value
        ensures r.value[n.channel].left == channels[n.channel].left
        ensures r.value[n.channel].right == channels[n.channel].right
        ensures BalanceAt(r.value, n) == BalanceAt(channels, n) - Debit(channels, t, n)
                + Debit(channels, t, Opposite(n))
        ensures Debit(channels, t, n) <= BalanceAt(channels, n)
        ensures r.value[n.channel].lastSettle == channels[n.channel].lastSettle
                    || r.value[n.channel].lastSettle == Some(tx)
      {
        SettledLane(channels, r.value, tx, t, n);
      }
      forall id | id in channels ensures id in r.value && r.value[id].left == channels[id].left
          && r.value[id].right == channels[id].right
          && (r.value[id].lastSettle == channels[id].lastSettle || r.value[id].lastSettle == Some(tx)) {
        assert Lane(id, Left, Hac).channel == id;
      }
    }
  }

  lemma SettledLane(channels: map<ChannelId, Channel>, after: map<ChannelId, Channel>, tx: TxId, t: Terms, n: Lane)
    requires Registered(channels) && Fits(channels, t) && n.channel in channels && n.channel in after
    requires forall i :: 0 <= i < |t.hops| ==> Move(channels[t.hops[i].channelId], tx, t, t.hops[i]).Ok?
    requires forall i :: 0 <= i < |t.hops| ==>
                           && t.hops[i].channelId in after
                           && after[t.hops[i].channelId] == Move(channels[t.hops[i].channelId], tx, t, t.hops[i]).value
    requires (forall i :: 0 <= i < |t.hops| ==> t.hops[i].channelId != n.channel) ==>
                 after[n.channel] == channels[n.channel]
    ensures after[n.channel].left == channels[n.channel].left && after[n.channel].right == channels[n.channel].right
    ensures BalanceAt(after, n) == BalanceAt(channels, n) - Debit(channels, t, n) + Debit(channels, t, Opposite(n))
    ensures Debit(channels, t, n) <= BalanceAt(channels, n)
    ensures after[n.channel].lastSettle == channels[n.channel].lastSettle || after[n.channel].lastSettle == Some(tx)
  {
    if i :| 0 <= i < |t.hops| && t.hops[i].channelId == n.channel {
      DebitOfHop(channels, t, i, n);
      DebitOfHop(channels, t, i, Opposite(n));
      MoveShifts(channels[n.channel], tx, t, t.hops[i], n.side, n.asset);
    } else {
      NoHopNoDebit(channels, t, n);
      NoHopNoDebit(channels, t, Opposite(n));
    }
  }

  /** Settling keeps every channel's total: what one side loses the other gains. */
  lemma SettleConserves(before: map<ChannelId, Channel>, after: map<ChannelId, Channel>, tx: TxId, t: Terms, n: Lane)
    requires IsSettled(before, after, tx, t) && n.channel in before
    ensures BalanceAt(after, n) + BalanceAt(after, Opposite(n)) == BalanceAt(before, n) + BalanceAt(before, Opposite(n))
  {
    SettledAt(before, after, tx, t, n);
    SettledAt(before, after, tx, t, Opposite(n));
    assert Opposite(Opposite(n)) == n;
  }

  lemma SettledAt(before: map<ChannelId, Channel>, after: map<ChannelId, Channel>, tx: TxId, t: Terms, n: Lane)
    requires IsSettled(before, after, tx, t) && n.channel in before
    ensures n.channel in after
    ensures BalanceAt(after, n) == BalanceAt(before, n) - Debit(before, t, n) + Debit(before, t, Opposite(n))
  {
  }

  lemma SettledStaysRegistered(before: map<ChannelId, Channel>, after: map<ChannelId, Channel>, tx: TxId, t: Terms)
    requires Registered(before) && IsSettled(before, after, tx, t)
    ensures Registered(after)
  {
    forall id | id in after ensures
        && after[id].left != after[id].right
        && after[id].leftHac + after[id].rightHac <= U64_MAX
        && after[id].leftSatoshi + after[id].rightSatoshi <= U64_MAX
    {
      SettleConserves(before, after, tx, t, Lane(id, Left, Hac));
      SettleConserves(before, after, tx, t, Lane(id, Left, Satoshi));
    }
  }

  /** A covered ledger always pays what it reserved, and stays covered. */
  lemma ReservedCanSettle(l: Ledger, tx: TxId)
    requires Covered(l) && tx in l.reservations
    ensures forall n: Lane :: n.channel in l.channels ==>
                Debit(l.channels, l.reservations[tx], n) <= BalanceAt(l.channels, n)
  {
    forall n: Lane | n.channel in l.channels
      ensures Debit(l.channels, l.reservations[tx], n) <= BalanceAt(l.channels, n)
    {
      HeldRemove(l.reservations, tx, n.channel, SenderAt(l.channels, n), n.asset);
      SumNonNegative((l.reservations - {tx}).Keys,
                     DueIn(l.reservations - {tx}, n.channel, SenderAt(l.channels, n), n.asset));
    }
  }

  lemma SettleKeepsLaneCovered(l: Ledger, after: map<ChannelId, Channel>, tx: TxId, n: Lane)
    requires Covered(l) && tx in l.reservations && IsSettled(l.channels, after, tx, l.reservations[tx])
    requires n.channel in l.channels
    ensures n.channel in after && HeldAt(after, l.reservations - {tx}, n) <= BalanceAt(after, n)
  {
    var from := SenderAt(l.channels, n);
    HeldRemove(l.reservations, tx, n.channel, from, n.asset);
    assert SenderAt(after, n) == from;
    assert HeldAt(l.channels, l.reservations, n) <= BalanceAt(l.channels, n);
    assert Debit(l.channels, l.reservations[tx], n) == Due(l.reservations[tx], n.channel, from, n.asset);
  }

  lemma SettleKeepsCovered(l: Ledger, after: map<ChannelId, Channel>, tx: TxId)
    requires Covered(l) && tx in l.reservations && IsSettled(l.channels, after, tx, l.reservations[tx])
    ensures Covered(Ledger(after, l.reservations - {tx}, l.applied + {tx}))
  {
    forall n: Lane | n.channel in after
      ensures HeldAt(after, l.reservations - {tx}, n) <= BalanceAt(after, n)
    {
      SettleKeepsLaneCovered(l, after, tx, n);
    }
  }
}
