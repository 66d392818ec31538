/** The hub's mutable ledger (src/state.rs:3289-3362 and 4777-4940), each method proved against Ledger. */
module LedgerStore {
  import opened Prelude
  import opened SetSums
  import opened Text
  import opened Transactions
  import opened Ledger

  function ChannelIds(hops: seq<Hop>): seq<ChannelId> {
    seq(|hops|, i requires 0 <= i < |hops| => hops[i].channelId)
  }

  /** `updates` inserted one after the other. */
  function Insert(channels: map<ChannelId, Channel>, updates: seq<(ChannelId, Channel)>): map<ChannelId, Channel> {
    if updates == [] then channels else
      var last := updates[|updates| - 1];
      Insert(channels, updates[..|updates| - 1])[last.0 := last.1]
  }

  /** The part of Held contributed by reservations outside `rest`. */
  ghost function Counted(
      reservations: map<TxId, Terms>, rest: set<TxId>, channel: ChannelId, from: Address, a: Asset): int {
    Held(reservations, channel, from, a) - Sum(rest, DueIn(reservations, channel, from, a))
  }

  lemma CountOne(reservations: map<TxId, Terms>, rest: set<TxId>, tx: TxId, channel: ChannelId, from: Address, a: Asset)
    requires tx in rest && rest <= reservations.Keys
    ensures Counted(reservations, rest - {tx}, channel, from, a)
            == Counted(reservations, rest, channel, from, a) + Due(reservations[tx], channel, from, a)
    ensures Counted(reservations, rest - {tx}, channel, from, a) <= Held(reservations, channel, from, a)
  {
    var due := DueIn(reservations, channel, from, a);
    SumRemove(rest, due, tx);
    SumNonNegative(rest - {tx}, due);
  }

  class HubState {
    const maxHops: nat
    var channels: map<ChannelId, Channel>
    var reservations: map<TxId, Terms>
    var applied: set<TxId>

    constructor (maxHops: nat, channels: map<ChannelId, Channel>)
      ensures this.maxHops == maxHops && View() == Ledger(channels, map[], {})
    {
      this.maxHops, this.channels, reservations, applied := maxHops, channels, map[], {};
    }

    ghost function View(): Ledger
      reads this
    {
      Ledger(channels, reservations, applied)
    }

    /** What other reservations hold on one side; None if a sum leaves u64. */
    method Reserved(channel: ChannelId, from: Address) returns (held: Option<(nat, nat)>)
      ensures var hac, satoshi := Held(reservations, channel, from, Hac), Held(reservations, channel, from, Satoshi);
              if hac > U64_MAX || satoshi > U64_MAX then held.None? else held == Some((hac, satoshi))
    {
      var hac, satoshi := 0, 0;
      var rest := reservations.Keys;
      while rest != {}
        invariant rest <= reservations.Keys
        invariant 0 <= hac <= U64_MAX && hac == Counted(reservations, rest, channel, from, Hac)
        invariant 0 <= satoshi <= U64_MAX && satoshi == Counted(reservations, rest, channel, from, Satoshi)
        decreases |rest|
      {
        var tx :| tx in rest;
        var existing := reservations[tx];
        CountOne(reservations, rest, tx, channel, from, Hac);
        CountOne(reservations, rest, tx, channel, from, Satoshi);
        rest := rest - {tx};
        if SpendsFrom(existing.hops, channel, from) {
          if hac + existing.zhu > U64_MAX || satoshi + existing.satoshi > U64_MAX {
            return None;
          }
          hac, satoshi := hac + existing.zhu, satoshi + existing.satoshi;
        }
      }
      return Some((hac, satoshi));
    }

    /** `reserve_payment_liquidity`: every hop is checked before anything is stored. */
    method ReservePaymentLiquidity(tx: TxId, t: Terms) returns (error: Option<LedgerError>)
      modifies this`reservations
      ensures error == if CheckHops(old(View()), t, t.hops).Some? then CheckHops(old(View()), t, t.hops)
                       else if tx in old(reservations) then Some(DuplicateReservation) else None
      ensures reservations == if CheckHops(old(View()), t, t.hops).Some? then old(reservations)
                  else old(reservations)[tx := t]
    {
      var i := 0;
      while i < |t.hops|
        invariant i <= |t.hops| && View() == old(View())
        invariant CheckHops(View(), t, t.hops) == CheckHops(View(), t, t.hops[i..])
      {
        var hop := t.hops[i];
        assert t.hops[i..][1..] == t.hops[i + 1..];
        if hop.channelId !in channels {
          return Some(ChannelMissing);
        }
        var c := channels[hop.channelId];
        var hacBalance, satBalance;
        if c.left == hop.fromAddress && c.right == hop.toAddress {
          hacBalance, satBalance := c.leftHac, c.leftSatoshi;
        } else if c.right == hop.fromAddress && c.left == hop.toAddress {
          hacBalance, satBalance := c.rightHac, c.rightSatoshi;
        } else {
          return Some(DirectionMismatch);
        }
        var held := Reserved(hop.channelId, hop.fromAddress);
        if held.None? {
          return Some(ReservedOverflow);
        }
        var (heldHac, heldSat) := held.value;
        if hacBalance < heldHac || satBalance < heldSat {
          return Some(ReservationsExceedBalance);
        }
        if hacBalance - heldHac < t.zhu {
          return Some(InsufficientHac);
        }
        if satBalance - heldSat < t.satoshi {
          return Some(InsufficientSatoshi);
        }
        i := i + 1;
      }
      assert t.hops[i..] == [];
      var duplicate := tx in reservations;
      reservations := reservations[tx := t];
      return if duplicate then Some(DuplicateReservation) else None;
    }

    /** `prepare_distributed_reservation`. */
    method PrepareDistributedReservation(tx: TxId, t: Terms) returns (error: Option<LedgerError>)
      modifies this`reservations
      ensures var spec := Prepared(old(View()), maxHops, tx, t);
              && (error.None? <==> spec.Ok?)
              && (spec.Ok? ==> View() == spec.value)
              && (spec.Err? ==> View() == old(View()) && error == Some(spec.error))
      ensures tx !in old(applied) && tx !in old(reservations) ==>
                (error.None? <==>
                  && |t.hops| <= maxHops
                  && (forall i :: 0 <= i < |t.hops| ==>
                        HopIsProper(t.hops[i]) && SenderCanPay(old(View()), t, t.hops[i]))
                  && (forall i, j :: 0 <= i < j < |t.hops| ==> t.hops[i].channelId != t.hops[j].channelId))
    {
      if tx !in applied && tx !in reservations {
        PreparedIff(View(), maxHops, tx, t);
      }
      if |t.hops| > maxHops {
        return Some(TooManyHops);
      }
      var seen: set<ChannelId> := {};
      var i := 0;
      while i < |t.hops|
        invariant i <= |t.hops| && View() == old(View())
        invariant CheckShape(t.hops, {}) == CheckShape(t.hops[i..], seen)
      {
        var hop := t.hops[i];
        assert t.hops[i..][1..] == t.hops[i + 1..];
        if !IsNormalized(hop.channelId) {
          return Some(ChannelIdNotNormalized);
        }
        if hop.channelId in seen {
          return Some(RepeatsChannel);
        }
        seen := seen + {hop.channelId};
        if Trim(hop.fromAddress) == "" || Trim(hop.toAddress) == "" || hop.fromAddress == hop.toAddress {
          return Some(InvalidDirection);
        }
        i := i + 1;
      }
      if tx in applied {
        return None;
      }
      if tx in reservations {
        return if reservations[tx] == t then None else Some(DifferentReservation);
      }
      error := ReservePaymentLiquidity(tx, t);
    }

    /** `release_distributed_reservation`. */
    method ReleaseDistributedReservation(tx: TxId)
      modifies this`reservations
      ensures View() == Released(old(View()), tx)
    {
      if tx !in applied {
        reservations := reservations - {tx};
      }
    }

    /** `apply_distributed_settlement`: all hops are computed first, then written, then marked applied. */
    method ApplyDistributedSettlement(tx: TxId, t: Terms) returns (r: Result<seq<ChannelId>, LedgerError>)
      modifies this
      ensures var spec := Applied(old(View()), tx, t);
              && (r.Ok? <==> spec.Ok?)
              && (spec.Ok? ==> View() == spec.value && r.value == ChannelIds(t.hops))
              && (spec.Err? ==> View() == old(View()) && r.error == spec.error)
      ensures r.Ok? && tx !in old(applied)
              && (forall i, j :: 0 <= i < j < |t.hops| ==> t.hops[i].channelId != t.hops[j].channelId) ==>
                && (forall i :: 0 <= i < |t.hops| ==>
                      && t.hops[i].channelId in old(channels) && t.hops[i].channelId in channels
                      && PaidAcross(old(channels)[t.hops[i].channelId], channels[t.hops[i].channelId], t, t.hops[i]))
                && (forall id :: id in old(channels) ==>
                      || (exists i :: 0 <= i < |t.hops| && t.hops[i].channelId == id)
                      || (id in channels && channels[id] == old(channels)[id]))
    {
      if tx in applied {
        reservations := reservations - {tx};
        return Ok(ChannelIds(t.hops));
      }
      if tx !in reservations {
        return Err(ReservationMissing);
      }
      var reservation := reservations[tx];
      if reservation.zhu != t.zhu || reservation.satoshi != t.satoshi || reservation.hops != t.hops {
        return Err(ReservationMismatch);
      }
      var updates := Updates(tx, t);
      if updates.Err? {
        return Err(updates.error);
      }
      if forall i, j :: 0 <= i < j < |t.hops| ==> t.hops[i].channelId != t.hops[j].channelId {
        SettlePaysAcross(channels, tx, t);
      }
      WriteChannels(updates.value);
      reservations := reservations - {tx};
      applied := applied + {tx};
      return Ok(ChannelIds(t.hops));
    }

    /** The preflight: what every hop's channel becomes, computed from the live channels. */
    method Updates(tx: TxId, t: Terms) returns (r: Result<seq<(ChannelId, Channel)>, LedgerError>)
      ensures var spec := Settle(channels, channels, tx, t, t.hops);
              && (r.Ok? <==> spec.Ok?)
              && (spec.Ok? ==> Insert(channels, r.value) == spec.value)
              && (spec.Err? ==> r.error == spec.error)
    {
      var updates: seq<(ChannelId, Channel)> := [];
      var i := 0;
      while i < |t.hops|
        invariant i <= |t.hops|
        invariant Settle(channels, channels, tx, t, t.hops)
                      == Settle(channels, Insert(channels, updates), tx, t, t.hops[i..])
      {
        var hop := t.hops[i];
        assert t.hops[i..][1..] == t.hops[i + 1..];
        if hop.channelId !in channels {
          return Err(ChannelMissing);
        }
        var moved := Move(channels[hop.channelId], tx, t, hop);
        if moved.Err? {
          return Err(moved.error);
        }
        assert (updates + [(hop.channelId, moved.value)])[..|updates|] == updates;
        updates := updates + [(hop.channelId, moved.value)];
        i := i + 1;
      }
      return Ok(updates);
    }

    method WriteChannels(updates: seq<(ChannelId, Channel)>)
      modifies this`channels
      ensures channels == Insert(old(channels), updates)
    {
      var i := 0;
      while i < |updates|
        invariant i <= |updates| && channels == Insert(old(channels), updates[..i])
      {
        assert updates[..i + 1][..i] == updates[..i];
        channels := channels[updates[i].0 := updates[i].1];
        i := i + 1;
      }
      assert updates[..i] == updates;
    }
  }
}
