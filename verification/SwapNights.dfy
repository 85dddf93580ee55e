/** Swap booked in closed form at each close against a broker that charges every night. */
module SwapNights {
  import opened Domain
  import opened TradingDay
  import opened Rollover
  import opened SimBroker
  import opened BrokerRuns

  /** The swap of the record that `op` adds for `ticket`, if it adds one. */
  function SwapOfStep(t: Terms, b: Books, op: Op, ticket: nat): real {
    if op.ClosePosition? && op.ticket == ticket && Close(t, b, ticket, op.volume).1.ok then
      var trades := Close(t, b, ticket, op.volume).0.trades;
      trades[|trades| - 1].swap
    else 0.0
  }

  /** The swap in all trade records of `ticket` over a run. */
  function SwapBooked(t: Terms, b: Books, ops: seq<Op>, ticket: nat): real {
    if ops == [] then 0.0
    else
      var init := ops[..|ops| - 1];
      SwapBooked(t, b, init, ticket) + SwapOfStep(t, RunOps(t, b, init), ops[|ops| - 1], ticket)
  }

  /** Charging by the night: each rollover instant the clock crosses costs the volume held just before it. */
  ghost function NightlyOfStep(t: Terms, b: Books, op: Op, ticket: nat): real {
    if op.AdvanceClock? && ticket in b.positions then
      var p := b.positions[ticket];
      |Rollovers(b.simTime, op.now, t.rolloverHour)| as real
        * (if p.side == BUY then t.swapLongPerLot else t.swapShortPerLot) * p.volume
    else 0.0
  }

  ghost function NightlySwap(t: Terms, b: Books, ops: seq<Op>, ticket: nat): real {
    if ops == [] then 0.0
    else
      var init := ops[..|ops| - 1];
      NightlySwap(t, b, init, ticket) + NightlyOfStep(t, RunOps(t, b, init), ops[|ops| - 1], ticket)
  }

  /** Swap accrued by what is still open, not yet in any record. */
  function Outstanding(t: Terms, b: Books, ticket: nat): real {
    if ticket in b.positions then t.Swap(b.positions[ticket], b.positions[ticket].volume, b.simTime) else 0.0
  }

  /** The clock is only ever advanced forward. */
  predicate ClockForward(t: Terms, b: Books, ops: seq<Op>) {
    ops != [] ==>
      var init, op := ops[..|ops| - 1], ops[|ops| - 1];
      ClockForward(t, b, init) && (op.AdvanceClock? ==> RunOps(t, b, init).simTime <= op.now)
  }

  ghost predicate OpenedInPast(b: Books) {
    forall k :: k in b.positions ==> b.positions[k].openTime <= b.simTime
  }

  lemma SwapSplits(t: Terms, pos: Position, part: real, now: int)
    ensures t.Swap(pos, part, now) + t.Swap(pos.(volume := pos.volume - part), pos.volume - part, now)
         == t.Swap(pos, pos.volume, now)
  {
    hide RolloverCount;
    var perLot := RolloverCount(pos.openTime, now, t.rolloverHour) as real * t.SwapRate(pos.side);
    assert perLot * part + perLot * (pos.volume - part) == perLot * pos.volume;
  }

  lemma SwapGrowsByNights(t: Terms, pos: Position, from: int, now: int)
    requires ValidAnchor(t.rolloverHour) && pos.openTime <= from <= now
    ensures t.Swap(pos, pos.volume, now) == t.Swap(pos, pos.volume, from)
      + |Rollovers(from, now, t.rolloverHour)| as real * t.SwapRate(pos.side) * pos.volume
  {
    hide RolloverCount, Rollovers, Terms.SwapRate;
    CountIsAdditive(pos.openTime, from, now, t.rolloverHour);
    CountIsInstants(from, now, t.rolloverHour);
    var x := RolloverCount(pos.openTime, from, t.rolloverHour) as real;
    var y := RolloverCount(from, now, t.rolloverHour) as real;
    var rate := t.SwapRate(pos.side) * pos.volume;
    assert (x + y) * rate == x * rate + y * rate;
  }

  lemma NoNightsYet(t: Terms, pos: Position, qty: real)
    ensures t.Swap(pos, qty, pos.openTime) == 0.0
  {
  }

  /** Apart from closing it or advancing the clock, a step leaves a ticket's swap basis alone or opens it now. */
  ghost predicate BasisKept(b: Books, b': Books, ticket: nat) {
    && b'.simTime == b.simTime
    && (ticket in b.positions ==>
          && ticket in b'.positions
          && var p, p' := b.positions[ticket], b'.positions[ticket];
             p' == p.(sl := p'.sl, tp := p'.tp))
    && (ticket !in b.positions && ticket in b'.positions ==> b'.positions[ticket].openTime == b.simTime)
  }

  lemma CheckKeepsBasis(t: Terms, b: Books, symbol: string, seen: Observation, ticket: nat)
    requires Consistent(b)
    ensures BasisKept(b, CheckPending(t, b, symbol, seen), ticket)
  {
    hide Fires, CheckList, Tickets;
    CheckListPending(t, b, symbol, seen, Tickets(b.pending, b.nextTicket), ticket);
  }

  lemma OtherStepsKeepBasis(t: Terms, b: Books, op: Op, ticket: nat)
    requires Consistent(b)
    requires !op.AdvanceClock? && !(op.ClosePosition? && op.ticket == ticket)
    ensures BasisKept(b, Apply(t, b, op), ticket)
  {
    hide CheckPending, Close, Place, Modify, BasisKept;
    match op
    case CheckPendings(symbol, seen) => CheckKeepsBasis(t, b, symbol, seen, ticket);
    case ClosePosition(other, volume) => CloseKeepsBasis(t, b, other, volume, ticket);
    case PlaceOrder(req) => PlaceKeepsBasis(t, b, req, ticket);
    case ModifyOrder(k, sl, tp, price, volume) => ModifyKeepsBasis(b, k, sl, tp, price, volume, ticket);
    case _ => UnmovedKeepsBasis(b, Apply(t, b, op), ticket);
  }

  lemma UnmovedKeepsBasis(b: Books, b': Books, ticket: nat)
    requires b'.positions == b.positions && b'.simTime == b.simTime
    ensures BasisKept(b, b', ticket)
  {
  }

  lemma PlaceKeepsBasis(t: Terms, b: Books, req: OrderRequest, ticket: nat)
    requires Consistent(b)
    ensures BasisKept(b, Place(t, b, req).0, ticket)
  {
    hide Terms.SlippedPrice, Terms.Commission;
  }

  lemma ModifyKeepsBasis(
      b: Books, k: nat, sl: Option<real>, tp: Option<real>, price: Option<real>, volume: Option<real>, ticket: nat)
    ensures BasisKept(b, Modify(b, k, sl, tp, price, volume).0, ticket)
  {
    hide OrElse;
  }

  lemma CloseKeepsBasis(t: Terms, b: Books, other: nat, volume: Option<real>, ticket: nat)
    requires other != ticket
    ensures BasisKept(b, Close(t, b, other, volume).0, ticket)
  {
    hide Terms.SlippedPrice, Trade, BookTrade;
    if other in b.positions {
      BookTradeKeepsTime(t);
    }
  }

  lemma BookTradeKeepsTime(t: Terms)
    ensures forall b, pos, trade :: BookTrade(t, b, pos, trade).simTime == b.simTime
  {
  }

  lemma OpenedInPastKept(t: Terms, b: Books, op: Op)
    requires Consistent(b) && OpenedInPast(b)
    requires op.AdvanceClock? ==> b.simTime <= op.now
    ensures OpenedInPast(Apply(t, b, op))
  {
    var b' := Apply(t, b, op);
    if !op.AdvanceClock? {
      hide Apply;
      forall k | k in b'.positions ensures b'.positions[k].openTime <= b'.simTime {
        if op.ClosePosition? && op.ticket == k {
          ClosedBasis(t, b, k, op.volume);
        } else {
          OtherStepsKeepBasis(t, b, op, k);
        }
      }
    }
  }

  /** Closing books the swap of the closed part; what is left keeps its side, open time and remaining volume. */
  lemma ClosedBasis(t: Terms, b: Books, ticket: nat, volume: Option<real>)
    ensures
      var b' := Apply(t, b, ClosePosition(ticket, volume));
      && b'.simTime == b.simTime
      && (ticket in b'.positions ==>
            ticket in b.positions && b'.positions[ticket].openTime == b.positions[ticket].openTime)
      && SwapOfStep(t, b, ClosePosition(ticket, volume), ticket) + Outstanding(t, b', ticket)
         == Outstanding(t, b, ticket)
  {
    hide Terms.SlippedPrice, Terms.Swap, Terms.Gross, Terms.Commission;
    if Close(t, b, ticket, volume).1.ok {
      var pos := b.positions[ticket];
      var fullClose := volume.None? || volume.value >= pos.volume;
      SwapSplits(t, pos, if fullClose then pos.volume else volume.value, b.simTime);
    }
  }

  lemma AccountStep(t: Terms, b: Books, op: Op, ticket: nat)
    requires ValidAnchor(t.rolloverHour) && Consistent(b) && OpenedInPast(b)
    requires op.AdvanceClock? ==> b.simTime <= op.now
    ensures SwapOfStep(t, b, op, ticket) + Outstanding(t, Apply(t, b, op), ticket)
         == Outstanding(t, b, ticket) + NightlyOfStep(t, b, op, ticket)
  {
    hide Terms.Swap, Rollovers;
    if op.AdvanceClock? {
      if ticket in b.positions {
        SwapGrowsByNights(t, b.positions[ticket], b.simTime, op.now);
      }
    } else {
      hide Apply;
      if op.ClosePosition? && op.ticket == ticket {
        ClosedBasis(t, b, ticket, op.volume);
      } else {
        var b' := Apply(t, b, op);
        OtherStepsKeepBasis(t, b, op, ticket);
        if ticket in b.positions {
          SwapOfBasis(t, b.positions[ticket], b'.positions[ticket], b.simTime);
        } else if ticket in b'.positions {
          NoNightsYet(t, b'.positions[ticket], b'.positions[ticket].volume);
        }
      }
    }
  }

  lemma SwapOfBasis(t: Terms, p: Position, p': Position, now: int)
    requires p' == p.(sl := p'.sl, tp := p'.tp)
    ensures t.Swap(p', p'.volume, now) == t.Swap(p, p.volume, now)
  {
    hide RolloverCount;
  }

  /** Over any run and for every ticket: booked swap plus what is outstanding is the nightly charge. */
  lemma {:induction false} SwapIsNightly(
      t: Terms, initialBalance: real, now: int, ops: seq<Op>, ticket: nat)
    requires ValidAnchor(t.rolloverHour)
    requires ClockForward(t, Opening(initialBalance, now), ops)
    ensures
      var b := RunOps(t, Opening(initialBalance, now), ops);
      && OpenedInPast(b)
      && SwapBooked(t, Opening(initialBalance, now), ops, ticket) + Outstanding(t, b, ticket)
         == NightlySwap(t, Opening(initialBalance, now), ops, ticket)
  {
    hide Apply, SwapOfStep, NightlyOfStep, OpenedInPast, Terms.Swap, Consistent, TicketsAccounted, LedgerBalances;
    var start := Opening(initialBalance, now);
    if ops == [] {
      NothingHeld(t, initialBalance, now, ticket);
    } else {
      var init, op := ops[..|ops| - 1], ops[|ops| - 1];
      SwapIsNightly(t, initialBalance, now, init, ticket);
      ReachableIsSound(t, initialBalance, now, init);
      var b := RunOps(t, start, init);
      OpenedInPastKept(t, b, op);
      AccountStep(t, b, op, ticket);
    }
  }

  lemma NothingHeld(t: Terms, initialBalance: real, now: int, ticket: nat)
    ensures OpenedInPast(Opening(initialBalance, now))
    ensures Outstanding(t, Opening(initialBalance, now), ticket) == 0.0
  {
  }

  /** However a position was closed in parts, its records carry the nightly charge once it is gone. */
  lemma ClosedPositionSwap(t: Terms, initialBalance: real, now: int, ops: seq<Op>, ticket: nat)
    requires ValidAnchor(t.rolloverHour)
    requires ClockForward(t, Opening(initialBalance, now), ops)
    requires StatusOf(RunOps(t, Opening(initialBalance, now), ops), ticket) == Closed
    ensures SwapBooked(t, Opening(initialBalance, now), ops, ticket)
         == NightlySwap(t, Opening(initialBalance, now), ops, ticket)
  {
    hide RunOps, SwapBooked, NightlySwap, ClockForward, OpenedInPast, ClosedTickets, CancelledTickets;
    SwapIsNightly(t, initialBalance, now, ops, ticket);
  }
}
