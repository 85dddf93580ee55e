/** The tables hold what was asked for: each entry against the request it came from, as last modified. */
module StandingOrders {
  import opened Domain
  import opened SimBroker
  import opened BrokerRuns

  /** A request is taken when its symbol is quoted and, unless it is a market order, it names a price. */
  predicate Taken(b: Books, req: OrderRequest) {
    req.symbol in b.lastBid && req.symbol in b.lastAsk && (req.kind == MARKET || req.price.Some?)
  }

  /** What stands for `ticket` after `op`. Only what a modification supplies changes; price and volume can only be
      modified while the order is pending, and then not to a volume of zero or less. */
  function StandsAfter(b: Books, op: Op, ticket: nat, before: Option<OrderRequest>): Option<OrderRequest> {
    match op
    case PlaceOrder(req) => if ticket == b.nextTicket && Taken(b, req) then Some(req) else before
    case ModifyOrder(k, sl, tp, price, volume) =>
      if k != ticket || before.None? then before
      else
        var r := before.value;
        var moved := r.(sl := if sl.None? then r.sl else sl, tp := if tp.None? then r.tp else tp);
        if ticket in b.positions then Some(moved)
        else if volume.None? then Some(moved.(price := if price.None? then r.price else price))
        else if volume.value <= 0.0 then before
        else Some(moved.(price := if price.None? then r.price else price, volume := volume.value))
    case _ => before
  }

  /** The request that stands for `ticket` after a run. */
  function Stands(t: Terms, b: Books, ops: seq<Op>, ticket: nat): Option<OrderRequest> {
    if ops == [] then None
    else
      var init := ops[..|ops| - 1];
      StandsAfter(RunOps(t, b, init), ops[|ops| - 1], ticket, Stands(t, b, init, ticket))
  }

  /** The volume that partial closes of `ticket` have announced. */
  function ClosedInParts(events: seq<Event>, ticket: nat): real {
    if events == [] then 0.0
    else
      var e := events[|events| - 1];
      ClosedInParts(events[..|events| - 1], ticket)
        + if e.PartialClosed? && e.position.ticket == ticket then e.closedVolume else 0.0
  }

  predicate IsOrderFor(o: Order, r: OrderRequest) {
    && o.kind == r.kind != MARKET && o.side == r.side && o.symbol == r.symbol && o.volume == r.volume
    && o.price == r.price && o.sl == r.sl && o.tp == r.tp && o.magic == r.magic && o.strategyId == r.strategyId
    && o.status == SUBMITTED && o.filledVolume == 0.0 && o.fillPrice.None? && o.filledAt.None?
  }

  predicate IsPositionFor(p: Position, owner: string, closed: real, r: OrderRequest) {
    && p.symbol == r.symbol && p.side == r.side && p.sl == r.sl && p.tp == r.tp && p.magic == r.magic
    && owner == r.strategyId && p.volume == r.volume - closed
  }

  /** A pending order is the request; a position is the request less what was closed of it. */
  ghost predicate HoldsRequest(b: Books, ticket: nat, stands: Option<OrderRequest>) {
    && (ticket in b.pending || ticket >= b.nextTicket ==> ClosedInParts(b.events, ticket) == 0.0)
    && (ticket in b.pending ==> stands.Some? && IsOrderFor(b.pending[ticket], stands.value))
    && (ticket in b.positions ==>
          && stands.Some? && ticket in b.strategyOf
          && IsPositionFor(b.positions[ticket], b.strategyOf[ticket], ClosedInParts(b.events, ticket), stands.value))
  }

  lemma PartsAppended(events: seq<Event>, e: Event, ticket: nat)
    ensures ClosedInParts(events + [e], ticket) == ClosedInParts(events, ticket)
      + if e.PartialClosed? && e.position.ticket == ticket then e.closedVolume else 0.0
  {
    assert (events + [e])[..|events|] == events;
  }

  lemma PlaceHolds(t: Terms, b: Books, req: OrderRequest, ticket: nat, stands: Option<OrderRequest>)
    requires Consistent(b) && HoldsRequest(b, ticket, stands)
    ensures HoldsRequest(Place(t, b, req).0, ticket, StandsAfter(b, PlaceOrder(req), ticket, stands))
  {
    hide ClosedInParts, Terms.Commission, Terms.SlippedPrice;
    PartsAppended(b.events, OrderSubmitted(NewOrder(b.nextTicket, req, b.simTime)), ticket);
  }

  lemma CheckOneHolds(
      t: Terms, b: Books, symbol: string, seen: Observation, k: nat, ticket: nat, stands: Option<OrderRequest>)
    requires Consistent(b) && HoldsRequest(b, ticket, stands)
    ensures HoldsRequest(CheckOne(t, b, symbol, seen, k), ticket, stands)
  {
    hide ClosedInParts, Terms.Commission, Fires, PendingFill;
    if k in b.pending && b.pending[k].symbol == symbol && Fires(b.pending[k], seen) {
      var fill := PendingFill(t, b.slippageCalls, b.pending[k], seen);
      PartsAppended(b.events, OrderFilled(FilledOrder(b.pending[k], fill.0, b.simTime)), ticket);
    }
  }

  lemma {:induction false} CheckListHolds(
      t: Terms, b: Books, symbol: string, seen: Observation, tickets: seq<nat>, ticket: nat,
      stands: Option<OrderRequest>, initialBalance: real)
    requires Sound(t, b, initialBalance) && HoldsRequest(b, ticket, stands)
    ensures HoldsRequest(CheckList(t, b, symbol, seen, tickets), ticket, stands)
  {
    hide CheckOne, HoldsRequest, Consistent, TicketsAccounted, LedgerBalances;
    if tickets != [] {
      var init := tickets[..|tickets| - 1];
      CheckListHolds(t, b, symbol, seen, init, ticket, stands, initialBalance);
      CheckListKeeps(t, b, symbol, seen, init, initialBalance);
      CheckOneHolds(t, CheckList(t, b, symbol, seen, init), symbol, seen, tickets[|tickets| - 1], ticket, stands);
    }
  }

  lemma ModifyHolds(
      b: Books, k: nat, sl: Option<real>, tp: Option<real>, price: Option<real>, volume: Option<real>,
      ticket: nat, stands: Option<OrderRequest>)
    requires Consistent(b) && HoldsRequest(b, ticket, stands)
    ensures HoldsRequest(Modify(b, k, sl, tp, price, volume).0, ticket,
                         StandsAfter(b, ModifyOrder(k, sl, tp, price, volume), ticket, stands))
  {
    hide ClosedInParts, IsOrderFor, IsPositionFor;
    if k == ticket && k in b.pending {
      ModifiedOrder(b, sl, tp, price, volume, ticket, stands.value);
    } else if k == ticket && k in b.positions {
      ModifiedPosition(b, sl, tp, price, volume, ticket, stands.value);
    }
  }

  lemma ModifiedOrder(
      b: Books, sl: Option<real>, tp: Option<real>, price: Option<real>, volume: Option<real>, k: nat, r: OrderRequest)
    requires k in b.pending && k !in b.positions && IsOrderFor(b.pending[k], r)
    ensures
      var b' := Modify(b, k, sl, tp, price, volume).0;
      && b' == b.(pending := b'.pending) && k in b'.pending
      && IsOrderFor(b'.pending[k], StandsAfter(b, ModifyOrder(k, sl, tp, price, volume), k, Some(r)).value)
  {
    hide OrElse;
    var p := b.pending[k];
    SuppliedElseKept(sl, p.sl);
    SuppliedElseKept(tp, p.tp);
    SuppliedElseKept(price, p.price);
  }

  lemma SuppliedElseKept(x: Option<real>, current: Option<real>)
    ensures OrElse(x, current) == if x.None? then current else x
  {
  }

  lemma ModifiedPosition(
      b: Books, sl: Option<real>, tp: Option<real>, price: Option<real>, volume: Option<real>, k: nat, r: OrderRequest)
    requires k !in b.pending && k in b.positions
    ensures
      var b' := Modify(b, k, sl, tp, price, volume).0;
      && b' == b.(positions := b'.positions) && k in b'.positions
      && forall owner: string, closed: real :: IsPositionFor(b.positions[k], owner, closed, r) ==>
           IsPositionFor(b'.positions[k], owner, closed,
                         StandsAfter(b, ModifyOrder(k, sl, tp, price, volume), k, Some(r)).value)
  {
  }

  lemma SettleHolds(t: Terms, b: Books, k: nat, fullClose: bool, qty: real, closePrice: real,
                    ticket: nat, stands: Option<OrderRequest>)
    requires Consistent(b) && k in b.positions && HoldsRequest(b, ticket, stands)
    ensures HoldsRequest(Settle(t, b, b.positions[k], k, fullClose, qty, closePrice), ticket, stands)
  {
    hide ClosedInParts, Trade, BookTrade;
    var pos := b.positions[k];
    var trade := Trade(t, pos, qty, closePrice, b.simTime);
    BookTradeMovesMoney(t, b, pos, trade);
    var closed := PositionClosed(pos, trade.pnl, closePrice);
    var shown := BacktestTradeClosed(pos.ticket, GetOr(b.strategyOf, k, ""), trade);
    assert b.events + [closed, shown] == b.events + [closed] + [shown];
    PartsAppended(b.events, closed, ticket);
    PartsAppended(b.events + [closed], shown, ticket);
    PartsAppended(b.events, PartialClosed(pos.(volume := pos.volume - qty), qty, trade.pnl, closePrice), ticket);
  }

  lemma CloseHolds(t: Terms, b: Books, k: nat, volume: Option<real>, ticket: nat, stands: Option<OrderRequest>)
    requires Consistent(b) && HoldsRequest(b, ticket, stands)
    ensures HoldsRequest(Close(t, b, k, volume).0, ticket, stands)
  {
    hide ClosedInParts, Settle, Terms.SlippedPrice, IsOrderFor, IsPositionFor;
    if k in b.positions {
      var pos := b.positions[k];
      var fullClose := volume.None? || volume.value >= pos.volume;
      var closePrice := t.SlippedPrice(b.slippageCalls, if pos.side == BUY then SELL else BUY,
                                       b.lastBid[pos.symbol], b.lastAsk[pos.symbol]);
      SettleHolds(t, b.(slippageCalls := b.slippageCalls + 1), k, fullClose,
                  if fullClose then pos.volume else volume.value, closePrice, ticket, stands);
    }
  }

  lemma CancelHolds(b: Books, k: nat, ticket: nat, stands: Option<OrderRequest>)
    requires Consistent(b) && HoldsRequest(b, ticket, stands)
    ensures HoldsRequest(Cancel(b, k).0, ticket, stands)
  {
    hide ClosedInParts, IsOrderFor, IsPositionFor;
    if k in b.pending {
      PartsAppended(b.events, OrderCancelled(b.pending[k].(status := CANCELLED)), ticket);
    }
  }

  lemma StepHolds(t: Terms, b: Books, op: Op, ticket: nat, stands: Option<OrderRequest>, initialBalance: real)
    requires Sound(t, b, initialBalance) && HoldsRequest(b, ticket, stands)
    ensures HoldsRequest(Apply(t, b, op), ticket, StandsAfter(b, op, ticket, stands))
  {
    hide Place, Modify, Close, Cancel, CheckList, IsOrderFor, IsPositionFor, TicketsAccounted, LedgerBalances;
    match op {
      case PlaceOrder(req) => PlaceHolds(t, b, req, ticket, stands);
      case CheckPendings(symbol, seen) =>
        CheckListHolds(t, b, symbol, seen, Tickets(b.pending, b.nextTicket), ticket, stands, initialBalance);
      case ModifyOrder(k, sl, tp, price, volume) => ModifyHolds(b, k, sl, tp, price, volume, ticket, stands);
      case ClosePosition(k, volume) => CloseHolds(t, b, k, volume, ticket, stands);
      case CancelOrder(k) => CancelHolds(b, k, ticket, stands);
      case _ =>
    }
  }

  /** A request is accepted exactly when it can be taken, under the next ticket: a market order is a position at
      once, any other waits. A refused one leaves the books alone. */
  lemma PlaceTakes(t: Terms, b: Books, req: OrderRequest)
    ensures
      var (b', r) := Place(t, b, req);
      && (r.ok <==> Taken(b, req))
      && (!r.ok ==> b' == b)
      && (r.ok ==>
            && r.ticket == Some(b.nextTicket) && b'.nextTicket == b.nextTicket + 1
            && (if req.kind == MARKET then b.nextTicket in b'.positions && b'.pending == b.pending
                else b.nextTicket in b'.pending && b'.positions == b.positions && b'.balance == b.balance))
  {
  }

  /** In every reachable state, whatever the operations: every pending order carries all that was last asked for
      its ticket; every position carries the side, symbol, tag, owner and last stop and target asked for, and the
      volume asked for less what partial closes announced. */
  lemma {:induction false} TablesHoldRequests(t: Terms, initialBalance: real, now: int, ops: seq<Op>, ticket: nat)
    ensures
      var b := Opening(initialBalance, now);
      HoldsRequest(RunOps(t, b, ops), ticket, Stands(t, b, ops, ticket))
  {
    hide Apply, StandsAfter, Sound, IsOrderFor, IsPositionFor;
    if ops != [] {
      var init := ops[..|ops| - 1];
      var b := RunOps(t, Opening(initialBalance, now), init);
      ReachableIsSound(t, initialBalance, now, init);
      TablesHoldRequests(t, initialBalance, now, init, ticket);
      StepHolds(t, b, ops[|ops| - 1], ticket, Stands(t, Opening(initialBalance, now), init, ticket), initialBalance);
    }
  }
}
