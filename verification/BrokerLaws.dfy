/** What the broker's operations come to in prices and money, in plain arithmetic. */
module BrokerLaws {
  import opened Domain
  import opened TradingDay
  import opened Rollover
  import opened SimBroker
  import opened BrokerRuns

  // ---- Closing -------------------------------------------------------------------

  /** The money of one close: a long gains what the price rose and a short what it fell, per unit held. */
  ghost predicate IsSettledAt(t: Terms, pos: Position, qty: real, closePrice: real, now: int, trade: TradeRecord) {
    var size := if pos.symbol in t.contractSizes then t.contractSizes[pos.symbol] else t.defaultContractSize;
    var moved := if pos.side == BUY then closePrice - pos.openPrice else pos.openPrice - closePrice;
    var nights := |Rollovers(pos.openTime, now, t.rolloverHour)| as real;
    && trade.swap == nights * (if pos.side == BUY then t.swapLongPerLot else t.swapShortPerLot) * qty
    && trade.fees == 2.0 * (t.commissionPerLot * qty)
    && trade.pnl == moved * qty * size - trade.fees + trade.swap
    && trade.side == pos.side && trade.volume == qty
    && trade.openPrice == pos.openPrice && trade.closePrice == closePrice
    && trade.openTs == pos.openTime && trade.closeTs == now
  }

  lemma SignedGross(t: Terms, pos: Position, qty: real, closePrice: real)
    ensures
      var size := if pos.symbol in t.contractSizes then t.contractSizes[pos.symbol] else t.defaultContractSize;
      t.Gross(pos, qty, closePrice)
        == (if pos.side == BUY then closePrice - pos.openPrice else pos.openPrice - closePrice) * qty * size
  {
    assert (closePrice - pos.openPrice) * 1.0 == closePrice - pos.openPrice;
    assert (closePrice - pos.openPrice) * -1.0 == pos.openPrice - closePrice;
  }

  lemma TradeIsSettled(t: Terms, pos: Position, qty: real, closePrice: real, now: int)
    requires ValidAnchor(t.rolloverHour)
    ensures IsSettledAt(t, pos, qty, closePrice, now, Trade(t, pos, qty, closePrice, now))
  {
    hide Terms.Gross, Rollovers, RolloverCount;
    SignedGross(t, pos, qty, closePrice);
    CountIsInstants(pos.openTime, now, t.rolloverHour);
  }

  /** A long leaves at the sell side of the market and a short at the buy side. The balance moves by the price
      profit less one commission plus the swap; the record, and what is announced, also carry the opening one. */
  lemma CloseExactly(t: Terms, b: Books, ticket: nat, volume: Option<real>)
    requires Consistent(b) && ValidAnchor(t.rolloverHour) && ticket in b.positions
    ensures
      var pos := b.positions[ticket];
      var whole := volume.None? || volume.value >= pos.volume;
      var qty := if whole then pos.volume else volume.value;
      var (b', r) := Close(t, b, ticket, volume);
      var exit := if pos.side == BUY then SELL else BUY;
      var price := t.slippage(b.slippageCalls, exit, b.lastBid[pos.symbol], b.lastAsk[pos.symbol]);
      && r == OrderResult(true, Some(ticket), if whole then FILLED else PARTIALLY_FILLED, None)
      && |b'.trades| == |b.trades| + 1 && b'.trades[..|b.trades|] == b.trades
      && var trade := b'.trades[|b.trades|];
         && IsSettledAt(t, pos, qty, price, b.simTime, trade)
         && b'.balance - b.balance == trade.pnl + t.commissionPerLot * qty
         && b'.positions == (if whole then b.positions - {ticket}
                             else b.positions[ticket := pos.(volume := pos.volume - qty)])
         && b'.events == b.events + (
              if whole then [PositionClosed(pos, trade.pnl, price),
                             BacktestTradeClosed(ticket, b.strategyOf[ticket], trade)]
              else [PartialClosed(pos.(volume := pos.volume - qty), qty, trade.pnl, price)])
  {
    hide Trade, IsSettledAt;
    var pos := b.positions[ticket];
    var whole := volume.None? || volume.value >= pos.volume;
    var qty := if whole then pos.volume else volume.value;
    var exit := if pos.side == BUY then SELL else BUY;
    var price := t.slippage(b.slippageCalls, exit, b.lastBid[pos.symbol], b.lastAsk[pos.symbol]);
    TradeIsSettled(t, pos, qty, price, b.simTime);
    BookedBalance(t, b, pos, qty, price);
  }

  lemma BookedBalance(t: Terms, b: Books, pos: Position, qty: real, closePrice: real)
    ensures
      var trade := Trade(t, pos, qty, closePrice, b.simTime);
      BookTrade(t, b, pos, trade)
        == b.(balance := b.balance + (trade.pnl + t.commissionPerLot * qty), trades := b.trades + [trade])
  {
    hide Terms.Gross, Terms.Swap;
  }

  // ---- Round trips ----------------------------------------------------------------

  /** No slippage: buys pay the ask and sells get the bid. */
  ghost predicate FillsAtQuote(t: Terms) {
    forall calls: nat, side: Side, bid: real, ask: real ::
      t.slippage(calls, side, bid, ask) == if side == BUY then ask else bid
  }

  /** A market order takes the caller's side of the quote, everything else from the request, and one commission. */
  lemma MarketOrderFills(t: Terms, b: Books, req: OrderRequest)
    requires Consistent(b) && req.kind == MARKET && req.symbol in b.lastPrice
    ensures
      var (b', r) := Place(t, b, req);
      var price := t.slippage(b.slippageCalls, req.side, b.lastBid[req.symbol], b.lastAsk[req.symbol]);
      && r.ok && r.ticket == Some(b.nextTicket) && r.status == FILLED && r.order.Some?
      && b'.positions.Keys == b.positions.Keys + {b.nextTicket} && b'.positions - {b.nextTicket} == b.positions
      && b'.positions[b.nextTicket]
           == Position(b.nextTicket, req.symbol, req.side, req.volume, price, b.simTime, req.sl, req.tp, req.magic)
      && b'.balance == b.balance - t.commissionPerLot * req.volume
      && r.order.value.status == FILLED && r.order.value.filledAt == Some(b.simTime)
      && r.order.value.fillPrice == Some(price) && r.order.value.filledVolume == req.volume
      && r.order.value.price == Some((b.lastBid[req.symbol] + b.lastAsk[req.symbol]) / 2.0)
  {
    assert b.nextTicket !in b.positions;
  }

  /** Open at the market, let the quote and the clock move, close: a long has gained from its ask to the later
      bid, a short from its bid to the later ask. Both commissions and the nights in between are charged. */
  lemma RoundTrip(t: Terms, b: Books, req: OrderRequest, now: int, bid: real, ask: real)
    requires Consistent(b) && ValidAnchor(t.rolloverHour) && FillsAtQuote(t)
    requires req.kind == MARKET && req.symbol in b.lastPrice
    ensures
      var placed := Place(t, b, req).0;
      var moved := SetMarketTick(placed.(simTime := now), req.symbol, bid, ask);
      var (closed, r) := Close(t, moved, b.nextTicket, None);
      var size := if req.symbol in t.contractSizes then t.contractSizes[req.symbol] else t.defaultContractSize;
      var gained := if req.side == BUY then bid - b.lastAsk[req.symbol] else b.lastBid[req.symbol] - ask;
      var nights := |Rollovers(b.simTime, now, t.rolloverHour)| as real;
      var perNight := if req.side == BUY then t.swapLongPerLot else t.swapShortPerLot;
      && r.ok && closed.positions == b.positions
      && closed.balance == b.balance
           + gained * req.volume * size - 2.0 * (t.commissionPerLot * req.volume) + nights * perNight * req.volume
  {
    hide Rollovers, Close;
    var placed := Place(t, b, req).0;
    var moved := SetMarketTick(placed.(simTime := now), req.symbol, bid, ask);
    MarketOrderFills(t, b, req);
    PlaceConsistent(t, b, req);
    assert Consistent(moved);
    CloseExactly(t, moved, b.nextTicket, None);
  }

  /** Opened and closed on one quote, a position of either side loses exactly the spread and both commissions. */
  lemma RoundTripCostsTheSpread(t: Terms, b: Books, req: OrderRequest)
    requires Consistent(b) && ValidAnchor(t.rolloverHour) && FillsAtQuote(t)
    requires req.kind == MARKET && req.symbol in b.lastPrice
    ensures
      var (closed, r) := Close(t, Place(t, b, req).0, b.nextTicket, None);
      var spread := b.lastAsk[req.symbol] - b.lastBid[req.symbol];
      var size := if req.symbol in t.contractSizes then t.contractSizes[req.symbol] else t.defaultContractSize;
      && r.ok && closed.positions == b.positions
      && closed.balance == b.balance - spread * req.volume * size - 2.0 * (t.commissionPerLot * req.volume)
  {
    hide Close, Rollovers;
    var placed := Place(t, b, req).0;
    MarketOrderFills(t, b, req);
    PlaceConsistent(t, b, req);
    CloseExactly(t, placed, b.nextTicket, None);
    NoInstants(b.simTime, b.simTime, t.rolloverHour);
  }

  /** In a bar replay the close is both sides of the market. */
  lemma PricedIsQuoted(b: Books, symbol: string, price: real)
    ensures SetMarket(b, symbol, price) == SetMarketTick(b, symbol, price, price)
    ensures
      var b' := SetMarketTick(b, symbol, price, price);
      b'.lastPrice[symbol] == b'.lastBid[symbol] == b'.lastAsk[symbol] == price
  {
  }

  // ---- Pending orders ---------------------------------------------------------------

  /** A buy limit waits for the ask to come down to its price and a sell limit for the bid to come up to it; a stop
      waits for the market to move past it the other way. */
  lemma QuoteTakesTheReached(t: Terms, b: Books, symbol: string, bid: real, ask: real, ticket: nat)
    requires Consistent(b) && ticket in b.pending && b.pending[ticket].symbol == symbol
    requires b.pending[ticket].price.Some?
    ensures
      var b' := CheckPending(t, b, symbol, Quote(bid, ask));
      var order, price := b.pending[ticket], b.pending[ticket].price.value;
      && (ticket in b'.pending ==> b'.pending[ticket] == order)
      && (ticket !in b'.pending ==> order.kind != MARKET && ticket in b'.positions)
      && (order.kind == LIMIT && order.side == BUY ==> (ticket in b'.pending <==> price < ask))
      && (order.kind == LIMIT && order.side == SELL ==> (ticket in b'.pending <==> bid < price))
      && ((order.kind == STOP || order.kind == STOP_LIMIT) && order.side == BUY ==>
            (ticket in b'.pending <==> ask < price))
      && ((order.kind == STOP || order.kind == STOP_LIMIT) && order.side == SELL ==>
            (ticket in b'.pending <==> price < bid))
      && (order.kind == LIMIT && ticket !in b'.pending && price != 0.0 ==>
            b'.positions[ticket].openPrice == price && if order.side == BUY then ask <= price else price <= bid)
  {
    hide CheckPending;
    CheckPendingExact(t, b, symbol, Quote(bid, ask), ticket);
  }

  /** A bar takes the orders whose price lies in its range. */
  lemma BarTakesTheTouched(t: Terms, b: Books, symbol: string, high: real, low: real, ticket: nat)
    requires Consistent(b) && ticket in b.pending && b.pending[ticket].symbol == symbol
    requires b.pending[ticket].price.Some?
    ensures
      var b' := CheckPending(t, b, symbol, BarRange(high, low));
      var order, price := b.pending[ticket], b.pending[ticket].price.value;
      && (ticket in b'.pending ==> b'.pending[ticket] == order)
      && (ticket in b'.pending <==> price < low || high < price)
      && (ticket !in b'.pending ==>
            ticket in b'.positions
            && (order.kind == LIMIT ==> b'.positions[ticket].openPrice == price))
  {
    hide CheckPending;
    CheckPendingExact(t, b, symbol, BarRange(high, low), ticket);
  }

  /** Orders of other symbols, and orders without a price, wait on. */
  lemma OthersWait(t: Terms, b: Books, symbol: string, seen: Observation, ticket: nat)
    requires Consistent(b) && ticket in b.pending
    requires b.pending[ticket].symbol != symbol || b.pending[ticket].price.None?
    ensures
      var b' := CheckPending(t, b, symbol, seen);
      ticket in b'.pending && b'.pending[ticket] == b.pending[ticket]
  {
    hide CheckPending;
    CheckPendingExact(t, b, symbol, seen, ticket);
  }
}
