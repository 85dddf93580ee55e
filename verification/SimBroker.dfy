/** The in-memory broker that fills orders during a backtest. */
module SimBroker {
  import opened Domain
  import opened Rollover

  datatype OrderType = MARKET | LIMIT | STOP | STOP_LIMIT

  datatype OrderStatus = SUBMITTED | PARTIALLY_FILLED | FILLED | CANCELLED | REJECTED

  datatype OrderRequest = OrderRequest(
    strategyId: string, symbol: string, side: Side, kind: OrderType, volume: real,
    price: Option<real>, sl: Option<real>, tp: Option<real>, magic: int)

  datatype Order = Order(
    ticket: nat, strategyId: string, symbol: string, side: Side, kind: OrderType, volume: real,
    filledVolume: real, price: Option<real>, fillPrice: Option<real>, sl: Option<real>, tp: Option<real>,
    status: OrderStatus, magic: int, requestedAt: int, filledAt: Option<int>)

  datatype Position = Position(
    ticket: nat, symbol: string, side: Side, volume: real, openPrice: real, openTime: int,
    sl: Option<real>, tp: Option<real>, magic: int)

  datatype TradeRecord = TradeRecord(
    openTs: int, closeTs: int, side: Side, openPrice: real, closePrice: real,
    volume: real, pnl: real, fees: real, swap: real)

  datatype OrderResult = OrderResult(ok: bool, ticket: Option<nat>, status: OrderStatus, order: Option<Order>)

  const REFUSED: OrderResult := OrderResult(false, None, REJECTED, None)

  /** What appears on the bus that the broker and the router share, in order. */
  datatype Event =
    | DecisionMade(strategyId: string, symbol: string, placed: bool)
    | OrderRejected(request: OrderRequest)
    | PositionModified(position: Position)
    | OrderSubmitted(order: Order)
    | OrderFilled(order: Order)
    | OrderCancelled(order: Order)
    | PositionClosed(position: Position, realizedPnl: real, closePrice: real)
    | BacktestTradeClosed(ticket: nat, strategyId: string, trade: TradeRecord)
    | PartialClosed(position: Position, closedVolume: real, realizedPnl: real, closePrice: real)

  /** Slippage models may keep state, so a price may depend on how often the model was asked before. */
  datatype Terms = Terms(
    slippage: (nat, Side, real, real) -> real,
    contractSizes: map<string, real>, defaultContractSize: real,
    commissionPerLot: real, swapLongPerLot: real, swapShortPerLot: real, rolloverHour: int)
  {
    function SlippedPrice(calls: nat, side: Side, bid: real, ask: real): real {
      slippage(calls, side, bid, ask)
    }

    function ContractSize(symbol: string): real {
      if symbol in contractSizes then contractSizes[symbol] else defaultContractSize
    }

    function SwapRate(side: Side): real {
      if side == BUY then swapLongPerLot else swapShortPerLot
    }

    /** One side's commission. */
    function Commission(volume: real): real {
      commissionPerLot * volume
    }

    /** Price-only profit of closing `qty` at `closePrice`. */
    function Gross(pos: Position, qty: real, closePrice: real): real {
      (closePrice - pos.openPrice) * pos.side.Sign() * qty * ContractSize(pos.symbol)
    }

    function Swap(pos: Position, qty: real, now: int): real {
      RolloverCount(pos.openTime, now, rolloverHour) as real * SwapRate(pos.side) * qty
    }
  }

  /** The broker's books as one value. Tickets grow, so a pending order's place in its table is its ticket order. */
  datatype Books = Books(
    balance: real, nextTicket: nat, positions: map<nat, Position>, pending: map<nat, Order>,
    simTime: int, lastPrice: map<string, real>, lastBid: map<string, real>, lastAsk: map<string, real>,
    trades: seq<TradeRecord>, strategyOf: map<nat, string>, slippageCalls: nat, events: seq<Event>)

  function Opening(initialBalance: real, simTime: int): Books {
    Books(initialBalance, 1, map[], map[], simTime, map[], map[], map[], [], map[], 0, [])
  }

  // ---- Market ------------------------------------------------------------------

  function SetMarket(b: Books, symbol: string, price: real): Books {
    b.(lastPrice := b.lastPrice[symbol := price], lastBid := b.lastBid[symbol := price],
       lastAsk := b.lastAsk[symbol := price])
  }

  function SetMarketTick(b: Books, symbol: string, bid: real, ask: real): Books {
    b.(lastPrice := b.lastPrice[symbol := bid], lastBid := b.lastBid[symbol := bid],
       lastAsk := b.lastAsk[symbol := ask])
  }

  // ---- Placing -----------------------------------------------------------------

  function NewOrder(ticket: nat, req: OrderRequest, simTime: int): Order {
    Order(ticket, req.strategyId, req.symbol, req.side, req.kind, req.volume, 0.0, req.price, None,
          req.sl, req.tp, SUBMITTED, req.magic, simTime, None)
  }

  function Opened(order: Order, fillPrice: real, simTime: int): Position {
    Position(order.ticket, order.symbol, order.side, order.volume, fillPrice, simTime, order.sl, order.tp, order.magic)
  }

  function FilledOrder(order: Order, fillPrice: real, simTime: int): Order {
    order.(status := FILLED, filledVolume := order.volume, fillPrice := Some(fillPrice), filledAt := Some(simTime))
  }

  /** A position appears under the order's ticket and the opening commission is debited. */
  function OpenPosition(t: Terms, b: Books, order: Order, fillPrice: real): Books {
    b.(positions := b.positions[order.ticket := Opened(order, fillPrice, b.simTime)],
       strategyOf := b.strategyOf[order.ticket := order.strategyId],
       balance := b.balance - t.Commission(order.volume))
  }

  function Place(t: Terms, b: Books, req: OrderRequest): (Books, OrderResult) {
    if req.symbol !in b.lastBid || req.symbol !in b.lastAsk then (b, REFUSED)
    else
      var bid, ask := b.lastBid[req.symbol], b.lastAsk[req.symbol];
      var order := NewOrder(b.nextTicket, req, b.simTime);
      if req.kind != MARKET then
        if req.price.None? then (b, REFUSED)
        else
          (b.(nextTicket := b.nextTicket + 1, pending := b.pending[order.ticket := order],
              events := b.events + [OrderSubmitted(order)]),
           OrderResult(true, Some(order.ticket), SUBMITTED, Some(order)))
      else
        var fillPrice := t.SlippedPrice(b.slippageCalls, req.side, bid, ask);
        var issued := b.(nextTicket := b.nextTicket + 1, slippageCalls := b.slippageCalls + 1);
        var filled := FilledOrder(order.(price := Some((bid + ask) / 2.0)), fillPrice, b.simTime);
        (OpenPosition(t, issued, order, fillPrice),
         OrderResult(true, Some(order.ticket), FILLED, Some(filled)))
  }

  // ---- Pending orders ------------------------------------------------------------

  function PendingTriggered(order: Order, bid: real, ask: real): bool {
    if order.price.None? then false
    else
      var price := order.price.value;
      match order.kind
      case STOP => if order.side == BUY then ask >= price else bid <= price
      case LIMIT => if order.side == BUY then ask <= price else bid >= price
      case STOP_LIMIT => if order.side == BUY then ask >= price else bid <= price
      case MARKET => false
  }

  /** One observation of a symbol: a quote, or the extent of a bar. */
  datatype Observation = Quote(bid: real, ask: real) | BarRange(high: real, low: real)

  predicate Fires(order: Order, seen: Observation) {
    match seen
    case Quote(bid, ask) => PendingTriggered(order, bid, ask)
    case BarRange(high, low) => order.price.Some? && low <= order.price.value <= high
  }

  /** The fill price and the slippage counter after it. A zero limit price falls back to the bid. */
  function PendingFill(t: Terms, calls: nat, order: Order, seen: Observation): (real, nat)
    requires Fires(order, seen)
  {
    var price := order.price.value;
    if order.kind == LIMIT || order.kind == STOP_LIMIT then
      (if seen.Quote? && price == 0.0 then seen.bid else price, calls)
    else if seen.Quote? then (t.SlippedPrice(calls, order.side, seen.bid, seen.ask), calls + 1)
    else (t.SlippedPrice(calls, order.side, price, price), calls + 1)
  }

  function Promote(t: Terms, b: Books, ticket: nat, fillPrice: real): Books
    requires ticket in b.pending
  {
    var order := b.pending[ticket];
    var filled := OpenPosition(t, b, order.(ticket := ticket), fillPrice);
    filled.(pending := b.pending - {ticket},
            events := b.events + [OrderFilled(FilledOrder(order, fillPrice, b.simTime))])
  }

  function CheckOne(t: Terms, b: Books, symbol: string, seen: Observation, ticket: nat): Books {
    if ticket in b.pending && b.pending[ticket].symbol == symbol && Fires(b.pending[ticket], seen) then
      var (fillPrice, calls) := PendingFill(t, b.slippageCalls, b.pending[ticket], seen);
      Promote(t, b.(slippageCalls := calls), ticket, fillPrice)
    else b
  }

  function CheckList(t: Terms, b: Books, symbol: string, seen: Observation, tickets: seq<nat>): Books {
    if tickets == [] then b
    else CheckOne(t, CheckList(t, b, symbol, seen, tickets[..|tickets| - 1]), symbol, seen, tickets[|tickets| - 1])
  }

  /** The tickets below `n` in the table, ascending. */
  function Tickets(pending: map<nat, Order>, n: nat): seq<nat> {
    if n == 0 then []
    else Tickets(pending, n - 1) + if n - 1 in pending then [n - 1] else []
  }

  function CheckPending(t: Terms, b: Books, symbol: string, seen: Observation): Books {
    CheckList(t, b, symbol, seen, Tickets(b.pending, b.nextTicket))
  }

  // ---- Modify, close, cancel -------------------------------------------------------

  function OrElse<T>(x: Option<T>, current: Option<T>): Option<T> {
    if x.Some? then x else current
  }

  function Modify(
      b: Books, ticket: nat, sl: Option<real>, tp: Option<real>, price: Option<real>, volume: Option<real>)
    : (Books, OrderResult)
  {
    if ticket in b.pending then
      var p := b.pending[ticket];
      if volume.Some? && volume.value <= 0.0 then (b, REFUSED)
      else
        var updated := p.(sl := OrElse(sl, p.sl), tp := OrElse(tp, p.tp), price := OrElse(price, p.price),
                          volume := if volume.Some? then volume.value else p.volume);
        (b.(pending := b.pending[ticket := updated]), OrderResult(true, Some(ticket), SUBMITTED, Some(updated)))
    else if ticket !in b.positions then (b, REFUSED)
    else
      var pos := b.positions[ticket];
      var updated := pos.(sl := OrElse(sl, pos.sl), tp := OrElse(tp, pos.tp));
      (b.(positions := b.positions[ticket := updated]), OrderResult(true, Some(ticket), SUBMITTED, None))
  }

  /** The trade record for closing `qty` of `pos` now at `closePrice`: profit net of both commissions and swap. */
  function Trade(t: Terms, pos: Position, qty: real, closePrice: real, now: int): TradeRecord {
    var fees := 2.0 * t.Commission(qty);
    var swap := t.Swap(pos, qty, now);
    TradeRecord(pos.openTime, now, pos.side, pos.openPrice, closePrice, qty,
                t.Gross(pos, qty, closePrice) - fees + swap, fees, swap)
  }

  /** Books the trade: one record, and the balance moves by gross, closing commission and swap. */
  function BookTrade(t: Terms, b: Books, pos: Position, trade: TradeRecord): Books {
    b.(balance := b.balance + (t.Gross(pos, trade.volume, trade.closePrice) - t.Commission(trade.volume) + trade.swap),
       trades := b.trades + [trade])
  }

  /** Books the closed chunk, then drops the position or keeps the remainder. */
  function Settle(t: Terms, b: Books, pos: Position, ticket: nat, fullClose: bool, qty: real, closePrice: real): Books {
    var trade := Trade(t, pos, qty, closePrice, b.simTime);
    var booked := BookTrade(t, b, pos, trade);
    if fullClose then
      booked.(positions := b.positions - {ticket}, strategyOf := b.strategyOf - {ticket},
              events := b.events + [PositionClosed(pos, trade.pnl, closePrice),
                                    BacktestTradeClosed(pos.ticket, GetOr(b.strategyOf, ticket, ""), trade)])
    else
      var remaining := pos.(volume := pos.volume - qty);
      booked.(positions := b.positions[ticket := remaining],
              events := b.events + [PartialClosed(remaining, qty, trade.pnl, closePrice)])
  }

  function Close(t: Terms, b: Books, ticket: nat, volume: Option<real>): (Books, OrderResult) {
    if ticket !in b.positions || b.positions[ticket].symbol !in b.lastPrice then (b, REFUSED)
    else
      var pos := b.positions[ticket];
      var mid := b.lastPrice[pos.symbol];
      var fullClose := volume.None? || volume.value >= pos.volume;
      var qty := if fullClose then pos.volume else volume.value;
      var closeSide := if pos.side == BUY then SELL else BUY;
      var closePrice := t.SlippedPrice(b.slippageCalls, closeSide,
                                       GetOr(b.lastBid, pos.symbol, mid), GetOr(b.lastAsk, pos.symbol, mid));
      (Settle(t, b.(slippageCalls := b.slippageCalls + 1), pos, ticket, fullClose, qty, closePrice),
       OrderResult(true, Some(ticket), if fullClose then FILLED else PARTIALLY_FILLED, None))
  }

  function Cancel(b: Books, ticket: nat): (Books, OrderResult) {
    if ticket !in b.pending then (b, REFUSED)
    else
      var cancelled := b.pending[ticket].(status := CANCELLED);
      (b.(pending := b.pending - {ticket}, events := b.events + [OrderCancelled(cancelled)]),
       OrderResult(true, Some(ticket), CANCELLED, Some(cancelled)))
  }

  // ---- The object ----------------------------------------------------------------

  class SimBroker {
    const terms: Terms
    var balance: real
    var nextTicket: nat
    var positions: map<nat, Position>
    var pending: map<nat, Order>
    var simTime: int
    var lastPrice: map<string, real>
    var lastBid: map<string, real>
    var lastAsk: map<string, real>
    var trades: seq<TradeRecord>
    var strategyOf: map<nat, string>
    var slippageCalls: nat
    var published: seq<Event>

    constructor (terms: Terms, initialBalance: real, now: int)
      ensures this.terms == terms && State() == Opening(initialBalance, now)
    {
      this.terms := terms;
      balance, nextTicket, positions, pending, simTime := initialBalance, 1, map[], map[], now;
      lastPrice, lastBid, lastAsk := map[], map[], map[];
      trades, strategyOf, slippageCalls, published := [], map[], 0, [];
    }

    function State(): Books
      reads this
    {
      Books(balance, nextTicket, positions, pending, simTime, lastPrice, lastBid, lastAsk,
            trades, strategyOf, slippageCalls, published)
    }

    method Slip(side: Side, bid: real, ask: real) returns (price: real)
      modifies this`slippageCalls
      ensures price == terms.SlippedPrice(old(slippageCalls), side, bid, ask)
      ensures slippageCalls == old(slippageCalls) + 1
    {
      price := terms.SlippedPrice(slippageCalls, side, bid, ask);
      slippageCalls := slippageCalls + 1;
    }

    method PlaceOrder(req: OrderRequest) returns (r: OrderResult)
      modifies this
      ensures State() == Place(terms, old(State()), req).0
      ensures r == Place(terms, old(State()), req).1
    {
      if req.symbol !in lastBid || req.symbol !in lastAsk {
        return REFUSED;
      }
      var bid, ask := lastBid[req.symbol], lastAsk[req.symbol];
      if req.kind != MARKET {
        if req.price.None? {
          return REFUSED;
        }
        var waiting := NewOrder(nextTicket, req, simTime);
        nextTicket := nextTicket + 1;
        pending := pending[waiting.ticket := waiting];
        published := published + [OrderSubmitted(waiting)];
        return OrderResult(true, Some(waiting.ticket), SUBMITTED, Some(waiting));
      }
      var fillPrice := Slip(req.side, bid, ask);
      var mid := (bid + ask) / 2.0;
      var order := NewOrder(nextTicket, req, simTime);
      nextTicket := nextTicket + 1;
      positions := positions[order.ticket := Opened(order, fillPrice, simTime)];
      strategyOf := strategyOf[order.ticket := req.strategyId];
      ChargeOpenCommission(req.volume);
      return OrderResult(true, Some(order.ticket), FILLED,
                         Some(FilledOrder(order.(price := Some(mid)), fillPrice, simTime)));
    }

    method ChargeOpenCommission(volume: real)
      modifies this`balance
      ensures balance == old(balance) - terms.Commission(volume)
    {
      balance := balance - terms.Commission(volume);
    }

    /** Tick mode with a quote, bar mode with a range: the loop over a snapshot of the table. */
    method CheckPendingOrders(symbol: string, seen: Observation)
      modifies this
      ensures State() == CheckPending(terms, old(State()), symbol, seen)
    {
      var snapshot := Tickets(pending, nextTicket);
      for i := 0 to |snapshot|
        invariant State() == CheckList(terms, old(State()), symbol, seen, snapshot[..i])
      {
        assert snapshot[..i + 1][..i] == snapshot[..i];
        var ticket := snapshot[i];
        if ticket in pending && pending[ticket].symbol == symbol && Fires(pending[ticket], seen) {
          var fill := PendingFill(terms, slippageCalls, pending[ticket], seen);
          slippageCalls := fill.1;
          PromotePending(ticket, fill.0);
        }
      }
      assert snapshot[..|snapshot|] == snapshot;
    }

    method PromotePending(ticket: nat, fillPrice: real)
      requires ticket in pending
      modifies this
      ensures State() == Promote(terms, old(State()), ticket, fillPrice)
    {
      var order := pending[ticket];
      positions := positions[ticket := Opened(order.(ticket := ticket), fillPrice, simTime)];
      strategyOf := strategyOf[ticket := order.strategyId];
      ChargeOpenCommission(order.volume);
      pending := pending - {ticket};
      published := published + [OrderFilled(FilledOrder(order, fillPrice, simTime))];
    }

    method ModifyOrder(ticket: nat, sl: Option<real>, tp: Option<real>, price: Option<real>, volume: Option<real>)
      returns (r: OrderResult)
      modifies this
      ensures State() == Modify(old(State()), ticket, sl, tp, price, volume).0
      ensures r == Modify(old(State()), ticket, sl, tp, price, volume).1
    {
      if ticket in pending {
        var p := pending[ticket];
        if volume.Some? && volume.value <= 0.0 {
          return REFUSED;
        }
        var updated := p.(sl := OrElse(sl, p.sl), tp := OrElse(tp, p.tp), price := OrElse(price, p.price),
                          volume := if volume.Some? then volume.value else p.volume);
        pending := pending[ticket := updated];
        return OrderResult(true, Some(ticket), SUBMITTED, Some(updated));
      }
      if ticket !in positions {
        return REFUSED;
      }
      var pos := positions[ticket];
      positions := positions[ticket := pos.(sl := OrElse(sl, pos.sl), tp := OrElse(tp, pos.tp))];
      return OrderResult(true, Some(ticket), SUBMITTED, None);
    }

    method ClosePosition(ticket: nat, volume: Option<real>) returns (r: OrderResult)
      modifies this
      ensures State() == Close(terms, old(State()), ticket, volume).0
      ensures r == Close(terms, old(State()), ticket, volume).1
    {
      hide Settle, Terms.SlippedPrice;
      if ticket !in positions {
        return REFUSED;
      }
      var pos := positions[ticket];
      if pos.symbol !in lastPrice {
        return REFUSED;
      }
      var mid := lastPrice[pos.symbol];
      var fullClose := volume.None? || volume.value >= pos.volume;
      var qty := if fullClose then pos.volume else volume.value;
      var closeSide := if pos.side == BUY then SELL else BUY;
      var closePrice := Slip(closeSide, GetOr(lastBid, pos.symbol, mid), GetOr(lastAsk, pos.symbol, mid));
      SettleClose(pos, ticket, fullClose, qty, closePrice);
      return OrderResult(true, Some(ticket), if fullClose then FILLED else PARTIALLY_FILLED, None);
    }

    method SettleClose(pos: Position, ticket: nat, fullClose: bool, qty: real, closePrice: real)
      modifies this
      ensures State() == Settle(terms, old(State()), pos, ticket, fullClose, qty, closePrice)
    {
      hide Terms.Gross, Terms.Commission, Trade;
      var trade := RecordTrade(pos, qty, closePrice);
      if fullClose {
        var strategyId := GetOr(strategyOf, ticket, "");
        strategyOf := strategyOf - {ticket};
        positions := positions - {ticket};
        published := published + [PositionClosed(pos, trade.pnl, closePrice),
                                  BacktestTradeClosed(pos.ticket, strategyId, trade)];
      } else {
        var remaining := pos.(volume := pos.volume - qty);
        positions := positions[ticket := remaining];
        published := published + [PartialClosed(remaining, qty, trade.pnl, closePrice)];
      }
    }

    /** Net profit into the record; gross, closing commission and swap into the balance. */
    method RecordTrade(pos: Position, qty: real, closePrice: real) returns (trade: TradeRecord)
      modifies this`balance, this`trades
      ensures trade == Trade(terms, pos, qty, closePrice, simTime)
      ensures balance == old(balance)
        + (terms.Gross(pos, trade.volume, trade.closePrice) - terms.Commission(trade.volume) + trade.swap)
      ensures trades == old(trades) + [trade]
    {
      hide Terms.Gross, Terms.Commission, Terms.Swap;
      var gross := terms.Gross(pos, qty, closePrice);
      var commissionClose := terms.Commission(qty);
      var fees := 2.0 * commissionClose;
      var swap := terms.Swap(pos, qty, simTime);
      var pnl := gross - fees + swap;
      balance := balance + (gross - commissionClose + swap);
      trade := TradeRecord(pos.openTime, simTime, pos.side, pos.openPrice, closePrice, qty, pnl, fees, swap);
      trades := trades + [trade];
    }

    method CancelOrder(ticket: nat) returns (r: OrderResult)
      modifies this
      ensures State() == Cancel(old(State()), ticket).0
      ensures r == Cancel(old(State()), ticket).1
    {
      if ticket !in pending {
        return REFUSED;
      }
      var cancelled := pending[ticket].(status := CANCELLED);
      pending := pending - {ticket};
      published := published + [OrderCancelled(cancelled)];
      return OrderResult(true, Some(ticket), CANCELLED, Some(cancelled));
    }

    method AdvanceClock(now: int)
      modifies this
      ensures State() == old(State()).(simTime := now)
    {
      simTime := now;
    }

    method SetMarketPrice(symbol: string, price: real)
      modifies this
      ensures State() == SetMarket(old(State()), symbol, price)
    {
      lastPrice := lastPrice[symbol := price];
      lastBid := lastBid[symbol := price];
      lastAsk := lastAsk[symbol := price];
    }

    method SetMarketQuote(symbol: string, bid: real, ask: real)
      modifies this
      ensures State() == SetMarketTick(old(State()), symbol, bid, ask)
    {
      lastBid := lastBid[symbol := bid];
      lastAsk := lastAsk[symbol := ask];
      lastPrice := lastPrice[symbol := bid];
    }
  }
}
