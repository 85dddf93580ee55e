/** What holds of the broker's books in every reachable state. */
module BrokerRuns {
  import opened Domain
  import opened SimBroker

  datatype Op =
    | AdvanceClock(now: int)
    | Priced(symbol: string, last: real)
    | Quoted(symbol: string, bid: real, ask: real)
    | PlaceOrder(req: OrderRequest)
    | CheckPendings(symbol: string, seen: Observation)
    | ModifyOrder(ticket: nat, sl: Option<real>, tp: Option<real>, price: Option<real>, volume: Option<real>)
    | ClosePosition(ticket: nat, volume: Option<real>)
    | CancelOrder(ticket: nat)

  function Apply(t: Terms, b: Books, op: Op): Books {
    match op
    case AdvanceClock(now) => b.(simTime := now)
    case Priced(symbol, price) => SetMarket(b, symbol, price)
    case Quoted(symbol, bid, ask) => SetMarketTick(b, symbol, bid, ask)
    case PlaceOrder(req) => Place(t, b, req).0
    case CheckPendings(symbol, seen) => CheckPending(t, b, symbol, seen)
    case ModifyOrder(ticket, sl, tp, price, volume) => Modify(b, ticket, sl, tp, price, volume).0
    case ClosePosition(ticket, volume) => Close(t, b, ticket, volume).0
    case CancelOrder(ticket) => Cancel(b, ticket).0
  }

  function RunOps(t: Terms, b: Books, ops: seq<Op>): Books {
    if ops == [] then b else Apply(t, RunOps(t, b, ops[..|ops| - 1]), ops[|ops| - 1])
  }

  // ---- Consistency of the tables ---------------------------------------------------

  ghost predicate Consistent(b: Books) {
    && 1 <= b.nextTicket
    && (forall k :: k in b.positions ==>
          k < b.nextTicket && b.positions[k].ticket == k && b.positions[k].symbol in b.lastPrice)
    && (forall k :: k in b.pending ==>
          k < b.nextTicket && b.pending[k].ticket == k && b.pending[k].symbol in b.lastPrice)
    && b.positions.Keys !! b.pending.Keys
    && b.strategyOf.Keys == b.positions.Keys
    && b.lastPrice.Keys == b.lastBid.Keys == b.lastAsk.Keys
  }

  // ---- Ticket lifecycle ---------------------------------------------------------------

  function ClosedTickets(events: seq<Event>): multiset<nat> {
    if events == [] then multiset{}
    else
      var e := events[|events| - 1];
      ClosedTickets(events[..|events| - 1]) + if e.PositionClosed? then multiset{e.position.ticket} else multiset{}
  }

  function CancelledTickets(events: seq<Event>): multiset<nat> {
    if events == [] then multiset{}
    else
      var e := events[|events| - 1];
      CancelledTickets(events[..|events| - 1]) + if e.OrderCancelled? then multiset{e.order.ticket} else multiset{}
  }

  /** An issued ticket is in exactly one of the four places, once; an unissued one in none. */
  ghost predicate TicketAccounted(b: Books, ticket: nat) {
    Count(ticket in b.pending) + Count(ticket in b.positions)
      + ClosedTickets(b.events)[ticket] + CancelledTickets(b.events)[ticket]
    == Count(1 <= ticket < b.nextTicket)
  }

  ghost predicate TicketsAccounted(b: Books) {
    forall ticket: nat :: TicketAccounted(b, ticket)
  }

  datatype Status = Unissued | Waiting | Open | Closed | Cancelled

  function StatusOf(b: Books, ticket: nat): Status {
    if ticket in b.pending then Waiting
    else if ticket in b.positions then Open
    else if ticket in ClosedTickets(b.events) then Closed
    else if ticket in CancelledTickets(b.events) then Cancelled
    else Unissued
  }

  predicate MovesForward(before: Status, after: Status) {
    match before
    case Unissued => true
    case Waiting => after != Unissued
    case Open => after == Open || after == Closed
    case Closed => after == Closed
    case Cancelled => after == Cancelled
  }

  lemma EventAppended(events: seq<Event>, e: Event)
    ensures ClosedTickets(events + [e])
         == ClosedTickets(events) + (if e.PositionClosed? then multiset{e.position.ticket} else multiset{})
    ensures CancelledTickets(events + [e])
         == CancelledTickets(events) + (if e.OrderCancelled? then multiset{e.order.ticket} else multiset{})
  {
    assert (events + [e])[..|events|] == events;
  }

  // ---- The ledger -----------------------------------------------------------------------

  function SumPnl(trades: seq<TradeRecord>): real {
    if trades == [] then 0.0 else SumPnl(trades[..|trades| - 1]) + trades[|trades| - 1].pnl
  }

  /** The volume of the positions with tickets below `n`. */
  function OpenVolume(positions: map<nat, Position>, n: nat): real {
    if n == 0 then 0.0
    else OpenVolume(positions, n - 1) + VolumeAt(positions, n - 1)
  }

  function VolumeAt(positions: map<nat, Position>, k: nat): real {
    if k in positions then positions[k].volume else 0.0
  }

  /** Balance = initial balance + trade profits − opening commission of what is still open. */
  ghost predicate LedgerBalances(t: Terms, b: Books, initialBalance: real) {
    b.balance == initialBalance + SumPnl(b.trades) - t.Commission(OpenVolume(b.positions, b.nextTicket))
  }

  ghost predicate Sound(t: Terms, b: Books, initialBalance: real) {
    Consistent(b) && TicketsAccounted(b) && LedgerBalances(t, b, initialBalance)
  }

  lemma {:induction false} VolumeChange(m: map<nat, Position>, m': map<nat, Position>, n: nat, k: nat)
    requires k < n && forall j: nat :: j != k ==> VolumeAt(m, j) == VolumeAt(m', j)
    ensures OpenVolume(m', n) == OpenVolume(m, n) - VolumeAt(m, k) + VolumeAt(m', k)
  {
    hide VolumeAt;
    if k == n - 1 {
      VolumeSame(m, m', n - 1);
    } else {
      VolumeChange(m, m', n - 1, k);
    }
  }

  lemma {:induction false} VolumeSame(m: map<nat, Position>, m': map<nat, Position>, n: nat)
    requires forall j: nat :: j < n ==> VolumeAt(m, j) == VolumeAt(m', j)
    ensures OpenVolume(m', n) == OpenVolume(m, n)
  {
    hide VolumeAt;
    if n > 0 {
      VolumeSame(m, m', n - 1);
    }
  }

  lemma CommissionAdds(t: Terms, x: real, y: real)
    ensures t.Commission(x + y) == t.Commission(x) + t.Commission(y)
    ensures t.Commission(x - y) == t.Commission(x) - t.Commission(y)
  {
  }

  lemma PnlAppended(trades: seq<TradeRecord>, trade: TradeRecord)
    ensures SumPnl(trades + [trade]) == SumPnl(trades) + trade.pnl
  {
    assert (trades + [trade])[..|trades|] == trades;
  }

  /** What a step promises of every ticket. */
  ghost predicate Forward(b: Books, b': Books) {
    forall ticket: nat :: MovesForward(StatusOf(b, ticket), StatusOf(b', ticket))
  }

  // ---- One step ---------------------------------------------------------------------------

  lemma OpenKeepsLedger(t: Terms, b: Books, order: Order, fillPrice: real, initialBalance: real)
    requires LedgerBalances(t, b, initialBalance)
    requires order.ticket < b.nextTicket && order.ticket !in b.positions
    ensures LedgerBalances(t, OpenPosition(t, b, order, fillPrice), initialBalance)
  {
    hide Terms.Commission;
    var b' := OpenPosition(t, b, order, fillPrice);
    VolumeChange(b.positions, b'.positions, b.nextTicket, order.ticket);
    CommissionAdds(t, OpenVolume(b.positions, b.nextTicket), order.volume);
  }

  /** If only one ticket moved, and it moved forward to a single place, all tickets are still accounted for. */
  lemma OneTicketMoved(b: Books, b': Books, k: nat)
    requires TicketsAccounted(b) && TicketAccounted(b', k)
    requires MovesForward(StatusOf(b, k), StatusOf(b', k))
    requires forall j: nat :: j != k ==>
      && (j in b'.pending <==> j in b.pending) && (j in b'.positions <==> j in b.positions)
      && (j < b'.nextTicket <==> j < b.nextTicket)
    requires forall j: nat :: j != k ==>
      && ClosedTickets(b'.events)[j] == ClosedTickets(b.events)[j]
      && CancelledTickets(b'.events)[j] == CancelledTickets(b.events)[j]
    ensures TicketsAccounted(b') && Forward(b, b')
  {
    hide ClosedTickets, CancelledTickets;
    forall j: nat ensures TicketAccounted(b', j) && MovesForward(StatusOf(b, j), StatusOf(b', j)) {
      assert TicketAccounted(b, j);
    }
  }

  lemma PlaceConsistent(t: Terms, b: Books, req: OrderRequest)
    requires Consistent(b)
    ensures Consistent(Place(t, b, req).0)
  {
    hide Terms.Commission, Terms.SlippedPrice;
    assert b.nextTicket !in b.positions && b.nextTicket !in b.pending;
  }

  lemma PlaceTickets(t: Terms, b: Books, req: OrderRequest)
    requires Consistent(b) && TicketsAccounted(b)
    ensures TicketsAccounted(Place(t, b, req).0) && Forward(b, Place(t, b, req).0)
  {
    hide Terms.Commission, Terms.SlippedPrice, ClosedTickets, CancelledTickets;
    var b' := Place(t, b, req).0;
    var n := b.nextTicket;
    assert TicketAccounted(b, n);
    if b' != b {
      EventAppended(b.events, OrderSubmitted(NewOrder(n, req, b.simTime)));
      OneTicketMoved(b, b', n);
    } else {
      OneTicketMoved(b, b, n);
    }
  }

  lemma PlaceLedger(t: Terms, b: Books, req: OrderRequest, initialBalance: real)
    requires Consistent(b) && LedgerBalances(t, b, initialBalance)
    ensures LedgerBalances(t, Place(t, b, req).0, initialBalance)
  {
    hide Terms.Commission, Terms.SlippedPrice;
    var b' := Place(t, b, req).0;
    var n := b.nextTicket;
    assert n !in b.positions;
    assert OpenVolume(b.positions, n + 1) == OpenVolume(b.positions, n);
    if req.kind == MARKET && b' != b {
      var fillPrice := t.SlippedPrice(b.slippageCalls, req.side, b.lastBid[req.symbol], b.lastAsk[req.symbol]);
      var issued := b.(nextTicket := n + 1, slippageCalls := b.slippageCalls + 1);
      OpenKeepsLedger(t, issued, NewOrder(n, req, b.simTime), fillPrice, initialBalance);
    }
  }

  lemma PlaceKeeps(t: Terms, b: Books, req: OrderRequest, initialBalance: real)
    requires Sound(t, b, initialBalance)
    ensures Sound(t, Place(t, b, req).0, initialBalance)
    ensures Forward(b, Place(t, b, req).0)
  {
    hide Consistent, TicketsAccounted, LedgerBalances, Place, Forward;
    PlaceConsistent(t, b, req);
    PlaceTickets(t, b, req);
    PlaceLedger(t, b, req, initialBalance);
  }

  lemma PromoteTickets(t: Terms, b: Books, ticket: nat, fillPrice: real)
    requires Consistent(b) && TicketsAccounted(b) && ticket in b.pending
    ensures TicketsAccounted(Promote(t, b, ticket, fillPrice)) && Forward(b, Promote(t, b, ticket, fillPrice))
  {
    hide Terms.Commission, ClosedTickets, CancelledTickets;
    EventAppended(b.events, OrderFilled(FilledOrder(b.pending[ticket], fillPrice, b.simTime)));
    assert TicketAccounted(b, ticket);
    OneTicketMoved(b, Promote(t, b, ticket, fillPrice), ticket);
  }

  lemma PromoteKeeps(t: Terms, b: Books, ticket: nat, fillPrice: real, initialBalance: real)
    requires Sound(t, b, initialBalance) && ticket in b.pending
    ensures Sound(t, Promote(t, b, ticket, fillPrice), initialBalance)
    ensures Forward(b, Promote(t, b, ticket, fillPrice))
  {
    hide Terms.Commission, TicketsAccounted, Forward;
    PromoteTickets(t, b, ticket, fillPrice);
    OpenKeepsLedger(t, b, b.pending[ticket].(ticket := ticket), fillPrice, initialBalance);
  }

  lemma CheckOneKeeps(t: Terms, b: Books, symbol: string, seen: Observation, ticket: nat, initialBalance: real)
    requires Sound(t, b, initialBalance)
    ensures Sound(t, CheckOne(t, b, symbol, seen, ticket), initialBalance)
    ensures Forward(b, CheckOne(t, b, symbol, seen, ticket))
  {
    hide Terms.Commission, Fires, PendingFill, Promote, LedgerBalances, TicketsAccounted, Forward;
    if ticket in b.pending && b.pending[ticket].symbol == symbol && Fires(b.pending[ticket], seen) {
      var (fillPrice, calls) := PendingFill(t, b.slippageCalls, b.pending[ticket], seen);
      var asked := b.(slippageCalls := calls);
      SlippageIsNotBooked(t, b, asked, initialBalance);
      PromoteKeeps(t, asked, ticket, fillPrice, initialBalance);
      ForwardFrom(b, asked, CheckOne(t, b, symbol, seen, ticket));
    } else {
      ForwardRefl(b);
    }
  }

  lemma {:induction false} CheckListKeeps(
      t: Terms, b: Books, symbol: string, seen: Observation, tickets: seq<nat>, initialBalance: real)
    requires Sound(t, b, initialBalance)
    ensures Sound(t, CheckList(t, b, symbol, seen, tickets), initialBalance)
    ensures Forward(b, CheckList(t, b, symbol, seen, tickets))
  {
    hide CheckOne, Sound;
    if tickets != [] {
      var init := tickets[..|tickets| - 1];
      CheckListKeeps(t, b, symbol, seen, init, initialBalance);
      CheckOneKeeps(t, CheckList(t, b, symbol, seen, init), symbol, seen, tickets[|tickets| - 1], initialBalance);
    }
  }

  lemma ModifyPending(
      b: Books, ticket: nat, sl: Option<real>, tp: Option<real>, price: Option<real>, volume: Option<real>)
    requires ticket in b.pending
    ensures
      var b' := Modify(b, ticket, sl, tp, price, volume).0;
      && b'.strategyOf == b.strategyOf && b'.events == b.events && b'.trades == b.trades
      && b'.positions == b.positions && b'.pending.Keys == b.pending.Keys
      && (forall k :: k in b.pending && k != ticket ==> b'.pending[k] == b.pending[k])
      && SameOrigin(b'.pending[ticket], b.pending[ticket])
  {
    hide OrElse;
  }

  lemma ModifyPosition(
      b: Books, ticket: nat, sl: Option<real>, tp: Option<real>, price: Option<real>, volume: Option<real>)
    requires ticket !in b.pending
    ensures
      var b' := Modify(b, ticket, sl, tp, price, volume).0;
      && b'.strategyOf == b.strategyOf && b'.events == b.events && b'.trades == b.trades
      && b'.pending == b.pending && b'.positions.Keys == b.positions.Keys
      && (forall k :: k in b.positions && k != ticket ==> b'.positions[k] == b.positions[k])
      && (ticket in b.positions ==> SamePlace(b'.positions[ticket], b.positions[ticket]))
  {
    hide OrElse;
  }

  /** A modification leaves symbols, tags and owners alone. */
  lemma ModifyInPlace(
      b: Books, ticket: nat, sl: Option<real>, tp: Option<real>, price: Option<real>, volume: Option<real>)
    ensures
      var b' := Modify(b, ticket, sl, tp, price, volume).0;
      && b'.strategyOf == b.strategyOf && b'.events == b.events && b'.trades == b.trades
      && b'.positions.Keys == b.positions.Keys && b'.pending.Keys == b.pending.Keys
      && (forall k :: k in b.positions ==> SamePlace(b'.positions[k], b.positions[k]))
      && (forall k :: k in b.pending ==> SameOrigin(b'.pending[k], b.pending[k]))
  {
    hide Modify;
    if ticket in b.pending {
      ModifyPending(b, ticket, sl, tp, price, volume);
    } else {
      ModifyPosition(b, ticket, sl, tp, price, volume);
    }
  }

  predicate SamePlace(p: Position, q: Position) {
    p.symbol == q.symbol && p.magic == q.magic
  }

  predicate SameOrigin(p: Order, q: Order) {
    p.strategyId == q.strategyId && p.magic == q.magic
  }

  lemma ModifyKeeps(
      t: Terms, b: Books, ticket: nat, sl: Option<real>, tp: Option<real>, price: Option<real>, volume: Option<real>,
      initialBalance: real)
    requires Sound(t, b, initialBalance)
    ensures Sound(t, Modify(b, ticket, sl, tp, price, volume).0, initialBalance)
    ensures Forward(b, Modify(b, ticket, sl, tp, price, volume).0)
  {
    hide Terms.Commission, ClosedTickets, CancelledTickets, TicketsAccounted, Forward, OrElse, OpenVolume;
    var b' := Modify(b, ticket, sl, tp, price, volume).0;
    assert Consistent(b');
    assert LedgerBalances(t, b', initialBalance) by {
      VolumeSame(b.positions, b'.positions, b.nextTicket);
    }
    AccountedAt(b, ticket);
    OneTicketMoved(b, b', ticket);
  }

  lemma AccountedAt(b: Books, ticket: nat)
    requires TicketsAccounted(b)
    ensures TicketAccounted(b, ticket)
  {
  }

  lemma CancelTickets(b: Books, ticket: nat)
    requires Consistent(b) && TicketsAccounted(b)
    ensures TicketsAccounted(Cancel(b, ticket).0) && Forward(b, Cancel(b, ticket).0)
  {
    hide ClosedTickets, CancelledTickets;
    if ticket in b.pending {
      EventAppended(b.events, OrderCancelled(b.pending[ticket].(status := CANCELLED)));
    }
    AccountedAt(b, ticket);
    OneTicketMoved(b, Cancel(b, ticket).0, ticket);
  }

  lemma CancelKeeps(t: Terms, b: Books, ticket: nat, initialBalance: real)
    requires Sound(t, b, initialBalance)
    ensures Sound(t, Cancel(b, ticket).0, initialBalance)
    ensures Forward(b, Cancel(b, ticket).0)
  {
    hide Terms.Commission, TicketsAccounted, Forward;
    CancelTickets(b, ticket);
    assert Consistent(Cancel(b, ticket).0);
  }

  /** The balance moves by the record's net profit plus the opening commission already paid. */
  lemma SettleKeepsLedger(
      t: Terms, b: Books, ticket: nat, fullClose: bool, qty: real, closePrice: real, initialBalance: real)
    requires LedgerBalances(t, b, initialBalance) && ticket in b.positions && ticket < b.nextTicket
    requires fullClose ==> qty == b.positions[ticket].volume
    ensures LedgerBalances(t, Settle(t, b, b.positions[ticket], ticket, fullClose, qty, closePrice), initialBalance)
  {
    hide Terms.Commission, Terms.Gross, Terms.Swap, OpenVolume, SumPnl;
    var pos := b.positions[ticket];
    var b' := Settle(t, b, pos, ticket, fullClose, qty, closePrice);
    var n := b.nextTicket;
    var trade := Trade(t, pos, qty, closePrice, b.simTime);
    assert OpenVolume(b'.positions, n) == OpenVolume(b.positions, n) - qty by {
      VolumeChange(b.positions, b'.positions, n, ticket);
    }
    CommissionAdds(t, OpenVolume(b.positions, n), qty);
    PnlAppended(b.trades, trade);
    assert b'.trades == b.trades + [trade];
    assert b'.balance == b.balance + trade.pnl + t.Commission(qty);
  }

  lemma SettleConsistent(t: Terms, b: Books, ticket: nat, fullClose: bool, qty: real, closePrice: real)
    requires Consistent(b) && ticket in b.positions
    ensures Consistent(Settle(t, b, b.positions[ticket], ticket, fullClose, qty, closePrice))
  {
    hide BookTrade, Trade;
    var pos := b.positions[ticket];
    var trade := Trade(t, pos, qty, closePrice, b.simTime);
    BookTradeMovesMoney(t, b, pos, trade);
  }

  lemma BookTradeMovesMoney(t: Terms, b: Books, pos: Position, trade: TradeRecord)
    ensures BookTrade(t, b, pos, trade)
      == b.(balance := BookTrade(t, b, pos, trade).balance, trades := b.trades + [trade])
  {
  }

  lemma SettleTickets(t: Terms, b: Books, ticket: nat, fullClose: bool, qty: real, closePrice: real)
    requires Consistent(b) && TicketsAccounted(b) && ticket in b.positions
    ensures
      var b' := Settle(t, b, b.positions[ticket], ticket, fullClose, qty, closePrice);
      TicketsAccounted(b') && Forward(b, b')
  {
    hide BookTrade, Trade, ClosedTickets, CancelledTickets;
    var pos := b.positions[ticket];
    BookTradeMovesMoney(t, b, pos, Trade(t, pos, qty, closePrice, b.simTime));
    SettleEvents(t, b, ticket, fullClose, qty, closePrice);
    AccountedAt(b, ticket);
    OneTicketMoved(b, Settle(t, b, pos, ticket, fullClose, qty, closePrice), ticket);
  }

  lemma CloseKeeps(t: Terms, b: Books, ticket: nat, volume: Option<real>, initialBalance: real)
    requires Sound(t, b, initialBalance)
    ensures Sound(t, Close(t, b, ticket, volume).0, initialBalance)
    ensures Forward(b, Close(t, b, ticket, volume).0)
  {
    hide Settle, Terms.SlippedPrice, LedgerBalances, TicketsAccounted, Forward;
    if ticket !in b.positions || b.positions[ticket].symbol !in b.lastPrice {
      AccountedAt(b, ticket);
      OneTicketMoved(b, b, ticket);
    } else {
      var pos := b.positions[ticket];
      var mid := b.lastPrice[pos.symbol];
      var fullClose := volume.None? || volume.value >= pos.volume;
      var qty := if fullClose then pos.volume else volume.value;
      var closePrice := t.SlippedPrice(b.slippageCalls, if pos.side == BUY then SELL else BUY,
                                       GetOr(b.lastBid, pos.symbol, mid), GetOr(b.lastAsk, pos.symbol, mid));
      var asked := b.(slippageCalls := b.slippageCalls + 1);
      SlippageIsNotBooked(t, b, asked, initialBalance);
      SettleConsistent(t, asked, ticket, fullClose, qty, closePrice);
      SettleTickets(t, asked, ticket, fullClose, qty, closePrice);
      SettleKeepsLedger(t, asked, ticket, fullClose, qty, closePrice, initialBalance);
      ForwardFrom(b, asked, Close(t, b, ticket, volume).0);
    }
  }

  lemma ForwardRefl(b: Books)
    ensures Forward(b, b)
  {
  }

  lemma ForwardFrom(b: Books, asked: Books, b': Books)
    requires asked == b.(slippageCalls := asked.slippageCalls) && Forward(asked, b')
    ensures Forward(b, b')
  {
    forall ticket: nat ensures MovesForward(StatusOf(b, ticket), StatusOf(b', ticket)) {
      assert StatusOf(asked, ticket) == StatusOf(b, ticket);
    }
  }

  lemma SlippageIsNotBooked(t: Terms, b: Books, b': Books, initialBalance: real)
    requires b' == b.(slippageCalls := b'.slippageCalls)
    ensures LedgerBalances(t, b', initialBalance) == LedgerBalances(t, b, initialBalance)
    ensures TicketsAccounted(b) ==> TicketsAccounted(b')
  {
    hide Terms.Commission;
    if TicketsAccounted(b) {
      forall ticket: nat ensures TicketAccounted(b', ticket) {
        assert TicketAccounted(b, ticket);
      }
    }
  }

  lemma SettleEvents(t: Terms, b: Books, ticket: nat, fullClose: bool, qty: real, closePrice: real)
    requires ticket in b.positions && b.positions[ticket].ticket == ticket
    ensures
      var b' := Settle(t, b, b.positions[ticket], ticket, fullClose, qty, closePrice);
      && ClosedTickets(b'.events) == ClosedTickets(b.events) + (if fullClose then multiset{ticket} else multiset{})
      && CancelledTickets(b'.events) == CancelledTickets(b.events)
  {
    hide Terms.Commission, Terms.Gross, Terms.Swap, ClosedTickets, CancelledTickets, Trade;
    var pos := b.positions[ticket];
    var trade := Trade(t, pos, qty, closePrice, b.simTime);
    var closed := PositionClosed(pos, trade.pnl, closePrice);
    var shown := BacktestTradeClosed(pos.ticket, GetOr(b.strategyOf, ticket, ""), trade);
    assert b.events + [closed, shown] == b.events + [closed] + [shown];
    EventAppended(b.events, closed);
    EventAppended(b.events + [closed], shown);
    EventAppended(b.events, PartialClosed(pos.(volume := pos.volume - qty), qty, trade.pnl, closePrice));
  }

  lemma StepKeeps(t: Terms, b: Books, op: Op, initialBalance: real)
    requires Sound(t, b, initialBalance)
    ensures Sound(t, Apply(t, b, op), initialBalance)
    ensures Forward(b, Apply(t, b, op))
  {
    match op
    case PlaceOrder(req) => PlaceKeeps(t, b, req, initialBalance);
    case CheckPendings(symbol, seen) =>
      CheckListKeeps(t, b, symbol, seen, Tickets(b.pending, b.nextTicket), initialBalance);
    case ModifyOrder(ticket, sl, tp, price, volume) => ModifyKeeps(t, b, ticket, sl, tp, price, volume, initialBalance);
    case ClosePosition(ticket, volume) => CloseKeeps(t, b, ticket, volume, initialBalance);
    case CancelOrder(ticket) => CancelKeeps(t, b, ticket, initialBalance);
    case AdvanceClock(_) => OnlyMarketMoved(t, b, Apply(t, b, op), initialBalance);
    case Priced(_, _) => OnlyMarketMoved(t, b, Apply(t, b, op), initialBalance);
    case Quoted(_, _, _) => OnlyMarketMoved(t, b, Apply(t, b, op), initialBalance);
  }

  lemma OnlyMarketMoved(t: Terms, b: Books, b': Books, initialBalance: real)
    requires Sound(t, b, initialBalance)
    requires b' == b.(simTime := b'.simTime, lastPrice := b'.lastPrice, lastBid := b'.lastBid, lastAsk := b'.lastAsk)
    requires b.lastPrice.Keys <= b'.lastPrice.Keys == b'.lastBid.Keys == b'.lastAsk.Keys
    ensures Sound(t, b', initialBalance) && Forward(b, b')
  {
    hide Terms.Commission;
    forall ticket: nat ensures TicketAccounted(b', ticket) {
      assert TicketAccounted(b, ticket);
    }
  }

  // ---- Every reachable state --------------------------------------------------------------

  lemma OpeningIsSound(t: Terms, initialBalance: real, now: int)
    ensures Sound(t, Opening(initialBalance, now), initialBalance)
  {
    assert OpenVolume(map[], 1) == OpenVolume(map[], 0) + 0.0;
  }

  /** Whatever the slippage function and the operations: tables agree, tickets are accounted for, and the ledger
      balances. */
  lemma {:induction false} ReachableIsSound(t: Terms, initialBalance: real, now: int, ops: seq<Op>)
    ensures Sound(t, RunOps(t, Opening(initialBalance, now), ops), initialBalance)
  {
    hide Sound, Apply;
    if ops == [] {
      OpeningIsSound(t, initialBalance, now);
    } else {
      var init := ops[..|ops| - 1];
      ReachableIsSound(t, initialBalance, now, init);
      StepKeeps(t, RunOps(t, Opening(initialBalance, now), init), ops[|ops| - 1], initialBalance);
    }
  }

  /** A ticket never goes back: not from any earlier state of a run to any later one. */
  lemma {:induction false} TicketsOnlyMoveForward(t: Terms, b: Books, ops: seq<Op>, ticket: nat, initialBalance: real)
    requires Sound(t, b, initialBalance)
    ensures MovesForward(StatusOf(b, ticket), StatusOf(RunOps(t, b, ops), ticket))
    ensures Sound(t, RunOps(t, b, ops), initialBalance)
  {
    hide Sound, Apply, StatusOf;
    if ops != [] {
      var init := ops[..|ops| - 1];
      TicketsOnlyMoveForward(t, b, init, ticket, initialBalance);
      StepKeeps(t, RunOps(t, b, init), ops[|ops| - 1], initialBalance);
    }
  }

  // ---- Pending orders after a check -----------------------------------------------------------

  predicate Matches(order: Order, symbol: string, seen: Observation) {
    order.symbol == symbol && Fires(order, seen)
  }

  /** A limit fills at its own price (at the bid when that price is zero and there is a quote); a stop fills
      as a market order would: slipped from the quote, or from its trigger price when only a bar is seen. */
  ghost predicate IsFillPrice(t: Terms, order: Order, seen: Observation, fillPrice: real) {
    && order.price.Some?
    && if order.kind == LIMIT || order.kind == STOP_LIMIT then
         fillPrice == if order.price.value == 0.0 && seen.Quote? then seen.bid else order.price.value
       else
         exists calls: nat :: fillPrice ==
           if seen.Quote? then t.SlippedPrice(calls, order.side, seen.bid, seen.ask)
           else t.SlippedPrice(calls, order.side, order.price.value, order.price.value)
  }

  /** `pos` is `order` turned into a position at `now`, at a price the order allows. */
  ghost predicate IsFillOf(t: Terms, order: Order, seen: Observation, pos: Position, now: int) {
    pos == Opened(order, pos.openPrice, now) && IsFillPrice(t, order, seen, pos.openPrice)
  }

  lemma PendingFillIsFillPrice(t: Terms, calls: nat, order: Order, seen: Observation)
    requires Fires(order, seen)
    ensures IsFillPrice(t, order, seen, PendingFill(t, calls, order, seen).0)
    ensures PendingFill(t, calls, order, seen).1 == calls + Count(order.kind == STOP || order.kind == MARKET)
  {
    if order.kind == STOP || order.kind == MARKET {
      if seen.Quote? {
        assert PendingFill(t, calls, order, seen).0 == t.SlippedPrice(calls, order.side, seen.bid, seen.ask);
      } else {
        assert PendingFill(t, calls, order, seen).0
          == t.SlippedPrice(calls, order.side, order.price.value, order.price.value);
      }
    }
  }

  lemma {:induction false} CheckListPending(
      t: Terms, b: Books, symbol: string, seen: Observation, tickets: seq<nat>, ticket: nat)
    ensures
      var b' := CheckList(t, b, symbol, seen, tickets);
      && (ticket in b'.pending <==>
            ticket in b.pending && !(ticket in tickets && Matches(b.pending[ticket], symbol, seen)))
      && (ticket in b'.pending ==> b'.pending[ticket] == b.pending[ticket])
      && b'.simTime == b.simTime
      && (ticket in b.positions && ticket !in b.pending ==>
            ticket in b'.positions && b'.positions[ticket] == b.positions[ticket])
      && (ticket in b.pending && ticket !in b'.pending ==>
            ticket in b'.positions
            && IsFillOf(t, b.pending[ticket].(ticket := ticket), seen, b'.positions[ticket], b.simTime))
      && (ticket in b'.positions ==> ticket in b.positions || (ticket in b.pending && ticket !in b'.pending))
  {
    hide Fires, PendingFill, Terms.Commission, IsFillOf;
    if tickets != [] {
      var init, last := tickets[..|tickets| - 1], tickets[|tickets| - 1];
      assert tickets == init + [last];
      CheckListPending(t, b, symbol, seen, init, ticket);
      CheckListPending(t, b, symbol, seen, init, last);
      CheckOnePending(t, CheckList(t, b, symbol, seen, init), symbol, seen, last, ticket);
    }
  }

  lemma CheckOnePending(t: Terms, b: Books, symbol: string, seen: Observation, last: nat, ticket: nat)
    ensures
      var b' := CheckOne(t, b, symbol, seen, last);
      var fires := last in b.pending && Matches(b.pending[last], symbol, seen);
      && b'.simTime == b.simTime
      && (ticket in b'.pending <==> ticket in b.pending && !(ticket == last && fires))
      && (ticket in b'.pending ==> b'.pending[ticket] == b.pending[ticket])
      && (ticket == last && fires ==>
            ticket in b'.positions
            && IsFillOf(t, b.pending[last].(ticket := last), seen, b'.positions[ticket], b.simTime))
      && (!(ticket == last && fires) ==>
            && (ticket in b'.positions <==> ticket in b.positions)
            && (ticket in b'.positions ==> b'.positions[ticket] == b.positions[ticket]))
  {
    hide Fires, PendingFill, Terms.Commission;
    if last in b.pending && Matches(b.pending[last], symbol, seen) {
      var fill := PendingFill(t, b.slippageCalls, b.pending[last], seen);
      PendingFillIsFillPrice(t, b.slippageCalls, b.pending[last], seen);
      assert IsFillPrice(t, b.pending[last].(ticket := last), seen, fill.0);
      var b' := CheckOne(t, b, symbol, seen, last);
      assert b'.positions == b.positions[last := Opened(b.pending[last].(ticket := last), fill.0, b.simTime)];
    }
  }

  lemma {:induction false} TicketsListed(pending: map<nat, Order>, n: nat, ticket: nat)
    ensures ticket in Tickets(pending, n) <==> ticket < n && ticket in pending
  {
    if n > 0 {
      TicketsListed(pending, n - 1, ticket);
    }
  }

  /** After a check exactly the triggered orders of the symbol are gone, each into a position opened now at
      a price it allows; every other pending order is as it was. */
  lemma CheckPendingExact(t: Terms, b: Books, symbol: string, seen: Observation, ticket: nat)
    requires Consistent(b)
    ensures
      var b' := CheckPending(t, b, symbol, seen);
      && (ticket in b'.pending <==> ticket in b.pending && !Matches(b.pending[ticket], symbol, seen))
      && (ticket in b'.pending ==>
            b'.pending[ticket] == b.pending[ticket] && !Matches(b'.pending[ticket], symbol, seen))
      && (ticket in b.pending && Matches(b.pending[ticket], symbol, seen) ==>
            ticket in b'.positions && IsFillOf(t, b.pending[ticket], seen, b'.positions[ticket], b.simTime))
  {
    hide Fires, CheckList, IsFillOf;
    CheckListPending(t, b, symbol, seen, Tickets(b.pending, b.nextTicket), ticket);
    TicketsListed(b.pending, b.nextTicket, ticket);
    if ticket in b.pending {
      assert b.pending[ticket].(ticket := ticket) == b.pending[ticket];
    }
  }

  /** The orders that `fills` announces, as fills and in the order of their tickets. */
  ghost predicate FillsAscend(fills: seq<Event>, tickets: seq<nat>) {
    && (forall i :: 0 <= i < |fills| ==> fills[i].OrderFilled? && fills[i].order.ticket in tickets)
    && forall i, j :: 0 <= i < j < |fills| ==> fills[i].order.ticket < fills[j].order.ticket
  }

  ghost predicate PendingByTicket(b: Books) {
    forall k :: k in b.pending ==> b.pending[k].ticket == k
  }

  lemma NoFills(tickets: seq<nat>)
    ensures FillsAscend([], tickets)
  {
  }

  lemma LaterTicket(fills: seq<Event>, tickets: seq<nat>)
    requires tickets != [] && Ascending(tickets) && FillsAscend(fills, tickets[..|tickets| - 1])
    ensures FillsAscend(fills, tickets)
    ensures forall order: Order :: order.ticket == tickets[|tickets| - 1] ==>
      FillsAscend(fills + [OrderFilled(order)], tickets)
  {
    var init, last := tickets[..|tickets| - 1], tickets[|tickets| - 1];
    assert tickets == init + [last];
    forall k | k in init ensures k < last && k in tickets {
      var i :| 0 <= i < |init| && init[i] == k;
      assert tickets[i] == k;
    }
  }

  lemma CheckOneAnnounces(t: Terms, b: Books, symbol: string, seen: Observation, ticket: nat)
    requires PendingByTicket(b)
    ensures
      var b' := CheckOne(t, b, symbol, seen, ticket);
      && PendingByTicket(b')
      && (b'.events == b.events || exists order: Order ::
            order.ticket == ticket && b'.events == b.events + [OrderFilled(order)])
  {
    hide Fires, PendingFill, Terms.Commission;
    if ticket in b.pending && b.pending[ticket].symbol == symbol && Fires(b.pending[ticket], seen) {
      var fill := PendingFill(t, b.slippageCalls, b.pending[ticket], seen);
      var order := FilledOrder(b.pending[ticket], fill.0, b.simTime);
      assert order.ticket == ticket && CheckOne(t, b, symbol, seen, ticket).events == b.events + [OrderFilled(order)];
    }
  }

  lemma {:induction false} CheckListAnnounces(
      t: Terms, b: Books, symbol: string, seen: Observation, tickets: seq<nat>)
    requires PendingByTicket(b) && Ascending(tickets)
    ensures
      var b' := CheckList(t, b, symbol, seen, tickets);
      PendingByTicket(b') && b.events <= b'.events && FillsAscend(b'.events[|b.events|..], tickets)
  {
    hide CheckOne, PendingByTicket, FillsAscend;
    if tickets == [] {
      assert b.events[|b.events|..] == [];
      NoFills(tickets);
    } else {
      var init, last := tickets[..|tickets| - 1], tickets[|tickets| - 1];
      CheckListAnnounces(t, b, symbol, seen, init);
      var mid := CheckList(t, b, symbol, seen, init);
      CheckOneAnnounces(t, mid, symbol, seen, last);
      var b' := CheckList(t, b, symbol, seen, tickets);
      var fills := mid.events[|b.events|..];
      LaterTicket(fills, tickets);
      if b'.events != mid.events {
        var order: Order :| order.ticket == last && b'.events == mid.events + [OrderFilled(order)];
        assert b'.events[|b.events|..] == fills + [OrderFilled(order)];
      }
    }
  }

  lemma {:induction false} TicketsAscend(pending: map<nat, Order>, n: nat)
    ensures Ascending(Tickets(pending, n)) && forall k :: k in Tickets(pending, n) ==> k < n
  {
    if n > 0 {
      var init := Tickets(pending, n - 1);
      TicketsAscend(pending, n - 1);
      forall i | 0 <= i < |init| ensures init[i] < n - 1 {
        assert init[i] in init;
      }
    }
  }

  /** One check announces its fills in the order in which the orders were placed, and nothing else. */
  lemma FillsInTicketOrder(t: Terms, b: Books, symbol: string, seen: Observation)
    requires Consistent(b)
    ensures
      var b' := CheckPending(t, b, symbol, seen);
      && b.events <= b'.events
      && var fills := b'.events[|b.events|..];
         && (forall i :: 0 <= i < |fills| ==> fills[i].OrderFilled? && fills[i].order.ticket in b.pending)
         && forall i, j :: 0 <= i < j < |fills| ==> fills[i].order.ticket < fills[j].order.ticket
  {
    hide CheckList, Tickets;
    var tickets := Tickets(b.pending, b.nextTicket);
    TicketsAscend(b.pending, b.nextTicket);
    CheckListAnnounces(t, b, symbol, seen, tickets);
    forall k | k in tickets ensures k in b.pending {
      TicketsListed(b.pending, b.nextTicket, k);
    }
  }

  // ---- Closing everything ------------------------------------------------------------------

  function CloseAll(t: Terms, b: Books, tickets: seq<nat>): Books {
    if tickets == [] then b
    else Close(t, CloseAll(t, b, tickets[..|tickets| - 1]), tickets[|tickets| - 1], None).0
  }

  lemma CloseOne(t: Terms, b: Books, ticket: nat)
    requires Consistent(b) && ticket in b.positions
    ensures
      var (b', r) := Close(t, b, ticket, None);
      r.ok && b'.positions == b.positions - {ticket} && b'.lastPrice == b.lastPrice
  {
    hide Terms.SlippedPrice, Trade;
  }

  /** Any listing of the open positions: each close succeeds and takes exactly its own position away. */
  lemma {:induction false} CloseAllRemoves(t: Terms, b: Books, tickets: seq<nat>, initialBalance: real)
    requires Sound(t, b, initialBalance) && Distinct(tickets)
    requires forall k :: k in tickets ==> k in b.positions
    ensures
      var b' := CloseAll(t, b, tickets);
      && Sound(t, b', initialBalance)
      && b'.positions == b.positions - (set k | k in tickets)
      && b'.lastPrice == b.lastPrice
  {
    hide Close, TicketsAccounted, LedgerBalances;
    if tickets != [] {
      var init, last := tickets[..|tickets| - 1], tickets[|tickets| - 1];
      assert tickets == init + [last];
      CloseAllRemoves(t, b, init, initialBalance);
      var mid := CloseAll(t, b, init);
      assert last !in init;
      CloseKeeps(t, mid, last, None, initialBalance);
      CloseOne(t, mid, last);
    }
  }

  /** The last step of a backtest: nothing is refused, nothing stays open, and the result is the sum of the profits. */
  lemma CloseAllSettles(t: Terms, b: Books, tickets: seq<nat>, initialBalance: real)
    requires Sound(t, b, initialBalance) && Distinct(tickets)
    requires forall k :: k in tickets <==> k in b.positions
    ensures
      var b' := CloseAll(t, b, tickets);
      b'.positions == map[] && b'.balance - initialBalance == SumPnl(b'.trades)
    ensures forall i :: 0 <= i < |tickets| ==> Close(t, CloseAll(t, b, tickets[..i]), tickets[i], None).1.ok
  {
    hide Close, CloseAll, TicketsAccounted;
    CloseAllRemoves(t, b, tickets, initialBalance);
    var b' := CloseAll(t, b, tickets);
    assert b'.positions == map[];
    NoOpenVolume(b'.nextTicket);
    forall i | 0 <= i < |tickets| ensures Close(t, CloseAll(t, b, tickets[..i]), tickets[i], None).1.ok {
      CloseAllRemoves(t, b, tickets[..i], initialBalance);
      CloseOne(t, CloseAll(t, b, tickets[..i]), tickets[i]);
    }
  }

  lemma {:induction false} NoOpenVolume(n: nat)
    ensures OpenVolume(map[], n) == 0.0
  {
    if n > 0 {
      NoOpenVolume(n - 1);
    }
  }
}
