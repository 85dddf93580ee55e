/** Router, broker and risk monitor as one machine: the monitor mirrors the broker's books. */
module Engine {
  import opened Domain
  import opened SimBroker
  import opened BrokerRuns
  import opened EventLog
  import opened RiskMonitor
  import opened OrderRouter

  /** The account id of a broker that is not in a pool. */
  const ACCOUNT := "default"

  datatype Setup = Setup(terms: Terms, magics: Magics, cfg: RiskConfig)

  /** The monitor has handled the first `delivered` bus events. */
  datatype Engine = Engine(books: Books, monitor: Monitor, delivered: nat)

  datatype Step =
    | Signalled(signal: Signal, now: int)
    | CloseRequested(strategyId: string, ticket: nat)
    | PartialCloseRequested(strategyId: string, ticket: nat, part: real)
    | CancelRequested(strategyId: string, ticket: nat)
    | ModifyRequested(strategyId: string, ticket: nat,
                      sl: Option<real>, tp: Option<real>, price: Option<real>, volume: Option<real>)
    | Replayed(op: Op)
    | Delivered(now: int)
    | Snapshotted(snapshot: Snapshot)
    | KillSwitchReset
    | ProfitLockReset

  /** The monitor's handler for one bus event; other events have no handler. */
  function HandleEvent(m: Monitor, e: Event, now: int): Monitor {
    match e
    case OrderFilled(order) => OnFilled(m, ACCOUNT, order.ticket, order.strategyId, order.symbol)
    case PositionClosed(p, pnl, _) => OnClosed(m, ACCOUNT, p.ticket, p.symbol, pnl, now)
    case PartialClosed(p, _, pnl, _) => OnPartialClosed(m, p.symbol, pnl, now)
    case _ => m
  }

  /** Only the router places orders; the replay loop moves the market, checks pendings and closes. */
  predicate Enabled(e: Engine, step: Step) {
    match step
    case Replayed(op) => !op.PlaceOrder?
    case Delivered(_) => e.delivered < |e.books.events|
    case _ => true
  }

  function Next(s: Setup, e: Engine, step: Step): Engine
    requires Enabled(e, step)
  {
    match step
    case Signalled(signal, now) =>
      var (books, monitor) := HandleSignal(s.terms, s.magics, s.cfg, e.books, e.monitor, signal, now);
      e.(books := books, monitor := monitor)
    case CloseRequested(sid, ticket) => e.(books := HandleClose(s.terms, s.magics, e.books, sid, ticket))
    case PartialCloseRequested(sid, ticket, part) =>
      e.(books := HandlePartialClose(s.terms, s.magics, e.books, sid, ticket, part))
    case CancelRequested(sid, ticket) => e.(books := HandleCancel(s.magics, e.books, sid, ticket))
    case ModifyRequested(sid, ticket, sl, tp, price, volume) =>
      e.(books := HandleModify(s.magics, e.books, sid, ticket, sl, tp, price, volume))
    case Replayed(op) => e.(books := Apply(s.terms, e.books, op))
    case Delivered(now) =>
      e.(monitor := HandleEvent(e.monitor, e.books.events[e.delivered], now), delivered := e.delivered + 1)
    case Snapshotted(snapshot) => e.(monitor := OnSnapshot(s.cfg, e.monitor, snapshot))
    case KillSwitchReset => e.(monitor := e.monitor.(gates := ResetKillSwitch(e.monitor.gates)))
    case ProfitLockReset => e.(monitor := e.monitor.(gates := ResetProfitLock(e.monitor.gates)))
  }

  function Start(initialBalance: real, now: int): Engine {
    Engine(Opening(initialBalance, now), FRESH, 0)
  }

  /** `trace[i]` steps to `trace[i + 1]`. */
  ghost predicate Run(s: Setup, trace: seq<Engine>, steps: seq<Step>, initialBalance: real, now: int) {
    && |trace| == |steps| + 1
    && trace[0] == Start(initialBalance, now)
    && forall i :: 0 <= i < |steps| ==> Enabled(trace[i], steps[i]) && trace[i + 1] == Next(s, trace[i], steps[i])
  }

  // ---- What the counts should be ------------------------------------------------------

  ghost function KeysOf(m: map<nat, string>, v: string): set<nat> {
    set k | k in m && m[k] == v
  }

  /** `n` counts, for each value, the keys that `m` maps to it. */
  ghost predicate CountsKeys(n: map<string, int>, m: map<nat, string>) {
    forall v :: GetOr(n, v, 0) == |KeysOf(m, v)|
  }

  ghost function SymbolOf(b: Books): map<nat, string> {
    map k | k in b.positions :: b.positions[k].symbol
  }

  /** The open positions of a strategy. */
  ghost function OwnedBy(b: Books, strategyId: string): set<nat> {
    KeysOf(b.strategyOf, strategyId)
  }

  ghost predicate OwnersAgree(owner: map<TicketKey, string>, b: Books) {
    forall key :: (key in owner <==> key.0 == ACCOUNT && key.1 in b.strategyOf)
      && (key in owner ==> owner[key] == b.strategyOf[key.1])
  }

  /** The counters are the cardinalities of the broker's own tables, and the ticket map is its ticket map. */
  ghost predicate Agrees(c: Counts, b: Books) {
    && OwnersAgree(c.owner, b)
    && CountsKeys(c.byStrategy, b.strategyOf)
    && CountsKeys(c.bySymbol, SymbolOf(b))
  }

  function CountEvent(c: Counts, e: Event): Counts {
    match e
    case OrderFilled(order) => CountFilled(c, ACCOUNT, order.ticket, order.strategyId, order.symbol)
    case PositionClosed(p, _, _) => CountClosed(c, ACCOUNT, p.ticket, p.symbol)
    case _ => c
  }

  /** Counting events on top of given counters. */
  function CountOn(c: Counts, events: seq<Event>): Counts {
    if events == [] then c else CountEvent(CountOn(c, events[..|events| - 1]), events[|events| - 1])
  }

  function CountsOf(events: seq<Event>): Counts {
    CountOn(FRESH.counts, events)
  }

  lemma CountsAppend(events: seq<Event>, e: Event)
    ensures CountsOf(events + [e]) == CountEvent(CountsOf(events), e)
  {
    assert (events + [e])[..|events|] == events;
  }

  /** The event log tells what is open and every profit booked, and counting it gives the counters that the books
      should have. */
  ghost predicate Mirrored(b: Books) {
    && Agrees(CountsOf(b.events), b) && Told(b.events, b.strategyOf, SymbolOf(b))
    && ProfitIn(b.events) == SumPnl(b.trades)
  }

  // ---- Keeping the mirror --------------------------------------------------------------------

  /** Nothing the counters look at changed, and neither did the counters. */
  ghost predicate SameTables(b: Books, b': Books) {
    b'.strategyOf == b.strategyOf && SymbolOf(b') == SymbolOf(b)
  }

  lemma SameTablesAgree(c: Counts, b: Books, b': Books)
    requires Agrees(c, b) && SameTables(b, b')
    ensures Agrees(c, b')
  {
    hide KeysOf, SymbolOf;
  }

  lemma SameMirrored(b: Books, b': Books)
    requires SameTables(b, b') && b'.events == b.events && b'.trades == b.trades
    ensures Mirrored(b) ==> Mirrored(b')
  {
    hide KeysOf, SymbolOf, CountsOf, Told;
  }

  lemma PutKey(m: map<nat, string>, k: nat, v: string, w: string)
    requires k !in m
    ensures |KeysOf(m[k := v], w)| == |KeysOf(m, w)| + Count(v == w)
  {
    assert KeysOf(m[k := v], w) == if v == w then KeysOf(m, w) + {k} else KeysOf(m, w);
  }

  lemma DropKey(m: map<nat, string>, k: nat, w: string)
    requires k in m
    ensures |KeysOf(m - {k}, w)| == |KeysOf(m, w)| - Count(m[k] == w)
  {
    var rest := m - {k};
    assert forall j :: j in rest <==> j in m && j != k;
    if m[k] == w {
      assert KeysOf(m, w) == KeysOf(rest, w) + {k};
    } else {
      assert KeysOf(m, w) == KeysOf(rest, w);
    }
  }

  lemma CountedAfterPut(n: map<string, int>, m: map<nat, string>, k: nat, v: string)
    requires CountsKeys(n, m) && k !in m
    ensures CountsKeys(n[v := GetOr(n, v, 0) + 1], m[k := v])
  {
    hide KeysOf;
    var n', m' := n[v := GetOr(n, v, 0) + 1], m[k := v];
    forall w ensures GetOr(n', w, 0) == |KeysOf(m', w)| {
      assert GetOr(n, w, 0) == |KeysOf(m, w)|;
      PutKey(m, k, v, w);
    }
  }

  lemma CountedAfterDrop(n: map<string, int>, m: map<nat, string>, k: nat)
    requires CountsKeys(n, m) && k in m
    ensures CountsKeys(Decremented(n, m[k]), m - {k})
  {
    hide KeysOf;
    assert GetOr(n, m[k], 0) == |KeysOf(m, m[k])|;
    DropKey(m, k, m[k]);
    forall w ensures GetOr(Decremented(n, m[k]), w, 0) == |KeysOf(m - {k}, w)| {
      assert GetOr(n, w, 0) == |KeysOf(m, w)|;
      DropKey(m, k, w);
    }
  }

  /** A fill: one position more, one fill event more. */
  lemma FillAgrees(c: Counts, b: Books, b': Books, ticket: nat, strategyId: string, symbol: string)
    requires Agrees(c, b) && ticket != 0
    requires ticket !in b.positions && ticket !in b.strategyOf
    requires b'.strategyOf == b.strategyOf[ticket := strategyId]
    requires SymbolOf(b') == SymbolOf(b)[ticket := symbol]
    ensures Agrees(CountFilled(c, ACCOUNT, ticket, strategyId, symbol), b')
  {
    assert ticket !in SymbolOf(b);
    hide KeysOf, SymbolOf, CountsKeys, GetOr;
    CountedAfterPut(c.byStrategy, b.strategyOf, ticket, strategyId);
    CountedAfterPut(c.bySymbol, SymbolOf(b), ticket, symbol);
  }

  /** A full close: the counters of the owner and of the symbol each lose exactly this ticket. */
  lemma CloseAgrees(c: Counts, b: Books, b': Books, ticket: nat)
    requires Agrees(c, b) && ticket in b.positions && ticket in b.strategyOf
    requires b'.strategyOf == b.strategyOf - {ticket} && SymbolOf(b') == SymbolOf(b) - {ticket}
    ensures Agrees(CountClosed(c, ACCOUNT, ticket, b.positions[ticket].symbol), b')
  {
    var symbol := b.positions[ticket].symbol;
    assert ticket in SymbolOf(b) && SymbolOf(b)[ticket] == symbol;
    hide KeysOf, SymbolOf, CountsKeys, Decremented;
    assert (ACCOUNT, ticket) in c.owner && c.owner[(ACCOUNT, ticket)] == b.strategyOf[ticket];
    CountedAfterDrop(c.byStrategy, b.strategyOf, ticket);
    CountedAfterDrop(c.bySymbol, SymbolOf(b), ticket);
  }

  /** An event without a counting handler, over tables that did not move. */
  lemma QuietStep(b: Books, b': Books, e: Event)
    requires Mirrored(b) && SameTables(b, b') && b'.events == b.events + [e]
    requires !e.OrderFilled? && !e.PositionClosed? && SumPnl(b'.trades) == SumPnl(b.trades) + ProfitOf(e)
    ensures Mirrored(b')
  {
    hide CountsOf, Agrees, Told, ProfitIn, SumPnl;
    ProfitAppend(b.events, e);
    CountsAppend(b.events, e);
    SameTablesAgree(CountsOf(b.events), b, b');
    QuietTold(b.events, e, b.strategyOf, SymbolOf(b));
  }

  lemma PublishKeepsSound(t: Terms, b: Books, e: Event, initialBalance: real)
    requires Sound(t, b, initialBalance) && !e.PositionClosed? && !e.OrderCancelled?
    ensures Sound(t, Publish(b, e), initialBalance)
  {
    hide Terms.Commission, ClosedTickets, CancelledTickets;
    EventAppended(b.events, e);
    forall ticket: nat ensures TicketAccounted(Publish(b, e), ticket) {
      assert TicketAccounted(b, ticket);
    }
  }

  lemma SubmitKeeps(t: Terms, b: Books, req: OrderRequest, initialBalance: real)
    requires Sound(t, b, initialBalance) && Mirrored(b)
    ensures Sound(t, Submit(t, b, req), initialBalance) && Mirrored(Submit(t, b, req))
    ensures |b.events| <= |Submit(t, b, req).events| && Submit(t, b, req).events[..|b.events|] == b.events
  {
    hide TicketsAccounted, LedgerBalances, Mirrored, Terms.Commission, Terms.SlippedPrice, SameTables;
    var decision := DecisionMade(req.strategyId, req.symbol, true);
    var decided := Publish(b, decision);
    PublishKeepsSound(t, b, decision, initialBalance);
    Unmoved(b, decided);
    QuietStep(b, decided, decision);
    PlaceKeeps(t, decided, req, initialBalance);
    var (placed, r) := Place(t, decided, req);
    if r.ok && req.kind == MARKET {
      FillMirrored(t, decided, req);
      PublishKeepsSound(t, placed, OrderFilled(r.order.value), initialBalance);
    } else if r.ok {
      Unmoved(decided, placed);
      QuietStep(decided, placed, OrderSubmitted(NewOrder(decided.nextTicket, req, decided.simTime)));
    } else {
      Unmoved(decided, Publish(decided, OrderRejected(req)));
      QuietStep(decided, Publish(decided, OrderRejected(req)), OrderRejected(req));
      PublishKeepsSound(t, decided, OrderRejected(req), initialBalance);
    }
  }

  lemma Unmoved(b: Books, b': Books)
    requires b'.strategyOf == b.strategyOf && b'.positions == b.positions
    ensures SameTables(b, b')
  {
  }

  /** A market fill and the router's announcement of it together keep the mirror. */
  lemma FillMirrored(t: Terms, b: Books, req: OrderRequest)
    requires Consistent(b) && TicketsAccounted(b) && Mirrored(b) && req.kind == MARKET && Place(t, b, req).1.ok
    ensures
      var (placed, r) := Place(t, b, req);
      r.order.Some? && Mirrored(Publish(placed, OrderFilled(r.order.value)))
  {
    hide Terms.Commission, Terms.SlippedPrice, Mirrored, TicketsAccounted;
    var (placed, r) := Place(t, b, req);
    NeverOpened(b, b.nextTicket);
    OpenedKeepsMirror(b, Publish(placed, OrderFilled(r.order.value)), OrderFilled(r.order.value));
  }

  lemma NeverOpened(b: Books, ticket: nat)
    requires TicketsAccounted(b) && (ticket in b.pending || ticket == b.nextTicket)
    ensures ticket !in b.positions && ticket !in ClosedTickets(b.events)
    ensures ticket in b.pending ==> ticket != 0
  {
    hide ClosedTickets, CancelledTickets;
    AccountedAt(b, ticket);
  }

  /** A position more, announced as filled, under a ticket that was never open. */
  lemma OpenedKeepsMirror(b: Books, b': Books, filled: Event)
    requires Mirrored(b) && filled.OrderFilled? && filled.order.ticket != 0
    requires
      var ticket := filled.order.ticket;
      && ticket !in b.positions && ticket !in b.strategyOf && ticket !in ClosedTickets(b.events)
      && b'.strategyOf == b.strategyOf[ticket := filled.order.strategyId]
      && b'.positions.Keys == b.positions.Keys + {ticket}
      && b'.positions[ticket].symbol == filled.order.symbol
      && (forall k :: k in b.positions ==> b'.positions[k] == b.positions[k])
      && b'.events == b.events + [filled] && b'.trades == b.trades
    ensures Mirrored(b')
  {
    hide Agrees, CountFilled, CountsOf, Told, ClosedTickets, ProfitIn, SumPnl;
    ProfitAppend(b.events, filled);
    var order := filled.order;
    assert SymbolOf(b') == SymbolOf(b)[order.ticket := order.symbol];
    assert order.ticket !in SymbolOf(b);
    CountsAppend(b.events, filled);
    FillAgrees(CountsOf(b.events), b, b', order.ticket, order.strategyId, order.symbol);
    FillTold(b.events, filled, b.strategyOf, SymbolOf(b));
  }

  lemma PromoteMirrored(t: Terms, b: Books, ticket: nat, fillPrice: real)
    requires Consistent(b) && TicketsAccounted(b) && Mirrored(b) && ticket in b.pending
    ensures Mirrored(Promote(t, b, ticket, fillPrice))
  {
    hide Terms.Commission, Mirrored, TicketsAccounted;
    NeverOpened(b, ticket);
    OpenedKeepsMirror(b, Promote(t, b, ticket, fillPrice),
                      OrderFilled(FilledOrder(b.pending[ticket], fillPrice, b.simTime)));
  }

  lemma {:induction false} CheckListMirrored(
      t: Terms, b: Books, symbol: string, seen: Observation, tickets: seq<nat>, initialBalance: real)
    requires Sound(t, b, initialBalance) && Mirrored(b)
    ensures Mirrored(CheckList(t, b, symbol, seen, tickets))
    ensures b.events <= CheckList(t, b, symbol, seen, tickets).events
  {
    hide TicketsAccounted, LedgerBalances, Mirrored, Fires, PendingFill, Terms.Commission, Consistent;
    if tickets != [] {
      var init, last := tickets[..|tickets| - 1], tickets[|tickets| - 1];
      CheckListMirrored(t, b, symbol, seen, init, initialBalance);
      CheckListKeeps(t, b, symbol, seen, init, initialBalance);
      var mid := CheckList(t, b, symbol, seen, init);
      if last in mid.pending && mid.pending[last].symbol == symbol && Fires(mid.pending[last], seen) {
        var (fillPrice, calls) := PendingFill(t, mid.slippageCalls, mid.pending[last], seen);
        var asked := mid.(slippageCalls := calls);
        SlippageIsNotBooked(t, mid, asked, initialBalance);
        AskedMirrored(mid, asked);
        PromoteMirrored(t, asked, last, fillPrice);
      }
    }
  }

  lemma AskedMirrored(b: Books, asked: Books)
    requires asked == b.(slippageCalls := asked.slippageCalls)
    ensures Mirrored(b) ==> Mirrored(asked)
    ensures Consistent(b) ==> Consistent(asked)
  {
    hide Mirrored;
    SameMirrored(b, asked);
  }

  lemma FullClose(t: Terms, b: Books, ticket: nat, volume: Option<real>) returns (closed: Event, shown: Event)
    requires Close(t, b, ticket, volume).1.ok && Close(t, b, ticket, volume).1.status == FILLED
    ensures
      var b' := Close(t, b, ticket, volume).0;
      && ticket in b.positions && b'.positions == b.positions - {ticket} && b'.strategyOf == b.strategyOf - {ticket}
      && b'.events == b.events + [closed] + [shown] && b'.pending == b.pending
      && SumPnl(b'.trades) == SumPnl(b.trades) + ProfitOf(closed)
    ensures closed.PositionClosed? && closed.position == b.positions[ticket] && shown.BacktestTradeClosed?
  {
    hide Trade, Terms.SlippedPrice;
    var b' := Close(t, b, ticket, volume).0;
    closed, shown := b'.events[|b.events|], b'.events[|b.events| + 1];
    assert b'.events == b.events + [closed, shown];
    assert b'.trades[..|b.trades|] == b.trades;
  }

  lemma PartClose(t: Terms, b: Books, ticket: nat, volume: Option<real>) returns (partial: Event)
    requires Close(t, b, ticket, volume).1.ok && Close(t, b, ticket, volume).1.status != FILLED
    ensures
      var b' := Close(t, b, ticket, volume).0;
      && ticket in b.positions && ticket in b'.positions && b'.strategyOf == b.strategyOf && b'.pending == b.pending
      && b'.positions == b.positions[ticket := b'.positions[ticket]]
      && b'.positions[ticket].symbol == b.positions[ticket].symbol
      && b'.events == b.events + [partial] && SumPnl(b'.trades) == SumPnl(b.trades) + ProfitOf(partial)
    ensures partial.PartialClosed?
  {
    hide Trade, Terms.SlippedPrice;
    var b' := Close(t, b, ticket, volume).0;
    partial := b'.events[|b.events|];
    assert b'.trades[..|b.trades|] == b.trades;
  }

  lemma RefusedClose(t: Terms, b: Books, ticket: nat, volume: Option<real>)
    requires !Close(t, b, ticket, volume).1.ok
    ensures Close(t, b, ticket, volume).0 == b
  {
    hide Settle, Terms.SlippedPrice;
  }

  lemma CloseMirrored(t: Terms, b: Books, ticket: nat, volume: Option<real>)
    requires Consistent(b) && Mirrored(b)
    ensures Mirrored(Close(t, b, ticket, volume).0)
    ensures b.events <= Close(t, b, ticket, volume).0.events
  {
    hide Close, Agrees, CountClosed, CountsOf, SameTables;
    var (b', r) := Close(t, b, ticket, volume);
    if !r.ok {
      RefusedClose(t, b, ticket, volume);
    } else if r.status == FILLED {
      var closed, shown := FullClose(t, b, ticket, volume);
      ClosedKeepsMirror(b, b', ticket, closed, shown);
    } else {
      var partial := PartClose(t, b, ticket, volume);
      RemainderUnmoved(b, b', ticket);
      QuietStep(b, b', partial);
    }
  }

  lemma ClosedKeepsMirror(b: Books, b': Books, ticket: nat, closed: Event, shown: Event)
    requires Consistent(b) && Mirrored(b) && ticket in b.positions
    requires b'.positions == b.positions - {ticket} && b'.strategyOf == b.strategyOf - {ticket}
    requires b'.events == b.events + [closed] + [shown] && shown.BacktestTradeClosed?
    requires closed.PositionClosed? && closed.position == b.positions[ticket]
    requires SumPnl(b'.trades) == SumPnl(b.trades) + ProfitOf(closed)
    ensures Mirrored(b')
  {
    hide Agrees, CountClosed, CountsOf, Told, ProfitIn, SumPnl;
    ProfitAppend(b.events, closed);
    ProfitAppend(b.events + [closed], shown);
    CountsAppend(b.events, closed);
    CountsAppend(b.events + [closed], shown);
    ClosedTables(b, b', ticket);
    CloseAgrees(CountsOf(b.events), b, b', ticket);
    CloseTold(b.events, closed, b.strategyOf, SymbolOf(b));
    QuietTold(b.events + [closed], shown, b'.strategyOf, SymbolOf(b'));
  }

  lemma ClosedTables(b: Books, b': Books, ticket: nat)
    requires Consistent(b) && ticket in b.positions && b'.positions == b.positions - {ticket}
    ensures b.positions[ticket].ticket == ticket && ticket in b.strategyOf
    ensures ticket in SymbolOf(b) && SymbolOf(b)[ticket] == b.positions[ticket].symbol
    ensures SymbolOf(b') == SymbolOf(b) - {ticket}
  {
  }

  lemma RemainderUnmoved(b: Books, b': Books, ticket: nat)
    requires b'.strategyOf == b.strategyOf && ticket in b.positions && ticket in b'.positions
    requires b'.positions == b.positions[ticket := b'.positions[ticket]]
    requires b'.positions[ticket].symbol == b.positions[ticket].symbol
    ensures SameTables(b, b')
  {
  }

  lemma ModifiedTables(
      b: Books, ticket: nat, sl: Option<real>, tp: Option<real>, price: Option<real>, volume: Option<real>)
    ensures
      var b' := Modify(b, ticket, sl, tp, price, volume).0;
      SameTables(b, b') && b'.events == b.events && b'.trades == b.trades
  {
    hide Modify;
    ModifyInPlace(b, ticket, sl, tp, price, volume);
  }

  lemma ModifyMirrored(
      b: Books, ticket: nat, sl: Option<real>, tp: Option<real>, price: Option<real>, volume: Option<real>)
    requires Mirrored(b)
    ensures Mirrored(Modify(b, ticket, sl, tp, price, volume).0)
    ensures Modify(b, ticket, sl, tp, price, volume).0.events == b.events
  {
    hide Mirrored, Modify, SameTables;
    ModifiedTables(b, ticket, sl, tp, price, volume);
    SameMirrored(b, Modify(b, ticket, sl, tp, price, volume).0);
  }

  lemma CancelMirrored(b: Books, ticket: nat)
    requires Mirrored(b)
    ensures Mirrored(Cancel(b, ticket).0)
    ensures b.events <= Cancel(b, ticket).0.events
  {
    hide Mirrored;
    if ticket in b.pending {
      QuietStep(b, Cancel(b, ticket).0, OrderCancelled(b.pending[ticket].(status := CANCELLED)));
    }
  }

  lemma ReplayKeeps(t: Terms, b: Books, op: Op, initialBalance: real)
    requires Sound(t, b, initialBalance) && Mirrored(b) && !op.PlaceOrder?
    ensures Sound(t, Apply(t, b, op), initialBalance) && Mirrored(Apply(t, b, op))
    ensures b.events <= Apply(t, b, op).events
  {
    hide TicketsAccounted, LedgerBalances, Mirrored;
    StepKeeps(t, b, op, initialBalance);
    match op
    case CheckPendings(symbol, seen) =>
      CheckListMirrored(t, b, symbol, seen, Tickets(b.pending, b.nextTicket), initialBalance);
    case ClosePosition(ticket, volume) => CloseMirrored(t, b, ticket, volume);
    case ModifyOrder(ticket, sl, tp, price, volume) => ModifyMirrored(b, ticket, sl, tp, price, volume);
    case CancelOrder(ticket) => CancelMirrored(b, ticket);
    case _ => SameMirrored(b, Apply(t, b, op));
  }

  // ---- The composed invariant ----------------------------------------------------------------

  /** Counters that answer alike; an absent entry is a zero. */
  ghost predicate SameCounts(c: Counts, d: Counts) {
    && c.owner == d.owner
    && (forall k :: GetOr(c.byStrategy, k, 0) == GetOr(d.byStrategy, k, 0))
    && (forall k :: GetOr(c.bySymbol, k, 0) == GetOr(d.bySymbol, k, 0))
  }

  lemma SameCountsAfter(c: Counts, d: Counts, e: Event)
    requires SameCounts(c, d)
    ensures SameCounts(CountEvent(c, e), CountEvent(d, e))
  {
    var c', d' := CountEvent(c, e), CountEvent(d, e);
    forall k ensures GetOr(c'.byStrategy, k, 0) == GetOr(d'.byStrategy, k, 0) {
      assert GetOr(c.byStrategy, k, 0) == GetOr(d.byStrategy, k, 0);
    }
    forall k ensures GetOr(c'.bySymbol, k, 0) == GetOr(d'.bySymbol, k, 0) {
      assert GetOr(c.bySymbol, k, 0) == GetOr(d.bySymbol, k, 0);
    }
  }

  lemma SameCountsAgree(c: Counts, d: Counts, b: Books)
    requires Agrees(d, b)
    ensures SameCounts(c, d) <==> Agrees(c, b)
  {
    hide KeysOf, SymbolOf;
    if Agrees(c, b) {
      assert c.owner == d.owner;
      forall k ensures GetOr(c.byStrategy, k, 0) == GetOr(d.byStrategy, k, 0) {
        assert GetOr(c.byStrategy, k, 0) == |KeysOf(b.strategyOf, k)|;
      }
      forall k ensures GetOr(c.bySymbol, k, 0) == GetOr(d.bySymbol, k, 0) {
        assert GetOr(c.bySymbol, k, 0) == |KeysOf(SymbolOf(b), k)|;
      }
    }
  }

  /** The books are sound and their event log tells how many positions there are. */
  ghost predicate BooksMirrored(t: Terms, b: Books, initialBalance: real) {
    Sound(t, b, initialBalance) && Mirrored(b)
  }

  ghost predicate Mirrors(s: Setup, e: Engine, initialBalance: real) {
    && BooksMirrored(s.terms, e.books, initialBalance)
    && e.delivered <= |e.books.events|
    && SameCounts(e.monitor.counts, CountsOf(e.books.events[..e.delivered]))
  }

  lemma ModifyRequestKeeps(s: Setup, e: Engine, step: Step, initialBalance: real)
    requires BooksMirrored(s.terms, e.books, initialBalance) && step.ModifyRequested?
    ensures BooksMirrored(s.terms, Next(s, e, step).books, initialBalance)
    ensures e.books.events <= Next(s, e, step).books.events
  {
    hide TicketsAccounted, LedgerBalances, Mirrored, CountsOf, Consistent, Modify;
    var b := e.books;
    if step.ticket in b.pending {
      var p := b.pending[step.ticket];
      if p.magic == MagicOf(s.magics, step.strategyId) {
        var volume := Some(if step.volume.Some? then step.volume.value else p.volume);
        var sl, tp, price := OrElse(step.sl, p.sl), OrElse(step.tp, p.tp), OrElse(step.price, p.price);
        ModifyKeeps(s.terms, b, step.ticket, sl, tp, price, volume, initialBalance);
        ModifyMirrored(b, step.ticket, sl, tp, price, volume);
      }
    } else if OwnsPosition(s.magics, b, step.strategyId, step.ticket) {
      var pos := b.positions[step.ticket];
      var sl, tp := OrElse(step.sl, pos.sl), OrElse(step.tp, pos.tp);
      var (mid, r) := Modify(b, step.ticket, sl, tp, None, None);
      ModifyKeeps(s.terms, b, step.ticket, sl, tp, None, None, initialBalance);
      ModifyMirrored(b, step.ticket, sl, tp, None, None);
      if r.ok {
        var modified := PositionModified(GetOr(mid.positions, step.ticket, pos));
        Unmoved(mid, Publish(mid, modified));
        QuietStep(mid, Publish(mid, modified), modified);
        PublishKeepsSound(s.terms, mid, modified, initialBalance);
      }
    }
  }

  lemma SignalKeeps(s: Setup, e: Engine, signal: Signal, now: int, initialBalance: real)
    requires BooksMirrored(s.terms, e.books, initialBalance)
    ensures BooksMirrored(s.terms, Next(s, e, Signalled(signal, now)).books, initialBalance)
    ensures e.books.events <= Next(s, e, Signalled(signal, now)).books.events
  {
    hide TicketsAccounted, LedgerBalances, Mirrored, CountsOf, Consistent, Judge, Submit;
    var b := e.books;
    var decision := DecisionMade(signal.strategyId, signal.symbol, false);
    PublishKeepsSound(s.terms, b, decision, initialBalance);
    Unmoved(b, Publish(b, decision));
    QuietStep(b, Publish(b, decision), decision);
    SubmitKeeps(s.terms, b, Request(s.magics, signal), initialBalance);
  }

  /** Whatever the monitor believes, every step keeps the books sound and mirrored, and only adds events. */
  lemma NextBooks(s: Setup, e: Engine, step: Step, initialBalance: real)
    requires BooksMirrored(s.terms, e.books, initialBalance) && Enabled(e, step)
    ensures BooksMirrored(s.terms, Next(s, e, step).books, initialBalance)
    ensures e.books.events <= Next(s, e, step).books.events
  {
    hide TicketsAccounted, LedgerBalances, Mirrored, CountsOf, Consistent, Close, Cancel, Apply, Modify, HandleSignal,
      HandleModify;
    var t, b := s.terms, e.books;
    match step {
      case Signalled(signal, now) => SignalKeeps(s, e, signal, now, initialBalance);
      case ModifyRequested(_, _, _, _, _, _) => ModifyRequestKeeps(s, e, step, initialBalance);
      case CloseRequested(_, ticket) =>
        CloseKeeps(t, b, ticket, None, initialBalance);
        CloseMirrored(t, b, ticket, None);
      case PartialCloseRequested(_, ticket, part) =>
        CloseKeeps(t, b, ticket, Some(part), initialBalance);
        CloseMirrored(t, b, ticket, Some(part));
      case CancelRequested(_, ticket) =>
        CancelKeeps(t, b, ticket, initialBalance);
        CancelMirrored(b, ticket);
      case Replayed(op) => ReplayKeeps(t, b, op, initialBalance);
      case _ =>
    }
  }

  /** And the monitor goes on counting exactly what is delivered to it. */
  lemma NextCounts(s: Setup, e: Engine, step: Step)
    requires Enabled(e, step) && e.delivered <= |e.books.events| && e.books.events <= Next(s, e, step).books.events
    requires SameCounts(e.monitor.counts, CountsOf(e.books.events[..e.delivered]))
    ensures
      var e' := Next(s, e, step);
      && e'.delivered <= |e'.books.events|
      && SameCounts(e'.monitor.counts, CountsOf(e'.books.events[..e'.delivered]))
  {
    hide CountsOf, SameCounts, Submit, Judge, HandleClose, HandlePartialClose, HandleCancel, HandleModify, Apply,
      GatesAfter, Roll, AddPnl, CountFilled, CountClosed, ResetKillSwitch, ResetProfitLock, DailyAfter;
    var e' := Next(s, e, step);
    var events := e.books.events;
    if step.Delivered? {
      assert events[..e.delivered + 1] == events[..e.delivered] + [events[e.delivered]];
      CountsAppend(events[..e.delivered], events[e.delivered]);
      SameCountsAfter(e.monitor.counts, CountsOf(events[..e.delivered]), events[e.delivered]);
    } else {
      assert e'.monitor.counts == e.monitor.counts && e'.books.events[..e.delivered] == events[..e.delivered];
    }
  }

  lemma NextKeeps(s: Setup, e: Engine, step: Step, initialBalance: real)
    requires Mirrors(s, e, initialBalance) && Enabled(e, step)
    ensures Mirrors(s, Next(s, e, step), initialBalance)
  {
    hide BooksMirrored, SameCounts, CountsOf, Next;
    NextBooks(s, e, step, initialBalance);
    NextCounts(s, e, step);
  }

  lemma StartMirrors(s: Setup, initialBalance: real, now: int)
    ensures Mirrors(s, Start(initialBalance, now), initialBalance)
  {
    OpeningIsSound(s.terms, initialBalance, now);
    var b := Opening(initialBalance, now);
    assert SymbolOf(b) == map[];
    assert forall v :: KeysOf(map[], v) == {};
  }

  /** In every state of every run the monitor has counted exactly the events delivered to it. */
  lemma {:induction false} RunMirrors(
      s: Setup, trace: seq<Engine>, steps: seq<Step>, initialBalance: real, now: int, i: nat)
    requires Run(s, trace, steps, initialBalance, now) && i <= |steps|
    ensures Mirrors(s, trace[i], initialBalance)
  {
    hide Mirrors, Next;
    if i == 0 {
      StartMirrors(s, initialBalance, now);
    } else {
      RunMirrors(s, trace, steps, initialBalance, now, i - 1);
      NextKeeps(s, trace[i - 1], steps[i - 1], initialBalance);
    }
  }

  /** Once everything published has been delivered, the monitor's counters are the broker's tables. */
  lemma MonitorMirrorsBroker(s: Setup, trace: seq<Engine>, steps: seq<Step>, initialBalance: real, now: int, i: nat)
    requires Run(s, trace, steps, initialBalance, now) && i <= |steps|
    requires trace[i].delivered == |trace[i].books.events|
    ensures Agrees(trace[i].monitor.counts, trace[i].books)
  {
    hide Sound, Agrees, CountsOf, Next, SameCounts;
    RunMirrors(s, trace, steps, initialBalance, now, i);
    var events := trace[i].books.events;
    assert events[..|events|] == events;
    SameCountsAgree(trace[i].monitor.counts, CountsOf(events), trace[i].books);
  }

  // ---- Position caps ------------------------------------------------------------------------------

  /** Signals are market orders, and each is judged with no event still undelivered. */
  predicate PromptMarketStep(e: Engine, step: Step) {
    step.Signalled? ==> step.signal.kind == MARKET && e.delivered == |e.books.events|
  }

  ghost predicate WithinCap(s: Setup, b: Books) {
    b.pending == map[] && forall sid :: |OwnedBy(b, sid)| <= s.cfg.maxOpenPerStrategy
  }

  lemma FewerOwned(m: map<nat, string>, m': map<nat, string>, v: string)
    requires forall k :: k in m' ==> k in m && m'[k] == m[k]
    ensures |KeysOf(m', v)| <= |KeysOf(m, v)|
  {
    var extra := KeysOf(m, v) - KeysOf(m', v);
    assert KeysOf(m, v) == KeysOf(m', v) + extra;
  }

  /** Without pending orders no step but a signal adds to a strategy's positions. */
  lemma OnlySignalsOpen(s: Setup, e: Engine, step: Step)
    requires Consistent(e.books) && e.books.pending == map[]
    requires Enabled(e, step) && !step.Signalled?
    ensures
      var b' := Next(s, e, step).books;
      && b'.pending == map[]
      && forall k :: k in b'.strategyOf ==> k in e.books.strategyOf && b'.strategyOf[k] == e.books.strategyOf[k]
  {
    hide Terms.SlippedPrice, Trade, BookTrade, OrElse, Terms.Commission, CheckPending;
    var b := e.books;
    if step.Replayed? && step.op.CheckPendings? {
      NothingToCheck(s.terms, b, step.op.symbol, step.op.seen);
    }
    BookTradeMovesOnlyMoney(s.terms);
  }

  /** No position appears or changes its symbol. */
  ghost predicate NoneAppears(b: Books, b': Books) {
    forall k :: k in b'.positions ==> k in b.positions && b'.positions[k].symbol == b.positions[k].symbol
  }

  lemma CloseOpensNone(t: Terms, b: Books, ticket: nat, volume: Option<real>)
    ensures NoneAppears(b, Close(t, b, ticket, volume).0)
  {
    hide Terms.SlippedPrice, Trade, BookTrade;
    BookTradeMovesOnlyMoney(t);
  }

  lemma ModifyOpensNone(
      b: Books, ticket: nat, sl: Option<real>, tp: Option<real>, price: Option<real>, volume: Option<real>)
    ensures NoneAppears(b, Modify(b, ticket, sl, tp, price, volume).0)
  {
    hide Modify;
    ModifyInPlace(b, ticket, sl, tp, price, volume);
  }

  lemma ModifyRequestOpensNone(s: Setup, e: Engine, step: Step)
    requires step.ModifyRequested?
    ensures NoneAppears(e.books, Next(s, e, step).books)
  {
    hide Modify, OrElse;
    var b := e.books;
    if step.ticket in b.pending {
      var p := b.pending[step.ticket];
      ModifyOpensNone(b, step.ticket, OrElse(step.sl, p.sl), OrElse(step.tp, p.tp), OrElse(step.price, p.price),
                      Some(if step.volume.Some? then step.volume.value else p.volume));
    } else if step.ticket in b.positions {
      var pos := b.positions[step.ticket];
      ModifyOpensNone(b, step.ticket, OrElse(step.sl, pos.sl), OrElse(step.tp, pos.tp), None, None);
    }
  }

  lemma OnlySignalsOpenSymbols(s: Setup, e: Engine, step: Step)
    requires e.books.pending == map[] && Enabled(e, step) && !step.Signalled?
    ensures NoneAppears(e.books, Next(s, e, step).books)
  {
    hide Close, Modify, CheckPending, HandleModify;
    var t, b := s.terms, e.books;
    match step {
      case ModifyRequested(_, _, _, _, _, _) => ModifyRequestOpensNone(s, e, step);
      case CloseRequested(_, ticket) => CloseOpensNone(t, b, ticket, None);
      case PartialCloseRequested(_, ticket, part) => CloseOpensNone(t, b, ticket, Some(part));
      case Replayed(op) =>
        match op {
          case CheckPendings(symbol, seen) => NothingToCheck(t, b, symbol, seen);
          case ModifyOrder(ticket, sl, tp, price, volume) => ModifyOpensNone(b, ticket, sl, tp, price, volume);
          case ClosePosition(ticket, volume) => CloseOpensNone(t, b, ticket, volume);
          case _ =>
        }
      case _ =>
    }
  }

  lemma BookTradeMovesOnlyMoney(t: Terms)
    ensures forall b, pos, trade ::
      && BookTrade(t, b, pos, trade).pending == b.pending && BookTrade(t, b, pos, trade).strategyOf == b.strategyOf
      && BookTrade(t, b, pos, trade).positions == b.positions
  {
  }

  lemma {:induction false} NothingListed(n: nat)
    ensures Tickets(map[], n) == []
  {
    if n > 0 {
      NothingListed(n - 1);
    }
  }

  lemma NothingToCheck(t: Terms, b: Books, symbol: string, seen: Observation)
    requires b.pending == map[]
    ensures CheckPending(t, b, symbol, seen) == b
  {
    NothingListed(b.nextTicket);
  }

  /** What a submitted market order does to the ownership table. */
  lemma MarketSubmit(t: Terms, b: Books, req: OrderRequest)
    requires Consistent(b) && req.kind == MARKET
    ensures
      var b' := Submit(t, b, req);
      && b'.pending == b.pending
      && b'.strategyOf == if req.symbol in b.lastBid then b.strategyOf[b.nextTicket := req.strategyId] else b.strategyOf
    ensures b.nextTicket !in b.strategyOf
  {
    hide Terms.SlippedPrice, Terms.Commission;
  }

  lemma MarketSubmitSymbols(t: Terms, b: Books, req: OrderRequest)
    requires Consistent(b) && req.kind == MARKET
    ensures SymbolOf(Submit(t, b, req)) ==
      if req.symbol in b.lastBid then SymbolOf(b)[b.nextTicket := req.symbol] else SymbolOf(b)
    ensures b.nextTicket !in SymbolOf(b)
  {
    hide Terms.SlippedPrice, Terms.Commission;
  }

  /** The fills of a strategy among the events from `from` on. */
  function FillsFrom(events: seq<Event>, from: nat, sid: string): nat
    requires from <= |events|
  {
    if |events| == from then 0
    else
      var init, last := events[..|events| - 1], events[|events| - 1];
      FillsFrom(init, from, sid) + Count(last.OrderFilled? && last.order.strategyId == sid)
  }

  /** The closes, among the events from `from` on, of positions that the strategy owned then. */
  function ClosesFrom(events: seq<Event>, from: nat, sid: string): nat
    requires from <= |events|
  {
    if |events| == from then 0
    else
      var init, last := events[..|events| - 1], events[|events| - 1];
      ClosesFrom(init, from, sid) + Count(last.PositionClosed? && Owns(CountsOf(init), sid, last.position.ticket))
  }

  predicate Owns(c: Counts, sid: string, ticket: nat) {
    (ACCOUNT, ticket) in c.owner && c.owner[(ACCOUNT, ticket)] == sid
  }

  ghost function OwnedKeys(owner: map<TicketKey, string>, sid: string): set<TicketKey> {
    set key | key in owner && owner[key] == sid
  }

  /** No counter is ever below the tickets it stands for, so a close of an owned ticket always counts. */
  lemma {:induction false} OwnersAreCounted(events: seq<Event>, sid: string)
    ensures |OwnedKeys(CountsOf(events).owner, sid)| <= GetOr(CountsOf(events).byStrategy, sid, 0)
  {
    hide OwnedKeys;
    if events == [] {
      NoOwnedKeys(sid);
    } else {
      var init, last := events[..|events| - 1], events[|events| - 1];
      var c := CountsOf(init);
      OwnersAreCounted(init, sid);
      if last.OrderFilled? {
        OwnedAfterPut(c.owner, (ACCOUNT, last.order.ticket), last.order.strategyId, sid);
      } else if last.PositionClosed? {
        OwnedAfterDrop(c.owner, (ACCOUNT, last.position.ticket), sid);
      }
    }
  }

  lemma NoOwnedKeys(sid: string)
    ensures OwnedKeys(map[], sid) == {}
  {
  }

  lemma OwnedAfterPut(owner: map<TicketKey, string>, key: TicketKey, filler: string, sid: string)
    ensures |OwnedKeys(owner[key := filler], sid)| <= |OwnedKeys(owner, sid)| + Count(filler == sid)
  {
    var before, after := OwnedKeys(owner, sid), OwnedKeys(owner[key := filler], sid);
    Subset(after, if filler == sid then before + {key} else before);
  }

  lemma OwnedAfterDrop(owner: map<TicketKey, string>, key: TicketKey, sid: string)
    ensures |OwnedKeys(owner - {key}, sid)| == |OwnedKeys(owner, sid)| - Count(key in owner && owner[key] == sid)
  {
    var rest := owner - {key};
    assert forall j :: j in rest <==> j in owner && j != key;
    var before, after := OwnedKeys(owner, sid), OwnedKeys(rest, sid);
    if key in owner && owner[key] == sid {
      assert before == after + {key};
    } else {
      assert before == after;
    }
  }

  lemma Subset<T>(a: set<T>, b: set<T>)
    requires a <= b
    ensures |a| <= |b|
  {
    assert b == a + (b - a);
  }

  /** What later events add to a counter: fills less closes. */
  lemma {:induction false} CountIsFillsLessCloses(events: seq<Event>, from: nat, sid: string)
    requires from <= |events|
    ensures GetOr(CountsOf(events).byStrategy, sid, 0)
         == GetOr(CountsOf(events[..from]).byStrategy, sid, 0)
            + FillsFrom(events, from, sid) - ClosesFrom(events, from, sid)
  {
    hide OwnedKeys;
    if |events| == from {
      assert events[..from] == events;
    } else {
      var init, last := events[..|events| - 1], events[|events| - 1];
      CountIsFillsLessCloses(init, from, sid);
      assert init[..from] == events[..from];
      if last.PositionClosed? && Owns(CountsOf(init), sid, last.position.ticket) {
        OwnersAreCounted(init, sid);
        OwnedAfterDrop(CountsOf(init).owner, (ACCOUNT, last.position.ticket), sid);
      }
    }
  }

  /** What the monitor has not seen yet: undelivered fills less undelivered closes. */
  function Lag(e: Engine, sid: string): int
    requires e.delivered <= |e.books.events|
  {
    FillsFrom(e.books.events, e.delivered, sid) - ClosesFrom(e.books.events, e.delivered, sid)
  }

  /** The broker's count is the monitor's count plus the lag. */
  lemma CountAndLag(s: Setup, e: Engine, sid: string, initialBalance: real)
    requires Mirrors(s, e, initialBalance)
    ensures |OwnedBy(e.books, sid)| == GetOr(e.monitor.counts.byStrategy, sid, 0) + Lag(e, sid)
  {
    hide Sound, KeysOf, CountsOf, FillsFrom, ClosesFrom;
    CountIsFillsLessCloses(e.books.events, e.delivered, sid);
  }

  /** A market signal that the monitor allows leaves the strategy within the cap exactly when its count plus
      the undelivered fills less the undelivered closes is below the cap. */
  lemma AllowedSignalCap(s: Setup, e: Engine, signal: Signal, now: int, initialBalance: real)
    requires Mirrors(s, e, initialBalance) && signal.kind == MARKET && signal.symbol in e.books.lastBid
    requires signal.filterPasses && signal.exposurePasses
    requires Judge(s.cfg, AfterCheck(e.monitor, now), signal.strategyId, signal.symbol) == Allowed
    ensures
      var sid := signal.strategyId;
      |OwnedBy(Next(s, e, Signalled(signal, now)).books, sid)| <= s.cfg.maxOpenPerStrategy
      <==> GetOr(e.monitor.counts.byStrategy, sid, 0) + Lag(e, sid) < s.cfg.maxOpenPerStrategy
  {
    hide Submit, Judge, KeysOf, Mirrored, TicketsAccounted, LedgerBalances, CountsOf, SameCounts, Lag;
    var req := Request(s.magics, signal);
    CountAndLag(s, e, signal.strategyId, initialBalance);
    MarketSubmit(s.terms, e.books, req);
    PutKey(e.books.strategyOf, e.books.nextTicket, signal.strategyId, signal.strategyId);
  }

  lemma AllowedMeansRoom(cfg: RiskConfig, m: Monitor, sid: string, symbol: string)
    requires cfg.maxOpenPerStrategy > 0 && Judge(cfg, m, sid, symbol) == Allowed
    ensures GetOr(m.counts.byStrategy, sid, 0) < cfg.maxOpenPerStrategy
  {
  }

  lemma PromptSignalWithinCap(s: Setup, e: Engine, signal: Signal, now: int, initialBalance: real)
    requires Mirrors(s, e, initialBalance) && WithinCap(s, e.books) && s.cfg.maxOpenPerStrategy > 0
    requires signal.kind == MARKET && e.delivered == |e.books.events|
    ensures WithinCap(s, Next(s, e, Signalled(signal, now)).books)
  {
    hide Submit, Judge, KeysOf, TicketsAccounted, LedgerBalances, CountsOf;
    var b, sid := e.books, signal.strategyId;
    var b' := Next(s, e, Signalled(signal, now)).books;
    var judged := AfterCheck(e.monitor, now);
    MarketSubmit(s.terms, b, Request(s.magics, signal));
    if signal.filterPasses && Judge(s.cfg, judged, sid, signal.symbol) == Allowed && signal.exposurePasses
       && signal.symbol in b.lastBid {
      CountAndLag(s, e, sid, initialBalance);
      assert Lag(e, sid) == 0;
      AllowedMeansRoom(s.cfg, judged, sid, signal.symbol);
      forall other ensures |OwnedBy(b', other)| <= s.cfg.maxOpenPerStrategy {
        assert |OwnedBy(b, other)| <= s.cfg.maxOpenPerStrategy;
        PutKey(b.strategyOf, b.nextTicket, sid, other);
      }
    } else {
      assert b'.strategyOf == b.strategyOf;
      forall other ensures |OwnedBy(b', other)| <= s.cfg.maxOpenPerStrategy {
        assert |OwnedBy(b, other)| <= s.cfg.maxOpenPerStrategy;
      }
    }
  }

  /** With market signals and events handled in publish order, no strategy ever exceeds a non-zero cap. */
  lemma {:induction false} CapNeverExceeded(
      s: Setup, trace: seq<Engine>, steps: seq<Step>, initialBalance: real, now: int, i: nat)
    requires Run(s, trace, steps, initialBalance, now) && i <= |steps| && s.cfg.maxOpenPerStrategy > 0
    requires forall j :: 0 <= j < |steps| ==> PromptMarketStep(trace[j], steps[j])
    ensures WithinCap(s, trace[i].books)
  {
    hide Next, KeysOf, Mirrored, TicketsAccounted, LedgerBalances, CountsOf;
    if i == 0 {
      NoneOwned(trace[0].books);
    } else {
      var e, step := trace[i - 1], steps[i - 1];
      CapNeverExceeded(s, trace, steps, initialBalance, now, i - 1);
      RunMirrors(s, trace, steps, initialBalance, now, i - 1);
      if step.Signalled? {
        PromptSignalWithinCap(s, e, step.signal, step.now, initialBalance);
      } else {
        OnlySignalsOpen(s, e, step);
        forall sid ensures |OwnedBy(trace[i].books, sid)| <= s.cfg.maxOpenPerStrategy {
          assert |OwnedBy(e.books, sid)| <= s.cfg.maxOpenPerStrategy;
          FewerOwned(e.books.strategyOf, trace[i].books.strategyOf, sid);
        }
      }
    }
  }

  // ---- The cap of a symbol ----------------------------------------------------------------------

  ghost predicate WithinSymbolCaps(s: Setup, b: Books) {
    && b.pending == map[]
    && forall symbol :: symbol in s.cfg.perSymbol && s.cfg.perSymbol[symbol].maxOpenPositions > 0 ==>
         |KeysOf(SymbolOf(b), symbol)| <= s.cfg.perSymbol[symbol].maxOpenPositions
  }

  lemma AllowedMeansSymbolRoom(cfg: RiskConfig, m: Monitor, sid: string, symbol: string)
    requires symbol in cfg.perSymbol && cfg.perSymbol[symbol].maxOpenPositions > 0
    requires Judge(cfg, m, sid, symbol) == Allowed
    ensures GetOr(m.counts.bySymbol, symbol, 0) < cfg.perSymbol[symbol].maxOpenPositions
  {
  }

  lemma SymbolCountIsPrompt(s: Setup, e: Engine, symbol: string, initialBalance: real)
    requires Mirrors(s, e, initialBalance) && e.delivered == |e.books.events|
    ensures GetOr(e.monitor.counts.bySymbol, symbol, 0) == |KeysOf(SymbolOf(e.books), symbol)|
  {
    hide Sound, KeysOf, SymbolOf, CountsOf;
    assert e.books.events[..e.delivered] == e.books.events;
  }

  lemma PromptSignalWithinSymbolCaps(s: Setup, e: Engine, signal: Signal, now: int, initialBalance: real)
    requires Mirrors(s, e, initialBalance) && WithinSymbolCaps(s, e.books)
    requires signal.kind == MARKET && e.delivered == |e.books.events|
    ensures WithinSymbolCaps(s, Next(s, e, Signalled(signal, now)).books)
  {
    hide Submit, Judge, KeysOf, SymbolOf, TicketsAccounted, LedgerBalances, CountsOf, SameCounts;
    var b, b' := e.books, Next(s, e, Signalled(signal, now)).books;
    var judged := AfterCheck(e.monitor, now);
    MarketSubmit(s.terms, b, Request(s.magics, signal));
    MarketSubmitSymbols(s.terms, b, Request(s.magics, signal));
    if !signal.filterPasses || Judge(s.cfg, judged, signal.strategyId, signal.symbol) != Allowed
       || !signal.exposurePasses {
      Unmoved(b, b');
    } else if signal.symbol in b.lastBid {
      SymbolCountIsPrompt(s, e, signal.symbol, initialBalance);
      forall symbol | symbol in s.cfg.perSymbol && s.cfg.perSymbol[symbol].maxOpenPositions > 0
        ensures |KeysOf(SymbolOf(b'), symbol)| <= s.cfg.perSymbol[symbol].maxOpenPositions
      {
        PutKey(SymbolOf(b), b.nextTicket, signal.symbol, symbol);
        if symbol == signal.symbol {
          AllowedMeansSymbolRoom(s.cfg, judged, signal.strategyId, symbol);
        }
      }
    }
  }

  /** Likewise no symbol ever exceeds a non-zero cap of its own, whatever the strategy caps are. */
  lemma {:induction false} SymbolCapNeverExceeded(
      s: Setup, trace: seq<Engine>, steps: seq<Step>, initialBalance: real, now: int, i: nat)
    requires Run(s, trace, steps, initialBalance, now) && i <= |steps|
    requires forall j :: 0 <= j < |steps| ==> PromptMarketStep(trace[j], steps[j])
    ensures WithinSymbolCaps(s, trace[i].books)
  {
    hide Next, KeysOf, Mirrored, TicketsAccounted, LedgerBalances, CountsOf, SameCounts;
    if i == 0 {
      assert SymbolOf(trace[0].books) == map[];
      NoneKeyed();
    } else {
      var e, step := trace[i - 1], steps[i - 1];
      SymbolCapNeverExceeded(s, trace, steps, initialBalance, now, i - 1);
      RunMirrors(s, trace, steps, initialBalance, now, i - 1);
      if step.Signalled? {
        PromptSignalWithinSymbolCaps(s, e, step.signal, step.now, initialBalance);
      } else {
        OnlySignalsOpen(s, e, step);
        OnlySignalsOpenSymbols(s, e, step);
        forall symbol | symbol in s.cfg.perSymbol && s.cfg.perSymbol[symbol].maxOpenPositions > 0
          ensures |KeysOf(SymbolOf(trace[i].books), symbol)| <= s.cfg.perSymbol[symbol].maxOpenPositions
        {
          FewerOwned(SymbolOf(e.books), SymbolOf(trace[i].books), symbol);
        }
      }
    }
  }

  lemma NoneKeyed()
    ensures forall v :: KeysOf(map[], v) == {}
  {
  }

  lemma NoneOwned(b: Books)
    requires b.strategyOf == map[]
    ensures forall sid :: OwnedBy(b, sid) == {}
  {
  }

  // ---- Where the cap does not hold: pending orders, and undelivered fills ----------------------------

  /** The pending orders of a strategy that an observation triggers. */
  ghost function FiredFor(b: Books, strategyId: string, symbol: string, seen: Observation): set<nat> {
    set k | k in b.pending && b.pending[k].strategyId == strategyId && Matches(b.pending[k], symbol, seen)
  }

  lemma {:induction false} CheckListOwners(
      t: Terms, b: Books, symbol: string, seen: Observation, tickets: seq<nat>, ticket: nat)
    ensures
      var owner := CheckList(t, b, symbol, seen, tickets).strategyOf;
      var fired := ticket in tickets && ticket in b.pending && Matches(b.pending[ticket], symbol, seen);
      && (ticket in owner <==> ticket in b.strategyOf || fired)
      && (ticket in owner ==> owner[ticket] == if fired then b.pending[ticket].strategyId else b.strategyOf[ticket])
  {
    hide Fires, PendingFill, Terms.Commission;
    if tickets != [] {
      var init, last := tickets[..|tickets| - 1], tickets[|tickets| - 1];
      assert tickets == init + [last];
      CheckListOwners(t, b, symbol, seen, init, ticket);
      CheckListPending(t, b, symbol, seen, init, last);
    }
  }

  lemma OwnedAfterCheck(t: Terms, b: Books, strategyId: string, symbol: string, seen: Observation, k: nat)
    requires Consistent(b)
    ensures k in OwnedBy(CheckPending(t, b, symbol, seen), strategyId)
       <==> k in OwnedBy(b, strategyId) || k in FiredFor(b, strategyId, symbol, seen)
    ensures !(k in OwnedBy(b, strategyId) && k in FiredFor(b, strategyId, symbol, seen))
  {
    hide Fires, CheckList, Tickets;
    CheckListOwners(t, b, symbol, seen, Tickets(b.pending, b.nextTicket), k);
    TicketsListed(b.pending, b.nextTicket, k);
  }

  /** No cap is consulted when pending orders trigger: the strategy gains every one of them. */
  lemma TriggeredAddUp(t: Terms, b: Books, strategyId: string, symbol: string, seen: Observation)
    requires Consistent(b)
    ensures |OwnedBy(CheckPending(t, b, symbol, seen), strategyId)|
         == |OwnedBy(b, strategyId)| + |FiredFor(b, strategyId, symbol, seen)|
  {
    hide CheckPending, OwnedBy, FiredFor, Consistent;
    var after := OwnedBy(CheckPending(t, b, symbol, seen), strategyId);
    var owned, fired := OwnedBy(b, strategyId), FiredFor(b, strategyId, symbol, seen);
    forall k: nat ensures (k in after <==> k in owned || k in fired) && !(k in owned && k in fired) {
      OwnedAfterCheck(t, b, strategyId, symbol, seen, k);
    }
    assert after == owned + fired && owned !! fired;
  }

  /** Hence a check keeps a strategy within the cap exactly when there was room for all it triggers. */
  lemma CheckKeepsCap(s: Setup, b: Books, strategyId: string, symbol: string, seen: Observation)
    requires Consistent(b)
    ensures |OwnedBy(CheckPending(s.terms, b, symbol, seen), strategyId)| <= s.cfg.maxOpenPerStrategy
       <==> |FiredFor(b, strategyId, symbol, seen)| <= s.cfg.maxOpenPerStrategy - |OwnedBy(b, strategyId)|
  {
    hide CheckPending, FiredFor, OwnedBy;
    TriggeredAddUp(s.terms, b, strategyId, symbol, seen);
  }

  /** One strategy, one symbol, a cap of one position and no other limit. */
  function SmallSetup(): Setup {
    Setup(Terms((_, _, _, ask) => ask, map[], 1.0, 0.0, 0.0, 0.0, 21), map[],
          RiskConfig(1, 0.0, 0.0, map[], false, 5.0, 50.0, false, 0.0, 0.0))
  }

  function SmallSignal(kind: OrderType): Signal {
    Signal("trend", "EURUSD", BUY, kind, 1.0, Some(1.0), None, None, true, true)
  }

  lemma SmallJudge(m: Monitor, now: int)
    requires !m.gates.killTripped && !m.gates.lockTripped && GetOr(m.counts.byStrategy, "trend", 0) == 0
    ensures Judge(SmallSetup().cfg, AfterCheck(m, now), "trend", "EURUSD") == Allowed
  {
  }

  lemma QuotedStart(s: Setup)
    ensures
      var e := Next(s, Start(100.0, 0), Replayed(Quoted("EURUSD", 1.0, 1.0)));
      && "EURUSD" in e.books.lastBid && "EURUSD" in e.books.lastAsk && e.monitor == FRESH && Consistent(e.books)
      && e.books.strategyOf == map[] && e.books.pending == map[] && e.books.nextTicket == 1
      && e.books.events == [] && e.delivered == 0
  {
  }

  /** What an accepted market signal does, as far as the cap is concerned. */
  lemma AcceptedMarketSignal(s: Setup, e: Engine, signal: Signal, now: int)
    requires Consistent(e.books) && signal.kind == MARKET && signal.symbol in e.books.lastBid
    requires signal.filterPasses && signal.exposurePasses
    requires Judge(s.cfg, AfterCheck(e.monitor, now), signal.strategyId, signal.symbol) == Allowed
    ensures
      var e' := Next(s, e, Signalled(signal, now));
      && Consistent(e'.books) && e'.books.lastBid == e.books.lastBid
      && e'.books.nextTicket == e.books.nextTicket + 1
      && e'.books.strategyOf == e.books.strategyOf[e.books.nextTicket := signal.strategyId]
      && e'.monitor == AfterCheck(e.monitor, now) && e'.delivered == e.delivered
  {
    hide Judge, Terms.SlippedPrice, Terms.Commission;
    var req := Request(s.magics, signal);
    PlaceConsistent(s.terms, Publish(e.books, DecisionMade(req.strategyId, req.symbol, true)), req);
  }

  /** Two signals handled before the first fill is delivered: two positions under a cap of one. */
  lemma LagExceedsCap() returns (trace: seq<Engine>, steps: seq<Step>)
    ensures Run(SmallSetup(), trace, steps, 100.0, 0)
    ensures forall i :: 0 <= i < |steps| && steps[i].Signalled? ==> steps[i].signal.kind == MARKET
    ensures SmallSetup().cfg.maxOpenPerStrategy == 1
    ensures |OwnedBy(trace[|steps|].books, "trend")| == 2
  {
    hide Next, Judge, Consistent, Start;
    var s, signal := SmallSetup(), SmallSignal(MARKET);
    steps := [Replayed(Quoted("EURUSD", 1.0, 1.0)), Signalled(signal, 0), Signalled(signal, 0)];
    var e0 := Start(100.0, 0);
    QuotedStart(s);
    var e1 := Next(s, e0, steps[0]);
    SmallJudge(FRESH, 0);
    AcceptedMarketSignal(s, e1, signal, 0);
    var e2 := Next(s, e1, steps[1]);
    SmallJudge(e2.monitor, 0);
    AcceptedMarketSignal(s, e2, signal, 0);
    var e3 := Next(s, e2, steps[2]);
    assert OwnedBy(e3.books, "trend") == {1, 2};
    trace := [e0, e1, e2, e3];
  }

  lemma AcceptedStopSignal(s: Setup, e: Engine, signal: Signal, now: int)
    requires Consistent(e.books) && signal.kind == STOP && signal.price.Some? && signal.symbol in e.books.lastBid
    requires signal.filterPasses && signal.exposurePasses
    requires Judge(s.cfg, AfterCheck(e.monitor, now), signal.strategyId, signal.symbol) == Allowed
    ensures
      var e' := Next(s, e, Signalled(signal, now));
      var order := NewOrder(e.books.nextTicket, Request(s.magics, signal), e.books.simTime);
      && Consistent(e'.books) && e'.books.lastBid == e.books.lastBid
      && e'.books.nextTicket == e.books.nextTicket + 1
      && e'.books.strategyOf == e.books.strategyOf
      && e'.books.pending == e.books.pending[e.books.nextTicket := order]
      && e'.books.events == e.books.events
           + [DecisionMade(signal.strategyId, signal.symbol, true), OrderSubmitted(order)]
      && e'.monitor == AfterCheck(e.monitor, now) && e'.delivered == e.delivered
  {
    hide Judge, Terms.SlippedPrice, Terms.Commission;
    var req := Request(s.magics, signal);
    PlaceConsistent(s.terms, Publish(e.books, DecisionMade(req.strategyId, req.symbol, true)), req);
  }

  /** Two stop orders, every event delivered in time, then one quote: two positions under a cap of one. */
  lemma PendingsExceedCap() returns (trace: seq<Engine>, steps: seq<Step>)
    ensures Run(SmallSetup(), trace, steps, 100.0, 0)
    ensures forall i :: 0 <= i < |steps| && steps[i].Signalled? ==> trace[i].delivered == |trace[i].books.events|
    ensures SmallSetup().cfg.maxOpenPerStrategy == 1
    ensures |OwnedBy(trace[|steps|].books, "trend")| == 2
  {
    hide Next, Judge, Consistent, Start, CheckPending, FiredFor, NewOrder;
    var s, signal := SmallSetup(), SmallSignal(STOP);
    steps := [Replayed(Quoted("EURUSD", 1.0, 1.0)), Signalled(signal, 0), Delivered(0), Delivered(0),
              Signalled(signal, 0), Replayed(CheckPendings("EURUSD", Quote(1.0, 1.0)))];
    var e0 := Start(100.0, 0);
    QuotedStart(s);
    var e1 := Next(s, e0, steps[0]);
    SmallJudge(FRESH, 0);
    AcceptedStopSignal(s, e1, signal, 0);
    var e2 := Next(s, e1, steps[1]);
    QuietDelivery(s, e2, 0);
    var e3 := Next(s, e2, steps[2]);
    QuietDelivery(s, e3, 0);
    var e4 := Next(s, e3, steps[3]);
    SmallJudge(e4.monitor, 0);
    AcceptedStopSignal(s, e4, signal, 0);
    var e5 := Next(s, e4, steps[4]);
    var e6 := Next(s, e5, steps[5]);
    CheckStep(s, e5, "EURUSD", Quote(1.0, 1.0));
    TriggeredAddUp(s.terms, e5.books, "trend", "EURUSD", Quote(1.0, 1.0));
    BothFire(e5.books, signal, e1.books.simTime, e4.books.simTime);
    NoneOwned(e5.books);
    trace := [e0, e1, e2, e3, e4, e5, e6];
  }

  lemma QuietDelivery(s: Setup, e: Engine, now: int)
    requires e.delivered < |e.books.events|
    requires
      var event := e.books.events[e.delivered];
      event.DecisionMade? || event.OrderSubmitted? || event.BacktestTradeClosed?
    ensures Next(s, e, Delivered(now)) == e.(delivered := e.delivered + 1)
  {
  }

  lemma BothFire(b: Books, signal: Signal, at1: int, at2: int)
    requires signal == SmallSignal(STOP)
    requires
      var req := Request(map[], signal);
      b.pending == map[1 := NewOrder(1, req, at1), 2 := NewOrder(2, req, at2)]
    ensures FiredFor(b, "trend", "EURUSD", Quote(1.0, 1.0)) == {1, 2}
  {
  }

  lemma CheckStep(s: Setup, e: Engine, symbol: string, seen: Observation)
    ensures Next(s, e, Replayed(CheckPendings(symbol, seen))).books == CheckPending(s.terms, e.books, symbol, seen)
  {
    hide CheckPending;
  }
}
