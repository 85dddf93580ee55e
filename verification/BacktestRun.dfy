/** One whole backtest on the broker: the replay loop in both modes, stop checks, equity samples, closing step. */
module BacktestRun {
  import opened Domain
  import opened UtcTime
  import opened TradingDay
  import opened SimBroker
  import opened BrokerRuns
  import opened BrokerLaws
  import opened SwapNights
  import BarAggregator
  import FileBacktester
  import Sorting

  // ---- Stops -------------------------------------------------------------------------

  /** A long exits at the bid, a short at the ask; against a bar, at its extremes. */
  predicate StopHit(pos: Position, seen: Observation) {
    var (down, up) :=
      match seen
      case Quote(bid, ask) => if pos.side == BUY then (bid, bid) else (ask, ask)
      case BarRange(high, low) => (low, high);
    if pos.side == BUY then
      (pos.sl.Some? && down <= pos.sl.value) || (pos.tp.Some? && up >= pos.tp.value)
    else
      (pos.sl.Some? && up >= pos.sl.value) || (pos.tp.Some? && down <= pos.tp.value)
  }

  predicate Stopped(b: Books, symbol: string, seen: Observation, ticket: nat) {
    ticket in b.positions && b.positions[ticket].symbol == symbol && StopHit(b.positions[ticket], seen)
  }

  ghost predicate ListsStopped(b: Books, symbol: string, seen: Observation, tickets: seq<nat>) {
    Distinct(tickets) && forall k :: k in tickets <==> Stopped(b, symbol, seen, k)
  }

  /** Closing the stopped positions leaves none of the symbol stopped and every other position as it was. */
  lemma StopsCleared(
      t: Terms, b: Books, symbol: string, seen: Observation, tickets: seq<nat>, initialBalance: real, k: nat)
    requires Sound(t, b, initialBalance) && ListsStopped(b, symbol, seen, tickets)
    ensures
      var b' := CloseAll(t, b, tickets);
      && Sound(t, b', initialBalance) && !Stopped(b', symbol, seen, k)
      && (k in b'.positions <==> k in b.positions && !Stopped(b, symbol, seen, k))
      && (k in b'.positions ==> b'.positions[k] == b.positions[k])
  {
    hide CloseAll, Sound, StopHit;
    CloseAllRemoves(t, b, tickets, initialBalance);
  }

  // ---- One visited tick or bar -----------------------------------------------------------

  function MarketOp(m: Moment): Op {
    match m
    case TickSeen(tick) => Quoted(tick.symbol, tick.bid, tick.ask)
    case BarSeen(bar) => Op.Priced(bar.symbol, bar.close)
  }

  function SeenIn(m: Moment): Observation {
    match m
    case TickSeen(tick) => Quote(tick.bid, tick.ask)
    case BarSeen(bar) => BarRange(bar.high, bar.low)
  }

  /** What open positions are marked against. */
  function Reference(m: Moment): real {
    match m
    case TickSeen(tick) => (tick.bid + tick.ask) / 2.0
    case BarSeen(bar) => bar.close
  }

  /** What a strategy can make the broker do; the clock and the market belong to the loop. */
  predicate StrategyOp(op: Op) {
    op.PlaceOrder? || op.ModifyOrder? || op.ClosePosition? || op.CancelOrder?
  }

  /** A visit: what was seen, which positions were stopped out and in which order, what strategies did when it was
      published, and what they did later, while the loop waited for the next moment or for the run to wind down.
      Before the first moment nothing has a price, so the broker refuses whatever is asked. */
  datatype Visit = Visit(moment: Moment, stops: seq<nat>, strategy: seq<Op>, late: seq<Op>)

  function Closes(tickets: seq<nat>): seq<Op> {
    if tickets == [] then [] else Closes(tickets[..|tickets| - 1]) + [ClosePosition(tickets[|tickets| - 1], None)]
  }

  /** The operations up to the moment at which equity is sampled. */
  function DueOps(v: Visit): seq<Op> {
    [AdvanceClock(v.moment.Time()), MarketOp(v.moment)] + Closes(v.stops)
      + [CheckPendings(v.moment.Symbol(), SeenIn(v.moment))] + v.strategy
  }

  function OpsOf(v: Visit): seq<Op> {
    DueOps(v) + v.late
  }

  function ReplayOps(visits: seq<Visit>): seq<Op> {
    if visits == [] then [] else ReplayOps(visits[..|visits| - 1]) + OpsOf(visits[|visits| - 1])
  }

  /** The books when the stops are checked. */
  function Marked(t: Terms, b: Books, m: Moment): Books {
    Apply(t, Apply(t, b, AdvanceClock(m.Time())), MarketOp(m))
  }

  ghost predicate Legal(t: Terms, b: Books, v: Visit) {
    && ListsStopped(Marked(t, b, v.moment), v.moment.Symbol(), SeenIn(v.moment), v.stops)
    && OnlyStrategy(v)
  }

  ghost predicate OnlyStrategy(v: Visit) {
    forall op :: op in v.strategy || op in v.late ==> StrategyOp(op)
  }

  /** The books when equity is sampled. */
  function AfterVisit(t: Terms, b: Books, v: Visit): Books {
    RunOps(t, CheckPending(t, CloseAll(t, Marked(t, b, v.moment), v.stops), v.moment.Symbol(), SeenIn(v.moment)),
           v.strategy)
  }

  /** A tick is the market it is checked against. Of its symbol the positions whose stop and target both lie beyond
      the price they would leave at stay open, and no others: the bid for a long and the ask for a short. */
  lemma TickStops(t: Terms, b: Books, tick: Tick, stops: seq<nat>, initialBalance: real, k: nat)
    requires Sound(t, b, initialBalance)
    requires ListsStopped(Marked(t, b, TickSeen(tick)), tick.symbol, SeenIn(TickSeen(tick)), stops)
    ensures
      var marked := Marked(t, b, TickSeen(tick));
      && marked == SetMarketTick(b.(simTime := tick.time), tick.symbol, tick.bid, tick.ask)
      && SeenIn(TickSeen(tick)) == Quote(tick.bid, tick.ask)
      && (k in CloseAll(t, marked, stops).positions <==>
            && k in b.positions
            && var p := b.positions[k];
               p.symbol == tick.symbol ==>
                 && (p.side == BUY && p.sl.Some? ==> p.sl.value < tick.bid)
                 && (p.side == BUY && p.tp.Some? ==> tick.bid < p.tp.value)
                 && (p.side == SELL && p.sl.Some? ==> tick.ask < p.sl.value)
                 && (p.side == SELL && p.tp.Some? ==> p.tp.value < tick.ask))
  {
    hide CloseAll, Sound;
    MarkedIsSound(t, b, TickSeen(tick), initialBalance);
    StopsCleared(t, Marked(t, b, TickSeen(tick)), tick.symbol, SeenIn(TickSeen(tick)), stops, initialBalance, k);
  }

  /** A bar prices its symbol at its close. The positions whose stop and target its range does not reach stay open,
      and no others. */
  lemma BarStops(t: Terms, b: Books, bar: Bar, stops: seq<nat>, initialBalance: real, k: nat)
    requires Sound(t, b, initialBalance)
    requires ListsStopped(Marked(t, b, BarSeen(bar)), bar.symbol, SeenIn(BarSeen(bar)), stops)
    ensures
      var marked := Marked(t, b, BarSeen(bar));
      && marked == SetMarketTick(b.(simTime := bar.time), bar.symbol, bar.close, bar.close)
      && SeenIn(BarSeen(bar)) == BarRange(bar.high, bar.low)
      && (k in CloseAll(t, marked, stops).positions <==>
            && k in b.positions
            && var p := b.positions[k];
               p.symbol == bar.symbol ==>
                 && (p.side == BUY && p.sl.Some? ==> p.sl.value < bar.low)
                 && (p.side == BUY && p.tp.Some? ==> bar.high < p.tp.value)
                 && (p.side == SELL && p.sl.Some? ==> bar.high < p.sl.value)
                 && (p.side == SELL && p.tp.Some? ==> p.tp.value < bar.low))
  {
    hide CloseAll, Sound;
    MarkedIsSound(t, b, BarSeen(bar), initialBalance);
    StopsCleared(t, Marked(t, b, BarSeen(bar)), bar.symbol, SeenIn(BarSeen(bar)), stops, initialBalance, k);
  }

  lemma MarkedIsSound(t: Terms, b: Books, m: Moment, initialBalance: real)
    requires Sound(t, b, initialBalance)
    ensures Sound(t, Marked(t, b, m), initialBalance)
    ensures Marked(t, b, m).positions == b.positions
  {
    hide Sound;
    StepKeeps(t, b, AdvanceClock(m.Time()), initialBalance);
    StepKeeps(t, Apply(t, b, AdvanceClock(m.Time())), MarketOp(m), initialBalance);
  }

  lemma {:induction false} RunOpsConcat(t: Terms, b: Books, xs: seq<Op>, ys: seq<Op>)
    ensures RunOps(t, b, xs + ys) == RunOps(t, RunOps(t, b, xs), ys)
  {
    hide Apply;
    if ys == [] {
      assert xs + ys == xs;
    } else {
      var init := ys[..|ys| - 1];
      RunOpsConcat(t, b, xs, init);
      assert (xs + ys)[..|xs + ys| - 1] == xs + init;
    }
  }

  lemma RunOne(t: Terms, b: Books, op: Op)
    ensures RunOps(t, b, [op]) == Apply(t, b, op)
  {
    assert RunOps(t, b, [op][..0]) == b;
  }

  lemma {:induction false} RunCloses(t: Terms, b: Books, tickets: seq<nat>)
    ensures RunOps(t, b, Closes(tickets)) == CloseAll(t, b, tickets)
  {
    hide Close;
    if tickets != [] {
      var init := tickets[..|tickets| - 1];
      RunCloses(t, b, init);
      assert Closes(tickets)[..|Closes(tickets)| - 1] == Closes(init);
    }
  }

  lemma VisitRuns(t: Terms, b: Books, v: Visit)
    ensures RunOps(t, b, DueOps(v)) == AfterVisit(t, b, v)
    ensures RunOps(t, b, OpsOf(v)) == RunOps(t, AfterVisit(t, b, v), v.late)
  {
    hide Apply, RunOps, CloseAll, CheckPending;
    RunOpsConcat(t, b, DueOps(v), v.late);
    var first, second := AdvanceClock(v.moment.Time()), MarketOp(v.moment);
    var check := CheckPendings(v.moment.Symbol(), SeenIn(v.moment));
    RunOne(t, b, first);
    RunOpsConcat(t, b, [first], [second]);
    RunOne(t, Apply(t, b, first), second);
    assert [first, second] == [first] + [second];
    RunOpsConcat(t, b, [first, second], Closes(v.stops));
    var priced := Marked(t, b, v.moment);
    RunCloses(t, priced, v.stops);
    RunOpsConcat(t, b, [first, second] + Closes(v.stops), [check]);
    RunOne(t, CloseAll(t, priced, v.stops), check);
    CheckIsOp(t, CloseAll(t, priced, v.stops), v.moment.Symbol(), SeenIn(v.moment));
    RunOpsConcat(t, b, [first, second] + Closes(v.stops) + [check], v.strategy);
  }

  lemma CheckIsOp(t: Terms, b: Books, symbol: string, seen: Observation)
    ensures Apply(t, b, CheckPendings(symbol, seen)) == CheckPending(t, b, symbol, seen)
  {
  }

  // ---- The clock ------------------------------------------------------------------------------

  lemma StepKeepsTime(t: Terms, b: Books, op: Op)
    requires !op.AdvanceClock?
    ensures Apply(t, b, op).simTime == b.simTime
  {
    match op
    case CheckPendings(symbol, seen) =>
      CheckListPending(t, b, symbol, seen, Tickets(b.pending, b.nextTicket), 0);
    case ClosePosition(ticket, volume) =>
      ClosedBasis(t, b, ticket, volume);
    case _ =>
  }

  lemma {:induction false} TimeStands(t: Terms, b: Books, ops: seq<Op>)
    requires forall op :: op in ops ==> !op.AdvanceClock?
    ensures RunOps(t, b, ops).simTime == b.simTime && ClockForward(t, b, ops)
  {
    hide Apply;
    if ops != [] {
      var init, last := ops[..|ops| - 1], ops[|ops| - 1];
      TimeStands(t, b, init);
      assert last in ops;
      StepKeepsTime(t, RunOps(t, b, init), last);
    }
  }

  lemma {:induction false} ClockForwardConcat(t: Terms, b: Books, xs: seq<Op>, ys: seq<Op>)
    requires ClockForward(t, b, xs) && ClockForward(t, RunOps(t, b, xs), ys)
    ensures ClockForward(t, b, xs + ys)
  {
    hide Apply;
    if ys == [] {
      assert xs + ys == xs;
    } else {
      var init := ys[..|ys| - 1];
      ClockForwardConcat(t, b, xs, init);
      RunOpsConcat(t, b, xs, init);
      assert (xs + ys)[..|xs + ys| - 1] == xs + init;
    }
  }

  lemma {:induction false} ClosesDoNotAdvance(tickets: seq<nat>)
    ensures forall op :: op in Closes(tickets) ==> op.ClosePosition?
  {
    if tickets != [] {
      ClosesDoNotAdvance(tickets[..|tickets| - 1]);
    }
  }

  lemma VisitAdvances(t: Terms, b: Books, v: Visit)
    requires b.simTime <= v.moment.Time() && OnlyStrategy(v)
    ensures ClockForward(t, b, OpsOf(v)) && RunOps(t, b, OpsOf(v)).simTime == v.moment.Time()
  {
    hide RunOps, ClockForward;
    var first := AdvanceClock(v.moment.Time());
    var rest := [MarketOp(v.moment)] + Closes(v.stops)
      + [CheckPendings(v.moment.Symbol(), SeenIn(v.moment))] + v.strategy + v.late;
    ClosesDoNotAdvance(v.stops);
    forall op | op in rest ensures !op.AdvanceClock? {
      if op in v.strategy || op in v.late {
        assert StrategyOp(op);
      }
    }
    RunOne(t, b, first);
    FirstAdvance(t, b, first);
    TimeStands(t, Apply(t, b, first), rest);
    ClockForwardConcat(t, b, [first], rest);
    RunOpsConcat(t, b, [first], rest);
    assert OpsOf(v) == [first] + rest;
  }

  lemma FirstAdvance(t: Terms, b: Books, op: Op)
    requires op.AdvanceClock? && b.simTime <= op.now
    ensures ClockForward(t, b, [op])
  {
    assert [op][..0] == [];
    assert RunOps(t, b, [op][..0]) == b;
    assert ClockForward(t, b, [op][..0]);
  }

  // ---- Whole replays ---------------------------------------------------------------------------

  ghost predicate TimesInOrder(visits: seq<Visit>) {
    forall i, j :: 0 <= i < j < |visits| ==> visits[i].moment.Time() <= visits[j].moment.Time()
  }

  ghost predicate OnlyStrategyOps(visits: seq<Visit>) {
    forall i :: 0 <= i < |visits| ==> OnlyStrategy(visits[i])
  }

  function TimeAfter(visits: seq<Visit>, start: int): int {
    if visits == [] then start else visits[|visits| - 1].moment.Time()
  }

  /** A replay in time order never turns the broker's clock back, whatever strategies do in between. */
  lemma {:induction false} ReplayClockForward(t: Terms, b: Books, visits: seq<Visit>)
    requires TimesInOrder(visits) && OnlyStrategyOps(visits)
    requires visits != [] ==> b.simTime <= visits[0].moment.Time()
    ensures ClockForward(t, b, ReplayOps(visits))
    ensures RunOps(t, b, ReplayOps(visits)).simTime == TimeAfter(visits, b.simTime)
  {
    hide OpsOf, Apply, RunOps;
    if visits == [] {
      RunNothing(t, b);
    } else {
      var init, last := visits[..|visits| - 1], visits[|visits| - 1];
      ReplayClockForward(t, b, init);
      VisitAdvances(t, RunOps(t, b, ReplayOps(init)), last);
      ClockForwardConcat(t, b, ReplayOps(init), OpsOf(last));
      RunOpsConcat(t, b, ReplayOps(init), OpsOf(last));
    }
  }

  lemma RunNothing(t: Terms, b: Books)
    ensures RunOps(t, b, []) == b
  {
  }

  /** The broker is created at wall-clock time; the first advance forgets it. */
  lemma {:induction false} WallClockForgotten(
      t: Terms, initialBalance: real, wall: int, first: int, rest: seq<Op>, ticket: nat)
    ensures
      var ops := [AdvanceClock(first)] + rest;
      var o, o' := Opening(initialBalance, wall), Opening(initialBalance, first);
      && RunOps(t, o, ops) == RunOps(t, o', ops)
      && SwapBooked(t, o, ops, ticket) == SwapBooked(t, o', ops, ticket)
      && NightlySwap(t, o, ops, ticket) == NightlySwap(t, o', ops, ticket)
  {
    var ops := [AdvanceClock(first)] + rest;
    var o, o' := Opening(initialBalance, wall), Opening(initialBalance, first);
    if rest == [] {
      assert ops == [AdvanceClock(first)];
      RunOne(t, o, ops[0]);
      RunOne(t, o', ops[0]);
    } else {
      hide Apply, SwapOfStep, NightlyOfStep, Opening;
      var init := rest[..|rest| - 1];
      assert ops[..|ops| - 1] == [AdvanceClock(first)] + init;
      WallClockForgotten(t, initialBalance, wall, first, init, ticket);
    }
  }

  lemma {:induction false} ReplayStartsWithAdvance(visits: seq<Visit>)
    requires visits != []
    ensures ReplayOps(visits) == [AdvanceClock(visits[0].moment.Time())] + ReplayOps(visits)[1..]
  {
    var init, last := visits[..|visits| - 1], visits[|visits| - 1];
    if |visits| > 1 {
      hide OpsOf;
      ReplayStartsWithAdvance(init);
    } else {
      assert ReplayOps(init) == [];
      assert ReplayOps(visits) == OpsOf(last);
      assert OpsOf(last)[0] == AdvanceClock(last.moment.Time());
    }
  }

  /** The account of a whole backtest, for any strategies, any slippage and whatever the wall clock was: closing
      what is left makes the result the sum of the profits, and every ticket has been charged exactly its nights. */
  lemma BacktestAccounts(
      t: Terms, initialBalance: real, wall: int, visits: seq<Visit>, remaining: seq<nat>, ticket: nat)
    requires ValidAnchor(t.rolloverHour) && visits != [] && TimesInOrder(visits) && OnlyStrategyOps(visits)
    requires
      var b := RunOps(t, Opening(initialBalance, wall), ReplayOps(visits));
      Distinct(remaining) && forall k :: k in remaining <==> k in b.positions
    ensures
      var opening := Opening(initialBalance, wall);
      var ops := ReplayOps(visits) + Closes(remaining);
      var final := RunOps(t, opening, ops);
      && final.positions == map[]
      && final.balance - initialBalance == SumPnl(final.trades)
      && SwapBooked(t, opening, ops, ticket) == NightlySwap(t, opening, ops, ticket)
  {
    hide Apply, RunOps, CloseAll, SwapBooked, NightlySwap, ClockForward, ReplayOps, TicketsAccounted;
    var first := visits[0].moment.Time();
    var opening := Opening(initialBalance, first);
    var ops := ReplayOps(visits);
    ReplayStartsWithAdvance(visits);
    WallClockForgotten(t, initialBalance, wall, first, ops[1..], ticket);
    WallClockForgotten(t, initialBalance, wall, first, ops[1..] + Closes(remaining), ticket);
    assert ops + Closes(remaining) == [AdvanceClock(first)] + (ops[1..] + Closes(remaining));
    var b := RunOps(t, opening, ops);
    ReachableIsSound(t, initialBalance, first, ops);
    ReplayClockForward(t, opening, visits);
    RunCloses(t, b, remaining);
    RunOpsConcat(t, opening, ops, Closes(remaining));
    CloseAllSettles(t, b, remaining, initialBalance);
    ClosesDoNotAdvance(remaining);
    TimeStands(t, b, Closes(remaining));
    ClockForwardConcat(t, opening, ops, Closes(remaining));
    SwapIsNightly(t, initialBalance, first, ops + Closes(remaining), ticket);
  }

  // ---- Equity ------------------------------------------------------------------------------------

  function ProfitAt(t: Terms, positions: map<nat, Position>, refs: map<string, real>, k: nat): real {
    if k in positions && positions[k].symbol in refs then
      t.Gross(positions[k], positions[k].volume, refs[positions[k].symbol])
    else 0.0
  }

  /** The open profit of the positions with tickets below `n`. */
  function OpenProfit(t: Terms, positions: map<nat, Position>, refs: map<string, real>, n: nat): real {
    if n == 0 then 0.0 else OpenProfit(t, positions, refs, n - 1) + ProfitAt(t, positions, refs, n - 1)
  }

  function EquityOf(t: Terms, b: Books, refs: map<string, real>): real {
    b.balance + OpenProfit(t, b.positions, refs, b.nextTicket)
  }

  /** The open profit of a position is what closing it at the reference price would book, before the closing
      commission and the swap. */
  lemma ProfitIsCloseOut(t: Terms, b: Books, refs: map<string, real>, k: nat)
    requires Consistent(b) && ValidAnchor(t.rolloverHour) && k in b.positions && b.positions[k].symbol in refs
    requires
      var p := b.positions[k];
      t.slippage(b.slippageCalls, if p.side == BUY then SELL else BUY, b.lastBid[p.symbol], b.lastAsk[p.symbol])
        == refs[p.symbol]
    ensures
      var closed := Close(t, b, k, None).0;
      && |closed.trades| == |b.trades| + 1
      && closed.balance - b.balance == ProfitAt(t, b.positions, refs, k)
           - t.commissionPerLot * b.positions[k].volume + closed.trades[|b.trades|].swap
  {
    hide Close, Terms.Gross;
    CloseExactly(t, b, k, None);
    SignedGross(t, b.positions[k], b.positions[k].volume, refs[b.positions[k].symbol]);
  }

  /** The sum over a listing, in the listing's order. */
  function ListedProfit(t: Terms, positions: map<nat, Position>, refs: map<string, real>, listing: seq<nat>): real {
    if listing == [] then 0.0
    else ListedProfit(t, positions, refs, listing[..|listing| - 1])
         + ProfitAt(t, positions, refs, listing[|listing| - 1])
  }

  function Among(positions: map<nat, Position>, listing: seq<nat>): map<nat, Position> {
    map k | k in positions && k in listing :: positions[k]
  }

  lemma {:induction false} ProfitWithOneMore(
      t: Terms, m: map<nat, Position>, m': map<nat, Position>, refs: map<string, real>, n: nat, k: nat)
    requires k !in m && forall j: nat :: j != k ==> ProfitAt(t, m, refs, j) == ProfitAt(t, m', refs, j)
    ensures OpenProfit(t, m', refs, n) == OpenProfit(t, m, refs, n) + if k < n then ProfitAt(t, m', refs, k) else 0.0
  {
    hide Terms.Gross;
    if n > 0 {
      ProfitWithOneMore(t, m, m', refs, n - 1, k);
    }
  }

  /** The order in which positions are listed does not matter to the open profit. */
  lemma {:induction false} ListingIsOpenProfit(
      t: Terms, positions: map<nat, Position>, refs: map<string, real>, listing: seq<nat>, n: nat)
    requires Distinct(listing) && forall k :: k in listing ==> k in positions && k < n
    ensures ListedProfit(t, positions, refs, listing) == OpenProfit(t, Among(positions, listing), refs, n)
  {
    hide Terms.Gross, ProfitAt;
    if listing == [] {
      NoProfit(t, refs, n);
      assert Among(positions, listing) == map[];
    } else {
      var init, last := listing[..|listing| - 1], listing[|listing| - 1];
      assert listing == init + [last] && last in listing && last !in init;
      assert forall k :: k in init ==> k in listing;
      ListingIsOpenProfit(t, positions, refs, init, n);
      OneMoreListed(t, positions, refs, init, last);
      ProfitWithOneMore(t, Among(positions, init), Among(positions, listing), refs, n, last);
    }
  }

  lemma OneMoreListed(t: Terms, positions: map<nat, Position>, refs: map<string, real>, init: seq<nat>, last: nat)
    requires last in positions && last !in init
    ensures
      var m, m' := Among(positions, init), Among(positions, init + [last]);
      && last !in m && ProfitAt(t, m', refs, last) == ProfitAt(t, positions, refs, last)
      && forall j: nat :: j != last ==> ProfitAt(t, m, refs, j) == ProfitAt(t, m', refs, j)
  {
    hide Terms.Gross;
  }

  lemma {:induction false} NoProfit(t: Terms, refs: map<string, real>, n: nat)
    ensures OpenProfit(t, map[], refs, n) == 0.0
  {
    if n > 0 {
      NoProfit(t, refs, n - 1);
    }
  }

  /** The loop over the open positions; a position whose symbol has no reference yet is skipped. */
  method MarkToMarket(t: Terms, positions: map<nat, Position>, refs: map<string, real>, listing: seq<nat>, n: nat)
    returns (mtm: real)
    requires Distinct(listing) && (forall k :: k in listing <==> k in positions) && forall k :: k in positions ==> k < n
    ensures mtm == OpenProfit(t, positions, refs, n)
  {
    mtm := 0.0;
    for i := 0 to |listing|
      invariant mtm == ListedProfit(t, positions, refs, listing[..i])
    {
      assert listing[..i + 1][..i] == listing[..i];
      var p := positions[listing[i]];
      if p.symbol in refs {
        mtm := mtm + t.Gross(p, p.volume, refs[p.symbol]);
      }
    }
    assert listing[..|listing|] == listing;
    ListingIsOpenProfit(t, positions, refs, listing, n);
    assert Among(positions, listing) == positions;
  }

  /** Balance plus open profit. */
  method EquityNow(broker: SimBroker, refs: map<string, real>) returns (equity: real)
    requires forall k :: k in broker.positions ==> k < broker.nextTicket
    ensures equity == EquityOf(broker.terms, broker.State(), refs)
  {
    var listing := ListPositions(broker.positions);
    var mtm := MarkToMarket(broker.terms, broker.positions, refs, listing, broker.nextTicket);
    equity := broker.balance + mtm;
  }

  // ---- The loop ------------------------------------------------------------------------------------

  /** The open positions in the broker's own order, which the model leaves open. */
  method ListPositions(positions: map<nat, Position>) returns (listing: seq<nat>)
    ensures Distinct(listing) && forall k :: k in listing <==> k in positions
  {
    var todo := positions.Keys;
    listing := [];
    while todo != {}
      invariant todo <= positions.Keys && Distinct(listing)
      invariant forall k :: k in listing <==> k in positions && k !in todo
      decreases |todo|
    {
      ghost var member := SomeMember(todo);
      var k: nat :| k in todo;
      listing, todo := listing + [k], todo - {k};
    }
  }

  method CheckStops(positions: map<nat, Position>, symbol: string, seen: Observation) returns (toClose: seq<nat>)
    ensures Distinct(toClose)
    ensures forall k :: k in toClose <==> k in positions && positions[k].symbol == symbol && StopHit(positions[k], seen)
  {
    hide StopHit;
    var listing := ListPositions(positions);
    toClose := [];
    for i := 0 to |listing|
      invariant Distinct(toClose)
      invariant forall k :: k in toClose <==>
        k in listing[..i] && positions[k].symbol == symbol && StopHit(positions[k], seen)
    {
      var k := listing[i];
      assert k in listing && k !in listing[..i];
      assert listing[..i + 1] == listing[..i] + [k];
      if positions[k].symbol == symbol && StopHit(positions[k], seen) {
        toClose := toClose + [k];
      }
    }
    assert listing[..|listing|] == listing;
  }

  method Perform(broker: SimBroker, op: Op)
    modifies broker
    ensures broker.State() == Apply(broker.terms, old(broker.State()), op)
  {
    hide Place, CheckPending, Modify, Close, Cancel;
    match op
    case AdvanceClock(now) => broker.AdvanceClock(now);
    case Priced(symbol, price) => broker.SetMarketPrice(symbol, price);
    case Quoted(symbol, bid, ask) => broker.SetMarketQuote(symbol, bid, ask);
    case PlaceOrder(req) => var r := broker.PlaceOrder(req);
    case CheckPendings(symbol, seen) => broker.CheckPendingOrders(symbol, seen);
    case ModifyOrder(ticket, sl, tp, price, volume) => var r := broker.ModifyOrder(ticket, sl, tp, price, volume);
    case ClosePosition(ticket, volume) => var r := broker.ClosePosition(ticket, volume);
    case CancelOrder(ticket) => var r := broker.CancelOrder(ticket);
  }

  method PerformAll(broker: SimBroker, ops: seq<Op>)
    modifies broker
    ensures broker.State() == RunOps(broker.terms, old(broker.State()), ops)
  {
    hide Apply;
    for i := 0 to |ops|
      invariant broker.State() == RunOps(broker.terms, old(broker.State()), ops[..i])
    {
      assert ops[..i + 1][..i] == ops[..i];
      Perform(broker, ops[i]);
    }
    assert ops[..|ops|] == ops;
  }

  /** The body of the replay loop, for a tick or a bar, up to the equity sample. */
  method VisitMoment(broker: SimBroker, clock: FileBacktester.SimClock, m: Moment, acts: Acts)
    returns (accepted: bool, stops: seq<nat>)
    requires StrategyActs(acts)
    modifies broker, clock
    ensures accepted <==> old(clock.now) <= m.Time()
    ensures accepted ==>
      && clock.now == m.Time()
      && Legal(broker.terms, old(broker.State()), Visit(m, stops, acts.strategy, acts.late))
      && broker.State() == AfterVisit(broker.terms, old(broker.State()), Visit(m, stops, acts.strategy, acts.late))
    ensures !accepted ==> clock.now == old(clock.now) && broker.State() == old(broker.State())
  {
    hide RunOps, CheckPending, Close, StopHit;
    stops := [];
    accepted := clock.Advance(m.Time());
    if !accepted {
      return;
    }
    broker.AdvanceClock(m.Time());
    Perform(broker, MarketOp(m));
    stops := CheckStops(broker.positions, m.Symbol(), SeenIn(m));
    ghost var priced := Marked(broker.terms, old(broker.State()), m);
    assert broker.State() == priced;
    for i := 0 to |stops|
      invariant broker.State() == CloseAll(broker.terms, priced, stops[..i]) && clock.now == m.Time()
    {
      assert stops[..i + 1][..i] == stops[..i];
      var r := broker.ClosePosition(stops[i], None);
    }
    assert stops[..|stops|] == stops;
    broker.CheckPendingOrders(m.Symbol(), SeenIn(m));
    PerformAll(broker, acts.strategy);
  }

  // ---- Sampling --------------------------------------------------------------------------------------

  function Minute(m: Moment): int {
    BarAggregator.EpochSeconds(m.Time()) / 60
  }

  /** The minute of the last sample. */
  function LastMinute(moments: seq<Moment>): Option<int> {
    if moments == [] then None
    else
      var earlier := LastMinute(moments[..|moments| - 1]);
      var minute := Minute(moments[|moments| - 1]);
      if earlier.None? || minute > earlier.value then Some(minute) else earlier
  }

  /** Whether the last of the moments is sampled: bars always, ticks when a new minute has begun. */
  predicate Sampled(moments: seq<Moment>)
    requires moments != []
  {
    var earlier := LastMinute(moments[..|moments| - 1]);
    moments[|moments| - 1].BarSeen? || earlier.None? || Minute(moments[|moments| - 1]) > earlier.value
  }

  function RefsAfter(moments: seq<Moment>): map<string, real> {
    if moments == [] then map[]
    else
      var m := moments[|moments| - 1];
      RefsAfter(moments[..|moments| - 1])[m.Symbol() := Reference(m)]
  }

  function MomentsOf(visits: seq<Visit>): (moments: seq<Moment>)
    ensures |moments| == |visits| && forall i :: 0 <= i < |visits| ==> moments[i] == visits[i].moment
  {
    seq(|visits|, i requires 0 <= i < |visits| => visits[i].moment)
  }

  /** The books when the last moment is sampled. */
  function SampledBooks(t: Terms, b: Books, visits: seq<Visit>): Books
    requires visits != []
  {
    AfterVisit(t, RunOps(t, b, ReplayOps(visits[..|visits| - 1])), visits[|visits| - 1])
  }

  /** The equity curve of a replay: at each sampled moment, balance plus open profit after its visit. */
  function Curve(t: Terms, b: Books, visits: seq<Visit>): seq<Sample> {
    if visits == [] then []
    else
      var earlier := Curve(t, b, visits[..|visits| - 1]);
      var moments, last := MomentsOf(visits), visits[|visits| - 1];
      if Sampled(moments) then
        earlier + [Sample(last.moment.Time(), EquityOf(t, SampledBooks(t, b, visits), RefsAfter(moments)))]
      else earlier
  }

  lemma {:induction false} LastMinuteIsGreatest(moments: seq<Moment>)
    ensures LastMinute(moments).None? <==> moments == []
    ensures forall i :: 0 <= i < |moments| ==> Minute(moments[i]) <= LastMinute(moments).value
    ensures moments != [] ==> exists i :: 0 <= i < |moments| && Minute(moments[i]) == LastMinute(moments).value
  {
    hide Minute;
    if moments != [] {
      var init, last := moments[..|moments| - 1], moments[|moments| - 1];
      LastMinuteIsGreatest(init);
      if LastMinute(moments) == LastMinute(init) {
        var i :| 0 <= i < |init| && Minute(init[i]) == LastMinute(init).value;
        assert Minute(moments[i]) == LastMinute(moments).value;
      }
    }
  }

  /** A tick is sampled exactly when every earlier tick lies in an earlier minute. */
  lemma TickSampledIffNewMinute(moments: seq<Moment>)
    requires moments != [] && moments[|moments| - 1].TickSeen?
    ensures Sampled(moments)
       <==> forall i :: 0 <= i < |moments| - 1 ==> Minute(moments[i]) < Minute(moments[|moments| - 1])
  {
    hide Minute;
    var init, last := moments[..|moments| - 1], moments[|moments| - 1];
    LastMinuteIsGreatest(init);
    if init != [] && !Sampled(moments) {
      var i :| 0 <= i < |init| && Minute(init[i]) == LastMinute(init).value;
      assert moments[i] == init[i];
    }
    if Sampled(moments) {
      forall i | 0 <= i < |moments| - 1 ensures Minute(moments[i]) < Minute(last) {
        assert init[i] == moments[i];
      }
    }
  }

  /** Minute `n` of the UTC clock begins after all moments but the last, and has begun at the last. */
  ghost predicate TurnsAt(moments: seq<Moment>, n: int)
    requires moments != []
  {
    && 60 * SECOND * n <= BarAggregator.Seen(moments[|moments| - 1].Time(), M1)
    && forall i :: 0 <= i < |moments| - 1 ==> BarAggregator.Seen(moments[i].Time(), M1) < 60 * SECOND * n
  }

  lemma MinuteHasBegun(m: Moment, n: int)
    ensures 60 * SECOND * n <= BarAggregator.Seen(m.Time(), M1) <==> n <= Minute(m)
  {
  }

  /** That is: when a minute turns between all of them and it. */
  lemma TickSampledIffMinuteTurned(moments: seq<Moment>)
    requires moments != [] && moments[|moments| - 1].TickSeen?
    ensures Sampled(moments) <==> exists n :: TurnsAt(moments, n)
  {
    hide Minute, Sampled, BarAggregator.Seen;
    TickSampledIffNewMinute(moments);
    var last := moments[|moments| - 1];
    forall n ensures TurnsAt(moments, n) <==>
      n <= Minute(last) && forall i :: 0 <= i < |moments| - 1 ==> Minute(moments[i]) < n
    {
      forall i | 0 <= i < |moments|
        ensures 60 * SECOND * n <= BarAggregator.Seen(moments[i].Time(), M1) <==> n <= Minute(moments[i])
      {
        MinuteHasBegun(moments[i], n);
      }
    }
    if Sampled(moments) {
      assert TurnsAt(moments, Minute(last));
    }
  }

  /** A symbol is referred to at the middle of its latest quote, or at the close of its latest bar. */
  lemma {:induction false} RefIsLatestPrice(moments: seq<Moment>, i: nat)
    requires i < |moments| && forall j :: i < j < |moments| ==> moments[j].Symbol() != moments[i].Symbol()
    ensures moments[i].Symbol() in RefsAfter(moments)
    ensures RefsAfter(moments)[moments[i].Symbol()] ==
      match moments[i] {
        case TickSeen(tick) => (tick.bid + tick.ask) / 2.0
        case BarSeen(bar) => bar.close
      }
  {
    if i < |moments| - 1 {
      var init := moments[..|moments| - 1];
      assert moments[|moments| - 1].Symbol() != moments[i].Symbol() && init[i] == moments[i];
      forall j | i < j < |init| ensures init[j].Symbol() != init[i].Symbol() {
        assert init[j] == moments[j];
      }
      RefIsLatestPrice(init, i);
    }
  }

  /** Every symbol the broker has a price for has a reference too, so no open position is ever skipped. */
  lemma {:induction false} RefsCoverPrices(t: Terms, initialBalance: real, start: int, visits: seq<Visit>)
    requires OnlyStrategyOps(visits)
    ensures RunOps(t, Opening(initialBalance, start), ReplayOps(visits)).lastPrice.Keys
         == RefsAfter(MomentsOf(visits)).Keys
  {
    hide Apply, RunOps, OpsOf;
    var opening := Opening(initialBalance, start);
    if visits == [] {
      RunNothing(t, opening);
    } else {
      var init, last := visits[..|visits| - 1], visits[|visits| - 1];
      RefsCoverPrices(t, initialBalance, start, init);
      RunOpsConcat(t, opening, ReplayOps(init), OpsOf(last));
      VisitPrices(t, RunOps(t, opening, ReplayOps(init)), last);
      assert MomentsOf(visits)[..|visits| - 1] == MomentsOf(init);
    }
  }

  lemma VisitPrices(t: Terms, b: Books, v: Visit)
    requires OnlyStrategy(v)
    ensures AfterVisit(t, b, v).lastPrice.Keys == b.lastPrice.Keys + {v.moment.Symbol()}
    ensures RunOps(t, b, OpsOf(v)).lastPrice.Keys == b.lastPrice.Keys + {v.moment.Symbol()}
  {
    hide RunOps, Apply;
    VisitRuns(t, b, v);
    var priced := Marked(t, b, v.moment);
    MarkedPrices(t, b, v.moment);
    var check := CheckPendings(v.moment.Symbol(), SeenIn(v.moment));
    var rest := Closes(v.stops) + [check] + v.strategy;
    ClosesDoNotAdvance(v.stops);
    RunCloses(t, priced, v.stops);
    RunOpsConcat(t, priced, Closes(v.stops), [check]);
    RunOne(t, CloseAll(t, priced, v.stops), check);
    CheckIsOp(t, CloseAll(t, priced, v.stops), v.moment.Symbol(), SeenIn(v.moment));
    RunOpsConcat(t, priced, Closes(v.stops) + [check], v.strategy);
    PricesStand(t, priced, rest);
    PricesStand(t, AfterVisit(t, b, v), v.late);
  }

  lemma MarkedPrices(t: Terms, b: Books, m: Moment)
    ensures Marked(t, b, m).lastPrice.Keys == b.lastPrice.Keys + {m.Symbol()}
  {
  }

  lemma {:induction false} PricesStand(t: Terms, b: Books, ops: seq<Op>)
    requires forall op :: op in ops ==> StrategyOp(op) || op.CheckPendings?
    ensures RunOps(t, b, ops).lastPrice == b.lastPrice
  {
    hide Apply;
    if ops != [] {
      var init, last := ops[..|ops| - 1], ops[|ops| - 1];
      PricesStand(t, b, init);
      assert last in ops;
      StepKeepsPrices(t, RunOps(t, b, init), last);
    }
  }

  lemma StepKeepsPrices(t: Terms, b: Books, op: Op)
    requires StrategyOp(op) || op.CheckPendings?
    ensures Apply(t, b, op).lastPrice == b.lastPrice
  {
    hide Terms.SlippedPrice, Trade;
    match op
    case CheckPendings(symbol, seen) => ChecksKeepPrices(t, b, symbol, seen, Tickets(b.pending, b.nextTicket));
    case _ =>
  }

  lemma {:induction false} ChecksKeepPrices(t: Terms, b: Books, symbol: string, seen: Observation, tickets: seq<nat>)
    ensures CheckList(t, b, symbol, seen, tickets).lastPrice == b.lastPrice
  {
    hide Fires, PendingFill, Terms.Commission;
    if tickets != [] {
      ChecksKeepPrices(t, b, symbol, seen, tickets[..|tickets| - 1]);
    }
  }

  /** A sampled equity is what was put in, plus booked profits, less the opening commission of what is open,
      plus the open profit of every position. */
  lemma EquityIsAccounted(t: Terms, initialBalance: real, start: int, visits: seq<Visit>)
    requires visits != [] && OnlyStrategyOps(visits)
    ensures
      var b := SampledBooks(t, Opening(initialBalance, start), visits);
      var refs := RefsAfter(MomentsOf(visits));
      && EquityOf(t, b, refs) == initialBalance + SumPnl(b.trades) - t.Commission(OpenVolume(b.positions, b.nextTicket))
                                 + OpenProfit(t, b.positions, refs, b.nextTicket)
      && forall k :: k in b.positions ==> b.positions[k].symbol in refs
  {
    hide RunOps, ReplayOps, TicketsAccounted, AfterVisit, DueOps;
    var init, last := visits[..|visits| - 1], visits[|visits| - 1];
    var opening := Opening(initialBalance, start);
    SampleIsReached(t, opening, init, last);
    ReachableIsSound(t, initialBalance, start, ReplayOps(init) + DueOps(last));
    RefsCoverPrices(t, initialBalance, start, init);
    VisitPrices(t, RunOps(t, opening, ReplayOps(init)), last);
    assert MomentsOf(visits)[..|visits| - 1] == MomentsOf(init);
  }

  lemma SampleIsReached(t: Terms, b: Books, visits: seq<Visit>, v: Visit)
    ensures RunOps(t, b, ReplayOps(visits) + DueOps(v)) == AfterVisit(t, RunOps(t, b, ReplayOps(visits)), v)
  {
    hide RunOps, AfterVisit, DueOps;
    RunOpsConcat(t, b, ReplayOps(visits), DueOps(v));
    VisitRuns(t, RunOps(t, b, ReplayOps(visits)), v);
  }

  // ---- The whole loop on the object -----------------------------------------------------------------

  /** What strategies do in one visit. */
  datatype Acts = Acts(strategy: seq<Op>, late: seq<Op>)

  ghost predicate StrategyActs(a: Acts) {
    forall op :: op in a.strategy || op in a.late ==> StrategyOp(op)
  }

  /** Each visit was legal in its turn, with the acts of that turn. */
  ghost predicate LegalVisits(t: Terms, opening: Books, acts: nat -> Acts, visits: seq<Visit>) {
    visits != [] ==>
      var init, last := visits[..|visits| - 1], visits[|visits| - 1];
      && LegalVisits(t, opening, acts, init)
      && Acts(last.strategy, last.late) == acts(|init|) && Legal(t, RunOps(t, opening, ReplayOps(init)), last)
  }

  lemma OneMoreMoment(moments: seq<Moment>, m: Moment)
    ensures
      var more, earlier := moments + [m], LastMinute(moments);
      var newMinute := earlier.None? || Minute(m) > earlier.value;
      && RefsAfter(more) == RefsAfter(moments)[m.Symbol() := Reference(m)]
      && LastMinute(more) == (if newMinute then Some(Minute(m)) else earlier)
      && (Sampled(more) <==> m.BarSeen? || newMinute)
  {
    hide Minute, Reference, Moment.Symbol;
    assert (moments + [m])[..|moments|] == moments;
  }

  lemma CurveStep(t: Terms, b: Books, visits: seq<Visit>, v: Visit)
    ensures MomentsOf(visits + [v]) == MomentsOf(visits) + [v.moment]
    ensures
      var moments := MomentsOf(visits) + [v.moment];
      Curve(t, b, visits + [v]) == Curve(t, b, visits)
        + if Sampled(moments) then
            var due := AfterVisit(t, RunOps(t, b, ReplayOps(visits)), v);
            [Sample(v.moment.Time(), EquityOf(t, due, RefsAfter(moments)))]
          else []
  {
    hide RunOps, ReplayOps, EquityOf, RefsAfter, Sampled, AfterVisit;
    assert (visits + [v])[..|visits|] == visits;
    assert MomentsOf(visits + [v]) == MomentsOf(visits) + [v.moment];
  }

  lemma OneMoreLegal(t: Terms, opening: Books, acts: nat -> Acts, visits: seq<Visit>, v: Visit)
    requires LegalVisits(t, opening, acts, visits) && Acts(v.strategy, v.late) == acts(|visits|)
    requires Legal(t, RunOps(t, opening, ReplayOps(visits)), v)
    ensures LegalVisits(t, opening, acts, visits + [v])
  {
    hide RunOps, Legal, ReplayOps;
    assert (visits + [v])[..|visits|] == visits;
  }

  ghost predicate InTimeOrder(moments: seq<Moment>, start: int) {
    FileBacktester.InOrder(moments) && (moments != [] ==> start <= moments[0].Time())
  }

  /** The books when equity is sampled are sound, so every open ticket is below the next one. */
  lemma SampledSound(t: Terms, b: Books, v: Visit, initialBalance: real)
    requires Sound(t, b, initialBalance)
    ensures forall k :: k in AfterVisit(t, b, v).positions ==> k < AfterVisit(t, b, v).nextTicket
  {
    hide RunOps, DueOps, AfterVisit, TicketsAccounted, LedgerBalances;
    VisitRuns(t, b, v);
    TicketsOnlyMoveForward(t, b, DueOps(v), 0, initialBalance);
  }

  /** One pass of the loop: the visit, the sample if one is due, and what strategies do after it. */
  method VisitAndSample(broker: SimBroker, clock: FileBacktester.SimClock, m: Moment, acts: Acts,
                        refs: map<string, real>, due: bool, ghost initialBalance: real)
    returns (sample: seq<Sample>, ghost v: Visit)
    requires StrategyActs(acts) && clock.now <= m.Time() && Sound(broker.terms, broker.State(), initialBalance)
    modifies broker, clock
    ensures v.moment == m && Acts(v.strategy, v.late) == acts && Legal(broker.terms, old(broker.State()), v)
    ensures clock.now == m.Time()
    ensures broker.State() == RunOps(broker.terms, AfterVisit(broker.terms, old(broker.State()), v), v.late)
    ensures sample ==
      if due then [Sample(m.Time(), EquityOf(broker.terms, AfterVisit(broker.terms, old(broker.State()), v), refs))]
      else []
  {
    hide AfterVisit, Legal, EquityOf, Moment.Time, StrategyOp, RunOps, Sound;
    var accepted, stops := VisitMoment(broker, clock, m, acts);
    v := Visit(m, stops, acts.strategy, acts.late);
    sample := [];
    if due {
      SampledSound(broker.terms, old(broker.State()), v, initialBalance);
      var equity := EquityNow(broker, refs);
      sample := [Sample(m.Time(), equity)];
    }
    PerformAll(broker, acts.late);
  }

  /** The replay of merged ticks, or of merged bars. No moment is rejected, and the curve is never empty
      unless there was nothing to replay. */
  method Replay(broker: SimBroker, clock: FileBacktester.SimClock, moments: seq<Moment>, acts: nat -> Acts,
                ghost initialBalance: real, ghost wall: int)
    returns (curve: seq<Sample>, count: nat, ghost visits: seq<Visit>)
    requires broker.State() == Opening(initialBalance, wall)
    requires InTimeOrder(moments, clock.now) && forall i :: StrategyActs(acts(i))
    modifies broker, clock
    ensures count == |moments| && MomentsOf(visits) == moments
    ensures LegalVisits(broker.terms, old(broker.State()), acts, visits)
    ensures broker.State() == RunOps(broker.terms, old(broker.State()), ReplayOps(visits))
    ensures curve == Curve(broker.terms, old(broker.State()), visits)
    ensures moments != [] ==> curve != []
  {
    hide LegalVisits, Curve, ReplayOps, AfterVisit, Legal, EquityOf, Opening, Minute, LastMinute, RefsAfter, Sampled,
      Reference, Moment.Time, Moment.Symbol, StrategyActs, RunOps, Sound;
    var refs: map<string, real> := map[];
    var lastMinute: Option<int> := None;
    curve, count, visits := [], 0, [];
    ghost var opening := broker.State();
    NothingReplayed(broker.terms, opening, acts);
    assert moments[..0] == [];
    for i := 0 to |moments|
      invariant count == i && MomentsOf(visits) == moments[..i]
      invariant LegalVisits(broker.terms, opening, acts, visits) && curve == Curve(broker.terms, opening, visits)
      invariant broker.State() == RunOps(broker.terms, opening, ReplayOps(visits))
      invariant refs == RefsAfter(moments[..i]) && lastMinute == LastMinute(moments[..i])
      invariant i < |moments| ==> clock.now <= moments[i].Time()
    {
      var m := moments[i];
      ReachableIsSound(broker.terms, initialBalance, wall, ReplayOps(visits));
      refs := refs[m.Symbol() := Reference(m)];
      assert moments[..i + 1] == moments[..i] + [m];
      OneMoreMoment(moments[..i], m);
      var minute := Minute(m);
      var newMinute := lastMinute.None? || minute > lastMinute.value;
      var sample, visit := VisitAndSample(broker, clock, m, acts(i), refs, m.BarSeen? || newMinute, initialBalance);
      curve := curve + sample;
      if newMinute {
        lastMinute := Some(minute);
      }
      OneMoreLegal(broker.terms, opening, acts, visits, visit);
      CurveStep(broker.terms, opening, visits, visit);
      NextVisit(broker.terms, opening, visits, visit);
      visits := visits + [visit];
      count := count + 1;
    }
    assert moments[..|moments|] == moments;
    // The sample that the program adds to an empty curve is left out: it is never needed.
    if visits != [] {
      FirstIsSampled(broker.terms, opening, visits);
    }
  }

  lemma {:induction false} LegalMeansStrategyOps(t: Terms, opening: Books, acts: nat -> Acts, visits: seq<Visit>)
    requires LegalVisits(t, opening, acts, visits)
    ensures OnlyStrategyOps(visits)
  {
    hide RunOps, ReplayOps, OnlyStrategy;
    if visits != [] {
      LegalMeansStrategyOps(t, opening, acts, visits[..|visits| - 1]);
    }
  }

  lemma MomentsInOrder(visits: seq<Visit>)
    requires FileBacktester.InOrder(MomentsOf(visits))
    ensures TimesInOrder(visits)
  {
    hide Moment.Time;
  }

  /** A backtest from the replay to the closing step. */
  method RunBacktest(broker: SimBroker, clock: FileBacktester.SimClock, moments: seq<Moment>, acts: nat -> Acts,
                     ghost initialBalance: real, ghost wall: int)
    returns (curve: seq<Sample>, ghost visits: seq<Visit>, ghost remaining: seq<nat>)
    requires broker.State() == Opening(initialBalance, wall)
    requires InTimeOrder(moments, clock.now) && forall i :: StrategyActs(acts(i))
    modifies broker, clock
    ensures MomentsOf(visits) == moments && curve == Curve(broker.terms, old(broker.State()), visits)
    ensures broker.positions == map[] && broker.balance - initialBalance == SumPnl(broker.trades)
    ensures broker.State() == RunOps(broker.terms, old(broker.State()), ReplayOps(visits) + Closes(remaining))
    ensures moments != [] && ValidAnchor(broker.terms.rolloverHour) ==> forall ticket ::
      SwapBooked(broker.terms, old(broker.State()), ReplayOps(visits) + Closes(remaining), ticket)
      == NightlySwap(broker.terms, old(broker.State()), ReplayOps(visits) + Closes(remaining), ticket)
  {
    hide LegalVisits, Legal, Opening, RunOps, CloseAll, SwapBooked, NightlySwap, StrategyOp, Curve, ReplayOps,
      TimesInOrder, OnlyStrategyOps, Sound, Moment.Time;
    var count;
    curve, count, visits := Replay(broker, clock, moments, acts, initialBalance, wall);
    ghost var opening := Opening(initialBalance, wall);
    LegalMeansStrategyOps(broker.terms, opening, acts, visits);
    MomentsInOrder(visits);
    ReachableIsSound(broker.terms, initialBalance, wall, ReplayOps(visits));
    ghost var replayed := broker.State();
    var listing := ListPositions(broker.positions);
    remaining := listing;
    FileBacktester.CloseRemaining(broker, listing, initialBalance);
    RunCloses(broker.terms, replayed, listing);
    RunOpsConcat(broker.terms, opening, ReplayOps(visits), Closes(listing));
    if moments != [] && ValidAnchor(broker.terms.rolloverHour) {
      forall ticket ensures SwapBooked(broker.terms, opening, ReplayOps(visits) + Closes(listing), ticket)
        == NightlySwap(broker.terms, opening, ReplayOps(visits) + Closes(listing), ticket)
      {
        BacktestAccounts(broker.terms, initialBalance, wall, visits, listing, ticket);
      }
    }
  }

  /** A backtest from the stored data. What is read in range, merged in order of time, the store's own order among
      equal times, is what is replayed: per symbol the ticks, in day chunks or not, or per feed the bars. */
  method RunStored(broker: SimBroker, clock: FileBacktester.SimClock, store: seq<seq<Moment>>, start: int, end: int,
                   acts: nat -> Acts, ghost initialBalance: real, ghost wall: int)
    returns (curve: seq<Sample>, ghost visits: seq<Visit>, ghost remaining: seq<nat>)
    requires broker.State() == Opening(initialBalance, wall)
    requires clock.now <= start && forall i :: StrategyActs(acts(i))
    modifies broker, clock
    ensures MomentsOf(visits)
         == Sorting.SortBy(FileBacktester.Concat(FileBacktester.ReadAll(store, start, end)), FileBacktester.MomentTime)
    ensures curve == Curve(broker.terms, old(broker.State()), visits)
    ensures broker.positions == map[] && broker.balance - initialBalance == SumPnl(broker.trades)
    ensures broker.State() == RunOps(broker.terms, old(broker.State()), ReplayOps(visits) + Closes(remaining))
  {
    hide FileBacktester.Merge, FileBacktester.ReadAll, FileBacktester.Concat, Sorting.SortBy, Opening, Curve, RunOps,
      Moment.Time, StrategyOp;
    var moments := FileBacktester.Merge(FileBacktester.ReadAll(store, start, end));
    FileBacktester.ReadIsStableSort(store, start, end);
    FileBacktester.ChunkInOrder(store, start, end);
    assert moments != [] ==> moments[0] in moments;
    curve, visits, remaining := RunBacktest(broker, clock, moments, acts, initialBalance, wall);
  }

  lemma NothingReplayed(t: Terms, opening: Books, acts: nat -> Acts)
    ensures LegalVisits(t, opening, acts, []) && RunOps(t, opening, ReplayOps([])) == opening
    ensures Curve(t, opening, []) == [] && RefsAfter([]) == map[] && LastMinute([]) == None
  {
    RunNothing(t, opening);
  }

  /** The first moment is always sampled. */
  lemma {:induction false} FirstIsSampled(t: Terms, b: Books, visits: seq<Visit>)
    requires visits != []
    ensures Curve(t, b, visits) != []
  {
    hide RunOps, ReplayOps, EquityOf, RefsAfter, AfterVisit;
    if |visits| > 1 {
      FirstIsSampled(t, b, visits[..|visits| - 1]);
    }
  }

  lemma NextVisit(t: Terms, b: Books, visits: seq<Visit>, v: Visit)
    ensures
      var before := RunOps(t, b, ReplayOps(visits));
      RunOps(t, b, ReplayOps(visits + [v])) == RunOps(t, AfterVisit(t, before, v), v.late)
  {
    hide RunOps, AfterVisit, OpsOf;
    assert (visits + [v])[..|visits|] == visits;
    RunOpsConcat(t, b, ReplayOps(visits), OpsOf(v));
    VisitRuns(t, RunOps(t, b, ReplayOps(visits)), v);
  }
}
