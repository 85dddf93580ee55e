/** Histories in which the opening balance of the day changes at a restart, one for each reason. */
module OpeningRuns {
  import opened Domain
  import opened UtcTime
  import opened SimBroker
  import opened BrokerRuns
  import opened RiskMonitor
  import opened OrderRouter
  import opened Engine
  import opened TradeLog
  import opened Restart
  import opened Lives
  import opened OpeningBalance
  import Rollover

  /** Every snapshot is handled at once. */
  function AtOnce(i: nat): nat {
    i
  }

  function Report(time: int, balance: real): Snapshot {
    Snapshot(time, balance, balance, 0.0, 0.0)
  }

  /** A signal that the risk check sees and the exposure cap stops. */
  function Stopped(): Signal {
    SmallSignal(MARKET).(exposurePasses := false)
  }

  /** A history in which the restarted monitor ends the day with one opening balance and would have had another. */
  ghost predicate Differs(
      s: Setup, sidOf: map<int, string>, trace: seq<World>, moves: seq<Move>, live: real, restored: real)
  {
    && History(s, sidOf, trace, moves, 100.0, 0) && SnapshotsReport(trace, moves, AtOnce)
    && Playable(trace, moves, AtOnce)
    && var marks := MarksAt(s, trace, moves, AtOnce, |moves|);
       && marks.before.Some? && marks.before.value.monitor.daily.openingBalance == live
       && marks.now.monitor.daily.openingBalance == restored
  }

  lemma StoppedStep(s: Setup, e: Engine, now: int)
    requires !e.monitor.gates.killTripped && !e.monitor.gates.lockTripped
    ensures
      var e' := Next(s, e, Signalled(Stopped(), now));
      && e'.books == RejectSignal(e.books, Stopped()) && e'.delivered == e.delivered
      && e'.monitor == e.monitor.(daily := Roll(e.monitor.daily, e.monitor.balance, now))
  {
    hide Judge, Roll;
  }

  lemma SnapshotStep(s: Setup, e: Engine, snapshot: Snapshot)
    ensures Next(s, e, Snapshotted(snapshot)) == e.(monitor := OnSnapshot(s.cfg, e.monitor, snapshot))
  {
  }

  lemma NoProfitRead(rows: seq<TradeRow>, now: int)
    requires rows == []
    ensures TotalSince(rows, Midnight(now)) == 0.0
    ensures forall symbol :: GetOr(map[], symbol, 0.0) == SymbolTotalSince(rows, symbol, Midnight(now))
  {
  }

  /** A history that ends with a restart and a snapshot. */
  lemma EndsDiffering(
      s: Setup, sidOf: map<int, string>, trace: seq<World>, moves: seq<Move>, snapshot: Snapshot, live: real,
      restored: real)
    requires History(s, sidOf, trace, moves, 100.0, 0) && SnapshotsReport(trace, moves, AtOnce)
    requires |moves| >= 2 && moves[|moves| - 2].Restarted?
    requires moves[|moves| - 1].Live? && moves[|moves| - 1].step == Snapshotted(snapshot)
    requires
      var w := trace[|moves| - 2];
      && w.engine.monitor.daily.anchor.Some? && !w.engine.monitor.needsOpeningBalance
      && w.engine.monitor.daily.openingBalance == live
      && restored == snapshot.balance - TotalSince(w.rows, Midnight(moves[|moves| - 2].now))
    ensures Differs(s, sidOf, trace, moves, live, restored)
  {
    hide History, MarksAt, TotalSince, Midnight;
    FirstSnapshotAfterRestart(s, sidOf, trace, moves, 100.0, 0, AtOnce, |moves| - 2, snapshot);
  }

  // ---- One move more -----------------------------------------------------------------------------

  ghost predicate Played(s: Setup, sidOf: map<int, string>, trace: seq<World>, moves: seq<Move>) {
    History(s, sidOf, trace, moves, 100.0, 0) && SnapshotsReport(trace, moves, AtOnce)
  }

  lemma Born(s: Setup, sidOf: map<int, string>) returns (trace: seq<World>, moves: seq<Move>)
    ensures Played(s, sidOf, trace, moves) && moves == [] && trace == [Birth(100.0, 0)]
  {
    trace, moves := [Birth(100.0, 0)], [];
  }

  lemma Extend(s: Setup, sidOf: map<int, string>, trace: seq<World>, moves: seq<Move>, move: Move)
    returns (trace': seq<World>, moves': seq<Move>)
    requires Played(s, sidOf, trace, moves) && Legal(trace[|moves|], move)
    requires move.Live? && move.step.Snapshotted? ==>
      move.step.snapshot.balance == trace[|moves|].engine.books.balance
    ensures Played(s, sidOf, trace', moves') && moves' == moves + [move] && |trace'| == |moves'| + 1
    ensures trace' == trace + [After(s, sidOf, trace[|moves|], move)]
  {
    hide Legal, After;
    trace', moves' := trace + [After(s, sidOf, trace[|moves|], move)], moves + [move];
  }

  /** A step that realises nothing. */
  lemma Plainly(s: Setup, sidOf: map<int, string>, trace: seq<World>, moves: seq<Move>, step: Step)
    returns (trace': seq<World>, moves': seq<Move>)
    requires Played(s, sidOf, trace, moves) && |trace| == |moves| + 1
    requires
      var w := trace[|moves|];
      && Enabled(w.engine, step) && RealizedIn(w.engine, step).None?
      && w.clock <= ClockAfter(w.engine, step, w.clock)
      && (step.Snapshotted? ==> step.snapshot.balance == w.engine.books.balance)
    ensures Played(s, sidOf, trace', moves') && moves' == moves + [Live(step, 0)] && |trace'| == |moves'| + 1
    ensures trace'[..|moves'|] == trace
    ensures
      var w, w' := trace[|moves|], trace'[|moves'|];
      && w'.engine == Next(s, w.engine, step) && w'.rows == w.rows && w'.realized == w.realized
      && w'.clock == ClockAfter(w.engine, step, w.clock)
  {
    hide Next, Played;
    NothingToLog(sidOf, trace[|moves|].engine, step);
    trace', moves' := Extend(s, sidOf, trace, moves, Live(step, 0));
  }

  lemma NothingToLog(sidOf: map<int, string>, e: Engine, step: Step)
    requires RealizedIn(e, step).None?
    ensures RowIn(sidOf, e, step, 0) == []
  {
  }

  /** The signal of "trend" is bought at the quote, on terms with that commission. */
  function Paying(commission: real): Setup {
    SmallSetup().(terms := SmallSetup().terms.(commissionPerLot := commission))
  }

  ghost predicate QuotedAt(b: Books, price: real) {
    && "EURUSD" in b.lastBid && "EURUSD" in b.lastAsk && "EURUSD" in b.lastPrice
    && b.lastBid["EURUSD"] == b.lastAsk["EURUSD"] == b.lastPrice["EURUSD"] == price
  }

  lemma QuoteStep(s: Setup, e: Engine, price: real)
    ensures
      var e' := Next(s, e, Replayed(Quoted("EURUSD", price, price)));
      && QuotedAt(e'.books, price) && e'.monitor == e.monitor && e'.delivered == e.delivered
      && e'.books == e.books.(lastBid := e'.books.lastBid, lastAsk := e'.books.lastAsk, lastPrice := e'.books.lastPrice)
  {
  }

  function BuyPosition(ticket: nat, price: real, now: int): Position {
    Position(ticket, "EURUSD", BUY, 1.0, price, now, None, None, 0)
  }

  lemma BuyStep(commission: real, e: Engine, price: real) returns (filled: Event)
    requires QuotedAt(e.books, price) && e.books.strategyOf == map[]
    requires !e.monitor.gates.killTripped && !e.monitor.gates.lockTripped
    requires GetOr(e.monitor.counts.byStrategy, "trend", 0) == 0
    ensures filled.OrderFilled?
    ensures
      var e', n := Next(Paying(commission), e, Signalled(SmallSignal(MARKET), 0)), e.books.nextTicket;
      && e'.monitor == e.monitor.(daily := Roll(e.monitor.daily, e.monitor.balance, 0)) && e'.delivered == e.delivered
      && e'.books == e.books.(
           positions := e.books.positions[n := BuyPosition(n, price, e.books.simTime)],
           strategyOf := map[n := "trend"], balance := e.books.balance - commission, nextTicket := n + 1,
           slippageCalls := e.books.slippageCalls + 1,
           events := e.books.events + [DecisionMade("trend", "EURUSD", true), filled])
  {
    hide Judge, Roll;
    SmallJudge(e.monitor, 0);
    var e' := Next(Paying(commission), e, Signalled(SmallSignal(MARKET), 0));
    filled := e'.books.events[|e.books.events| + 1];
  }

  /** The history ends with a restart and a report of the balance. */
  lemma RestartAndReport(
      s: Setup, sidOf: map<int, string>, trace: seq<World>, moves: seq<Move>, now: int, tickets: seq<nat>,
      pnlBySymbol: map<string, real>)
    returns (trace': seq<World>, moves': seq<Move>)
    requires Played(s, sidOf, trace, moves) && |trace| == |moves| + 1
    requires Legal(trace[|moves|], Restarted(now, tickets, pnlBySymbol))
    requires
      var m := trace[|moves|].engine.monitor;
      m.daily.anchor.Some? && !m.needsOpeningBalance
    ensures |trace'| == |moves'| + 1 && |trace'| == |trace| + 2 && trace'[..|trace|] == trace
    ensures
      var w := trace[|moves|];
      && Differs(s, sidOf, trace', moves', w.engine.monitor.daily.openingBalance,
                 w.engine.books.balance - TotalSince(w.rows, Midnight(now)))
      && trace'[|trace|].engine.books == trace'[|trace| + 1].engine.books == w.engine.books
      && trace'[|trace|].realized == trace'[|trace| + 1].realized == w.realized
  {
    hide Next, Differs, Midnight, TotalSince, Legal, RehydratedMonitor;
    var w, snapshot := trace[|moves|], Report(now, trace[|moves|].engine.books.balance);
    trace', moves' := Extend(s, sidOf, trace, moves, Restarted(now, tickets, pnlBySymbol));
    SnapshotStep(s, trace'[|moves'|].engine, snapshot);
    trace', moves' := Plainly(s, sidOf, trace', moves', Snapshotted(snapshot));
    EndsDiffering(s, sidOf, trace', moves', snapshot, w.engine.monitor.daily.openingBalance,
                  snapshot.balance - TotalSince(w.rows, Midnight(now)));
  }

  // ---- No snapshot before the day began ---------------------------------------------------------------

  /** A signal is judged before the first snapshot. No ticket is ever issued: live 0, restored 100. */
  lemma MissingSnapshot() returns (trace: seq<World>, moves: seq<Move>)
    ensures Differs(SmallSetup(), map[], trace, moves, 0.0, 100.0)
    ensures |moves| < |trace| && trace[|moves|].engine.books.nextTicket == 1
  {
    hide Next, Played, Differs, Midnight, TotalSince, SymbolTotalSince, MarksAt;
    var s, sidOf := SmallSetup(), map[];
    trace, moves := Born(s, sidOf);
    StoppedStep(s, trace[0].engine, 0);
    trace, moves := Plainly(s, sidOf, trace, moves, Signalled(Stopped(), 0));
    QuietDelivery(s, trace[1].engine, 0);
    trace, moves := Plainly(s, sidOf, trace, moves, Delivered(0));
    NoProfitRead([], 0);
    trace, moves := RestartAndReport(s, sidOf, trace, moves, 0, [], map[]);
  }

  /** The same start with a daily limit of five per cent: a snapshot at 100 has come, and the gate is off. */
  lemma GateOffAfterSnapshot() returns (trace: seq<World>, moves: seq<Move>)
    ensures Played(Guarded(), map[], trace, moves) && |trace| == |moves| + 1
    ensures
      var m := trace[|moves|].engine.monitor;
      && m.balance == Some(100.0) && Guarded().cfg.maxDailyLossPct > 0.0 && !LossGateInForce(Guarded().cfg, m.daily)
  {
    hide Next, Played, GatesAfter;
    var s, sidOf := Guarded(), map[];
    trace, moves := Born(s, sidOf);
    StoppedStep(s, trace[0].engine, 0);
    trace, moves := Plainly(s, sidOf, trace, moves, Signalled(Stopped(), 0));
    SnapshotStep(s, trace[1].engine, Report(0, 100.0));
    trace, moves := Plainly(s, sidOf, trace, moves, Snapshotted(Report(0, 100.0)));
  }

  function Guarded(): Setup {
    SmallSetup().(cfg := SmallSetup().cfg.(maxDailyLossPct := 5.0))
  }

  // ---- Commission held back -------------------------------------------------------------------------

  lemma FillStep(s: Setup, e: Engine, now: int)
    requires e.delivered < |e.books.events| && e.books.events[e.delivered].OrderFilled?
    ensures
      var e' := Next(s, e, Delivered(now));
      && e'.books == e.books && e'.delivered == e.delivered + 1
      && e'.monitor.daily == e.monitor.daily && e'.monitor.gates == e.monitor.gates
      && e'.monitor.balance == e.monitor.balance && e'.monitor.needsOpeningBalance == e.monitor.needsOpeningBalance
  {
    hide CountFilled;
  }

  /** After a snapshot at 100 the signal of "trend" is bought at 1, and nothing is delivered yet. */
  lemma Opened(commission: real) returns (trace: seq<World>, moves: seq<Move>, filled: Event)
    ensures Played(Paying(commission), map[], trace, moves) && |trace| == |moves| + 1 && filled.OrderFilled?
    ensures
      var w := trace[|moves|];
      var b, m := w.engine.books, w.engine.monitor;
      && w.rows == [] && w.realized == [] && w.clock == 0 && w.engine.delivered == 0
      && QuotedAt(b, 1.0) && b.positions == map[1 := BuyPosition(1, 1.0, 0)] && b.strategyOf == map[1 := "trend"]
      && b.balance == 100.0 - commission && b.trades == [] && b.simTime == 0
      && b.events == [DecisionMade("trend", "EURUSD", true), filled]
      && m.daily == Daily(Some(0), 100.0, 0.0, map[]) && m.balance == Some(100.0) && !m.needsOpeningBalance
      && !m.gates.killTripped && !m.gates.lockTripped
  {
    hide Next, Played, GatesAfter;
    var s, sidOf := Paying(commission), map[];
    trace, moves := Born(s, sidOf);
    SnapshotStep(s, trace[0].engine, Report(0, 100.0));
    NoTrip(s.cfg, FRESH.gates, 100.0);
    trace, moves := Plainly(s, sidOf, trace, moves, Snapshotted(Report(0, 100.0)));
    QuoteStep(s, trace[1].engine, 1.0);
    trace, moves := Plainly(s, sidOf, trace, moves, Replayed(Quoted("EURUSD", 1.0, 1.0)));
    filled := BuyStep(commission, trace[2].engine, 1.0);
    trace, moves := Plainly(s, sidOf, trace, moves, Signalled(SmallSignal(MARKET), 0));
  }

  lemma NoTrip(cfg: RiskConfig, g: Gates, equity: real)
    requires cfg.killDrawdownPct == 0.0 && !cfg.lockEnabled && !g.killTripped && !g.lockTripped
    ensures !GatesAfter(cfg, g, equity).killTripped && !GatesAfter(cfg, g, equity).lockTripped
  {
  }

  /** A snapshot, then a position with a commission of one: live 100, restored 99. */
  lemma CommissionHeld() returns (trace: seq<World>, moves: seq<Move>)
    ensures Differs(Paying(1.0), map[], trace, moves, 100.0, 99.0)
    ensures |moves| < |trace| && trace[|moves|].realized == [] && trace[|moves|].engine.books.trades == []
  {
    hide Next, Played, Differs, Midnight, TotalSince, SymbolTotalSince, MarksAt;
    var s, sidOf := Paying(1.0), map[];
    var filled;
    trace, moves, filled := Opened(1.0);
    QuietDelivery(s, trace[|moves|].engine, 0);
    trace, moves := Plainly(s, sidOf, trace, moves, Delivered(0));
    FillStep(s, trace[|moves|].engine, 0);
    trace, moves := Plainly(s, sidOf, trace, moves, Delivered(0));
    NoProfitRead([], 0);
    trace, moves := RestartAndReport(s, sidOf, trace, moves, 0, [1], map[]);
  }

  // ---- A snapshot too old, and one too new ------------------------------------------------------------

  lemma NoSwap(pos: Position, qty: real, now: int)
    ensures Paying(0.0).terms.Swap(pos, qty, now) == 0.0
  {
    hide Rollover.RolloverCount;
    var nights := Rollover.RolloverCount(pos.openTime, now, 21) as real;
    assert nights * 0.0 * qty == 0.0;
  }

  lemma OneEarned()
    ensures Paying(0.0).terms.Gross(BuyPosition(1, 1.0, 0), 1.0, 2.0) == 1.0
    ensures Paying(0.0).terms.Commission(1.0) == 0.0
  {
    assert BUY.Sign() == 1.0 && Paying(0.0).terms.ContractSize("EURUSD") == 1.0;
  }

  lemma SoldTrade()
    ensures
      var t, pos := Paying(0.0).terms, BuyPosition(1, 1.0, 0);
      var trade := Trade(t, pos, 1.0, 2.0, 0);
      && trade.pnl == 1.0 && trade.volume == 1.0 && trade.closePrice == 2.0
      && t.Gross(pos, 1.0, 2.0) - t.Commission(1.0) + trade.swap == 1.0
  {
    hide Terms.Swap, Terms.Gross, Terms.Commission;
    NoSwap(BuyPosition(1, 1.0, 0), 1.0, 0);
    OneEarned();
  }

  lemma SellStep(e: Engine) returns (closed: Event, shown: Event)
    requires QuotedAt(e.books, 2.0) && e.books.simTime == 0
    requires e.books.positions == map[1 := BuyPosition(1, 1.0, 0)] && e.books.strategyOf == map[1 := "trend"]
    ensures closed == PositionClosed(BuyPosition(1, 1.0, 0), 1.0, 2.0) && shown.BacktestTradeClosed?
    ensures
      var e' := Next(Paying(0.0), e, Replayed(ClosePosition(1, None)));
      && e'.monitor == e.monitor && e'.delivered == e.delivered && e'.books.positions == map[]
      && e'.books.balance == e.books.balance + 1.0 && e'.books.events == e.books.events + [closed, shown]
      && e'.books.simTime == 0
  {
    hide Trade, Terms.Gross, Terms.Commission;
    SoldTrade();
    var e' := Next(Paying(0.0), e, Replayed(ClosePosition(1, None)));
    closed, shown := e'.books.events[|e.books.events|], e'.books.events[|e.books.events| + 1];
  }

  /** Bought at 1, sold at 2, and the snapshot at 100 is the last; nothing is delivered yet. */
  lemma Sold() returns (trace: seq<World>, moves: seq<Move>, filled: Event, shown: Event)
    ensures Played(Paying(0.0), map[], trace, moves) && |trace| == |moves| + 1
    ensures filled.OrderFilled? && shown.BacktestTradeClosed?
    ensures
      var w := trace[|moves|];
      var b, m := w.engine.books, w.engine.monitor;
      && w.rows == [] && w.realized == [] && w.clock == 0 && w.engine.delivered == 0
      && b.positions == map[] && b.balance == 101.0
      && b.events == [DecisionMade("trend", "EURUSD", true), filled, PositionClosed(BuyPosition(1, 1.0, 0), 1.0, 2.0),
                      shown]
      && m.daily == Daily(Some(0), 100.0, 0.0, map[]) && m.balance == Some(100.0) && !m.needsOpeningBalance
      && !m.gates.killTripped && !m.gates.lockTripped
  {
    hide Next, Played;
    var s, sidOf := Paying(0.0), map[];
    trace, moves, filled := Opened(0.0);
    QuoteStep(s, trace[|moves|].engine, 2.0);
    trace, moves := Plainly(s, sidOf, trace, moves, Replayed(Quoted("EURUSD", 2.0, 2.0)));
    var closed;
    closed, shown := SellStep(trace[|moves|].engine);
    trace, moves := Plainly(s, sidOf, trace, moves, Replayed(ClosePosition(1, None)));
  }

  lemma CloseStep(s: Setup, e: Engine, now: int)
    requires e.delivered < |e.books.events|
    requires e.books.events[e.delivered] == PositionClosed(BuyPosition(1, 1.0, 0), 1.0, 2.0)
    ensures
      var e' := Next(s, e, Delivered(now));
      && e'.books == e.books && e'.delivered == e.delivered + 1
      && e'.monitor.daily == AddPnl(Roll(e.monitor.daily, e.monitor.balance, now), "EURUSD", 1.0)
      && e'.monitor.gates == e.monitor.gates && e'.monitor.balance == e.monitor.balance
      && e'.monitor.needsOpeningBalance == e.monitor.needsOpeningBalance
  {
    hide CountClosed, Roll, AddPnl;
  }

  /** The close is handled, and logged at the same time. */
  lemma Realizing(s: Setup, sidOf: map<int, string>, trace: seq<World>, moves: seq<Move>, now: int)
    returns (trace': seq<World>, moves': seq<Move>)
    requires Played(s, sidOf, trace, moves) && |trace| == |moves| + 1
    requires
      var w := trace[|moves|];
      && w.clock <= now && w.engine.delivered < |w.engine.books.events|
      && w.engine.books.events[w.engine.delivered] == PositionClosed(BuyPosition(1, 1.0, 0), 1.0, 2.0)
    ensures Played(s, sidOf, trace', moves') && |trace'| == |moves'| + 1
    ensures
      var w, w' := trace[|moves|], trace'[|moves'|];
      && w'.engine == Next(s, w.engine, Delivered(now)) && w'.clock == now
      && w'.rows == w.rows + [RowFor(sidOf, BuyPosition(1, 1.0, 0), 1.0, 1.0, Some(2.0), now)]
      && w'.realized == w.realized + [Realized("EURUSD", 1.0, now)]
  {
    hide Next, Played, RowFor;
    trace', moves' := Extend(s, sidOf, trace, moves, Live(Delivered(now), now));
  }

  /** The four events of the trade are delivered at `now`. */
  lemma Drain(s: Setup, sidOf: map<int, string>, trace: seq<World>, moves: seq<Move>, now: int, filled: Event,
              shown: Event)
    returns (trace': seq<World>, moves': seq<Move>)
    requires Played(s, sidOf, trace, moves) && |trace| == |moves| + 1
    requires filled.OrderFilled? && shown.BacktestTradeClosed?
    requires
      var w := trace[|moves|];
      && w.clock <= now && w.engine.delivered == 0 && |w.engine.books.events| >= 4
      && w.engine.books.events[..4] == [DecisionMade("trend", "EURUSD", true), filled,
                                        PositionClosed(BuyPosition(1, 1.0, 0), 1.0, 2.0), shown]
    ensures Played(s, sidOf, trace', moves') && |trace'| == |moves'| + 1
    ensures
      var w, w' := trace[|moves|], trace'[|moves'|];
      && w'.rows == w.rows + [RowFor(sidOf, BuyPosition(1, 1.0, 0), 1.0, 1.0, Some(2.0), now)]
      && w'.realized == w.realized + [Realized("EURUSD", 1.0, now)] && w'.clock == now
      && w'.engine.delivered == 4 && w'.engine.books == w.engine.books
      && w'.engine.monitor.daily
         == AddPnl(Roll(w.engine.monitor.daily, w.engine.monitor.balance, now), "EURUSD", 1.0)
      && w'.engine.monitor.gates == w.engine.monitor.gates && w'.engine.monitor.balance == w.engine.monitor.balance
      && w'.engine.monitor.needsOpeningBalance == w.engine.monitor.needsOpeningBalance
  {
    hide Next, Played, RowFor, Roll, AddPnl;
    ghost var events := trace[|moves|].engine.books.events;
    assert events[0] == events[..4][0] && events[1] == events[..4][1];
    assert events[2] == events[..4][2] && events[3] == events[..4][3];
    QuietDelivery(s, trace[|moves|].engine, now);
    trace', moves' := Plainly(s, sidOf, trace, moves, Delivered(now));
    FillStep(s, trace'[|moves'|].engine, now);
    trace', moves' := Plainly(s, sidOf, trace', moves', Delivered(now));
    CloseStep(s, trace'[|moves'|].engine, now);
    trace', moves' := Realizing(s, sidOf, trace', moves', now);
    QuietDelivery(s, trace'[|moves'|].engine, now);
    trace', moves' := Plainly(s, sidOf, trace', moves', Delivered(now));
  }

  lemma OneRow(sidOf: map<int, string>, at: int, now: int)
    ensures
      var rows := [RowFor(sidOf, BuyPosition(1, 1.0, 0), 1.0, 1.0, Some(2.0), at)];
      var pnl := if at >= Midnight(now) then 1.0 else 0.0;
      && TotalSince(rows, Midnight(now)) == pnl
      && forall symbol :: SymbolTotalSince(rows, symbol, Midnight(now)) == if symbol == "EURUSD" then pnl else 0.0
  {
    hide Midnight;
    var rows := [RowFor(sidOf, BuyPosition(1, 1.0, 0), 1.0, 1.0, Some(2.0), at)];
    assert rows[..0] == [];
  }

  /** The profit is booked and handled after the last snapshot of the day before: live 100, restored 101. */
  lemma StaleSnapshot() returns (trace: seq<World>, moves: seq<Move>)
    ensures Differs(Paying(0.0), map[], trace, moves, 100.0, 101.0)
    ensures |moves| < |trace| && trace[|moves|].engine.books.positions == map[]
  {
    hide Next, Played, Differs, TotalSince, SymbolTotalSince, MarksAt, RowFor;
    var s, sidOf := Paying(0.0), map[];
    var filled, shown;
    trace, moves, filled, shown := Sold();
    trace, moves := Drain(s, sidOf, trace, moves, 0, filled, shown);
    StoppedStep(s, trace[|moves|].engine, DAY);
    trace, moves := Plainly(s, sidOf, trace, moves, Signalled(Stopped(), DAY));
    QuietDelivery(s, trace[|moves|].engine, DAY);
    trace, moves := Plainly(s, sidOf, trace, moves, Delivered(DAY));
    OneRow(sidOf, 0, DAY);
    assert trace[|moves|].rows == [RowFor(sidOf, BuyPosition(1, 1.0, 0), 1.0, 1.0, Some(2.0), 0)];
    assert Midnight(DAY) == DAY;
    trace, moves := RestartAndReport(s, sidOf, trace, moves, DAY, [], map[]);
  }

  /** The profit is booked before that snapshot and handled on the next day: live 101, restored 100. */
  lemma ProfitInFlight() returns (trace: seq<World>, moves: seq<Move>)
    ensures Differs(Paying(0.0), map[], trace, moves, 101.0, 100.0)
    ensures |moves| < |trace| && trace[|moves|].engine.books.positions == map[]
  {
    hide Next, Played, Differs, TotalSince, SymbolTotalSince, MarksAt, RowFor, GatesAfter;
    var s, sidOf := Paying(0.0), map[];
    var filled, shown;
    trace, moves, filled, shown := Sold();
    SnapshotStep(s, trace[|moves|].engine, Report(0, 101.0));
    NoTrip(s.cfg, trace[|moves|].engine.monitor.gates, 101.0);
    trace, moves := Plainly(s, sidOf, trace, moves, Snapshotted(Report(0, 101.0)));
    StoppedStep(s, trace[|moves|].engine, DAY);
    trace, moves := Plainly(s, sidOf, trace, moves, Signalled(Stopped(), DAY));
    trace, moves := Drain(s, sidOf, trace, moves, DAY, filled, shown);
    QuietDelivery(s, trace[|moves|].engine, DAY);
    trace, moves := Plainly(s, sidOf, trace, moves, Delivered(DAY));
    OneRow(sidOf, DAY, DAY);
    assert trace[|moves|].rows == [RowFor(sidOf, BuyPosition(1, 1.0, 0), 1.0, 1.0, Some(2.0), DAY)];
    assert Midnight(DAY) == DAY;
    trace, moves := RestartAndReport(s, sidOf, trace, moves, DAY, [], map["EURUSD" := 1.0]);
  }
}
