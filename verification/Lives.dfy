/** The engine over any number of lives: between restarts it steps, logs trades and saves its risk state; at a
    restart a fresh monitor is rehydrated from what survives. */
module Lives {
  import opened Domain
  import opened UtcTime
  import opened SimBroker
  import opened BrokerRuns
  import opened RiskMonitor
  import opened OrderRouter
  import opened Engine
  import opened TradeLog
  import opened Restart

  /** The engine, and what outlives it: the trade table and the state row. `clock` is the last reading of the
      monitor's clock, and `realized` the history of realised profits. */
  datatype World = World(engine: Engine, rows: seq<TradeRow>, row: Option<RiskRow>, clock: int, realized: seq<Realized>)

  /** A step of the running engine, or a restart. `stamped` is the persister's own clock reading; a restart lists the
      broker's positions in some order and reads the day's profits from the table. */
  datatype Move =
    | Live(step: Step, stamped: int)
    | Restarted(now: int, tickets: seq<nat>, pnlBySymbol: map<string, real>)

  /** The monitor's clock reading in a step, if it takes one. */
  function ReadingOf(e: Engine, step: Step): Option<int> {
    match step
    case Signalled(signal, now) => if signal.filterPasses then Some(now) else None
    case Delivered(now) => if RealizedIn(e, step).Some? then Some(now) else None
    case _ => None
  }

  /** The profit that a delivery realises. */
  function RealizedIn(e: Engine, step: Step): Option<Realized> {
    if step.Delivered? && e.delivered < |e.books.events| then
      match e.books.events[e.delivered]
      case PositionClosed(p, pnl, _) => Some(Realized(p.symbol, pnl, step.now))
      case PartialClosed(p, _, pnl, _) => Some(Realized(p.symbol, pnl, step.now))
      case _ => None
    else None
  }

  /** The history of realised profits after a step, and the clock. */
  function RealizedAfter(e: Engine, step: Step, realized: seq<Realized>): seq<Realized> {
    var r := RealizedIn(e, step);
    if r.Some? then realized + [r.value] else realized
  }

  function ClockAfter(e: Engine, step: Step, clock: int): int {
    var reading := ReadingOf(e, step);
    if reading.Some? then reading.value else clock
  }

  /** The row that the persister adds for a delivery. */
  function RowIn(sidOf: map<int, string>, e: Engine, step: Step, stamped: int): seq<TradeRow> {
    if step.Delivered? && e.delivered < |e.books.events| then RowsFor(sidOf, e.books.events[e.delivered], stamped)
    else []
  }

  /** The state row after a step: written by a snapshot that changes it, and by the two resets. */
  function SavedRow(row: Option<RiskRow>, before: Gates, step: Step, after: Gates): Option<RiskRow> {
    match step
    case Snapshotted(_) => if Durable(before, after) then Some(RowOf(after)) else row
    case KillSwitchReset => Some(RowOf(after))
    case ProfitLockReset => Some(RowOf(after))
    case _ => row
  }

  /** No write is lost; clocks do not run backwards, and the two readings for one close fall on one UTC day. A
      restart happens once everything published has been handled. */
  ghost predicate Legal(w: World, move: Move) {
    match move
    case Live(step, stamped) =>
      var reading := ReadingOf(w.engine, step);
      && Enabled(w.engine, step)
      && (reading.Some? ==> w.clock <= reading.value)
      && (RealizedIn(w.engine, step).Some? ==> Day(stamped) == Day(RealizedIn(w.engine, step).value.at))
    case Restarted(now, tickets, pnlBySymbol) =>
      && w.clock <= now && w.engine.delivered == |w.engine.books.events| && Lists(w.engine.books, tickets)
      && forall symbol :: GetOr(pnlBySymbol, symbol, 0.0) == SymbolTotalSince(w.rows, symbol, Midnight(now))
  }

  function RehydratedMonitor(
      sidOf: map<int, string>, w: World, now: int, tickets: seq<nat>, pnlBySymbol: map<string, real>): Monitor
    requires forall k :: k in tickets ==> k in w.engine.books.positions
  {
    Rehydrated(FRESH, OpenList(w.engine.books, sidOf, tickets), TotalSince(w.rows, Midnight(now)), pnlBySymbol, now,
               w.row)
  }

  ghost function After(s: Setup, sidOf: map<int, string>, w: World, move: Move): World
    requires Legal(w, move)
  {
    match move
    case Live(step, stamped) =>
      var e' := Next(s, w.engine, step);
      World(e', w.rows + RowIn(sidOf, w.engine, step, stamped),
            SavedRow(w.row, w.engine.monitor.gates, step, e'.monitor.gates),
            ClockAfter(w.engine, step, w.clock), RealizedAfter(w.engine, step, w.realized))
    case Restarted(now, tickets, pnlBySymbol) =>
      w.(engine := w.engine.(monitor := RehydratedMonitor(sidOf, w, now, tickets, pnlBySymbol)), clock := now)
  }

  function Birth(initialBalance: real, now: int): World {
    World(Start(initialBalance, now), [], None, now, [])
  }

  ghost predicate History(
      s: Setup, sidOf: map<int, string>, trace: seq<World>, moves: seq<Move>, initialBalance: real, start: int)
  {
    && |trace| == |moves| + 1 && trace[0] == Birth(initialBalance, start)
    && forall i :: 0 <= i < |moves| ==> Legal(trace[i], moves[i]) && trace[i + 1] == After(s, sidOf, trace[i], moves[i])
  }

  // ---- What every life keeps ------------------------------------------------------------------

  /** The table has every profit, the daily figures are those of the clock's day, and the row holds the gates. */
  ghost predicate Recorded(w: World) {
    && Logged(w.rows, w.realized) && NoneAfter(w.realized, Day(w.clock))
    && DailyIs(w.engine.monitor.daily, w.realized, w.clock)
    && RowOf(Restored(FRESH.gates, w.row)) == RowOf(w.engine.monitor.gates)
  }

  ghost predicate SoundBooks(s: Setup, w: World, initialBalance: real) {
    BooksMirrored(s.terms, w.engine.books, initialBalance) && Tagged(s.magics, w.engine.books)
  }

  lemma {:induction false} BooksStaySound(
      s: Setup, sidOf: map<int, string>, trace: seq<World>, moves: seq<Move>, initialBalance: real, start: int, i: nat)
    requires History(s, sidOf, trace, moves, initialBalance, start) && i <= |moves|
    ensures SoundBooks(s, trace[i], initialBalance)
  {
    hide Sound, Mirrored, Legal, RehydratedMonitor, Next;
    if i == 0 {
      StartMirrors(s, initialBalance, start);
    } else {
      hide Tagged;
      BooksStaySound(s, sidOf, trace, moves, initialBalance, start, i - 1);
      var w, move := trace[i - 1], moves[i - 1];
      MovedBooks(s, sidOf, w, move);
      if move.Live? {
        NextBooks(s, w.engine, move.step, initialBalance);
        NextTagged(s, w.engine, move.step, initialBalance);
      }
    }
  }

  lemma MovedBooks(s: Setup, sidOf: map<int, string>, w: World, move: Move)
    requires Legal(w, move)
    ensures move.Live? ==>
      Enabled(w.engine, move.step) && After(s, sidOf, w, move).engine == Next(s, w.engine, move.step)
    ensures move.Restarted? ==> After(s, sidOf, w, move).engine.books == w.engine.books
    ensures move.Restarted? ==> After(s, sidOf, w, move).engine.delivered == w.engine.delivered
  {
    hide Next, RehydratedMonitor;
  }

  /** A step changes the daily figures and the gates through the monitor's handlers alone. */
  lemma StepEffect(s: Setup, e: Engine, step: Step)
    requires Enabled(e, step)
    ensures
      var m, m' := e.monitor, Next(s, e, step).monitor;
      var r := RealizedIn(e, step);
      && (r.Some? ==>
            && m'.gates == m.gates
            && m'.daily == AddPnl(Roll(m.daily, m.balance, r.value.at), r.value.symbol, r.value.pnl))
      && (r.None? && ReadingOf(e, step).Some? ==>
            && m'.gates == m.gates
            && (m'.daily == m.daily || m'.daily == Roll(m.daily, m.balance, ReadingOf(e, step).value)))
      && (r.None? && ReadingOf(e, step).None? && !step.Snapshotted? ==> m'.daily == m.daily)
      && (step.Snapshotted? ==> m'.daily == DailyAfter(m.daily, m.needsOpeningBalance, step.snapshot))
      && (!step.Snapshotted? && !step.KillSwitchReset? && !step.ProfitLockReset? ==> m'.gates == m.gates)
  {
    hide CountFilled, CountClosed, GatesAfter, DailyAfter, Roll, AddPnl, Judge, Submit, RejectSignal, HandleClose,
      HandlePartialClose, HandleCancel, HandleModify, Apply, ResetKillSwitch, ResetProfitLock;
  }

  /** Whatever monitor follows the engine: its daily figures stay those of the profits realised on its day. */
  lemma DailyStep(s: Setup, e: Engine, step: Step, realized: seq<Realized>, clock: int)
    requires Enabled(e, step) && DailyIs(e.monitor.daily, realized, clock) && clock <= ClockAfter(e, step, clock)
    ensures DailyIs(Next(s, e, step).monitor.daily, RealizedAfter(e, step, realized), ClockAfter(e, step, clock))
  {
    hide Next, Roll, AddPnl, DailyAfter, DailyIs, Day, NoneAfter;
    var daily, balance, clock' := e.monitor.daily, e.monitor.balance, ClockAfter(e, step, clock);
    StepEffect(s, e, step);
    DailyLater(daily, realized, clock, clock');
    match RealizedIn(e, step)
    case Some(r) =>
      RollKeeps(daily, balance, realized, clock, r.at);
      AddKeeps(Roll(daily, balance, r.at), realized, r.symbol, r.pnl, r.at);
    case None =>
      if step.Snapshotted? {
        SnapshotKeepsDaily(e.monitor, realized, step.snapshot, clock);
      } else if ReadingOf(e, step).Some? {
        RollKeeps(daily, balance, realized, clock, clock');
        RolledIsDaily(Roll(daily, balance, clock'), realized, clock');
      }
  }

  lemma LiveRecorded(s: Setup, sidOf: map<int, string>, w: World, step: Step, stamped: int)
    requires Recorded(w) && Legal(w, Live(step, stamped))
    ensures Recorded(After(s, sidOf, w, Live(step, stamped)))
  {
    hide Next, Roll, AddPnl, DailyAfter, DailyIs, Day, NoneAfter;
    var w' := After(s, sidOf, w, Live(step, stamped));
    StepEffect(s, w.engine, step);
    DailyStep(s, w.engine, step, w.realized, w.clock);
    NoneAfterLater(w.realized, w.clock, w'.clock);
    if RealizedIn(w.engine, step).Some? {
      NoneAfterOneMore(w.realized, RealizedIn(w.engine, step).value);
    }
  }

  lemma NoneAfterLater(realized: seq<Realized>, before: int, now: int)
    requires NoneAfter(realized, Day(before)) && before <= now
    ensures NoneAfter(realized, Day(now))
  {
    hide Day;
    DayMonotone(before, now);
  }

  lemma NoneAfterOneMore(realized: seq<Realized>, r: Realized)
    requires NoneAfter(realized, Day(r.at))
    ensures NoneAfter(realized + [r], Day(r.at))
  {
  }

  /** What a restart reads back: today's profits, and the gates as last saved. */
  lemma RestartReads(sidOf: map<int, string>, w: World, now: int, tickets: seq<nat>, pnlBySymbol: map<string, real>)
    requires Recorded(w) && Legal(w, Restarted(now, tickets, pnlBySymbol))
    ensures
      var m := w.engine.monitor;
      var restarted := RehydratedMonitor(sidOf, w, now, tickets, pnlBySymbol);
      var today := Roll(m.daily, m.balance, now);
      && RowOf(restarted.gates) == RowOf(m.gates) == RowOf(Restored(FRESH.gates, w.row))
      && restarted.daily.anchor == Some(now) && restarted.daily.pnl == today.pnl == SumOn(w.realized, Day(now))
      && forall symbol ::
           && GetOr(restarted.daily.pnlBySymbol, symbol, 0.0) == GetOr(today.pnlBySymbol, symbol, 0.0)
           && GetOr(restarted.daily.pnlBySymbol, symbol, 0.0) == SumOnFor(w.realized, symbol, Day(now))
  {
    hide Day, Roll, Midnight, DailyIs, Logged, NoneAfter, CountAll, OpenList;
    NoneAfterLater(w.realized, w.clock, now);
    RollKeeps(w.engine.monitor.daily, w.engine.monitor.balance, w.realized, w.clock, now);
    LogSums(w.rows, w.realized, now);
  }

  lemma RestartRecorded(
      s: Setup, sidOf: map<int, string>, w: World, now: int, tickets: seq<nat>, pnlBySymbol: map<string, real>)
    requires Recorded(w) && Legal(w, Restarted(now, tickets, pnlBySymbol))
    ensures Recorded(After(s, sidOf, w, Restarted(now, tickets, pnlBySymbol)))
  {
    hide Day, Roll, RehydratedMonitor, Logged, NoneAfter, DailyIs;
    RestartReads(sidOf, w, now, tickets, pnlBySymbol);
    NoneAfterLater(w.realized, w.clock, now);
    RolledIsDaily(RehydratedMonitor(sidOf, w, now, tickets, pnlBySymbol).daily, w.realized, now);
  }

  /** Through every life and restart: no profit is missing from the table, the daily figures are those of the day,
      and the saved row is the state of the gates. */
  lemma {:induction false} AlwaysRecorded(
      s: Setup, sidOf: map<int, string>, trace: seq<World>, moves: seq<Move>, initialBalance: real, start: int, i: nat)
    requires History(s, sidOf, trace, moves, initialBalance, start) && i <= |moves|
    ensures Recorded(trace[i])
  {
    hide Recorded, Legal, After;
    if i == 0 {
      BornRecorded(initialBalance, start);
    } else {
      AlwaysRecorded(s, sidOf, trace, moves, initialBalance, start, i - 1);
      match moves[i - 1]
      case Live(step, stamped) => LiveRecorded(s, sidOf, trace[i - 1], step, stamped);
      case Restarted(now, tickets, pnlBySymbol) =>
        RestartRecorded(s, sidOf, trace[i - 1], now, tickets, pnlBySymbol);
    }
  }

  lemma BornRecorded(initialBalance: real, start: int)
    ensures Recorded(Birth(initialBalance, start))
  {
    NothingRealized(FRESH.daily, start);
  }

  /** At each restart before `i`, every strategy with an open position won its tag. */
  ghost predicate OwnersWonUntil(s: Setup, sidOf: map<int, string>, trace: seq<World>, moves: seq<Move>, i: nat)
    requires i <= |moves| < |trace|
  {
    forall j :: 0 <= j < i && moves[j].Restarted? ==> OpenOwnersWin(s.magics, sidOf, trace[j].engine.books)
  }

  /** Then in all those lives the monitor mirrors the broker. */
  lemma {:induction false} LivesMirror(
      s: Setup, sidOf: map<int, string>, trace: seq<World>, moves: seq<Move>, initialBalance: real, start: int, i: nat)
    requires History(s, sidOf, trace, moves, initialBalance, start) && i <= |moves| && Reverses(sidOf, s.magics)
    requires OwnersWonUntil(s, sidOf, trace, moves, i)
    ensures Mirrors(s, trace[i].engine, initialBalance)
  {
    hide Mirrors, Legal, After, Next, OpenOwnersWin, Reverses;
    if i == 0 {
      StartMirrors(s, initialBalance, start);
    } else {
      LivesMirror(s, sidOf, trace, moves, initialBalance, start, i - 1);
      var w, move := trace[i - 1], moves[i - 1];
      MovedBooks(s, sidOf, w, move);
      if move.Live? {
        NextKeeps(s, w.engine, move.step, initialBalance);
      } else {
        BooksStaySound(s, sidOf, trace, moves, initialBalance, start, i - 1);
        RestartMirrors(s, sidOf, w, move.now, move.tickets, move.pnlBySymbol, initialBalance);
      }
    }
  }

  lemma PromptAgrees(s: Setup, e: Engine, initialBalance: real)
    requires Mirrors(s, e, initialBalance) && e.delivered == |e.books.events|
    ensures Consistent(e.books) && Agrees(e.monitor.counts, e.books)
  {
    hide TicketsAccounted, LedgerBalances, Consistent, Agrees, CountsOf, SameCounts;
    assert e.books.events[..e.delivered] == e.books.events;
    SameCountsAgree(e.monitor.counts, CountsOf(e.books.events), e.books);
  }

  lemma RestartMirrors(
      s: Setup, sidOf: map<int, string>, w: World, now: int, tickets: seq<nat>, pnlBySymbol: map<string, real>,
      initialBalance: real)
    requires Mirrors(s, w.engine, initialBalance) && Legal(w, Restarted(now, tickets, pnlBySymbol))
    requires Tagged(s.magics, w.engine.books) && Reverses(sidOf, s.magics)
    requires OpenOwnersWin(s.magics, sidOf, w.engine.books)
    ensures Mirrors(s, After(s, sidOf, w, Restarted(now, tickets, pnlBySymbol)).engine, initialBalance)
  {
    hide BooksMirrored, Consistent, Agrees, CountsOf, SameCounts, Tagged, Reverses, OpenOwnersWin, CountAll, OpenList,
      Midnight;
    var e := w.engine;
    PromptAgrees(s, e, initialBalance);
    CountsSurvive(s.magics, e.books, sidOf, tickets, e.monitor.counts);
    SameCountsChain(CountAll(OpenList(e.books, sidOf, tickets)), e.monitor.counts,
                    CountsOf(e.books.events[..e.delivered]));
  }

  lemma SameCountsChain(a: Counts, b: Counts, c: Counts)
    requires SameCounts(a, b) && SameCounts(b, c)
    ensures SameCounts(a, c)
  {
  }

  /** The second restart, the third, and every later one: the profits of the day, peak and switches are those of the
      monitor that ran until then, always. */
  lemma EveryRestartKeepsMoney(
      s: Setup, sidOf: map<int, string>, trace: seq<World>, moves: seq<Move>, initialBalance: real, start: int, i: nat)
    requires History(s, sidOf, trace, moves, initialBalance, start) && i < |moves| && moves[i].Restarted?
    ensures
      var live, restarted := trace[i].engine.monitor, trace[i + 1].engine.monitor;
      var today := Roll(live.daily, live.balance, moves[i].now);
      && RowOf(restarted.gates) == RowOf(live.gates) && restarted.daily.pnl == today.pnl
      && forall symbol :: GetOr(restarted.daily.pnlBySymbol, symbol, 0.0) == GetOr(today.pnlBySymbol, symbol, 0.0)
  {
    hide Recorded, RehydratedMonitor, Roll;
    AlwaysRecorded(s, sidOf, trace, moves, initialBalance, start, i);
    RestartReads(sidOf, trace[i], moves[i].now, moves[i].tickets, moves[i].pnlBySymbol);
  }

  /** And so are the counts: per symbol always, and the ticket map, hence all of them, exactly when every strategy
      with an open position wins its tag; provided that was so at the restarts before. */
  lemma EveryRestartKeepsCounts(
      s: Setup, sidOf: map<int, string>, trace: seq<World>, moves: seq<Move>, initialBalance: real, start: int, i: nat)
    requires History(s, sidOf, trace, moves, initialBalance, start) && i < |moves| && moves[i].Restarted?
    requires Reverses(sidOf, s.magics) && OwnersWonUntil(s, sidOf, trace, moves, i)
    ensures
      var live, restarted := trace[i].engine.monitor.counts, trace[i + 1].engine.monitor.counts;
      var win := OpenOwnersWin(s.magics, sidOf, trace[i].engine.books);
      && (restarted.owner == live.owner <==> win) && (win ==> SameCounts(restarted, live))
      && forall symbol :: GetOr(restarted.bySymbol, symbol, 0) == GetOr(live.bySymbol, symbol, 0)
  {
    hide Mirrors, OpenOwnersWin, Reverses, Tagged, SameCounts, CountAll, OpenList, BooksMirrored, Consistent, Agrees,
      Midnight;
    LivesMirror(s, sidOf, trace, moves, initialBalance, start, i);
    BooksStaySound(s, sidOf, trace, moves, initialBalance, start, i);
    var e := trace[i].engine;
    PromptAgrees(s, e, initialBalance);
    CountsSurvive(s.magics, e.books, sidOf, moves[i].tickets, e.monitor.counts);
  }

  // ---- The same on the objects ------------------------------------------------------------------

  /** A full close, handled by the monitor and by the persister. */
  method DeliverClosed(
      monitor: RiskMonitor, persister: TradePersister, p: Position, pnl: real, price: real, now: int, stamped: int,
      ghost realized: seq<Realized>)
    requires Logged(persister.repo.rows, realized) && Day(stamped) == Day(now)
    modifies monitor, persister.repo
    ensures monitor.State() == OnClosed(old(monitor.State()), ACCOUNT, p.ticket, p.symbol, pnl, now)
    ensures persister.repo.rows == old(persister.repo.rows)
      + [RowFor(persister.strategyForMagic, p, p.volume, pnl, Some(price), stamped)]
    ensures Logged(persister.repo.rows, realized + [Realized(p.symbol, pnl, now)])
  {
    hide OnClosed, Day;
    monitor.HandleClosed(ACCOUNT, p.ticket, p.symbol, pnl, now);
    persister.OnClosed(p, pnl, Some(price), stamped);
  }

  /** A partial close, likewise. */
  method DeliverPartialClosed(
      monitor: RiskMonitor, persister: TradePersister, p: Position, volume: real, pnl: real, price: real, now: int,
      stamped: int, ghost realized: seq<Realized>)
    requires Logged(persister.repo.rows, realized) && Day(stamped) == Day(now)
    modifies monitor, persister.repo
    ensures monitor.State() == OnPartialClosed(old(monitor.State()), p.symbol, pnl, now)
    ensures persister.repo.rows == old(persister.repo.rows)
      + [RowFor(persister.strategyForMagic, p, volume, pnl, Some(price), stamped)]
    ensures Logged(persister.repo.rows, realized + [Realized(p.symbol, pnl, now)])
  {
    hide OnPartialClosed, Day;
    monitor.HandlePartialClosed(p.symbol, pnl, now);
    persister.OnPartialClosed(p, volume, pnl, Some(price), stamped);
  }

  /** The steps that may save the state row, on a monitor with a repository. */
  method SaveOn(monitor: RiskMonitor, step: Step)
    requires step.Snapshotted? || step.KillSwitchReset? || step.ProfitLockReset?
    requires monitor.repo != null
    modifies monitor, monitor.repo
    ensures monitor.repo.row == SavedRow(old(monitor.repo.row), old(monitor.GateState()), step, monitor.GateState())
  {
    match step
    case Snapshotted(s) => monitor.HandleSnapshot(s);
    case KillSwitchReset => monitor.ResetKill();
    case ProfitLockReset => monitor.ResetLock();
  }

  /** A restart: a new monitor over the old repository, rehydrated from the listing and the trade table. */
  method RestartMonitor(
      cfg: RiskConfig, stateRepo: RiskStateRepo, trades: TradeRepo, open: seq<OpenPosition>, now: int,
      ghost sidOf: map<int, string>, ghost w: World, ghost tickets: seq<nat>)
    returns (monitor: RiskMonitor, pnlBySymbol: map<string, real>)
    requires w.rows == trades.rows && w.row == stateRepo.row && Lists(w.engine.books, tickets)
    requires open == OpenList(w.engine.books, sidOf, tickets)
    ensures fresh(monitor) && monitor.cfg == cfg && monitor.repo == stateRepo
    ensures forall symbol :: GetOr(pnlBySymbol, symbol, 0.0) == SymbolTotalSince(trades.rows, symbol, Midnight(now))
    ensures monitor.State() == RehydratedMonitor(sidOf, w, now, tickets, pnlBySymbol)
  {
    hide CountAll, OpenList, Midnight;
    monitor := new RiskMonitor(cfg, stateRepo);
    var total: real;
    total, pnlBySymbol := trades.RealizedSince(Midnight(now));
    monitor.Rehydrate(open, total, pnlBySymbol, now);
  }
}
