/** Where the day's opening balance comes from, over any number of lives: the balance that some snapshot reported, less
    the profit of the day handled by then. What that makes of a restart, and of the daily-loss gate. */
module OpeningBalance {
  import opened Domain
  import opened UtcTime
  import opened SimBroker
  import opened BrokerRuns
  import opened EventLog
  import opened RiskMonitor
  import RiskRuns
  import opened OrderRouter
  import opened Engine
  import opened TradeLog
  import opened Restart
  import opened Lives

  /** The books that a snapshot reported, and how many profits had been realised when it was handled. */
  datatype Basis = Basis(books: Books, handled: nat)

  /** A monitor, the last snapshot of its life, and the one that its opening balance rests on. */
  datatype Watch = Watch(monitor: Monitor, seen: Option<Basis>, openedAt: Option<Basis>)

  /** The monitor that runs, and the one of the life before, had it run on. */
  datatype Marks = Marks(now: Watch, before: Option<Watch>)

  /** A watched monitor follows a step of the engine: the first snapshot and the first after a restart set the opening
      balance, and a new day takes the balance last seen, if there was one. */
  function WatchStep(s: Setup, w: Watch, e: Engine, step: Step, shown: Books, handled: nat): Watch
    requires Enabled(e, step)
  {
    var m, m' := w.monitor, Next(s, e.(monitor := w.monitor), step).monitor;
    if step.Snapshotted? then
      var basis := Some(Basis(shown, handled));
      Watch(m', basis, if m.daily.anchor.None? || m.needsOpeningBalance then basis else w.openedAt)
    else
      Watch(m', w.seen, if m'.daily.anchor != m.daily.anchor && w.seen.Some? then w.seen else w.openedAt)
  }

  function MarksAfterStep(s: Setup, marks: Marks, w: World, step: Step, shown: Books): Marks
    requires Enabled(w.engine, step)
  {
    Marks(WatchStep(s, marks.now, w.engine, step, shown, |w.realized|),
          if marks.before.None? then None
          else Some(WatchStep(s, marks.before.value, w.engine, step, shown, |w.realized|)))
  }

  /** The snapshot handled in move `i` was taken of the books in state `taken(i)`. */
  ghost predicate SnapshotsReport(trace: seq<World>, moves: seq<Move>, taken: nat -> nat)
    requires |trace| == |moves| + 1
  {
    forall i :: 0 <= i < |moves| ==>
      && taken(i) <= i
      && (moves[i].Live? && moves[i].step.Snapshotted? ==>
            moves[i].step.snapshot.balance == trace[taken(i)].engine.books.balance)
  }

  ghost predicate Playable(trace: seq<World>, moves: seq<Move>, taken: nat -> nat) {
    && |trace| == |moves| + 1
    && forall i :: 0 <= i < |moves| ==>
         taken(i) <= i && (moves[i].Live? ==> Enabled(trace[i].engine, moves[i].step))
  }

  ghost function MarksAt(s: Setup, trace: seq<World>, moves: seq<Move>, taken: nat -> nat, i: nat): Marks
    requires Playable(trace, moves, taken) && i <= |moves|
  {
    if i == 0 then Marks(Watch(FRESH, None, None), None)
    else
      var marks, w := MarksAt(s, trace, moves, taken, i - 1), trace[i - 1];
      match moves[i - 1]
      case Live(step, _) => MarksAfterStep(s, marks, w, step, trace[taken(i - 1)].engine.books)
      case Restarted(_, _, _) => Marks(Watch(trace[i].engine.monitor, None, None), Some(marks.now))
  }

  // ---- The figure and its basis ------------------------------------------------------------------

  /** The balance reported, less the profit of that day handled by then. */
  function FigureOf(basis: Basis, realized: seq<Realized>, day: int): real
    requires basis.handled <= |realized|
  {
    basis.books.balance - SumOn(realized[..basis.handled], day)
  }

  ghost predicate Explained(w: Watch, realized: seq<Realized>, clock: int) {
    var d := w.monitor.daily;
    && DailyIs(d, realized, clock)
    && (w.seen.Some? <==> w.monitor.balance.Some?)
    && (w.seen.Some? ==> w.monitor.balance.value == w.seen.value.books.balance && w.seen.value.handled <= |realized|)
    && (w.openedAt.None? ==> d.openingBalance == 0.0)
    && (w.openedAt.Some? ==>
          && w.seen.Some? && w.openedAt.value.handled <= |realized| && d.anchor.Some?
          && d.openingBalance == FigureOf(w.openedAt.value, realized, Day(d.anchor.value)))
  }

  lemma BalanceStep(s: Setup, e: Engine, step: Step)
    requires Enabled(e, step)
    ensures
      var m, m' := e.monitor, Next(s, e, step).monitor;
      && m'.balance == (if step.Snapshotted? then Some(step.snapshot.balance) else m.balance)
      && m'.needsOpeningBalance == (m.needsOpeningBalance && (step.Snapshotted? ==> m.daily.anchor.None?))
  {
    hide CountFilled, CountClosed, GatesAfter, DailyAfter, Roll, AddPnl, Judge, Submit, RejectSignal, HandleClose,
      HandlePartialClose, HandleCancel, HandleModify, Apply, ResetKillSwitch, ResetProfitLock;
  }

  /** Nothing was realised yet on a day that the monitor has only just reached. */
  lemma NothingYet(d: Daily, realized: seq<Realized>, n: nat, clock: int, now: int)
    requires DailyIs(d, realized, clock) && clock <= now && n <= |realized|
    requires d.anchor.None? || Day(d.anchor.value) != Day(now)
    ensures SumOn(realized[..n], Day(now)) == 0.0
  {
    hide Day;
    DayMonotone(clock, now);
    if realized != [] {
      var day := Day(d.anchor.value);
      assert forall r :: r in realized[..n] ==> r in realized;
      NothingBeyond(realized[..n], day, Day(now));
    }
  }

  /** Rolling to a new day rests the opening balance on the last snapshot. */
  lemma RollExplains(w: Watch, realized: seq<Realized>, clock: int, now: int)
    requires Explained(w, realized, clock) && clock <= now
    ensures
      var d := Roll(w.monitor.daily, w.monitor.balance, now);
      var openedAt := if d.anchor != w.monitor.daily.anchor && w.seen.Some? then w.seen else w.openedAt;
      && d.anchor.Some?
      && (openedAt.None? ==> d.openingBalance == 0.0)
      && (openedAt.Some? ==>
            && openedAt.value.handled <= |realized|
            && d.openingBalance == FigureOf(openedAt.value, realized, Day(d.anchor.value)))
  {
    hide Day, DailyIs;
    var d := w.monitor.daily;
    if d.anchor.None? || Day(d.anchor.value) != Day(now) {
      if w.seen.Some? {
        NothingYet(d, realized, w.seen.value.handled, clock, now);
      }
    }
  }

  lemma FigureStays(basis: Basis, realized: seq<Realized>, more: seq<Realized>, day: int)
    requires basis.handled <= |realized| && realized <= more
    ensures FigureOf(basis, more, day) == FigureOf(basis, realized, day)
  {
    assert more[..basis.handled] == realized[..basis.handled];
  }

  /** A snapshot that sets the opening balance backs out the profit of the day. */
  lemma SnapshotExplains(w: Watch, realized: seq<Realized>, clock: int, snapshot: Snapshot, shown: Books)
    requires Explained(w, realized, clock) && snapshot.balance == shown.balance
    requires w.monitor.daily.anchor.None? || w.monitor.needsOpeningBalance
    ensures
      var d := DailyAfter(w.monitor.daily, w.monitor.needsOpeningBalance, snapshot);
      d.anchor.Some? && d.openingBalance == FigureOf(Basis(shown, |realized|), realized, Day(d.anchor.value))
  {
    hide Day;
    assert realized[..|realized|] == realized;
  }

  lemma WatchKeeps(s: Setup, w: Watch, e: Engine, step: Step, shown: Books, realized: seq<Realized>, clock: int)
    requires Enabled(e, step) && Explained(w, realized, clock) && clock <= ClockAfter(e, step, clock)
    requires step.Snapshotted? ==> step.snapshot.balance == shown.balance
    ensures Explained(WatchStep(s, w, e, step, shown, |realized|), RealizedAfter(e, step, realized),
                      ClockAfter(e, step, clock))
  {
    hide Next, DailyIs, Day, Roll, SumOn, FigureOf, DailyAfter;
    var followed, w' := e.(monitor := w.monitor), WatchStep(s, w, e, step, shown, |realized|);
    var d', more := w'.monitor.daily, RealizedAfter(e, step, realized);
    DailyStep(s, followed, step, realized, clock);
    BalanceStep(s, followed, step);
    StepEffect(s, followed, step);
    if step.Snapshotted? {
      if w.monitor.daily.anchor.None? || w.monitor.needsOpeningBalance {
        SnapshotExplains(w, realized, clock, step.snapshot, shown);
      } else {
        assert d' == w.monitor.daily by { LaterSnapshot(w.monitor.daily, step.snapshot); }
      }
    } else if ReadingOf(e, step).Some? {
      RollExplains(w, realized, clock, ReadingOf(e, step).value);
      if w'.openedAt.Some? {
        FigureStays(w'.openedAt.value, realized, more, Day(d'.anchor.value));
      }
    }
  }

  lemma LaterSnapshot(d: Daily, snapshot: Snapshot)
    requires d.anchor.Some?
    ensures DailyAfter(d, false, snapshot) == d
  {
  }

  // ---- Over any history --------------------------------------------------------------------------

  ghost predicate Balanced(t: Terms, basis: Option<Basis>, initialBalance: real) {
    basis.Some? ==> LedgerBalances(t, basis.value.books, initialBalance)
  }

  ghost predicate Rests(t: Terms, w: Watch, realized: seq<Realized>, clock: int, initialBalance: real) {
    Explained(w, realized, clock) && Balanced(t, w.seen, initialBalance) && Balanced(t, w.openedAt, initialBalance)
  }

  lemma RestsOn(
      s: Setup, w: Watch, e: Engine, step: Step, shown: Books, realized: seq<Realized>, clock: int,
      initialBalance: real)
    requires Enabled(e, step) && Rests(s.terms, w, realized, clock, initialBalance)
    requires clock <= ClockAfter(e, step, clock) && LedgerBalances(s.terms, shown, initialBalance)
    requires step.Snapshotted? ==> step.snapshot.balance == shown.balance
    ensures Rests(s.terms, WatchStep(s, w, e, step, shown, |realized|), RealizedAfter(e, step, realized),
                  ClockAfter(e, step, clock), initialBalance)
  {
    hide Next, Explained, LedgerBalances;
    WatchKeeps(s, w, e, step, shown, realized, clock);
  }

  lemma HistoryIsPlayable(
      s: Setup, sidOf: map<int, string>, trace: seq<World>, moves: seq<Move>, initialBalance: real, start: int,
      taken: nat -> nat)
    requires History(s, sidOf, trace, moves, initialBalance, start) && SnapshotsReport(trace, moves, taken)
    ensures Playable(trace, moves, taken)
  {
    hide After, Enabled;
  }

  lemma BooksBalance(
      s: Setup, sidOf: map<int, string>, trace: seq<World>, moves: seq<Move>, initialBalance: real, start: int, i: nat)
    requires History(s, sidOf, trace, moves, initialBalance, start) && i <= |moves|
    ensures LedgerBalances(s.terms, trace[i].engine.books, initialBalance)
  {
    hide History, LedgerBalances, Mirrored, Consistent, TicketsAccounted, Tagged;
    BooksStaySound(s, sidOf, trace, moves, initialBalance, start, i);
  }

  ghost predicate MarksRest(t: Terms, marks: Marks, w: World, initialBalance: real) {
    && marks.now.monitor == w.engine.monitor && Rests(t, marks.now, w.realized, w.clock, initialBalance)
    && (marks.before.Some? ==> Rests(t, marks.before.value, w.realized, w.clock, initialBalance))
  }

  lemma LiveRests(
      s: Setup, sidOf: map<int, string>, marks: Marks, w: World, step: Step, stamped: int, shown: Books,
      initialBalance: real)
    requires MarksRest(s.terms, marks, w, initialBalance) && Legal(w, Live(step, stamped))
    requires LedgerBalances(s.terms, shown, initialBalance)
    requires step.Snapshotted? ==> step.snapshot.balance == shown.balance
    ensures MarksRest(s.terms, MarksAfterStep(s, marks, w, step, shown), After(s, sidOf, w, Live(step, stamped)),
                      initialBalance)
  {
    hide Rests, Next, LedgerBalances;
    RestsOn(s, marks.now, w.engine, step, shown, w.realized, w.clock, initialBalance);
    if marks.before.Some? {
      RestsOn(s, marks.before.value, w.engine, step, shown, w.realized, w.clock, initialBalance);
    }
    assert w.engine.(monitor := w.engine.monitor) == w.engine;
  }

  lemma RestartRests(
      s: Setup, sidOf: map<int, string>, marks: Marks, w: World, now: int, tickets: seq<nat>,
      pnlBySymbol: map<string, real>, initialBalance: real)
    requires MarksRest(s.terms, marks, w, initialBalance) && Legal(w, Restarted(now, tickets, pnlBySymbol))
    requires Recorded(After(s, sidOf, w, Restarted(now, tickets, pnlBySymbol)))
    ensures
      var w' := After(s, sidOf, w, Restarted(now, tickets, pnlBySymbol));
      MarksRest(s.terms, Marks(Watch(w'.engine.monitor, None, None), Some(marks.now)), w', initialBalance)
  {
    hide Rests, Recorded, CountAll, OpenList, Midnight, Restored;
    var w' := After(s, sidOf, w, Restarted(now, tickets, pnlBySymbol));
    RestsLater(s.terms, marks.now, w.realized, w.clock, now, initialBalance);
    RehydratedRests(s.terms, w', initialBalance);
  }

  /** In every state of every history: the opening balance of the monitor, and of the one that missed the last restart,
      is what its basis reported less the day's profit handled by then, and 0.0 without a basis. */
  lemma {:induction false} OpeningIsExplained(
      s: Setup, sidOf: map<int, string>, trace: seq<World>, moves: seq<Move>, initialBalance: real, start: int,
      taken: nat -> nat, i: nat)
    requires History(s, sidOf, trace, moves, initialBalance, start) && SnapshotsReport(trace, moves, taken)
    requires i <= |moves|
    ensures Playable(trace, moves, taken)
    ensures MarksRest(s.terms, MarksAt(s, trace, moves, taken, i), trace[i], initialBalance)
  {
    hide MarksRest, WatchStep, LedgerBalances, Legal, After, Enabled;
    HistoryIsPlayable(s, sidOf, trace, moves, initialBalance, start, taken);
    if i == 0 {
      BornExplained(s.terms, initialBalance, start);
    } else {
      OpeningIsExplained(s, sidOf, trace, moves, initialBalance, start, taken, i - 1);
      var marks, w := MarksAt(s, trace, moves, taken, i - 1), trace[i - 1];
      match moves[i - 1]
      case Live(step, stamped) =>
        BooksBalance(s, sidOf, trace, moves, initialBalance, start, taken(i - 1));
        LiveRests(s, sidOf, marks, w, step, stamped, trace[taken(i - 1)].engine.books, initialBalance);
      case Restarted(now, tickets, pnlBySymbol) =>
        AlwaysRecorded(s, sidOf, trace, moves, initialBalance, start, i);
        RestartRests(s, sidOf, marks, w, now, tickets, pnlBySymbol, initialBalance);
    }
  }

  lemma BornExplained(t: Terms, initialBalance: real, start: int)
    ensures MarksRest(t, Marks(Watch(FRESH, None, None), None), Birth(initialBalance, start), initialBalance)
  {
    NothingRealized(FRESH.daily, start);
  }

  lemma RestsLater(t: Terms, w: Watch, realized: seq<Realized>, clock: int, now: int, initialBalance: real)
    requires Rests(t, w, realized, clock, initialBalance) && clock <= now
    ensures Rests(t, w, realized, now, initialBalance)
  {
    hide DailyIs, Balanced;
    DailyLater(w.monitor.daily, realized, clock, now);
  }

  lemma RehydratedRests(t: Terms, w: World, initialBalance: real)
    requires Recorded(w) && w.engine.monitor.balance.None? && w.engine.monitor.daily.openingBalance == 0.0
    ensures Rests(t, Watch(w.engine.monitor, None, None), w.realized, w.clock, initialBalance)
  {
    hide DailyIs, Logged, NoneAfter;
  }

  // ---- When two figures agree ----------------------------------------------------------------------

  /** The opening commission that open positions hold back from the balance. */
  function Held(t: Terms, b: Books): real {
    t.Commission(OpenVolume(b.positions, b.nextTicket))
  }

  function SumAll(realized: seq<Realized>): real {
    if realized == [] then 0.0 else SumAll(realized[..|realized| - 1]) + realized[|realized| - 1].pnl
  }

  /** The profit handled by then that belongs to other days. */
  function OtherDays(basis: Basis, realized: seq<Realized>, day: int): real
    requires basis.handled <= |realized|
  {
    SumAll(realized[..basis.handled]) - SumOn(realized[..basis.handled], day)
  }

  /** The profit that the snapshot saw booked, less what the monitor had handled when the snapshot came. */
  function InFlight(basis: Basis, realized: seq<Realized>): real
    requires basis.handled <= |realized|
  {
    SumPnl(basis.books.trades) - SumAll(realized[..basis.handled])
  }

  /** What the basis has of profit that does not count as the day's. */
  function EarlierProfit(basis: Basis, realized: seq<Realized>, day: int): real
    requires basis.handled <= |realized|
  {
    OtherDays(basis, realized, day) + InFlight(basis, realized)
  }

  lemma DeliveredProfit(e: Engine, step: Step)
    requires step.Delivered? && e.delivered < |e.books.events|
    ensures
      var r := RealizedIn(e, step);
      ProfitOf(e.books.events[e.delivered]) == if r.Some? then r.value.pnl else 0.0
  {
  }

  /** What was realised is what the delivered events announced. */
  ghost predicate ProfitHandled(w: World) {
    && w.engine.delivered <= |w.engine.books.events|
    && SumAll(w.realized) == ProfitIn(w.engine.books.events[..w.engine.delivered])
  }

  lemma LiveHandlesProfit(
      s: Setup, sidOf: map<int, string>, w: World, step: Step, stamped: int, initialBalance: real)
    requires ProfitHandled(w) && Legal(w, Live(step, stamped))
    requires BooksMirrored(s.terms, w.engine.books, initialBalance)
    ensures ProfitHandled(After(s, sidOf, w, Live(step, stamped)))
  {
    hide BooksMirrored, ProfitIn;
    var w' := After(s, sidOf, w, Live(step, stamped));
    var events, d := w.engine.books.events, w.engine.delivered;
    NextBooks(s, w.engine, step, initialBalance);
    DeliveredIndex(s, w.engine, step);
    if step.Delivered? {
      assert w'.engine.books.events[..d + 1] == events[..d] + [events[d]];
      ProfitAppend(events[..d], events[d]);
      DeliveredProfit(w.engine, step);
      assert RealizedIn(w.engine, step).Some? ==> w'.realized[..|w.realized|] == w.realized;
    } else {
      assert w'.engine.books.events[..d] == events[..d];
    }
  }

  lemma DeliveredIndex(s: Setup, e: Engine, step: Step)
    requires Enabled(e, step)
    ensures Next(s, e, step).delivered == e.delivered + Count(step.Delivered?)
    ensures step.Delivered? ==> Next(s, e, step).books == e.books
  {
    hide CountFilled, CountClosed, GatesAfter, DailyAfter, Roll, AddPnl, Judge, Submit, RejectSignal, HandleClose,
      HandlePartialClose, HandleCancel, HandleModify, Apply, ResetKillSwitch, ResetProfitLock;
  }

  lemma {:induction false} ProfitIsHandled(
      s: Setup, sidOf: map<int, string>, trace: seq<World>, moves: seq<Move>, initialBalance: real, start: int, i: nat)
    requires History(s, sidOf, trace, moves, initialBalance, start) && i <= |moves|
    ensures ProfitHandled(trace[i])
  {
    hide ProfitHandled, BooksMirrored, Legal, After, Next, Tagged;
    if i == 0 {
      NoProfitYet(initialBalance, start);
    } else {
      ProfitIsHandled(s, sidOf, trace, moves, initialBalance, start, i - 1);
      BooksStaySound(s, sidOf, trace, moves, initialBalance, start, i - 1);
      match moves[i - 1]
      case Live(step, stamped) => LiveHandlesProfit(s, sidOf, trace[i - 1], step, stamped, initialBalance);
      case Restarted(_, _, _) => RestartHandlesNothing(s, sidOf, trace[i - 1], moves[i - 1]);
    }
  }

  lemma NoProfitYet(initialBalance: real, start: int)
    ensures ProfitHandled(Birth(initialBalance, start))
  {
  }

  lemma RestartHandlesNothing(s: Setup, sidOf: map<int, string>, w: World, move: Move)
    requires move.Restarted? && Legal(w, move) && ProfitHandled(w)
    ensures ProfitHandled(After(s, sidOf, w, move))
  {
    hide RehydratedMonitor;
  }

  /** In flight is exactly what the events announce that were published by then and handled only later. */
  lemma InFlightIsUndelivered(
      s: Setup, sidOf: map<int, string>, trace: seq<World>, moves: seq<Move>, initialBalance: real, start: int,
      taken: nat, at: nat)
    requires History(s, sidOf, trace, moves, initialBalance, start) && taken <= at <= |moves|
    ensures
      var basis := Basis(trace[taken].engine.books, |trace[at].realized|);
      var later := trace[at].engine;
      && later.delivered <= |later.books.events|
      && InFlight(basis, trace[at].realized)
         == ProfitIn(basis.books.events) - ProfitIn(later.books.events[..later.delivered])
      && (taken == at ==> InFlight(basis, trace[at].realized) == ProfitIn(later.books.events[later.delivered..]))
  {
    hide Legal, After, Sound, Told, Agrees, Tagged, SumPnl, SumAll, ProfitIn;
    ProfitIsHandled(s, sidOf, trace, moves, initialBalance, start, at);
    BooksStaySound(s, sidOf, trace, moves, initialBalance, start, taken);
    var realized, e := trace[at].realized, trace[at].engine;
    assert realized[..|realized|] == realized;
    assert e.books.events[..e.delivered] + e.books.events[e.delivered..] == e.books.events;
    ProfitInBoth(e.books.events[..e.delivered], e.books.events[e.delivered..]);
  }

  function DayOf(w: Watch): int {
    if w.monitor.daily.anchor.Some? then Day(w.monitor.daily.anchor.value) else 0
  }

  ghost predicate HandledBy(basis: Option<Basis>, n: nat) {
    basis.Some? ==> basis.value.handled <= n
  }

  /** With two bases: the profit of other days and the profit in flight have together grown by as much as the commission
      held back. With one: the balance that it reported is the day's profit handled by then. */
  ghost predicate SameOpening(t: Terms, w: Watch, v: Watch, realized: seq<Realized>, initialBalance: real)
    requires HandledBy(w.openedAt, |realized|) && HandledBy(v.openedAt, |realized|)
  {
    match (w.openedAt, v.openedAt)
    case (None, None) => true
    case (Some(a), None) => initialBalance + EarlierProfit(a, realized, DayOf(w)) == Held(t, a.books)
    case (None, Some(b)) => initialBalance + EarlierProfit(b, realized, DayOf(v)) == Held(t, b.books)
    case (Some(a), Some(b)) =>
      EarlierProfit(a, realized, DayOf(w)) - EarlierProfit(b, realized, DayOf(v))
      == Held(t, a.books) - Held(t, b.books)
  }

  lemma FigureByLedger(t: Terms, basis: Basis, realized: seq<Realized>, day: int, initialBalance: real)
    requires basis.handled <= |realized| && LedgerBalances(t, basis.books, initialBalance)
    ensures FigureOf(basis, realized, day)
         == initialBalance + EarlierProfit(basis, realized, day) - Held(t, basis.books)
  {
    hide SumOn, SumPnl, OpenVolume, Terms.Commission;
  }

  lemma FiguresAgreeIff(t: Terms, w: Watch, v: Watch, realized: seq<Realized>, clock: int, initialBalance: real)
    requires Rests(t, w, realized, clock, initialBalance) && Rests(t, v, realized, clock, initialBalance)
    ensures HandledBy(w.openedAt, |realized|) && HandledBy(v.openedAt, |realized|)
    ensures w.monitor.daily.openingBalance == v.monitor.daily.openingBalance
       <==> SameOpening(t, w, v, realized, initialBalance)
  {
    hide DailyIs, LedgerBalances, FigureOf, EarlierProfit, Held, Day;
    if w.openedAt.Some? {
      FigureByLedger(t, w.openedAt.value, realized, DayOf(w), initialBalance);
    }
    if v.openedAt.Some? {
      FigureByLedger(t, v.openedAt.value, realized, DayOf(v), initialBalance);
    }
  }

  /** After a restart, at any time: the opening balance is the one that the monitor would have had without it exactly
      when the two bases say so. */
  lemma OpeningBalancesAgreeIff(
      s: Setup, sidOf: map<int, string>, trace: seq<World>, moves: seq<Move>, initialBalance: real, start: int,
      taken: nat -> nat, i: nat)
    requires History(s, sidOf, trace, moves, initialBalance, start) && SnapshotsReport(trace, moves, taken)
    requires i <= |moves|
    ensures Playable(trace, moves, taken)
    ensures
      var marks, w := MarksAt(s, trace, moves, taken, i), trace[i];
      marks.now.monitor == w.engine.monitor &&
      (marks.before.Some? ==>
         var before := marks.before.value;
         && HandledBy(marks.now.openedAt, |w.realized|) && HandledBy(before.openedAt, |w.realized|)
         && (w.engine.monitor.daily.openingBalance == before.monitor.daily.openingBalance
             <==> SameOpening(s.terms, marks.now, before, w.realized, initialBalance)))
  {
    hide Rests, SameOpening, History, MarksAt, HandledBy;
    OpeningIsExplained(s, sidOf, trace, moves, initialBalance, start, taken, i);
    var marks, w := MarksAt(s, trace, moves, taken, i), trace[i];
    if marks.before.Some? {
      FiguresAgreeIff(s.terms, marks.now, marks.before.value, w.realized, w.clock, initialBalance);
    }
  }

  /** The snapshot right after a restart: the new monitor takes what was reported less the day's profit in the table,
      the old one would have taken a new figure only without an anchor or after a restart of its own. */
  lemma FirstSnapshotAfterRestart(
      s: Setup, sidOf: map<int, string>, trace: seq<World>, moves: seq<Move>, initialBalance: real, start: int,
      taken: nat -> nat, i: nat, snapshot: Snapshot)
    requires History(s, sidOf, trace, moves, initialBalance, start) && SnapshotsReport(trace, moves, taken)
    requires i + 2 <= |moves| && moves[i].Restarted?
    requires moves[i + 1].Live? && moves[i + 1].step == Snapshotted(snapshot)
    ensures Playable(trace, moves, taken)
    ensures
      var marks, live := MarksAt(s, trace, moves, taken, i + 2), trace[i].engine.monitor;
      && marks.before.Some? && marks.now.monitor == trace[i + 2].engine.monitor
      && marks.before.value.monitor.daily == DailyAfter(live.daily, live.needsOpeningBalance, snapshot)
      && marks.now.monitor.daily.openingBalance
         == snapshot.balance - TotalSince(trace[i].rows, Midnight(moves[i].now))
  {
    hide Next, DailyAfter, GatesAfter, Legal, CountAll, OpenList, Midnight, TotalSince, Restored, MarksRest;
    OpeningIsExplained(s, sidOf, trace, moves, initialBalance, start, taken, i);
    OpeningIsExplained(s, sidOf, trace, moves, initialBalance, start, taken, i + 2);
    MarkedMonitor(s, trace, moves, taken, i, initialBalance);
    MarkedMonitor(s, trace, moves, taken, i + 2, initialBalance);
    var marks := MarksAt(s, trace, moves, taken, i + 1);
    var e := trace[i + 1].engine;
    assert marks == Marks(Watch(e.monitor, None, None), Some(MarksAt(s, trace, moves, taken, i).now));
    StepEffect(s, e, moves[i + 1].step);
    StepEffect(s, e.(monitor := trace[i].engine.monitor), moves[i + 1].step);
    assert trace[i + 2] == After(s, sidOf, trace[i + 1], moves[i + 1]);
    assert trace[i + 1] == After(s, sidOf, trace[i], moves[i]);
    BackedOut(e.monitor.daily, snapshot);
  }

  lemma MarkedMonitor(
      s: Setup, trace: seq<World>, moves: seq<Move>, taken: nat -> nat, i: nat, initialBalance: real)
    requires Playable(trace, moves, taken) && i <= |moves|
    requires MarksRest(s.terms, MarksAt(s, trace, moves, taken, i), trace[i], initialBalance)
    ensures MarksAt(s, trace, moves, taken, i).now.monitor == trace[i].engine.monitor
  {
    hide MarksAt, Rests;
  }

  lemma BackedOut(d: Daily, snapshot: Snapshot)
    requires d.anchor.Some?
    ensures DailyAfter(d, true, snapshot).openingBalance == snapshot.balance - d.pnl
  {
  }

  // ---- The daily-loss gate -------------------------------------------------------------------------

  /** The gate can refuse a signal at all. */
  predicate LossGateInForce(cfg: RiskConfig, d: Daily) {
    cfg.maxDailyLossPct > 0.0 && d.openingBalance > 0.0
  }

  /** No gate before the daily-loss gate stops a signal of `sid`. */
  predicate ReachesLossGate(cfg: RiskConfig, m: Monitor, sid: string) {
    && !m.gates.killTripped && !m.gates.lockTripped
    && (cfg.maxOpenPerStrategy > 0 ==> GetOr(m.counts.byStrategy, sid, 0) < cfg.maxOpenPerStrategy)
  }

  /** Such a signal is refused for the day's loss exactly when the gate is in force and the day's profit is at or
      below minus the limit's share of the opening balance. A profit is never refused. */
  lemma LossGateRefusesIff(cfg: RiskConfig, m: Monitor, sid: string, symbol: string)
    requires ReachesLossGate(cfg, m, sid)
    ensures Judge(cfg, m, sid, symbol) == DailyLossHit <==>
      LossGateInForce(cfg, m.daily) && m.daily.pnl <= -(cfg.maxDailyLossPct / 100.0 * m.daily.openingBalance)
    ensures Judge(cfg, m, sid, symbol) == DailyLossHit ==> m.daily.pnl < 0.0
  {
    hide Judge;
    RiskRuns.VerdictIsFirstComplaint(cfg, m, sid, symbol, DailyLossHit);
    if LossGateInForce(cfg, m.daily) {
      assert cfg.maxDailyLossPct / 100.0 * m.daily.openingBalance > 0.0;
    }
  }

  /** No account-wide gate and no symbol cap stops a signal. */
  predicate ReachesSymbolLossGate(cfg: RiskConfig, m: Monitor, sid: string, symbol: string) {
    && Judge(cfg.(perSymbol := map[]), m, sid, symbol) == Allowed
    && symbol in cfg.perSymbol
    && (cfg.perSymbol[symbol].maxOpenPositions > 0 ==>
          GetOr(m.counts.bySymbol, symbol, 0) < cfg.perSymbol[symbol].maxOpenPositions)
  }

  /** Such a signal is refused for the symbol's loss exactly when that limit is set and the symbol's profit of the day
      is at or below minus the limit. */
  lemma SymbolLossRefusesIff(cfg: RiskConfig, m: Monitor, sid: string, symbol: string)
    requires ReachesSymbolLossGate(cfg, m, sid, symbol)
    ensures
      var limit := cfg.perSymbol[symbol].maxDailyLossUsd;
      Judge(cfg, m, sid, symbol) == SymbolLossHit <==>
        0.0 < limit && GetOr(m.daily.pnlBySymbol, symbol, 0.0) <= -limit
  {
    var limit := cfg.perSymbol[symbol].maxDailyLossUsd;
    if 0.0 < limit {
      RiskRuns.LossReaches(GetOr(m.daily.pnlBySymbol, symbol, 0.0), limit);
    }
    hide LossOf;
  }

  /** In every history, over any number of days and restarts, at the next clock reading: the loss that refuses a
      signal is what the closes handled on that day realised, in all and for the symbol. */
  lemma RefusedByTheDaysLoss(
      s: Setup, sidOf: map<int, string>, trace: seq<World>, moves: seq<Move>, initialBalance: real, start: int,
      i: nat, now: int, sid: string, symbol: string)
    requires History(s, sidOf, trace, moves, initialBalance, start) && i <= |moves| && trace[i].clock <= now
    ensures
      var m, realized := AfterCheck(trace[i].engine.monitor, now), trace[i].realized;
      && (ReachesLossGate(s.cfg, m, sid) ==>
            (Judge(s.cfg, m, sid, symbol) == DailyLossHit <==>
               && LossGateInForce(s.cfg, m.daily)
               && SumOn(realized, Day(now)) <= -(s.cfg.maxDailyLossPct / 100.0 * m.daily.openingBalance)))
      && (ReachesSymbolLossGate(s.cfg, m, sid, symbol) ==>
            (Judge(s.cfg, m, sid, symbol) == SymbolLossHit <==>
               && 0.0 < s.cfg.perSymbol[symbol].maxDailyLossUsd
               && SumOnFor(realized, symbol, Day(now)) <= -s.cfg.perSymbol[symbol].maxDailyLossUsd))
  {
    hide Judge, Day, DailyIs, SumOn, SumOnFor, Roll, LossGateInForce, Legal, After;
    var w := trace[i];
    var m := AfterCheck(w.engine.monitor, now);
    AlwaysRecorded(s, sidOf, trace, moves, initialBalance, start, i);
    RollKeeps(w.engine.monitor.daily, w.engine.monitor.balance, w.realized, w.clock, now);
    if ReachesLossGate(s.cfg, m, sid) {
      LossGateRefusesIff(s.cfg, m, sid, symbol);
    }
    if ReachesSymbolLossGate(s.cfg, m, sid, symbol) {
      SymbolLossRefusesIff(s.cfg, m, sid, symbol);
      NotStopped(s.cfg, m, sid, symbol);
    }
  }

  lemma NotStopped(cfg: RiskConfig, m: Monitor, sid: string, symbol: string)
    requires Judge(cfg.(perSymbol := map[]), m, sid, symbol) == Allowed
    ensures !m.gates.killTripped && !m.gates.lockTripped
  {
  }

  /** In every history: the gate is in force exactly when the opening balance has a basis, and that reported more than
      the day's profit handled by then. */
  lemma LossGateInForceIff(
      s: Setup, sidOf: map<int, string>, trace: seq<World>, moves: seq<Move>, initialBalance: real, start: int,
      taken: nat -> nat, i: nat)
    requires History(s, sidOf, trace, moves, initialBalance, start) && SnapshotsReport(trace, moves, taken)
    requires i <= |moves|
    ensures Playable(trace, moves, taken)
    ensures
      var now, realized := MarksAt(s, trace, moves, taken, i).now, trace[i].realized;
      HandledBy(now.openedAt, |realized|) &&
      (LossGateInForce(s.cfg, trace[i].engine.monitor.daily)
       <==> s.cfg.maxDailyLossPct > 0.0 && now.openedAt.Some?
            && SumOn(realized[..now.openedAt.value.handled], DayOf(now)) < now.openedAt.value.books.balance)
  {
    hide History, MarksAt, SumOn, DailyIs, Day;
    OpeningIsExplained(s, sidOf, trace, moves, initialBalance, start, taken, i);
  }

  /** No restart, and every clock reading of the monitor is on that day. */
  ghost predicate StaysOn(trace: seq<World>, moves: seq<Move>, i: nat, j: nat, day: int)
    requires i <= j <= |moves| < |trace|
  {
    forall k :: i <= k < j ==>
      && moves[k].Live?
      && var reading := ReadingOf(trace[k].engine, moves[k].step);
         reading.Some? ==> Day(reading.value) == day
  }

  /** A day that was begun by a signal or a close before the first snapshot. */
  predicate OpenedBlind(w: Watch) {
    w.monitor.daily.anchor.Some? && !w.monitor.needsOpeningBalance && w.openedAt.None?
  }

  lemma StaysBlind(s: Setup, w: Watch, e: Engine, step: Step, shown: Books, realized: seq<Realized>, clock: int)
    requires Enabled(e, step) && OpenedBlind(w)
    requires ReadingOf(e, step).Some? ==> Day(ReadingOf(e, step).value) == DayOf(w)
    ensures
      var w' := WatchStep(s, w, e, step, shown, |realized|);
      OpenedBlind(w') && DayOf(w') == DayOf(w)
  {
    hide Next, Day, DailyAfter;
    var followed := e.(monitor := w.monitor);
    BalanceStep(s, followed, step);
    StepEffect(s, followed, step);
    if step.Snapshotted? {
      LaterSnapshot(w.monitor.daily, step.snapshot);
    }
  }

  /** Then the gate is off for the rest of that day, whatever snapshots follow. */
  lemma {:induction false} GateOffAllDay(
      s: Setup, sidOf: map<int, string>, trace: seq<World>, moves: seq<Move>, initialBalance: real, start: int,
      taken: nat -> nat, i: nat, j: nat)
    requires History(s, sidOf, trace, moves, initialBalance, start) && SnapshotsReport(trace, moves, taken)
    requires i <= j <= |moves| && Playable(trace, moves, taken)
    requires
      var now := MarksAt(s, trace, moves, taken, i).now;
      OpenedBlind(now) && StaysOn(trace, moves, i, j, DayOf(now))
    ensures
      var before, now := MarksAt(s, trace, moves, taken, i).now, MarksAt(s, trace, moves, taken, j).now;
      OpenedBlind(now) && DayOf(now) == DayOf(before)
    ensures !LossGateInForce(s.cfg, trace[j].engine.monitor.daily)
    decreases j - i
  {
    hide WatchStep, OpenedBlind, Legal, After, Day, DailyIs, Enabled;
    if j > i {
      GateOffAllDay(s, sidOf, trace, moves, initialBalance, start, taken, i, j - 1);
      var marks := MarksAt(s, trace, moves, taken, j - 1);
      var w, shown := trace[j - 1], trace[taken(j - 1)].engine.books;
      StaysBlind(s, marks.now, w.engine, moves[j - 1].step, shown, w.realized, w.clock);
    }
    OpeningIsExplained(s, sidOf, trace, moves, initialBalance, start, taken, j);
    BlindIsZero(MarksAt(s, trace, moves, taken, j).now, trace[j].realized, trace[j].clock);
  }

  lemma BlindIsZero(w: Watch, realized: seq<Realized>, clock: int)
    requires Explained(w, realized, clock) && OpenedBlind(w)
    ensures w.monitor.daily.openingBalance == 0.0
  {
  }

  /** The first reading on another day puts it in force: the opening balance is then the balance last reported. */
  lemma NextDayOpens(w: Watch, realized: seq<Realized>, clock: int, now: int)
    requires Explained(w, realized, clock) && clock <= now && w.seen.Some?
    requires w.monitor.daily.anchor.Some? && Day(now) != Day(w.monitor.daily.anchor.value)
    ensures Roll(w.monitor.daily, w.monitor.balance, now).openingBalance == w.seen.value.books.balance
  {
    hide Day, DailyIs;
  }
}
