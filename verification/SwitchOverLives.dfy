/** The kill switch over any number of lives: what its peak and its trips mean when restarts come in between. */
module SwitchOverLives {
  import opened Domain
  import opened UtcTime
  import opened RiskMonitor
  import opened Engine
  import opened TradeLog
  import opened Restart
  import opened Lives
  import opened OpeningRuns
  import RiskRuns

  /** The last equity that the monitor of the present life has seen. */
  function LifeEquity(moves: seq<Move>): Option<real> {
    if moves == [] then None
    else
      match moves[|moves| - 1]
      case Restarted(_, _, _) => None
      case Live(Snapshotted(snapshot), _) => Some(snapshot.equity)
      case _ => LifeEquity(moves[..|moves| - 1])
  }

  /** The equities that the peak is taken over: those since the start or since the last reset that found an equity in
      its life. A restart ends nothing. */
  function PeakSpan(moves: seq<Move>): seq<real> {
    if moves == [] then []
    else
      var init := moves[..|moves| - 1];
      match moves[|moves| - 1]
      case Live(Snapshotted(snapshot), _) => PeakSpan(init) + [snapshot.equity]
      case Live(KillSwitchReset, _) => if LifeEquity(init).Some? then [LifeEquity(init).value] else PeakSpan(init)
      case _ => PeakSpan(init)
  }

  /** Those of them that came before the last reset trip nothing any more. */
  function Forgiven(moves: seq<Move>): nat {
    if moves == [] then 0
    else
      var init := moves[..|moves| - 1];
      match moves[|moves| - 1]
      case Live(KillSwitchReset, _) => if LifeEquity(init).Some? then 0 else |PeakSpan(init)|
      case _ => Forgiven(init)
  }

  ghost predicate SwitchIs(cfg: RiskConfig, g: Gates, equity: Option<real>, xs: seq<real>, from: nat) {
    && from <= |xs| && g.equity == equity && (equity.Some? ==> xs != [])
    && g.peak == (if xs == [] then None else Some(RiskRuns.Highest(xs)))
    && (g.killTripped <==> RiskRuns.BreachedFrom(cfg, xs, from))
  }

  lemma GatesStep(s: Setup, e: Engine, step: Step)
    requires Enabled(e, step)
    ensures
      var g, g' := e.monitor.gates, Next(s, e, step).monitor.gates;
      match step
      case Snapshotted(snapshot) => g' == GatesAfter(s.cfg, g, snapshot.equity)
      case KillSwitchReset => g' == ResetKillSwitch(g)
      case _ => g'.peak == g.peak && g'.equity == g.equity && g'.killTripped == g.killTripped
  {
    hide GatesAfter, ResetKillSwitch;
    StepEffect(s, e, step);
  }

  lemma SnapshotSwitch(cfg: RiskConfig, g: Gates, equity: Option<real>, xs: seq<real>, from: nat, e: real)
    requires SwitchIs(cfg, g, equity, xs, from)
    ensures SwitchIs(cfg, GatesAfter(cfg, g, e), Some(e), xs + [e], from)
  {
    hide RiskRuns.BreachedFrom, Drawdown, SeeHigh, TripProfitLock;
    if xs != [] {
      RiskRuns.HighestAppend(xs, e);
    }
    RiskRuns.BreachedAppend(cfg, xs, from, e);
    RiskRuns.LockLeavesKill(cfg, TripKillSwitch(cfg, SeePeak(g, e)), e);
  }

  lemma ResetSwitch(cfg: RiskConfig, g: Gates, equity: Option<real>, xs: seq<real>, from: nat)
    requires SwitchIs(cfg, g, equity, xs, from)
    ensures
      if equity.Some? then SwitchIs(cfg, ResetKillSwitch(g), equity, [equity.value], 0)
      else SwitchIs(cfg, ResetKillSwitch(g), equity, xs, |xs|)
  {
    RiskRuns.RebasedNotBreached(cfg, if equity.Some? then equity.value else 0.0);
  }

  lemma LiveSwitch(
      s: Setup, e: Engine, step: Step, stamped: int, equity: Option<real>, xs: seq<real>, from: nat, moves: seq<Move>)
    requires Enabled(e, step) && SwitchIs(s.cfg, e.monitor.gates, equity, xs, from)
    requires equity == LifeEquity(moves) && xs == PeakSpan(moves) && from == Forgiven(moves)
    ensures
      var more := moves + [Live(step, stamped)];
      SwitchIs(s.cfg, Next(s, e, step).monitor.gates, LifeEquity(more), PeakSpan(more), Forgiven(more))
  {
    hide Next, RiskRuns.BreachedFrom, RiskRuns.Highest, GatesAfter, ResetKillSwitch;
    GatesStep(s, e, step);
    assert (moves + [Live(step, stamped)])[..|moves|] == moves;
    match step {
      case Snapshotted(snapshot) => SnapshotSwitch(s.cfg, e.monitor.gates, equity, xs, from, snapshot.equity);
      case KillSwitchReset => ResetSwitch(s.cfg, e.monitor.gates, equity, xs, from);
      case _ =>
    }
  }

  /** In every state of every history: the peak is the maximum over its span, and the switch is tripped exactly when a
      snapshot of that span since the last reset met the drawdown limit. */
  lemma {:induction false} SwitchMeansBreach(
      s: Setup, sidOf: map<int, string>, trace: seq<World>, moves: seq<Move>, initialBalance: real, start: int, i: nat)
    requires History(s, sidOf, trace, moves, initialBalance, start) && i <= |moves|
    ensures SwitchIs(s.cfg, trace[i].engine.monitor.gates, LifeEquity(moves[..i]), PeakSpan(moves[..i]),
                     Forgiven(moves[..i]))
  {
    hide SwitchIs, Legal, After, LifeEquity, PeakSpan, Forgiven;
    if i == 0 {
      NothingSeen(s.cfg, moves);
    } else {
      SwitchMeansBreach(s, sidOf, trace, moves, initialBalance, start, i - 1);
      var before, w := moves[..i - 1], trace[i - 1];
      assert moves[..i] == before + [moves[i - 1]];
      match moves[i - 1]
      case Live(step, stamped) =>
        MovedBooks(s, sidOf, w, moves[i - 1]);
        LiveSwitch(s, w.engine, step, stamped, LifeEquity(before), PeakSpan(before), Forgiven(before), before);
      case Restarted(now, tickets, pnlBySymbol) =>
        AlwaysRecorded(s, sidOf, trace, moves, initialBalance, start, i - 1);
        RestartReads(sidOf, w, now, tickets, pnlBySymbol);
        RestartedSwitch(s, sidOf, w, moves[i - 1], before);
    }
  }

  lemma NothingSeen(cfg: RiskConfig, moves: seq<Move>)
    ensures SwitchIs(cfg, FRESH.gates, LifeEquity(moves[..0]), PeakSpan(moves[..0]), Forgiven(moves[..0]))
  {
    assert moves[..0] == [];
    RiskRuns.RebasedNotBreached(cfg, 0.0);
  }

  lemma RestartedSwitch(s: Setup, sidOf: map<int, string>, w: World, move: Move, before: seq<Move>)
    requires move.Restarted? && Legal(w, move)
    requires SwitchIs(s.cfg, w.engine.monitor.gates, LifeEquity(before), PeakSpan(before), Forgiven(before))
    requires RowOf(Restored(FRESH.gates, w.row)) == RowOf(w.engine.monitor.gates)
    ensures
      var more := before + [move];
      SwitchIs(s.cfg, After(s, sidOf, w, move).engine.monitor.gates, LifeEquity(more), PeakSpan(more), Forgiven(more))
  {
    hide RiskRuns.BreachedFrom, RiskRuns.Highest, CountAll, OpenList, Midnight;
    assert (before + [move])[..|before|] == before;
  }

  /** The snapshot after a reset trips exactly when it has lost the limit on the equity last seen in this life, or, when
      none was seen yet, on the old peak. */
  lemma NextTripsIff(cfg: RiskConfig, g: Gates, e: real)
    requires cfg.killDrawdownPct > 0.0
    ensures
      var base := if g.equity.Some? then g.equity else g.peak;
      GatesAfter(cfg, ResetKillSwitch(g), e).killTripped
      <==> base.Some? && Drawdown(MaxReal(base.value, e), e) >= cfg.killDrawdownPct
  {
    hide SeeHigh, TripProfitLock;
    var seen := SeePeak(ResetKillSwitch(g), e);
    RiskRuns.LockLeavesKill(cfg, TripKillSwitch(cfg, seen), e);
    assert Drawdown(e, e) == 0.0;
  }

  function Limited(): Setup {
    SmallSetup().(cfg := SmallSetup().cfg.(killDrawdownPct := 10.0))
  }

  function Equity(equity: real): Snapshot {
    Snapshot(0, 100.0, equity, 0.0, 0.0)
  }

  lemma SwitchAfter(cfg: RiskConfig, g: Gates, e: real)
    ensures
      var g', peak := GatesAfter(cfg, g, e), if g.peak.None? then e else MaxReal(g.peak.value, e);
      && g'.peak == Some(peak)
      && (g'.killTripped <==>
            g.killTripped || (cfg.killDrawdownPct > 0.0 && Drawdown(peak, e) >= cfg.killDrawdownPct))
  {
    hide SeeHigh, TripProfitLock, Drawdown;
    RiskRuns.LockLeavesKill(cfg, TripKillSwitch(cfg, SeePeak(g, e)), e);
  }

  lemma RestartedGates(s: Setup, sidOf: map<int, string>, trace: seq<World>, moves: seq<Move>)
    requires Played(s, sidOf, trace, moves) && |trace| == |moves| + 1 && moves != [] && moves[|moves| - 1].Restarted?
    ensures
      var g, g' := trace[|moves| - 1].engine.monitor.gates, trace[|moves|].engine.monitor.gates;
      g'.equity == None && g'.peak == g.peak && g'.killTripped == g.killTripped
  {
    hide Next, CountAll, OpenList, Midnight;
    EveryRestartKeepsMoney(s, sidOf, trace, moves, 100.0, 0, |moves| - 1);
  }

  /** For instance, with a limit of ten per cent: 100, then 80, which trips; a restart, a reset, and 80 again. The reset
      has found no equity, and the same 80 trips again. */
  lemma EarlyResetTripsAgain() returns (trace: seq<World>, moves: seq<Move>)
    ensures Played(Limited(), map[], trace, moves) && |trace| == |moves| + 1 && |moves| == 5
    ensures trace[2].engine.monitor.gates.killTripped
    ensures moves[3] == Live(KillSwitchReset, 0) && !trace[4].engine.monitor.gates.killTripped
    ensures moves[4] == Live(Snapshotted(Equity(80.0)), 0) && trace[5].engine.monitor.gates.killTripped
  {
    hide Next, Played, GatesAfter, RehydratedMonitor, Midnight, TotalSince, SymbolTotalSince;
    var s, sidOf := Limited(), map[];
    trace, moves := Born(s, sidOf);
    SnapshotStep(s, trace[0].engine, Equity(100.0));
    SwitchAfter(s.cfg, trace[0].engine.monitor.gates, 100.0);
    trace, moves := Plainly(s, sidOf, trace, moves, Snapshotted(Equity(100.0)));
    SnapshotStep(s, trace[1].engine, Equity(80.0));
    SwitchAfter(s.cfg, trace[1].engine.monitor.gates, 80.0);
    trace, moves := Plainly(s, sidOf, trace, moves, Snapshotted(Equity(80.0)));
    NoProfitRead([], 0);
    trace, moves := Extend(s, sidOf, trace, moves, Restarted(0, [], map[]));
    RestartedGates(s, sidOf, trace, moves);
    ResetStep(s, trace[3].engine);
    trace, moves := Plainly(s, sidOf, trace, moves, KillSwitchReset);
    SnapshotStep(s, trace[4].engine, Equity(80.0));
    NextTripsIff(s.cfg, trace[3].engine.monitor.gates, 80.0);
    trace, moves := Plainly(s, sidOf, trace, moves, Snapshotted(Equity(80.0)));
  }

  lemma ResetStep(s: Setup, e: Engine)
    ensures Next(s, e, KillSwitchReset) == e.(monitor := e.monitor.(gates := ResetKillSwitch(e.monitor.gates)))
  {
  }
}
