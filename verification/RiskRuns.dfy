/** The kill switch and the profit lock over whole runs of the monitor under one configuration. */
module RiskRuns {
  import opened Domain
  import opened RiskMonitor

  /** Whatever reaches the monitor, in order. */
  datatype Input =
    | Filled(account: string, ticket: nat, strategyId: string, symbol: string)
    | Closed(account: string, ticket: nat, symbol: string, pnl: real, now: int)
    | PartiallyClosed(symbol: string, pnl: real, now: int)
    | Snapped(snapshot: Snapshot)
    | KillSwitchReset
    | ProfitLockReset
    | Checked(strategyId: string, symbol: string, now: int)

  function Handle(cfg: RiskConfig, m: Monitor, input: Input): Monitor {
    match input
    case Filled(account, ticket, sid, symbol) => OnFilled(m, account, ticket, sid, symbol)
    case Closed(account, ticket, symbol, pnl, now) => OnClosed(m, account, ticket, symbol, pnl, now)
    case PartiallyClosed(symbol, pnl, now) => OnPartialClosed(m, symbol, pnl, now)
    case Snapped(s) => OnSnapshot(cfg, m, s)
    case KillSwitchReset => m.(gates := ResetKillSwitch(m.gates))
    case ProfitLockReset => m.(gates := ResetProfitLock(m.gates))
    case Checked(_, _, now) => AfterCheck(m, now)
  }

  function MonitorAfter(cfg: RiskConfig, inputs: seq<Input>): Monitor {
    if inputs == [] then FRESH
    else Handle(cfg, MonitorAfter(cfg, inputs[..|inputs| - 1]), inputs[|inputs| - 1])
  }

  function LastEquity(inputs: seq<Input>): Option<real> {
    if inputs == [] then None
    else
      var last := inputs[|inputs| - 1];
      if last.Snapped? then Some(last.snapshot.equity) else LastEquity(inputs[..|inputs| - 1])
  }

  /** A reset starts the history over from the equity of that moment. */
  function Rebased(inputs: seq<Input>): seq<real> {
    match LastEquity(inputs)
    case None => []
    case Some(e) => [e]
  }

  /** The equities seen since the start or the last kill-switch reset. */
  function SinceKillReset(inputs: seq<Input>): seq<real> {
    if inputs == [] then []
    else
      var init, last := inputs[..|inputs| - 1], inputs[|inputs| - 1];
      match last
      case Snapped(s) => SinceKillReset(init) + [s.equity]
      case KillSwitchReset => Rebased(init)
      case _ => SinceKillReset(init)
  }

  /** The equities seen since the start or the last profit-lock reset. */
  function SinceLockReset(inputs: seq<Input>): seq<real> {
    if inputs == [] then []
    else
      var init, last := inputs[..|inputs| - 1], inputs[|inputs| - 1];
      match last
      case Snapped(s) => SinceLockReset(init) + [s.equity]
      case ProfitLockReset => Rebased(init)
      case _ => SinceLockReset(init)
  }

  function Highest(xs: seq<real>): real
    requires xs != []
  {
    if |xs| == 1 then xs[0] else MaxReal(Highest(xs[..|xs| - 1]), xs[|xs| - 1])
  }

  lemma {:induction false} HighestIsMaximum(xs: seq<real>)
    requires xs != []
    ensures Highest(xs) in xs
    ensures forall x :: x in xs ==> x <= Highest(xs)
  {
    var init := xs[..|xs| - 1];
    assert xs == init + [xs[|xs| - 1]];
    if init != [] {
      HighestIsMaximum(init);
    }
  }

  lemma HighestAppend(xs: seq<real>, x: real)
    requires xs != []
    ensures Highest(xs + [x]) == MaxReal(Highest(xs), x)
  {
    assert (xs + [x])[..|xs|] == xs;
  }

  // ---- Kill switch -------------------------------------------------------------------

  /** The drawdown at snapshot `i` from the highest equity up to then. */
  function DrawdownAt(xs: seq<real>, i: nat): real
    requires i < |xs|
  {
    Drawdown(Highest(xs[..i + 1]), xs[i])
  }

  /** Some snapshot from the `from`th on met the limit. */
  ghost predicate BreachedFrom(cfg: RiskConfig, xs: seq<real>, from: nat) {
    cfg.killDrawdownPct > 0.0 && exists i: nat :: from <= i < |xs| && DrawdownAt(xs, i) >= cfg.killDrawdownPct
  }

  ghost predicate Breached(cfg: RiskConfig, xs: seq<real>) {
    BreachedFrom(cfg, xs, 0)
  }

  lemma BreachedAppend(cfg: RiskConfig, xs: seq<real>, from: nat, x: real)
    requires from <= |xs|
    ensures BreachedFrom(cfg, xs + [x], from)
       <==> BreachedFrom(cfg, xs, from)
            || (cfg.killDrawdownPct > 0.0 && Drawdown(Highest(xs + [x]), x) >= cfg.killDrawdownPct)
  {
    var ys := xs + [x];
    assert ys[..|xs| + 1] == ys;
    forall i: nat | i < |xs| ensures DrawdownAt(ys, i) == DrawdownAt(xs, i) {
      assert ys[..i + 1] == xs[..i + 1];
    }
    if BreachedFrom(cfg, xs, from) {
      var i: nat :| from <= i < |xs| && DrawdownAt(xs, i) >= cfg.killDrawdownPct;
      assert DrawdownAt(ys, i) >= cfg.killDrawdownPct;
    }
    assert DrawdownAt(ys, |xs|) == Drawdown(Highest(ys), x);
  }

  lemma RebasedNotBreached(cfg: RiskConfig, x: real)
    ensures !Breached(cfg, [x]) && !Breached(cfg, [])
  {
    assert [x][..1] == [x];
    assert forall i: nat :: i < 1 ==> DrawdownAt([x], i) == Drawdown(x, x);
    assert Drawdown(x, x) == 0.0;
  }

  /** Peak and switch, stated over the history alone. */
  lemma {:induction false} KillSwitchMeansBreach(cfg: RiskConfig, inputs: seq<Input>)
    ensures
      var g := MonitorAfter(cfg, inputs).gates;
      var xs := SinceKillReset(inputs);
      && g.equity == LastEquity(inputs)
      && g.peak == (if xs == [] then None else Some(Highest(xs)))
      && (g.killTripped <==> Breached(cfg, xs))
    ensures SinceKillReset(inputs) == [] <==> LastEquity(inputs) == None
  {
    hide BreachedFrom, Drawdown, Floor, ArmLevel, SeeHigh, TripProfitLock;
    if inputs == [] {
      RebasedNotBreached(cfg, 0.0);
    } else {
      var init, last := inputs[..|inputs| - 1], inputs[|inputs| - 1];
      KillSwitchMeansBreach(cfg, init);
      var g := MonitorAfter(cfg, init).gates;
      var xs := SinceKillReset(init);
      match last {
        case Snapped(s) =>
          if xs != [] {
            HighestAppend(xs, s.equity);
          }
          BreachedAppend(cfg, xs, 0, s.equity);
          LockLeavesKill(cfg, TripKillSwitch(cfg, SeePeak(g, s.equity)), s.equity);
        case KillSwitchReset =>
          RebasedNotBreached(cfg, if g.equity.Some? then g.equity.value else 0.0);
        case _ =>
      }
    }
  }

  lemma LockLeavesKill(cfg: RiskConfig, g: Gates, equity: real)
    ensures
      var g' := TripProfitLock(cfg, SeeHigh(cfg, g, equity), equity);
      g'.peak == g.peak && g'.equity == g.equity && g'.killTripped == g.killTripped
  {
  }

  /** A share of a positive base reaches a percentage exactly when the part reaches that percentage of the base. */
  lemma ShareReaches(part: real, base: real, pct: real)
    requires 0.0 < base
    ensures part / base * 100.0 >= pct <==> part >= pct / 100.0 * base
  {
    var r := part / base;
    assert r * base == part;
    if r * 100.0 >= pct {
      assert r >= pct / 100.0;
      assert r * base >= pct / 100.0 * base;
    } else {
      assert r < pct / 100.0;
      assert r * base < pct / 100.0 * base;
    }
  }

  /** A breach is the equity at or below its share of a positive peak; without one there is none. */
  lemma DrawdownMet(peak: real, equity: real, limitPct: real)
    requires 0.0 < limitPct
    ensures Drawdown(peak, equity) >= limitPct <==> 0.0 < peak && equity <= peak * (1.0 - limitPct / 100.0)
  {
    if 0.0 < peak {
      ShareReaches(peak - equity, peak, limitPct);
    }
  }

  /** While the switch is tripped every signal is refused, for any strategy, symbol and time. */
  lemma BreachBlocksEverySignal(cfg: RiskConfig, inputs: seq<Input>, strategyId: string, symbol: string, now: int)
    requires Breached(cfg, SinceKillReset(inputs))
    ensures Judge(cfg, AfterCheck(MonitorAfter(cfg, inputs), now), strategyId, symbol) == KillSwitchTripped
  {
    hide BreachedFrom;
    KillSwitchMeansBreach(cfg, inputs);
  }

  /** Only a kill-switch reset lifts a breach. */
  lemma {:induction false} BreachLastsUntilReset(cfg: RiskConfig, before: seq<Input>, later: seq<Input>)
    requires Breached(cfg, SinceKillReset(before))
    requires KillSwitchReset !in later
    ensures Breached(cfg, SinceKillReset(before + later))
  {
    hide BreachedFrom;
    if later == [] {
      assert before + later == before;
    } else {
      var init, last := later[..|later| - 1], later[|later| - 1];
      BreachLastsUntilReset(cfg, before, init);
      assert (before + later)[..|before + later| - 1] == before + init;
      assert last in later;
      if last.Snapped? {
        BreachedAppend(cfg, SinceKillReset(before + init), 0, last.snapshot.equity);
      }
    }
  }

  // ---- Profit lock -------------------------------------------------------------------------

  /** Armed once the highest equity reached the activation level over the session open. */
  predicate Armed(cfg: RiskConfig, xs: seq<real>) {
    xs != [] && Highest(xs) >= ArmLevel(cfg, xs[0])
  }

  function FloorOf(cfg: RiskConfig, xs: seq<real>): real
    requires xs != []
  {
    Floor(cfg, xs[0], Highest(xs))
  }

  predicate FellThrough(cfg: RiskConfig, xs: seq<real>) {
    Armed(cfg, xs) && xs[|xs| - 1] < FloorOf(cfg, xs)
  }

  predicate FellThroughAt(cfg: RiskConfig, xs: seq<real>, i: nat)
    requires i < |xs|
  {
    FellThrough(cfg, xs[..i + 1])
  }

  ghost predicate GaveBack(cfg: RiskConfig, xs: seq<real>) {
    cfg.lockEnabled && exists i: nat :: i < |xs| && FellThroughAt(cfg, xs, i)
  }

  lemma GaveBackAppend(cfg: RiskConfig, xs: seq<real>, x: real)
    ensures GaveBack(cfg, xs + [x])
       <==> GaveBack(cfg, xs) || (cfg.lockEnabled && FellThrough(cfg, xs + [x]))
  {
    hide FellThrough;
    var ys := xs + [x];
    assert ys[..|xs| + 1] == ys;
    forall i: nat | i < |xs| ensures FellThroughAt(cfg, ys, i) == FellThroughAt(cfg, xs, i) {
      assert ys[..i + 1] == xs[..i + 1];
    }
    if GaveBack(cfg, xs) {
      var i: nat :| i < |xs| && FellThroughAt(cfg, xs, i);
      assert FellThroughAt(cfg, ys, i);
    }
    assert FellThroughAt(cfg, ys, |xs|) == FellThrough(cfg, ys);
  }

  lemma SingleDoesNotGiveBack(cfg: RiskConfig, x: real)
    ensures !GaveBack(cfg, [x]) && !GaveBack(cfg, []) && !FellThrough(cfg, [x])
  {
    assert FloorOf(cfg, [x]) == x;
    assert [x][..1] == [x];
    assert !FellThroughAt(cfg, [x], 0);
  }

  lemma SnapshotMovesLock(cfg: RiskConfig, g: Gates, equity: real)
    requires cfg.lockEnabled && (g.lockOpen.None? <==> g.lockHigh.None?)
    ensures
      var g' := GatesAfter(cfg, g, equity);
      var open := if g.lockOpen.None? then equity else g.lockOpen.value;
      var high := if g.lockHigh.None? then equity else MaxReal(g.lockHigh.value, equity);
      && g'.equity == Some(equity) && g'.lockOpen == Some(open) && g'.lockHigh == Some(high)
      && (g'.lockTripped <==> g.lockTripped || (high >= ArmLevel(cfg, open) && equity < Floor(cfg, open, high)))
  {
    hide Drawdown, Floor, ArmLevel;
  }

  /** Session open, high-water mark and lock, stated over the history alone. */
  lemma {:induction false} ProfitLockMeansGaveBack(cfg: RiskConfig, inputs: seq<Input>)
    requires cfg.lockEnabled
    ensures
      var g := MonitorAfter(cfg, inputs).gates;
      var xs := SinceLockReset(inputs);
      && g.equity == LastEquity(inputs)
      && g.lockOpen == (if xs == [] then None else Some(xs[0]))
      && g.lockHigh == (if xs == [] then None else Some(Highest(xs)))
      && (g.lockTripped <==> GaveBack(cfg, xs))
    ensures SinceLockReset(inputs) == [] <==> LastEquity(inputs) == None
  {
    hide GaveBack, Drawdown, Floor, ArmLevel, GatesAfter;
    if inputs == [] {
      SingleDoesNotGiveBack(cfg, 0.0);
    } else {
      var init, last := inputs[..|inputs| - 1], inputs[|inputs| - 1];
      ProfitLockMeansGaveBack(cfg, init);
      var g := MonitorAfter(cfg, init).gates;
      var xs := SinceLockReset(init);
      match last {
        case Snapped(s) =>
          if xs != [] {
            HighestAppend(xs, s.equity);
          } else {
            SingleDoesNotGiveBack(cfg, s.equity);
          }
          SnapshotMovesLock(cfg, g, s.equity);
          GaveBackAppend(cfg, xs, s.equity);
        case ProfitLockReset =>
          SingleDoesNotGiveBack(cfg, if g.equity.Some? then g.equity.value else 0.0);
        case _ =>
      }
    }
  }

  predicate ValidLock(cfg: RiskConfig) {
    cfg.lockEnabled && 0.0 < cfg.lockActivatePct && 0.0 < cfg.lockGivebackPct <= 100.0
  }

  lemma FloorIsShare(cfg: RiskConfig, open: real, gain: real)
    ensures Floor(cfg, open, open + gain) == open + gain - gain * (cfg.lockGivebackPct / 100.0)
  {
  }

  lemma ShareGrows(a: real, b: real, k: real)
    requires 0.0 <= a <= b && 0.0 < k <= 1.0
    ensures 0.0 <= a - a * k <= b - b * k
    ensures 0.0 <= b * k
  {
    var keep := 1.0 - k;
    assert a - a * k == a * keep && b - b * k == b * keep;
    assert b * keep - a * keep == (b - a) * keep;
  }

  lemma FloorBetween(cfg: RiskConfig, open: real, low: real, high: real)
    requires ValidLock(cfg) && open <= low <= high
    ensures open <= Floor(cfg, open, low) <= Floor(cfg, open, high) <= high
  {
    hide Floor;
    FloorIsShare(cfg, open, low - open);
    FloorIsShare(cfg, open, high - open);
    ShareGrows(low - open, high - open, cfg.lockGivebackPct / 100.0);
  }

  /** Once armed it stays armed, and the floor only rises, never below the session open. */
  lemma FloorNeverFalls(cfg: RiskConfig, xs: seq<real>, x: real)
    requires ValidLock(cfg) && xs != []
    ensures xs[0] <= FloorOf(cfg, xs) <= FloorOf(cfg, xs + [x])
    ensures Armed(cfg, xs) ==> Armed(cfg, xs + [x])
  {
    hide Floor, ArmLevel;
    HighestAppend(xs, x);
    HighestIsMaximum(xs);
    assert xs[0] in xs;
    FloorBetween(cfg, xs[0], Highest(xs), Highest(xs + [x]));
  }

  /** Armed and untripped, the current equity is at or above the floor, hence at or above the session open. */
  lemma LockedInWhileUntripped(cfg: RiskConfig, inputs: seq<Input>)
    requires ValidLock(cfg)
    requires Armed(cfg, SinceLockReset(inputs)) && !MonitorAfter(cfg, inputs).gates.lockTripped
    ensures
      var g := MonitorAfter(cfg, inputs).gates;
      var xs := SinceLockReset(inputs);
      && g.equity.Some? && g.lockOpen.Some?
      && g.lockOpen.value <= FloorOf(cfg, xs) <= g.equity.value
  {
    hide Floor, ArmLevel, MonitorAfter;
    var xs := SinceLockReset(inputs);
    ProfitLockMeansGaveBack(cfg, inputs);
    FloorNeverFalls(cfg, xs, 0.0);
    assert xs[..|xs|] == xs;
    assert !FellThroughAt(cfg, xs, |xs| - 1);
    LastOfHistory(inputs);
  }

  lemma {:induction false} LastOfHistory(inputs: seq<Input>)
    ensures
      var xs := SinceLockReset(inputs);
      LastEquity(inputs) == if xs == [] then None else Some(xs[|xs| - 1])
  {
    if inputs != [] {
      LastOfHistory(inputs[..|inputs| - 1]);
    }
  }

  /** In amounts of money: armed once the gain over the session open has been the activation percentage of it, and
      fallen through when more than the giveback percentage of the highest gain is gone. */
  lemma LockInMoney(cfg: RiskConfig, xs: seq<real>)
    requires xs != []
    ensures Armed(cfg, xs) <==> Highest(xs) - xs[0] >= xs[0] * cfg.lockActivatePct / 100.0
    ensures FellThrough(cfg, xs) <==>
      && Armed(cfg, xs)
      && Highest(xs) - xs[|xs| - 1] > (Highest(xs) - xs[0]) * cfg.lockGivebackPct / 100.0
  {
    hide ArmLevel, Floor, Highest;
    ArmLevelIsGain(cfg, xs[0]);
    FloorIsShare(cfg, xs[0], Highest(xs) - xs[0]);
    ShareOf(Highest(xs) - xs[0], cfg.lockGivebackPct);
  }

  lemma ShareOf(x: real, pct: real)
    ensures x * pct / 100.0 == x * (pct / 100.0)
  {
  }

  lemma ArmLevelIsGain(cfg: RiskConfig, open: real)
    ensures ArmLevel(cfg, open) == open + open * cfg.lockActivatePct / 100.0
  {
    ShareOf(open, cfg.lockActivatePct);
    assert open * (1.0 + cfg.lockActivatePct / 100.0) == open + open * (cfg.lockActivatePct / 100.0);
  }

  // ---- The account figures ------------------------------------------------------------------

  function LastSnapshot(inputs: seq<Input>): Option<Snapshot> {
    if inputs == [] then None
    else
      var last := inputs[|inputs| - 1];
      if last.Snapped? then Some(last.snapshot) else LastSnapshot(inputs[..|inputs| - 1])
  }

  /** Balance, margin level and free margin are those of the latest snapshot, unknown before the first. */
  lemma {:induction false} FiguresAreLastReported(cfg: RiskConfig, inputs: seq<Input>)
    ensures
      var m, last := MonitorAfter(cfg, inputs), LastSnapshot(inputs);
      if last.None? then m.balance.None? && m.marginLevel.None? && m.freeMargin.None?
      else m.balance == Some(last.value.balance) && m.marginLevel == Some(last.value.marginLevel)
           && m.freeMargin == Some(last.value.freeMargin)
  {
    hide GatesAfter, DailyAfter;
    if inputs != [] {
      FiguresAreLastReported(cfg, inputs[..|inputs| - 1]);
    }
  }

  // ---- The verdict -------------------------------------------------------------------------

  /** What each verdict complains of, in the monitor's figures and the configured limits. A limit of zero or less is
      off; a count or profit that was never booked is zero; a margin figure never reported complains of nothing. */
  predicate Complains(cfg: RiskConfig, m: Monitor, strategyId: string, symbol: string, v: Verdict) {
    match v
    case Allowed => false
    case KillSwitchTripped => m.gates.killTripped
    case ProfitLockTripped => m.gates.lockTripped
    case StrategyCapReached =>
      strategyId in m.counts.byStrategy && 0 < cfg.maxOpenPerStrategy <= m.counts.byStrategy[strategyId]
    case DailyLossHit =>
      && 0.0 < cfg.maxDailyLossPct && 0.0 < m.daily.openingBalance
      && m.daily.pnl <= -(cfg.maxDailyLossPct / 100.0 * m.daily.openingBalance)
    case MarginLevelLow => cfg.marginEnabled && m.marginLevel.Some? && 0.0 < m.marginLevel.value < cfg.minMarginLevelPct
    case FreeMarginLow =>
      cfg.marginEnabled && m.freeMargin.Some? && 0.0 < cfg.minFreeMargin && m.freeMargin.value < cfg.minFreeMargin
    case SymbolCapReached =>
      && symbol in cfg.perSymbol && symbol in m.counts.bySymbol
      && 0 < cfg.perSymbol[symbol].maxOpenPositions <= m.counts.bySymbol[symbol]
    case SymbolLossHit =>
      && symbol in cfg.perSymbol && symbol in m.daily.pnlBySymbol
      && 0.0 < cfg.perSymbol[symbol].maxDailyLossUsd
      && m.daily.pnlBySymbol[symbol] <= -cfg.perSymbol[symbol].maxDailyLossUsd
  }

  /** The order in which the gates are asked. */
  function Turn(v: Verdict): nat {
    match v
    case KillSwitchTripped => 0
    case ProfitLockTripped => 1
    case StrategyCapReached => 2
    case DailyLossHit => 3
    case MarginLevelLow => 4
    case FreeMarginLow => 5
    case SymbolCapReached => 6
    case SymbolLossHit => 7
    case Allowed => 8
  }

  predicate NoneBefore(cfg: RiskConfig, m: Monitor, strategyId: string, symbol: string, v: Verdict) {
    forall w: Verdict :: Turn(w) < Turn(v) ==> !Complains(cfg, m, strategyId, symbol, w)
  }

  lemma DailyLossInMoney(cfg: RiskConfig, pnl: real, opening: real)
    requires 0.0 < cfg.maxDailyLossPct && 0.0 < opening
    ensures LossOf(pnl) / opening * 100.0 >= cfg.maxDailyLossPct
       <==> pnl <= -(cfg.maxDailyLossPct / 100.0 * opening)
  {
    ShareReaches(LossOf(pnl), opening, cfg.maxDailyLossPct);
    assert cfg.maxDailyLossPct / 100.0 * opening > 0.0;
  }

  lemma VerdictComplains(cfg: RiskConfig, m: Monitor, strategyId: string, symbol: string)
    ensures
      var v := Judge(cfg, m, strategyId, symbol);
      NoneBefore(cfg, m, strategyId, symbol, v) && (v == Allowed || Complains(cfg, m, strategyId, symbol, v))
  {
    hide LossOf;
    if 0.0 < cfg.maxDailyLossPct && 0.0 < m.daily.openingBalance {
      DailyLossInMoney(cfg, m.daily.pnl, m.daily.openingBalance);
    }
    if symbol in cfg.perSymbol {
      var limit := cfg.perSymbol[symbol].maxDailyLossUsd;
      if 0.0 < limit {
        LossReaches(GetOr(m.daily.pnlBySymbol, symbol, 0.0), limit);
      }
    }
  }

  lemma LossReaches(pnl: real, limit: real)
    requires 0.0 < limit
    ensures LossOf(pnl) >= limit <==> pnl <= -limit
  {
  }

  /** A check that a tripped switch answers leaves everything as it was; any other makes the daily figures those of
      its own day, and changes nothing else. */
  lemma CheckRollsUnlessTripped(cfg: RiskConfig, m: Monitor, strategyId: string, symbol: string, now: int)
    ensures
      var m' := AfterCheck(m, now);
      var v := Judge(cfg, m', strategyId, symbol);
      && m' == m.(daily := m'.daily)
      && if v == KillSwitchTripped || v == ProfitLockTripped then m' == m
         else m'.daily.anchor.Some? && Day(m'.daily.anchor.value) == Day(now)
  {
    hide LossOf, Day;
  }

  /** A signal gets the first complaint in that order, and is allowed exactly when there is none. */
  lemma VerdictIsFirstComplaint(cfg: RiskConfig, m: Monitor, strategyId: string, symbol: string, v: Verdict)
    ensures Judge(cfg, m, strategyId, symbol) == v <==>
      NoneBefore(cfg, m, strategyId, symbol, v) && (v == Allowed || Complains(cfg, m, strategyId, symbol, v))
  {
    hide Judge, Complains;
    var first := Judge(cfg, m, strategyId, symbol);
    VerdictComplains(cfg, m, strategyId, symbol);
    assert first != v ==> Turn(first) < Turn(v) || Turn(v) < Turn(first);
  }
}
