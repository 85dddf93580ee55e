/** The live risk state: counters, daily P&L, the kill switch and the profit lock. */
module RiskMonitor {
  import opened Domain
  import opened UtcTime

  datatype SymbolRisk = SymbolRisk(maxOpenPositions: int, maxDailyLossUsd: real)

  datatype RiskConfig = RiskConfig(
    maxOpenPerStrategy: int, maxDailyLossPct: real, killDrawdownPct: real, perSymbol: map<string, SymbolRisk>,
    lockEnabled: bool, lockActivatePct: real, lockGivebackPct: real,
    marginEnabled: bool, minMarginLevelPct: real, minFreeMargin: real)

  datatype Snapshot = Snapshot(time: int, balance: real, equity: real, marginLevel: real, freeMargin: real)

  datatype Verdict =
    | Allowed
    | KillSwitchTripped
    | ProfitLockTripped
    | StrategyCapReached
    | DailyLossHit
    | MarginLevelLow
    | FreeMarginLow
    | SymbolCapReached
    | SymbolLossHit

  /** A broker ticket is only unique within its account. */
  type TicketKey = (string, nat)

  datatype Counts = Counts(byStrategy: map<string, int>, bySymbol: map<string, int>, owner: map<TicketKey, string>)

  datatype Daily = Daily(anchor: Option<int>, openingBalance: real, pnl: real, pnlBySymbol: map<string, real>)

  datatype Gates = Gates(
    peak: Option<real>, equity: Option<real>, killTripped: bool,
    lockOpen: Option<real>, lockHigh: Option<real>, lockTripped: bool)

  datatype Monitor = Monitor(
    counts: Counts, daily: Daily, gates: Gates, balance: Option<real>,
    marginLevel: Option<real>, freeMargin: Option<real>, needsOpeningBalance: bool)

  const FRESH: Monitor := Monitor(
    Counts(map[], map[], map[]), Daily(None, 0.0, 0.0, map[]), Gates(None, None, false, None, None, false),
    None, None, None, false)

  /** The single persisted state row. */
  datatype RiskRow = RiskRow(peak: Option<real>, killTripped: bool, lockTripped: bool)

  function Day(t: int): int {
    t / DAY
  }

  // ---- Counters ----------------------------------------------------------------

  function CountFilled(c: Counts, account: string, ticket: nat, strategyId: string, symbol: string): Counts {
    Counts(c.byStrategy[strategyId := GetOr(c.byStrategy, strategyId, 0) + 1],
           c.bySymbol[symbol := GetOr(c.bySymbol, symbol, 0) + 1],
           if ticket != 0 then c.owner[(account, ticket) := strategyId] else c.owner)
  }

  function Decremented(m: map<string, int>, k: string): map<string, int> {
    if GetOr(m, k, 0) > 0 then m[k := m[k] - 1] else m
  }

  /** An unknown ticket leaves every strategy's count alone. */
  function CountClosed(c: Counts, account: string, ticket: nat, symbol: string): Counts {
    var key := (account, ticket);
    Counts(if key in c.owner then Decremented(c.byStrategy, c.owner[key]) else c.byStrategy,
           Decremented(c.bySymbol, symbol),
           c.owner - {key})
  }

  // ---- Daily P&L -----------------------------------------------------------------

  function Roll(d: Daily, balance: Option<real>, now: int): Daily {
    if d.anchor.None? || Day(now) != Day(d.anchor.value) then
      Daily(Some(now), if balance.Some? then balance.value else d.openingBalance, 0.0, map[])
    else d
  }

  function AddPnl(d: Daily, symbol: string, pnl: real): Daily {
    d.(pnl := d.pnl + pnl, pnlBySymbol := d.pnlBySymbol[symbol := GetOr(d.pnlBySymbol, symbol, 0.0) + pnl])
  }

  // ---- Kill switch and profit lock --------------------------------------------------

  function Drawdown(peak: real, equity: real): real {
    if peak <= 0.0 then 0.0 else MaxReal(0.0, (peak - equity) / peak * 100.0)
  }

  function DrawdownPct(g: Gates): real {
    if g.peak.None? || g.equity.None? then 0.0 else Drawdown(g.peak.value, g.equity.value)
  }

  function ArmLevel(cfg: RiskConfig, open: real): real {
    open * (1.0 + cfg.lockActivatePct / 100.0)
  }

  function Floor(cfg: RiskConfig, open: real, high: real): real {
    high - (high - open) * cfg.lockGivebackPct / 100.0
  }

  function SeePeak(g: Gates, equity: real): Gates {
    g.(equity := Some(equity),
       peak := if g.peak.None? || equity > g.peak.value then Some(equity) else g.peak)
  }

  function TripKillSwitch(cfg: RiskConfig, g: Gates): Gates {
    if cfg.killDrawdownPct > 0.0 && !g.killTripped && DrawdownPct(g) >= cfg.killDrawdownPct then
      g.(killTripped := true)
    else g
  }

  function SeeHigh(cfg: RiskConfig, g: Gates, equity: real): Gates {
    if !cfg.lockEnabled then g
    else if g.lockOpen.None? then g.(lockOpen := Some(equity), lockHigh := Some(equity))
    else if g.lockHigh.None? || equity > g.lockHigh.value then g.(lockHigh := Some(equity))
    else g
  }

  function TripProfitLock(cfg: RiskConfig, g: Gates, equity: real): Gates {
    if cfg.lockEnabled && !g.lockTripped && g.lockOpen.Some? && g.lockHigh.Some?
       && g.lockHigh.value >= ArmLevel(cfg, g.lockOpen.value)
       && equity < Floor(cfg, g.lockOpen.value, g.lockHigh.value)
    then g.(lockTripped := true)
    else g
  }

  function GatesAfter(cfg: RiskConfig, g: Gates, equity: real): Gates {
    TripProfitLock(cfg, SeeHigh(cfg, TripKillSwitch(cfg, SeePeak(g, equity)), equity), equity)
  }

  // ---- Handlers on the whole state -----------------------------------------------------

  function OnFilled(m: Monitor, account: string, ticket: nat, strategyId: string, symbol: string): Monitor {
    m.(counts := CountFilled(m.counts, account, ticket, strategyId, symbol))
  }

  function OnClosed(m: Monitor, account: string, ticket: nat, symbol: string, pnl: real, now: int): Monitor {
    m.(counts := CountClosed(m.counts, account, ticket, symbol),
       daily := AddPnl(Roll(m.daily, m.balance, now), symbol, pnl))
  }

  function OnPartialClosed(m: Monitor, symbol: string, pnl: real, now: int): Monitor {
    m.(daily := AddPnl(Roll(m.daily, m.balance, now), symbol, pnl))
  }

  /** The first snapshot anchors the day; the first one after a restart backs out today's profit. */
  function DailyAfter(d: Daily, needsOpeningBalance: bool, s: Snapshot): Daily {
    if d.anchor.None? then d.(anchor := Some(s.time), openingBalance := s.balance)
    else if needsOpeningBalance then d.(openingBalance := s.balance - d.pnl)
    else d
  }

  function OnSnapshot(cfg: RiskConfig, m: Monitor, s: Snapshot): Monitor {
    Monitor(m.counts, DailyAfter(m.daily, m.needsOpeningBalance, s), GatesAfter(cfg, m.gates, s.equity),
            Some(s.balance), Some(s.marginLevel), Some(s.freeMargin), m.needsOpeningBalance && m.daily.anchor.None?)
  }

  function ResetKillSwitch(g: Gates): Gates {
    g.(killTripped := false, peak := if g.equity.Some? then g.equity else g.peak)
  }

  function ResetProfitLock(g: Gates): Gates {
    g.(lockTripped := false,
       lockOpen := if g.equity.Some? then g.equity else g.lockOpen,
       lockHigh := if g.equity.Some? then g.equity else g.lockHigh)
  }

  function RowOf(g: Gates): RiskRow {
    RiskRow(g.peak, g.killTripped, g.lockTripped)
  }

  /** Whether a snapshot changes anything durable. */
  predicate Durable(g: Gates, g': Gates) {
    RowOf(g) != RowOf(g')
  }

  function LossOf(pnl: real): real {
    MaxReal(0.0, -pnl)
  }

  /** The verdict on a signal once the daily counters are current. */
  function Judge(cfg: RiskConfig, m: Monitor, strategyId: string, symbol: string): Verdict {
    if m.gates.killTripped then KillSwitchTripped
    else if m.gates.lockTripped then ProfitLockTripped
    else if cfg.maxOpenPerStrategy > 0 && GetOr(m.counts.byStrategy, strategyId, 0) >= cfg.maxOpenPerStrategy then
      StrategyCapReached
    else if cfg.maxDailyLossPct > 0.0 && m.daily.openingBalance > 0.0
            && LossOf(m.daily.pnl) / m.daily.openingBalance * 100.0 >= cfg.maxDailyLossPct then
      DailyLossHit
    else if cfg.marginEnabled && cfg.minMarginLevelPct > 0.0 && m.marginLevel.Some?
            && 0.0 < m.marginLevel.value < cfg.minMarginLevelPct then
      MarginLevelLow
    else if cfg.marginEnabled && cfg.minFreeMargin > 0.0 && m.freeMargin.Some?
            && m.freeMargin.value < cfg.minFreeMargin then
      FreeMarginLow
    else if symbol !in cfg.perSymbol then Allowed
    else
      var sc := cfg.perSymbol[symbol];
      if sc.maxOpenPositions > 0 && GetOr(m.counts.bySymbol, symbol, 0) >= sc.maxOpenPositions then SymbolCapReached
      else if sc.maxDailyLossUsd > 0.0 && LossOf(GetOr(m.daily.pnlBySymbol, symbol, 0.0)) >= sc.maxDailyLossUsd then
        SymbolLossHit
      else Allowed
  }

  /** A tripped switch answers before the daily counters are rolled. */
  function AfterCheck(m: Monitor, now: int): Monitor {
    if m.gates.killTripped || m.gates.lockTripped then m else m.(daily := Roll(m.daily, m.balance, now))
  }

  /** A position as rehydration sees it: the owner is unknown when the magic tag maps to no strategy. */
  datatype OpenPosition = OpenPosition(strategyId: Option<string>, symbol: string, ticket: nat, account: string)

  function CountOpen(c: Counts, p: OpenPosition): Counts {
    var bySymbol := c.bySymbol[p.symbol := GetOr(c.bySymbol, p.symbol, 0) + 1];
    if p.strategyId.None? then c.(bySymbol := bySymbol)
    else
      var sid := p.strategyId.value;
      Counts(c.byStrategy[sid := GetOr(c.byStrategy, sid, 0) + 1], bySymbol, c.owner[(p.account, p.ticket) := sid])
  }

  function CountAll(open: seq<OpenPosition>): Counts {
    if open == [] then Counts(map[], map[], map[])
    else CountOpen(CountAll(open[..|open| - 1]), open[|open| - 1])
  }

  function Rehydrated(
      m: Monitor, open: seq<OpenPosition>, pnl: real, pnlBySymbol: map<string, real>, now: int, row: Option<RiskRow>)
    : Monitor
  {
    m.(counts := CountAll(open),
       daily := Daily(Some(now), m.daily.openingBalance, pnl, pnlBySymbol),
       needsOpeningBalance := true,
       gates := Restored(m.gates, row))
  }

  function Restored(g: Gates, row: Option<RiskRow>): Gates {
    if row.None? then g
    else g.(peak := row.value.peak, killTripped := row.value.killTripped, lockTripped := row.value.lockTripped)
  }

  // ---- The object ---------------------------------------------------------------------

  class RiskStateRepo {
    var row: Option<RiskRow>

    constructor ()
      ensures row == None
    {
      row := None;
    }

    /** Upserts the one row. */
    method Save(peak: Option<real>, killTripped: bool, lockTripped: bool)
      modifies this
      ensures row == Some(RiskRow(peak, killTripped, lockTripped))
    {
      row := Some(RiskRow(peak, killTripped, lockTripped));
    }
  }

  class RiskMonitor {
    const cfg: RiskConfig
    const repo: RiskStateRepo?
    var byStrategy: map<string, int>
    var owner: map<TicketKey, string>
    var bySymbol: map<string, int>
    var anchor: Option<int>
    var openingBalance: real
    var dailyPnl: real
    var pnlBySymbol: map<string, real>
    var peak: Option<real>
    var equity: Option<real>
    var balance: Option<real>
    var killTripped: bool
    var marginLevel: Option<real>
    var freeMargin: Option<real>
    var lockOpen: Option<real>
    var lockHigh: Option<real>
    var lockTripped: bool
    var needsOpeningBalance: bool

    constructor (cfg: RiskConfig, repo: RiskStateRepo?)
      ensures this.cfg == cfg && this.repo == repo && State() == FRESH
    {
      this.cfg, this.repo := cfg, repo;
      byStrategy, owner, bySymbol := map[], map[], map[];
      anchor, openingBalance, dailyPnl, pnlBySymbol := None, 0.0, 0.0, map[];
      peak, equity, balance, killTripped := None, None, None, false;
      marginLevel, freeMargin := None, None;
      lockOpen, lockHigh, lockTripped := None, None, false;
      needsOpeningBalance := false;
    }

    function GateState(): Gates
      reads this
    {
      Gates(peak, equity, killTripped, lockOpen, lockHigh, lockTripped)
    }

    function CountState(): Counts
      reads this
    {
      Counts(byStrategy, bySymbol, owner)
    }

    function DailyState(): Daily
      reads this
    {
      Daily(anchor, openingBalance, dailyPnl, pnlBySymbol)
    }

    function State(): Monitor
      reads this
    {
      Monitor(CountState(), DailyState(), GateState(), balance, marginLevel, freeMargin, needsOpeningBalance)
    }

    method HandleFilled(account: string, ticket: nat, strategyId: string, symbol: string)
      modifies this
      ensures State() == OnFilled(old(State()), account, ticket, strategyId, symbol)
    {
      byStrategy := byStrategy[strategyId := GetOr(byStrategy, strategyId, 0) + 1];
      bySymbol := bySymbol[symbol := GetOr(bySymbol, symbol, 0) + 1];
      if ticket != 0 {
        owner := owner[(account, ticket) := strategyId];
      }
    }

    method MaybeRollDaily(now: int)
      modifies this`anchor, this`openingBalance, this`dailyPnl, this`pnlBySymbol
      ensures DailyState() == Roll(old(DailyState()), balance, now)
    {
      if anchor.None? || Day(now) != Day(anchor.value) {
        anchor := Some(now);
        if balance.Some? {
          openingBalance := balance.value;
        }
        dailyPnl := 0.0;
        pnlBySymbol := map[];
      }
    }

    method HandleClosed(account: string, ticket: nat, symbol: string, pnl: real, now: int)
      modifies this
      ensures State() == OnClosed(old(State()), account, ticket, symbol, pnl, now)
    {
      hide CountClosed, Roll, AddPnl;
      ReleasePosition(account, ticket, symbol);
      AddRealized(symbol, pnl, now);
    }

    method ReleasePosition(account: string, ticket: nat, symbol: string)
      modifies this`byStrategy, this`bySymbol, this`owner
      ensures CountState() == CountClosed(old(CountState()), account, ticket, symbol)
    {
      var key := (account, ticket);
      if key in owner {
        var sid := owner[key];
        if GetOr(byStrategy, sid, 0) > 0 {
          byStrategy := byStrategy[sid := byStrategy[sid] - 1];
        }
      }
      owner := owner - {key};
      if GetOr(bySymbol, symbol, 0) > 0 {
        bySymbol := bySymbol[symbol := bySymbol[symbol] - 1];
      }
    }

    method AddRealized(symbol: string, pnl: real, now: int)
      modifies this`anchor, this`openingBalance, this`dailyPnl, this`pnlBySymbol
      ensures DailyState() == AddPnl(Roll(old(DailyState()), balance, now), symbol, pnl)
    {
      MaybeRollDaily(now);
      dailyPnl := dailyPnl + pnl;
      pnlBySymbol := pnlBySymbol[symbol := GetOr(pnlBySymbol, symbol, 0.0) + pnl];
    }

    method HandlePartialClosed(symbol: string, pnl: real, now: int)
      modifies this
      ensures State() == OnPartialClosed(old(State()), symbol, pnl, now)
    {
      hide Roll, AddPnl;
      AddRealized(symbol, pnl, now);
    }

    /** The row is written exactly when the peak moved or a switch tripped. */
    method HandleSnapshot(s: Snapshot)
      modifies this, repo
      ensures State() == OnSnapshot(cfg, old(State()), s)
      ensures repo != null ==>
        repo.row == if Durable(old(GateState()), GateState()) then Some(RowOf(GateState())) else old(repo.row)
    {
      hide GatesAfter, DailyAfter, RowOf;
      SeeAccount(s);
      var durable := UpdateGates(s.equity);
      if durable {
        PersistState();
      }
    }

    method SeeAccount(s: Snapshot)
      modifies this`anchor, this`openingBalance, this`needsOpeningBalance, this`balance, this`marginLevel,
        this`freeMargin
      ensures State() == old(State()).(
        daily := DailyAfter(old(DailyState()), old(needsOpeningBalance), s),
        balance := Some(s.balance), marginLevel := Some(s.marginLevel), freeMargin := Some(s.freeMargin),
        needsOpeningBalance := old(needsOpeningBalance) && old(anchor).None?)
    {
      balance, marginLevel, freeMargin := Some(s.balance), Some(s.marginLevel), Some(s.freeMargin);
      if anchor.None? {
        anchor, openingBalance := Some(s.time), s.balance;
      } else if needsOpeningBalance {
        openingBalance, needsOpeningBalance := s.balance - dailyPnl, false;
      }
    }

    /** Peak, then kill switch, then profit lock; tells whether anything durable changed. */
    method UpdateGates(current: real) returns (durable: bool)
      modifies this`peak, this`equity, this`killTripped, this`lockOpen, this`lockHigh, this`lockTripped
      ensures GateState() == GatesAfter(cfg, old(GateState()), current)
      ensures durable <==> Durable(old(GateState()), GateState())
    {
      hide Drawdown, ArmLevel, Floor;
      equity := Some(current);
      var peakChanged := false;
      if peak.None? || current > peak.value {
        peak, peakChanged := Some(current), true;
      }
      var trippedNow := false;
      if cfg.killDrawdownPct > 0.0 && !killTripped && DrawdownPct(GateState()) >= cfg.killDrawdownPct {
        killTripped, trippedNow := true, true;
      }
      var lockTrippedNow := CheckProfitLock(current);
      durable := peakChanged || trippedNow || lockTrippedNow;
    }

    method CheckProfitLock(current: real) returns (trippedNow: bool)
      modifies this`lockOpen, this`lockHigh, this`lockTripped
      ensures GateState() == TripProfitLock(cfg, SeeHigh(cfg, old(GateState()), current), current)
      ensures trippedNow <==> lockTripped != old(lockTripped)
    {
      trippedNow := false;
      if cfg.lockEnabled {
        if lockOpen.None? {
          lockOpen, lockHigh := Some(current), Some(current);
        } else if lockHigh.None? || current > lockHigh.value {
          lockHigh := Some(current);
        }
        if !lockTripped && lockOpen.Some? && lockHigh.Some? {
          var armLevel := ArmLevel(cfg, lockOpen.value);
          if lockHigh.value >= armLevel {
            var floor := Floor(cfg, lockOpen.value, lockHigh.value);
            if current < floor {
              lockTripped, trippedNow := true, true;
            }
          }
        }
      }
    }

    method PersistState()
      modifies repo
      ensures repo != null ==> repo.row == Some(RowOf(GateState()))
    {
      if repo != null {
        repo.Save(peak, killTripped, lockTripped);
      }
    }

    method ResetKill()
      modifies this, repo
      ensures State() == old(State()).(gates := ResetKillSwitch(old(GateState())))
      ensures repo != null ==> repo.row == Some(RowOf(GateState()))
    {
      killTripped := false;
      if equity.Some? {
        peak := equity;
      }
      PersistState();
    }

    method ResetLock()
      modifies this, repo
      ensures State() == old(State()).(gates := ResetProfitLock(old(GateState())))
      ensures repo != null ==> repo.row == Some(RowOf(GateState()))
    {
      lockTripped := false;
      if equity.Some? {
        lockOpen, lockHigh := equity, equity;
      }
      PersistState();
    }

    method CheckSignal(strategyId: string, symbol: string, now: int) returns (v: Verdict)
      modifies this
      ensures State() == AfterCheck(old(State()), now)
      ensures v == Judge(cfg, State(), strategyId, symbol)
    {
      hide Roll, LossOf;
      if killTripped {
        return KillSwitchTripped;
      }
      if lockTripped {
        return ProfitLockTripped;
      }
      MaybeRollDaily(now);
      if cfg.maxOpenPerStrategy > 0 {
        if GetOr(byStrategy, strategyId, 0) >= cfg.maxOpenPerStrategy {
          return StrategyCapReached;
        }
      }
      if cfg.maxDailyLossPct > 0.0 && openingBalance > 0.0 {
        var lossPct := LossOf(dailyPnl) / openingBalance * 100.0;
        if lossPct >= cfg.maxDailyLossPct {
          return DailyLossHit;
        }
      }
      if cfg.marginEnabled {
        if cfg.minMarginLevelPct > 0.0 && marginLevel.Some? && 0.0 < marginLevel.value < cfg.minMarginLevelPct {
          return MarginLevelLow;
        }
        if cfg.minFreeMargin > 0.0 && freeMargin.Some? && freeMargin.value < cfg.minFreeMargin {
          return FreeMarginLow;
        }
      }
      if symbol in cfg.perSymbol {
        var sc := cfg.perSymbol[symbol];
        if sc.maxOpenPositions > 0 && GetOr(bySymbol, symbol, 0) >= sc.maxOpenPositions {
          return SymbolCapReached;
        }
        if sc.maxDailyLossUsd > 0.0 && LossOf(GetOr(pnlBySymbol, symbol, 0.0)) >= sc.maxDailyLossUsd {
          return SymbolLossHit;
        }
      }
      return Allowed;
    }

    method CountOpenPositions(open: seq<OpenPosition>)
      modifies this`byStrategy, this`bySymbol, this`owner
      ensures CountState() == CountAll(open)
    {
      byStrategy, bySymbol, owner := map[], map[], map[];
      for i := 0 to |open|
        invariant CountState() == CountAll(open[..i])
      {
        assert open[..i + 1][..i] == open[..i];
        var p := open[i];
        bySymbol := bySymbol[p.symbol := GetOr(bySymbol, p.symbol, 0) + 1];
        if p.strategyId.Some? {
          var sid := p.strategyId.value;
          byStrategy := byStrategy[sid := GetOr(byStrategy, sid, 0) + 1];
          owner := owner[(p.account, p.ticket) := sid];
        }
      }
      assert open[..|open|] == open;
    }

    method Rehydrate(open: seq<OpenPosition>, pnl: real, bySymbolPnl: map<string, real>, now: int)
      modifies this
      ensures State() ==
        Rehydrated(old(State()), open, pnl, bySymbolPnl, now, if repo == null then None else old(repo.row))
    {
      hide CountAll, Restored;
      CountOpenPositions(open);
      dailyPnl := pnl;
      pnlBySymbol := bySymbolPnl;
      anchor := Some(now);
      needsOpeningBalance := true;
      LoadState();
    }

    method LoadState()
      modifies this`peak, this`killTripped, this`lockTripped
      ensures GateState() == Restored(old(GateState()), if repo == null then None else old(repo.row))
    {
      if repo != null {
        if repo.row.Some? {
          peak := repo.row.value.peak;
          killTripped := repo.row.value.killTripped;
          lockTripped := repo.row.value.lockTripped;
        }
      }
    }
  }
}
