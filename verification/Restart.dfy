/** A restarted monitor, rehydrated from what survives, against the monitor that never stopped. */
module Restart {
  import opened Domain
  import opened UtcTime
  import opened SimBroker
  import opened BrokerRuns
  import opened RiskMonitor
  import opened OrderRouter
  import opened Engine
  import opened RiskRuns
  import opened TradeLog

  // ---- The persisted state row -------------------------------------------------------

  /** The state row after a run, written whenever something durable changed or an operator reset a switch. */
  function PersistedRow(cfg: RiskConfig, inputs: seq<Input>): Option<RiskRow> {
    if inputs == [] then None
    else
      var init, last := inputs[..|inputs| - 1], inputs[|inputs| - 1];
      var g, g' := MonitorAfter(cfg, init).gates, MonitorAfter(cfg, inputs).gates;
      match last
      case Snapped(_) => if Durable(g, g') then Some(RowOf(g')) else PersistedRow(cfg, init)
      case KillSwitchReset => Some(RowOf(g'))
      case ProfitLockReset => Some(RowOf(g'))
      case _ => PersistedRow(cfg, init)
  }

  /** Loading the row into a fresh monitor restores peak and both switches. */
  lemma {:induction false} RowRestoresGates(cfg: RiskConfig, inputs: seq<Input>)
    ensures RowOf(Restored(FRESH.gates, PersistedRow(cfg, inputs))) == RowOf(MonitorAfter(cfg, inputs).gates)
  {
    hide GatesAfter, ResetKillSwitch, ResetProfitLock;
    if inputs != [] {
      RowRestoresGates(cfg, inputs[..|inputs| - 1]);
    }
  }

  // ---- Daily profit ----------------------------------------------------------------------

  /** A realised profit as both the monitor and the trade table record it. */
  datatype Realized = Realized(symbol: string, pnl: real, at: int)

  function RealizedBy(inputs: seq<Input>): seq<Realized> {
    if inputs == [] then []
    else
      var before := RealizedBy(inputs[..|inputs| - 1]);
      match inputs[|inputs| - 1]
      case Closed(_, _, symbol, pnl, now) => before + [Realized(symbol, pnl, now)]
      case PartiallyClosed(symbol, pnl, now) => before + [Realized(symbol, pnl, now)]
      case _ => before
  }

  /** One row for one realised profit. The persister and the monitor read their clocks one after the other;
      what matters is that both readings fall on one UTC day. */
  predicate LogsOne(row: TradeRow, r: Realized) {
    row.symbol == r.symbol && row.pnl == r.pnl && Day(row.closeTs) == Day(r.at)
  }

  /** No write was lost. */
  ghost predicate Logged(rows: seq<TradeRow>, realized: seq<Realized>) {
    |rows| == |realized| && forall i :: 0 <= i < |rows| ==> LogsOne(rows[i], realized[i])
  }

  function TimeOf(input: Input): Option<int> {
    match input
    case Closed(_, _, _, _, now) => Some(now)
    case PartiallyClosed(_, _, now) => Some(now)
    case Checked(_, _, now) => Some(now)
    case _ => None
  }

  /** The monitor's clock never runs backwards, and `now` is not before any of its readings. */
  predicate ClockUpTo(inputs: seq<Input>, now: int) {
    inputs != [] ==>
      var t := TimeOf(inputs[|inputs| - 1]);
      (t.Some? ==> t.value <= now) && ClockUpTo(inputs[..|inputs| - 1], if t.Some? then t.value else now)
  }

  function SumOn(realized: seq<Realized>, day: int): real {
    if realized == [] then 0.0
    else
      var last := realized[|realized| - 1];
      SumOn(realized[..|realized| - 1], day) + if Day(last.at) == day then last.pnl else 0.0
  }

  function SumOnFor(realized: seq<Realized>, symbol: string, day: int): real {
    if realized == [] then 0.0
    else
      var last := realized[|realized| - 1];
      SumOnFor(realized[..|realized| - 1], symbol, day)
        + if Day(last.at) == day && last.symbol == symbol then last.pnl else 0.0
  }

  ghost predicate NoneAfter(realized: seq<Realized>, day: int) {
    forall r :: r in realized ==> Day(r.at) <= day
  }

  lemma {:induction false} NothingBeyond(realized: seq<Realized>, day: int, later: int)
    requires NoneAfter(realized, day) && day < later
    ensures SumOn(realized, later) == 0.0 && forall symbol :: SumOnFor(realized, symbol, later) == 0.0
  {
    if realized != [] {
      var init := realized[..|realized| - 1];
      assert realized == init + [realized[|realized| - 1]];
      NothingBeyond(init, day, later);
    }
  }

  /** The daily figures are the profits realised on the anchor's day. */
  ghost predicate DailyIs(d: Daily, realized: seq<Realized>, now: int) {
    if realized == [] then d.pnl == 0.0 && forall symbol :: GetOr(d.pnlBySymbol, symbol, 0.0) == 0.0
    else
      && d.anchor.Some? && Day(d.anchor.value) <= Day(now) && NoneAfter(realized, Day(d.anchor.value))
      && d.pnl == SumOn(realized, Day(d.anchor.value))
      && forall symbol :: GetOr(d.pnlBySymbol, symbol, 0.0) == SumOnFor(realized, symbol, Day(d.anchor.value))
  }

  lemma DayMonotone(t: int, u: int)
    requires t <= u
    ensures Day(t) <= Day(u)
  {
  }

  /** Rolling to a later day starts from nothing, and nothing was realised on that day yet. */
  lemma RollKeeps(d: Daily, balance: Option<real>, realized: seq<Realized>, before: int, now: int)
    requires DailyIs(d, realized, before) && before <= now
    ensures
      var d' := Roll(d, balance, now);
      && d'.anchor.Some? && Day(d'.anchor.value) == Day(now) && NoneAfter(realized, Day(now))
      && d'.pnl == SumOn(realized, Day(now))
      && (forall symbol :: GetOr(d'.pnlBySymbol, symbol, 0.0) == SumOnFor(realized, symbol, Day(now)))
  {
    hide Day;
    DayMonotone(before, now);
    if realized != [] && Day(d.anchor.value) != Day(now) {
      NothingBeyond(realized, Day(d.anchor.value), Day(now));
    }
  }

  lemma AddKeeps(d: Daily, realized: seq<Realized>, symbol: string, pnl: real, now: int)
    requires d.anchor.Some? && Day(d.anchor.value) == Day(now) && NoneAfter(realized, Day(now))
    requires d.pnl == SumOn(realized, Day(now))
    requires forall s :: GetOr(d.pnlBySymbol, s, 0.0) == SumOnFor(realized, s, Day(now))
    ensures DailyIs(AddPnl(d, symbol, pnl), realized + [Realized(symbol, pnl, now)], now)
  {
    hide Day;
    var more := realized + [Realized(symbol, pnl, now)];
    assert more[..|realized|] == realized;
    var d' := AddPnl(d, symbol, pnl);
    forall s ensures GetOr(d'.pnlBySymbol, s, 0.0) == SumOnFor(more, s, Day(now)) {
      assert GetOr(d.pnlBySymbol, s, 0.0) == SumOnFor(realized, s, Day(now));
    }
  }

  lemma DailyLater(d: Daily, realized: seq<Realized>, before: int, now: int)
    requires DailyIs(d, realized, before) && before <= now
    ensures DailyIs(d, realized, now)
  {
    DayMonotone(before, now);
  }

  lemma {:induction false} DailyIsRealized(cfg: RiskConfig, inputs: seq<Input>, now: int)
    requires ClockUpTo(inputs, now)
    ensures DailyIs(MonitorAfter(cfg, inputs).daily, RealizedBy(inputs), now)
  {
    hide Day, DailyIs, GatesAfter, Roll, AddPnl;
    if inputs == [] {
      NothingRealized(FRESH.daily, now);
    } else {
      var init, last := inputs[..|inputs| - 1], inputs[|inputs| - 1];
      var m := MonitorAfter(cfg, init);
      var realized := RealizedBy(init);
      var at := if TimeOf(last).Some? then TimeOf(last).value else now;
      DailyIsRealized(cfg, init, at);
      match last {
        case Closed(_, _, symbol, pnl, _) =>
          RollKeeps(m.daily, m.balance, realized, at, at);
          AddKeeps(Roll(m.daily, m.balance, at), realized, symbol, pnl, at);
          DailyLater(AddPnl(Roll(m.daily, m.balance, at), symbol, pnl), RealizedBy(inputs), at, now);
        case PartiallyClosed(symbol, pnl, _) =>
          RollKeeps(m.daily, m.balance, realized, at, at);
          AddKeeps(Roll(m.daily, m.balance, at), realized, symbol, pnl, at);
          DailyLater(AddPnl(Roll(m.daily, m.balance, at), symbol, pnl), RealizedBy(inputs), at, now);
        case Checked(_, _, _) =>
          RollKeeps(m.daily, m.balance, realized, at, at);
          RolledIsDaily(Roll(m.daily, m.balance, at), realized, at);
          DailyLater(MonitorAfter(cfg, inputs).daily, realized, at, now);
        case Snapped(s) => SnapshotKeepsDaily(m, realized, s, now);
        case _ =>
      }
    }
  }

  lemma NothingRealized(d: Daily, now: int)
    requires d.pnl == 0.0 && d.pnlBySymbol == map[]
    ensures DailyIs(d, [], now)
  {
  }

  lemma RolledIsDaily(d: Daily, realized: seq<Realized>, now: int)
    requires d.anchor.Some? && Day(d.anchor.value) == Day(now) && NoneAfter(realized, Day(now))
    requires d.pnl == SumOn(realized, Day(now))
    requires forall symbol :: GetOr(d.pnlBySymbol, symbol, 0.0) == SumOnFor(realized, symbol, Day(now))
    ensures DailyIs(d, realized, now)
  {
  }

  /** A snapshot sets an anchor only while nothing has been realised. */
  lemma SnapshotKeepsDaily(m: Monitor, realized: seq<Realized>, s: Snapshot, now: int)
    requires DailyIs(m.daily, realized, now)
    ensures DailyIs(DailyAfter(m.daily, m.needsOpeningBalance, s), realized, now)
  {
  }

  lemma SinceMidnight(t: int, now: int)
    requires Day(t) <= Day(now)
    ensures t >= Midnight(now) <==> Day(t) == Day(now)
  {
  }

  lemma {:induction false} LogSums(rows: seq<TradeRow>, realized: seq<Realized>, now: int)
    requires Logged(rows, realized) && NoneAfter(realized, Day(now))
    ensures TotalSince(rows, Midnight(now)) == SumOn(realized, Day(now))
    ensures forall symbol :: SymbolTotalSince(rows, symbol, Midnight(now)) == SumOnFor(realized, symbol, Day(now))
  {
    hide Day, Midnight;
    if rows != [] {
      var n := |rows| - 1;
      assert realized[n] in realized && forall r :: r in realized[..n] ==> r in realized;
      LogSums(rows[..n], realized[..n], now);
      assert LogsOne(rows[n], realized[n]);
      SinceMidnight(rows[n].closeTs, now);
    }
  }

  lemma {:induction false} RealizedInPast(inputs: seq<Input>, now: int)
    requires ClockUpTo(inputs, now)
    ensures NoneAfter(RealizedBy(inputs), Day(now))
  {
    hide Day;
    if inputs != [] {
      var t := TimeOf(inputs[|inputs| - 1]);
      var before := if t.Some? then t.value else now;
      RealizedInPast(inputs[..|inputs| - 1], before);
      DayMonotone(before, now);
    }
  }

  /** A row stamped on the next day already is counted on that day although the monitor did not count it there:
      the two agree about that day exactly when there was nothing to count. */
  lemma LateStampIsMisdated(row: TradeRow, r: Realized, now: int)
    requires row.symbol == r.symbol && row.pnl == r.pnl
    requires Day(r.at) < Day(row.closeTs) == Day(now)
    ensures TotalSince([row], Midnight(now)) == SumOn([r], Day(now)) <==> r.pnl == 0.0
  {
    SinceMidnight(row.closeTs, now);
    assert [row][..0] == [] && [r][..0] == [];
  }

  /** The trade table since midnight holds exactly the daily figures of the live monitor, over any number of days. */
  lemma TradeTableRestoresDaily(cfg: RiskConfig, inputs: seq<Input>, rows: seq<TradeRow>, now: int)
    requires ClockUpTo(inputs, now) && Logged(rows, RealizedBy(inputs))
    ensures
      var m := MonitorAfter(cfg, inputs);
      var live := Roll(m.daily, m.balance, now);
      && live.pnl == TotalSince(rows, Midnight(now))
      && forall symbol :: GetOr(live.pnlBySymbol, symbol, 0.0) == SymbolTotalSince(rows, symbol, Midnight(now))
  {
    hide Day, DailyIs, Roll, Midnight, MonitorAfter;
    DailyIsRealized(cfg, inputs, now);
    var m := MonitorAfter(cfg, inputs);
    RollKeeps(m.daily, m.balance, RealizedBy(inputs), now, now);
    RealizedInPast(inputs, now);
    LogSums(rows, RealizedBy(inputs), now);
    var live := Roll(m.daily, m.balance, now);
    forall symbol ensures GetOr(live.pnlBySymbol, symbol, 0.0) == SymbolTotalSince(rows, symbol, Midnight(now)) {
      assert GetOr(live.pnlBySymbol, symbol, 0.0) == SumOnFor(RealizedBy(inputs), symbol, Day(now));
    }
  }

  // ---- Open positions --------------------------------------------------------------------------

  function OwnerFrom(sidOf: map<int, string>, magic: int): Option<string> {
    if magic in sidOf then Some(sidOf[magic]) else None
  }

  /** The broker's positions, in any order, with their owners read back from the magic tags. */
  function OpenList(b: Books, sidOf: map<int, string>, tickets: seq<nat>): seq<OpenPosition>
    requires forall k :: k in tickets ==> k in b.positions
  {
    if tickets == [] then []
    else
      var k := tickets[|tickets| - 1];
      OpenList(b, sidOf, tickets[..|tickets| - 1])
        + [OpenPosition(OwnerFrom(sidOf, b.positions[k].magic), b.positions[k].symbol, k, ACCOUNT)]
  }

  ghost predicate Lists(b: Books, tickets: seq<nat>) {
    Distinct(tickets) && forall k :: k in tickets <==> k in b.positions
  }

  /** Every open position's tag leads back to the strategy that opened it. */
  ghost predicate TagsResolve(b: Books, sidOf: map<int, string>) {
    forall k :: k in b.positions && k in b.strategyOf
      ==> OwnerFrom(sidOf, b.positions[k].magic) == Some(b.strategyOf[k])
  }

  ghost function Restrict(m: map<nat, string>, tickets: seq<nat>): map<nat, string> {
    map k | k in m && k in tickets :: m[k]
  }

  lemma RestrictAppend(m: map<nat, string>, init: seq<nat>, k: nat)
    requires k in m && k !in init
    ensures Restrict(m, init + [k]) == Restrict(m, init)[k := m[k]]
    ensures k !in Restrict(m, init)
  {
  }

  lemma OpenListAppend(b: Books, sidOf: map<int, string>, init: seq<nat>, k: nat)
    requires forall j :: j in init + [k] ==> j in b.positions
    requires forall j :: j in init ==> j in b.positions
    requires k in b.positions
    ensures CountAll(OpenList(b, sidOf, init + [k])) == CountOpen(CountAll(OpenList(b, sidOf, init)),
      OpenPosition(OwnerFrom(sidOf, b.positions[k].magic), b.positions[k].symbol, k, ACCOUNT))
  {
    assert (init + [k])[..|init|] == init;
    var list := OpenList(b, sidOf, init + [k]);
    assert list[..|list| - 1] == OpenList(b, sidOf, init);
  }

  /** The symbol is counted before anyone asks whose position it is. */
  lemma {:induction false} ListSymbols(b: Books, sidOf: map<int, string>, tickets: seq<nat>)
    requires Distinct(tickets) && forall k :: k in tickets ==> k in b.positions
    ensures CountsKeys(CountAll(OpenList(b, sidOf, tickets)).bySymbol, Restrict(SymbolOf(b), tickets))
  {
    hide CountsKeys, GetOr, OpenList, CountAll, Restrict, OwnerFrom;
    if tickets == [] {
      NothingListed(b, sidOf);
    } else {
      var init, k := tickets[..|tickets| - 1], tickets[|tickets| - 1];
      assert tickets == init + [k] && k !in init;
      ListSymbols(b, sidOf, init);
      OpenListAppend(b, sidOf, init, k);
      RestrictAppend(SymbolOf(b), init, k);
      var counted := CountAll(OpenList(b, sidOf, init)).bySymbol;
      CountedAfterPut(counted, Restrict(SymbolOf(b), init), k, b.positions[k].symbol);
    }
  }

  lemma {:induction false} ListStrategies(b: Books, sidOf: map<int, string>, tickets: seq<nat>)
    requires Consistent(b) && TagsResolve(b, sidOf) && Distinct(tickets)
    requires forall k :: k in tickets ==> k in b.positions
    ensures CountsKeys(CountAll(OpenList(b, sidOf, tickets)).byStrategy, Restrict(b.strategyOf, tickets))
  {
    hide CountsKeys, GetOr, OpenList, CountAll, Restrict, SymbolOf, Consistent, TagsResolve, OwnerFrom;
    if tickets == [] {
      NothingListed(b, sidOf);
    } else {
      var init, k := tickets[..|tickets| - 1], tickets[|tickets| - 1];
      assert tickets == init + [k] && k !in init;
      OwnerOfOpen(b, sidOf, k);
      ListStrategies(b, sidOf, init);
      OpenListAppend(b, sidOf, init, k);
      RestrictAppend(b.strategyOf, init, k);
      CountedAfterPut(CountAll(OpenList(b, sidOf, init)).byStrategy, Restrict(b.strategyOf, init), k, b.strategyOf[k]);
    }
  }

  lemma OwnerOfOpen(b: Books, sidOf: map<int, string>, k: nat)
    requires Consistent(b) && TagsResolve(b, sidOf) && k in b.positions
    ensures k in b.strategyOf && OwnerFrom(sidOf, b.positions[k].magic) == Some(b.strategyOf[k])
    ensures k in SymbolOf(b) && SymbolOf(b)[k] == b.positions[k].symbol
  {
  }

  lemma NothingListed(b: Books, sidOf: map<int, string>)
    ensures CountAll(OpenList(b, sidOf, [])) == FRESH.counts
    ensures CountsKeys(map[], Restrict(b.strategyOf, [])) && CountsKeys(map[], Restrict(SymbolOf(b), []))
  {
    assert Restrict(b.strategyOf, []) == map[] && Restrict(SymbolOf(b), []) == map[];
    assert forall v :: KeysOf(map[], v) == {};
  }

  lemma {:induction false} ListOwners(b: Books, sidOf: map<int, string>, tickets: seq<nat>, key: TicketKey)
    requires Distinct(tickets) && forall j :: j in tickets ==> j in b.positions
    ensures
      var owner := CountAll(OpenList(b, sidOf, tickets)).owner;
      var k := key.1;
      var resolved := if k in b.positions then OwnerFrom(sidOf, b.positions[k].magic) else None;
      && (key in owner <==> key.0 == ACCOUNT && k in tickets && resolved.Some?)
      && (key in owner ==> owner[key] == resolved.value)
  {
    if tickets != [] {
      var init, last := tickets[..|tickets| - 1], tickets[|tickets| - 1];
      assert tickets == init + [last] && last !in init;
      ListOwners(b, sidOf, init, key);
      OpenListAppend(b, sidOf, init, last);
    }
  }

  lemma RestrictToAll(b: Books, tickets: seq<nat>)
    requires Consistent(b) && Lists(b, tickets)
    ensures Restrict(b.strategyOf, tickets) == b.strategyOf && Restrict(SymbolOf(b), tickets) == SymbolOf(b)
  {
  }

  /** The per-symbol counts survive a restart whatever the tags say. */
  lemma RehydratedSymbolsAgree(b: Books, sidOf: map<int, string>, tickets: seq<nat>)
    requires Consistent(b) && Lists(b, tickets)
    ensures CountsKeys(CountAll(OpenList(b, sidOf, tickets)).bySymbol, SymbolOf(b))
  {
    hide CountsKeys, CountAll, OpenList, Restrict, SymbolOf;
    ListSymbols(b, sidOf, tickets);
    RestrictToAll(b, tickets);
  }

  /** Counting the broker's positions after a restart gives counters that agree with the broker. */
  lemma RehydratedCountsAgree(b: Books, sidOf: map<int, string>, tickets: seq<nat>)
    requires Consistent(b) && TagsResolve(b, sidOf) && Lists(b, tickets)
    ensures Agrees(CountAll(OpenList(b, sidOf, tickets)), b)
  {
    hide CountsKeys, CountAll, OpenList, Restrict, SymbolOf;
    RehydratedSymbolsAgree(b, sidOf, tickets);
    ListStrategies(b, sidOf, tickets);
    RestrictToAll(b, tickets);
    var owner := CountAll(OpenList(b, sidOf, tickets)).owner;
    forall key: TicketKey
      ensures (key in owner <==> key.0 == ACCOUNT && key.1 in b.strategyOf)
        && (key in owner ==> owner[key] == b.strategyOf[key.1])
    {
      ListOwners(b, sidOf, tickets, key);
    }
  }

  /** The ticket map survives a restart exactly when every open position's tag resolves to its owner. */
  lemma OwnersSurviveIffTagsResolve(b: Books, sidOf: map<int, string>, tickets: seq<nat>)
    requires Consistent(b) && Lists(b, tickets)
    ensures OwnersAgree(CountAll(OpenList(b, sidOf, tickets)).owner, b) <==> TagsResolve(b, sidOf)
  {
    hide CountAll, OpenList, CountsKeys;
    var owner := CountAll(OpenList(b, sidOf, tickets)).owner;
    if TagsResolve(b, sidOf) {
      RehydratedCountsAgree(b, sidOf, tickets);
    }
    if OwnersAgree(owner, b) {
      forall k | k in b.positions && k in b.strategyOf
        ensures OwnerFrom(sidOf, b.positions[k].magic) == Some(b.strategyOf[k])
      {
        ListOwners(b, sidOf, tickets, (ACCOUNT, k));
        assert (ACCOUNT, k) in owner;
      }
    }
  }

  // ---- Tags -------------------------------------------------------------------------------------

  /** The reverse of the strategy-to-magic table; of strategies that share a tag, one wins. */
  ghost predicate Reverses(sidOf: map<int, string>, magics: Magics) {
    && (forall sid :: sid in magics ==> magics[sid] in sidOf)
    && (forall magic :: magic in sidOf ==> sidOf[magic] in magics && magics[sidOf[magic]] == magic)
  }

  ghost predicate DistinctTags(magics: Magics) {
    forall s1, s2 :: s1 in magics && s2 in magics && magics[s1] == magics[s2] ==> s1 == s2
  }

  /** Positions and pending orders carry the tag of the strategy that owns them. */
  ghost predicate Tagged(magics: Magics, b: Books) {
    && (forall k :: k in b.positions && k in b.strategyOf ==> b.positions[k].magic == MagicOf(magics, b.strategyOf[k]))
    && (forall k :: k in b.pending ==> b.pending[k].magic == MagicOf(magics, b.pending[k].strategyId))
  }

  lemma TagsResolveWhenDistinct(magics: Magics, sidOf: map<int, string>, b: Books)
    requires Tagged(magics, b) && Reverses(sidOf, magics) && DistinctTags(magics)
    requires forall k :: k in b.strategyOf ==> b.strategyOf[k] in magics
    ensures TagsResolve(b, sidOf)
  {
  }

  /** A strategy has a tag, and in the reversed table that tag is its own. This is a matter of configuration. */
  predicate WinsTag(magics: Magics, sidOf: map<int, string>, sid: string) {
    sid in magics && OwnerFrom(sidOf, magics[sid]) == Some(sid)
  }

  ghost predicate OpenOwnersWin(magics: Magics, sidOf: map<int, string>, b: Books) {
    forall k :: k in b.strategyOf ==> WinsTag(magics, sidOf, b.strategyOf[k])
  }

  /** Every configured strategy wins its tag exactly when no two share one. */
  lemma AllWinIffTagsDistinct(magics: Magics, sidOf: map<int, string>)
    requires Reverses(sidOf, magics)
    ensures (forall sid :: sid in magics ==> WinsTag(magics, sidOf, sid)) <==> DistinctTags(magics)
  {
  }

  lemma TagsResolveIffOwnersWin(magics: Magics, sidOf: map<int, string>, b: Books)
    requires Consistent(b) && Tagged(magics, b) && Reverses(sidOf, magics)
    ensures TagsResolve(b, sidOf) <==> OpenOwnersWin(magics, sidOf, b)
  {
    if TagsResolve(b, sidOf) {
      forall k | k in b.strategyOf ensures WinsTag(magics, sidOf, b.strategyOf[k]) {
        assert k in b.positions && b.positions[k].magic == MagicOf(magics, b.strategyOf[k]);
        assert OwnerFrom(sidOf, b.positions[k].magic) == Some(b.strategyOf[k]);
      }
    }
  }

  /** The ticket map survives a restart exactly when every strategy with an open position wins its tag. */
  lemma OwnersSurviveIffOwnersWin(magics: Magics, b: Books, sidOf: map<int, string>, tickets: seq<nat>)
    requires Consistent(b) && Lists(b, tickets) && Tagged(magics, b) && Reverses(sidOf, magics)
    ensures OwnersAgree(CountAll(OpenList(b, sidOf, tickets)).owner, b) <==> OpenOwnersWin(magics, sidOf, b)
  {
    hide TagsResolve, OwnersAgree, OpenOwnersWin, Reverses, Tagged, CountAll, OpenList;
    OwnersSurviveIffTagsResolve(b, sidOf, tickets);
    TagsResolveIffOwnersWin(magics, sidOf, b);
  }

  /** A position of "trend", and a restart: the owner is known afterwards exactly when "trend" wins its tag.
      It does not without a tag of its own, nor when "scalp" has the same tag and comes last in the table. */
  lemma OwnerLostOnRestart(magics: Magics, sidOf: map<int, string>) returns (trace: seq<Engine>, steps: seq<Step>)
    requires Reverses(sidOf, magics)
    ensures Run(SmallSetup().(magics := magics), trace, steps, 100.0, 0)
    ensures
      var b := trace[|steps|].books;
      && b.strategyOf == map[1 := "trend"] && Lists(b, [1]) && trace[|steps|].delivered == 0
      && (OwnersAgree(CountAll(OpenList(b, sidOf, [1])).owner, b) <==> WinsTag(magics, sidOf, "trend"))
    ensures !WinsTag(map[], map[], "trend") && Reverses(map[], map[])
    ensures
      var shared: Magics := map["trend" := 7, "scalp" := 7];
      Reverses(map[7 := "scalp"], shared) && !WinsTag(shared, map[7 := "scalp"], "trend")
  {
    hide Next, Judge, Start, CountAll, OpenList, OwnersAgree, Tagged, Reverses, TicketsAccounted, LedgerBalances,
      Mirrored, SameCounts;
    var s, signal := SmallSetup().(magics := magics), SmallSignal(MARKET);
    steps := [Replayed(Quoted("EURUSD", 1.0, 1.0)), Signalled(signal, 0)];
    var e0 := Start(100.0, 0);
    QuotedStart(s);
    var e1 := Next(s, e0, steps[0]);
    SmallJudge(FRESH, 0);
    AcceptedMarketSignal(s, e1, signal, 0);
    trace := [e0, e1, Next(s, e1, steps[1])];
    RunTagged(s, trace, steps, 100.0, 0, 2);
    OneOpen(magics, trace[2].books, sidOf);
    OwnersSurviveIffOwnersWin(magics, trace[2].books, sidOf, [1]);
    SharedTag();
  }

  lemma OneOpen(magics: Magics, b: Books, sidOf: map<int, string>)
    requires Consistent(b) && b.strategyOf == map[1 := "trend"]
    ensures Lists(b, [1])
    ensures OpenOwnersWin(magics, sidOf, b) <==> WinsTag(magics, sidOf, "trend")
  {
    assert 1 in b.strategyOf.Keys;
  }

  lemma SharedTag()
    ensures Reverses(map[], map[])
    ensures
      var shared: Magics := map["trend" := 7, "scalp" := 7];
      Reverses(map[7 := "scalp"], shared) && !WinsTag(shared, map[7 := "scalp"], "trend")
  {
  }

  lemma SubmitTagged(t: Terms, magics: Magics, b: Books, signal: Signal)
    requires Consistent(b) && Tagged(magics, b)
    ensures Tagged(magics, Submit(t, b, Request(magics, signal)))
  {
    hide Terms.SlippedPrice, Terms.Commission;
    assert b.nextTicket !in b.positions && b.nextTicket !in b.pending;
  }

  lemma PromoteTagged(t: Terms, magics: Magics, b: Books, ticket: nat, fillPrice: real)
    requires Consistent(b) && Tagged(magics, b) && ticket in b.pending
    ensures Tagged(magics, Promote(t, b, ticket, fillPrice))
  {
    hide Terms.Commission;
  }

  lemma {:induction false} CheckListTagged(
      t: Terms, magics: Magics, b: Books, symbol: string, seen: Observation, tickets: seq<nat>, initialBalance: real)
    requires Sound(t, b, initialBalance) && Tagged(magics, b)
    ensures Tagged(magics, CheckList(t, b, symbol, seen, tickets))
  {
    hide TicketsAccounted, LedgerBalances, Tagged, Fires, PendingFill, Terms.Commission, Promote;
    if tickets != [] {
      var init, last := tickets[..|tickets| - 1], tickets[|tickets| - 1];
      CheckListTagged(t, magics, b, symbol, seen, init, initialBalance);
      CheckListKeeps(t, b, symbol, seen, init, initialBalance);
      var mid := CheckList(t, b, symbol, seen, init);
      if last in mid.pending && mid.pending[last].symbol == symbol && Fires(mid.pending[last], seen) {
        var (fillPrice, calls) := PendingFill(t, mid.slippageCalls, mid.pending[last], seen);
        TaggedAsked(magics, mid, mid.(slippageCalls := calls));
        PromoteTagged(t, magics, mid.(slippageCalls := calls), last, fillPrice);
      }
    }
  }

  lemma TaggedAsked(magics: Magics, b: Books, b': Books)
    requires b'.positions == b.positions && b'.pending == b.pending && b'.strategyOf == b.strategyOf
    ensures Tagged(magics, b) == Tagged(magics, b')
  {
  }

  lemma CloseTagged(t: Terms, magics: Magics, b: Books, ticket: nat, volume: Option<real>)
    requires Tagged(magics, b)
    ensures Tagged(magics, Close(t, b, ticket, volume).0)
  {
    hide Terms.SlippedPrice, Trade;
  }

  lemma ModifyTagged(
      magics: Magics, b: Books, ticket: nat, sl: Option<real>, tp: Option<real>, price: Option<real>,
      volume: Option<real>)
    requires Tagged(magics, b)
    ensures Tagged(magics, Modify(b, ticket, sl, tp, price, volume).0)
  {
    hide Modify;
    ModifyInPlace(b, ticket, sl, tp, price, volume);
  }

  lemma NextTagged(s: Setup, e: Engine, step: Step, initialBalance: real)
    requires Sound(s.terms, e.books, initialBalance) && Enabled(e, step) && Tagged(s.magics, e.books)
    ensures Tagged(s.magics, Next(s, e, step).books)
  {
    hide Tagged, TicketsAccounted, LedgerBalances, Mirrored, CountsOf, Close, Modify, Submit, Judge, CheckPending;
    var t, m, b := s.terms, s.magics, e.books;
    match step {
      case Signalled(signal, _) =>
        SubmitTagged(t, m, b, signal);
        TaggedAsked(m, b, RejectSignal(b, signal));
      case CloseRequested(_, ticket) => CloseTagged(t, m, b, ticket, None);
      case PartialCloseRequested(_, ticket, part) => CloseTagged(t, m, b, ticket, Some(part));
      case CancelRequested(_, ticket) => CancelTagged(m, b, ticket);
      case ModifyRequested(sid, ticket, sl, tp, price, volume) =>
        ModifyRequestTagged(m, b, sid, ticket, sl, tp, price, volume);
      case Replayed(op) => ReplayTagged(t, m, b, op, initialBalance);
      case _ =>
    }
  }

  lemma CancelTagged(magics: Magics, b: Books, ticket: nat)
    requires Tagged(magics, b)
    ensures Tagged(magics, Cancel(b, ticket).0)
  {
  }

  lemma ModifyRequestTagged(
      magics: Magics, b: Books, sid: string, ticket: nat, sl: Option<real>, tp: Option<real>, price: Option<real>,
      volume: Option<real>)
    requires Tagged(magics, b)
    ensures Tagged(magics, HandleModify(magics, b, sid, ticket, sl, tp, price, volume))
  {
    hide Tagged, Modify;
    var b' := HandleModify(magics, b, sid, ticket, sl, tp, price, volume);
    if ticket in b.pending {
      var p := b.pending[ticket];
      ModifyTagged(magics, b, ticket, OrElse(sl, p.sl), OrElse(tp, p.tp), OrElse(price, p.price),
                   Some(if volume.Some? then volume.value else p.volume));
    } else if OwnsPosition(magics, b, sid, ticket) {
      var pos := b.positions[ticket];
      var (mid, _) := Modify(b, ticket, OrElse(sl, pos.sl), OrElse(tp, pos.tp), None, None);
      ModifyTagged(magics, b, ticket, OrElse(sl, pos.sl), OrElse(tp, pos.tp), None, None);
      TaggedAsked(magics, mid, Publish(mid, PositionModified(GetOr(mid.positions, ticket, pos))));
    }
  }

  lemma ReplayTagged(t: Terms, magics: Magics, b: Books, op: Op, initialBalance: real)
    requires Sound(t, b, initialBalance) && Tagged(magics, b) && !op.PlaceOrder?
    ensures Tagged(magics, Apply(t, b, op))
  {
    hide Tagged, TicketsAccounted, LedgerBalances, Close, Modify, Cancel;
    match op
    case CheckPendings(symbol, seen) =>
      CheckListTagged(t, magics, b, symbol, seen, Tickets(b.pending, b.nextTicket), initialBalance);
    case ClosePosition(ticket, volume) => CloseTagged(t, magics, b, ticket, volume);
    case ModifyOrder(ticket, sl, tp, price, volume) => ModifyTagged(magics, b, ticket, sl, tp, price, volume);
    case CancelOrder(ticket) => CancelTagged(magics, b, ticket);
    case _ => TaggedAsked(magics, b, Apply(t, b, op));
  }

  lemma {:induction false} RunTagged(
      s: Setup, trace: seq<Engine>, steps: seq<Step>, initialBalance: real, now: int, i: nat)
    requires Run(s, trace, steps, initialBalance, now) && i <= |steps|
    ensures Tagged(s.magics, trace[i].books)
  {
    hide Next, Sound, Mirrored, SameCounts, CountsOf;
    if i > 0 {
      RunTagged(s, trace, steps, initialBalance, now, i - 1);
      RunMirrors(s, trace, steps, initialBalance, now, i - 1);
      NextTagged(s, trace[i - 1], steps[i - 1], initialBalance);
    }
  }

  // ---- The whole restart ---------------------------------------------------------------------------

  /** What one engine step feeds the monitor. */
  function InputOf(e: Engine, step: Step): seq<Input> {
    match step
    case Signalled(signal, now) => if signal.filterPasses then [Checked(signal.strategyId, signal.symbol, now)] else []
    case Delivered(now) =>
      if e.delivered >= |e.books.events| then []
      else
        (match e.books.events[e.delivered]
         case OrderFilled(order) => [Filled(ACCOUNT, order.ticket, order.strategyId, order.symbol)]
         case PositionClosed(p, pnl, _) => [Input.Closed(ACCOUNT, p.ticket, p.symbol, pnl, now)]
         case PartialClosed(p, _, pnl, _) => [PartiallyClosed(p.symbol, pnl, now)]
         case _ => [])
    case Snapshotted(snapshot) => [Snapped(snapshot)]
    case KillSwitchReset => [Input.KillSwitchReset]
    case ProfitLockReset => [Input.ProfitLockReset]
    case _ => []
  }

  function InputsOf(trace: seq<Engine>, steps: seq<Step>, i: nat): seq<Input>
    requires i <= |steps| < |trace|
  {
    if i == 0 then [] else InputsOf(trace, steps, i - 1) + InputOf(trace[i - 1], steps[i - 1])
  }

  lemma StepFeedsMonitor(s: Setup, e: Engine, step: Step)
    requires Enabled(e, step)
    ensures
      var fed := InputOf(e, step);
      && |fed| <= 1
      && Next(s, e, step).monitor == if fed == [] then e.monitor else Handle(s.cfg, e.monitor, fed[0])
  {
    hide OnFilled, OnClosed, OnPartialClosed, OnSnapshot, AfterCheck, Judge, Submit, ResetKillSwitch, ResetProfitLock,
      HandleClose, HandlePartialClose, HandleCancel, HandleModify, Apply, RejectSignal;
  }

  lemma {:induction false} MonitorIsItsInputs(
      s: Setup, trace: seq<Engine>, steps: seq<Step>, initialBalance: real, now: int, i: nat)
    requires Run(s, trace, steps, initialBalance, now) && i <= |steps|
    ensures trace[i].monitor == MonitorAfter(s.cfg, InputsOf(trace, steps, i))
  {
    hide Next, Handle, InputOf;
    if i > 0 {
      MonitorIsItsInputs(s, trace, steps, initialBalance, now, i - 1);
      StepFeedsMonitor(s, trace[i - 1], steps[i - 1]);
      var before, fed := InputsOf(trace, steps, i - 1), InputOf(trace[i - 1], steps[i - 1]);
      if fed == [] {
        assert before + fed == before;
      } else {
        assert (before + fed)[..|before|] == before;
      }
    }
  }

  /** After a restart the rehydrated monitor has the per-symbol counts, daily profit, peak and switches that the
      live monitor would have had, whatever ran before; and it has the owners, hence all the counts, exactly when
      every strategy with an open position wins its tag. */
  lemma RestartIsTransparent(
      s: Setup, trace: seq<Engine>, steps: seq<Step>, initialBalance: real, start: int, now: int,
      sidOf: map<int, string>, tickets: seq<nat>, rows: seq<TradeRow>, pnlBySymbol: map<string, real>)
    requires Run(s, trace, steps, initialBalance, start)
    requires trace[|steps|].delivered == |trace[|steps|].books.events| && Lists(trace[|steps|].books, tickets)
    requires Reverses(sidOf, s.magics)
    requires
      var inputs := InputsOf(trace, steps, |steps|);
      ClockUpTo(inputs, now) && Logged(rows, RealizedBy(inputs))
    requires forall symbol :: GetOr(pnlBySymbol, symbol, 0.0) == SymbolTotalSince(rows, symbol, Midnight(now))
    ensures
      var e := trace[|steps|];
      var live := AfterCheck(e.monitor, now);
      var row := PersistedRow(s.cfg, InputsOf(trace, steps, |steps|));
      var restarted := Rehydrated(FRESH, OpenList(e.books, sidOf, tickets), TotalSince(rows, Midnight(now)),
                                  pnlBySymbol, now, row);
      && (restarted.counts.owner == live.counts.owner <==> OpenOwnersWin(s.magics, sidOf, e.books))
      && (OpenOwnersWin(s.magics, sidOf, e.books) ==> SameCounts(restarted.counts, live.counts))
      && (forall symbol :: GetOr(restarted.counts.bySymbol, symbol, 0) == GetOr(live.counts.bySymbol, symbol, 0))
      && RowOf(restarted.gates) == RowOf(live.gates)
      && var today := Roll(e.monitor.daily, e.monitor.balance, now);
         && restarted.daily.pnl == today.pnl
         && forall symbol ::
              GetOr(restarted.daily.pnlBySymbol, symbol, 0.0) == GetOr(today.pnlBySymbol, symbol, 0.0)
  {
    hide Next, Tagged, Sound, CountsKeys, CountAll, OpenList, Roll, MonitorAfter, PersistedRow, InputsOf, Midnight,
      CountsOf, Mirrored, Restored, RealizedBy, Logged, ClockUpTo, SameCounts, OpenOwnersWin, Reverses;
    var n := |steps|;
    var e := trace[n];
    var inputs := InputsOf(trace, steps, n);
    MonitorMirrorsBroker(s, trace, steps, initialBalance, start, n);
    RunMirrors(s, trace, steps, initialBalance, start, n);
    RunTagged(s, trace, steps, initialBalance, start, n);
    MonitorIsItsInputs(s, trace, steps, initialBalance, start, n);
    assert Consistent(e.books) by { SoundIsConsistent(s.terms, e.books, initialBalance); }
    CountsSurvive(s.magics, e.books, sidOf, tickets, e.monitor.counts);
    RowRestoresGates(s.cfg, inputs);
    TradeTableRestoresDaily(s.cfg, inputs, rows, now);
  }

  /** Against any counters that agree with the broker: what survives a recount, and when. */
  lemma CountsSurvive(magics: Magics, b: Books, sidOf: map<int, string>, tickets: seq<nat>, live: Counts)
    requires Consistent(b) && Lists(b, tickets) && Tagged(magics, b) && Reverses(sidOf, magics) && Agrees(live, b)
    ensures
      var recounted := CountAll(OpenList(b, sidOf, tickets));
      && (recounted.owner == live.owner <==> OpenOwnersWin(magics, sidOf, b))
      && (OpenOwnersWin(magics, sidOf, b) ==> Agrees(recounted, b) && SameCounts(recounted, live))
      && (forall symbol :: GetOr(recounted.bySymbol, symbol, 0) == GetOr(live.bySymbol, symbol, 0))
  {
    hide KeysOf, SymbolOf, CountAll, OpenList, Tagged, Reverses, TagsResolve, OpenOwnersWin, SameCounts;
    var recounted := CountAll(OpenList(b, sidOf, tickets));
    OwnersSurviveIffOwnersWin(magics, b, sidOf, tickets);
    RehydratedSymbolsAgree(b, sidOf, tickets);
    forall symbol ensures GetOr(recounted.bySymbol, symbol, 0) == GetOr(live.bySymbol, symbol, 0) {
      assert GetOr(recounted.bySymbol, symbol, 0) == |KeysOf(SymbolOf(b), symbol)|;
    }
    if OpenOwnersWin(magics, sidOf, b) {
      TagsResolveIffOwnersWin(magics, sidOf, b);
      RehydratedCountsAgree(b, sidOf, tickets);
      SameCountsAgree(recounted, live, b);
    }
  }

  lemma SoundIsConsistent(t: Terms, b: Books, initialBalance: real)
    requires Sound(t, b, initialBalance)
    ensures Consistent(b)
  {
  }

}
