/** Turning ticks into closed bars of one (symbol, timeframe). */
module BarAggregator {
  import opened Domain
  import opened UtcTime
  import CivilMonths

  // ---- Bar boundaries --------------------------------------------------------

  /** Every timeframe but TICK, which raises. */
  predicate HasBoundary(tf: Timeframe) {
    tf != TICK
  }

  /** The fixed lengths; a calendar month has none. */
  function Seconds(tf: Timeframe): (s: int)
    requires HasBoundary(tf) && tf != MN1
    ensures 0 < s
  {
    match tf
    case M1 => 60
    case M2 => 120
    case M3 => 180
    case M5 => 300
    case M10 => 600
    case M15 => 900
    case M30 => 1800
    case M45 => 2700
    case H1 => 3600
    case H2 => 7200
    case H4 => 14400
    case D1 => 86400
    case W1 => 604800
  }

  /** Whole seconds since the epoch, truncated toward zero. */
  function EpochSeconds(t: int): int {
    if t >= 0 then t / SECOND else -((-t) / SECOND)
  }

  function BarOpenTime(t: int, tf: Timeframe): int
    requires HasBoundary(tf)
  {
    if tf == W1 then
      Midnight(t) - Weekday(Midnight(t)) * DAY
    else if tf == MN1 then
      DAY * CivilMonths.MonthStart(t / DAY)
    else
      var epoch := EpochSeconds(t);
      (epoch - epoch % Seconds(tf)) * SECOND
  }

  // ---- The machine -------------------------------------------------------------

  datatype Progress = Progress(openTime: Option<int>, o: real, h: real, l: real, c: real, tickCount: int)

  const COLD: Progress := Progress(None, 0.0, 0.0, 0.0, 0.0, 0)

  function StartBar(openTime: int, t: Tick): Progress {
    Progress(Some(openTime), t.bid, t.bid, t.bid, t.bid, 1)
  }

  function ClosedBar(symbol: string, tf: Timeframe, p: Progress): Bar
    requires p.openTime.Some?
  {
    Bar(symbol, tf, p.openTime.value, p.o, p.h, p.l, p.c, p.tickCount, true)
  }

  /** One tick: the new progress, and the bar it closes. */
  function Step(symbol: string, tf: Timeframe, p: Progress, t: Tick): (Progress, Option<Bar>)
    requires HasBoundary(tf)
  {
    var boundary := BarOpenTime(t.time, tf);
    if t.symbol != symbol then (p, None)
    else if p.openTime.None? then (StartBar(boundary, t), None)
    else if boundary > p.openTime.value then (StartBar(boundary, t), Some(ClosedBar(symbol, tf, p)))
    else (p.(h := MaxReal(p.h, t.bid), l := MinReal(p.l, t.bid), c := t.bid, tickCount := p.tickCount + 1), None)
  }

  class BarAggregator {
    const symbol: string
    const tf: Timeframe
    var emitBars: bool
    var openTime: Option<int>
    var o: real
    var h: real
    var l: real
    var c: real
    var tickCount: int

    constructor (symbol: string, tf: Timeframe, emitBars: bool)
      requires HasBoundary(tf)
      ensures this.symbol == symbol && this.tf == tf && this.emitBars == emitBars
      ensures State() == COLD
    {
      this.symbol, this.tf, this.emitBars := symbol, tf, emitBars;
      openTime, tickCount := None, 0;
      o, h, l, c := 0.0, 0.0, 0.0, 0.0;
    }

    function State(): Progress
      reads this
    {
      Progress(openTime, o, h, l, c, tickCount)
    }

    /** False stands for the ValueError raised on a mismatched receiver. */
    method CopyStateInto(other: BarAggregator) returns (ok: bool)
      modifies other
      ensures ok <==> other.symbol == symbol && other.tf == tf
      ensures other.State() == if ok then old(State()) else old(other.State())
      ensures other.emitBars == old(other.emitBars)
    {
      if other.symbol != symbol || other.tf != tf {
        return false;
      }
      other.openTime := openTime;
      other.o := o;
      other.h := h;
      other.l := l;
      other.c := c;
      other.tickCount := tickCount;
      return true;
    }

    /** Silence changes what is published, never the accumulated state. */
    method OnTick(t: Tick) returns (published: Option<Bar>)
      requires HasBoundary(tf)
      modifies this
      ensures State() == Step(symbol, tf, old(State()), t).0
      ensures published == if emitBars then Step(symbol, tf, old(State()), t).1 else None
      ensures emitBars == old(emitBars)
    {
      if t.symbol != symbol {
        return None;
      }
      var boundary := BarOpenTime(t.time, tf);
      if openTime.None? {
        Reset(boundary, t);
        return None;
      }
      if boundary > openTime.value {
        published := Emit();
        Reset(boundary, t);
        return;
      }
      h := MaxReal(h, t.bid);
      l := MinReal(l, t.bid);
      c := t.bid;
      tickCount := tickCount + 1;
      return None;
    }

    method Reset(boundary: int, t: Tick)
      modifies this
      ensures State() == StartBar(boundary, t) && emitBars == old(emitBars)
    {
      openTime, tickCount := Some(boundary), 1;
      o, h, l, c := t.bid, t.bid, t.bid, t.bid;
    }

    method Emit() returns (published: Option<Bar>)
      requires openTime.Some?
      ensures published == if emitBars then Some(ClosedBar(symbol, tf, State())) else None
    {
      if !emitBars {
        return None;
      }
      published := Some(Bar(symbol, tf, openTime.value, o, h, l, c, tickCount, true));
    }

    /** Start-up backfill: replays history silently, then goes live. */
    method WarmUp(history: seq<Tick>)
      requires HasBoundary(tf)
      modifies this
      ensures State() == RunFrom(symbol, tf, old(State()), history).0
      ensures emitBars == (old(emitBars) || history != [])
    {
      if history == [] {
        return;
      }
      emitBars := false;
      for i := 0 to |history|
        invariant State() == RunFrom(symbol, tf, old(State()), history[..i]).0
      {
        assert history[..i + 1][..i] == history[..i];
        var published := OnTick(history[i]);
      }
      assert history[..|history|] == history;
      emitBars := true;
    }
  }

  /** The machine over a tick sequence, with every closed bar it publishes when live. */
  function RunFrom(symbol: string, tf: Timeframe, p: Progress, ticks: seq<Tick>): (Progress, seq<Bar>)
    requires HasBoundary(tf)
  {
    if ticks == [] then (p, [])
    else
      var (before, bars) := RunFrom(symbol, tf, p, ticks[..|ticks| - 1]);
      var (after, closed) := Step(symbol, tf, before, ticks[|ticks| - 1]);
      (after, if closed.Some? then bars + [closed.value] else bars)
  }

  function Bars(symbol: string, tf: Timeframe, ticks: seq<Tick>): seq<Bar>
    requires HasBoundary(tf)
  {
    RunFrom(symbol, tf, COLD, ticks).1
  }

  lemma RunAppend(symbol: string, tf: Timeframe, p: Progress, ticks: seq<Tick>, t: Tick)
    requires HasBoundary(tf)
    ensures
      var (before, bars) := RunFrom(symbol, tf, p, ticks);
      var (after, closed) := Step(symbol, tf, before, t);
      RunFrom(symbol, tf, p, ticks + [t]) == (after, if closed.Some? then bars + [closed.value] else bars)
  {
    hide Step;
    assert (ticks + [t])[..|ticks|] == ticks;
  }

  /** A silent prefix followed by live ticks publishes exactly what an always-live aggregator still had to publish. */
  lemma {:induction false} SilentPrefixLosesNothing(
      symbol: string, tf: Timeframe, p: Progress, history: seq<Tick>, live: seq<Tick>)
    requires HasBoundary(tf)
    ensures
      var (warm, silenced) := RunFrom(symbol, tf, p, history);
      var (end, resumed) := RunFrom(symbol, tf, warm, live);
      RunFrom(symbol, tf, p, history + live) == (end, silenced + resumed)
  {
    hide Step, RunFrom;
    var (warm, silenced) := RunFrom(symbol, tf, p, history);
    if live == [] {
      assert history + live == history;
      RunNothing(symbol, tf, warm);
      assert silenced + [] == silenced;
    } else {
      var init, t := live[..|live| - 1], live[|live| - 1];
      assert live == init + [t];
      assert history + live == history + init + [t];
      SilentPrefixLosesNothing(symbol, tf, p, history, init);
      RunAppend(symbol, tf, p, history + init, t);
      RunAppend(symbol, tf, warm, init, t);
      var (mid, part) := RunFrom(symbol, tf, warm, init);
      var (_, closed) := Step(symbol, tf, mid, t);
      if closed.Some? {
        assert silenced + (part + [closed.value]) == silenced + part + [closed.value];
      }
    }
  }

  lemma RunNothing(symbol: string, tf: Timeframe, p: Progress)
    requires HasBoundary(tf)
    ensures RunFrom(symbol, tf, p, []) == (p, [])
  {
  }

  // ---- What the bars mean, for ticks in any order -------------------------------

  function OwnTicks(symbol: string, ticks: seq<Tick>): seq<Tick> {
    if ticks == [] then []
    else
      var before := OwnTicks(symbol, ticks[..|ticks| - 1]);
      if ticks[|ticks| - 1].symbol == symbol then before + [ticks[|ticks| - 1]] else before
  }

  /** The latest boundary reached so far; a late tick does not move it back. */
  function Frontier(tf: Timeframe, own: seq<Tick>): int
    requires HasBoundary(tf) && own != []
  {
    var b := BarOpenTime(own[|own| - 1].time, tf);
    if |own| == 1 then b else MaxInt(Frontier(tf, own[..|own| - 1]), b)
  }

  /** The ticks that arrived while `k` was the frontier. */
  function Group(tf: Timeframe, own: seq<Tick>, k: int): seq<Tick>
    requires HasBoundary(tf)
  {
    if own == [] then []
    else
      var before := Group(tf, own[..|own| - 1], k);
      if Frontier(tf, own) == k then before + [own[|own| - 1]] else before
  }

  function MaxBid(g: seq<Tick>): real
    requires g != []
  {
    if |g| == 1 then g[0].bid else MaxReal(MaxBid(g[..|g| - 1]), g[|g| - 1].bid)
  }

  function MinBid(g: seq<Tick>): real
    requires g != []
  {
    if |g| == 1 then g[0].bid else MinReal(MinBid(g[..|g| - 1]), g[|g| - 1].bid)
  }

  function Ohlc(k: int, g: seq<Tick>): Progress
    requires g != []
  {
    Progress(Some(k), g[0].bid, MaxBid(g), MinBid(g), g[|g| - 1].bid, |g|)
  }

  /** Ticks of other symbols leave no trace. */
  lemma {:induction false} OnlyOwnTicksMatter(symbol: string, tf: Timeframe, p: Progress, ticks: seq<Tick>)
    requires HasBoundary(tf)
    ensures RunFrom(symbol, tf, p, ticks) == RunFrom(symbol, tf, p, OwnTicks(symbol, ticks))
    ensures forall t :: t in OwnTicks(symbol, ticks) ==> t in ticks && t.symbol == symbol
  {
    hide BarOpenTime;
    if ticks != [] {
      var init, t := ticks[..|ticks| - 1], ticks[|ticks| - 1];
      assert ticks == init + [t];
      OnlyOwnTicksMatter(symbol, tf, p, init);
      if t.symbol == symbol {
        RunAppend(symbol, tf, p, OwnTicks(symbol, init), t);
      }
    }
  }

  /** How one more tick moves the frontier and the groups. */
  lemma GroupAppend(tf: Timeframe, own: seq<Tick>, t: Tick, k: int)
    requires HasBoundary(tf)
    ensures
      var b := BarOpenTime(t.time, tf);
      var f := Frontier(tf, own + [t]);
      && f == (if own == [] then b else MaxInt(Frontier(tf, own), b))
      && Group(tf, own + [t], k) == if f == k then Group(tf, own, k) + [t] else Group(tf, own, k)
  {
    hide BarOpenTime;
    assert (own + [t])[..|own|] == own;
  }

  lemma OhlcAppend(k: int, g: seq<Tick>, t: Tick)
    requires g != []
    ensures
      var p := Ohlc(k, g);
      Ohlc(k, g + [t]) == Progress(Some(k), p.o, MaxReal(p.h, t.bid), MinReal(p.l, t.bid), t.bid, p.tickCount + 1)
  {
    assert (g + [t])[..|g|] == g;
  }

  lemma {:induction false} GroupsUpToFrontier(tf: Timeframe, own: seq<Tick>, k: int)
    requires HasBoundary(tf) && own != []
    ensures Group(tf, own, Frontier(tf, own)) != []
    ensures k > Frontier(tf, own) ==> Group(tf, own, k) == []
  {
    hide BarOpenTime;
    var init := own[..|own| - 1];
    if init != [] {
      GroupsUpToFrontier(tf, init, k);
    }
  }

  ghost predicate AllOf(symbol: string, ticks: seq<Tick>) {
    forall t :: t in ticks ==> t.symbol == symbol
  }

  /** After any ticks, in any order, the bar in progress is the frontier group. */
  lemma {:induction false} ProgressIsFrontierGroup(symbol: string, tf: Timeframe, own: seq<Tick>)
    requires HasBoundary(tf) && own != [] && AllOf(symbol, own)
    ensures
      var k := Frontier(tf, own);
      Group(tf, own, k) != [] && RunFrom(symbol, tf, COLD, own).0 == Ohlc(k, Group(tf, own, k))
  {
    hide BarOpenTime, RunFrom, Group, Frontier, MaxBid, MinBid;
    var init, t := own[..|own| - 1], own[|own| - 1];
    assert own == init + [t];
    RunAppend(symbol, tf, COLD, init, t);
    var k := Frontier(tf, own);
    GroupAppend(tf, init, t, k);
    if init == [] {
      RunNothing(symbol, tf, COLD);
      StartIsOhlc(tf, t, k);
    } else {
      ProgressIsFrontierGroup(symbol, tf, init);
      GroupsUpToFrontier(tf, init, k);
      if k == Frontier(tf, init) {
        OhlcAppend(k, Group(tf, init, k), t);
      } else {
        assert Group(tf, own, k) == [t];
        StartIsOhlc(tf, t, k);
      }
    }
  }

  lemma StartIsOhlc(tf: Timeframe, t: Tick, k: int)
    requires HasBoundary(tf)
    ensures Ohlc(k, [t]) == StartBar(k, t)
    ensures Group(tf, [], k) == []
  {
  }

  /** Emitted times strictly increase and stay behind the frontier. */
  lemma {:induction false} EmittedTimesIncrease(symbol: string, tf: Timeframe, own: seq<Tick>)
    requires HasBoundary(tf) && own != [] && AllOf(symbol, own)
    ensures
      var bars := RunFrom(symbol, tf, COLD, own).1;
      && TimesAscend(bars)
      && (forall i :: 0 <= i < |bars| ==> bars[i].time < Frontier(tf, own))
  {
    hide BarOpenTime, RunFrom, Group, Frontier, Ohlc;
    var init, t := own[..|own| - 1], own[|own| - 1];
    assert own == init + [t];
    RunAppend(symbol, tf, COLD, init, t);
    GroupAppend(tf, init, t, 0);
    if init == [] {
      RunNothing(symbol, tf, COLD);
    } else {
      ProgressIsFrontierGroup(symbol, tf, init);
      OhlcTime(Frontier(tf, init), Group(tf, init, Frontier(tf, init)));
      EmittedTimesIncrease(symbol, tf, init);
    }
  }

  lemma OhlcTime(k: int, g: seq<Tick>)
    requires g != []
    ensures Ohlc(k, g).openTime == Some(k) && Ohlc(k, g).tickCount == |g|
  {
  }

  predicate IsGroupBar(symbol: string, tf: Timeframe, own: seq<Tick>, b: Bar)
    requires HasBoundary(tf)
  {
    var g := Group(tf, own, b.time);
    && own != [] && b.time < Frontier(tf, own)
    && g != [] && b == ClosedBar(symbol, tf, Ohlc(b.time, g))
  }

  /** The emitted bars are exactly the folds of the groups behind the frontier. */
  lemma {:induction false} EmittedExactlyOwn(symbol: string, tf: Timeframe, own: seq<Tick>, b: Bar)
    requires HasBoundary(tf) && AllOf(symbol, own)
    ensures b in RunFrom(symbol, tf, COLD, own).1 <==> IsGroupBar(symbol, tf, own, b)
  {
    hide BarOpenTime, RunFrom, Group, Frontier, MaxBid, MinBid;
    if own == [] {
      RunNothing(symbol, tf, COLD);
    } else {
      var init, t := own[..|own| - 1], own[|own| - 1];
      assert own == init + [t];
      EmittedExactlyOwn(symbol, tf, init, b);
      RunAppend(symbol, tf, COLD, init, t);
      GroupAppend(tf, init, t, b.time);
      if init == [] {
        RunNothing(symbol, tf, COLD);
        StartIsOhlc(tf, t, b.time);
      } else {
        ProgressIsFrontierGroup(symbol, tf, init);
        GroupsUpToFrontier(tf, init, b.time);
      }
    }
  }

  /** A closed bar with the first and last bid, the extremes, and one count for each tick. */
  ghost predicate IsOhlcOf(b: Bar, symbol: string, tf: Timeframe, g: seq<Tick>) {
    && g != []
    && b.symbol == symbol && b.timeframe == tf && b.isClosed
    && b.open == g[0].bid && b.close == g[|g| - 1].bid
    && (exists t :: t in g && t.bid == b.high)
    && (exists t :: t in g && t.bid == b.low)
    && (forall t :: t in g ==> b.low <= t.bid <= b.high)
    && b.tickVolume == |g|
  }

  lemma {:induction false} BidExtremes(g: seq<Tick>)
    requires g != []
    ensures exists t :: t in g && t.bid == MaxBid(g)
    ensures exists t :: t in g && t.bid == MinBid(g)
    ensures forall t :: t in g ==> MinBid(g) <= t.bid <= MaxBid(g)
  {
    var init, last := g[..|g| - 1], g[|g| - 1];
    assert g == init + [last] && last in g;
    if init != [] {
      BidExtremes(init);
      assert forall t :: t in init ==> t in g;
    }
  }

  /** Those conditions leave no choice. */
  lemma OhlcIsTheBar(b: Bar, symbol: string, tf: Timeframe, g: seq<Tick>)
    ensures IsOhlcOf(b, symbol, tf, g) <==> g != [] && b == ClosedBar(symbol, tf, Ohlc(b.time, g))
  {
    hide MaxBid, MinBid;
    if g != [] {
      BidExtremes(g);
    }
  }

  /** A bar comes out exactly when it is the open, high, low, close and count of a group the frontier has left
      behind, whatever the order of the ticks and whatever other symbols the stream carries. */
  lemma EmittedExactly(symbol: string, tf: Timeframe, ticks: seq<Tick>, b: Bar)
    requires HasBoundary(tf)
    ensures
      var bars, own := Bars(symbol, tf, ticks), OwnTicks(symbol, ticks);
      && (b in bars <==> own != [] && b.time < Frontier(tf, own) && IsOhlcOf(b, symbol, tf, Group(tf, own, b.time)))
      && TimesAscend(bars)
  {
    hide BarOpenTime, RunFrom, Frontier, Group, IsOhlcOf, Ohlc, ClosedBar;
    var own := OwnTicks(symbol, ticks);
    OhlcIsTheBar(b, symbol, tf, Group(tf, own, b.time));
    OnlyOwnTicksMatter(symbol, tf, COLD, ticks);
    EmittedExactlyOwn(symbol, tf, own, b);
    if own == [] {
      RunNothing(symbol, tf, COLD);
    } else {
      EmittedTimesIncrease(symbol, tf, own);
    }
  }

  function TotalVolume(bars: seq<Bar>): int {
    if bars == [] then 0 else TotalVolume(bars[..|bars| - 1]) + bars[|bars| - 1].tickVolume
  }

  /** Every tick of the symbol is counted once: in an emitted bar or in the one in progress. */
  lemma {:induction false} TicksConserved(symbol: string, tf: Timeframe, ticks: seq<Tick>)
    requires HasBoundary(tf)
    ensures
      var (p, bars) := RunFrom(symbol, tf, COLD, ticks);
      TotalVolume(bars) + p.tickCount == |OwnTicks(symbol, ticks)|
    ensures RunFrom(symbol, tf, COLD, ticks).0.openTime == None ==> RunFrom(symbol, tf, COLD, ticks).0 == COLD
  {
    hide BarOpenTime, RunFrom, TotalVolume;
    if ticks == [] {
      RunNothing(symbol, tf, COLD);
      TotalVolumeAppend([], Bar("", tf, 0, 0.0, 0.0, 0.0, 0.0, 0, true));
    } else {
      var init, t := ticks[..|ticks| - 1], ticks[|ticks| - 1];
      assert ticks == init + [t];
      TicksConserved(symbol, tf, init);
      RunAppend(symbol, tf, COLD, init, t);
      var (p, bars) := RunFrom(symbol, tf, COLD, init);
      if p.openTime.Some? {
        TotalVolumeAppend(bars, ClosedBar(symbol, tf, p));
      }
    }
  }

  lemma TotalVolumeAppend(bars: seq<Bar>, b: Bar)
    ensures TotalVolume([]) == 0
    ensures TotalVolume(bars + [b]) == TotalVolume(bars) + b.tickVolume
  {
    assert (bars + [b])[..|bars|] == bars;
  }

  lemma {:induction false} GroupWithin(tf: Timeframe, own: seq<Tick>, k: int)
    requires HasBoundary(tf)
    ensures forall t :: t in Group(tf, own, k) ==> t in own
  {
    hide BarOpenTime, Frontier;
    if own != [] {
      GroupWithin(tf, own[..|own| - 1], k);
    }
  }

  /** Positive bids never produce a bar that its constructor would reject. */
  lemma EmittedWellFormed(symbol: string, tf: Timeframe, ticks: seq<Tick>, b: Bar)
    requires HasBoundary(tf) && forall t :: t in ticks ==> 0.0 < t.bid
    requires b in Bars(symbol, tf, ticks)
    ensures b.WellFormed() && 0.0 < b.low <= b.open <= b.high && b.low <= b.close <= b.high
  {
    hide BarOpenTime, Group, Frontier, Bars;
    var own := OwnTicks(symbol, ticks);
    EmittedExactly(symbol, tf, ticks, b);
    OnlyOwnTicksMatter(symbol, tf, COLD, ticks);
    GroupWithin(tf, own, b.time);
    var g := Group(tf, own, b.time);
    assert g[0] in g && g[|g| - 1] in g;
  }

  // ---- Boundaries are monotone, so in-order ticks are grouped by their own boundary ----

  lemma BarOpenTimeMonotone(t: int, u: int, tf: Timeframe)
    requires HasBoundary(tf) && t <= u
    ensures BarOpenTime(t, tf) <= BarOpenTime(u, tf)
  {
    hide *;
    match tf
    case W1 => WeeklyMonotone(t, u);
    case MN1 => MonthlyMonotone(t, u);
    case _ => FixedLengthMonotone(t, u, tf);
  }

  lemma WeeklyMonotone(t: int, u: int)
    requires t <= u
    ensures BarOpenTime(t, W1) <= BarOpenTime(u, W1)
  {
    hide BarOpenTime;
    MondayMidnight(t);
    MondayMidnight(u);
    assert t / DAY <= u / DAY;
  }

  lemma MonthlyMonotone(t: int, u: int)
    requires t <= u
    ensures BarOpenTime(t, MN1) <= BarOpenTime(u, MN1)
  {
    hide CivilMonths.MonthStart, EpochSeconds, Weekday, Midnight;
    assert t / DAY <= u / DAY;
    CivilMonths.MonthStartMonotone(t / DAY, u / DAY);
  }

  lemma FixedLengthMonotone(t: int, u: int, tf: Timeframe)
    requires HasBoundary(tf) && tf != W1 && tf != MN1 && t <= u
    ensures BarOpenTime(t, tf) <= BarOpenTime(u, tf)
  {
    hide EpochSeconds, Seconds, CivilMonths.MonthStart, Weekday, Midnight;
    EpochSecondsMonotone(t, u);
    FloorMonotone(EpochSeconds(t), EpochSeconds(u), Seconds(tf));
  }

  /** A monthly bar opens at midnight of the first day of the month that holds the tick. */
  lemma MonthlyBoundary(t: int) returns (next: int)
    ensures CivilMonths.IsMonth(BarOpenTime(t, MN1) / DAY, next)
    ensures BarOpenTime(t, MN1) % DAY == 0 && BarOpenTime(t, MN1) <= t < DAY * next
  {
    hide CivilMonths.MonthStart, CivilMonths.IsMonth;
    var day := t / DAY;
    next := CivilMonths.MonthStartHolds(day);
    var first := CivilMonths.MonthStart(day);
    assert DAY * first <= DAY * day <= t < DAY * (day + 1) <= DAY * next;
  }

  lemma MondayMidnight(t: int)
    ensures BarOpenTime(t, W1) == WEEK * ((t / DAY + 3) / 7) - 3 * DAY
  {
    var day := t / DAY;
    assert Midnight(t) == DAY * day;
    assert Midnight(t) / DAY == day;
    assert day + 3 == 7 * ((day + 3) / 7) + (day + 3) % 7;
  }

  /** The bar lengths in minutes. */
  function Minutes(tf: Timeframe): int
    requires HasBoundary(tf) && tf != MN1
  {
    match tf
    case M1 => 1
    case M2 => 2
    case M3 => 3
    case M5 => 5
    case M10 => 10
    case M15 => 15
    case M30 => 30
    case M45 => 45
    case H1 => 60
    case H2 => 2 * 60
    case H4 => 4 * 60
    case D1 => 24 * 60
    case W1 => 7 * 24 * 60
  }

  predicate OnGrid(x: int, origin: int, step: int)
    requires 0 < step
  {
    (x - origin) % step == 0
  }

  function Length(tf: Timeframe): (d: int)
    requires HasBoundary(tf) && tf != MN1
    ensures 0 < d
  {
    Minutes(tf) * 60 * SECOND
  }

  /** `k` is a multiple of the bar length from 1 January 1970; weeks are counted from Monday, 5 January. */
  predicate OpensBar(k: int, tf: Timeframe)
    requires HasBoundary(tf) && tf != MN1
  {
    OnGrid(k, if tf == W1 then 4 * DAY else 0, Length(tf))
  }

  lemma SameGridPoint(k: int, j: int, seen: int, origin: int, step: int)
    requires 0 < step && OnGrid(k, origin, step) && OnGrid(j, origin, step)
    requires k <= seen < k + step && j <= seen < j + step
    ensures k == j
  {
    var m, n := (j - origin) / step, (k - origin) / step;
    assert j - origin == step * m && k - origin == step * n;
    if m > n {
      MultipleGap(step, m, n);
    } else if m < n {
      MultipleGap(step, n, m);
    }
  }

  lemma MultipleOnGrid(q: int, step: int)
    requires 0 < step
    ensures (step * q) % step == 0
  {
    var x := step * q;
    var n := x / step;
    assert x == step * n + x % step;
    if q > n {
      MultipleGap(step, q, n);
    } else if q < n {
      MultipleGap(step, n, q);
    }
  }

  /** The instant that counts: before 1970 a fraction of a second rounds up. */
  function Seen(t: int, tf: Timeframe): int {
    if t >= 0 || tf == W1 then t else t + (-t) % SECOND
  }

  lemma SecondsAreMinutes(tf: Timeframe)
    requires HasBoundary(tf) && tf != MN1
    ensures Seconds(tf) * SECOND == Length(tf)
  {
  }

  lemma OpensOnGrid(t: int, tf: Timeframe)
    requires HasBoundary(tf) && tf != MN1
    ensures OpensBar(BarOpenTime(t, tf), tf) && BarOpenTime(t, tf) <= Seen(t, tf) < BarOpenTime(t, tf) + Length(tf)
  {
    hide Seconds, Length, CivilMonths.MonthStart, Weekday, Midnight;
    SecondsAreMinutes(tf);
    if tf == W1 {
      hide BarOpenTime;
      MondayMidnight(t);
      MultipleOnGrid((t / DAY + 3) / 7 - 1, WEEK);
      assert Length(W1) == WEEK by { WeekLength(); }
    } else {
      var epoch, s := EpochSeconds(t), Seconds(tf);
      var q := epoch / s;
      assert epoch == s * q + epoch % s;
      assert (s * q) * SECOND == (s * SECOND) * q;
      MultipleOnGrid(q, s * SECOND);
    }
  }

  lemma WeekLength()
    ensures Length(W1) == WEEK
  {
  }

  /** A bar opens at the last opening of its timeframe up to the tick. */
  lemma BarOpenIsLatestOpening(t: int, tf: Timeframe, k: int)
    requires HasBoundary(tf) && tf != MN1
    ensures k == BarOpenTime(t, tf) <==> OpensBar(k, tf) && k <= Seen(t, tf) < k + Length(tf)
  {
    hide BarOpenTime, Length, Seen, OnGrid;
    OpensOnGrid(t, tf);
    if OpensBar(k, tf) && k <= Seen(t, tf) < k + Length(tf) {
      SameGridPoint(k, BarOpenTime(t, tf), Seen(t, tf), if tf == W1 then 4 * DAY else 0, Length(tf));
    }
  }

  lemma EpochSecondsMonotone(t: int, u: int)
    requires t <= u
    ensures EpochSeconds(t) <= EpochSeconds(u)
  {
  }

  lemma MultipleGap(step: int, m: int, n: int)
    requires 0 < step && m > n
    ensures step * m >= step * n + step
  {
    var d := m - n - 1;
    assert step * m == step * n + step + step * d;
  }

  lemma FloorMonotone(a: int, b: int, step: int)
    requires 0 < step && a <= b
    ensures a - a % step <= b - b % step
  {
    var m, n := a / step, b / step;
    if m > n {
      MultipleGap(step, m, n);
    } else if m < n {
      MultipleGap(step, n, m);
    }
  }

  lemma {:induction false} OrderedFrontierIsOwnBoundary(tf: Timeframe, own: seq<Tick>)
    requires HasBoundary(tf) && own != []
    requires forall i, j :: 0 <= i < j < |own| ==> own[i].time <= own[j].time
    ensures Frontier(tf, own) == BarOpenTime(own[|own| - 1].time, tf)
  {
    hide BarOpenTime;
    if |own| > 1 {
      OrderedFrontierIsOwnBoundary(tf, own[..|own| - 1]);
      BarOpenTimeMonotone(own[|own| - 2].time, own[|own| - 1].time, tf);
    }
  }

  /** In-order ticks: a group is simply the ticks whose boundary it is. */
  lemma {:induction false} OrderedGroupByBoundary(tf: Timeframe, own: seq<Tick>, k: int)
    requires HasBoundary(tf)
    requires forall i, j :: 0 <= i < j < |own| ==> own[i].time <= own[j].time
    ensures forall t :: t in Group(tf, own, k) <==> t in own && BarOpenTime(t.time, tf) == k
  {
    hide BarOpenTime;
    if own != [] {
      var init, t := own[..|own| - 1], own[|own| - 1];
      assert own == init + [t];
      OrderedGroupByBoundary(tf, init, k);
      OrderedFrontierIsOwnBoundary(tf, own);
    }
  }
}
