/** Ticks to H1 to H4 against ticks to H4 directly: the two aggregators compose. */
module Composition {
  import opened Domain
  import opened UtcTime
  import opened TradingDay
  import opened BarAggregator
  import opened MultiTimeframe
  import opened MultiTimeframeBatch

  /** Round-the-clock H4 folding, anchored on a four-hour boundary. */
  predicate AlignedSession(s: Session) {
    s.Valid() && s.frame == FourHour && s.calendar == AlwaysOpen && s.anchor % 4 == 0
  }

  /** A tick arrived in each of the four hours that start at `k`. */
  predicate AllHoursTicked(own: seq<Tick>, k: int) {
    forall i :: 0 <= i < 4 ==> Group(H1, own, k + i * HOUR) != []
  }

  function FullBars(own: seq<Tick>, bars: seq<Bar>): seq<Bar> {
    if bars == [] then []
    else
      var before := FullBars(own, DropLast(bars));
      if AllHoursTicked(own, Last(bars).time) then before + [Last(bars)] else before
  }

  // ---- Four-hour boundaries seen from hours ------------------------------------

  /** Hours and four-hours nest, and their bars open on them. */
  lemma FloorsNest(t: int)
    ensures
      var e := EpochSeconds(t);
      && BarOpenTime(t, H1) == HOUR * (e / 3600)
      && BarOpenTime(t, H4) == 4 * HOUR * (e / 3600 / 4)
  {
    hide EpochSeconds;
    var e := EpochSeconds(t);
    assert e - e % 3600 == 3600 * (e / 3600);
    assert e - e % 14400 == 14400 * (e / 14400);
    assert e / 14400 == e / 3600 / 4;
  }

  lemma H4BoundaryAligned(k: int, anchor: int)
    requires ValidAnchor(anchor) && anchor % 4 == 0
    ensures IsH4Boundary(k, anchor) <==> k % (4 * HOUR) == 0
  {
    var q := anchor / 4;
    assert anchor * HOUR == 4 * HOUR * q;
  }

  /** The H4 boundary of a tick is the H4 key of its H1 boundary. */
  lemma H4OfH1(t: int, anchor: int)
    requires ValidAnchor(anchor) && anchor % 4 == 0
    ensures H4Key(BarOpenTime(t, H1), anchor) == BarOpenTime(t, H4)
  {
    hide EpochSeconds, BarOpenTime, H4Key, IsH4Boundary;
    var hours := EpochSeconds(t) / 3600;
    FloorsNest(t);
    var x, y := HOUR * hours, 4 * HOUR * (hours / 4);
    assert y <= x < y + 4 * HOUR;
    assert (4 * HOUR * (hours / 4)) % (4 * HOUR) == 0;
    H4BoundaryAligned(y, anchor);
    H4KeyIsLatestBoundary(x, anchor);
    SameH4Boundary(H4Key(x, anchor), y, x, anchor);
  }

  lemma {:induction false} FrontiersAgree(own: seq<Tick>, anchor: int)
    requires ValidAnchor(anchor) && anchor % 4 == 0 && own != []
    ensures H4Key(Frontier(H1, own), anchor) == Frontier(H4, own)
  {
    hide BarOpenTime, H4Key;
    var init, t := DropLast(own), Last(own);
    H4OfH1(t.time, anchor);
    if init != [] {
      FrontiersAgree(init, anchor);
      var x, y := Frontier(H1, init), BarOpenTime(t.time, H1);
      H4KeyMonotone(if x <= y then x else y, MaxInt(x, y), anchor);
    }
  }

  lemma {:induction false} GroupsAreOnBoundaries(tf: Timeframe, own: seq<Tick>, k: int)
    requires HasBoundary(tf) && Group(tf, own, k) != []
    ensures own != [] && exists t :: t in own && BarOpenTime(t.time, tf) == k
  {
    hide BarOpenTime;
    if Frontier(tf, own) == k {
      FrontierIsABoundary(tf, own);
    } else {
      GroupsAreOnBoundaries(tf, DropLast(own), k);
      var t :| t in DropLast(own) && BarOpenTime(t.time, tf) == k;
      assert t in own;
    }
  }

  lemma {:induction false} FrontierIsABoundary(tf: Timeframe, own: seq<Tick>)
    requires HasBoundary(tf) && own != []
    ensures exists t :: t in own && BarOpenTime(t.time, tf) == Frontier(tf, own)
  {
    hide BarOpenTime;
    assert Last(own) in own;
    if |own| > 1 {
      FrontierIsABoundary(tf, DropLast(own));
      var t :| t in DropLast(own) && BarOpenTime(t.time, tf) == Frontier(tf, DropLast(own));
      assert t in own;
    }
  }

  // ---- Folding hour bars rebuilds the four-hour group ----------------------------

  /** The closed H1 bars followed by the one in progress. */
  function HourBars(symbol: string, own: seq<Tick>): (bars: seq<Bar>)
    requires own != [] && AllOf(symbol, own)
    ensures bars != []
  {
    ProgressIsFrontierGroup(symbol, H1, own);
    var (p, bars) := RunFrom(symbol, H1, COLD, own);
    bars + [ClosedBar(symbol, H1, p)]
  }

  lemma {:induction false} FoldAppend(ms: seq<Bar>, b: Bar)
    requires ms != []
    ensures MaxHigh(ms + [b]) == MaxReal(MaxHigh(ms), b.high)
    ensures MinLow(ms + [b]) == MinReal(MinLow(ms), b.low)
    ensures SumVolume(ms + [b]) == SumVolume(ms) + b.tickVolume
  {
    if |ms| == 1 {
      assert (ms + [b])[1..] == [b];
      assert SumVolume([b]) == b.tickVolume + SumVolume([]);
    } else {
      FoldAppend(ms[1..], b);
      assert (ms + [b])[1..] == ms[1..] + [b];
    }
  }

  lemma MembersAppend(s: Session, bars: seq<Bar>, b: Bar, k: int)
    ensures Members(s, bars + [b], k) ==
            if s.Key(b.time) == k then Members(s, bars, k) + [b] else Members(s, bars, k)
  {
    hide Session.Key;
    assert DropLast(bars + [b]) == bars;
  }

  /** The bar that results when tick `t` lands in the hour bar `b`. */
  function Grown(b: Bar, t: Tick): Bar {
    b.(high := MaxReal(b.high, t.bid), low := MinReal(b.low, t.bid), close := t.bid, tickVolume := b.tickVolume + 1)
  }

  function Single(symbol: string, tf: Timeframe, k: int, t: Tick): Bar {
    Bar(symbol, tf, k, t.bid, t.bid, t.bid, t.bid, 1, true)
  }

  /** Growing the last member, or adding a member for one tick, grows the fold. */
  lemma FoldGrows(symbol: string, k: int, ms: seq<Bar>, b: Bar, t: Tick)
    ensures FoldBars(symbol, H4, k, ms + [Grown(b, t)]) == Grown(FoldBars(symbol, H4, k, ms + [b]), t)
    ensures ms != [] ==> FoldBars(symbol, H4, k, ms + [Single(symbol, H1, b.time, t)])
                         == Grown(FoldBars(symbol, H4, k, ms), t)
  {
    if ms == [] {
      assert ms + [b] == [b] && ms + [Grown(b, t)] == [Grown(b, t)];
      assert SumVolume([b]) == b.tickVolume + SumVolume([]);
      assert SumVolume([Grown(b, t)]) == b.tickVolume + 1 + SumVolume([]);
    } else {
      FoldAppend(ms, b);
      FoldAppend(ms, Grown(b, t));
      FoldAppend(ms, Single(symbol, H1, b.time, t));
    }
  }

  lemma HourBarsStep(symbol: string, own: seq<Tick>, t: Tick)
    requires own != [] && AllOf(symbol, own + [t]) && AllOf(symbol, own)
    ensures
      var bars := HourBars(symbol, own);
      && Last(bars).time == Frontier(H1, own)
      && HourBars(symbol, own + [t]) ==
         if Frontier(H1, own + [t]) == Frontier(H1, own) then DropLast(bars) + [Grown(Last(bars), t)]
         else bars + [Single(symbol, H1, Frontier(H1, own + [t]), t)]
  {
    hide BarOpenTime, RunFrom, Frontier, Group, MaxBid, MinBid;
    var (p, closed) := RunFrom(symbol, H1, COLD, own);
    RunAppend(symbol, H1, COLD, own, t);
    ProgressIsFrontierGroup(symbol, H1, own);
    ProgressIsFrontierGroup(symbol, H1, own + [t]);
    GroupAppend(H1, own, t, 0);
    assert DropLast(closed + [ClosedBar(symbol, H1, p)]) == closed;
  }

  /** For every four-hour bucket: folding its hour bars is folding its ticks. */
  lemma {:induction false} HourBarsFoldToGroup(s: Session, symbol: string, own: seq<Tick>, k: int)
    requires AlignedSession(s) && own != [] && AllOf(symbol, own)
    ensures
      var ms := Members(s, HourBars(symbol, own), k);
      var g := Group(H4, own, k);
      && (ms == [] <==> g == [])
      && (ms != [] ==> FoldBars(symbol, H4, k, ms) == ClosedBar(symbol, H4, Ohlc(k, g)))
  {
    hide BarOpenTime, RunFrom, Frontier, Group, H4Key, MaxBid, MinBid, FoldBars, Members, HourBars;
    var init, t := DropLast(own), Last(own);
    assert own == init + [t];
    FrontiersAgree(own, s.anchor);
    GroupAppend(H4, init, t, k);
    if init == [] {
      FirstTick(s, symbol, t, k);
    } else {
      HourBarsFoldToGroup(s, symbol, init, k);
      FrontiersAgree(init, s.anchor);
      HourBarsStep(symbol, init, t);
      var bars := HourBars(symbol, init);
      var last := Last(bars);
      assert bars == DropLast(bars) + [last];
      MembersAppend(s, DropLast(bars), last, k);
      var single := Single(symbol, H1, Frontier(H1, own), t);
      var ms, rest := Members(s, bars, k), Members(s, DropLast(bars), k);
      if Frontier(H1, own) == Frontier(H1, init) {
        MembersAppend(s, DropLast(bars), Grown(last, t), k);
        if Frontier(H4, own) == k {
          FoldGrows(symbol, k, rest, last, t);
          OhlcAppend(k, Group(H4, init, k), t);
        }
      } else {
        MembersAppend(s, bars, single, k);
        if Frontier(H4, own) == k {
          if ms == [] {
            SingleFold(symbol, k, single, t);
          } else {
            FoldGrows(symbol, k, ms, single, t);
            OhlcAppend(k, Group(H4, init, k), t);
          }
        }
      }
    }
  }

  lemma SingleFold(symbol: string, k: int, single: Bar, t: Tick)
    requires single == Single(symbol, H1, single.time, t)
    ensures FoldBars(symbol, H4, k, [] + [single]) == ClosedBar(symbol, H4, Ohlc(k, [] + [t]))
  {
    assert [] + [single] == [single] && [] + [t] == [t];
    assert SumVolume([single]) == 1 + SumVolume([]);
  }

  lemma FirstTick(s: Session, symbol: string, t: Tick, k: int)
    requires AlignedSession(s) && AllOf(symbol, [t])
    ensures
      var own := [] + [t];
      var ms := Members(s, HourBars(symbol, own), k);
      && own == [t] && Frontier(H4, own) == BarOpenTime(t.time, H4)
      && Group(H4, [], k) == []
      && ms == (if Frontier(H4, own) == k then [Single(symbol, H1, Frontier(H1, own), t)] else [])
      && (ms != [] ==> FoldBars(symbol, H4, k, ms) == ClosedBar(symbol, H4, Ohlc(k, [t])))
  {
    hide BarOpenTime, H4Key;
    FrontiersAgree([t], s.anchor);
    var single := Single(symbol, H1, Frontier(H1, [t]), t);
    RunAppend(symbol, H1, COLD, [], t);
    assert [] + [t] == [t];
    assert HourBars(symbol, [t]) == [single];
    assert [] + [single] == [single];
    MembersAppend(s, [], single, k);
    SingleFold(symbol, k, single, t);
  }

  // ---- The two outputs --------------------------------------------------------------

  lemma {:induction false} NothingRejected(symbol: string, bars: seq<Bar>)
    requires TimesAscend(bars)
    requires forall b :: b in bars ==> b.symbol == symbol && b.timeframe == H1 && b.isClosed
    ensures Accepted(symbol, bars) == bars
  {
    if bars != [] {
      NothingRejected(symbol, DropLast(bars));
      assert Last(bars) in bars;
    }
  }

  /** What is known of the H1 bars fed to the folder. */
  lemma HourStream(s: Session, symbol: string, own: seq<Tick>)
    requires AlignedSession(s) && AllOf(symbol, own)
    ensures
      var h1 := RunFrom(symbol, H1, COLD, own).1;
      && TimesAscend(h1) && Accepted(symbol, h1) == h1
      && (forall slot :: Received(h1, slot) <==>
            own != [] && slot < Frontier(H1, own) && Group(H1, own, slot) != [])
  {
    hide BarOpenTime, RunFrom, Frontier, Group, MaxBid, MinBid;
    var h1 := RunFrom(symbol, H1, COLD, own).1;
    forall b | b in h1 ensures IsGroupBar(symbol, H1, own, b) {
      EmittedExactlyOwn(symbol, H1, own, b);
    }
    if own == [] {
      RunNothing(symbol, H1, COLD);
    } else {
      EmittedTimesIncrease(symbol, H1, own);
      forall slot | slot < Frontier(H1, own) && Group(H1, own, slot) != [] ensures Received(h1, slot) {
        var b := ClosedBar(symbol, H1, Ohlc(slot, Group(H1, own, slot)));
        EmittedExactlyOwn(symbol, H1, own, b);
      }
    }
    NothingRejected(symbol, h1);
  }

  lemma AlignedGap(k: int, g: int)
    requires k % (4 * HOUR) == 0 && g % (4 * HOUR) == 0 && k < g
    ensures k + 4 * HOUR <= g
  {
    var m, n := k / (4 * HOUR), g / (4 * HOUR);
    assert k == 4 * HOUR * m && g == 4 * HOUR * n;
  }

  lemma WholeHour(n: int)
    ensures (HOUR * n) % HOUR == 0
  {
  }

  lemma HourGap(m: int, n: int)
    requires HOUR * m <= HOUR * n < HOUR * m + 4 * HOUR
    ensures n == m || n == m + 1 || n == m + 2 || n == m + 3
  {
  }

  /** The whole hours of [k, k + 4h). */
  lemma FourHours(slot: int, k: int)
    requires k % (4 * HOUR) == 0
    ensures slot % HOUR == 0 && k <= slot < k + 4 * HOUR
       <==> slot == k || slot == k + HOUR || slot == k + 2 * HOUR || slot == k + 3 * HOUR
  {
    var m := 4 * (k / (4 * HOUR));
    assert k == HOUR * m;
    if slot % HOUR == 0 && k <= slot < k + 4 * HOUR {
      assert slot == HOUR * (slot / HOUR);
      HourGap(m, slot / HOUR);
    }
    WholeHour(m);
    WholeHour(m + 1);
    WholeHour(m + 2);
    WholeHour(m + 3);
  }

  lemma FourSlots(s: Session, slot: int, k: int)
    requires AlignedSession(s) && k % (4 * HOUR) == 0
    ensures OpenSlotOf(s, slot, k)
       <==> slot == k || slot == k + HOUR || slot == k + 2 * HOUR || slot == k + 3 * HOUR
  {
    hide H4Key, IsH4Boundary;
    H4BoundaryAligned(k, s.anchor);
    H4KeyIsLatestBoundary(slot, s.anchor);
    FourHours(slot, k);
    if k <= slot < k + 4 * HOUR {
      SameH4Boundary(H4Key(slot, s.anchor), k, slot, s.anchor);
    }
  }

  lemma GroupOnAlignedKey(own: seq<Tick>, k: int)
    requires Group(H4, own, k) != []
    ensures k % (4 * HOUR) == 0
  {
    hide BarOpenTime, Group;
    GroupsAreOnBoundaries(H4, own, k);
    var t :| t in own && BarOpenTime(t.time, H4) == k;
    FloorsNest(t.time);
  }

  lemma CompleteMeansTicked(s: Session, symbol: string, own: seq<Tick>, k: int)
    requires AlignedSession(s) && AllOf(symbol, own) && own != []
    requires k % (4 * HOUR) == 0 && k < Frontier(H4, own)
    ensures Complete(s, RunFrom(symbol, H1, COLD, own).1, k) <==> AllHoursTicked(own, k)
  {
    hide BarOpenTime, RunFrom, Frontier, Group, H4Key, IsH4Boundary, OpenSlotOf, Received, AllHoursTicked;
    var h1 := RunFrom(symbol, H1, COLD, own).1;
    HourStream(s, symbol, own);
    FrontiersAgree(own, s.anchor);
    var f := Frontier(H1, own);
    H4KeyIsLatestBoundary(f, s.anchor);
    H4BoundaryAligned(H4Key(f, s.anchor), s.anchor);
    AlignedGap(k, H4Key(f, s.anchor));
    TickedHours(own, k);
    forall slot ensures OpenSlotOf(s, slot, k)
      <==> slot == k || slot == k + HOUR || slot == k + 2 * HOUR || slot == k + 3 * HOUR
    {
      FourSlots(s, slot, k);
    }
    assert OpenSlotOf(s, k, k) && OpenSlotOf(s, k + HOUR, k);
    assert OpenSlotOf(s, k + 2 * HOUR, k) && OpenSlotOf(s, k + 3 * HOUR, k);
  }

  lemma TickedHours(own: seq<Tick>, k: int)
    ensures AllHoursTicked(own, k) <==>
      && Group(H1, own, k) != [] && Group(H1, own, k + HOUR) != []
      && Group(H1, own, k + 2 * HOUR) != [] && Group(H1, own, k + 3 * HOUR) != []
  {
    hide Group;
    if AllHoursTicked(own, k) {
      assert Group(H1, own, k + 0 * HOUR) != [] && Group(H1, own, k + 1 * HOUR) != [];
      assert Group(H1, own, k + 2 * HOUR) != [] && Group(H1, own, k + 3 * HOUR) != [];
    }
  }

  /** Behind the frontier the folder sees all the hour bars of a bucket. */
  lemma MembersBehindFrontier(s: Session, symbol: string, own: seq<Tick>, k: int)
    requires AlignedSession(s) && AllOf(symbol, own) && own != [] && k < Frontier(H4, own)
    ensures Members(s, RunFrom(symbol, H1, COLD, own).1, k) == Members(s, HourBars(symbol, own), k)
  {
    hide BarOpenTime, RunFrom, Frontier, Group, H4Key, MaxBid, MinBid, Members;
    var (p, h1) := RunFrom(symbol, H1, COLD, own);
    ProgressIsFrontierGroup(symbol, H1, own);
    FrontiersAgree(own, s.anchor);
    MembersAppend(s, h1, ClosedBar(symbol, H1, p), k);
  }

  /** A folded bar is a direct bar whose four hours all ticked, once a later bucket's hour has closed. */
  lemma FoldedExactly(s: Session, symbol: string, own: seq<Tick>, b: Bar)
    requires AlignedSession(s) && AllOf(symbol, own)
    ensures
      var h1 := RunFrom(symbol, H1, COLD, own).1;
      b in Run(s, symbol, h1).out
      <==> b in RunFrom(symbol, H4, COLD, own).1 && AllHoursTicked(own, b.time) && Followed(s, h1, b.time)
  {
    hide BarOpenTime, RunFrom, Frontier, Group, H4Key, MaxBid, MinBid, Members, Run, Complete, IsFoldOf,
      HourBars, AllHoursTicked, IsH4Boundary;
    var h1 := RunFrom(symbol, H1, COLD, own).1;
    var k := b.time;
    HourStream(s, symbol, own);
    OutputExactly(s, symbol, h1, b);
    EmittedExactlyOwn(symbol, H4, own, b);
    if own == [] {
      RunNothing(symbol, H1, COLD);
    } else {
      if Followed(s, h1, k) {
        FollowedIsBehindFrontier(s, symbol, own, k);
      }
      if k < Frontier(H4, own) {
        MembersBehindFrontier(s, symbol, own, k);
        HourBarsFoldToGroup(s, symbol, own, k);
        var ms := Members(s, h1, k);
        if ms != [] {
          FoldBarsIsTheFold(b, symbol, H4, ms);
          GroupOnAlignedKey(own, k);
          CompleteMeansTicked(s, symbol, own, k);
        } else {
          NoFoldOfNothing(b, symbol);
        }
      }
    }
  }

  lemma NoFoldOfNothing(b: Bar, symbol: string)
    ensures !IsFoldOf(b, symbol, H4, [])
  {
  }

  lemma FollowedIsBehindFrontier(s: Session, symbol: string, own: seq<Tick>, k: int)
    requires AlignedSession(s) && AllOf(symbol, own) && own != []
    requires Followed(s, RunFrom(symbol, H1, COLD, own).1, k)
    ensures k < Frontier(H4, own)
  {
    hide BarOpenTime, RunFrom, Frontier, Group, H4Key, MaxBid, MinBid;
    var h1 := RunFrom(symbol, H1, COLD, own).1;
    var c :| c in h1 && s.Key(c.time) > k;
    EmittedTimesIncrease(symbol, H1, own);
    FrontiersAgree(own, s.anchor);
    H4KeyMonotone(c.time, Frontier(H1, own), s.anchor);
  }

  /** A direct bar that is not followed is the latest direct bar. */
  lemma UnfollowedIsLatest(s: Session, symbol: string, own: seq<Tick>, b: Bar, later: Bar)
    requires AlignedSession(s) && AllOf(symbol, own)
    requires later in RunFrom(symbol, H4, COLD, own).1
    requires b.time < later.time
    ensures Followed(s, RunFrom(symbol, H1, COLD, own).1, b.time)
  {
    hide BarOpenTime, RunFrom, Frontier, Group, H4Key, MaxBid, MinBid, HourBars;
    var h1 := RunFrom(symbol, H1, COLD, own).1;
    var k := later.time;
    EmittedExactlyOwn(symbol, H4, own, later);
    MembersBehindFrontier(s, symbol, own, k);
    HourBarsFoldToGroup(s, symbol, own, k);
    MembersAreKeyed(s, h1, k);
    assert Members(s, h1, k)[0] in Members(s, h1, k);
  }

  lemma {:induction false} FullBarsAreFull(own: seq<Tick>, bars: seq<Bar>)
    ensures forall b :: b in FullBars(own, bars) <==> b in bars && AllHoursTicked(own, b.time)
  {
    hide AllHoursTicked;
    if bars != [] {
      FullBarsAreFull(own, DropLast(bars));
      assert bars == DropLast(bars) + [Last(bars)];
    }
  }

  lemma {:induction false} FullBarsAscend(own: seq<Tick>, bars: seq<Bar>)
    requires TimesAscend(bars)
    ensures TimesAscend(FullBars(own, bars))
  {
    hide AllHoursTicked;
    if bars != [] {
      DropLastElements(bars);
      FullBarsAscend(own, DropLast(bars));
      FullBarsAreFull(own, DropLast(bars));
      forall b | b in DropLast(bars) ensures b.time < Last(bars).time {
        LastIsLatest(bars, b);
      }
    }
  }

  /** Ascending sequences with the same elements are equal. */
  lemma {:induction false} SameAscending(xs: seq<Bar>, ys: seq<Bar>)
    requires TimesAscend(xs) && TimesAscend(ys)
    requires forall b :: b in xs <==> b in ys
    ensures xs == ys
  {
    assert ys != [] ==> Last(ys) in xs;
    if xs != [] {
      assert Last(xs) in ys;
      LastIsLatest(xs, Last(ys));
      LastIsLatest(ys, Last(xs));
      DropLastElements(xs);
      DropLastElements(ys);
      SameAscending(DropLast(xs), DropLast(ys));
      assert xs == DropLast(xs) + [Last(xs)] && ys == DropLast(ys) + [Last(ys)];
    }
  }

  lemma LastIsLatest(xs: seq<Bar>, b: Bar)
    requires TimesAscend(xs) && b in xs
    ensures b.time <= Last(xs).time && (b.time == Last(xs).time ==> b == Last(xs))
  {
    var i :| 0 <= i < |xs| && xs[i] == b;
  }

  lemma DropLastElements(xs: seq<Bar>)
    requires TimesAscend(xs) && xs != []
    ensures TimesAscend(DropLast(xs))
    ensures forall b :: b in DropLast(xs) <==> b in xs && b != Last(xs)
  {
    forall b | b in xs && b != Last(xs) ensures b in DropLast(xs) {
      var i :| 0 <= i < |xs| && xs[i] == b;
      assert DropLast(xs)[i] == b;
    }
    forall b | b in DropLast(xs) ensures b in xs && b != Last(xs) {
      var i :| 0 <= i < |xs| - 1 && DropLast(xs)[i] == b;
      assert xs[i].time < xs[|xs| - 1].time;
    }
  }

  /** For ticks in any order, folding the H1 bars gives the direct H4 bars whose
      four hours all ticked, lacking at most the latest one. */
  lemma AggregationComposes(symbol: string, ticks: seq<Tick>, anchor: int)
    requires ValidAnchor(anchor) && anchor % 4 == 0
    ensures
      var folded := Run(Session(FourHour, anchor, AlwaysOpen), symbol, Bars(symbol, H1, ticks)).out;
      var direct := Bars(symbol, H4, ticks);
      var full := FullBars(OwnTicks(symbol, ticks), direct);
      || folded == full
      || (full != [] && Last(full) == Last(direct) && folded == DropLast(full))
  {
    hide BarOpenTime, RunFrom, Frontier, Group, Run, AllHoursTicked, IsGroupBar;
    var s := Session(FourHour, anchor, AlwaysOpen);
    var own := OwnTicks(symbol, ticks);
    OnlyOwnTicksMatter(symbol, H1, COLD, ticks);
    OnlyOwnTicksMatter(symbol, H4, COLD, ticks);
    var h1, direct := RunFrom(symbol, H1, COLD, own).1, RunFrom(symbol, H4, COLD, own).1;
    var folded, full := Run(s, symbol, h1).out, FullBars(own, direct);
    if own == [] {
      RunNothing(symbol, H4, COLD);
    } else {
      EmittedTimesIncrease(symbol, H4, own);
    }
    OutputTimesAscend(s, symbol, h1);
    FullBarsAreFull(own, direct);
    FullBarsAscend(own, direct);
    forall b ensures b in folded <==> b in full && Followed(s, h1, b.time) {
      FoldedExactly(s, symbol, own, b);
    }
    if b :| b in full && b !in folded {
      forall other | other in direct && other != b ensures other.time < b.time {
        if b.time < other.time {
          UnfollowedIsLatest(s, symbol, own, b, other);
        }
        LastIsLatest(direct, b);
      }
      LastIsLatest(full, b);
      assert Last(full) in full && Last(direct) in direct;
      assert Last(full) == b && Last(direct) == b by {
        LastIsLatest(direct, b);
      }
      DropLastElements(full);
      forall c ensures c in folded <==> c in DropLast(full) {
        if c in full && c != b {
          UnfollowedIsLatest(s, symbol, own, c, b);
        }
      }
      SameAscending(folded, DropLast(full));
    } else {
      SameAscending(folded, full);
    }
  }

  /** Off a four-hour anchor the two never share a bar, so alignment is necessary too. */
  lemma MisalignedNeverAgree(symbol: string, ticks: seq<Tick>, anchor: int, b: Bar)
    requires ValidAnchor(anchor) && anchor % 4 != 0
    requires b in Run(Session(FourHour, anchor, AlwaysOpen), symbol, Bars(symbol, H1, ticks)).out
    ensures b !in Bars(symbol, H4, ticks)
  {
    hide BarOpenTime, RunFrom, Frontier, Group, Run, H4Key, IsFoldOf, Bars;
    var s := Session(FourHour, anchor, AlwaysOpen);
    OutputExactly(s, symbol, Bars(symbol, H1, ticks), b);
    var slot :| OpenSlotOf(s, slot, b.time);
    H4KeyIsLatestBoundary(slot, anchor);
    OffBoundary(b.time, anchor);
    EmittedExactly(symbol, H4, ticks, b);
    if b in Bars(symbol, H4, ticks) {
      GroupOnAlignedKey(OwnTicks(symbol, ticks), b.time);
    }
  }

  lemma OffBoundary(k: int, anchor: int)
    requires ValidAnchor(anchor) && anchor % 4 != 0 && IsH4Boundary(k, anchor)
    ensures k % (4 * HOUR) != 0
  {
    var n := (k - anchor * HOUR) / (4 * HOUR);
    var q, r := anchor / 4, anchor % 4;
    assert k == (4 * HOUR) * (n + q) + r * HOUR;
  }
}
