/** Folding completed H1 bars into H4 and D1 bars. */
module MultiTimeframe {
  import opened Domain
  import opened UtcTime
  import opened TradingDay
  import opened Sorting

  function BarTime(b: Bar): int {
    b.time
  }

  function FrameTimeframe(frame: Frame): Timeframe {
    if frame.FourHour? then H4 else D1
  }

  // ---- Folding one bucket ----------------------------------------------------

  function MaxHigh(bars: seq<Bar>): real
    requires bars != []
  {
    if |bars| == 1 then bars[0].high else MaxReal(bars[0].high, MaxHigh(bars[1..]))
  }

  function MinLow(bars: seq<Bar>): real
    requires bars != []
  {
    if |bars| == 1 then bars[0].low else MinReal(bars[0].low, MinLow(bars[1..]))
  }

  function SumVolume(bars: seq<Bar>): int {
    if bars == [] then 0 else bars[0].tickVolume + SumVolume(bars[1..])
  }

  function FoldBars(symbol: string, tf: Timeframe, key: int, ordered: seq<Bar>): Bar
    requires ordered != []
  {
    Bar(symbol, tf, key, ordered[0].open, MaxHigh(ordered), MinLow(ordered),
        ordered[|ordered| - 1].close, SumVolume(ordered), true)
  }

  predicate Received(bars: seq<Bar>, slot: int) {
    exists b :: b in bars && b.time == slot
  }

  function Finalize(s: Session, symbol: string, key: int, bars: seq<Bar>): Option<Bar> {
    var expected := ExpectedSlots(s, key);
    if expected == [] || exists slot :: slot in expected && !Received(bars, slot) then None
    else
      assert Received(bars, expected[0]);
      Some(FoldBars(symbol, FrameTimeframe(s.frame), key, SortBy(bars, BarTime)))
  }

  // ---- The streaming machine, one frame at a time ---------------------------

  datatype Bucket = Bucket(key: Option<int>, bars: seq<Bar>)

  function FeedBucket(s: Session, symbol: string, b: Bucket, bar: Bar): (Bucket, Option<Bar>) {
    var key := s.Key(bar.time);
    if b.key.None? then (Bucket(Some(key), [bar]), None)
    else if key == b.key.value then (Bucket(b.key, b.bars + [bar]), None)
    else (Bucket(Some(key), [bar]), Finalize(s, symbol, b.key.value, b.bars))
  }

  predicate Accepts(symbol: string, lastTime: Option<int>, bar: Bar) {
    && bar.symbol == symbol && bar.timeframe == H1
    && bar.isClosed
    && (lastTime.Some? ==> bar.time > lastTime.value)
  }

  class Bucketer {
    const session: Session
    const symbol: string
    var key: Option<int>
    var bars: seq<Bar>

    constructor (session: Session, symbol: string)
      ensures this.session == session && this.symbol == symbol
      ensures State() == Bucket(None, [])
    {
      this.session, this.symbol := session, symbol;
      key, bars := None, [];
    }

    function State(): Bucket
      reads this
    {
      Bucket(key, bars)
    }

    method Feed(bar: Bar) returns (done: Option<Bar>)
      modifies this
      ensures (State(), done) == FeedBucket(session, symbol, old(State()), bar)
    {
      var k := session.Key(bar.time);
      if key.None? {
        key, bars := Some(k), [bar];
        return None;
      }
      if k == key.value {
        bars := bars + [bar];
        return None;
      }
      done := FinalizeBucket();
      key, bars := Some(k), [bar];
    }

    method FinalizeBucket() returns (done: Option<Bar>)
      requires key.Some?
      ensures done == Finalize(session, symbol, key.value, bars)
    {
      var expected := ExpectedOpenSlots(session, key.value);
      if expected == [] || exists slot :: slot in expected && !Received(bars, slot) {
        return None;
      }
      assert Received(bars, expected[0]);
      var ordered := SortBy(bars, BarTime);
      done := Some(FoldBars(symbol, FrameTimeframe(session.frame), key.value, ordered));
    }
  }

  class MultiTimeframeAggregator {
    const symbol: string
    const h4: Bucketer
    const d1: Bucketer
    var lastTime: Option<int>

    ghost predicate Valid() {
      && h4 != d1
      && h4.symbol == symbol && d1.symbol == symbol
      && h4.session.frame == FourHour && d1.session == h4.session.(frame := TradingDay)
    }

    constructor (symbol: string, anchor: int, calendar: Calendar)
      requires ValidAnchor(anchor)
      ensures Valid() && fresh(h4) && fresh(d1)
      ensures this.symbol == symbol && h4.session == Session(FourHour, anchor, calendar)
      ensures lastTime == None && h4.State() == d1.State() == Bucket(None, [])
    {
      this.symbol := symbol;
      h4 := new Bucketer(Session(FourHour, anchor, calendar), symbol);
      d1 := new Bucketer(Session(TradingDay, anchor, calendar), symbol);
      lastTime := None;
    }

    /** Rejected bars change nothing; an accepted one goes to both bucketers. */
    method Feed(bar: Bar) returns (h4Bar: Option<Bar>, d1Bar: Option<Bar>)
      requires Valid()
      modifies this, h4, d1
      ensures
        if Accepts(symbol, old(lastTime), bar) then
          && lastTime == Some(bar.time)
          && (h4.State(), h4Bar) == FeedBucket(h4.session, symbol, old(h4.State()), bar)
          && (d1.State(), d1Bar) == FeedBucket(d1.session, symbol, old(d1.State()), bar)
        else
          && lastTime == old(lastTime) && h4Bar == d1Bar == None
          && h4.State() == old(h4.State()) && d1.State() == old(d1.State())
    {
      if bar.symbol != symbol || bar.timeframe != H1 {
        return None, None;
      }
      if !bar.isClosed {
        return None, None;
      }
      if lastTime.Some? && bar.time <= lastTime.value {
        return None, None;
      }
      lastTime := Some(bar.time);
      h4Bar := h4.Feed(bar);
      d1Bar := d1.Feed(bar);
    }
  }

  /** One frame's machine after a whole input sequence. */
  datatype Stream = Stream(lastTime: Option<int>, bucket: Bucket, out: seq<Bar>)

  function Appended(out: seq<Bar>, b: Option<Bar>): seq<Bar> {
    if b.Some? then out + [b.value] else out
  }

  function Run(s: Session, symbol: string, bars: seq<Bar>): Stream {
    if bars == [] then Stream(None, Bucket(None, []), [])
    else
      var before := Run(s, symbol, bars[..|bars| - 1]);
      var bar := bars[|bars| - 1];
      if Accepts(symbol, before.lastTime, bar) then
        var (bucket, done) := FeedBucket(s, symbol, before.bucket, bar);
        Stream(Some(bar.time), bucket, Appended(before.out, done))
      else before
  }

  /** Folds a finished sequence; the aggregator takes the first bar's symbol. */
  method FoldH1(bars: seq<Bar>, anchor: int, calendar: Calendar)
    returns (h4Bars: seq<Bar>, d1Bars: seq<Bar>)
    requires ValidAnchor(anchor)
    ensures
      var symbol := if bars == [] then "" else bars[0].symbol;
      && h4Bars == Run(Session(FourHour, anchor, calendar), symbol, bars).out
      && d1Bars == Run(Session(TradingDay, anchor, calendar), symbol, bars).out
  {
    var symbol := if bars == [] then "" else bars[0].symbol;
    var agg := new MultiTimeframeAggregator(symbol, anchor, calendar);
    h4Bars, d1Bars := [], [];
    for i := 0 to |bars|
      invariant agg.Valid() && fresh(agg) && fresh(agg.h4) && fresh(agg.d1)
      invariant agg.symbol == symbol && agg.h4.session == Session(FourHour, anchor, calendar)
      invariant Run(agg.h4.session, symbol, bars[..i]) == Stream(agg.lastTime, agg.h4.State(), h4Bars)
      invariant Run(agg.d1.session, symbol, bars[..i]) == Stream(agg.lastTime, agg.d1.State(), d1Bars)
    {
      assert bars[..i + 1][..i] == bars[..i];
      var h, d := agg.Feed(bars[i]);
      h4Bars := Appended(h4Bars, h);
      d1Bars := Appended(d1Bars, d);
    }
    assert bars[..|bars|] == bars;
  }
}
