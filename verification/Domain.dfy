/** The value types shared by every component: bars, ticks and small wrappers. */
module Domain {

  datatype Option<+T> = None | Some(value: T)

  datatype Timeframe =
    TICK | M1 | M2 | M3 | M5 | M10 | M15 | M30 | M45 | H1 | H2 | H4 | D1 | W1 | MN1

  datatype Tick = Tick(symbol: string, time: int, bid: real, ask: real)

  /** A bar is stamped with its open time. */
  datatype Bar = Bar(
    symbol: string,
    timeframe: Timeframe,
    time: int,
    open: real,
    high: real,
    low: real,
    close: real,
    tickVolume: int,
    isClosed: bool)
  {
    /** What the Bar constructor checks; a bar that fails it raises. */
    predicate WellFormed() {
      && 0.0 < open && 0.0 < high && 0.0 < low && 0.0 < close
      && low <= open <= high
      && low <= close <= high
    }
  }

  /** What a replay visits: a tick, or a closed bar. */
  datatype Moment = TickSeen(tick: Tick) | BarSeen(bar: Bar)
  {
    function Time(): int {
      if TickSeen? then tick.time else bar.time
    }

    function Symbol(): string {
      if TickSeen? then tick.symbol else bar.symbol
    }
  }

  datatype Side = BUY | SELL
  {
    function Sign(): real {
      if this == BUY then 1.0 else -1.0
    }
  }

  /** One point of an equity curve. */
  datatype Sample = Sample(time: int, equity: real)

  function MaxReal(x: real, y: real): real {
    if x >= y then x else y
  }

  function MinReal(x: real, y: real): real {
    if x <= y then x else y
  }

  function MaxInt(x: int, y: int): int {
    if x >= y then x else y
  }

  ghost predicate TimesAscend(bars: seq<Bar>) {
    forall i, j :: 0 <= i < j < |bars| ==> bars[i].time < bars[j].time
  }

  /** A map's value, or a default for an absent key. */
  function GetOr<K, V>(m: map<K, V>, k: K, default: V): V {
    if k in m then m[k] else default
  }

  function Count(holds: bool): nat {
    if holds then 1 else 0
  }

  predicate Distinct<T(==)>(xs: seq<T>) {
    forall i, j :: 0 <= i < j < |xs| ==> xs[i] != xs[j]
  }

  ghost predicate Ascending(xs: seq<int>) {
    forall i, j :: 0 <= i < j < |xs| ==> xs[i] < xs[j]
  }

  lemma SomeMember<T>(xs: set<T>) returns (x: T)
    requires xs != {}
    ensures x in xs
  {
    x :| x in xs;
  }
}
