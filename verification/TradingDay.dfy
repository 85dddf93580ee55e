/** Bucket keys and session calendars: the modular date arithmetic behind H4 and D1 bars. */
module TradingDay {
  import opened UtcTime

  datatype Calendar =
    | ForexWeek(weekOpenHour: int, weekCloseHour: int, dailyBreakHours: set<int>)
    | AlwaysOpen
  {
    /** The hours a datetime accepts. */
    predicate Valid() {
      ForexWeek? ==> 0 <= weekOpenHour <= 23
    }

    predicate IsOpen(slot: int) {
      match this
      case AlwaysOpen => true
      case ForexWeek(open, close, breaks) =>
        if HourOfDay(slot) in breaks then false
        else if Weekday(slot) == 5 then false
        else if Weekday(slot) == 6 then HourOfDay(slot) >= open
        else if Weekday(slot) == 4 then HourOfDay(slot) < close
        else true
    }

    function WeekOpenBefore(t: int): (w: int)
      ensures Valid() ==> w <= t
    {
      match this
      case AlwaysOpen => Midnight(t - 400 * DAY)
      case ForexWeek(open, _, _) =>
        var daysSinceSunday := (Weekday(t) - 6) % 7;
        var candidate := AtHour(t - daysSinceSunday * DAY, open);
        if candidate > t then candidate - 7 * DAY else candidate
    }
  }

  predicate ValidAnchor(anchor: int) {
    0 <= anchor <= 23
  }

  function AnchoredDayStart(t: int, anchor: int): int {
    var d := AtHour(t, anchor);
    if t < d then d - DAY else d
  }

  function H4Key(t: int, anchor: int): int {
    var a := AnchoredDayStart(t, anchor);
    var hoursSince := (t - a) / HOUR;
    a + 4 * (hoursSince / 4) * HOUR
  }

  function D1Key(t: int, anchor: int, calendar: Calendar): int {
    var b := AnchoredDayStart(t, anchor);
    var weekOpen := calendar.WeekOpenBefore(t);
    if b < weekOpen then
      var nb := AnchoredDayStart(weekOpen, anchor);
      if nb < weekOpen then nb + DAY else nb
    else
      b
  }

  // ---- Characterisation of the boundaries ---------------------------------

  /** `x` is an `anchor`:00 instant. */
  predicate IsAnchor(x: int, anchor: int) {
    (x - anchor * HOUR) % DAY == 0
  }

  /** The anchored day start is the one anchor instant in the 24 hours up to `t`. */
  lemma AnchoredDayStartIsLatestAnchor(t: int, anchor: int, d: int)
    requires ValidAnchor(anchor)
    ensures d == AnchoredDayStart(t, anchor) <==> (IsAnchor(d, anchor) && d <= t < d + DAY)
  {
  }

  /** `x` is a Sunday at the week-open hour (the first Sunday of 1970 was day 3). */
  predicate IsWeekOpen(x: int, openHour: int) {
    (x - 3 * DAY - openHour * HOUR) % WEEK == 0
  }

  lemma SundayBefore(t: int)
    ensures
      var weeks := (t / DAY - 3) / 7;
      Midnight(t - (Weekday(t) - 6) % 7 * DAY) == DAY * (3 + 7 * weeks)
  {
    var day := t / DAY;
    var since := (Weekday(t) - 6) % 7;
    var u := t - since * DAY;
    assert since == (day - 3) % 7;
    assert u == DAY * (day - since) + t % DAY;
    assert u / DAY == day - since;
  }

  lemma WeekOpenOnGrid(weeks: int, openHour: int)
    ensures IsWeekOpen(DAY * (3 + 7 * weeks) + openHour * HOUR, openHour)
  {
    assert DAY * (3 + 7 * weeks) - 3 * DAY == WEEK * weeks;
    assert (WEEK * weeks) % WEEK == 0;
  }

  /** The week open is the one Sunday opening in the week up to `t`. */
  lemma WeekOpenIsLatestSundayOpen(t: int, calendar: Calendar)
    requires calendar.Valid() && calendar.ForexWeek?
    ensures
      var w := calendar.WeekOpenBefore(t);
      IsWeekOpen(w, calendar.weekOpenHour) && w <= t < w + WEEK
  {
    hide IsWeekOpen, Midnight, Weekday;
    var weeks := (t / DAY - 3) / 7;
    SundayBefore(t);
    WeekOpenOnGrid(weeks, calendar.weekOpenHour);
    WeekOpenOnGrid(weeks - 1, calendar.weekOpenHour);
    assert DAY * (3 + 7 * weeks) <= t < DAY * (3 + 7 * weeks) + WEEK;
    assert DAY * (3 + 7 * (weeks - 1)) == DAY * (3 + 7 * weeks) - 7 * DAY;
  }

  lemma SameWeekOpen(w1: int, w2: int, t: int, openHour: int)
    requires IsWeekOpen(w1, openHour) && w1 <= t < w1 + WEEK
    requires IsWeekOpen(w2, openHour) && w2 <= t < w2 + WEEK
    ensures w1 == w2
  {
    var base := 3 * DAY + openHour * HOUR;
    var n1, n2 := (w1 - base) / WEEK, (w2 - base) / WEEK;
    assert w1 - base == WEEK * n1;
    assert w2 - base == WEEK * n2;
  }

  /** Inside the week that opens at `w`, every instant looks back to `w`. */
  lemma WeekOpenStable(t: int, u: int, calendar: Calendar)
    requires calendar.Valid() && calendar.ForexWeek?
    requires calendar.WeekOpenBefore(t) <= u < calendar.WeekOpenBefore(t) + WEEK
    ensures calendar.WeekOpenBefore(u) == calendar.WeekOpenBefore(t)
  {
    hide Calendar.WeekOpenBefore, IsWeekOpen;
    WeekOpenIsLatestSundayOpen(t, calendar);
    WeekOpenIsLatestSundayOpen(u, calendar);
    SameWeekOpen(calendar.WeekOpenBefore(t), calendar.WeekOpenBefore(u), u, calendar.weekOpenHour);
  }

  // ---- Market hours ----------------------------------------------------------

  /** When the week that opens at `w` closes: on its Friday at the close hour. An hour before 0 closes it with
      Thursday, one past 24 with Friday. */
  function WeekClose(w: int, openHour: int, closeHour: int): int {
    var hour := if closeHour < 0 then 0 else if closeHour > 24 then 24 else closeHour;
    w + 5 * DAY - openHour * HOUR + hour * HOUR
  }

  /** Between some Sunday opening and that week's close, outside the daily break hours. */
  ghost predicate InMarketHours(slot: int, calendar: Calendar) {
    match calendar
    case AlwaysOpen => true
    case ForexWeek(open, close, breaks) =>
      && (exists w :: IsWeekOpen(w, open) && w <= slot < WeekClose(w, open, close))
      && slot % DAY / HOUR !in breaks
  }

  /** Days since the Sunday midnight `sunday` fix the weekday. */
  lemma WeekdayFromSunday(slot: int, sunday: int, weeks: int)
    requires sunday == DAY * (3 + 7 * weeks) && sunday <= slot < sunday + 8 * DAY
    ensures
      var days := (slot - sunday) / DAY;
      Weekday(slot) == (days + 6) % 7 && slot == sunday + days * DAY + slot % DAY
  {
    var days := (slot - sunday) / DAY;
    assert slot / DAY == 3 + 7 * weeks + days;
  }

  lemma WeekOpenGrid(w: int, openHour: int) returns (weeks: int)
    requires IsWeekOpen(w, openHour)
    ensures w == DAY * (3 + 7 * weeks) + openHour * HOUR
  {
    weeks := (w - 3 * DAY - openHour * HOUR) / WEEK;
  }

  lemma HourReached(slot: int, hour: int)
    ensures HourOfDay(slot) >= hour <==> slot % DAY >= hour * HOUR
    ensures 0 <= HourOfDay(slot) < 24
  {
  }

  /** In the week that opens at `w` the market is open up to the Friday close, except in the break hours. */
  lemma OpenUntilWeekClose(slot: int, w: int, calendar: Calendar)
    requires calendar.Valid() && calendar.ForexWeek?
    requires IsWeekOpen(w, calendar.weekOpenHour) && w <= slot < w + WEEK
    ensures calendar.IsOpen(slot) <==>
      && slot < WeekClose(w, calendar.weekOpenHour, calendar.weekCloseHour)
      && HourOfDay(slot) !in calendar.dailyBreakHours
  {
    hide IsWeekOpen, Weekday, HourOfDay;
    var weeks := WeekOpenGrid(w, calendar.weekOpenHour);
    var sunday := DAY * (3 + 7 * weeks);
    WeekdayFromSunday(slot, sunday, weeks);
    HourReached(slot, calendar.weekOpenHour);
    HourReached(slot, calendar.weekCloseHour);
    var days := (slot - sunday) / DAY;
    assert days == 0 || days == 1 || days == 2 || days == 3 || days == 4 || days == 5 || days == 6 || days == 7;
  }

  /** The calendar's weekday cases are the market hours. */
  lemma OpenIsMarketHours(slot: int, calendar: Calendar)
    requires calendar.Valid()
    ensures calendar.IsOpen(slot) <==> InMarketHours(slot, calendar)
  {
    if calendar.ForexWeek? {
      hide Calendar.IsOpen, Calendar.WeekOpenBefore, IsWeekOpen;
      var w := calendar.WeekOpenBefore(slot);
      WeekOpenIsLatestSundayOpen(slot, calendar);
      OpenUntilWeekClose(slot, w, calendar);
      forall v | IsWeekOpen(v, calendar.weekOpenHour)
                 && v <= slot < WeekClose(v, calendar.weekOpenHour, calendar.weekCloseHour)
        ensures v == w
      {
        SameWeekOpen(v, w, slot, calendar.weekOpenHour);
      }
    }
  }

  // ---- The trading day is one interval ------------------------------------

  /** First instant of the trading day keyed `key`. */
  function BucketStart(key: int, calendar: Calendar): int {
    var w := calendar.WeekOpenBefore(key);
    if key - DAY < w then w else key
  }

  /** First instant after the trading day keyed `key`. */
  function BucketEnd(key: int, calendar: Calendar): int {
    var w := calendar.WeekOpenBefore(key + DAY - 1);
    if w > key then w else key + DAY
  }

  /** The merge arm: the fragment after the week open is keyed by the next anchor, otherwise by the last. */
  lemma D1KeyByCase(t: int, anchor: int, calendar: Calendar)
    requires ValidAnchor(anchor) && calendar.Valid()
    ensures
      var b := AnchoredDayStart(t, anchor);
      D1Key(t, anchor, calendar) == if b < calendar.WeekOpenBefore(t) then b + DAY else b
  {
    hide AnchoredDayStart, Calendar.WeekOpenBefore;
    var b := AnchoredDayStart(t, anchor);
    var w := calendar.WeekOpenBefore(t);
    AnchoredDayStartIsLatestAnchor(t, anchor, b);
    if b < w {
      AnchoredDayStartIsLatestAnchor(w, anchor, b);
    }
  }

  lemma NextAnchor(x: int, anchor: int)
    ensures IsAnchor(x, anchor) <==> IsAnchor(x + DAY, anchor)
  {
  }

  /** Every key is an anchor instant less than 24 hours from the instants it keys. */
  lemma D1KeyIsNearbyAnchor(t: int, anchor: int, calendar: Calendar)
    requires ValidAnchor(anchor) && calendar.Valid()
    ensures IsAnchor(D1Key(t, anchor, calendar), anchor)
    ensures t - DAY < D1Key(t, anchor, calendar) < t + DAY
  {
    hide AnchoredDayStart, D1Key, IsAnchor, IsWeekOpen, Calendar.WeekOpenBefore;
    var b := AnchoredDayStart(t, anchor);
    D1KeyByCase(t, anchor, calendar);
    AnchoredDayStartIsLatestAnchor(t, anchor, b);
    NextAnchor(b, anchor);
  }

  lemma AlwaysOpenNeverMerges(t: int, anchor: int)
    requires ValidAnchor(anchor)
    ensures D1Key(t, anchor, AlwaysOpen) == AnchoredDayStart(t, anchor)
  {
    AnchoredDayStartIsLatestAnchor(t, anchor, AnchoredDayStart(t, anchor));
  }

  /** The instants keyed `key` are exactly one interval inside (key - 24h, key + 24h]. */
  lemma D1BucketIsInterval(t: int, key: int, anchor: int, calendar: Calendar)
    requires ValidAnchor(anchor) && calendar.Valid() && IsAnchor(key, anchor)
    ensures D1Key(t, anchor, calendar) == key
       <==> BucketStart(key, calendar) <= t < BucketEnd(key, calendar)
    ensures key - DAY < BucketStart(key, calendar) <= key < BucketEnd(key, calendar) <= key + DAY
  {
    hide AnchoredDayStart, D1Key, IsAnchor, IsWeekOpen;
    D1KeyByCase(t, anchor, calendar);
    AnchoredDayStartIsLatestAnchor(t, anchor, AnchoredDayStart(t, anchor));
    AnchoredDayStartIsLatestAnchor(t, anchor, key);
    if calendar.ForexWeek? {
      WeekOpenIsLatestSundayOpen(t, calendar);
      WeekOpenIsLatestSundayOpen(key, calendar);
      WeekOpenIsLatestSundayOpen(key + DAY - 1, calendar);
      if D1Key(t, anchor, calendar) == key {
        IntervalHoldsKeyedInstant(t, key, anchor, calendar);
      }
      if BucketStart(key, calendar) <= t < BucketEnd(key, calendar) {
        IntervalInstantHasKey(t, key, anchor, calendar);
      }
    }
  }

  lemma IntervalHoldsKeyedInstant(t: int, key: int, anchor: int, calendar: Calendar)
    requires ValidAnchor(anchor) && calendar.Valid() && calendar.ForexWeek?
    requires D1Key(t, anchor, calendar) == key
    ensures BucketStart(key, calendar) <= t < BucketEnd(key, calendar)
  {
    hide AnchoredDayStart, Calendar.WeekOpenBefore, D1Key, IsWeekOpen;
    var b := AnchoredDayStart(t, anchor);
    var w := calendar.WeekOpenBefore(t);
    var last := calendar.WeekOpenBefore(key + DAY - 1);
    D1KeyByCase(t, anchor, calendar);
    AnchoredDayStartIsLatestAnchor(t, anchor, b);
    WeekOpenIsLatestSundayOpen(t, calendar);
    WeekOpenIsLatestSundayOpen(key, calendar);
    WeekOpenIsLatestSundayOpen(key + DAY - 1, calendar);
    if b < w {
      WeekOpenStable(t, key, calendar);
    } else if last <= t {
      WeekOpenStable(key + DAY - 1, t, calendar);
    }
  }

  lemma IntervalInstantHasKey(t: int, key: int, anchor: int, calendar: Calendar)
    requires ValidAnchor(anchor) && calendar.Valid() && calendar.ForexWeek? && IsAnchor(key, anchor)
    requires BucketStart(key, calendar) <= t < BucketEnd(key, calendar)
    ensures D1Key(t, anchor, calendar) == key
  {
    hide AnchoredDayStart, Calendar.WeekOpenBefore, D1Key, IsWeekOpen;
    var w := calendar.WeekOpenBefore(t);
    D1KeyByCase(t, anchor, calendar);
    WeekOpenIsLatestSundayOpen(t, calendar);
    if t < key {
      AnchoredDayStartIsLatestAnchor(t, anchor, key - DAY);
      WeekOpenStable(key, t, calendar);
    } else {
      AnchoredDayStartIsLatestAnchor(t, anchor, key);
      if w > key {
        WeekOpenStable(t, key + DAY - 1, calendar);
      }
    }
  }

  lemma WeekOpenMonotone(t: int, u: int, calendar: Calendar)
    requires calendar.Valid() && calendar.ForexWeek? && t <= u
    ensures calendar.WeekOpenBefore(t) <= calendar.WeekOpenBefore(u)
  {
    hide Calendar.WeekOpenBefore, IsWeekOpen;
    WeekOpenIsLatestSundayOpen(t, calendar);
    WeekOpenIsLatestSundayOpen(u, calendar);
    if calendar.WeekOpenBefore(u) < calendar.WeekOpenBefore(t) {
      WeekOpenStable(u, t, calendar);
    }
  }

  lemma AnchoredDayStartMonotone(t: int, u: int, anchor: int)
    requires ValidAnchor(anchor) && t <= u
    ensures AnchoredDayStart(t, anchor) <= AnchoredDayStart(u, anchor)
  {
    hide AnchoredDayStart;
    var a, b := AnchoredDayStart(t, anchor), AnchoredDayStart(u, anchor);
    AnchoredDayStartIsLatestAnchor(t, anchor, a);
    AnchoredDayStartIsLatestAnchor(u, anchor, b);
    var m, n := (a - anchor * HOUR) / DAY, (b - anchor * HOUR) / DAY;
    assert a - anchor * HOUR == DAY * m;
    assert b - anchor * HOUR == DAY * n;
  }

  /** No later bar is ever keyed to an earlier trading day. */
  lemma D1KeyMonotone(t: int, u: int, anchor: int, calendar: Calendar)
    requires ValidAnchor(anchor) && calendar.Valid() && t <= u
    ensures D1Key(t, anchor, calendar) <= D1Key(u, anchor, calendar)
  {
    hide AnchoredDayStart, Calendar.WeekOpenBefore, D1Key;
    var bt, bu := AnchoredDayStart(t, anchor), AnchoredDayStart(u, anchor);
    AnchoredDayStartMonotone(t, u, anchor);
    if calendar.AlwaysOpen? {
      AlwaysOpenNeverMerges(t, anchor);
      AlwaysOpenNeverMerges(u, anchor);
    } else {
      D1KeyByCase(t, anchor, calendar);
      D1KeyByCase(u, anchor, calendar);
      WeekOpenMonotone(t, u, calendar);
      AnchoredDayStartIsLatestAnchor(t, anchor, bt);
      AnchoredDayStartIsLatestAnchor(u, anchor, bu);
    }
  }

  // ---- H4 -------------------------------------------------------------------

  /** `k` is an instant anchor + 4n hours. */
  predicate IsH4Boundary(k: int, anchor: int) {
    (k - anchor * HOUR) % (4 * HOUR) == 0
  }

  lemma AnchorGrid(a: int, anchor: int) returns (days: int)
    requires IsAnchor(a, anchor)
    ensures a == anchor * HOUR + DAY * days
  {
    days := (a - anchor * HOUR) / DAY;
  }

  lemma H4Grid(n: int, anchor: int)
    ensures IsH4Boundary(anchor * HOUR + 4 * HOUR * n, anchor)
  {
    assert (4 * HOUR * n) % (4 * HOUR) == 0;
  }

  lemma H4BoundaryFromAnchor(a: int, q: int, anchor: int)
    requires IsAnchor(a, anchor)
    ensures IsH4Boundary(a + 4 * q * HOUR, anchor)
  {
    hide IsAnchor, IsH4Boundary;
    var days := AnchorGrid(a, anchor);
    H4Grid(6 * days + q, anchor);
    assert a + 4 * q * HOUR == anchor * HOUR + 4 * HOUR * (6 * days + q);
  }

  lemma SameH4Boundary(k1: int, k2: int, t: int, anchor: int)
    requires IsH4Boundary(k1, anchor) && k1 <= t < k1 + 4 * HOUR
    requires IsH4Boundary(k2, anchor) && k2 <= t < k2 + 4 * HOUR
    ensures k1 == k2
  {
    var n1, n2 := (k1 - anchor * HOUR) / (4 * HOUR), (k2 - anchor * HOUR) / (4 * HOUR);
    assert k1 - anchor * HOUR == 4 * HOUR * n1;
    assert k2 - anchor * HOUR == 4 * HOUR * n2;
  }

  /** The H4 key is the last boundary anchor + 4n hours at or before `t`. */
  lemma H4KeyIsLatestBoundary(t: int, anchor: int)
    requires ValidAnchor(anchor)
    ensures IsH4Boundary(H4Key(t, anchor), anchor)
    ensures H4Key(t, anchor) <= t < H4Key(t, anchor) + 4 * HOUR
  {
    hide AnchoredDayStart, IsAnchor, IsH4Boundary;
    var a := AnchoredDayStart(t, anchor);
    AnchoredDayStartIsLatestAnchor(t, anchor, a);
    H4BoundaryFromAnchor(a, (t - a) / HOUR / 4, anchor);
  }

  lemma H4KeyMonotone(t: int, u: int, anchor: int)
    requires ValidAnchor(anchor) && t <= u
    ensures H4Key(t, anchor) <= H4Key(u, anchor)
  {
    hide H4Key, IsH4Boundary;
    H4KeyIsLatestBoundary(t, anchor);
    H4KeyIsLatestBoundary(u, anchor);
    if H4Key(u, anchor) < H4Key(t, anchor) {
      SameH4Boundary(H4Key(t, anchor), H4Key(u, anchor), t, anchor);
    }
  }

  // ---- Expected open slots -------------------------------------------------

  datatype Frame = FourHour | TradingDay

  /** Which frame is being built, and for which session. */
  datatype Session = Session(frame: Frame, anchor: int, calendar: Calendar)
  {
    predicate Valid() {
      ValidAnchor(anchor) && calendar.Valid()
    }

    function Key(t: int): int {
      match frame
      case FourHour => H4Key(t, anchor)
      case TradingDay => D1Key(t, anchor, calendar)
    }

    function SpanBefore(): int {
      if frame.FourHour? then 0 else 26 * HOUR
    }

    function SpanAfter(): int {
      if frame.FourHour? then 4 * HOUR else 26 * HOUR
    }

    predicate Expects(slot: int, key: int) {
      calendar.IsOpen(slot) && Key(slot) == key
    }
  }

  lemma KeyMonotone(s: Session, t: int, u: int)
    requires s.Valid() && t <= u
    ensures s.Key(t) <= s.Key(u)
  {
    match s.frame
    case FourHour => H4KeyMonotone(t, u, s.anchor);
    case TradingDay => D1KeyMonotone(t, u, s.anchor, s.calendar);
  }

  lemma BoundariesAreWholeHours(k: int, anchor: int)
    requires IsAnchor(k, anchor) || IsH4Boundary(k, anchor)
    ensures k % HOUR == 0
  {
    if IsAnchor(k, anchor) {
      var n := (k - anchor * HOUR) / DAY;
      assert k == HOUR * (24 * n + anchor);
    } else {
      var n := (k - anchor * HOUR) / (4 * HOUR);
      assert k == HOUR * (4 * n + anchor);
    }
  }

  /** Keys fall on whole hours, less than the scanned span away from what they key. */
  lemma KeyWithinSpan(s: Session, t: int)
    requires s.Valid()
    ensures s.Key(t) % HOUR == 0
    ensures s.Key(t) - s.SpanBefore() <= t < s.Key(t) + s.SpanAfter()
  {
    hide H4Key, D1Key, IsAnchor, IsH4Boundary;
    match s.frame {
      case FourHour => H4KeyIsLatestBoundary(t, s.anchor);
      case TradingDay => D1KeyIsNearbyAnchor(t, s.anchor, s.calendar);
    }
    BoundariesAreWholeHours(s.Key(t), s.anchor);
  }

  /** The hourly slots from `t` up to `end` that `key` expects, in order. */
  function SlotsFrom(s: Session, key: int, t: int, end: int): seq<int>
    decreases end - t
  {
    if t >= end then []
    else
      var rest := SlotsFrom(s, key, t + HOUR, end);
      if s.Expects(t, key) then [t] + rest else rest
  }

  function ExpectedSlots(s: Session, key: int): seq<int> {
    SlotsFrom(s, key, key - s.SpanBefore(), key + s.SpanAfter())
  }

  lemma {:induction false} SlotsFromExact(s: Session, key: int, t: int, end: int, x: int)
    ensures x in SlotsFrom(s, key, t, end)
       <==> t <= x < end && (x - t) % HOUR == 0 && s.Expects(x, key)
    decreases end - t
  {
    hide Session.Expects;
    if t < end {
      SlotsFromExact(s, key, t + HOUR, end, x);
      assert (x - t) % HOUR == (x - (t + HOUR)) % HOUR;
    }
  }

  lemma WholeHourApart(first: int, slot: int)
    requires first % HOUR == 0
    ensures (slot - first) % HOUR == 0 <==> slot % HOUR == 0
  {
  }

  /** The scan lists every whole-hour slot of the bucket inside market hours and nothing else. */
  lemma ExpectedSlotsExact(s: Session, key: int, t: int, slot: int)
    requires s.Valid() && s.Key(t) == key
    ensures slot in ExpectedSlots(s, key)
       <==> slot % HOUR == 0 && InMarketHours(slot, s.calendar) && s.Key(slot) == key
  {
    hide Session.Key, Calendar.IsOpen, SlotsFrom, InMarketHours;
    OpenIsMarketHours(slot, s.calendar);
    KeyWithinSpan(s, t);
    KeyWithinSpan(s, slot);
    var first := key - s.SpanBefore();
    SlotsFromExact(s, key, first, key + s.SpanAfter(), slot);
    assert first % HOUR == 0;
    WholeHourApart(first, slot);
  }

  /** The scanning loop. */
  method ExpectedOpenSlots(s: Session, key: int) returns (out: seq<int>)
    ensures out == ExpectedSlots(s, key)
  {
    out := [];
    var t := key - s.SpanBefore();
    var end := key + s.SpanAfter();
    while t < end
      invariant ExpectedSlots(s, key) == out + SlotsFrom(s, key, t, end)
      decreases end - t
    {
      if s.calendar.IsOpen(t) && s.Key(t) == key {
        out := out + [t];
      }
      t := t + HOUR;
    }
  }
}
