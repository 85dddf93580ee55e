/** Calendar months of the Gregorian calendar, as day numbers from 1970-01-01. Years are counted from March, so that
    the leap day comes last. */
module CivilMonths {
  import opened UtcTime

  /** 1970-01-01 is this many days after the first of March of the year 0. */
  const EPOCH_OFFSET: int := 719468

  /** Days from the first of March of the year 0 to the first of March of year `y`. */
  function MarchFirst(y: int): int {
    365 * y + y / 4 - y / 100 + y / 400
  }

  /** Days from the first of March to the first of the month `m` months later. */
  function MonthOffset(m: int): int {
    (153 * m + 2) / 5
  }

  /** The day number of the first of month `m` (0 is March, 11 is February) of the year that begins in March of `y`. */
  function FirstOfMonth(y: int, m: int): int {
    MarchFirst(y) + MonthOffset(m) - EPOCH_OFFSET
  }

  predicate IsLeap(year: int) {
    year % 4 == 0 && (year % 100 != 0 || year % 400 == 0)
  }

  /** The length of month `m` (0 is March); February belongs to the civil year that has just begun. */
  function DaysIn(y: int, m: int): int
    requires 0 <= m < 12
  {
    if m == 1 || m == 3 || m == 6 || m == 8 then 30
    else if m == 11 then if IsLeap(y + 1) then 29 else 28
    else 31
  }

  /** Month after month has the length the calendar gives it, and 1 January 1970 is day 0: this fixes every month. */
  lemma MonthsFollowTheCalendar(y: int, m: int)
    requires 0 <= m < 12
    ensures (if m == 11 then FirstOfMonth(y + 1, 0) else FirstOfMonth(y, m + 1)) == FirstOfMonth(y, m) + DaysIn(y, m)
    ensures FirstOfMonth(1969, 10) == 0
  {
    if m == 11 {
      YearLength(y);
    }
  }

  lemma YearLength(y: int)
    ensures MarchFirst(y + 1) == MarchFirst(y) + if IsLeap(y + 1) then 366 else 365
  {
    DivStep(y, 4);
    DivStep(y, 100);
    DivStep(y, 400);
    if (y + 1) % 400 == 0 {
      Divides(y + 1);
    }
  }

  lemma DivStep(y: int, n: int)
    requires n == 4 || n == 100 || n == 400
    ensures (y + 1) / n == y / n + if (y + 1) % n == 0 then 1 else 0
  {
  }

  lemma Divides(y: int)
    requires y % 400 == 0
    ensures y % 100 == 0 && y % 4 == 0
  {
  }

  /** The year, counted from March, that holds day `z` from the first of March of the year 0. */
  function YearOf(z: int): int {
    var y := 400 * z / 146097;
    if z < MarchFirst(y) then y - 1 else if z >= MarchFirst(y + 1) then y + 1 else y
  }

  lemma YearOfHolds(z: int)
    ensures MarchFirst(YearOf(z)) <= z < MarchFirst(YearOf(z) + 1)
  {
    var y := 400 * z / 146097;
    assert 146097 * y <= 400 * z < 146097 * (y + 1);
    MarchFirstBounds(y - 1);
    MarchFirstBounds(y);
    MarchFirstBounds(y + 1);
    MarchFirstBounds(y + 2);
  }

  /** A year is 365.2425 days on average, and March never strays two days from that. */
  lemma MarchFirstBounds(y: int)
    ensures 146097 * y - 800 < 400 * MarchFirst(y) < 146097 * y + 400
  {
  }

  /** The first of the month that holds day number `day`. */
  function MonthStart(day: int): int {
    var z := day + EPOCH_OFFSET;
    var y := YearOf(z);
    FirstOfMonth(y, (5 * (z - MarchFirst(y)) + 2) / 153)
  }

  /** `first` is the first day of a month and `next` of the one after. */
  ghost predicate IsMonth(first: int, next: int) {
    exists y, m :: 0 <= m < 12 && FirstOfMonth(y, m) == first && next == first + DaysIn(y, m)
  }

  lemma OffsetHolds(dayOfYear: int)
    requires 0 <= dayOfYear < 366
    ensures
      var m := (5 * dayOfYear + 2) / 153;
      0 <= m < 12 && MonthOffset(m) <= dayOfYear < MonthOffset(m + 1)
  {
  }

  /** Every day lies in the month that is said to hold it. */
  lemma MonthStartHolds(day: int) returns (next: int)
    ensures IsMonth(MonthStart(day), next) && MonthStart(day) <= day < next
  {
    hide MarchFirst, YearOf, DaysIn, IsLeap;
    var z := day + EPOCH_OFFSET;
    var y := YearOf(z);
    YearOfHolds(z);
    var dayOfYear := z - MarchFirst(y);
    assert 0 <= dayOfYear < 366 by { YearLength(y); }
    OffsetHolds(dayOfYear);
    var m := (5 * dayOfYear + 2) / 153;
    MonthsFollowTheCalendar(y, m);
    next := FirstOfMonth(y, m) + DaysIn(y, m);
    assert MonthStart(day) == FirstOfMonth(y, m);
    FirstOfYear(y + 1);
  }

  lemma FirstOfYear(y: int)
    ensures FirstOfMonth(y, 0) == MarchFirst(y) - EPOCH_OFFSET
  {
  }

  lemma {:induction false} MarchFirstGrows(y1: int, y2: int)
    requires y1 <= y2
    ensures MarchFirst(y1) <= MarchFirst(y2)
    decreases y2 - y1
  {
    if y1 < y2 {
      YearLength(y2 - 1);
      MarchFirstGrows(y1, y2 - 1);
    }
  }

  lemma MonthStartMonotone(d1: int, d2: int)
    requires d1 <= d2
    ensures MonthStart(d1) <= MonthStart(d2)
  {
    hide MarchFirst, YearOf, IsLeap;
    var z1, z2 := d1 + EPOCH_OFFSET, d2 + EPOCH_OFFSET;
    var y1, y2 := YearOf(z1), YearOf(z2);
    YearOfHolds(z1);
    YearOfHolds(z2);
    YearLength(y1);
    if y1 < y2 {
      MarchFirstGrows(y1 + 1, y2);
    } else if y2 < y1 {
      MarchFirstGrows(y2 + 1, y1);
    }
  }
}
