/** The closed-form swap night count against the rollover instants themselves. */
module Rollover {
  import opened UtcTime
  import opened TradingDay

  function RolloverCount(openTime: int, closeTime: int, hour: int): int {
    if closeTime <= openTime then 0
    else
      var today := AtHour(openTime, hour);
      var first := if today <= openTime then today + DAY else today;
      if first > closeTime then 0 else (closeTime - first) / DAY + 1
  }

  /** The daily rollover instants in (openTime, closeTime]. */
  ghost function Rollovers(openTime: int, closeTime: int, hour: int): set<int> {
    set r: int | openTime < r <= closeTime && IsAnchor(r, hour)
  }

  /** Anchors are whole days apart. */
  lemma AnchorGap(a: int, b: int, hour: int)
    requires IsAnchor(a, hour) && IsAnchor(b, hour)
    ensures (b - a) % DAY == 0
    ensures a < b ==> a + DAY <= b
  {
    var m, n := (a - hour * HOUR) / DAY, (b - hour * HOUR) / DAY;
    assert a - hour * HOUR == DAY * m && b - hour * HOUR == DAY * n;
    assert b - a == DAY * (n - m);
  }

  /** The closed form is the difference of the two anchored day starts, in days. */
  lemma CountByAnchors(openTime: int, closeTime: int, hour: int)
    requires ValidAnchor(hour) && openTime <= closeTime
    ensures DAY * RolloverCount(openTime, closeTime, hour)
         == AnchoredDayStart(closeTime, hour) - AnchoredDayStart(openTime, hour)
  {
    hide AnchoredDayStart, IsAnchor;
    var a, b := AnchoredDayStart(openTime, hour), AnchoredDayStart(closeTime, hour);
    AnchoredDayStartIsLatestAnchor(openTime, hour, a);
    AnchoredDayStartIsLatestAnchor(closeTime, hour, b);
    AnchoredDayStartMonotone(openTime, closeTime, hour);
    AnchorGap(a, b, hour);
    FirstRollover(openTime, hour);
    var first := a + DAY;
    if openTime < closeTime && first <= closeTime {
      var d := (b - a) / DAY;
      assert b - a == DAY * d;
      assert (closeTime - first) / DAY == d - 1;
    }
  }

  lemma FirstRollover(openTime: int, hour: int)
    requires ValidAnchor(hour)
    ensures
      var today := AtHour(openTime, hour);
      (if today <= openTime then today + DAY else today) == AnchoredDayStart(openTime, hour) + DAY
  {
  }

  /** The count is the number of instants crossed. */
  lemma {:induction false} CountIsInstants(openTime: int, closeTime: int, hour: int)
    requires ValidAnchor(hour)
    ensures RolloverCount(openTime, closeTime, hour) == |Rollovers(openTime, closeTime, hour)|
    decreases closeTime - openTime
  {
    hide AnchoredDayStart, IsAnchor, RolloverCount;
    if closeTime <= openTime {
      NoInstants(openTime, closeTime, hour);
    } else {
      var b := AnchoredDayStart(closeTime, hour);
      AnchoredDayStartIsLatestAnchor(closeTime, hour, b);
      CountByAnchors(openTime, closeTime, hour);
      forall r | b < r <= closeTime ensures !IsAnchor(r, hour) {
        if IsAnchor(r, hour) { AnchorGap(b, r, hour); }
      }
      if b <= openTime {
        assert Rollovers(openTime, closeTime, hour) == {};
        AnchoredDayStartIsLatestAnchor(openTime, hour, b);
      } else {
        CountIsInstants(openTime, b - 1, hour);
        CountByAnchors(openTime, b - 1, hour);
        PreviousAnchor(b, hour);
        assert Rollovers(openTime, closeTime, hour) == Rollovers(openTime, b - 1, hour) + {b};
      }
    }
  }

  lemma PreviousAnchor(b: int, hour: int)
    requires ValidAnchor(hour) && IsAnchor(b, hour)
    ensures AnchoredDayStart(b - 1, hour) == b - DAY
  {
    assert (b - DAY - hour * HOUR) % DAY == 0;
    AnchoredDayStartIsLatestAnchor(b - 1, hour, b - DAY);
  }

  lemma NoInstants(openTime: int, closeTime: int, hour: int)
    requires closeTime <= openTime
    ensures Rollovers(openTime, closeTime, hour) == {} && RolloverCount(openTime, closeTime, hour) == 0
  {
  }

  /** Adjoining intervals: no night is lost and none is charged twice. */
  lemma CountIsAdditive(a: int, b: int, c: int, hour: int)
    requires ValidAnchor(hour) && a <= b <= c
    ensures RolloverCount(a, c, hour) == RolloverCount(a, b, hour) + RolloverCount(b, c, hour)
  {
    hide AnchoredDayStart, RolloverCount;
    CountByAnchors(a, b, hour);
    CountByAnchors(b, c, hour);
    CountByAnchors(a, c, hour);
  }
}
