/** The combined equity curve of several backtests, and the forward-filled series behind their correlation. */
module Portfolio {
  import opened Domain
  import opened Sorting

  /** Curves come in any order and may repeat a timestamp. */
  datatype Report = Report(runId: string, initialBalance: real, curve: seq<Sample>)

  function SampleTime(s: Sample): int {
    s.time
  }

  // ---- What a report is worth at an instant --------------------------------------------------

  /** The latest sample at or before `t`; of samples with one timestamp, the last in the curve. */
  function LatestBy(curve: seq<Sample>, t: int): Option<Sample> {
    if curve == [] then None
    else
      var earlier := LatestBy(curve[..|curve| - 1], t);
      var s := curve[|curve| - 1];
      if s.time <= t && (earlier.None? || earlier.value.time <= s.time) then Some(s) else earlier
  }

  function ValueAt(r: Report, t: int): real {
    var latest := LatestBy(r.curve, t);
    if latest.None? then r.initialBalance else latest.value.equity
  }

  function Total(reports: seq<Report>, t: int): real {
    if reports == [] then 0.0 else Total(reports[..|reports| - 1], t) + ValueAt(reports[|reports| - 1], t)
  }

  /** Sample `i` is the one in force at `t`. */
  ghost predicate InForce(curve: seq<Sample>, i: nat, t: int) {
    && i < |curve| && curve[i].time <= t
    && forall j :: 0 <= j < |curve| && curve[j].time <= t ==>
         curve[j].time < curve[i].time || (curve[j].time == curve[i].time && j <= i)
  }

  lemma {:induction false} NoneLatest(curve: seq<Sample>, t: int)
    ensures LatestBy(curve, t).None? <==> forall j :: 0 <= j < |curve| ==> t < curve[j].time
  {
    if curve != [] {
      NoneLatest(curve[..|curve| - 1], t);
    }
  }

  lemma {:induction false} LatestInForce(curve: seq<Sample>, t: int) returns (i: nat)
    requires LatestBy(curve, t).Some?
    ensures InForce(curve, i, t) && LatestBy(curve, t) == Some(curve[i])
  {
    var n := |curve| - 1;
    NoneLatest(curve[..n], t);
    i := n;
    if LatestBy(curve[..n], t).Some? {
      var earlier := LatestInForce(curve[..n], t);
      if t < curve[n].time || curve[n].time < curve[earlier].time {
        i := earlier;
      }
    }
  }

  /** The latest sample is the only one in force. */
  lemma InForceIsLatest(curve: seq<Sample>, i: nat, t: int)
    requires InForce(curve, i, t)
    ensures LatestBy(curve, t) == Some(curve[i])
  {
    hide LatestBy;
    NoneLatest(curve, t);
    var j := LatestInForce(curve, t);
    assert i == j;
  }

  // ---- Sorting a curve changes nothing ----------------------------------------------------------

  lemma {:induction false} WithKeyAppend(curve: seq<Sample>, s: Sample, k: int)
    ensures WithKey(curve + [s], SampleTime, k)
         == WithKey(curve, SampleTime, k) + if s.time == k then [s] else []
  {
    if curve == [] {
      assert curve + [s] == [s];
    } else {
      WithKeyAppend(curve[1..], s, k);
      assert (curve + [s])[1..] == curve[1..] + [s];
    }
  }

  /** The sample in force is the last of those carrying its timestamp. */
  lemma {:induction false} LatestIsLastOfItsTime(curve: seq<Sample>, t: int)
    requires LatestBy(curve, t).Some?
    ensures
      var s := LatestBy(curve, t).value;
      var same := WithKey(curve, SampleTime, s.time);
      same != [] && same[|same| - 1] == s
  {
    hide WithKey;
    var n := |curve| - 1;
    var latest := LatestBy(curve, t).value;
    assert curve == curve[..n] + [curve[n]];
    WithKeyAppend(curve[..n], curve[n], latest.time);
    var earlier := LatestBy(curve[..n], t);
    if curve[n].time <= t && (earlier.None? || earlier.value.time <= curve[n].time) {
      assert latest == curve[n];
    } else {
      var i := LatestInForce(curve, t);
      assert earlier.value == latest && curve[n].time != latest.time;
      LatestIsLastOfItsTime(curve[..n], t);
    }
  }

  /** A curve and its stable sort are worth the same at every instant. */
  lemma SortKeepsLatest(curve: seq<Sample>, t: int)
    ensures LatestBy(SortBy(curve, SampleTime), t) == LatestBy(curve, t)
  {
    hide LatestBy, SortBy, WithKey;
    var sorted: seq<Sample> := SortBy(curve, SampleTime);
    forall s: Sample ensures s in sorted <==> s in curve {
      InSortBy(curve, SampleTime, s);
    }
    SameTime(curve, sorted, t);
    if LatestBy(curve, t).Some? {
      LatestIsLastOfItsTime(curve, t);
      LatestIsLastOfItsTime(sorted, t);
      SortByIsStableSort(curve, SampleTime, LatestBy(curve, t).value.time);
    }
  }

  lemma SameTime(a: seq<Sample>, b: seq<Sample>, t: int)
    requires forall s: Sample :: s in a <==> s in b
    ensures LatestBy(a, t).Some? <==> LatestBy(b, t).Some?
    ensures LatestBy(a, t).Some? ==> LatestBy(b, t).value.time == LatestBy(a, t).value.time
  {
    hide LatestBy, InForce;
    if LatestBy(a, t).Some? {
      NotEarlier(a, b, t);
    }
    if LatestBy(b, t).Some? {
      NotEarlier(b, a, t);
    }
  }

  lemma NotEarlier(a: seq<Sample>, b: seq<Sample>, t: int)
    requires forall s: Sample :: s in a ==> s in b
    requires LatestBy(a, t).Some?
    ensures LatestBy(b, t).Some? && LatestBy(a, t).value.time <= LatestBy(b, t).value.time
  {
    hide LatestBy;
    var i := LatestInForce(a, t);
    assert a[i] in b;
    var k :| 0 <= k < |b| && b[k] == a[i];
    NoneLatest(b, t);
    var j := LatestInForce(b, t);
  }

  // ---- The union of timestamps ---------------------------------------------------------------------

  ghost predicate HasSampleAt(reports: seq<Report>, t: int) {
    exists i, j :: 0 <= i < |reports| && 0 <= j < |reports[i].curve| && reports[i].curve[j].time == t
  }

  function TimesOf(curve: seq<Sample>): (times: set<int>)
    ensures forall t :: t in times <==> exists j :: 0 <= j < |curve| && curve[j].time == t
  {
    set s | s in curve :: s.time
  }

  function Instant(t: int): int {
    t
  }

  lemma Twice(xs: seq<int>, i: nat, j: nat)
    requires i < j < |xs| && xs[i] == xs[j]
    ensures multiset(xs)[xs[i]] >= 2
  {
    assert xs == xs[..i + 1] + xs[i + 1..];
    assert xs[j] in xs[i + 1..];
  }

  lemma SortedSetAscends(sorted: seq<int>, times: set<int>)
    requires Sorted(sorted, Instant) && multiset(sorted) == multiset(times)
    ensures Ascending(sorted) && forall t :: t in sorted <==> t in times
  {
    forall i, j | 0 <= i < j < |sorted| ensures sorted[i] < sorted[j] {
      assert Instant(sorted[i]) <= Instant(sorted[j]);
      if sorted[i] == sorted[j] {
        Twice(sorted, i, j);
      }
    }
    forall t ensures t in sorted <==> t in times {
      assert t in multiset(sorted) <==> t in multiset(times);
    }
  }

  /** A set of timestamps in ascending order. */
  method SortedSet(times: set<int>) returns (sorted: seq<int>)
    ensures Ascending(sorted)
    ensures forall t :: t in sorted <==> t in times
  {
    hide SortBy;
    var rest: set<int>, listed: seq<int> := times, [];
    while rest != {}
      invariant rest <= times
      invariant multiset(listed) == multiset(times - rest)
      decreases |rest|
    {
      ghost var member := SomeMember(rest);
      var t: int :| t in rest;
      assert times - (rest - {t}) == (times - rest) + {t};
      rest, listed := rest - {t}, listed + [t];
    }
    assert times - rest == times;
    sorted := SortBy(listed, Instant);
    SortByIsStableSort(listed, Instant, 0);
    SortedSetAscends(sorted, times);
  }

  method UnionOfTimes(reports: seq<Report>) returns (sorted: seq<int>)
    ensures Ascending(sorted)
    ensures forall t :: t in sorted <==> HasSampleAt(reports, t)
  {
    var timestamps := {};
    for i := 0 to |reports|
      invariant forall t :: t in timestamps <==> HasSampleAt(reports[..i], t)
    {
      timestamps := timestamps + TimesOf(reports[i].curve);
      forall t ensures t in timestamps <==> HasSampleAt(reports[..i + 1], t) {
        if HasSampleAt(reports[..i], t) {
          var k, j :| 0 <= k < i && 0 <= j < |reports[..i][k].curve| && reports[..i][k].curve[j].time == t;
          assert reports[..i + 1][k] == reports[..i][k];
        }
        if t in TimesOf(reports[i].curve) {
          assert reports[..i + 1][i] == reports[i];
        }
        if HasSampleAt(reports[..i + 1], t) {
          var k, j :| 0 <= k < i + 1 && 0 <= j < |reports[..i + 1][k].curve| && reports[..i + 1][k].curve[j].time == t;
          if k < i {
            assert reports[..i][k] == reports[..i + 1][k];
          }
        }
      }
    }
    assert reports[..|reports|] == reports;
    sorted := SortedSet(timestamps);
  }

  // ---- The pointer-advancing merge --------------------------------------------------------------------

  function SumOf(values: seq<real>): real {
    if values == [] then 0.0 else SumOf(values[..|values| - 1]) + values[|values| - 1]
  }

  /** The equity just before pointer `idx`. */
  function Before(r: Report, sorted: seq<Sample>, idx: nat): real
    requires idx <= |sorted|
  {
    if idx == 0 then r.initialBalance else sorted[idx - 1].equity
  }

  /** The pointer has passed exactly the samples at or before `t`. */
  ghost predicate PointerAt(sorted: seq<Sample>, idx: nat, t: int) {
    && idx <= |sorted|
    && (forall j :: 0 <= j < idx ==> sorted[j].time <= t)
    && forall j :: idx <= j < |sorted| ==> t < sorted[j].time
  }

  lemma InTimeOrder(sorted: seq<Sample>, curve: seq<Sample>)
    requires sorted == SortBy(curve, SampleTime)
    ensures forall i, j :: 0 <= i < j < |sorted| ==> sorted[i].time <= sorted[j].time
  {
    hide SortBy;
    SortByIsStableSort(curve, SampleTime, 0);
    forall i, j | 0 <= i < j < |sorted| ensures sorted[i].time <= sorted[j].time {
      assert SampleTime(sorted[i]) <= SampleTime(sorted[j]);
    }
  }

  lemma PointerIsValue(r: Report, sorted: seq<Sample>, idx: nat, t: int)
    requires sorted == SortBy(r.curve, SampleTime) && PointerAt(sorted, idx, t)
    ensures Before(r, sorted, idx) == ValueAt(r, t)
  {
    hide LatestBy, SortBy;
    SortKeepsLatest(r.curve, t);
    InTimeOrder(sorted, r.curve);
    if idx == 0 {
      NoneLatest(sorted, t);
    } else {
      assert InForce(sorted, idx - 1, t);
      InForceIsLatest(sorted, idx - 1, t);
    }
  }

  /** The innermost loop: it takes the pointer exactly past the samples at or before `t`. */
  method AdvancePointer(r: Report, sorted: seq<Sample>, from: nat, t: int) returns (idx: nat, last: real)
    requires sorted == SortBy(r.curve, SampleTime)
    requires from <= |sorted| && forall j :: 0 <= j < from ==> sorted[j].time <= t
    ensures PointerAt(sorted, idx, t) && last == Before(r, sorted, idx)
    ensures last == ValueAt(r, t)
  {
    hide SortBy, ValueAt;
    idx, last := from, Before(r, sorted, from);
    InTimeOrder(sorted, r.curve);
    while idx < |sorted| && sorted[idx].time <= t
      invariant idx <= |sorted| && last == Before(r, sorted, idx)
      invariant forall j :: 0 <= j < idx ==> sorted[j].time <= t
    {
      last := sorted[idx].equity;
      idx := idx + 1;
    }
    PointerIsValue(r, sorted, idx, t);
  }

  lemma {:induction false} SumOfValues(reports: seq<Report>, values: seq<real>, t: int)
    requires |values| == |reports| && forall i :: 0 <= i < |reports| ==> values[i] == ValueAt(reports[i], t)
    ensures SumOf(values) == Total(reports, t)
  {
    hide ValueAt;
    if reports != [] {
      SumOfValues(reports[..|reports| - 1], values[..|values| - 1], t);
    }
  }

  /** Every timestamp of the union once, in order, each with the sum of what the reports were worth then. */
  method MergeEquityCurves(reports: seq<Report>) returns (out: seq<Sample>)
    ensures forall i, j :: 0 <= i < j < |out| ==> out[i].time < out[j].time
    ensures forall t :: HasSampleAt(reports, t) <==> exists k :: 0 <= k < |out| && out[k].time == t
    ensures forall k :: 0 <= k < |out| ==> out[k].equity == Total(reports, out[k].time)
  {
    hide ValueAt, SortBy, HasSampleAt, SumOf, Total;
    var times := UnionOfTimes(reports);
    var sorted := seq(|reports|, i requires 0 <= i < |reports| => SortBy(reports[i].curve, SampleTime));
    var idx := seq(|reports|, i => 0);
    var last := seq(|reports|, i requires 0 <= i < |reports| => reports[i].initialBalance);
    out := [];
    for k := 0 to |times|
      invariant |out| == k && |idx| == |last| == |reports|
      invariant forall i :: 0 <= i < k ==> out[i].time == times[i] && out[i].equity == Total(reports, times[i])
      invariant forall i :: 0 <= i < |reports| ==> Pending(reports[i], sorted[i], idx[i], last[i], times[..k])
    {
      var t := times[k];
      for i := 0 to |reports|
        invariant |idx| == |last| == |reports|
        invariant forall m :: 0 <= m < i ==>
          PointerAt(sorted[m], idx[m], t) && last[m] == Before(reports[m], sorted[m], idx[m])
        invariant forall m :: 0 <= m < i ==> last[m] == ValueAt(reports[m], t)
        invariant forall m :: i <= m < |reports| ==> Pending(reports[m], sorted[m], idx[m], last[m], times[..k])
      {
        assert forall j :: 0 <= j < idx[i] ==> sorted[i][j].time <= t;
        var next, value := AdvancePointer(reports[i], sorted[i], idx[i], t);
        idx, last := idx[i := next], last[i := value];
      }
      SumOfValues(reports, last, t);
      out := out + [Sample(t, SumOf(last))];
      assert times[..k + 1][|times[..k + 1]| - 1] == t;
    }
    forall t ensures HasSampleAt(reports, t) <==> exists k :: 0 <= k < |out| && out[k].time == t {
      assert t in times <==> exists k :: 0 <= k < |out| && out[k].time == t;
    }
  }

  /** Between two timestamps a pointer has passed nothing later than the last of them. */
  ghost predicate Pending(r: Report, sorted: seq<Sample>, idx: nat, last: real, done: seq<int>) {
    && idx <= |sorted| && last == Before(r, sorted, idx)
    && (done == [] ==> idx == 0)
    && (done != [] ==> forall j :: 0 <= j < idx ==> sorted[j].time <= done[|done| - 1])
  }

  // ---- The dictionary-based forward fill ------------------------------------------------------------------

  /** The curve as a dictionary: of samples with one timestamp the last wins. */
  function CurveMap(curve: seq<Sample>): map<int, real> {
    if curve == [] then map[]
    else CurveMap(curve[..|curve| - 1])[curve[|curve| - 1].time := curve[|curve| - 1].equity]
  }

  lemma {:induction false} CurveMapIsLatest(curve: seq<Sample>, t: int)
    ensures t in CurveMap(curve) <==> LatestBy(curve, t).Some? && LatestBy(curve, t).value.time == t
    ensures t in CurveMap(curve) ==> CurveMap(curve)[t] == LatestBy(curve, t).value.equity
  {
    if curve != [] {
      var n := |curve| - 1;
      CurveMapIsLatest(curve[..n], t);
      if LatestBy(curve[..n], t).Some? {
        var i := LatestInForce(curve[..n], t);
      }
    }
  }

  /** With no sample in `(from, t]` the value does not change. */
  lemma {:induction false} NothingNew(curve: seq<Sample>, from: int, t: int)
    requires from <= t && forall j :: 0 <= j < |curve| ==> !(from < curve[j].time <= t)
    ensures LatestBy(curve, t) == LatestBy(curve, from)
  {
    if curve != [] {
      NothingNew(curve[..|curve| - 1], from, t);
    }
  }

  /** The forward fill: at each timestamp the dictionary's entry, or else the value before. */
  function Filled(r: Report, times: seq<int>): (filled: seq<real>)
    ensures |filled| == |times|
  {
    if times == [] then []
    else
      var n := |times| - 1;
      var earlier := Filled(r, times[..n]);
      var last := if earlier == [] then r.initialBalance else earlier[n - 1];
      earlier + [if times[n] in CurveMap(r.curve) then CurveMap(r.curve)[times[n]] else last]
  }

  method ForwardFill(r: Report, times: seq<int>) returns (filled: seq<real>)
    ensures filled == Filled(r, times)
  {
    hide CurveMap;
    var curveMap := CurveMap(r.curve);
    var last := r.initialBalance;
    filled := [];
    for k := 0 to |times|
      invariant filled == Filled(r, times[..k])
      invariant last == if filled == [] then r.initialBalance else filled[|filled| - 1]
    {
      assert times[..k + 1][..k] == times[..k];
      if times[k] in curveMap {
        last := curveMap[times[k]];
      }
      filled := filled + [last];
    }
    assert times[..|times|] == times;
  }

  /** Every sample of the curve falls on one of the timestamps, up to the last of them. */
  ghost predicate Covers(times: seq<int>, curve: seq<Sample>) {
    forall j :: 0 <= j < |curve| ==> curve[j].time in times || (times != [] && times[|times| - 1] < curve[j].time)
  }

  /** The dictionary form is the value in force, for curves in any order. */
  lemma {:induction false} FilledIsValue(r: Report, times: seq<int>, k: nat)
    requires k < |times| && Ascending(times) && Covers(times, r.curve)
    ensures Filled(r, times)[k] == ValueAt(r, times[k])
  {
    hide LatestBy, CurveMap;
    var n := |times| - 1;
    var earlier, t := times[..n], times[n];
    CurveMapIsLatest(r.curve, t);
    if n == 0 {
      if t !in CurveMap(r.curve) && LatestBy(r.curve, t).Some? {
        var i := LatestInForce(r.curve, t);
      }
    } else {
      if k < n {
        FilledIsValue(r, earlier, k);
      } else {
        FilledIsValue(r, earlier, n - 1);
        if t !in CurveMap(r.curve) {
          NotSampled(r.curve, t);
          forall j | 0 <= j < |r.curve| ensures !(times[n - 1] < r.curve[j].time <= t) {
            if r.curve[j].time in times {
              InEarlierOrLast(times, r.curve[j].time);
            }
          }
          NothingNew(r.curve, times[n - 1], t);
        }
      }
    }
  }

  lemma NotSampled(curve: seq<Sample>, t: int)
    requires t !in CurveMap(curve)
    ensures forall j :: 0 <= j < |curve| ==> curve[j].time != t
  {
    hide LatestBy, CurveMap;
    CurveMapIsLatest(curve, t);
    NoneLatest(curve, t);
    if LatestBy(curve, t).Some? {
      var i := LatestInForce(curve, t);
    }
  }

  lemma InEarlierOrLast(times: seq<int>, t: int)
    requires |times| > 1 && Ascending(times) && t in times
    ensures t <= times[|times| - 2] || t == times[|times| - 1]
  {
  }

  function Column(rows: seq<seq<real>>, k: nat, width: nat): (column: seq<real>)
    requires k < width && forall i :: 0 <= i < |rows| ==> |rows[i]| == width
    ensures |column| == |rows| && forall i :: 0 <= i < |rows| ==> column[i] == rows[i][k]
  {
    seq(|rows|, i requires 0 <= i < |rows| => rows[i][k])
  }

  function FilledAll(reports: seq<Report>, times: seq<int>): (rows: seq<seq<real>>)
    ensures |rows| == |reports| && forall i :: 0 <= i < |rows| ==> rows[i] == Filled(reports[i], times)
  {
    seq(|reports|, i requires 0 <= i < |reports| => Filled(reports[i], times))
  }

  /** The two forms agree: at every timestamp of the union, what the merged curve holds is the sum of
      the forward-filled series. */
  lemma MergedIsSumOfFilled(reports: seq<Report>, merged: seq<Sample>, times: seq<int>, k: nat)
    requires Ascending(times) && (forall t :: HasSampleAt(reports, t) <==> t in times)
    requires |merged| == |times| && k < |times| && merged[k] == Sample(times[k], Total(reports, times[k]))
    ensures merged[k].equity == SumOf(Column(FilledAll(reports, times), k, |times|))
  {
    hide ValueAt, SumOf, Total, Filled;
    forall i | 0 <= i < |reports| ensures Filled(reports[i], times)[k] == ValueAt(reports[i], times[k]) {
      forall j | 0 <= j < |reports[i].curve| ensures reports[i].curve[j].time in times {
        assert HasSampleAt(reports, reports[i].curve[j].time);
      }
      FilledIsValue(reports[i], times, k);
    }
    SumOfValues(reports, Column(FilledAll(reports, times), k, |times|), times[k]);
  }

  // ---- The aggregate ---------------------------------------------------------------------------------------

  function TotalInitial(reports: seq<Report>): real {
    if reports == [] then 0.0
    else TotalInitial(reports[..|reports| - 1]) + reports[|reports| - 1].initialBalance
  }

  lemma {:induction false} TotalSettles(reports: seq<Report>, t: int, later: int)
    requires t <= later
    requires forall i, j :: 0 <= i < |reports| && 0 <= j < |reports[i].curve| ==> reports[i].curve[j].time <= t
    ensures Total(reports, later) == Total(reports, t)
  {
    if reports != [] {
      TotalSettles(reports[..|reports| - 1], t, later);
      NothingNew(reports[|reports| - 1].curve, t, later);
    }
  }

  lemma {:induction false} TotalOfNone(reports: seq<Report>, t: int)
    requires forall i :: 0 <= i < |reports| ==> reports[i].curve == []
    ensures Total(reports, t) == TotalInitial(reports)
  {
    if reports != [] {
      TotalOfNone(reports[..|reports| - 1], t);
    }
  }

  /** The combined final balance is what all the reports were last worth together; None stands for the error raised
      when there is no report. */
  method AggregateFinalBalance(reports: seq<Report>, horizon: int) returns (result: Option<real>)
    requires forall t :: HasSampleAt(reports, t) ==> t <= horizon
    ensures result == if reports == [] then None else Some(Total(reports, horizon))
  {
    hide Total, HasSampleAt;
    if reports == [] {
      return None;
    }
    var finalBalance: real;
    var combined := MergeEquityCurves(reports);
    if combined != [] {
      finalBalance := combined[|combined| - 1].equity;
      var last := combined[|combined| - 1].time;
      forall i, j | 0 <= i < |reports| && 0 <= j < |reports[i].curve| ensures reports[i].curve[j].time <= last {
        SampledAt(reports, i, j);
      }
      assert HasSampleAt(reports, last);
      TotalSettles(reports, last, horizon);
    } else {
      finalBalance := TotalInitial(reports);
      forall i | 0 <= i < |reports| ensures reports[i].curve == [] {
        if reports[i].curve != [] {
          SampledAt(reports, i, 0);
        }
      }
      TotalOfNone(reports, horizon);
    }
    return Some(finalBalance);
  }

  lemma SampledAt(reports: seq<Report>, i: nat, j: nat)
    requires i < |reports| && j < |reports[i].curve|
    ensures HasSampleAt(reports, reports[i].curve[j].time)
  {
  }
}
