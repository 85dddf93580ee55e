/** Day-chunked tick replay against one merge of the whole range, and the closing step of a backtest. */
module FileBacktester {
  import opened Domain
  import opened UtcTime
  import opened Sorting
  import opened SimBroker
  import opened BrokerRuns

  // ---- Reading and merging ----------------------------------------------------------

  ghost predicate InOrder(ticks: seq<Moment>) {
    forall i, j :: 0 <= i < j < |ticks| ==> ticks[i].Time() <= ticks[j].Time()
  }

  function MomentTime(m: Moment): int {
    m.Time()
  }

  /** The stored ticks in `[start, stop)`, as stored. */
  function InRange(stored: seq<Moment>, start: int, stop: int): seq<Moment> {
    if stored == [] then []
    else if start <= stored[0].Time() < stop then [stored[0]] + InRange(stored[1..], start, stop)
    else InRange(stored[1..], start, stop)
  }

  function RangeAll(store: seq<seq<Moment>>, start: int, stop: int): (streams: seq<seq<Moment>>)
    ensures |streams| == |store|
    ensures forall i :: 0 <= i < |store| ==> streams[i] == InRange(store[i], start, stop)
  {
    if store == [] then [] else [InRange(store[0], start, stop)] + RangeAll(store[1..], start, stop)
  }

  /** One symbol's range read: the rows in `[start, stop)`, sorted by time, equal times as stored. */
  function ReadRange(stored: seq<Moment>, start: int, stop: int): seq<Moment> {
    SortBy(InRange(stored, start, stop), MomentTime)
  }

  function ReadAll(store: seq<seq<Moment>>, start: int, stop: int): (streams: seq<seq<Moment>>)
    ensures |streams| == |store|
    ensures forall i :: 0 <= i < |store| ==> streams[i] == ReadRange(store[i], start, stop)
  {
    if store == [] then [] else [ReadRange(store[0], start, stop)] + ReadAll(store[1..], start, stop)
  }

  function TotalLength(streams: seq<seq<Moment>>): nat {
    if streams == [] then 0 else |streams[0]| + TotalLength(streams[1..])
  }

  /** Stream `m` has the earliest head; among equal times the first stream wins. */
  predicate IsFirst(streams: seq<seq<Moment>>, m: nat) {
    && m < |streams| && streams[m] != []
    && forall i :: 0 <= i < |streams| && streams[i] != [] ==>
         if i < m then streams[m][0].Time() < streams[i][0].Time() else streams[m][0].Time() <= streams[i][0].Time()
  }

  /** The first of the leading `n` streams, if any of them has a tick. */
  function FirstOf(streams: seq<seq<Moment>>, n: nat): (m: Option<nat>)
    requires n <= |streams|
    ensures m.None? <==> forall i :: 0 <= i < n ==> streams[i] == []
    ensures m.Some? ==> IsFirst(streams[..n], m.value)
  {
    if n == 0 then None
    else
      var before := FirstOf(streams, n - 1);
      assert streams[..n - 1] == streams[..n][..n - 1];
      if streams[n - 1] == [] then before
      else if before.None? || streams[n - 1][0].Time() < streams[before.value][0].Time() then Some(n - 1)
      else before
  }

  function Pop(streams: seq<seq<Moment>>, m: nat): (rest: seq<seq<Moment>>)
    requires m < |streams| && streams[m] != []
    ensures TotalLength(rest) < TotalLength(streams)
  {
    PopShortens(streams, m);
    streams[m := streams[m][1..]]
  }

  lemma {:induction false} PopShortens(streams: seq<seq<Moment>>, m: nat)
    requires m < |streams| && streams[m] != []
    ensures TotalLength(streams[m := streams[m][1..]]) == TotalLength(streams) - 1
  {
    var rest := streams[m := streams[m][1..]];
    if m > 0 {
      PopShortens(streams[1..], m - 1);
      assert rest[1..] == streams[1..][m - 1 := streams[m][1..]];
    } else {
      assert rest[1..] == streams[1..];
    }
  }

  /** The stable merge of time-ordered streams. */
  function Merge(streams: seq<seq<Moment>>): seq<Moment>
    decreases TotalLength(streams)
  {
    var m := FirstOf(streams, |streams|);
    if m.None? then []
    else
      assert streams[..|streams|] == streams;
      [streams[m.value][0]] + Merge(Pop(streams, m.value))
  }

  // ---- Splitting a merge at an instant --------------------------------------------------

  lemma FirstIsUnique(streams: seq<seq<Moment>>, m: nat)
    requires IsFirst(streams, m)
    ensures FirstOf(streams, |streams|) == Some(m)
  {
    hide FirstOf;
    var first := FirstOf(streams, |streams|);
    assert streams[..|streams|] == streams;
    assert first.Some?;
    var n := first.value;
    assert streams[m] != [] && streams[n] != [];
    assert !(m < n) && !(n < m);
  }

  lemma {:induction false} ReadOrdered(stored: seq<Moment>, start: int, stop: int)
    requires InOrder(stored)
    ensures InOrder(InRange(stored, start, stop))
    ensures forall t: Moment :: t in InRange(stored, start, stop) <==> t in stored && start <= t.Time() < stop
  {
    if stored != [] {
      var rest := stored[1..];
      assert stored == [stored[0]] + rest;
      ReadOrdered(rest, start, stop);
      assert forall t: Moment :: t in rest ==> stored[0].Time() <= t.Time();
    }
  }

  ghost predicate AllInOrder(streams: seq<seq<Moment>>) {
    forall i :: 0 <= i < |streams| ==> InOrder(streams[i])
  }

  lemma HeadIsEarliest(ticks: seq<Moment>, t: Moment)
    requires InOrder(ticks) && t in ticks
    ensures ticks[0].Time() <= t.Time()
  {
  }

  lemma {:induction false} ReadAllOf(stored: seq<Moment>, start: int, stop: int)
    requires forall t: Moment :: t in stored ==> start <= t.Time() < stop
    ensures InRange(stored, start, stop) == stored
  {
    if stored != [] {
      assert stored[0] in stored && forall t: Moment :: t in stored[1..] ==> t in stored;
      ReadAllOf(stored[1..], start, stop);
    }
  }

  lemma {:induction false} ReadNoneOf(stored: seq<Moment>, start: int, stop: int)
    requires forall t: Moment :: t in stored ==> !(start <= t.Time() < stop)
    ensures InRange(stored, start, stop) == []
  {
    if stored != [] {
      assert stored[0] in stored && forall t: Moment :: t in stored[1..] ==> t in stored;
      ReadNoneOf(stored[1..], start, stop);
    }
  }

  ghost predicate Within(streams: seq<seq<Moment>>, lo: int, hi: int) {
    forall i: int, t: Moment :: 0 <= i < |streams| && t in streams[i] ==> lo <= t.Time() < hi
  }

  /** The overall first tick, when before the cut, is also the first of the part before the cut. */
  lemma FirstBefore(streams: seq<seq<Moment>>, m: nat, lo: int, cut: int, hi: int)
    requires AllInOrder(streams) && Within(streams, lo, hi) && IsFirst(streams, m) && streams[m][0].Time() < cut <= hi
    ensures
      var early := RangeAll(streams, lo, cut);
      IsFirst(early, m) && early[m] == [streams[m][0]] + InRange(streams[m][1..], lo, cut)
  {
    var early: seq<seq<Moment>> := RangeAll(streams, lo, cut);
    assert streams[m][0] in streams[m];
    assert early[m] == [streams[m][0]] + InRange(streams[m][1..], lo, cut);
    forall i: int | 0 <= i < |streams| && early[i] != []
      ensures streams[i] != [] && early[i][0].Time() >= streams[i][0].Time()
    {
      ReadOrdered(streams[i], lo, cut);
      assert early[i][0] in early[i];
      HeadIsEarliest(streams[i], early[i][0]);
    }
  }

  /** Popping the overall first tick pops it from the part before the cut. */
  lemma PopBefore(streams: seq<seq<Moment>>, m: nat, lo: int, cut: int, hi: int)
    requires AllInOrder(streams) && Within(streams, lo, hi) && IsFirst(streams, m) && streams[m][0].Time() < cut <= hi
    ensures
      var early, late := RangeAll(streams, lo, cut), RangeAll(streams, cut, hi);
      var rest := Pop(streams, m);
      && IsFirst(early, m) && early[m][0] == streams[m][0]
      && Pop(early, m) == RangeAll(rest, lo, cut) && late == RangeAll(rest, cut, hi)
  {
    FirstBefore(streams, m, lo, cut, hi);
    hide AllInOrder, IsFirst, RangeAll, Within;
    var early: seq<seq<Moment>> := RangeAll(streams, lo, cut);
    var late: seq<seq<Moment>> := RangeAll(streams, cut, hi);
    var rest: seq<seq<Moment>> := Pop(streams, m);
    assert early[m][1..] == InRange(streams[m][1..], lo, cut);
    assert Pop(early, m) == RangeAll(rest, lo, cut);
    assert late[m] == InRange(streams[m], cut, hi) == InRange(streams[m][1..], cut, hi);
    assert late == RangeAll(rest, cut, hi);
  }

  lemma RestInOrder(streams: seq<seq<Moment>>, m: nat, lo: int, hi: int)
    requires AllInOrder(streams) && Within(streams, lo, hi) && m < |streams| && streams[m] != []
    ensures AllInOrder(Pop(streams, m)) && Within(Pop(streams, m), lo, hi)
  {
    assert forall t: Moment :: t in streams[m][1..] ==> t in streams[m];
  }

  ghost predicate AllEmpty(streams: seq<seq<Moment>>) {
    forall i :: 0 <= i < |streams| ==> streams[i] == []
  }

  lemma MergeOfEmpty(streams: seq<seq<Moment>>)
    requires AllEmpty(streams)
    ensures Merge(streams) == []
  {
  }

  lemma MergeStep(streams: seq<seq<Moment>>, m: nat)
    requires IsFirst(streams, m)
    ensures Merge(streams) == [streams[m][0]] + Merge(Pop(streams, m))
  {
    hide FirstOf, Pop;
    FirstIsUnique(streams, m);
  }

  lemma EmptyOrFirst(streams: seq<seq<Moment>>) returns (m: nat)
    ensures AllEmpty(streams) || IsFirst(streams, m)
  {
    hide FirstOf;
    var first := FirstOf(streams, |streams|);
    assert streams[..|streams|] == streams;
    m := if first.Some? then first.value else 0;
  }

  /** Merging a range is merging what comes before a cut, then what comes from it on, ties included. */
  lemma {:induction false} MergeSplits(streams: seq<seq<Moment>>, lo: int, cut: int, hi: int)
    requires AllInOrder(streams) && Within(streams, lo, hi) && lo <= cut <= hi
    ensures Merge(streams) == Merge(RangeAll(streams, lo, cut)) + Merge(RangeAll(streams, cut, hi))
    decreases TotalLength(streams)
  {
    hide Merge, Pop, RangeAll, Within, AllInOrder, AllEmpty;
    var m := EmptyOrFirst(streams);
    var early: seq<seq<Moment>> := RangeAll(streams, lo, cut);
    var late: seq<seq<Moment>> := RangeAll(streams, cut, hi);
    if AllEmpty(streams) {
      ReadOfEmpty(streams, lo, cut);
      ReadOfEmpty(streams, cut, hi);
      MergeOfEmpty(streams);
    } else if streams[m][0].Time() < cut {
      PopBefore(streams, m, lo, cut, hi);
      RestInOrder(streams, m, lo, hi);
      MergeStep(streams, m);
      MergeStep(early, m);
      var rest: seq<seq<Moment>> := Pop(streams, m);
      MergeSplits(rest, lo, cut, hi);
      assert Merge(early) == [streams[m][0]] + Merge(RangeAll(rest, lo, cut));
    } else {
      AllLate(streams, m, lo, cut, hi);
      MergeOfEmpty(early);
    }
  }

  lemma ReadOfEmpty(streams: seq<seq<Moment>>, lo: int, hi: int)
    requires AllEmpty(streams)
    ensures RangeAll(streams, lo, hi) == streams
  {
  }

  lemma AllLate(streams: seq<seq<Moment>>, m: nat, lo: int, cut: int, hi: int)
    requires AllInOrder(streams) && Within(streams, lo, hi) && IsFirst(streams, m) && cut <= streams[m][0].Time()
    ensures RangeAll(streams, cut, hi) == streams
    ensures AllEmpty(RangeAll(streams, lo, cut))
  {
    forall i: int | 0 <= i < |streams|
      ensures InRange(streams[i], cut, hi) == streams[i] && InRange(streams[i], lo, cut) == []
    {
      forall t: Moment | t in streams[i] ensures cut <= t.Time() < hi {
        HeadIsEarliest(streams[i], t);
      }
      ReadAllOf(streams[i], cut, hi);
      ReadNoneOf(streams[i], lo, cut);
    }
  }

  lemma {:induction false} ReadOfRead(stored: seq<Moment>, lo: int, hi: int, start: int, stop: int)
    requires lo <= start && stop <= hi
    ensures InRange(InRange(stored, lo, hi), start, stop) == InRange(stored, start, stop)
  {
    if stored != [] {
      ReadOfRead(stored[1..], lo, hi, start, stop);
    }
  }

  lemma {:induction false} RangeOfInsert(x: Moment, ticks: seq<Moment>, start: int, stop: int)
    requires Sorted(ticks, MomentTime)
    ensures InRange(Insert(x, ticks, MomentTime), start, stop)
         == if start <= x.Time() < stop then Insert(x, InRange(ticks, start, stop), MomentTime)
            else InRange(ticks, start, stop)
  {
    if ticks == [] || x.Time() <= ticks[0].Time() {
      assert InOrder(ticks);
      ReadOrdered(ticks, start, stop);
      var kept := InRange(ticks, start, stop);
      assert ([x] + ticks)[1..] == ticks;
      if kept != [] {
        assert kept[0] in kept;
      }
    } else {
      RangeOfInsert(x, ticks[1..], start, stop);
      var inserted := Insert(x, ticks[1..], MomentTime);
      assert ([ticks[0]] + inserted)[1..] == inserted;
      var kept := InRange(ticks[1..], start, stop);
      assert ([ticks[0]] + kept)[1..] == kept;
      if !(start <= ticks[0].Time()) && start <= x.Time() < stop {
      } else if start <= x.Time() < stop {
        assert start <= ticks[0].Time() < stop;
      }
    }
  }

  /** Sorting a range of the rows is taking that range of the sorted rows. */
  lemma {:induction false} ReadIsRangeOfSorted(stored: seq<Moment>, start: int, stop: int)
    ensures ReadRange(stored, start, stop) == InRange(SortBy(stored, MomentTime), start, stop)
  {
    if stored != [] {
      ReadIsRangeOfSorted(stored[1..], start, stop);
      SortByIsStableSort(stored[1..], MomentTime, 0);
      RangeOfInsert(stored[0], SortBy(stored[1..], MomentTime), start, stop);
      var rest := InRange(stored[1..], start, stop);
      assert ([stored[0]] + rest)[1..] == rest;
    }
  }

  function SortAll(store: seq<seq<Moment>>): (sorted: seq<seq<Moment>>)
    ensures |sorted| == |store|
    ensures forall i :: 0 <= i < |store| ==> sorted[i] == SortBy(store[i], MomentTime)
  {
    if store == [] then [] else [SortBy(store[0], MomentTime)] + SortAll(store[1..])
  }

  lemma ReadAllIsRangeOfSorted(store: seq<seq<Moment>>, start: int, stop: int)
    ensures ReadAll(store, start, stop) == RangeAll(SortAll(store), start, stop)
    ensures AllInOrder(SortAll(store))
  {
    var sorted := SortAll(store);
    forall i: int | 0 <= i < |store|
      ensures ReadRange(store[i], start, stop) == InRange(sorted[i], start, stop) && InOrder(sorted[i])
    {
      ReadIsRangeOfSorted(store[i], start, stop);
      SortByIsStableSort(store[i], MomentTime, 0);
    }
  }

  /** One more chunk extends the replay of the earlier chunks to the replay of the longer range. */
  lemma ChunkExtends(store: seq<seq<Moment>>, start: int, cursor: int, chunkEnd: int)
    requires start <= cursor <= chunkEnd
    ensures Merge(ReadAll(store, start, chunkEnd))
         == Merge(ReadAll(store, start, cursor)) + Merge(ReadAll(store, cursor, chunkEnd))
  {
    hide Merge, ReadAll, RangeAll, SortAll, AllInOrder, Within;
    var sorted := SortAll(store);
    ReadAllIsRangeOfSorted(store, start, chunkEnd);
    ReadAllIsRangeOfSorted(store, start, cursor);
    ReadAllIsRangeOfSorted(store, cursor, chunkEnd);
    var whole: seq<seq<Moment>> := RangeAll(sorted, start, chunkEnd);
    RangeAllInOrder(sorted, start, chunkEnd);
    RangeOfRange(sorted, start, chunkEnd, start, cursor);
    RangeOfRange(sorted, start, chunkEnd, cursor, chunkEnd);
    MergeSplits(whole, start, cursor, chunkEnd);
  }

  lemma RangeOfRange(streams: seq<seq<Moment>>, lo: int, hi: int, start: int, stop: int)
    requires lo <= start && stop <= hi
    ensures RangeAll(RangeAll(streams, lo, hi), start, stop) == RangeAll(streams, start, stop)
  {
    forall i: int | 0 <= i < |streams|
      ensures InRange(InRange(streams[i], lo, hi), start, stop) == InRange(streams[i], start, stop)
    {
      ReadOfRead(streams[i], lo, hi, start, stop);
    }
  }

  /** A merge is in time order and stays within the range read. */
  lemma {:induction false} MergeInOrder(streams: seq<seq<Moment>>, lo: int, hi: int)
    requires AllInOrder(streams) && Within(streams, lo, hi)
    ensures InOrder(Merge(streams)) && forall t: Moment :: t in Merge(streams) ==> lo <= t.Time() < hi
    decreases TotalLength(streams)
  {
    hide FirstOf, Pop;
    var first := FirstOf(streams, |streams|);
    if first.Some? {
      var m := first.value;
      assert streams[..|streams|] == streams;
      var head := streams[m][0];
      assert head in streams[m];
      RestInOrder(streams, m, lo, hi);
      PopIsLater(streams, m, hi);
      MergeInOrder(Pop(streams, m), head.Time(), hi);
    }
  }

  lemma PopIsLater(streams: seq<seq<Moment>>, m: nat, hi: int)
    requires AllInOrder(streams) && IsFirst(streams, m)
    requires forall i: int, t: Moment :: 0 <= i < |streams| && t in streams[i] ==> t.Time() < hi
    ensures Within(Pop(streams, m), streams[m][0].Time(), hi)
  {
    var rest := Pop(streams, m);
    forall i: int, t: Moment | 0 <= i < |rest| && t in rest[i] ensures streams[m][0].Time() <= t.Time() < hi {
      assert t in streams[i];
      HeadIsEarliest(streams[i], t);
    }
  }

  lemma RangeAllInOrder(store: seq<seq<Moment>>, start: int, stop: int)
    requires AllInOrder(store)
    ensures AllInOrder(RangeAll(store, start, stop)) && Within(RangeAll(store, start, stop), start, stop)
  {
    forall i: int | 0 <= i < |store|
      ensures InOrder(InRange(store[i], start, stop))
        && forall t: Moment :: t in InRange(store[i], start, stop) ==> start <= t.Time() < stop
    {
      ReadOrdered(store[i], start, stop);
    }
  }

  // ---- A merge is the stable sort of everything, streams in their order ----------------------

  function Concat(streams: seq<seq<Moment>>): seq<Moment> {
    if streams == [] then [] else streams[0] + Concat(streams[1..])
  }

  lemma {:induction false} ConcatSplits(streams: seq<seq<Moment>>, m: nat)
    requires m < |streams|
    ensures Concat(streams) == Concat(streams[..m]) + streams[m] + Concat(streams[m + 1..])
  {
    if m == 0 {
    } else {
      ConcatSplits(streams[1..], m - 1);
      assert streams[1..][..m - 1] == streams[..m][1..];
      assert streams[1..][m..] == streams[m + 1..];
    }
  }

  lemma {:induction false} InConcat(streams: seq<seq<Moment>>, t: Moment)
    requires t in Concat(streams)
    ensures exists i :: 0 <= i < |streams| && t in streams[i]
  {
    if t in streams[0] {
    } else {
      InConcat(streams[1..], t);
      var i :| 0 <= i < |streams[1..]| && t in streams[1..][i];
      assert t in streams[i + 1];
    }
  }

  lemma {:induction false} EarliestSortsFirst(before: seq<Moment>, head: Moment, after: seq<Moment>)
    requires forall t: Moment :: t in before ==> head.Time() < t.Time()
    requires forall t: Moment :: t in after ==> head.Time() <= t.Time()
    ensures SortBy(before + [head] + after, MomentTime) == [head] + SortBy(before + after, MomentTime)
  {
    hide SortBy, Insert, Moment.Time;
    if before == [] {
      assert before + [head] + after == [head] + after && before + after == after;
      var sorted: seq<Moment> := SortBy(after, MomentTime);
      SortOfCons(head, after);
      if sorted != [] {
        InSortBy(after, MomentTime, sorted[0]);
      }
      InsertFirst(head, sorted);
    } else {
      var x, fewer := before[0], before[1..];
      EarliestSortsFirst(fewer, head, after);
      SortOfCons(x, fewer + [head] + after);
      SortOfCons(x, fewer + after);
      assert before + [head] + after == [x] + (fewer + [head] + after);
      assert before + after == [x] + (fewer + after);
      InsertAfterHead(x, head, SortBy(fewer + after, MomentTime));
    }
  }

  lemma SortOfCons(x: Moment, ticks: seq<Moment>)
    ensures SortBy([x] + ticks, MomentTime) == Insert(x, SortBy(ticks, MomentTime), MomentTime)
  {
    assert ([x] + ticks)[1..] == ticks;
  }

  lemma InsertFirst(x: Moment, ticks: seq<Moment>)
    requires ticks != [] ==> x.Time() <= ticks[0].Time()
    ensures Insert(x, ticks, MomentTime) == [x] + ticks
  {
  }

  lemma InsertAfterHead(x: Moment, head: Moment, ticks: seq<Moment>)
    requires head.Time() < x.Time()
    ensures Insert(x, [head] + ticks, MomentTime) == [head] + Insert(x, ticks, MomentTime)
  {
    assert ([head] + ticks)[1..] == ticks;
  }

  lemma {:induction false} ConcatOfEmpty(streams: seq<seq<Moment>>)
    requires AllEmpty(streams)
    ensures Concat(streams) == []
  {
    if streams != [] {
      ConcatOfEmpty(streams[1..]);
    }
  }

  /** The merged replay is the stable sort by time of all symbols' ticks, symbols in their order. */
  lemma {:induction false} MergeIsStableSort(streams: seq<seq<Moment>>)
    requires AllInOrder(streams)
    ensures Merge(streams) == SortBy(Concat(streams), MomentTime)
    decreases TotalLength(streams)
  {
    hide Merge, Insert, AllEmpty;
    var m := EmptyOrFirst(streams);
    if AllEmpty(streams) {
      MergeOfEmpty(streams);
      ConcatOfEmpty(streams);
    } else {
      MergeStep(streams, m);
      FirstSortsFirst(streams, m);
      var rest: seq<seq<Moment>> := Pop(streams, m);
      assert AllInOrder(rest);
      MergeIsStableSort(rest);
    }
  }

  lemma FirstSortsFirst(streams: seq<seq<Moment>>, m: nat)
    requires AllInOrder(streams) && IsFirst(streams, m)
    ensures SortBy(Concat(streams), MomentTime) == [streams[m][0]] + SortBy(Concat(Pop(streams, m)), MomentTime)
  {
    hide SortBy, Concat;
    var head := streams[m][0];
    var before, after := Concat(streams[..m]), streams[m][1..] + Concat(streams[m + 1..]);
    ConcatSplits(streams, m);
    ConcatSplits(Pop(streams, m), m);
    assert Pop(streams, m)[..m] == streams[..m] && Pop(streams, m)[m + 1..] == streams[m + 1..];
    assert Concat(streams) == before + [head] + after;
    assert Concat(Pop(streams, m)) == before + after;
    forall t: Moment | t in before ensures head.Time() < t.Time() {
      InConcat(streams[..m], t);
      var i :| 0 <= i < m && t in streams[..m][i];
      HeadIsEarliest(streams[i], t);
    }
    forall t: Moment | t in after ensures head.Time() <= t.Time() {
      if t in streams[m][1..] {
        assert t in streams[m];
        HeadIsEarliest(streams[m], t);
      } else {
        InConcat(streams[m + 1..], t);
        var i :| 0 <= i < |streams[m + 1..]| && t in streams[m + 1..][i];
        HeadIsEarliest(streams[m + 1 + i], t);
      }
    }
    EarliestSortsFirst(before, head, after);
  }

  /** What one range read feeds the loop: in time order and within the range. */
  lemma ChunkInOrder(store: seq<seq<Moment>>, start: int, stop: int)
    ensures InOrder(Merge(ReadAll(store, start, stop)))
    ensures forall t: Moment :: t in Merge(ReadAll(store, start, stop)) ==> start <= t.Time() < stop
  {
    hide Merge, ReadAll, RangeAll, SortAll;
    ReadAllIsRangeOfSorted(store, start, stop);
    RangeAllInOrder(SortAll(store), start, stop);
    MergeInOrder(RangeAll(SortAll(store), start, stop), start, stop);
  }

  lemma ReadIsStableSort(store: seq<seq<Moment>>, start: int, stop: int)
    ensures Merge(ReadAll(store, start, stop)) == SortBy(Concat(ReadAll(store, start, stop)), MomentTime)
  {
    hide Merge, ReadAll, RangeAll, SortAll, SortBy, Concat;
    ReadAllIsRangeOfSorted(store, start, stop);
    RangeAllInOrder(SortAll(store), start, stop);
    MergeIsStableSort(ReadAll(store, start, stop));
  }

  lemma EmptyRange(store: seq<seq<Moment>>, start: int, stop: int)
    requires stop <= start
    ensures Merge(ReadAll(store, start, stop)) == []
  {
    hide Merge;
    forall i: int | 0 <= i < |store| ensures ReadRange(store[i], start, stop) == [] {
      ReadNoneOf(store[i], start, stop);
    }
    MergeOfEmpty(ReadAll(store, start, stop));
  }

  // ---- The replay loop ------------------------------------------------------------------

  class SimClock {
    var now: int

    constructor (start: int)
      ensures now == start
    {
      now := start;
    }

    /** False stands for the error raised when the clock would run backwards. */
    method Advance(to: int) returns (ok: bool)
      modifies this
      ensures ok <==> old(now) <= to
      ensures now == if ok then to else old(now)
    {
      if to < now {
        return false;
      }
      now := to;
      return true;
    }
  }

  /** Where the clock stands after the ticks. */
  function ClockAfter(start: int, visited: seq<Moment>): int {
    if visited == [] then start else visited[|visited| - 1].Time()
  }

  /** The inner loop over one chunk's merged ticks. */
  method VisitChunk(merged: seq<Moment>, before: seq<Moment>, clock: SimClock)
    returns (visited: seq<Moment>, rejected: bool)
    requires InOrder(merged) && (merged != [] ==> clock.now <= merged[0].Time())
    modifies clock
    ensures visited == before + merged && !rejected
    ensures clock.now == ClockAfter(old(clock.now), merged)
  {
    visited, rejected := before, false;
    for i := 0 to |merged|
      invariant visited == before + merged[..i] && !rejected
      invariant clock.now == ClockAfter(old(clock.now), merged[..i])
    {
      var ok := clock.Advance(merged[i].Time());
      rejected := rejected || !ok;
      visited := visited + [merged[i]];
      assert merged[..i + 1] == merged[..i] + [merged[i]];
    }
    assert merged[..|merged|] == merged;
  }

  /** Replays day by day. The chunks visit exactly the merge of the whole range, in time order,
      and the clock accepts every tick. */
  method ReplayTicks(store: seq<seq<Moment>>, start: int, end: int, clock: SimClock)
    returns (visited: seq<Moment>, rejected: bool)
    requires clock.now <= start
    modifies clock
    ensures visited == Merge(ReadAll(store, start, end))
    ensures visited == SortBy(Concat(ReadAll(store, start, end)), MomentTime)
    ensures InOrder(visited) && forall t: Moment :: t in visited ==> start <= t.Time() < end
    ensures !rejected
    ensures clock.now == ClockAfter(old(clock.now), visited)
  {
    hide Merge, ReadAll, SortBy, Concat;
    visited, rejected := [], false;
    var cursor := start;
    EmptyRange(store, start, start);
    while cursor < end
      invariant start <= cursor && (cursor <= end || cursor == start)
      invariant visited == Merge(ReadAll(store, start, cursor))
      invariant clock.now <= cursor && !rejected
      invariant clock.now == ClockAfter(old(clock.now), visited)
      decreases end - cursor
    {
      var nextMidnight := Midnight(cursor) + DAY;
      var chunkEnd := if nextMidnight <= end then nextMidnight else end;
      assert cursor < chunkEnd;
      var merged := Merge(ReadAll(store, cursor, chunkEnd));
      ChunkInOrder(store, cursor, chunkEnd);
      ChunkExtends(store, start, cursor, chunkEnd);
      assert merged != [] ==> merged[0] in merged && merged[|merged| - 1] in merged;
      visited, rejected := VisitChunk(merged, visited, clock);
      cursor := chunkEnd;
    }
    if end < start {
      EmptyRange(store, start, end);
    }
    ChunkInOrder(store, start, end);
    ReadIsStableSort(store, start, end);
  }

  // ---- The closing step -------------------------------------------------------------------

  /** Closes whatever is still open; `tickets` is the broker's own listing, in whatever order. */
  method CloseRemaining(broker: SimBroker, tickets: seq<nat>, ghost initialBalance: real)
    requires Sound(broker.terms, broker.State(), initialBalance) && Distinct(tickets)
    requires forall k :: k in tickets <==> k in broker.positions
    modifies broker
    ensures broker.State() == CloseAll(broker.terms, old(broker.State()), tickets)
    ensures broker.positions == map[]
    ensures broker.balance - initialBalance == SumPnl(broker.trades)
  {
    hide Close, Sound;
    for i := 0 to |tickets|
      invariant broker.State() == CloseAll(broker.terms, old(broker.State()), tickets[..i])
    {
      assert tickets[..i + 1][..i] == tickets[..i];
      var r := broker.ClosePosition(tickets[i], None);
    }
    assert tickets[..|tickets|] == tickets;
    CloseAllSettles(broker.terms, old(broker.State()), tickets, initialBalance);
  }
}
