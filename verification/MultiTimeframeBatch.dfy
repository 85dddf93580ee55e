/** What the streaming fold computes, stated over the whole input at once. */
module MultiTimeframeBatch {
  import opened Domain
  import opened UtcTime
  import opened TradingDay
  import opened Sorting
  import opened MultiTimeframe

  function DropLast<T>(xs: seq<T>): seq<T>
    requires xs != []
  {
    xs[..|xs| - 1]
  }

  function Last<T>(xs: seq<T>): T
    requires xs != []
  {
    xs[|xs| - 1]
  }

  /** The bars that pass the filter: closed H1 bars of the symbol, each later than all before it. */
  function Accepted(symbol: string, bars: seq<Bar>): seq<Bar> {
    if bars == [] then []
    else
      var before := Accepted(symbol, DropLast(bars));
      var lastTime := if before == [] then None else Some(Last(before).time);
      if Accepts(symbol, lastTime, Last(bars)) then before + [Last(bars)] else before
  }

  /** The bars of `bars` that belong to bucket `key`, in order. */
  function Members(s: Session, bars: seq<Bar>, key: int): seq<Bar> {
    if bars == [] then []
    else
      var before := Members(s, DropLast(bars), key);
      if s.Key(Last(bars).time) == key then before + [Last(bars)] else before
  }

  /** The bucket keys that occur, in order of first appearance. */
  function Keys(s: Session, bars: seq<Bar>): seq<int> {
    if bars == [] then []
    else
      var before := Keys(s, DropLast(bars));
      var key := s.Key(Last(bars).time);
      if key in before then before else before + [key]
  }

  /** Finalises each of `keys` from all of its members. */
  function Fold(s: Session, symbol: string, bars: seq<Bar>, keys: seq<int>): seq<Bar> {
    if keys == [] then []
    else
      Appended(Fold(s, symbol, bars, DropLast(keys)),
               Finalize(s, symbol, Last(keys), Members(s, bars, Last(keys))))
  }

  /** Groups all accepted bars by key and folds every group but the last. */
  function Batch(s: Session, symbol: string, bars: seq<Bar>): seq<Bar> {
    var keys := Keys(s, bars);
    if keys == [] then [] else Fold(s, symbol, bars, DropLast(keys))
  }

  lemma {:induction false} AcceptedTimesAscend(symbol: string, bars: seq<Bar>)
    ensures TimesAscend(Accepted(symbol, bars))
    ensures forall b :: b in Accepted(symbol, bars) ==> b in bars
  {
    if bars != [] {
      AcceptedTimesAscend(symbol, DropLast(bars));
      forall b | b in Accepted(symbol, bars) ensures b in bars {
        if b in Accepted(symbol, DropLast(bars)) {
          assert b in DropLast(bars);
        }
      }
    }
  }

  /** A closed H1 bar of the symbol. */
  predicate IsOwnHour(symbol: string, b: Bar) {
    b.symbol == symbol && b.timeframe == H1 && b.isClosed
  }

  /** Such a bar, later than every one before it. */
  ghost predicate IsRecord(symbol: string, bars: seq<Bar>, i: nat) {
    && i < |bars| && IsOwnHour(symbol, bars[i])
    && forall j :: 0 <= j < i && IsOwnHour(symbol, bars[j]) ==> bars[j].time < bars[i].time
  }

  lemma {:induction false} LastAcceptedIsNewest(symbol: string, bars: seq<Bar>)
    ensures forall b :: b in bars && IsOwnHour(symbol, b) ==>
      Accepted(symbol, bars) != [] && b.time <= Last(Accepted(symbol, bars)).time
    ensures forall b :: b in Accepted(symbol, bars) ==> b in bars && IsOwnHour(symbol, b)
  {
    if bars != [] {
      LastAcceptedIsNewest(symbol, DropLast(bars));
      assert bars == DropLast(bars) + [Last(bars)];
    }
  }

  /** The filter passes exactly the records: duplicates, stale bars and bars of anything else change nothing. */
  lemma AcceptedAreRecords(symbol: string, bars: seq<Bar>, i: nat)
    requires i < |bars|
    ensures Accepted(symbol, bars[..i + 1])
         == Accepted(symbol, bars[..i]) + if IsRecord(symbol, bars, i) then [bars[i]] else []
  {
    var before := bars[..i];
    assert DropLast(bars[..i + 1]) == before;
    LastAcceptedIsNewest(symbol, before);
    if Accepted(symbol, before) != [] {
      var newest := Last(Accepted(symbol, before));
      assert newest in before && IsOwnHour(symbol, newest);
      var j :| 0 <= j < i && before[j] == newest;
      assert bars[j] == newest;
    }
    forall j | 0 <= j < i && IsOwnHour(symbol, bars[j])
      ensures Accepted(symbol, before) != [] && bars[j].time <= Last(Accepted(symbol, before)).time
    {
      assert before[j] == bars[j] && before[j] in before;
    }
  }

  /** On ascending bars the keys ascend and the last key is the last bar's. */
  lemma {:induction false} KeysAscend(s: Session, bars: seq<Bar>)
    requires s.Valid() && TimesAscend(bars)
    ensures Ascending(Keys(s, bars))
    ensures bars != [] ==> Keys(s, bars) != [] && Last(Keys(s, bars)) == s.Key(Last(bars).time)
    ensures forall k :: k in Keys(s, bars) <==> exists b :: b in bars && s.Key(b.time) == k
  {
    hide Session.Key, Session.Valid;
    if bars != [] {
      var init := DropLast(bars);
      KeysAscend(s, init);
      assert bars == init + [Last(bars)];
      var key := s.Key(Last(bars).time);
      if init != [] {
        KeyMonotone(s, Last(init).time, Last(bars).time);
        if key in Keys(s, init) {
          var i :| 0 <= i < |Keys(s, init)| && Keys(s, init)[i] == key;
        }
      }
    }
  }

  lemma {:induction false} FoldIgnoresOtherKeys(s: Session, symbol: string, bars: seq<Bar>, bar: Bar, keys: seq<int>)
    requires s.Key(bar.time) !in keys
    ensures Fold(s, symbol, bars + [bar], keys) == Fold(s, symbol, bars, keys)
  {
    hide Session.Key, Finalize;
    if keys != [] {
      FoldIgnoresOtherKeys(s, symbol, bars, bar, DropLast(keys));
      assert DropLast(bars + [bar]) == bars;
      assert Last(keys) in keys;
    }
  }

  /** What the machine's state means after any input. */
  lemma {:induction false} StreamMeansBatch(s: Session, symbol: string, bars: seq<Bar>)
    requires s.Valid()
    ensures
      var st := Run(s, symbol, bars);
      var accepted := Accepted(symbol, bars);
      if accepted == [] then st == Stream(None, Bucket(None, []), [])
      else
        var keys := Keys(s, accepted);
        && keys != []
        && st.lastTime == Some(Last(accepted).time)
        && st.bucket == Bucket(Some(Last(keys)), Members(s, accepted, Last(keys)))
        && st.out == Fold(s, symbol, accepted, DropLast(keys))
  {
    hide Session.Key, Session.Valid, Finalize, Keys, Members, Fold;
    if bars != [] {
      var init, bar := DropLast(bars), Last(bars);
      StreamMeansBatch(s, symbol, init);
      var before := Accepted(symbol, init);
      var accepted := Accepted(symbol, bars);
      AcceptedTimesAscend(symbol, bars);
      if accepted != before {
        assert accepted == before + [bar];
        assert DropLast(accepted) == before;
        AcceptedStep(s, symbol, before, bar);
      }
    }
  }

  /** Appending one accepted bar: either the last group grows, or it is closed and a new one starts. */
  lemma AcceptedStep(s: Session, symbol: string, before: seq<Bar>, bar: Bar)
    requires s.Valid() && TimesAscend(before + [bar])
    ensures
      var after := before + [bar];
      var key := s.Key(bar.time);
      var keys, keys' := Keys(s, before), Keys(s, after);
      && keys' != [] && Last(keys') == key
      && if before == [] then
           keys' == [key] && Members(s, after, key) == [bar] && Fold(s, symbol, after, DropLast(keys')) == []
         else if key == Last(keys) then
           && keys' == keys && Members(s, after, key) == Members(s, before, key) + [bar]
           && Fold(s, symbol, after, DropLast(keys')) == Fold(s, symbol, before, DropLast(keys))
         else
           && Members(s, after, key) == [bar]
           && Fold(s, symbol, after, DropLast(keys'))
              == Appended(Fold(s, symbol, before, DropLast(keys)),
                          Finalize(s, symbol, Last(keys), Members(s, before, Last(keys))))
  {
    hide Session.Key, Session.Valid, Finalize;
    var after := before + [bar];
    var key := s.Key(bar.time);
    assert DropLast(after) == before;
    assert TimesAscend(before) by {
      assert forall i :: 0 <= i < |before| ==> before[i] == after[i];
    }
    KeysAscend(s, before);
    KeysAscend(s, after);
    var keys, keys' := Keys(s, before), Keys(s, after);
    if before != [] {
      if key == Last(keys) {
        assert keys[|keys| - 1] in keys;
        assert key !in DropLast(keys);
        FoldIgnoresOtherKeys(s, symbol, before, bar, DropLast(keys));
      } else {
        assert key !in keys;
        assert DropLast(keys') == keys;
        MembersOfAbsentKey(s, before, key);
        FoldIgnoresOtherKeys(s, symbol, before, bar, keys);
      }
    }
  }

  lemma {:induction false} MembersOfAbsentKey(s: Session, bars: seq<Bar>, key: int)
    requires forall b :: b in bars ==> s.Key(b.time) != key
    ensures Members(s, bars, key) == []
  {
    hide Session.Key;
    if bars != [] {
      assert Last(bars) in bars;
      MembersOfAbsentKey(s, DropLast(bars), key);
    }
  }

  /** The streaming output is the batch fold of the accepted bars, after every input. */
  lemma StreamingEqualsBatch(s: Session, symbol: string, bars: seq<Bar>)
    requires s.Valid()
    ensures Run(s, symbol, bars).out == Batch(s, symbol, Accepted(symbol, bars))
  {
    hide Session.Key, Session.Valid, Finalize;
    StreamMeansBatch(s, symbol, bars);
    if Accepted(symbol, bars) != [] {
      AcceptedTimesAscend(symbol, bars);
      KeysAscend(s, Accepted(symbol, bars));
    }
  }

  // ---- Which bars come out, without scanning or streaming --------------------

  ghost predicate OpenSlotOf(s: Session, slot: int, key: int) {
    slot % HOUR == 0 && InMarketHours(slot, s.calendar) && s.Key(slot) == key
  }

  /** The market was open in the bucket, and a bar arrived for every hour it was open. */
  ghost predicate Complete(s: Session, bars: seq<Bar>, key: int) {
    && (exists slot :: OpenSlotOf(s, slot, key))
    && (forall slot :: OpenSlotOf(s, slot, key) ==> Received(bars, slot))
  }

  /** Some accepted bar belongs to a later bucket. */
  ghost predicate Followed(s: Session, bars: seq<Bar>, key: int) {
    exists b :: b in bars && s.Key(b.time) > key
  }

  ghost predicate IsFoldOf(b: Bar, symbol: string, tf: Timeframe, members: seq<Bar>) {
    && members != []
    && b.symbol == symbol && b.timeframe == tf && b.isClosed
    && b.open == members[0].open && b.close == Last(members).close
    && (exists m :: m in members && m.high == b.high)
    && (exists m :: m in members && m.low == b.low)
    && (forall m :: m in members ==> b.low <= m.low && m.high <= b.high)
    && b.tickVolume == SumVolume(members)
  }

  lemma {:induction false} MaxHighIsGreatest(bars: seq<Bar>)
    requires bars != []
    ensures exists m :: m in bars && m.high == MaxHigh(bars)
    ensures forall m :: m in bars ==> m.high <= MaxHigh(bars)
  {
    assert bars[0] in bars;
    if |bars| > 1 {
      MaxHighIsGreatest(bars[1..]);
      var m :| m in bars[1..] && m.high == MaxHigh(bars[1..]);
      assert m in bars;
    }
  }

  lemma {:induction false} MinLowIsLeast(bars: seq<Bar>)
    requires bars != []
    ensures exists m :: m in bars && m.low == MinLow(bars)
    ensures forall m :: m in bars ==> MinLow(bars) <= m.low
  {
    assert bars[0] in bars;
    if |bars| > 1 {
      MinLowIsLeast(bars[1..]);
      var m :| m in bars[1..] && m.low == MinLow(bars[1..]);
      assert m in bars;
    }
  }

  /** The conditions on open, close, high, low and volume leave no choice. */
  lemma FoldBarsIsTheFold(b: Bar, symbol: string, tf: Timeframe, members: seq<Bar>)
    requires members != []
    ensures b == FoldBars(symbol, tf, b.time, members) <==> IsFoldOf(b, symbol, tf, members)
  {
    MaxHighIsGreatest(members);
    MinLowIsLeast(members);
  }

  lemma LastIsGreatest(bars: seq<Bar>)
    requires bars != [] && TimesAscend(bars)
    ensures forall b :: b in DropLast(bars) ==> b.time < Last(bars).time
  {
    forall b | b in DropLast(bars) ensures b.time < Last(bars).time {
      var i :| 0 <= i < |DropLast(bars)| && DropLast(bars)[i] == b;
      assert bars[i].time < bars[|bars| - 1].time;
    }
  }

  lemma AscendingAppend(bars: seq<Bar>, b: Bar)
    requires TimesAscend(bars) && forall c :: c in bars ==> c.time < b.time
    ensures TimesAscend(bars + [b])
  {
  }

  lemma {:induction false} MembersAreKeyed(s: Session, bars: seq<Bar>, key: int)
    ensures forall b :: b in Members(s, bars, key) <==> b in bars && s.Key(b.time) == key
    ensures TimesAscend(bars) ==> TimesAscend(Members(s, bars, key))
  {
    hide Session.Key;
    if bars != [] {
      var init := DropLast(bars);
      MembersAreKeyed(s, init, key);
      assert bars == init + [Last(bars)];
      if TimesAscend(bars) {
        LastIsGreatest(bars);
        AscendingAppend(Members(s, init, key), Last(bars));
      }
    }
  }

  /** Every expected slot was received exactly when the bucket is complete. */
  lemma NothingMissing(s: Session, accepted: seq<Bar>, key: int)
    requires s.Valid() && exists m :: m in accepted && s.Key(m.time) == key
    ensures
      var expected, members := ExpectedSlots(s, key), Members(s, accepted, key);
      Complete(s, accepted, key)
      <==> expected != [] && forall slot :: slot in expected ==> Received(members, slot)
  {
    hide Session.Key, Session.Valid, InMarketHours, ExpectedSlots;
    var expected, members := ExpectedSlots(s, key), Members(s, accepted, key);
    var m :| m in accepted && s.Key(m.time) == key;
    MembersAreKeyed(s, accepted, key);
    forall slot ensures slot in expected <==> OpenSlotOf(s, slot, key) {
      ExpectedSlotsExact(s, key, m.time, slot);
    }
    if expected != [] {
      assert OpenSlotOf(s, expected[0], key);
    }
  }

  /** The bars of a bucket make a bar exactly when the market was open in it and each open hour has one; it is
      then their fold, stamped with the bucket's key. */
  lemma FinalizeExactly(s: Session, symbol: string, accepted: seq<Bar>, key: int, b: Bar)
    requires s.Valid() && TimesAscend(accepted)
    requires exists m :: m in accepted && s.Key(m.time) == key
    ensures
      var members := Members(s, accepted, key);
      Finalize(s, symbol, key, members) == Some(b)
      <==> b.time == key && Complete(s, accepted, key)
           && IsFoldOf(b, symbol, if s.frame == FourHour then H4 else D1, members)
  {
    hide Session.Key, Session.Valid, MaxHigh, MinLow, IsFoldOf, ExpectedSlots, Complete;
    var members := Members(s, accepted, key);
    var m :| m in accepted && s.Key(m.time) == key;
    MembersAreKeyed(s, accepted, key);
    SortBySorted(members, BarTime);
    NothingMissing(s, accepted, key);
    assert m in members;
    FoldBarsIsTheFold(b, symbol, FrameTimeframe(s.frame), members);
  }

  lemma {:induction false} FoldElements(s: Session, symbol: string, bars: seq<Bar>, keys: seq<int>, b: Bar)
    ensures b in Fold(s, symbol, bars, keys)
       <==> b.time in keys && Finalize(s, symbol, b.time, Members(s, bars, b.time)) == Some(b)
  {
    hide Session.Key, ExpectedSlots, MaxHigh, MinLow;
    if keys != [] {
      FoldElements(s, symbol, bars, DropLast(keys), b);
      assert keys == DropLast(keys) + [Last(keys)];
    }
  }

  lemma {:induction false} FoldTimesAscend(s: Session, symbol: string, bars: seq<Bar>, keys: seq<int>)
    requires Ascending(keys)
    ensures TimesAscend(Fold(s, symbol, bars, keys))
  {
    hide Session.Key, ExpectedSlots, MaxHigh, MinLow;
    if keys != [] {
      var init := Fold(s, symbol, bars, DropLast(keys));
      FoldTimesAscend(s, symbol, bars, DropLast(keys));
      forall i | 0 <= i < |init| ensures init[i].time < Last(keys) {
        FoldElements(s, symbol, bars, DropLast(keys), init[i]);
      }
    }
  }

  /** The bar keyed k comes out exactly when the bucket is complete and has been followed. */
  lemma OutputExactly(s: Session, symbol: string, bars: seq<Bar>, b: Bar)
    requires s.Valid()
    ensures
      var accepted := Accepted(symbol, bars);
      b in Run(s, symbol, bars).out
      <==> Complete(s, accepted, b.time) && Followed(s, accepted, b.time)
           && IsFoldOf(b, symbol, if s.frame == FourHour then H4 else D1, Members(s, accepted, b.time))
  {
    hide Session.Key, Session.Valid, Finalize, InMarketHours, IsFoldOf;
    var accepted := Accepted(symbol, bars);
    var keys := Keys(s, accepted);
    StreamingEqualsBatch(s, symbol, bars);
    AcceptedTimesAscend(symbol, bars);
    KeysAscend(s, accepted);
    if accepted != [] {
      FoldElements(s, symbol, accepted, DropLast(keys), b);
      assert b.time in keys && Followed(s, accepted, b.time) <==> b.time in DropLast(keys) by {
        FollowedMeansNotLast(s, accepted, b.time);
      }
      if b.time in keys {
        FinalizeExactly(s, symbol, accepted, b.time, b);
      } else {
        assert !Complete(s, accepted, b.time);
      }
    }
  }

  lemma FollowedMeansNotLast(s: Session, accepted: seq<Bar>, key: int)
    requires s.Valid() && TimesAscend(accepted) && accepted != []
    ensures Keys(s, accepted) != []
    ensures key in Keys(s, accepted) && Followed(s, accepted, key) <==> key in DropLast(Keys(s, accepted))
  {
    hide Session.Key, Session.Valid;
    KeysAscend(s, accepted);
    var keys := Keys(s, accepted);
    if key in keys && Followed(s, accepted, key) {
      var i :| 0 <= i < |keys| && keys[i] == key;
      var b :| b in accepted && s.Key(b.time) > key;
      assert s.Key(b.time) in keys;
      var j :| 0 <= j < |keys| && keys[j] == s.Key(b.time);
      assert i < j;
      assert DropLast(keys)[i] == key;
    }
    if key in DropLast(keys) {
      var i :| 0 <= i < |keys| - 1 && keys[i] == key;
      assert keys[i] < keys[|keys| - 1];
      assert Last(accepted) in accepted;
    }
  }

  /** Output times strictly increase, so no bucket is ever emitted twice. */
  lemma OutputTimesAscend(s: Session, symbol: string, bars: seq<Bar>)
    requires s.Valid()
    ensures TimesAscend(Run(s, symbol, bars).out)
  {
    hide Session.Key, Session.Valid, Finalize;
    StreamingEqualsBatch(s, symbol, bars);
    AcceptedTimesAscend(symbol, bars);
    KeysAscend(s, Accepted(symbol, bars));
    var keys := Keys(s, Accepted(symbol, bars));
    if keys != [] {
      FoldTimesAscend(s, symbol, Accepted(symbol, bars), DropLast(keys));
    }
  }

  /** More input only ever extends the output: nothing emitted depends on a later bar. */
  lemma {:induction false} NoLookahead(s: Session, symbol: string, bars: seq<Bar>, n: nat)
    requires n <= |bars|
    ensures Run(s, symbol, bars[..n]).out <= Run(s, symbol, bars).out
  {
    hide Session.Key, Finalize;
    if n < |bars| {
      NoLookahead(s, symbol, DropLast(bars), n);
      assert DropLast(bars)[..n] == bars[..n];
    } else {
      assert bars[..n] == bars;
    }
  }

  /** Folding well-formed bars never builds a bar that its constructor would reject. */
  lemma OutputWellFormed(s: Session, symbol: string, bars: seq<Bar>, b: Bar)
    requires s.Valid() && forall x :: x in bars ==> x.WellFormed()
    requires b in Run(s, symbol, bars).out
    ensures b.WellFormed() && 0.0 < b.low <= b.open <= b.high && b.low <= b.close <= b.high
  {
    hide Session.Key, Session.Valid, Run;
    var accepted := Accepted(symbol, bars);
    OutputExactly(s, symbol, bars, b);
    AcceptedTimesAscend(symbol, bars);
    MembersAreKeyed(s, accepted, b.time);
    var members := Members(s, accepted, b.time);
    assert members[0] in members && Last(members) in members;
  }
}
