/** A bounded bar history and the streaming indicators fed from it. */
module HistoryView {
  import opened Domain

  /** One indicator per key, its formula abstract: a fresh state, and how a closed bar advances it. */
  datatype Indicators<!K, !S> = Indicators(create: K -> S, update: (K, S, Bar) -> S)

  datatype View<K, S> = View(bars: seq<Bar>, inc: map<K, S>)

  predicate Accepts(bars: seq<Bar>, bar: Bar) {
    bar.isClosed && (bars == [] || bars[|bars| - 1].time < bar.time)
  }

  /** The last `capacity` bars. */
  function Latest(bars: seq<Bar>, capacity: nat): seq<Bar> {
    if |bars| <= capacity then bars else bars[|bars| - capacity..]
  }

  function UpdateAll<K, S>(ind: Indicators<K, S>, inc: map<K, S>, bar: Bar): map<K, S> {
    map k | k in inc :: ind.update(k, inc[k], bar)
  }

  function Append<K, S>(ind: Indicators<K, S>, capacity: nat, v: View<K, S>, bar: Bar): View<K, S> {
    if Accepts(v.bars, bar) then View(Latest(v.bars + [bar], capacity), UpdateAll(ind, v.inc, bar)) else v
  }

  /** The left fold of an indicator over bars. */
  function Fold<K, S>(ind: Indicators<K, S>, key: K, bars: seq<Bar>): S {
    if bars == [] then ind.create(key)
    else ind.update(key, Fold(ind, key, bars[..|bars| - 1]), bars[|bars| - 1])
  }

  function Request<K, S>(ind: Indicators<K, S>, v: View<K, S>, key: K): View<K, S> {
    if key in v.inc then v else v.(inc := v.inc[key := Fold(ind, key, v.bars)])
  }

  class HistoryView<!K(==), !S> {
    const ind: Indicators<K, S>
    const capacity: nat
    var bars: seq<Bar>
    var inc: map<K, S>

    function Contents(): View<K, S>
      reads this
    {
      View(bars, inc)
    }

    constructor (ind: Indicators<K, S>, capacity: nat)
      ensures this.ind == ind && this.capacity == capacity && Contents() == View([], map[])
    {
      this.ind, this.capacity := ind, capacity;
      bars, inc := [], map[];
    }

    method AppendBar(bar: Bar)
      modifies this
      ensures Contents() == Append(ind, capacity, old(Contents()), bar)
    {
      if !bar.isClosed {
        return;
      }
      if bars != [] && bar.time <= bars[|bars| - 1].time {
        return;
      }
      bars := bars + [bar];
      if |bars| > capacity {
        bars := bars[|bars| - capacity..];
      }
      var todo := inc.Keys;
      while todo != {}
        invariant todo <= inc.Keys == old(inc.Keys)
        invariant forall k :: k in inc ==> inc[k] == if k in todo then old(inc)[k] else ind.update(k, old(inc)[k], bar)
        invariant bars == Latest(old(bars) + [bar], capacity)
        decreases |todo|
      {
        var k :| k in todo;
        inc := inc[k := ind.update(k, inc[k], bar)];
        todo := todo - {k};
      }
    }

    method Incremental(key: K) returns (state: S)
      modifies this`inc
      ensures Contents() == Request(ind, old(Contents()), key)
      ensures key in inc && state == inc[key]
    {
      if key !in inc {
        state := ind.create(key);
        for i := 0 to |bars|
          invariant state == Fold(ind, key, bars[..i])
          invariant inc == old(inc)
        {
          assert bars[..i + 1][..i] == bars[..i];
          state := ind.update(key, state, bars[i]);
        }
        assert bars[..|bars|] == bars;
        inc := inc[key := state];
      } else {
        state := inc[key];
      }
    }
  }

  // ---- Whole runs -----------------------------------------------------------------------

  datatype Op<K> = Deliver(bar: Bar) | Ask(key: K)

  function Run<K, S>(ind: Indicators<K, S>, capacity: nat, ops: seq<Op<K>>): View<K, S> {
    if ops == [] then View([], map[])
    else
      var v := Run(ind, capacity, ops[..|ops| - 1]);
      match ops[|ops| - 1]
      case Deliver(bar) => Append(ind, capacity, v, bar)
      case Ask(key) => Request(ind, v, key)
  }

  /** The bars a run accepts: closed, and newer than the last one accepted. */
  function Accepted<K>(ops: seq<Op<K>>): seq<Bar> {
    if ops == [] then []
    else
      var earlier := Accepted(ops[..|ops| - 1]);
      match ops[|ops| - 1]
      case Deliver(bar) => if Accepts(earlier, bar) then earlier + [bar] else earlier
      case Ask(_) => earlier
  }

  /** A delivery is a record when it is closed and newer than every closed bar before it. */
  ghost predicate IsRecord<K>(ops: seq<Op<K>>, i: nat) {
    && i < |ops| && ops[i].Deliver? && ops[i].bar.isClosed
    && forall j :: 0 <= j < i && ops[j].Deliver? && ops[j].bar.isClosed ==> ops[j].bar.time < ops[i].bar.time
  }

  /** Delivery `j` carries the last accepted bar. */
  ghost predicate LastAccepted<K>(ops: seq<Op<K>>, j: int) {
    && 0 <= j < |ops| && ops[j].Deliver? && ops[j].bar.isClosed
    && Accepted(ops) != [] && ops[j].bar == Accepted(ops)[|Accepted(ops)| - 1]
  }

  lemma {:induction false} AcceptedNewest<K>(ops: seq<Op<K>>)
    ensures TimesAscend(Accepted(ops))
    ensures Accepted(ops) == [] <==> forall j :: 0 <= j < |ops| && ops[j].Deliver? ==> !ops[j].bar.isClosed
    ensures forall j :: 0 <= j < |ops| && ops[j].Deliver? && ops[j].bar.isClosed ==>
      Accepted(ops) != [] && ops[j].bar.time <= Accepted(ops)[|Accepted(ops)| - 1].time
    ensures Accepted(ops) != [] ==> exists j :: LastAccepted(ops, j)
  {
    if ops != [] {
      var before := ops[..|ops| - 1];
      AcceptedNewest(before);
      if Accepted(ops) != Accepted(before) {
        assert LastAccepted(ops, |ops| - 1);
      } else if Accepted(ops) != [] {
        var j :| LastAccepted(before, j);
        assert ops[j] == before[j];
        assert LastAccepted(ops, j);
      }
    }
  }

  /** Accepted are exactly the deliveries that set a new record, so duplicates and stale bars change nothing. */
  lemma AcceptedAreRecords<K>(ops: seq<Op<K>>, i: nat)
    requires i < |ops| && ops[i].Deliver?
    ensures Accepted(ops[..i + 1]) == Accepted(ops[..i]) + if IsRecord(ops, i) then [ops[i].bar] else []
  {
    var before := ops[..i];
    assert ops[..i + 1][..i] == before;
    AcceptedNewest(before);
    if Accepts(Accepted(before), ops[i].bar) {
      forall j | 0 <= j < i && ops[j].Deliver? && ops[j].bar.isClosed ensures ops[j].bar.time < ops[i].bar.time {
        assert before[j] == ops[j];
      }
    } else if ops[i].bar.isClosed {
      var j :| LastAccepted(before, j);
      assert ops[j] == before[j];
    }
  }

  lemma LatestOfAppend(bars: seq<Bar>, bar: Bar, capacity: nat)
    ensures Latest(Latest(bars, capacity) + [bar], capacity) == Latest(bars + [bar], capacity)
  {
  }

  /** The buffer's last bar is the last accepted bar, so the two agree on what to accept. */
  lemma SameVerdict(capacity: nat, accepted: seq<Bar>, bar: Bar)
    requires 0 < capacity
    ensures Accepts(Latest(accepted, capacity), bar) <==> Accepts(accepted, bar)
  {
  }

  lemma LatestAscends(bars: seq<Bar>, capacity: nat)
    requires TimesAscend(bars)
    ensures TimesAscend(Latest(bars, capacity))
  {
  }

  /** The buffer is always the latest accepted bars, in strictly increasing time. */
  lemma {:induction false} BufferIsLatest<K, S>(ind: Indicators<K, S>, capacity: nat, ops: seq<Op<K>>)
    ensures Run(ind, capacity, ops).bars == Latest(Accepted(ops), capacity)
    ensures TimesAscend(Run(ind, capacity, ops).bars)
  {
    hide Latest, Accepts, UpdateAll, Fold, TimesAscend;
    AcceptedNewest(ops);
    LatestAscends(Accepted(ops), capacity);
    if ops == [] {
      LatestOfEmpty(capacity);
    } else {
      var before := ops[..|ops| - 1];
      BufferIsLatest(ind, capacity, before);
      if ops[|ops| - 1].Deliver? {
        var bar := ops[|ops| - 1].bar;
        if capacity == 0 {
          NothingKept(Accepted(ops));
          NothingKept(Accepted(before));
          NothingKept(Run(ind, capacity, before).bars + [bar]);
        } else {
          SameVerdict(capacity, Accepted(before), bar);
          LatestOfAppend(Accepted(before), bar, capacity);
        }
      }
    }
  }

  lemma NothingKept(bars: seq<Bar>)
    ensures Latest(bars, 0) == []
  {
  }

  lemma LatestOfEmpty(capacity: nat)
    ensures Latest([], capacity) == []
  {
  }

  /** Where a key was first asked for. */
  function FirstAsk<K(==)>(ops: seq<Op<K>>, key: K): (first: Option<nat>)
    ensures first.Some? ==> first.value < |ops|
  {
    if ops == [] then None
    else
      var earlier := FirstAsk(ops[..|ops| - 1], key);
      if earlier.Some? then earlier
      else if ops[|ops| - 1] == Ask(key) then Some(|ops| - 1)
      else None
  }

  lemma {:induction false} FirstAskIsFirst<K>(ops: seq<Op<K>>, key: K)
    ensures FirstAsk(ops, key).None? <==> forall i :: 0 <= i < |ops| ==> ops[i] != Ask(key)
    ensures FirstAsk(ops, key).Some? ==>
      var i := FirstAsk(ops, key).value;
      i < |ops| && ops[i] == Ask(key) && forall j :: 0 <= j < i ==> ops[j] != Ask(key)
  {
    if ops != [] {
      FirstAskIsFirst(ops[..|ops| - 1], key);
    }
  }

  /** How many accepted bars had already left the buffer when `key` was first asked for. */
  function Evicted<K(==)>(capacity: nat, ops: seq<Op<K>>, key: K): nat
    requires FirstAsk(ops, key).Some?
  {
    FirstAskIsFirst(ops, key);
    var n := |Accepted(ops[..FirstAsk(ops, key).value])|;
    if n <= capacity then 0 else n - capacity
  }

  lemma FoldExtends<K, S>(ind: Indicators<K, S>, key: K, bars: seq<Bar>, bar: Bar, from: nat)
    requires from <= |bars|
    ensures Fold(ind, key, (bars + [bar])[from..]) == ind.update(key, Fold(ind, key, bars[from..]), bar)
  {
    assert (bars + [bar])[from..] == bars[from..] + [bar];
    assert (bars[from..] + [bar])[..|bars| - from] == bars[from..];
  }

  /** Exactly the keys asked for have a state, and each state is one left fold over all the accepted
      bars but those evicted before its first request. */
  lemma {:induction false} StateIsFold<K, S>(ind: Indicators<K, S>, capacity: nat, ops: seq<Op<K>>, key: K)
    requires 0 < capacity
    ensures key in Run(ind, capacity, ops).inc <==> FirstAsk(ops, key).Some?
    ensures FirstAsk(ops, key).Some? ==>
      var from := Evicted(capacity, ops, key);
      from <= |Accepted(ops)| && Run(ind, capacity, ops).inc[key] == Fold(ind, key, Accepted(ops)[from..])
  {
    hide TimesAscend, Accepts, Fold;
    if ops != [] {
      var before := ops[..|ops| - 1];
      StateIsFold(ind, capacity, before, key);
      BufferIsLatest(ind, capacity, before);
      if FirstAsk(before, key).Some? {
        FirstAskIsFirst(before, key);
        var i := FirstAsk(before, key).value;
        assert before[..i] == ops[..i];
        var from := Evicted(capacity, before, key);
        var last := ops[|ops| - 1];
        if last.Deliver? {
          SameVerdict(capacity, Accepted(before), last.bar);
          if Accepts(Accepted(before), last.bar) {
            FoldExtends(ind, key, Accepted(before), last.bar, from);
          }
        }
      }
    }
  }

  /** Asked for before anything was evicted, an indicator has seen every accepted bar, whenever that was. */
  lemma EarlyRequestSeesEveryBar<K, S>(ind: Indicators<K, S>, capacity: nat, ops: seq<Op<K>>, key: K)
    requires 0 < capacity && FirstAsk(ops, key).Some?
    requires |Accepted(ops[..FirstAsk(ops, key).value])| <= capacity
    ensures key in Run(ind, capacity, ops).inc && Run(ind, capacity, ops).inc[key] == Fold(ind, key, Accepted(ops))
  {
    StateIsFold(ind, capacity, ops, key);
    assert Accepted(ops)[0..] == Accepted(ops);
  }

  function Counter<K>(): Indicators<K, int> {
    Indicators((key: K) => 0, (key: K, n: int, bar: Bar) => n + 1)
  }

  lemma {:induction false} CounterCounts<K>(key: K, bars: seq<Bar>)
    ensures Fold(Counter(), key, bars) == |bars|
  {
    if bars != [] {
      CounterCounts(key, bars[..|bars| - 1]);
    }
  }

  /** The guard is needed: the indicator that counts bars is right exactly when nothing had been evicted. */
  lemma CounterRightIffNothingEvicted<K>(capacity: nat, ops: seq<Op<K>>, key: K)
    requires 0 < capacity && FirstAsk(ops, key).Some?
    ensures key in Run(Counter(), capacity, ops).inc
    ensures Run(Counter(), capacity, ops).inc[key] == Fold(Counter(), key, Accepted(ops))
       <==> |Accepted(ops[..FirstAsk(ops, key).value])| <= capacity
  {
    StateIsFold(Counter(), capacity, ops, key);
    CounterCounts(key, Accepted(ops));
    CounterCounts(key, Accepted(ops)[Evicted(capacity, ops, key)..]);
  }

  /** For instance: room for one bar, two bars, and only then the first request. The count is one, not two. */
  lemma LateRequestMissesBars<K>(key: K, first: Bar, second: Bar)
    requires first.isClosed && second.isClosed && first.time < second.time
    ensures
      var ops := [Deliver(first), Deliver(second), Ask(key)];
      && Accepted(ops) == [first, second] && Fold(Counter(), key, Accepted(ops)) == 2
      && key in Run(Counter(), 1, ops).inc && Run(Counter(), 1, ops).inc[key] == 1
  {
    var ops := [Deliver(first), Deliver(second), Ask(key)];
    var one: seq<Op<K>> := [Deliver(first)];
    var two: seq<Op<K>> := [Deliver(first), Deliver(second)];
    assert ops[..2] == two && two[..1] == one && one[..0] == [];
    assert Accepted(one[..0]) == [] && Accepted(one) == [first] && Accepted(two) == [first, second];
    assert FirstAsk(two, key).None? by { FirstAskIsFirst(two, key); }
    assert FirstAsk(ops, key) == Some(2);
    StateIsFold(Counter(), 1, ops, key);
    CounterCounts(key, [first, second]);
    CounterCounts(key, [first, second][1..]);
  }

  /** A buffer of no capacity never holds a last bar, so a duplicate is fed twice. */
  lemma NoCapacityFeedsDuplicates<K>(key: K, bar: Bar)
    requires bar.isClosed
    ensures Run(Counter(), 0, [Ask(key), Deliver(bar), Deliver(bar)]).inc == map[key := 2]
  {
    var ops := [Ask(key), Deliver(bar), Deliver(bar)];
    assert ops[..2] == [Ask(key), Deliver(bar)];
    assert ops[..2][..1] == [Ask(key)];
    assert ops[..2][..1][..0] == [];
    assert Run(Counter<K>(), 0, []) == View([], map[]);
    assert Run(Counter(), 0, [Ask(key)]) == View([], map[key := 0]);
    assert Run(Counter(), 0, ops[..2]) == View([], map[key := 1]);
  }
}
