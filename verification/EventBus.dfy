/** The in-process bus: one bounded queue per subscriber, two overflow policies, publishers that may have to wait. */
module EventBus {
  import opened Domain

  datatype Event = Event(kind: string, id: nat)

  datatype Overflow = DropOldest | Block

  /** A subscriber with its queue and the event its handler is busy with. The other fields are its history: how many
      handlers returned, how many raised, which event was being handled when the consumer was cancelled, every event
      put to the queue, and which of those, by position, were consumed or evicted. */
  datatype Subscriber = Subscriber(
    kinds: set<string>, overflow: Overflow, maxsize: int, closed: bool, queue: seq<Event>, handling: Option<Event>,
    finished: nat, errors: nat, interrupted: Option<Event>,
    offered: seq<Event>, consumedAt: seq<nat>, evictedAt: seq<nat>)
  {
    predicate Full() {
      0 < maxsize <= |queue|
    }

    predicate Wants(e: Event) {
      !closed && e.kind in kinds
    }

    /** The position, among the offered events, of the queue's head. */
    function Head(): int {
      |offered| - |queue|
    }
  }

  function NewSubscriber(kinds: set<string>, overflow: Overflow, maxsize: int): Subscriber {
    Subscriber(kinds, overflow, maxsize, false, [], None, 0, 0, None, [], [], [])
  }

  function Put(s: Subscriber, e: Event): Subscriber {
    s.(queue := s.queue + [e], offered := s.offered + [e])
  }

  /** Removes the head of a non-empty queue. */
  function Evict(s: Subscriber): Subscriber
    requires s.queue != []
  {
    s.(queue := s.queue[1..], evictedAt := s.evictedAt + if s.Head() >= 0 then [s.Head()] else [])
  }

  /** Evicts when full, then puts unless it is full again. */
  function OfferOldest(s: Subscriber, e: Event): Subscriber {
    var room := if s.Full() then Evict(s) else s;
    if room.Full() then room else Put(room, e)
  }

  function Offered(s: Subscriber, e: Event): Subscriber {
    if s.overflow == Block then Put(s, e) else OfferOldest(s, e)
  }

  /** The publish loop from subscriber `i`: it stops at the end, or at a full blocking queue. */
  function Walk(subs: seq<Subscriber>, e: Event, i: nat): (r: (seq<Subscriber>, nat))
    requires i <= |subs|
    ensures |r.0| == |subs| && i <= r.1 <= |subs|
    decreases |subs| - i
  {
    if i == |subs| then (subs, i)
    else if !subs[i].Wants(e) then Walk(subs, e, i + 1)
    else if subs[i].overflow == Block && subs[i].Full() then (subs, i)
    else Walk(subs[i := Offered(subs[i], e)], e, i + 1)
  }

  /** The consumer takes the head and starts its handler on it. */
  function Take(s: Subscriber): Subscriber
    requires s.queue != []
  {
    s.(queue := s.queue[1..], handling := Some(s.queue[0]),
       consumedAt := s.consumedAt + if s.Head() >= 0 then [s.Head()] else [])
  }

  /** The handler returns, or raises; an exception is counted and swallowed. */
  function Finish(s: Subscriber, raises: bool): Subscriber {
    if raises then s.(handling := None, errors := s.errors + 1) else s.(handling := None, finished := s.finished + 1)
  }

  /** The subscriber is closed and its consumer cancelled, in the middle of a handler or between two. */
  function Cancelled(s: Subscriber): Subscriber {
    if s.closed then s else s.(closed := true, handling := None, interrupted := s.handling)
  }

  /** A publisher suspended in front of a full blocking queue. */
  datatype Waiting = Waiting(event: Event, at: nat)

  datatype Bus = Bus(subs: seq<Subscriber>, closed: bool, waiting: map<nat, Waiting>)

  datatype Step =
    | Subscribe(kinds: set<string>, overflow: Overflow, maxsize: int)
    | Unsubscribe(i: nat)
    | Publish(publisher: nat, event: Event)
    | Resume(publisher: nat)
    | TakeNext(i: nat)
    | HandlerEnds(i: nat, raises: bool)
    | CloseBus

  /** A suspended publisher resumes only once there is room. */
  predicate Enabled(b: Bus, step: Step) {
    match step
    case Subscribe(_, _, _) => !b.closed
    case Unsubscribe(i) => i < |b.subs|
    case Publish(publisher, _) => publisher !in b.waiting
    case Resume(publisher) =>
      publisher in b.waiting && b.waiting[publisher].at < |b.subs| && !b.subs[b.waiting[publisher].at].Full()
    case TakeNext(i) => i < |b.subs| && !b.subs[i].closed && b.subs[i].queue != [] && b.subs[i].handling.None?
    case HandlerEnds(i, _) => i < |b.subs| && b.subs[i].handling.Some?
    case CloseBus => true
  }

  function CloseAll(subs: seq<Subscriber>): (closed: seq<Subscriber>)
    ensures |closed| == |subs|
    ensures forall i :: 0 <= i < |subs| ==> closed[i] == Cancelled(subs[i])
  {
    if subs == [] then [] else [Cancelled(subs[0])] + CloseAll(subs[1..])
  }

  function Suspended(waiting: map<nat, Waiting>, publisher: nat, e: Event, stop: nat, size: nat): map<nat, Waiting> {
    if stop < size then waiting[publisher := Waiting(e, stop)] else waiting - {publisher}
  }

  function PublishFrom(b: Bus, publisher: nat, e: Event, i: nat): Bus
    requires i <= |b.subs|
  {
    var (subs, stop) := Walk(b.subs, e, i);
    b.(subs := subs, waiting := Suspended(b.waiting, publisher, e, stop, |subs|))
  }

  /** The blocked put goes through first, whether or not the subscriber has closed since. */
  function ResumeAt(b: Bus, publisher: nat): Bus
    requires Enabled(b, Resume(publisher))
  {
    var w := b.waiting[publisher];
    PublishFrom(b.(subs := b.subs[w.at := Put(b.subs[w.at], w.event)]), publisher, w.event, w.at + 1)
  }

  function Next(b: Bus, step: Step): Bus
    requires Enabled(b, step)
  {
    match step
    case Subscribe(kinds, overflow, maxsize) => b.(subs := b.subs + [NewSubscriber(kinds, overflow, maxsize)])
    case Unsubscribe(i) => b.(subs := b.subs[i := Cancelled(b.subs[i])])
    case Publish(publisher, e) => if b.closed then b else PublishFrom(b, publisher, e, 0)
    case Resume(publisher) => ResumeAt(b, publisher)
    case TakeNext(i) => b.(subs := b.subs[i := Take(b.subs[i])])
    case HandlerEnds(i, raises) => b.(subs := b.subs[i := Finish(b.subs[i], raises)])
    case CloseBus => if b.closed then b else b.(closed := true, subs := CloseAll(b.subs))
  }

  class AsyncEventBus {
    var subs: seq<Subscriber>
    var closed: bool
    var waiting: map<nat, Waiting>

    constructor ()
      ensures State() == Bus([], false, map[])
    {
      subs, closed, waiting := [], false, map[];
    }

    function State(): Bus
      reads this
    {
      Bus(subs, closed, waiting)
    }

    /** False stands for the error raised on a closed bus. */
    method AddSubscriber(kinds: set<string>, overflow: Overflow, maxsize: int) returns (ok: bool)
      modifies this
      ensures ok <==> !old(closed)
      ensures State() == if ok then Next(old(State()), Subscribe(kinds, overflow, maxsize)) else old(State())
    {
      if closed {
        return false;
      }
      subs := subs + [NewSubscriber(kinds, overflow, maxsize)];
      return true;
    }

    /** Runs until the publish is done or has to wait. */
    method PublishEvent(publisher: nat, e: Event)
      requires publisher !in waiting
      modifies this
      ensures State() == Next(old(State()), Publish(publisher, e))
    {
      if closed {
        return;
      }
      OfferFrom(publisher, e, 0);
    }

    method OfferFrom(publisher: nat, e: Event, start: nat)
      requires start <= |subs|
      modifies this
      ensures State() == PublishFrom(old(State()), publisher, e, start)
    {
      hide Offered;
      var i := start;
      while i < |subs|
        invariant start <= i <= |subs| == |old(subs)|
        invariant Walk(old(subs), e, start) == Walk(subs, e, i)
        invariant closed == old(closed) && waiting == old(waiting)
      {
        if subs[i].Wants(e) {
          if subs[i].overflow == Block && subs[i].Full() {
            waiting := waiting[publisher := Waiting(e, i)];
            return;
          }
          subs := subs[i := Offered(subs[i], e)];
        }
        i := i + 1;
      }
      waiting := waiting - {publisher};
    }

    method ResumePublish(publisher: nat)
      requires Enabled(State(), Resume(publisher))
      modifies this
      ensures State() == Next(old(State()), Resume(publisher))
    {
      hide Walk;
      var w := waiting[publisher];
      subs := subs[w.at := Put(subs[w.at], w.event)];
      OfferFrom(publisher, w.event, w.at + 1);
    }

    /** The first half of a turn of a consumer loop: up to the handler. */
    method ConsumerTakes(i: nat) returns (e: Event)
      requires Enabled(State(), TakeNext(i))
      modifies this
      ensures e == old(subs)[i].queue[0]
      ensures State() == Next(old(State()), TakeNext(i))
    {
      e := subs[i].queue[0];
      subs := subs[i := Take(subs[i])];
    }

    /** The second half: the handler is done. */
    method ConsumerEnds(i: nat, raises: bool)
      requires Enabled(State(), HandlerEnds(i, raises))
      modifies this
      ensures State() == Next(old(State()), HandlerEnds(i, raises))
    {
      subs := subs[i := Finish(subs[i], raises)];
    }

    method Close()
      modifies this
      ensures State() == Next(old(State()), CloseBus)
    {
      if closed {
        return;
      }
      closed := true;
      var i := 0;
      while i < |subs|
        invariant 0 <= i <= |subs| == |old(subs)|
        invariant forall j :: 0 <= j < i ==> subs[j] == Cancelled(old(subs)[j])
        invariant subs[i..] == old(subs)[i..]
        invariant closed && waiting == old(waiting)
      {
        assert subs[i] == old(subs)[i];
        subs := subs[i := Cancelled(subs[i])];
        i := i + 1;
      }
      assert subs == CloseAll(old(subs));
    }
  }

  // ---- What every subscriber keeps -----------------------------------------------------

  /** The queue is the most recent part of what was offered. */
  ghost predicate HoldsMostRecent(s: Subscriber) {
    |s.queue| <= |s.offered| && s.queue == s.offered[s.Head()..]
  }

  /** Everything before the queue was consumed or evicted, once, and consumed in order. */
  ghost predicate Accounted(s: Subscriber) {
    && Ascending(s.consumedAt) && Ascending(s.evictedAt)
    && (forall k: nat :: k < s.Head() <==> k in s.consumedAt || k in s.evictedAt)
    && (forall k: nat :: !(k in s.consumedAt && k in s.evictedAt))
  }

  /** An event is evicted only with a full backlog of newer events behind it. */
  ghost predicate EvictedWhenFull(s: Subscriber) {
    forall k :: k in s.evictedAt ==> 0 < s.maxsize && k + s.maxsize < |s.offered|
  }

  /** Every consumed event was handled to the end, raised, is being handled, or was interrupted; the last two only
      the last one, the former only on a live subscriber and the latter only on a closed one. */
  ghost predicate HandledOnce(s: Subscriber) {
    var open := if s.handling.Some? then s.handling else s.interrupted;
    && s.finished + s.errors + (if open.Some? then 1 else 0) == |s.consumedAt|
    && (s.closed ==> s.handling.None?) && (!s.closed ==> s.interrupted.None?)
    && (open.Some? ==>
          var last := s.consumedAt[|s.consumedAt| - 1];
          last < |s.offered| && s.offered[last] == open.value)
  }

  ghost predicate Sound(s: Subscriber) {
    && HoldsMostRecent(s) && Accounted(s) && EvictedWhenFull(s) && HandledOnce(s)
    && (s.maxsize > 0 ==> |s.queue| <= s.maxsize)
    && (s.overflow == Block ==> s.evictedAt == [])
  }

  lemma AscendAppend(xs: seq<nat>, x: nat)
    requires Ascending(xs) && forall y :: y in xs ==> y < x
    ensures Ascending(xs + [x])
  {
    forall i | 0 <= i < |xs| ensures xs[i] < x {
      assert xs[i] in xs;
    }
  }

  lemma PutKeeps(s: Subscriber, e: Event)
    requires Sound(s) && !s.Full()
    ensures Sound(Put(s, e))
  {
  }

  /** Eviction from a full queue, together with the put that follows it. */
  lemma EvictAndPutKeeps(s: Subscriber, e: Event)
    requires Sound(s) && s.Full() && s.overflow == DropOldest
    ensures !Evict(s).Full()
    ensures Sound(Put(Evict(s), e))
  {
    assert forall k :: k in s.consumedAt + s.evictedAt ==> k < s.Head();
    AscendAppend(s.evictedAt, s.Head());
  }

  /** After an eviction there is always room: the event being published is never the one that is dropped. */
  lemma NewestAlwaysEnters(s: Subscriber, e: Event)
    requires Sound(s) && s.overflow == DropOldest
    ensures
      var s' := OfferOldest(s, e);
      && Sound(s') && s'.queue != [] && s'.queue[|s'.queue| - 1] == e && s'.offered == s.offered + [e]
      && (s'.evictedAt != s.evictedAt <==> s.Full())
  {
    if s.Full() {
      EvictAndPutKeeps(s, e);
    } else {
      PutKeeps(s, e);
    }
  }

  lemma FinishKeeps(s: Subscriber, raises: bool)
    requires Sound(s) && s.handling.Some?
    ensures Sound(Finish(s, raises))
  {
  }

  lemma TakeKeeps(s: Subscriber)
    requires Sound(s) && s.queue != [] && !s.closed && s.handling.None?
    ensures Sound(Take(s))
  {
    assert forall k :: k in s.consumedAt + s.evictedAt ==> k < s.Head();
    AscendAppend(s.consumedAt, s.Head());
  }

  lemma OfferedKeeps(s: Subscriber, e: Event)
    requires Sound(s) && (s.overflow == Block ==> !s.Full())
    ensures Sound(Offered(s, e))
  {
    if s.overflow == Block {
      PutKeeps(s, e);
    } else {
      NewestAlwaysEnters(s, e);
    }
  }

  /** Exactly the live subscribers that want the event and come before the stop are offered it, once each. */
  lemma {:induction false} WalkExact(subs: seq<Subscriber>, e: Event, i: nat, j: nat)
    requires i <= |subs| && j < |subs|
    ensures
      var (subs', stop) := Walk(subs, e, i);
      && subs'[j] == (if i <= j < stop && subs[j].Wants(e) then Offered(subs[j], e) else subs[j])
      && (stop < |subs| ==> subs[stop].overflow == Block && subs[stop].Full() && subs[stop].Wants(e))
      && (i <= j < stop && subs[j].Wants(e) && subs[j].overflow == Block ==> !subs[j].Full())
    decreases |subs| - i
  {
    hide Offered, Subscriber.Wants, Subscriber.Full;
    if i < |subs| {
      if !subs[i].Wants(e) {
        WalkExact(subs, e, i + 1, j);
      } else if subs[i].overflow == Block && subs[i].Full() {
      } else {
        WalkExact(subs[i := Offered(subs[i], e)], e, i + 1, j);
      }
    }
  }

  ghost predicate AllSound(b: Bus) {
    forall j :: 0 <= j < |b.subs| ==> Sound(b.subs[j])
  }

  lemma PublishKeeps(b: Bus, publisher: nat, e: Event, i: nat)
    requires AllSound(b) && i <= |b.subs|
    ensures AllSound(PublishFrom(b, publisher, e, i))
  {
    hide Sound, Offered, Walk, Subscriber.Wants, Subscriber.Full;
    var b' := PublishFrom(b, publisher, e, i);
    forall j | 0 <= j < |b'.subs| ensures Sound(b'.subs[j]) {
      WalkExact(b.subs, e, i, j);
      if b'.subs[j] != b.subs[j] {
        OfferedKeeps(b.subs[j], e);
      }
    }
  }

  lemma NewIsSound(kinds: set<string>, overflow: Overflow, maxsize: int)
    ensures Sound(NewSubscriber(kinds, overflow, maxsize))
  {
  }

  lemma ClosingKeeps(s: Subscriber)
    requires Sound(s)
    ensures Sound(Cancelled(s))
  {
  }

  lemma StepKeeps(b: Bus, step: Step)
    requires AllSound(b) && Enabled(b, step)
    ensures AllSound(Next(b, step))
  {
    hide Sound, Walk;
    match step {
      case Subscribe(kinds, overflow, maxsize) => NewIsSound(kinds, overflow, maxsize);
      case Unsubscribe(i) => ClosingKeeps(b.subs[i]);
      case Publish(publisher, e) => PublishKeeps(b, publisher, e, 0);
      case Resume(publisher) =>
        var w := b.waiting[publisher];
        PutKeeps(b.subs[w.at], w.event);
        PublishKeeps(b.(subs := b.subs[w.at := Put(b.subs[w.at], w.event)]), publisher, w.event, w.at + 1);
      case TakeNext(i) => TakeKeeps(b.subs[i]);
      case HandlerEnds(i, raises) => FinishKeeps(b.subs[i], raises);
      case CloseBus =>
        forall j | 0 <= j < |b.subs| ensures Sound(Next(b, step).subs[j]) {
          ClosingKeeps(b.subs[j]);
        }
    }
  }

  ghost predicate Run(trace: seq<Bus>, steps: seq<Step>) {
    && |trace| == |steps| + 1 && trace[0] == Bus([], false, map[])
    && forall i :: 0 <= i < |steps| ==> Enabled(trace[i], steps[i]) && trace[i + 1] == Next(trace[i], steps[i])
  }

  /** Over every interleaving of publishers, consumers and (un)subscriptions. */
  lemma {:induction false} EveryQueueIsSound(trace: seq<Bus>, steps: seq<Step>, i: nat)
    requires Run(trace, steps) && i <= |steps|
    ensures AllSound(trace[i])
  {
    hide Next, Enabled, Sound;
    if i > 0 {
      EveryQueueIsSound(trace, steps, i - 1);
      StepKeeps(trace[i - 1], steps[i - 1]);
    }
  }

  /** A live blocking subscriber of the event's kind whose bounded queue is full: the publisher waits for it. */
  predicate Stops(s: Subscriber, e: Event) {
    !s.closed && e.kind in s.kinds && s.overflow == Block && 0 < s.maxsize <= |s.queue|
  }

  lemma {:induction false} WalkStops(subs: seq<Subscriber>, e: Event, i: nat)
    requires i <= |subs|
    ensures
      var stop := Walk(subs, e, i).1;
      (stop < |subs| ==> Stops(subs[stop], e)) && forall k :: i <= k < stop ==> !Stops(subs[k], e)
    decreases |subs| - i
  {
    hide Offered;
    if i < |subs| {
      var rest := if subs[i].Wants(e) then subs[i := Offered(subs[i], e)] else subs;
      WalkStops(rest, e, i + 1);
      assert forall k :: i < k < |subs| ==> rest[k] == subs[k];
    }
  }

  /** A published event enters the queue of every live subscriber of its kind, in subscription order, up to the
      first full blocking one, for which the publisher then waits; nobody else is touched. */
  lemma PublishReaches(b: Bus, publisher: nat, e: Event, j: nat)
    requires AllSound(b) && !b.closed && publisher !in b.waiting && j < |b.subs|
    ensures
      var b' := Next(b, Publish(publisher, e));
      var stops := publisher in b'.waiting;
      && |b'.subs| == |b.subs|
      && (stops <==> exists k :: 0 <= k < |b.subs| && Stops(b.subs[k], e))
      && (stops ==>
            var w := b'.waiting[publisher];
            && w.event == e && w.at < |b.subs| && Stops(b.subs[w.at], e)
            && forall k :: 0 <= k < w.at ==> !Stops(b.subs[k], e))
      && var s, s' := b.subs[j], b'.subs[j];
         if !s.closed && e.kind in s.kinds && (stops ==> j < b'.waiting[publisher].at) then
           s'.offered == s.offered + [e] && s'.queue != [] && s'.queue[|s'.queue| - 1] == e
         else s' == s
  {
    hide Walk, Sound;
    WalkStops(b.subs, e, 0);
    WalkExact(b.subs, e, 0, j);
    assert Sound(b.subs[j]);
    if b.subs[j].overflow == DropOldest {
      NewestAlwaysEnters(b.subs[j], e);
    }
  }

  /** The subscriptions made, in order. */
  function Subscriptions(steps: seq<Step>): (made: seq<Step>)
    ensures forall i :: 0 <= i < |made| ==> made[i].Subscribe?
  {
    if steps == [] then []
    else Subscriptions(steps[..|steps| - 1]) + if steps[|steps| - 1].Subscribe? then [steps[|steps| - 1]] else []
  }

  /** Subscriber `j` was unsubscribed, or the bus closed. */
  ghost predicate Ended(steps: seq<Step>, j: nat) {
    Unsubscribe(j) in steps || CloseBus in steps
  }

  /** Subscriber `j` is what its subscription asked for, and open until it ended. */
  ghost predicate AsSubscribed(b: Bus, steps: seq<Step>, j: nat) {
    && |b.subs| == |Subscriptions(steps)|
    && (b.closed <==> CloseBus in steps)
    && (Unsubscribe(j) in steps ==> j < |b.subs|)
    && (j < |b.subs| ==>
          var s, made := b.subs[j], Subscriptions(steps)[j];
          && s.kinds == made.kinds && s.overflow == made.overflow && s.maxsize == made.maxsize
          && (s.closed <==> Ended(steps, j)))
  }

  lemma OfferingKeepsTerms(s: Subscriber, e: Event)
    ensures
      var s' := Offered(s, e);
      s'.kinds == s.kinds && s'.overflow == s.overflow && s'.maxsize == s.maxsize && s'.closed == s.closed
  {
  }

  lemma WalkKeepsTerms(subs: seq<Subscriber>, e: Event, i: nat, j: nat)
    requires i <= |subs| && j < |subs|
    ensures
      var s, s' := subs[j], Walk(subs, e, i).0[j];
      s'.kinds == s.kinds && s'.overflow == s.overflow && s'.maxsize == s.maxsize && s'.closed == s.closed
  {
    hide Walk, Offered;
    WalkExact(subs, e, i, j);
    OfferingKeepsTerms(subs[j], e);
  }

  lemma AsSubscribedStep(b: Bus, steps: seq<Step>, step: Step, j: nat)
    requires Enabled(b, step) && AsSubscribed(b, steps, j)
    ensures AsSubscribed(Next(b, step), steps + [step], j)
  {
    hide Walk;
    var steps' := steps + [step];
    assert steps'[..|steps|] == steps;
    match step {
      case Publish(_, e) =>
        if j < |b.subs| {
          WalkKeepsTerms(b.subs, e, 0, j);
        }
      case Resume(publisher) =>
        var w := b.waiting[publisher];
        if j < |b.subs| {
          WalkKeepsTerms(b.subs[w.at := Put(b.subs[w.at], w.event)], w.event, w.at + 1, j);
        }
      case _ =>
    }
  }

  /** Over any run: subscribers are those that subscribed, on the terms they asked for, each live until it is
      unsubscribed or the bus is closed. */
  lemma {:induction false} SubscribersAsAsked(trace: seq<Bus>, steps: seq<Step>, i: nat, j: nat)
    requires Run(trace, steps) && i <= |steps|
    ensures AsSubscribed(trace[i], steps[..i], j)
  {
    hide Next, Enabled;
    if i > 0 {
      hide AsSubscribed;
      SubscribersAsAsked(trace, steps, i - 1, j);
      assert steps[..i] == steps[..i - 1] + [steps[i - 1]];
      AsSubscribedStep(trace[i - 1], steps[..i - 1], steps[i - 1], j);
    }
  }

  /** How many handlers of subscriber `j` have ended so, by raising or not. */
  function Ends(steps: seq<Step>, j: nat, raises: bool): nat {
    if steps == [] then 0
    else Ends(steps[..|steps| - 1], j, raises) + if steps[|steps| - 1] == HandlerEnds(j, raises) then 1 else 0
  }

  ghost predicate Counted(b: Bus, j: nat, finished: nat, errors: nat) {
    if j < |b.subs| then b.subs[j].finished == finished && b.subs[j].errors == errors
    else finished == 0 && errors == 0
  }

  lemma OfferingCounts(s: Subscriber, e: Event)
    ensures Offered(s, e).finished == s.finished && Offered(s, e).errors == s.errors
  {
  }

  lemma CountedStep(b: Bus, step: Step, j: nat, finished: nat, errors: nat)
    requires Enabled(b, step) && Counted(b, j, finished, errors)
    ensures Counted(Next(b, step), j, finished + (if step == HandlerEnds(j, false) then 1 else 0),
                    errors + if step == HandlerEnds(j, true) then 1 else 0)
  {
    hide Walk, Offered;
    match step {
      case Publish(_, e) =>
        if j < |b.subs| {
          WalkExact(b.subs, e, 0, j);
          OfferingCounts(b.subs[j], e);
        }
      case Resume(publisher) =>
        var w := b.waiting[publisher];
        var subs := b.subs[w.at := Put(b.subs[w.at], w.event)];
        if j < |b.subs| {
          WalkExact(subs, w.event, w.at + 1, j);
          OfferingCounts(subs[j], w.event);
        }
      case _ =>
    }
  }

  /** A raising handler is counted as an error and any other as finished, and neither stops the consumer. */
  lemma {:induction false} ErrorsAreRaises(trace: seq<Bus>, steps: seq<Step>, i: nat, j: nat)
    requires Run(trace, steps) && i <= |steps|
    ensures Counted(trace[i], j, Ends(steps[..i], j, false), Ends(steps[..i], j, true))
  {
    hide Next, Enabled, Counted;
    if i == 0 {
      assert Counted(trace[0], j, 0, 0) by { NobodyCounted(j); }
    } else {
      ErrorsAreRaises(trace, steps, i - 1, j);
      assert steps[..i][..i - 1] == steps[..i - 1];
      CountedStep(trace[i - 1], steps[i - 1], j, Ends(steps[..i - 1], j, false), Ends(steps[..i - 1], j, true));
    }
  }

  lemma NobodyCounted(j: nat)
    ensures Counted(Bus([], false, map[]), j, 0, 0)
  {
  }

  /** The consumed events, in the order they were consumed. */
  function Consumed(s: Subscriber): seq<Event>
    requires forall i :: 0 <= i < |s.consumedAt| ==> s.consumedAt[i] < |s.offered|
  {
    seq(|s.consumedAt|, i requires 0 <= i < |s.consumedAt| => s.offered[s.consumedAt[i]])
  }

  lemma {:induction false} AscendingRange(xs: seq<nat>, n: nat)
    requires Ascending(xs) && forall k: nat :: k < n <==> k in xs
    ensures |xs| == n && forall i :: 0 <= i < n ==> xs[i] == i
  {
    if xs == [] {
      assert 0 !in xs;
    } else {
      var init, last := xs[..|xs| - 1], xs[|xs| - 1];
      assert last in xs && xs == init + [last];
      assert n - 1 in xs;
      var at :| 0 <= at < |xs| && xs[at] == n - 1;
      assert last == n - 1;
      forall i | 0 <= i < |init| ensures init[i] < n - 1 {
        assert xs[i] < xs[|xs| - 1];
      }
      assert last !in init && forall k :: k in xs <==> k in init || k == last;
      forall k: nat ensures k < n - 1 <==> k in init {
        assert k < n <==> k in xs;
      }
      AscendingRange(init, n - 1);
    }
  }

  /** A blocking subscriber loses nothing: what it consumed, then what is queued, is everything enqueued; and of what
      it consumed, everything was handled, except the event at hand while it lives or the one it was cancelled in. */
  lemma BlockLosesNothing(trace: seq<Bus>, steps: seq<Step>, i: nat, j: nat)
    requires Run(trace, steps) && i <= |steps| && j < |trace[i].subs| && trace[i].subs[j].overflow == Block
    ensures
      var s := trace[i].subs[j];
      && (forall k :: 0 <= k < |s.consumedAt| ==> s.consumedAt[k] < |s.offered|)
      && Consumed(s) + s.queue == s.offered
      && var open := if s.closed then s.interrupted else s.handling;
      if open.None? then s.finished + s.errors == |Consumed(s)|
      else s.finished + s.errors == |Consumed(s)| - 1 && Consumed(s)[|Consumed(s)| - 1] == open.value
  {
    hide Next, Enabled;
    EveryQueueIsSound(trace, steps, i);
    var s := trace[i].subs[j];
    assert Sound(s);
    assert forall k: nat :: k < s.Head() <==> k in s.consumedAt;
    AscendingRange(s.consumedAt, s.Head());
    assert Consumed(s) == s.offered[..s.Head()];
  }
}
