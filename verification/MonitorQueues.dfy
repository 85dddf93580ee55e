/** The monitor behind the bus: fills and closes wait in two bounded queues with two consumers, so events may be evicted
    and a close may be handled before its fill. What is then left of the mirror. */
module MonitorQueues {
  import opened Domain
  import opened SimBroker
  import opened BrokerRuns
  import opened EventLog
  import opened RiskMonitor
  import opened OrderRouter
  import opened Engine
  import opened Backlog
  import opened OpeningRuns
  import Bus = EventBus
  import Lives

  /** The capacity that a subscription has when it asks for none. */
  const MAXSIZE: int := 1024

  /** How much of the log is published, the two queues, and the log indices in the order in which they were handled. */
  datatype Desk = Desk(published: nat, fills: Bus.Subscriber, closes: Bus.Subscriber, handled: seq<nat>)

  datatype Turn = PublishNext | HandleFill | HandleClose

  const EMPTY: Desk := Desk(0, Bus.NewSubscriber({"fill"}, Bus.DropOldest, MAXSIZE),
                            Bus.NewSubscriber({"close"}, Bus.DropOldest, MAXSIZE), [])

  predicate Enabled(log: seq<Event>, d: Desk, turn: Turn) {
    match turn
    case PublishNext => d.published < |log|
    case HandleFill => d.fills.queue != []
    case HandleClose => d.closes.queue != []
  }

  /** A handler of the monitor has no suspension point: what it takes it finishes. */
  function Served(s: Bus.Subscriber): Bus.Subscriber
    requires s.queue != []
  {
    Bus.Finish(Bus.Take(s), false)
  }

  function NextDesk(log: seq<Event>, d: Desk, turn: Turn): Desk
    requires Enabled(log, d, turn)
  {
    match turn
    case PublishNext =>
      var e, n := log[d.published], d.published;
      if e.OrderFilled? then d.(published := n + 1, fills := Bus.Offered(d.fills, Bus.Event("fill", n)))
      else if e.PositionClosed? then d.(published := n + 1, closes := Bus.Offered(d.closes, Bus.Event("close", n)))
      else d.(published := n + 1)
    case HandleFill => d.(fills := Served(d.fills), handled := d.handled + [d.fills.queue[0].id])
    case HandleClose => d.(closes := Served(d.closes), handled := d.handled + [d.closes.queue[0].id])
  }

  ghost predicate DeskRun(log: seq<Event>, trace: seq<Desk>, turns: seq<Turn>) {
    && |trace| == |turns| + 1 && trace[0] == EMPTY
    && forall i :: 0 <= i < |turns| ==>
         Enabled(log, trace[i], turns[i]) && trace[i + 1] == NextDesk(log, trace[i], turns[i])
  }

  // ---- The queues ------------------------------------------------------------------------------------

  predicate Concerns(e: Event, fills: bool) {
    if fills then e.OrderFilled? else e.PositionClosed?
  }

  ghost predicate OfferedTo(s: Bus.Subscriber, i: nat) {
    exists p :: 0 <= p < |s.offered| && s.offered[p].id == i
  }

  ghost predicate TakenBy(s: Bus.Subscriber, i: nat) {
    exists p :: p in s.consumedAt && p < |s.offered| && s.offered[p].id == i
  }

  ghost predicate EvictedBy(s: Bus.Subscriber, i: nat) {
    exists p :: p in s.evictedAt && p < |s.offered| && s.offered[p].id == i
  }

  /** A live queue that was offered exactly its kind of event, in the order of the log. */
  ghost predicate Subscribed(log: seq<Event>, n: nat, s: Bus.Subscriber, fills: bool) {
    && n <= |log| && Bus.Sound(s)
    && !s.closed && s.handling.None? && s.overflow == Bus.DropOldest && s.maxsize == MAXSIZE
    && (forall p :: 0 <= p < |s.offered| ==> s.offered[p].id < n && Concerns(log[s.offered[p].id], fills))
    && (forall p, q :: 0 <= p < q < |s.offered| ==> s.offered[p].id < s.offered[q].id)
    && (forall i :: 0 <= i < n && Concerns(log[i], fills) ==> OfferedTo(s, i))
  }

  lemma OfferKeeps(log: seq<Event>, n: nat, s: Bus.Subscriber, kind: string, fills: bool)
    requires Subscribed(log, n, s, fills) && n < |log| && Concerns(log[n], fills)
    ensures
      var s' := Bus.Offered(s, Bus.Event(kind, n));
      && Subscribed(log, n + 1, s', fills)
      && s'.consumedAt == s.consumedAt && s'.offered == s.offered + [Bus.Event(kind, n)]
  {
    hide Bus.Sound, Concerns;
    var e := Bus.Event(kind, n);
    Bus.NewestAlwaysEnters(s, e);
    var s' := Bus.Offered(s, e);
    assert s'.offered[|s.offered|].id == n;
    forall i | 0 <= i < n + 1 && Concerns(log[i], fills) ensures OfferedTo(s', i) {
      if i < n {
        assert OfferedTo(s, i);
        var p :| 0 <= p < |s.offered| && s.offered[p].id == i;
        assert s'.offered[p].id == i;
      }
    }
  }

  lemma SkipKeeps(log: seq<Event>, n: nat, s: Bus.Subscriber, fills: bool)
    requires Subscribed(log, n, s, fills) && n < |log| && !Concerns(log[n], fills)
    ensures Subscribed(log, n + 1, s, fills)
  {
    hide Bus.Sound, Concerns, OfferedTo;
  }

  lemma ServeKeeps(log: seq<Event>, n: nat, s: Bus.Subscriber, fills: bool)
    requires Subscribed(log, n, s, fills) && s.queue != []
    ensures Subscribed(log, n, Served(s), fills)
    ensures s.queue[0].id < n && Concerns(log[s.queue[0].id], fills) && !TakenBy(s, s.queue[0].id)
    ensures forall i: nat :: TakenBy(Served(s), i) <==> TakenBy(s, i) || i == s.queue[0].id
  {
    Bus.TakeKeeps(s);
    Bus.FinishKeeps(Bus.Take(s), false);
    var head := s.Head();
    assert s.offered[head] == s.queue[0] && Served(s).consumedAt == s.consumedAt + [head];
    assert head in Served(s).consumedAt;
    forall i: nat ensures TakenBy(Served(s), i) <==> TakenBy(s, i) || i == s.queue[0].id {
      if TakenBy(s, i) {
        var p :| p in s.consumedAt && p < |s.offered| && s.offered[p].id == i;
        assert p in Served(s).consumedAt;
      }
    }
    SameOffers(log, n, s, Served(s), fills);
  }

  lemma SameOffers(log: seq<Event>, n: nat, s: Bus.Subscriber, s': Bus.Subscriber, fills: bool)
    requires Subscribed(log, n, s, fills) && Bus.Sound(s') && s'.offered == s.offered
    requires !s'.closed && s'.handling.None? && s'.overflow == s.overflow && s'.maxsize == s.maxsize
    ensures Subscribed(log, n, s', fills)
  {
    hide Bus.Sound, Concerns;
    forall i | 0 <= i < n && Concerns(log[i], fills) ensures OfferedTo(s', i) {
      assert OfferedTo(s, i);
    }
  }

  /** An empty queue has handled exactly what it did not evict. */
  lemma DrainedQueue(log: seq<Event>, n: nat, s: Bus.Subscriber, fills: bool, i: nat)
    requires Subscribed(log, n, s, fills) && s.queue == [] && i < n && Concerns(log[i], fills)
    ensures TakenBy(s, i) <==> !EvictedBy(s, i)
  {
    hide Concerns;
    assert OfferedTo(s, i);
    var p :| 0 <= p < |s.offered| && s.offered[p].id == i;
    assert p < s.Head();
    assert forall q :: 0 <= q < |s.offered| && s.offered[q].id == i ==> q == p;
  }

  /** Nothing is evicted before the backlog is full. */
  lemma NoEvictionWithin(log: seq<Event>, n: nat, s: Bus.Subscriber, fills: bool, i: nat)
    requires Subscribed(log, n, s, fills) && |s.offered| <= MAXSIZE
    ensures !EvictedBy(s, i)
  {
  }

  // ---- The desk --------------------------------------------------------------------------------------

  ghost predicate HandledByQueue(log: seq<Event>, d: Desk, s: Bus.Subscriber, fills: bool)
    requires d.published <= |log|
  {
    forall i: nat :: i < d.published && Concerns(log[i], fills) ==> (i in d.handled <==> TakenBy(s, i))
  }

  /** Each event was handled at most once, and just those that its queue has given out. */
  ghost predicate DeskSound(log: seq<Event>, d: Desk) {
    && Subscribed(log, d.published, d.fills, true) && Subscribed(log, d.published, d.closes, false)
    && Distinct(d.handled)
    && (forall i :: i in d.handled ==> i < d.published && (log[i].OrderFilled? || log[i].PositionClosed?))
    && HandledByQueue(log, d, d.fills, true) && HandledByQueue(log, d, d.closes, false)
  }

  lemma PublishKeeps(log: seq<Event>, d: Desk)
    requires DeskSound(log, d) && Enabled(log, d, PublishNext)
    ensures DeskSound(log, NextDesk(log, d, PublishNext))
  {
    hide Subscribed, Bus.Offered, TakenBy;
    var n, d' := d.published, NextDesk(log, d, PublishNext);
    if log[n].OrderFilled? {
      OfferKeeps(log, n, d.fills, "fill", true);
      SkipKeeps(log, n, d.closes, false);
    } else if log[n].PositionClosed? {
      OfferKeeps(log, n, d.closes, "close", false);
      SkipKeeps(log, n, d.fills, true);
    } else {
      SkipKeeps(log, n, d.fills, true);
      SkipKeeps(log, n, d.closes, false);
    }
    NotYetTaken(log, n, d.fills, d'.fills, true);
    NotYetTaken(log, n, d.closes, d'.closes, false);
  }

  /** Publishing changes nothing about what was taken, and what is being published was not. */
  lemma NotYetTaken(log: seq<Event>, n: nat, s: Bus.Subscriber, s': Bus.Subscriber, fills: bool)
    requires Subscribed(log, n, s, fills) && s'.consumedAt == s.consumedAt
    requires s'.offered == s.offered || (|s'.offered| == |s.offered| + 1 && s'.offered[..|s.offered|] == s.offered)
    ensures forall i :: TakenBy(s', i) <==> TakenBy(s, i)
    ensures !TakenBy(s, n)
  {
    forall i ensures TakenBy(s', i) <==> TakenBy(s, i) {
      assert forall p :: p in s.consumedAt ==> p < s.Head();
      assert forall p :: 0 <= p < |s.offered| ==> s'.offered[p] == s.offered[p];
    }
  }

  lemma ServingKeeps(log: seq<Event>, d: Desk, turn: Turn)
    requires DeskSound(log, d) && Enabled(log, d, turn) && !turn.PublishNext?
    ensures DeskSound(log, NextDesk(log, d, turn))
  {
    hide Subscribed, TakenBy, Served;
    var fills := turn.HandleFill?;
    var queue := if fills then d.fills else d.closes;
    ServeKeeps(log, d.published, queue, fills);
    var i := queue.queue[0].id;
    assert i !in d.handled;
    DistinctAppend(d.handled, i);
  }

  lemma DistinctAppend(xs: seq<nat>, x: nat)
    requires Distinct(xs) && x !in xs
    ensures Distinct(xs + [x])
  {
  }

  lemma {:induction false} DeskStaysSound(log: seq<Event>, trace: seq<Desk>, turns: seq<Turn>, i: nat)
    requires DeskRun(log, trace, turns) && i <= |turns|
    ensures DeskSound(log, trace[i])
  {
    hide DeskSound, NextDesk, Enabled;
    if i == 0 {
      EmptySound(log);
    } else {
      DeskStaysSound(log, trace, turns, i - 1);
      if turns[i - 1].PublishNext? {
        PublishKeeps(log, trace[i - 1]);
      } else {
        ServingKeeps(log, trace[i - 1], turns[i - 1]);
      }
    }
  }

  lemma EmptySound(log: seq<Event>)
    ensures DeskSound(log, EMPTY)
  {
    Bus.NewIsSound({"fill"}, Bus.DropOldest, MAXSIZE);
    Bus.NewIsSound({"close"}, Bus.DropOldest, MAXSIZE);
  }

  // ---- Counting in any order -------------------------------------------------------------------------

  predicate Within(h: seq<nat>, n: nat) {
    forall a :: 0 <= a < |h| ==> h[a] < n
  }

  /** The events at these indices, in this order. */
  function Picked(log: seq<Event>, h: seq<nat>): seq<Event>
    requires Within(h, |log|)
  {
    if h == [] then [] else Picked(log, h[..|h| - 1]) + [log[h[|h| - 1]]]
  }

  predicate FillsAt(log: seq<Event>, i: nat, ticket: nat) {
    i < |log| && log[i].OrderFilled? && log[i].order.ticket == ticket
  }

  predicate ClosesAt(log: seq<Event>, i: nat, ticket: nat) {
    i < |log| && log[i].PositionClosed? && log[i].position.ticket == ticket
  }

  /** Its fill was handled, and no close of it later. */
  ghost predicate Kept(log: seq<Event>, h: seq<nat>, ticket: nat) {
    exists a :: 0 <= a < |h| && FillsAt(log, h[a], ticket) && NoCloseFrom(log, h, a, ticket)
  }

  ghost predicate NoCloseFrom(log: seq<Event>, h: seq<nat>, a: nat, ticket: nat) {
    forall b :: a < b < |h| ==> !ClosesAt(log, h[b], ticket)
  }

  lemma KeptAppend(log: seq<Event>, h: seq<nat>, i: nat, ticket: nat)
    ensures Kept(log, h + [i], ticket)
       <==> FillsAt(log, i, ticket) || (Kept(log, h, ticket) && !ClosesAt(log, i, ticket))
  {
    var more := h + [i];
    if FillsAt(log, i, ticket) {
      assert more[|h|] == i && NoCloseFrom(log, more, |h|, ticket);
    } else if Kept(log, more, ticket) {
      var a :| 0 <= a < |more| && FillsAt(log, more[a], ticket) && NoCloseFrom(log, more, a, ticket);
      assert a < |h| && more[|h|] == i;
      assert forall b :: 0 <= b < |h| ==> more[b] == h[b];
      assert FillsAt(log, h[a], ticket) && NoCloseFrom(log, h, a, ticket);
    }
    if Kept(log, h, ticket) && !ClosesAt(log, i, ticket) {
      var a :| 0 <= a < |h| && FillsAt(log, h[a], ticket) && NoCloseFrom(log, h, a, ticket);
      assert more[a] == h[a] && NoCloseFrom(log, more, a, ticket);
    }
  }

  /** What is left open in the order handled, with the owner and symbol of the fill. */
  lemma {:induction false} KeptIsLate(log: seq<Event>, h: seq<nat>, ticket: nat)
    requires Orderly(log) && Within(h, |log|)
    ensures
      var picks := Picked(log, h);
      && (ticket in LateOwners(picks) <==> Kept(log, h, ticket))
      && (ticket in LateSymbols(picks) <==> Kept(log, h, ticket))
      && (Kept(log, h, ticket) ==>
            && FilledIn(log, ticket)
            && LateOwners(picks)[ticket] == FillOf(log, ticket).value.strategyId
            && LateSymbols(picks)[ticket] == FillOf(log, ticket).value.symbol)
  {
    hide Orderly, FillOf, ClosedIn, Kept;
    if h == [] {
      NothingKept(log, ticket);
    } else {
      var init, i := h[..|h| - 1], h[|h| - 1];
      assert h == init + [i];
      KeptIsLate(log, init, ticket);
      KeptAppend(log, init, i, ticket);
      AtIndex(log, i);
      LateAppend(Picked(log, init), log[i]);
    }
  }

  lemma NothingKept(log: seq<Event>, ticket: nat)
    ensures !Kept(log, [], ticket)
  {
  }

  lemma LateAppend(events: seq<Event>, e: Event)
    ensures LateOwners(events + [e]) == OwnersAfter(LateOwners(events), e)
    ensures LateSymbols(events + [e]) == SymbolsAfter(LateSymbols(events), e)
    ensures forall c :: CountOn(c, events + [e]) == CountEvent(CountOn(c, events), e)
  {
    assert (events + [e])[..|events|] == events;
  }

  const NOTHING: Books := Opening(0.0, 0)

  lemma NewTicket(log: seq<Event>, h: seq<nat>, i: nat)
    requires Orderly(log) && Within(h, |log|) && Distinct(h + [i]) && i < |log| && log[i].OrderFilled?
    ensures log[i].order.ticket != 0 && !Kept(log, h, log[i].order.ticket)
  {
    hide Orderly, FillOf, ClosedIn;
    assert (h + [i])[|h|] == i;
    AtIndex(log, i);
    var ticket := log[i].order.ticket;
    if Kept(log, h, ticket) {
      var a :| 0 <= a < |h| && FillsAt(log, h[a], ticket) && NoCloseFrom(log, h, a, ticket);
      assert (h + [i])[a] == h[a];
      OnlyOnce(log, h[a], i);
    }
  }

  /** In whatever order and with whatever lost: the ticket map is what was kept, and each strategy's counter is the
      number of tickets that the map gives it. */
  lemma {:induction false} CountersFollowTicketMap(log: seq<Event>, h: seq<nat>, sid: string)
    requires Orderly(log) && Within(h, |log|) && Distinct(h)
    ensures
      var c, late := CountOn(FRESH.counts, Picked(log, h)), LateOwners(Picked(log, h));
      OwnersWithLate(c.owner, NOTHING, late) && GetOr(c.byStrategy, sid, 0) == |KeysOf(late, sid)|
  {
    hide Orderly, LateOwners, LateSymbols, CountOn, Kept, CountEvent, OwnersAfter, OwnersWithLate, KeysOf;
    if h == [] {
      NothingCounted(FRESH.counts);
      NoneLateYet(FRESH.counts, NOTHING);
    } else {
      var init, i := h[..|h| - 1], h[|h| - 1];
      assert h == init + [i];
      var c, late := CountOn(FRESH.counts, Picked(log, init)), LateOwners(Picked(log, init));
      CountersFollowTicketMap(log, init, sid);
      LateAppend(Picked(log, init), log[i]);
      if log[i].OrderFilled? {
        NewTicket(log, init, i);
        KeptIsLate(log, init, log[i].order.ticket);
      }
      OwnersStep(c, NOTHING, late, log[i]);
      NothingCounted(c);
      StrategyStep(c, NOTHING, late, log[i], sid);
    }
  }

  /** Every close was handled after its fill. */
  ghost predicate ClosesFollow(log: seq<Event>, h: seq<nat>)
    requires Within(h, |log|)
  {
    forall b :: 0 <= b < |h| && log[h[b]].PositionClosed? ==> FilledBefore(log, h, b, log[h[b]].position.ticket)
  }

  ghost predicate FilledBefore(log: seq<Event>, h: seq<nat>, b: nat, ticket: nat) {
    exists a :: 0 <= a < b && a < |h| && FillsAt(log, h[a], ticket)
  }

  lemma StillKept(log: seq<Event>, h: seq<nat>, i: nat)
    requires Orderly(log) && Within(h, |log|) && Distinct(h + [i]) && i < |log| && log[i].PositionClosed?
    requires Within(h + [i], |log|) && ClosesFollow(log, h + [i])
    ensures Kept(log, h, log[i].position.ticket) && ClosesFollow(log, h)
    ensures FilledIn(log, log[i].position.ticket)
      && FillOf(log, log[i].position.ticket).value.symbol == log[i].position.symbol
  {
    hide Orderly, FillOf, ClosedIn, Follows;
    var more, ticket := h + [i], log[i].position.ticket;
    assert more[|h|] == i;
    assert FilledBefore(log, more, |h|, ticket);
    var a :| 0 <= a < |h| && a < |more| && FillsAt(log, more[a], ticket);
    assert more[a] == h[a];
    forall b | a < b < |h| ensures !ClosesAt(log, h[b], ticket) {
      if ClosesAt(log, h[b], ticket) {
        assert more[b] == h[b];
        OnlyOnce(log, h[b], i);
      }
    }
    assert NoCloseFrom(log, h, a, ticket);
    EarlierFollows(log, h, i);
    AtIndex(log, i);
    FollowsFill(log[..i], log[i]);
    StaysTold(log, i, ticket);
  }

  lemma EarlierFollows(log: seq<Event>, h: seq<nat>, i: nat)
    requires Within(h, |log|) && Within(h + [i], |log|) && ClosesFollow(log, h + [i])
    ensures ClosesFollow(log, h)
  {
    var more := h + [i];
    assert forall b :: 0 <= b < |h| ==> more[b] == h[b];
    forall b | 0 <= b < |h| && log[h[b]].PositionClosed? ensures FilledBefore(log, h, b, log[h[b]].position.ticket) {
      assert FilledBefore(log, more, b, log[more[b]].position.ticket);
      var a :| 0 <= a < b && a < |more| && FillsAt(log, more[a], log[more[b]].position.ticket);
      assert FillsAt(log, h[a], log[h[b]].position.ticket);
    }
  }

  /** Then each symbol's counter is exact too: the floor at zero is never met. */
  lemma {:induction false} SymbolsFollow(log: seq<Event>, h: seq<nat>, symbol: string)
    requires Orderly(log) && Within(h, |log|) && Distinct(h) && ClosesFollow(log, h)
    ensures GetOr(CountOn(FRESH.counts, Picked(log, h)).bySymbol, symbol, 0)
         == |KeysOf(LateSymbols(Picked(log, h)), symbol)|
  {
    hide Orderly, LateOwners, LateSymbols, CountOn, Kept, CountEvent, SymbolsAfter, KeysOf, ClosesFollow, FillOf,
      ClosedIn;
    if h == [] {
      NothingCounted(FRESH.counts);
    } else {
      var init, i := h[..|h| - 1], h[|h| - 1];
      assert h == init + [i];
      var c, late := CountOn(FRESH.counts, Picked(log, init)), LateSymbols(Picked(log, init));
      EarlierFollows(log, init, i);
      SymbolsFollow(log, init, symbol);
      LateAppend(Picked(log, init), log[i]);
      if log[i].OrderFilled? {
        NewTicket(log, init, i);
        KeptIsLate(log, init, log[i].order.ticket);
      } else if log[i].PositionClosed? {
        StillKept(log, init, i);
        KeptIsLate(log, init, log[i].position.ticket);
      }
      SymbolStep(c, 0, 0, late, log[i], symbol);
    }
  }

  // ---- What is left of the mirror --------------------------------------------------------------------

  /** Everything is published and both queues are empty. */
  predicate Drained(log: seq<Event>, d: Desk) {
    d.published == |log| && d.fills.queue == [] && d.closes.queue == []
  }

  ghost predicate ClosedAfter(log: seq<Event>, h: seq<nat>, i: nat, ticket: nat) {
    exists a, b :: 0 <= a < b < |h| && h[a] == i && ClosesAt(log, h[b], ticket)
  }

  /** The fills of the open positions got through; every other fill was evicted, or its close was handled after it. */
  ghost predicate GotThrough(b: Books, d: Desk) {
    forall i: nat :: i < |b.events| && b.events[i].OrderFilled? ==> FillGotThrough(b, d, i)
  }

  ghost predicate FillGotThrough(b: Books, d: Desk, i: nat)
    requires i < |b.events| && b.events[i].OrderFilled?
  {
    var ticket := b.events[i].order.ticket;
    if ticket in b.positions then !EvictedBy(d.fills, i)
    else EvictedBy(d.fills, i) || ClosedAfter(b.events, d.handled, i, ticket)
  }

  lemma HandledIffNotEvicted(log: seq<Event>, d: Desk, i: nat)
    requires DeskSound(log, d) && Drained(log, d) && i < |log|
    ensures log[i].OrderFilled? ==> (i in d.handled <==> !EvictedBy(d.fills, i))
    ensures log[i].PositionClosed? ==> (i in d.handled <==> !EvictedBy(d.closes, i))
  {
    hide Subscribed, TakenBy, EvictedBy;
    if log[i].OrderFilled? {
      DrainedQueue(log, |log|, d.fills, true, i);
    } else if log[i].PositionClosed? {
      DrainedQueue(log, |log|, d.closes, false, i);
    }
  }

  lemma DeskWithin(log: seq<Event>, d: Desk)
    requires DeskSound(log, d)
    ensures Within(d.handled, |log|)
  {
    hide Bus.Sound, Concerns, OfferedTo, TakenBy;
    forall a | 0 <= a < |d.handled| ensures d.handled[a] < |log| {
      assert d.handled[a] in d.handled;
    }
  }

  /** One fill: its ticket is kept exactly when it was not evicted and no close of it was handled later. */
  lemma KeptByFill(log: seq<Event>, h: seq<nat>, i: nat)
    requires Orderly(log) && Within(h, |log|) && Distinct(h) && i < |log| && log[i].OrderFilled?
    ensures
      var ticket := log[i].order.ticket;
      Kept(log, h, ticket) <==> i in h && !ClosedAfter(log, h, i, ticket)
  {
    hide Orderly, FillOf, ClosedIn;
    var ticket := log[i].order.ticket;
    if Kept(log, h, ticket) {
      var a :| 0 <= a < |h| && FillsAt(log, h[a], ticket) && NoCloseFrom(log, h, a, ticket);
      OnlyOnce(log, h[a], i);
    }
    if i in h && !ClosedAfter(log, h, i, ticket) {
      var a :| 0 <= a < |h| && h[a] == i;
      assert NoCloseFrom(log, h, a, ticket);
    }
  }

  lemma OpenIsNeverClosed(b: Books, h: seq<nat>, i: nat)
    requires ToldBooks(b) && Within(h, |b.events|) && i < |b.events| && b.events[i].OrderFilled?
    requires b.events[i].order.ticket in b.positions
    ensures !ClosedAfter(b.events, h, i, b.events[i].order.ticket)
  {
    hide FillOf, ClosedIn, Orderly;
    var ticket := b.events[i].order.ticket;
    assert LiveIn(b.events, ticket) by { assert ticket in SymbolOf(b); }
    forall c | 0 <= c < |h| ensures !ClosesAt(b.events, h[c], ticket) {
      if ClosesAt(b.events, h[c], ticket) {
        AtIndex(b.events, h[c]);
      }
    }
  }

  /** For one ticket: the ticket map is right about it exactly when its fill got through. */
  lemma TicketRightIff(b: Books, d: Desk, i: nat)
    requires ToldBooks(b) && DeskSound(b.events, d) && Drained(b.events, d)
    requires i < |b.events| && b.events[i].OrderFilled?
    ensures
      var ticket := b.events[i].order.ticket;
      (Kept(b.events, d.handled, ticket) <==> ticket in b.positions) <==> FillGotThrough(b, d, i)
  {
    hide Subscribed, TakenBy, EvictedBy, Kept, ClosedAfter, Told, HandledByQueue;
    DeskWithin(b.events, d);
    HandledIffNotEvicted(b.events, d, i);
    assert Orderly(b.events) by { ToldIsOrderly(b); }
    KeptByFill(b.events, d.handled, i);
    if b.events[i].order.ticket in b.positions {
      OpenIsNeverClosed(b, d.handled, i);
    }
  }

  lemma ToldIsOrderly(b: Books)
    requires ToldBooks(b)
    ensures Orderly(b.events)
    ensures forall k: nat :: k in b.positions <==> LiveIn(b.events, k)
    ensures forall k: nat :: k in b.strategyOf <==> LiveIn(b.events, k)
    ensures forall k: nat :: k in b.positions ==> b.strategyOf[k] == FillOf(b.events, k).value.strategyId
    ensures forall k: nat :: k in b.positions ==> b.positions[k].symbol == FillOf(b.events, k).value.symbol
  {
    hide Orderly, FillOf, ClosedIn;
    assert forall k :: k in b.positions ==> k in SymbolOf(b) && SymbolOf(b)[k] == b.positions[k].symbol;
  }

  lemma KeptWasFilled(log: seq<Event>, h: seq<nat>, ticket: nat)
    requires Kept(log, h, ticket)
    ensures exists i: nat :: FillsAt(log, i, ticket)
  {
  }

  lemma OpenWasFilled(b: Books, ticket: nat)
    requires ToldBooks(b) && ticket in b.positions
    ensures exists i: nat :: FillsAt(b.events, i, ticket)
  {
    hide Orderly, FillOf, ClosedIn, Told;
    ToldIsOrderly(b);
    var i := FillIndex(b.events, ticket);
    assert FillsAt(b.events, i, ticket);
  }

  /** The tickets kept are the open ones exactly when every fill got through. */
  lemma KeptIsOpenIff(b: Books, d: Desk)
    requires ToldBooks(b) && DeskSound(b.events, d) && Drained(b.events, d)
    ensures (forall k: nat :: Kept(b.events, d.handled, k) <==> k in b.positions) <==> GotThrough(b, d)
  {
    hide Subscribed, TakenBy, EvictedBy, Kept, ToldBooks, HandledByQueue, FillGotThrough;
    forall i: nat | i < |b.events| && b.events[i].OrderFilled?
      ensures (Kept(b.events, d.handled, b.events[i].order.ticket) <==> b.events[i].order.ticket in b.positions)
         <==> FillGotThrough(b, d, i)
    {
      TicketRightIff(b, d, i);
    }
    if GotThrough(b, d) {
      forall k: nat ensures Kept(b.events, d.handled, k) <==> k in b.positions {
        if Kept(b.events, d.handled, k) || k in b.positions {
          if k in b.positions {
            OpenWasFilled(b, k);
          } else {
            KeptWasFilled(b.events, d.handled, k);
          }
          var i: nat :| FillsAt(b.events, i, k);
          assert FillGotThrough(b, d, i);
        }
      }
    }
  }

  /** The counters of the monitor behind its queues. */
  function CountsAt(log: seq<Event>, d: Desk): Counts
    requires Within(d.handled, |log|)
  {
    CountOn(FRESH.counts, Picked(log, d.handled))
  }

  /** Once everything published was handled or evicted: the ticket map is the broker's exactly when the fills of the
      open positions got through and every other fill was evicted or followed by its close. The strategy counters are
      then the broker's as well. */
  lemma OwnersMirrorIff(b: Books, trace: seq<Desk>, turns: seq<Turn>)
    requires ToldBooks(b) && DeskRun(b.events, trace, turns) && Drained(b.events, trace[|turns|])
    ensures Within(trace[|turns|].handled, |b.events|)
    ensures
      var d := trace[|turns|];
      var c := CountsAt(b.events, d);
      && (OwnersAgree(c.owner, b) <==> GotThrough(b, d))
      && (GotThrough(b, d) ==> CountsKeys(c.byStrategy, b.strategyOf))
  {
    hide NextDesk, Enabled, Subscribed, HandledByQueue, Kept, LateOwners, LateSymbols, CountOn, GotThrough, FillOf,
      ClosedIn, Orderly, KeysOf, ToldBooks;
    var d := trace[|turns|];
    DeskStaysSound(b.events, trace, turns, |turns|);
    DeskWithin(b.events, d);
    ToldIsOrderly(b);
    KeptIsOpenIff(b, d);
    var late := LateOwners(Picked(b.events, d.handled));
    forall k: nat
      ensures k in late <==> Kept(b.events, d.handled, k)
      ensures k in late && k in b.positions ==> late[k] == b.strategyOf[k]
    {
      KeptIsLate(b.events, d.handled, k);
    }
    forall sid
      ensures OwnersWithLate(CountsAt(b.events, d).owner, NOTHING, late)
      ensures GetOr(CountsAt(b.events, d).byStrategy, sid, 0) == |KeysOf(late, sid)|
    {
      CountersFollowTicketMap(b.events, d.handled, sid);
    }
    CountersFollowTicketMap(b.events, d.handled, "");
    OwnersAgreeIffSame(CountsAt(b.events, d).owner, late, b);
    if GotThrough(b, d) {
      assert late == b.strategyOf;
    }
  }

  lemma OwnersAgreeIffSame(owner: map<TicketKey, string>, late: map<nat, string>, b: Books)
    requires OwnersWithLate(owner, NOTHING, late)
    requires forall k :: k in late && k in b.strategyOf ==> late[k] == b.strategyOf[k]
    ensures OwnersAgree(owner, b) <==> forall k: nat :: k in late <==> k in b.strategyOf
  {
    forall k: nat ensures (ACCOUNT, k) in owner <==> k in late {
    }
  }

  /** With nothing evicted and every close handled after its fill, all the counters are the broker's. */
  lemma AllHandledMirrors(b: Books, trace: seq<Desk>, turns: seq<Turn>)
    requires ToldBooks(b) && DeskRun(b.events, trace, turns) && Drained(b.events, trace[|turns|])
    requires Within(trace[|turns|].handled, |b.events|) && ClosesFollow(b.events, trace[|turns|].handled)
    requires forall i: nat :: !EvictedBy(trace[|turns|].fills, i) && !EvictedBy(trace[|turns|].closes, i)
    ensures Agrees(CountsAt(b.events, trace[|turns|]), b)
  {
    hide NextDesk, Enabled, Subscribed, HandledByQueue, Kept, LateOwners, LateSymbols, CountOn, FillOf, ClosedIn,
      Orderly, KeysOf, ToldBooks, EvictedBy, ClosesFollow, TakenBy;
    var d := trace[|turns|];
    DeskStaysSound(b.events, trace, turns, |turns|);
    ToldIsOrderly(b);
    forall i: nat | i < |b.events| && b.events[i].OrderFilled? ensures FillGotThrough(b, d, i) {
      ClosedAfterAll(b, d, i);
    }
    OwnersMirrorIff(b, trace, turns);
    KeptIsOpenIff(b, d);
    var late := LateSymbols(Picked(b.events, d.handled));
    forall k: nat
      ensures k in late <==> k in b.positions
      ensures k in b.positions && k in late ==> late[k] == b.positions[k].symbol
    {
      KeptIsLate(b.events, d.handled, k);
    }
    assert late == SymbolOf(b);
    forall symbol ensures GetOr(CountsAt(b.events, d).bySymbol, symbol, 0) == |KeysOf(late, symbol)| {
      SymbolsFollow(b.events, d.handled, symbol);
    }
  }

  lemma ClosedAfterAll(b: Books, d: Desk, i: nat)
    requires ToldBooks(b) && DeskSound(b.events, d) && Drained(b.events, d) && Within(d.handled, |b.events|)
    requires ClosesFollow(b.events, d.handled)
    requires forall i: nat :: !EvictedBy(d.fills, i) && !EvictedBy(d.closes, i)
    requires i < |b.events| && b.events[i].OrderFilled?
    ensures FillGotThrough(b, d, i)
  {
    hide Subscribed, HandledByQueue, FillOf, Orderly, ToldBooks, EvictedBy, TakenBy, ClosedIn;
    var ticket := b.events[i].order.ticket;
    ToldIsOrderly(b);
    AtIndex(b.events, i);
    if ticket !in b.positions {
      var j := CloseIndex(b.events, ticket);
      HandledIffNotEvicted(b.events, d, j);
      var c :| 0 <= c < |d.handled| && d.handled[c] == j;
      assert FilledBefore(b.events, d.handled, c, ticket);
      var a :| 0 <= a < c && a < |d.handled| && FillsAt(b.events, d.handled[a], ticket);
      OnlyOnce(b.events, d.handled[a], i);
      assert ClosesAt(b.events, d.handled[c], ticket);
    }
  }

  /** A burst of more fills than the queue holds loses the first one. */
  lemma BurstEvicts(log: seq<Event>, trace: seq<Desk>, turns: seq<Turn>, i: nat)
    requires DeskRun(log, trace, turns) && i <= |turns|
    requires trace[i].handled == [] && |trace[i].fills.offered| > MAXSIZE
    ensures EvictedBy(trace[i].fills, trace[i].fills.offered[0].id)
  {
    hide NextDesk, Enabled;
    DeskStaysSound(log, trace, turns, i);
    var s := trace[i].fills;
    assert 0 < s.Head();
    assert !TakenBy(s, s.offered[0].id);
  }

  /** And a close handled before its fill leaves an owner for a position that is gone. */
  lemma PhantomOwner() returns (b: Books, trace: seq<Desk>, turns: seq<Turn>)
    ensures ToldBooks(b) && b.positions == map[]
    ensures DeskRun(b.events, trace, turns) && Drained(b.events, trace[|turns|])
    ensures forall i: nat :: !EvictedBy(trace[|turns|].fills, i) && !EvictedBy(trace[|turns|].closes, i)
    ensures Within(trace[|turns|].handled, |b.events|) && (ACCOUNT, 1) in CountsAt(b.events, trace[|turns|]).owner
  {
    hide Played, ToldBooks, CountOn, LateOwners, LateSymbols, Orderly, FillOf, ClosedIn, Kept, NextDesk, Enabled;
    var worlds, moves, filled, shown := Sold();
    b := worlds[|moves|].engine.books;
    SoldIsTold(worlds, moves);
    ToldIsOrderly(b);
    var log := b.events;
    trace, turns := CloseFirst(log);
    FilledAsOne(b);
    KeptByFill(log, [2, 1], 1);
    KeptIsLate(log, [2, 1], 1);
    CountersFollowTicketMap(log, [2, 1], "trend");
  }

  lemma CloseFirst(log: seq<Event>) returns (trace: seq<Desk>, turns: seq<Turn>)
    requires |log| == 4 && log[0].DecisionMade? && log[1].OrderFilled? && log[2].PositionClosed?
    requires log[3].BacktestTradeClosed?
    ensures DeskRun(log, trace, turns) && Drained(log, trace[|turns|]) && trace[|turns|].handled == [2, 1]
    ensures trace[|turns|].fills.evictedAt == [] == trace[|turns|].closes.evictedAt
  {
    turns := [PublishNext, PublishNext, PublishNext, PublishNext, HandleClose, HandleFill];
    var d0 := EMPTY;
    var d1 := NextDesk(log, d0, turns[0]);
    var d2 := NextDesk(log, d1, turns[1]);
    var d3 := NextDesk(log, d2, turns[2]);
    var d4 := NextDesk(log, d3, turns[3]);
    var d5 := NextDesk(log, d4, turns[4]);
    var d6 := NextDesk(log, d5, turns[5]);
    trace := [d0, d1, d2, d3, d4, d5, d6];
  }

  lemma SoldIsTold(worlds: seq<Lives.World>, moves: seq<Lives.Move>)
    requires Played(Paying(0.0), map[], worlds, moves) && |worlds| == |moves| + 1
    ensures ToldBooks(worlds[|moves|].engine.books)
  {
    hide Told, Agrees, Sound;
    Lives.BooksStaySound(Paying(0.0), map[], worlds, moves, 100.0, 0, |moves|);
  }

  lemma FilledAsOne(b: Books)
    requires ToldBooks(b) && |b.events| == 4 && b.events[0].DecisionMade? && b.events[1].OrderFilled?
    requires b.events[2].PositionClosed? && b.events[2].position.ticket == 1
    ensures b.events[1].order.ticket == 1
  {
    hide Orderly;
    ToldIsOrderly(b);
    AtIndex(b.events, 2);
    var i := FillIndex(b.events[..2], 1);
  }
}
