/** What the event log says about a position: filled once, closed at most once and only after its fill. */
module EventLog {
  import opened Domain
  import opened SimBroker
  import opened BrokerRuns

  /** The order that a ticket was last filled with. */
  function FillOf(events: seq<Event>, ticket: nat): Option<Order> {
    if events == [] then None
    else
      var last := events[|events| - 1];
      if last.OrderFilled? && last.order.ticket == ticket then Some(last.order)
      else FillOf(events[..|events| - 1], ticket)
  }

  predicate FilledIn(events: seq<Event>, ticket: nat) {
    FillOf(events, ticket).Some?
  }

  predicate ClosedIn(events: seq<Event>, ticket: nat) {
    events != [] &&
    var last := events[|events| - 1];
    (last.PositionClosed? && last.position.ticket == ticket) || ClosedIn(events[..|events| - 1], ticket)
  }

  /** Filled and not closed. */
  predicate LiveIn(events: seq<Event>, ticket: nat) {
    FilledIn(events, ticket) && !ClosedIn(events, ticket)
  }

  /** An event that may follow: a fill of a new ticket, a close of a live one, or neither. */
  predicate Follows(events: seq<Event>, e: Event) {
    match e
    case OrderFilled(order) => order.ticket != 0 && !FilledIn(events, order.ticket) && !ClosedIn(events, order.ticket)
    case PositionClosed(p, _, _) => LiveIn(events, p.ticket) && FillOf(events, p.ticket).value.symbol == p.symbol
    case _ => true
  }

  predicate Orderly(events: seq<Event>) {
    events == [] || (Orderly(events[..|events| - 1]) && Follows(events[..|events| - 1], events[|events| - 1]))
  }

  /** The live tickets are the open positions, and their fills name owner and symbol. */
  ghost predicate Told(events: seq<Event>, owner: map<nat, string>, symbol: map<nat, string>) {
    && Orderly(events)
    && forall k: nat ::
         && (k in symbol <==> LiveIn(events, k)) && (k in owner <==> LiveIn(events, k))
         && (LiveIn(events, k) ==>
               owner[k] == FillOf(events, k).value.strategyId && symbol[k] == FillOf(events, k).value.symbol)
  }

  lemma OneMore(events: seq<Event>, e: Event, ticket: nat)
    ensures FillOf(events + [e], ticket) ==
      if e.OrderFilled? && e.order.ticket == ticket then Some(e.order) else FillOf(events, ticket)
    ensures ClosedIn(events + [e], ticket)
       <==> ClosedIn(events, ticket) || (e.PositionClosed? && e.position.ticket == ticket)
    ensures Orderly(events + [e]) <==> Orderly(events) && Follows(events, e)
  {
    assert (events + [e])[..|events|] == events;
  }

  lemma {:induction false} ClosedIsCounted(events: seq<Event>, ticket: nat)
    ensures ClosedIn(events, ticket) <==> ticket in ClosedTickets(events)
  {
    if events != [] {
      ClosedIsCounted(events[..|events| - 1], ticket);
    }
  }

  /** An event that neither opens nor closes anything. */
  lemma QuietTold(events: seq<Event>, e: Event, owner: map<nat, string>, symbol: map<nat, string>)
    requires Told(events, owner, symbol) && !e.OrderFilled? && !e.PositionClosed?
    ensures Told(events + [e], owner, symbol)
  {
    hide FillOf, ClosedIn, Orderly;
    forall k: nat
      ensures LiveIn(events + [e], k) == LiveIn(events, k) && FillOf(events + [e], k) == FillOf(events, k)
    {
      OneMore(events, e, k);
    }
    OneMore(events, e, 0);
  }

  /** A fill of a ticket that was never open. */
  lemma FillTold(events: seq<Event>, e: Event, owner: map<nat, string>, symbol: map<nat, string>)
    requires Told(events, owner, symbol) && e.OrderFilled? && e.order.ticket != 0
    requires e.order.ticket !in symbol && e.order.ticket !in ClosedTickets(events)
    ensures
      var ticket := e.order.ticket;
      Told(events + [e], owner[ticket := e.order.strategyId], symbol[ticket := e.order.symbol])
  {
    hide FillOf, ClosedIn, Orderly, ClosedTickets;
    var ticket := e.order.ticket;
    ClosedIsCounted(events, ticket);
    forall k: nat
      ensures LiveIn(events + [e], k) <==> LiveIn(events, k) || k == ticket
      ensures FillOf(events + [e], k) == if k == ticket then Some(e.order) else FillOf(events, k)
    {
      OneMore(events, e, k);
    }
    OneMore(events, e, 0);
  }

  /** The close of an open position. */
  lemma CloseTold(events: seq<Event>, e: Event, owner: map<nat, string>, symbol: map<nat, string>)
    requires Told(events, owner, symbol) && e.PositionClosed? && e.position.ticket in symbol
    requires symbol[e.position.ticket] == e.position.symbol
    ensures Told(events + [e], owner - {e.position.ticket}, symbol - {e.position.ticket})
  {
    hide FillOf, ClosedIn, Orderly;
    var ticket := e.position.ticket;
    forall k: nat
      ensures LiveIn(events + [e], k) <==> LiveIn(events, k) && k != ticket
      ensures FillOf(events + [e], k) == FillOf(events, k)
    {
      OneMore(events, e, k);
    }
    OneMore(events, e, 0);
  }

  /** Earlier fills and closes are still there later. */
  lemma {:induction false} StaysTold(events: seq<Event>, n: nat, ticket: nat)
    requires n <= |events| && Orderly(events)
    ensures Orderly(events[..n])
    ensures FilledIn(events[..n], ticket) ==> FillOf(events, ticket) == FillOf(events[..n], ticket)
    ensures ClosedIn(events[..n], ticket) ==> ClosedIn(events, ticket)
    ensures ClosedIn(events, ticket) ==> FilledIn(events, ticket)
  {
    if events == [] {
      assert events[..n] == [];
    } else {
      var init := events[..|events| - 1];
      if n == |events| {
        assert events[..n] == events;
        StaysTold(init, |init|, ticket);
      } else {
        StaysTold(init, n, ticket);
        assert init[..n] == events[..n];
      }
    }
  }

  lemma AtIndex(events: seq<Event>, i: nat)
    requires Orderly(events) && i < |events|
    ensures Follows(events[..i], events[i])
    ensures events[i].OrderFilled? ==> FillOf(events, events[i].order.ticket) == Some(events[i].order)
    ensures events[i].PositionClosed? ==> ClosedIn(events, events[i].position.ticket)
  {
    hide FillOf, ClosedIn, Orderly, Follows;
    assert events[..i + 1] == events[..i] + [events[i]];
    var ticket := if events[i].OrderFilled? then events[i].order.ticket
                  else if events[i].PositionClosed? then events[i].position.ticket else 0;
    StaysTold(events, i + 1, ticket);
    OneMore(events[..i], events[i], ticket);
  }

  lemma Earlier(events: seq<Event>, i: nat, j: nat, ticket: nat)
    requires Orderly(events) && i < j < |events|
    ensures events[i].OrderFilled? && events[i].order.ticket == ticket ==> FilledIn(events[..j], ticket)
    ensures events[i].PositionClosed? && events[i].position.ticket == ticket ==> ClosedIn(events[..j], ticket)
  {
    hide FillOf, ClosedIn, Orderly, Follows;
    StaysTold(events, j, ticket);
    assert events[..j][i] == events[i];
    AtIndex(events[..j], i);
  }

  /** A ticket is filled once and closed once. */
  lemma OnlyOnce(events: seq<Event>, i: nat, j: nat)
    requires Orderly(events) && i < |events| && j < |events|
    requires
      || (events[i].OrderFilled? && events[j].OrderFilled? && events[i].order.ticket == events[j].order.ticket)
      || (events[i].PositionClosed? && events[j].PositionClosed?
          && events[i].position.ticket == events[j].position.ticket)
    ensures i == j
  {
    hide FillOf, ClosedIn, Orderly;
    if i != j {
      var first, second := if i < j then i else j, if i < j then j else i;
      var ticket := if events[i].OrderFilled? then events[i].order.ticket else events[i].position.ticket;
      AtIndex(events, second);
      Earlier(events, first, second, ticket);
    }
  }

  lemma {:induction false} FillIndex(events: seq<Event>, ticket: nat) returns (i: nat)
    requires FilledIn(events, ticket)
    ensures i < |events| && events[i].OrderFilled? && events[i].order.ticket == ticket
  {
    var n := |events| - 1;
    if events[n].OrderFilled? && events[n].order.ticket == ticket {
      i := n;
    } else {
      i := FillIndex(events[..n], ticket);
    }
  }

  lemma {:induction false} CloseIndex(events: seq<Event>, ticket: nat) returns (i: nat)
    requires ClosedIn(events, ticket)
    ensures i < |events| && events[i].PositionClosed? && events[i].position.ticket == ticket
  {
    var n := |events| - 1;
    if events[n].PositionClosed? && events[n].position.ticket == ticket {
      i := n;
    } else {
      i := CloseIndex(events[..n], ticket);
    }
  }

  // ---- Profits ---------------------------------------------------------------------------------------

  /** The profit that an event announces. */
  function ProfitOf(e: Event): real {
    match e
    case PositionClosed(_, pnl, _) => pnl
    case PartialClosed(_, _, pnl, _) => pnl
    case _ => 0.0
  }

  /** The profit that the events realise. */
  function ProfitIn(events: seq<Event>): real {
    if events == [] then 0.0 else ProfitIn(events[..|events| - 1]) + ProfitOf(events[|events| - 1])
  }

  lemma {:induction false} ProfitInBoth(early: seq<Event>, late: seq<Event>)
    ensures ProfitIn(early + late) == ProfitIn(early) + ProfitIn(late)
  {
    if late == [] {
      assert early + late == early;
    } else {
      var init, last := late[..|late| - 1], late[|late| - 1];
      ProfitInBoth(early, init);
      assert (early + late)[..|early + late| - 1] == early + init;
    }
  }

  lemma ProfitAppend(events: seq<Event>, e: Event)
    ensures ProfitIn(events + [e]) == ProfitIn(events) + ProfitOf(e)
  {
    assert (events + [e])[..|events|] == events;
  }
}
