/** A monitor rehydrated while events are still queued: what it counts twice, and what it takes off in error. */
module Backlog {
  import opened Domain
  import opened UtcTime
  import opened SimBroker
  import opened BrokerRuns
  import opened EventLog
  import opened RiskMonitor
  import opened OrderRouter
  import opened Engine
  import opened TradeLog
  import opened Restart

  // ---- Counting on from given counters ---------------------------------------------------------

  function OwnersAfter(owners: map<nat, string>, e: Event): map<nat, string> {
    match e
    case OrderFilled(order) => owners[order.ticket := order.strategyId]
    case PositionClosed(p, _, _) => owners - {p.ticket}
    case _ => owners
  }

  function SymbolsAfter(symbols: map<nat, string>, e: Event): map<nat, string> {
    match e
    case OrderFilled(order) => symbols[order.ticket := order.symbol]
    case PositionClosed(p, _, _) => symbols - {p.ticket}
    case _ => symbols
  }

  /** The tickets filled and not closed among the events, with their owners. */
  function LateOwners(events: seq<Event>): map<nat, string> {
    if events == [] then map[] else OwnersAfter(LateOwners(events[..|events| - 1]), events[|events| - 1])
  }

  /** The same with their symbols. */
  function LateSymbols(events: seq<Event>): map<nat, string> {
    if events == [] then map[] else SymbolsAfter(LateSymbols(events[..|events| - 1]), events[|events| - 1])
  }

  /** The closes among the events whose fill is not among them. */
  function OldCloses(events: seq<Event>, symbol: string): nat {
    if events == [] then 0
    else
      var init, last := events[..|events| - 1], events[|events| - 1];
      OldCloses(init, symbol)
        + Count(last.PositionClosed? && last.position.symbol == symbol && !LiveIn(init, last.position.ticket))
  }

  lemma {:induction false} InBoth(early: seq<Event>, late: seq<Event>, ticket: nat)
    ensures FillOf(early + late, ticket) ==
      if FilledIn(late, ticket) then FillOf(late, ticket) else FillOf(early, ticket)
    ensures ClosedIn(early + late, ticket) <==> ClosedIn(early, ticket) || ClosedIn(late, ticket)
  {
    if late == [] {
      assert early + late == early;
    } else {
      var init, last := late[..|late| - 1], late[|late| - 1];
      InBoth(early, init, ticket);
      assert early + late == (early + init) + [last];
      OneMore(early + init, last, ticket);
    }
  }

  /** What an event of the log finds, given the events between `d` and it. */
  lemma EventFinds(events: seq<Event>, d: nat, j: nat, ticket: nat)
    requires Orderly(events) && d <= j < |events|
    ensures Follows(events[..j], events[j])
    ensures FilledIn(events[d..j], ticket) ==> FillOf(events[..j], ticket) == FillOf(events[d..j], ticket)
    ensures LiveIn(events[..j], ticket) && FilledIn(events[d..j], ticket) ==> LiveIn(events[d..j], ticket)
    ensures ClosedIn(events[d..j], ticket) ==> ClosedIn(events[..j], ticket)
    ensures FilledIn(events[..j + 1], ticket) ==> FillOf(events, ticket) == FillOf(events[..j + 1], ticket)
    ensures ClosedIn(events[..j + 1], ticket) ==> ClosedIn(events, ticket)
    ensures FillOf(events[..j + 1], ticket) ==
      if events[j].OrderFilled? && events[j].order.ticket == ticket then Some(events[j].order)
      else FillOf(events[..j], ticket)
    ensures ClosedIn(events[..j + 1], ticket)
       <==> ClosedIn(events[..j], ticket) || (events[j].PositionClosed? && events[j].position.ticket == ticket)
  {
    hide FillOf, ClosedIn, Orderly, Follows;
    assert events[..d] + events[d..j] == events[..j];
    InBoth(events[..d], events[d..j], ticket);
    assert events[..j + 1] == events[..j] + [events[j]];
    StaysTold(events, j + 1, ticket);
    OneMore(events[..j], events[j], ticket);
  }

  /** The late tickets are the live ones. */
  lemma {:induction false} LateMeansLive(events: seq<Event>, d: nat, j: nat, ticket: nat)
    requires Orderly(events) && d <= j <= |events|
    ensures
      var late := events[d..j];
      && (ticket in LateOwners(late) <==> LiveIn(late, ticket))
      && (ticket in LateSymbols(late) <==> LiveIn(late, ticket))
      && (LiveIn(late, ticket) ==>
            && LateOwners(late)[ticket] == FillOf(late, ticket).value.strategyId
            && LateSymbols(late)[ticket] == FillOf(late, ticket).value.symbol)
    decreases j - d
  {
    hide FillOf, ClosedIn, Orderly, Follows;
    if j > d {
      var late, e := events[d..j - 1], events[j - 1];
      LateMeansLive(events, d, j - 1, ticket);
      EventFinds(events, d, j - 1, ticket);
      assert events[d..j] == late + [e];
      OneMore(late, e, ticket);
      FollowsFill(events[..j - 1], e);
    } else {
      assert events[d..j] == [];
      NothingLate(ticket);
    }
  }

  lemma NothingLate(ticket: nat)
    ensures !FilledIn([], ticket) && !ClosedIn([], ticket)
  {
  }

  lemma FollowsFill(events: seq<Event>, e: Event)
    requires Follows(events, e)
    ensures e.OrderFilled? ==>
      e.order.ticket != 0 && !FilledIn(events, e.order.ticket) && !ClosedIn(events, e.order.ticket)
    ensures e.PositionClosed? ==>
      LiveIn(events, e.position.ticket) && FillOf(events, e.position.ticket).value.symbol == e.position.symbol
  {
  }

  ghost predicate ToldBooks(b: Books) {
    Told(b.events, b.strategyOf, SymbolOf(b))
  }

  /** A late fill is of a new ticket, and if that is still open then under the owner and symbol of the fill. */
  lemma LateFill(b: Books, d: nat, j: nat)
    requires ToldBooks(b) && d <= j < |b.events| && b.events[j].OrderFilled?
    ensures
      var late, order := b.events[d..j], b.events[j].order;
      && order.ticket != 0 && order.ticket !in LateOwners(late) && order.ticket !in LateSymbols(late)
      && (order.ticket in b.strategyOf ==> b.strategyOf[order.ticket] == order.strategyId)
  {
    hide FillOf, ClosedIn, Orderly, Follows, LateOwners, LateSymbols;
    var ticket := b.events[j].order.ticket;
    EventFinds(b.events, d, j, ticket);
    FollowsFill(b.events[..j], b.events[j]);
    LateMeansLive(b.events, d, j, ticket);
    LateStaysFilled(b.events, d, j, ticket);
  }

  lemma LateStaysFilled(events: seq<Event>, d: nat, j: nat, ticket: nat)
    requires Orderly(events) && d <= j < |events|
    ensures FilledIn(events[d..j], ticket) ==> FilledIn(events[..j], ticket)
  {
    hide FillOf, ClosedIn, Orderly, Follows;
    EventFinds(events, d, j, ticket);
  }

  /** A late close is of a ticket that is open no longer, and if its fill was late too then under that symbol. */
  lemma LateClose(b: Books, d: nat, j: nat)
    requires ToldBooks(b) && d <= j < |b.events| && b.events[j].PositionClosed?
    ensures
      var late, p := b.events[d..j], b.events[j].position;
      && p.ticket !in b.strategyOf && (p.ticket in LateOwners(late) <==> p.ticket in LateSymbols(late))
      && (p.ticket in LateSymbols(late) <==> LiveIn(late, p.ticket))
      && (p.ticket in LateSymbols(late) ==> LateSymbols(late)[p.ticket] == p.symbol)
  {
    hide FillOf, ClosedIn, Orderly, Follows, LateOwners, LateSymbols;
    var ticket := b.events[j].position.ticket;
    EventFinds(b.events, d, j, ticket);
    FollowsFill(b.events[..j], b.events[j]);
    LateMeansLive(b.events, d, j, ticket);
  }

  lemma LateStep(c: Counts, events: seq<Event>, d: nat, j: nat)
    requires d <= j < |events|
    ensures
      var late, more, e := events[d..j], events[d..j + 1], events[j];
      && CountOn(c, more) == CountEvent(CountOn(c, late), e)
      && LateOwners(more) == OwnersAfter(LateOwners(late), e) && LateSymbols(more) == SymbolsAfter(LateSymbols(late), e)
      && forall symbol :: OldCloses(more, symbol) == OldCloses(late, symbol)
           + Count(e.PositionClosed? && e.position.symbol == symbol && !LiveIn(late, e.position.ticket))
  {
    hide FillOf, ClosedIn;
    assert events[d..j + 1] == events[d..j] + [events[j]];
    assert (events[d..j] + [events[j]])[..j - d] == events[d..j];
  }

  /** After handling late events the ticket map has what the listing had and what was filled late. */
  ghost predicate OwnersWithLate(owner: map<TicketKey, string>, b: Books, late: map<nat, string>) {
    forall key: TicketKey ::
      && (key in owner <==> key.0 == ACCOUNT && (key.1 in b.strategyOf || key.1 in late))
      && (key in owner ==> owner[key] == if key.1 in b.strategyOf then b.strategyOf[key.1] else late[key.1])
  }

  lemma OwnersStep(c: Counts, b: Books, late: map<nat, string>, e: Event)
    requires OwnersWithLate(c.owner, b, late)
    requires e.OrderFilled? && e.order.ticket in b.strategyOf ==>
      b.strategyOf[e.order.ticket] == e.order.strategyId
    requires e.OrderFilled? ==> e.order.ticket != 0
    requires e.PositionClosed? ==> e.position.ticket !in b.strategyOf
    ensures OwnersWithLate(CountEvent(c, e).owner, b, OwnersAfter(late, e))
  {
    hide Decremented;
  }

  lemma {:induction false} BacklogOwners(c: Counts, b: Books, d: nat, j: nat)
    requires ToldBooks(b) && d <= j <= |b.events| && OwnersAgree(c.owner, b)
    ensures OwnersWithLate(CountOn(c, b.events[d..j]).owner, b, LateOwners(b.events[d..j]))
    decreases j - d
  {
    hide LateOwners, LateSymbols, OldCloses, LiveIn, CountOn, ToldBooks, CountEvent, OwnersAfter, OwnersWithLate;
    if j == d {
      assert b.events[d..j] == [];
      NothingCounted(c);
      NoneLateYet(c, b);
    } else {
      BacklogOwners(c, b, d, j - 1);
      LateStep(c, b.events, d, j - 1);
      if b.events[j - 1].OrderFilled? {
        LateFill(b, d, j - 1);
      } else if b.events[j - 1].PositionClosed? {
        LateClose(b, d, j - 1);
      }
      OwnersStep(CountOn(c, b.events[d..j - 1]), b, LateOwners(b.events[d..j - 1]), b.events[j - 1]);
    }
  }

  lemma NoneLateYet(c: Counts, b: Books)
    requires OwnersAgree(c.owner, b)
    ensures OwnersWithLate(c.owner, b, map[])
  {
  }

  lemma NothingCounted(c: Counts)
    ensures CountOn(c, []) == c && LateOwners([]) == map[] == LateSymbols([])
    ensures forall symbol :: OldCloses([], symbol) == 0
    ensures forall v :: KeysOf(map[], v) == {}
  {
  }

  lemma StrategyStep(c: Counts, b: Books, late: map<nat, string>, e: Event, sid: string)
    requires OwnersWithLate(c.owner, b, late)
    requires GetOr(c.byStrategy, sid, 0) == |KeysOf(b.strategyOf, sid)| + |KeysOf(late, sid)|
    requires e.OrderFilled? ==> e.order.ticket !in late
    requires e.PositionClosed? ==> e.position.ticket !in b.strategyOf
    ensures GetOr(CountEvent(c, e).byStrategy, sid, 0)
         == |KeysOf(b.strategyOf, sid)| + |KeysOf(OwnersAfter(late, e), sid)|
  {
    hide KeysOf;
    if e.OrderFilled? {
      PutKey(late, e.order.ticket, e.order.strategyId, sid);
    } else if e.PositionClosed? {
      var ticket := e.position.ticket;
      assert (ACCOUNT, ticket) in c.owner <==> ticket in late;
      if ticket in late {
        DropKey(late, ticket, sid);
      } else {
        assert late - {ticket} == late;
      }
    }
  }

  /** A counter is what the listing gave it, plus the late fills that were not closed again. */
  lemma {:induction false} BacklogStrategies(c: Counts, b: Books, d: nat, j: nat, sid: string)
    requires ToldBooks(b) && d <= j <= |b.events| && Agrees(c, b)
    ensures GetOr(CountOn(c, b.events[d..j]).byStrategy, sid, 0)
         == |KeysOf(b.strategyOf, sid)| + |KeysOf(LateOwners(b.events[d..j]), sid)|
    decreases j - d
  {
    hide LateOwners, LateSymbols, OldCloses, LiveIn, CountOn, ToldBooks, KeysOf, CountEvent, OwnersAfter,
      OwnersWithLate;
    if j == d {
      assert b.events[d..j] == [];
      NothingCounted(c);
    } else {
      BacklogStrategies(c, b, d, j - 1, sid);
      BacklogOwners(c, b, d, j - 1);
      LateStep(c, b.events, d, j - 1);
      if b.events[j - 1].OrderFilled? {
        LateFill(b, d, j - 1);
      } else if b.events[j - 1].PositionClosed? {
        LateClose(b, d, j - 1);
      }
      StrategyStep(CountOn(c, b.events[d..j - 1]), b, LateOwners(b.events[d..j - 1]), b.events[j - 1], sid);
    }
  }

  /** The bounds that the floor at zero leaves on a symbol's count. */
  predicate CountBetween(count: int, listed: nat, filled: nat, closes: nat) {
    0 <= count && listed + filled - closes <= count <= filled + if closes <= listed then listed - closes else 0
  }

  lemma SymbolStep(c: Counts, listed: nat, closes: nat, late: map<nat, string>, e: Event, symbol: string)
    requires CountBetween(GetOr(c.bySymbol, symbol, 0), listed, |KeysOf(late, symbol)|, closes)
    requires e.OrderFilled? ==> e.order.ticket !in late
    requires e.PositionClosed? && e.position.ticket in late ==> late[e.position.ticket] == e.position.symbol
    ensures
      var orphan := e.PositionClosed? && e.position.symbol == symbol && e.position.ticket !in late;
      CountBetween(GetOr(CountEvent(c, e).bySymbol, symbol, 0), listed, |KeysOf(SymbolsAfter(late, e), symbol)|,
                   closes + Count(orphan))
  {
    hide KeysOf;
    if e.OrderFilled? {
      PutKey(late, e.order.ticket, e.order.symbol, symbol);
    } else if e.PositionClosed? {
      var ticket := e.position.ticket;
      if ticket in late {
        DropKey(late, ticket, symbol);
      } else {
        assert late - {ticket} == late;
      }
    }
  }

  /** For a symbol the floor at zero leaves two bounds: closes of listed-no-more tickets take at most themselves off,
      and never more than the listing gave. */
  lemma {:induction false} BacklogSymbols(c: Counts, b: Books, d: nat, j: nat, symbol: string)
    requires ToldBooks(b) && d <= j <= |b.events| && Agrees(c, b)
    ensures
      var late := b.events[d..j];
      CountBetween(GetOr(CountOn(c, late).bySymbol, symbol, 0), |KeysOf(SymbolOf(b), symbol)|,
                   |KeysOf(LateSymbols(late), symbol)|, OldCloses(late, symbol))
    decreases j - d
  {
    hide LateOwners, LateSymbols, OldCloses, LiveIn, CountOn, ToldBooks, KeysOf, SymbolOf, CountEvent, SymbolsAfter,
      CountBetween;
    if j == d {
      assert b.events[d..j] == [];
      NothingCounted(c);
      JustListed(c, b, symbol);
    } else {
      var late, e := b.events[d..j - 1], b.events[j - 1];
      BacklogSymbols(c, b, d, j - 1, symbol);
      LateStep(c, b.events, d, j - 1);
      if e.OrderFilled? {
        LateFill(b, d, j - 1);
      } else if e.PositionClosed? {
        LateClose(b, d, j - 1);
      }
      SymbolStep(CountOn(c, late), |KeysOf(SymbolOf(b), symbol)|, OldCloses(late, symbol), LateSymbols(late), e,
                 symbol);
    }
  }

  lemma JustListed(c: Counts, b: Books, symbol: string)
    requires Agrees(c, b)
    ensures CountBetween(GetOr(c.bySymbol, symbol, 0), |KeysOf(SymbolOf(b), symbol)|, |KeysOf(map[], symbol)|, 0)
  {
    assert KeysOf(map[], symbol) == {};
  }

  // ---- The whole backlog -------------------------------------------------------------------------

  /** What is filled late was neither filled nor closed before. */
  lemma {:induction false} FilledLateIsNew(events: seq<Event>, d: nat, j: nat, ticket: nat)
    requires Orderly(events) && d <= j <= |events| && FilledIn(events[d..j], ticket)
    ensures !FilledIn(events[..d], ticket) && !ClosedIn(events[..d], ticket)
    decreases j - d
  {
    hide FillOf, ClosedIn, Orderly, Follows;
    if j == d {
      assert events[d..j] == [];
      NothingLate(ticket);
    } else {
      var late, e := events[d..j - 1], events[j - 1];
      assert events[d..j] == late + [e];
      OneMore(late, e, ticket);
      if FilledIn(late, ticket) {
        FilledLateIsNew(events, d, j - 1, ticket);
      } else {
        EventFinds(events, d, j - 1, ticket);
        FollowsFill(events[..j - 1], e);
        assert events[..d] + late == events[..j - 1];
        InBoth(events[..d], late, ticket);
      }
    }
  }

  /** In the end the late tickets are the open positions that were filled late. */
  lemma LateAreOpen(b: Books, d: nat, k: nat)
    requires ToldBooks(b) && d <= |b.events|
    ensures
      var late := b.events[d..];
      && (k in LateOwners(late) <==> k in b.strategyOf && FilledIn(late, k))
      && (k in LateSymbols(late) <==> k in SymbolOf(b) && FilledIn(late, k))
      && (k in b.strategyOf <==> k in SymbolOf(b))
  {
    hide FillOf, ClosedIn, Orderly, LateOwners, LateSymbols, SymbolOf;
    var n := |b.events|;
    assert b.events[d..n] == b.events[d..] && b.events[..d] + b.events[d..] == b.events;
    LateMeansLive(b.events, d, n, k);
    InBoth(b.events[..d], b.events[d..], k);
    if FilledIn(b.events[d..], k) {
      FilledLateIsNew(b.events, d, n, k);
    }
  }

  lemma LateIffLive(events: seq<Event>, d: nat, i: nat)
    requires Orderly(events) && d <= i < |events| && events[i].PositionClosed?
    ensures FilledIn(events[d..], events[i].position.ticket) <==> LiveIn(events[d..i], events[i].position.ticket)
  {
    hide FillOf, ClosedIn, Orderly, Follows;
    var ticket := events[i].position.ticket;
    EventFinds(events, d, i, ticket);
    FollowsFill(events[..i], events[i]);
    assert events[d..i] + events[i..] == events[d..];
    InBoth(events[d..i], events[i..], ticket);
    assert events[..d] + events[d..i] == events[..i];
    InBoth(events[..d], events[d..i], ticket);
    if FilledIn(events[d..], ticket) {
      assert events[d..|events|] == events[d..];
      FilledLateIsNew(events, d, |events|, ticket);
    }
  }

  /** The late closes of a symbol are all of positions that were filled late as well. */
  ghost predicate ClosesOfLate(events: seq<Event>, d: nat, j: nat, symbol: string)
    requires d <= j <= |events|
  {
    forall i :: d <= i < j && events[i].PositionClosed? && events[i].position.symbol == symbol ==>
      FilledIn(events[d..], events[i].position.ticket)
  }

  lemma {:induction false} OldClosesCounted(events: seq<Event>, d: nat, j: nat, symbol: string)
    requires Orderly(events) && d <= j <= |events|
    ensures OldCloses(events[d..j], symbol) == 0 <==> ClosesOfLate(events, d, j, symbol)
    decreases j - d
  {
    hide OldCloses, LiveIn, FilledIn, Orderly, CountOn, LateOwners, LateSymbols;
    if j == d {
      assert events[d..j] == [];
      NothingCounted(FRESH.counts);
    } else {
      OldClosesCounted(events, d, j - 1, symbol);
      LateStep(FRESH.counts, events, d, j - 1);
      if events[j - 1].PositionClosed? {
        LateIffLive(events, d, j - 1);
      }
    }
  }

  /** No position that is open was filled late. */
  ghost predicate NoneFilledLate(b: Books, d: nat)
    requires d <= |b.events|
  {
    forall k :: k in b.positions ==> !FilledIn(b.events[d..], k)
  }

  /** No symbol with an open position has a late close of a position filled before. */
  ghost predicate NoOldClose(b: Books, d: nat)
    requires d <= |b.events|
  {
    forall k :: k in b.positions ==> ClosesOfLate(b.events, d, |b.events|, b.positions[k].symbol)
  }

  lemma LateOwnersEmptyIff(b: Books, d: nat)
    requires ToldBooks(b) && d <= |b.events|
    ensures NoneFilledLate(b, d) <==> LateOwners(b.events[d..]) == map[]
    ensures NoneFilledLate(b, d) ==> LateSymbols(b.events[d..]) == map[]
    ensures forall k :: k in LateOwners(b.events[d..]) ==> k in b.strategyOf
  {
    hide ToldBooks, FilledIn, LateOwners, LateSymbols;
    forall k: nat
      ensures k in LateOwners(b.events[d..]) <==> k in b.positions && FilledIn(b.events[d..], k)
      ensures k in LateSymbols(b.events[d..]) <==> k in b.positions && FilledIn(b.events[d..], k)
      ensures k in b.strategyOf <==> k in b.positions
    {
      LateAreOpen(b, d, k);
    }
  }

  lemma NoKeysIff(m: map<nat, string>)
    ensures (forall v :: |KeysOf(m, v)| == 0) <==> m == map[]
  {
    if k :| k in m {
      assert k in KeysOf(m, m[k]);
    }
  }

  /** Handling a backlog on top of counters that are right already leaves them right exactly when no open position was
      filled in it, and no symbol with an open position has a close in it of a position filled before. */
  lemma BacklogKeepsCountsIff(c: Counts, b: Books, d: nat)
    requires ToldBooks(b) && d <= |b.events| && Agrees(c, b)
    ensures Agrees(CountOn(c, b.events[d..]), b) <==> NoneFilledLate(b, d) && NoOldClose(b, d)
  {
    hide ToldBooks, NoneFilledLate, NoOldClose, LateOwners, LateSymbols, CountOn, KeysOf, SymbolOf, CountsKeys;
    var late, after := b.events[d..], CountOn(c, b.events[d..]);
    assert b.events[d..|b.events|] == late;
    BacklogOwners(c, b, d, |b.events|);
    LateOwnersEmptyIff(b, d);
    assert OwnersAgree(after.owner, b);
    StrategiesRightIff(c, b, d);
    if NoneFilledLate(b, d) {
      SymbolsRightIff(c, b, d);
    }
  }

  lemma StrategiesRightIff(c: Counts, b: Books, d: nat)
    requires ToldBooks(b) && d <= |b.events| && Agrees(c, b)
    ensures CountsKeys(CountOn(c, b.events[d..]).byStrategy, b.strategyOf) <==> NoneFilledLate(b, d)
  {
    hide ToldBooks, NoneFilledLate, LateOwners, LateSymbols, CountOn, KeysOf, Agrees;
    assert b.events[d..|b.events|] == b.events[d..];
    LateOwnersEmptyIff(b, d);
    NoKeysIff(LateOwners(b.events[d..]));
    forall sid
      ensures GetOr(CountOn(c, b.events[d..]).byStrategy, sid, 0)
           == |KeysOf(b.strategyOf, sid)| + |KeysOf(LateOwners(b.events[d..]), sid)|
    {
      BacklogStrategies(c, b, d, |b.events|, sid);
    }
  }

  lemma SomeOfSymbol(b: Books, symbol: string)
    ensures |KeysOf(SymbolOf(b), symbol)| == 0 <==> forall k :: k in b.positions ==> b.positions[k].symbol != symbol
  {
    if k :| k in b.positions && b.positions[k].symbol == symbol {
      assert k in KeysOf(SymbolOf(b), symbol);
    }
  }

  lemma SymbolsRightIff(c: Counts, b: Books, d: nat)
    requires ToldBooks(b) && d <= |b.events| && Agrees(c, b) && NoneFilledLate(b, d)
    ensures CountsKeys(CountOn(c, b.events[d..]).bySymbol, SymbolOf(b)) <==> NoOldClose(b, d)
  {
    hide NoneFilledLate, LateOwners, LateSymbols, CountOn, KeysOf, Agrees, SymbolOf, ClosesOfLate, Orderly, FillOf,
      ClosedIn, OldCloses;
    var late, n := b.events[d..], |b.events|;
    assert b.events[d..n] == late;
    LateOwnersEmptyIff(b, d);
    forall symbol
      ensures GetOr(CountOn(c, late).bySymbol, symbol, 0) == |KeysOf(SymbolOf(b), symbol)|
         <==> (ClosesOfLate(b.events, d, n, symbol) || |KeysOf(SymbolOf(b), symbol)| == 0)
      ensures |KeysOf(SymbolOf(b), symbol)| == 0
         <==> forall k :: k in b.positions ==> b.positions[k].symbol != symbol
    {
      BacklogSymbols(c, b, d, n, symbol);
      NothingCounted(c);
      SomeOfSymbol(b, symbol);
      OldClosesCounted(b.events, d, n, symbol);
    }
  }

  // ---- Rehydrating in the middle of a run ----------------------------------------------------------

  /** The monitor after it has handled the events in order. */
  function Drained(m: Monitor, events: seq<Event>, now: int): Monitor {
    if events == [] then m else HandleEvent(Drained(m, events[..|events| - 1], now), events[|events| - 1], now)
  }

  lemma {:induction false} DrainedCounts(m: Monitor, events: seq<Event>, now: int)
    ensures Drained(m, events, now).counts == CountOn(m.counts, events)
  {
    hide CountFilled, CountClosed, Roll, AddPnl;
    if events != [] {
      DrainedCounts(m, events[..|events| - 1], now);
    }
  }

  /** In any state of any run: a monitor rehydrated there is right, once it has handled what was still queued, exactly
      when no open position was filled in the queue and no symbol with an open position has a close there of a position
      filled before. */
  lemma RehydratedWithBacklog(
      s: Setup, trace: seq<Engine>, steps: seq<Step>, initialBalance: real, start: int, i: nat,
      sidOf: map<int, string>, tickets: seq<nat>, m: Monitor, now: int)
    requires Run(s, trace, steps, initialBalance, start) && i <= |steps| && Lists(trace[i].books, tickets)
    requires Reverses(sidOf, s.magics) && OpenOwnersWin(s.magics, sidOf, trace[i].books)
    requires m.counts == CountAll(OpenList(trace[i].books, sidOf, tickets))
    ensures Agrees(m.counts, trace[i].books) && trace[i].delivered <= |trace[i].books.events|
    ensures
      var b, d := trace[i].books, trace[i].delivered;
      Agrees(Drained(m, b.events[d..], now).counts, b) <==> NoneFilledLate(b, d) && NoOldClose(b, d)
  {
    hide Next, Lists, Reverses, OpenOwnersWin, TicketsAccounted, LedgerBalances, Consistent, CountAll, OpenList,
      CountOn, Agrees, SameCounts, Told, NoneFilledLate, NoOldClose, Drained;
    var b, d := trace[i].books, trace[i].delivered;
    RunMirrors(s, trace, steps, initialBalance, start, i);
    RunTagged(s, trace, steps, initialBalance, start, i);
    TagsResolveIffOwnersWin(s.magics, sidOf, b);
    RehydratedCountsAgree(b, sidOf, tickets);
    DrainedCounts(m, b.events[d..], now);
    BacklogKeepsCountsIff(m.counts, b, d);
  }

  /** For instance: a position of "trend", listed at the rehydration, whose fill is handled only then. The counter says
      two, and one is open. */
  lemma CountedTwice() returns (trace: seq<Engine>, steps: seq<Step>, listed: Counts)
    ensures Run(SmallSetup().(magics := map["trend" := 7]), trace, steps, 100.0, 0)
    ensures
      var e := trace[|steps|];
      && Lists(e.books, [1]) && listed == CountAll(OpenList(e.books, map[7 := "trend"], [1]))
      && e.delivered == 0 && |OwnedBy(e.books, "trend")| == 1 && Agrees(listed, e.books)
      && GetOr(CountOn(listed, e.books.events).byStrategy, "trend", 0) == 2
  {
    hide Next, TicketsAccounted, LedgerBalances, Consistent, CountAll, OpenList, CountOn, Agrees, SameCounts,
      LateOwners, Told, Start;
    var magics: Magics, sidOf := map["trend" := 7], map[7 := "trend"];
    trace, steps := OwnerLostOnRestart(magics, sidOf);
    var s, b := SmallSetup().(magics := magics), trace[|steps|].books;
    listed := CountAll(OpenList(b, sidOf, [1]));
    RunMirrors(s, trace, steps, 100.0, 0, |steps|);
    RunTagged(s, trace, steps, 100.0, 0, |steps|);
    OneOpen(magics, b, sidOf);
    TagsResolveIffOwnersWin(magics, sidOf, b);
    RehydratedCountsAgree(b, sidOf, [1]);
    OnlyOneLate(b);
    BacklogStrategies(listed, b, 0, |b.events|, "trend");
    assert b.events[0..|b.events|] == b.events;
  }

  lemma OnlyOneLate(b: Books)
    requires ToldBooks(b) && b.strategyOf == map[1 := "trend"]
    ensures KeysOf(b.strategyOf, "trend") == {1} == KeysOf(LateOwners(b.events), "trend")
  {
    hide LateOwners, FilledIn;
    assert b.events[0..] == b.events;
    assert 1 in b.strategyOf.Keys;
    forall k: nat ensures k in LateOwners(b.events) <==> k == 1 {
      LateAreOpen(b, 0, k);
    }
    assert LateOwners(b.events)[1] == "trend" by {
      assert b.events[0..|b.events|] == b.events;
      LateMeansLive(b.events, 0, |b.events|, 1);
    }
  }

  // ---- The profit of the day -----------------------------------------------------------------------

  /** The rows that the persister adds for the events. */
  function RowsOf(sidOf: map<int, string>, events: seq<Event>, stamped: int): seq<TradeRow> {
    if events == [] then []
    else RowsOf(sidOf, events[..|events| - 1], stamped) + RowsFor(sidOf, events[|events| - 1], stamped)
  }

  lemma {:induction false} RowsSum(rows: seq<TradeRow>, sidOf: map<int, string>, events: seq<Event>, stamped: int,
                                   since: int)
    requires since <= stamped
    ensures TotalSince(rows + RowsOf(sidOf, events, stamped), since) == TotalSince(rows, since) + ProfitIn(events)
  {
    if events == [] {
      assert rows + RowsOf(sidOf, [], stamped) == rows;
    } else {
      var init, last := events[..|events| - 1], events[|events| - 1];
      var before := rows + RowsOf(sidOf, init, stamped);
      RowsSum(rows, sidOf, init, stamped, since);
      assert rows + RowsOf(sidOf, events, stamped) == before + RowsFor(sidOf, last, stamped);
      OneEventSum(before, sidOf, last, stamped, since);
    }
  }

  lemma OneEventSum(rows: seq<TradeRow>, sidOf: map<int, string>, e: Event, stamped: int, since: int)
    requires since <= stamped
    ensures TotalSince(rows + RowsFor(sidOf, e, stamped), since) == TotalSince(rows, since) + ProfitOf(e)
  {
    var added := RowsFor(sidOf, e, stamped);
    if added == [] {
      assert rows + added == rows;
    } else {
      assert (rows + added)[..|rows|] == rows;
    }
  }

  lemma {:induction false} DrainedDaily(m: Monitor, events: seq<Event>, now: int)
    requires m.daily.anchor.Some? && Day(m.daily.anchor.value) == Day(now)
    ensures Drained(m, events, now).daily.anchor == m.daily.anchor
    ensures Drained(m, events, now).daily.pnl == m.daily.pnl + ProfitIn(events)
  {
    hide CountFilled, CountClosed, Day;
    if events != [] {
      DrainedDaily(m, events[..|events| - 1], now);
    }
  }

  /** The persister has already logged the first `logged` of the late events when the table is read. Once all of them
      are handled, the daily profit is that of the finished table exactly when those had none. */
  lemma LoggedProfitCountsTwice(
      rows: seq<TradeRow>, sidOf: map<int, string>, late: seq<Event>, logged: nat, stamped: int, now: int,
      open: seq<OpenPosition>, pnlBySymbol: map<string, real>, row: Option<RiskRow>)
    requires logged <= |late| && Day(stamped) == Day(now)
    ensures
      var since := Midnight(now);
      var read := TotalSince(rows + RowsOf(sidOf, late[..logged], stamped), since);
      var m := Rehydrated(FRESH, open, read, pnlBySymbol, now, row);
      && Drained(m, late, now).daily.pnl
         == TotalSince(rows + RowsOf(sidOf, late, stamped), since) + ProfitIn(late[..logged])
      && (Drained(m, late, now).daily.pnl == TotalSince(rows + RowsOf(sidOf, late, stamped), since)
          <==> ProfitIn(late[..logged]) == 0.0)
  {
    hide CountAll, Drained, TotalSince, RowsOf, ProfitIn, Midnight, Day;
    var since := Midnight(now);
    SinceMidnight(stamped, now);
    RowsSum(rows, sidOf, late[..logged], stamped, since);
    RowsSum(rows, sidOf, late, stamped, since);
    assert late[..logged] + late[logged..] == late;
    ProfitInBoth(late[..logged], late[logged..]);
    var read := TotalSince(rows + RowsOf(sidOf, late[..logged], stamped), since);
    DrainedDaily(Rehydrated(FRESH, open, read, pnlBySymbol, now, row), late, now);
  }
}
