/** What a strategy's own requests can and cannot touch, over every run of the engine. */
module Ownership {
  import opened Domain
  import opened RiskMonitor
  import opened SimBroker
  import opened BrokerRuns
  import opened BrokerLaws
  import opened StandingOrders
  import opened OrderRouter
  import opened Engine
  import opened Restart

  /** The strategy that asks, for the steps that are requests about a ticket. */
  function Requester(step: Step): Option<string> {
    match step
    case CloseRequested(sid, _) => Some(sid)
    case PartialCloseRequested(sid, _, _) => Some(sid)
    case CancelRequested(sid, _) => Some(sid)
    case ModifyRequested(sid, _, _, _, _, _) => Some(sid)
    case _ => None
  }

  /** The router compares tags, so a strategy may touch what any strategy of its tag owns. */
  predicate SharesTag(magics: Magics, sid: string, owner: string) {
    MagicOf(magics, sid) == MagicOf(magics, owner)
  }

  /** With distinct tags only the owner itself shares its tag. */
  lemma DistinctTagsSeparate(magics: Magics, sid: string, owner: string)
    requires DistinctTags(magics) && sid in magics && owner in magics
    ensures SharesTag(magics, sid, owner) <==> sid == owner
  {
  }

  lemma ReachedState(s: Setup, trace: seq<Engine>, steps: seq<Step>, initialBalance: real, now: int, i: nat)
    requires Run(s, trace, steps, initialBalance, now) && i <= |steps|
    ensures Consistent(trace[i].books) && Tagged(s.magics, trace[i].books)
  {
    hide Run, TicketsAccounted, LedgerBalances, Mirrored, Consistent, Tagged;
    RunMirrors(s, trace, steps, initialBalance, now, i);
    RunTagged(s, trace, steps, initialBalance, now, i);
  }

  /** Only ticket `ticket` may differ, and only by losing or changing an entry it had. */
  ghost predicate OnlyTouches(b: Books, b': Books, ticket: nat) {
    forall k: nat ::
      && (k in b'.positions ==> k in b.positions) && (k in b'.pending ==> k in b.pending)
      && (k != ticket && k in b.positions ==> k in b'.positions && b'.positions[k] == b.positions[k])
      && (k != ticket && k in b.pending ==> k in b'.pending && b'.pending[k] == b.pending[k])
  }

  lemma CloseTouches(t: Terms, b: Books, ticket: nat, volume: Option<real>)
    ensures OnlyTouches(b, Close(t, b, ticket, volume).0, ticket)
    ensures Close(t, b, ticket, volume).0.pending == b.pending
  {
    hide Trade, BookTrade;
    BookTradeMovesTables(t);
  }

  lemma CancelTouches(b: Books, ticket: nat)
    ensures OnlyTouches(b, Cancel(b, ticket).0, ticket) && Cancel(b, ticket).0.positions == b.positions
  {
  }

  lemma BrokerModifyTouches(
      b: Books, ticket: nat, sl: Option<real>, tp: Option<real>, price: Option<real>, volume: Option<real>)
    ensures
      var b' := Modify(b, ticket, sl, tp, price, volume).0;
      OnlyTouches(b, b', ticket) && (ticket in b.pending ==> b'.positions == b.positions)
  {
    hide OrElse;
  }

  lemma ModifyTouches(
      magics: Magics, b: Books, sid: string, ticket: nat,
      sl: Option<real>, tp: Option<real>, price: Option<real>, volume: Option<real>)
    ensures
      var b' := HandleModify(magics, b, sid, ticket, sl, tp, price, volume);
      && OnlyTouches(b, b', ticket)
      && (b' == b || OwnsPending(magics, b, sid, ticket)
          || (ticket !in b.pending && OwnsPosition(magics, b, sid, ticket)))
      && (ticket in b.pending ==> b'.positions == b.positions)
  {
    hide Modify, OrElse;
    if ticket in b.pending {
      var p := b.pending[ticket];
      BrokerModifyTouches(b, ticket, OrElse(sl, p.sl), OrElse(tp, p.tp), OrElse(price, p.price),
                          Some(if volume.Some? then volume.value else p.volume));
    } else if ticket in b.positions {
      var pos := b.positions[ticket];
      BrokerModifyTouches(b, ticket, OrElse(sl, pos.sl), OrElse(tp, pos.tp), None, None);
    }
  }

  /** Nothing opens, and everything outside the requester's tag stays exactly as it was. */
  lemma RequestsRespectOwners(
      s: Setup, trace: seq<Engine>, steps: seq<Step>, initialBalance: real, now: int, i: nat, k: nat)
    requires Run(s, trace, steps, initialBalance, now) && i < |steps| && Requester(steps[i]).Some?
    ensures
      var b, b' := trace[i].books, trace[i + 1].books;
      var sid := Requester(steps[i]).value;
      && (k in b'.positions ==> k in b.positions) && (k in b'.pending ==> k in b.pending)
      && (k in b.positions && !(k in b.strategyOf && SharesTag(s.magics, sid, b.strategyOf[k])) ==>
            k in b'.positions && b'.positions[k] == b.positions[k])
      && (k in b.pending && !SharesTag(s.magics, sid, b.pending[k].strategyId) ==>
            k in b'.pending && b'.pending[k] == b.pending[k])
  {
    hide Close, Cancel, HandleModify, HandleSignal, HandleEvent, Apply, MagicOf;
    ReachedState(s, trace, steps, initialBalance, now, i);
    var b := trace[i].books;
    match steps[i]
    case CloseRequested(_, ticket) => CloseTouches(s.terms, b, ticket, None);
    case PartialCloseRequested(_, ticket, part) => CloseTouches(s.terms, b, ticket, Some(part));
    case CancelRequested(_, ticket) => CancelTouches(b, ticket);
    case ModifyRequested(sid, ticket, sl, tp, price, volume) =>
      ModifyTouches(s.magics, b, sid, ticket, sl, tp, price, volume);
    case _ =>
  }

  lemma BookTradeMovesTables(t: Terms)
    ensures forall b, pos, trade ::
      BookTrade(t, b, pos, trade).pending == b.pending && BookTrade(t, b, pos, trade).positions == b.positions
  {
  }

  /** A close request closes an open position exactly when requester and owner share a tag; with distinct tags,
      exactly when the owner asks. */
  lemma CloseRequestExact(
      s: Setup, trace: seq<Engine>, steps: seq<Step>, initialBalance: real, now: int, i: nat, sid: string, k: nat)
    requires Run(s, trace, steps, initialBalance, now) && i < |steps| && steps[i] == CloseRequested(sid, k)
    requires k in trace[i].books.positions
    ensures k in trace[i].books.strategyOf
    ensures k !in trace[i + 1].books.positions <==> SharesTag(s.magics, sid, trace[i].books.strategyOf[k])
    ensures
      var owner := trace[i].books.strategyOf[k];
      DistinctTags(s.magics) && sid in s.magics && owner in s.magics ==>
        (k !in trace[i + 1].books.positions <==> sid == owner)
  {
    hide Close, DistinctTags;
    ReachedState(s, trace, steps, initialBalance, now, i);
    CloseOne(s.terms, trace[i].books, k);
    var owner := trace[i].books.strategyOf[k];
    if DistinctTags(s.magics) && sid in s.magics && owner in s.magics {
      DistinctTagsSeparate(s.magics, sid, owner);
    }
  }

  /** A partial close takes its chunk off the position exactly when the tags agree and something would be left;
      otherwise the position keeps its volume. */
  lemma PartialCloseRequestExact(
      s: Setup, trace: seq<Engine>, steps: seq<Step>, initialBalance: real, now: int, i: nat,
      sid: string, k: nat, part: real)
    requires Run(s, trace, steps, initialBalance, now) && i < |steps|
    requires steps[i] == PartialCloseRequested(sid, k, part) && k in trace[i].books.positions
    ensures k in trace[i].books.strategyOf && k in trace[i + 1].books.positions
    ensures
      var volume := trace[i].books.positions[k].volume;
      trace[i + 1].books.positions[k].volume ==
        if SharesTag(s.magics, sid, trace[i].books.strategyOf[k]) && part < volume then volume - part else volume
  {
    hide Trade, BookTrade;
    ReachedState(s, trace, steps, initialBalance, now, i);
    BookTradeMovesTables(s.terms);
  }

  /** A cancel request cancels a pending order exactly when requester and owner share a tag. */
  lemma CancelRequestExact(
      s: Setup, trace: seq<Engine>, steps: seq<Step>, initialBalance: real, now: int, i: nat, sid: string, k: nat)
    requires Run(s, trace, steps, initialBalance, now) && i < |steps| && steps[i] == CancelRequested(sid, k)
    requires k in trace[i].books.pending
    ensures k !in trace[i + 1].books.pending
       <==> SharesTag(s.magics, sid, trace[i].books.pending[k].strategyId)
  {
    ReachedState(s, trace, steps, initialBalance, now, i);
  }

  /** The order a signal asks for, tagged with its strategy's magic number, or zero without one. */
  predicate Carries(signal: Signal, magics: Magics, r: OrderRequest) {
    && r.strategyId == signal.strategyId && r.symbol == signal.symbol && r.side == signal.side
    && r.kind == signal.kind && r.volume == signal.volume && r.price == signal.price
    && r.sl == signal.sl && r.tp == signal.tp
    && r.magic == if signal.strategyId in magics then magics[signal.strategyId] else 0
  }

  /** What the books show of a submitted request, under the next ticket: a position at once for a market order, an
      order that waits for any other, and a rejection without a quote or a price. */
  ghost predicate ShowsSubmission(b: Books, b': Books, decided: seq<Event>, r: OrderRequest) {
    var k := b.nextTicket;
    if !(r.symbol in b.lastPrice && (r.kind == MARKET || r.price.Some?)) then
      b' == b.(events := decided + [OrderRejected(r)])
    else if r.kind == MARKET then
      k in b'.positions && k in b'.strategyOf && IsPositionFor(b'.positions[k], b'.strategyOf[k], 0.0, r)
    else
      k in b'.pending && IsOrderFor(b'.pending[k], r)
  }

  lemma PlacementShown(t: Terms, b: Books, r: OrderRequest)
    requires Consistent(b)
    ensures
      var (b', result) := Place(t, b, r);
      var k := b.nextTicket;
      && b.events <= b'.events
      && if !(r.symbol in b.lastPrice && (r.kind == MARKET || r.price.Some?)) then b' == b && !result.ok
         else if r.kind == MARKET then
           && result.ok && result.status == FILLED && result.order.Some?
           && k in b'.positions && k in b'.strategyOf && IsPositionFor(b'.positions[k], b'.strategyOf[k], 0.0, r)
         else result.ok && result.status == SUBMITTED && k in b'.pending && IsOrderFor(b'.pending[k], r)
  {
    hide Terms.Commission, Terms.SlippedPrice;
  }

  lemma SubmissionShown(t: Terms, b: Books, r: OrderRequest)
    requires Consistent(b)
    ensures
      var decided := b.events + [DecisionMade(r.strategyId, r.symbol, true)];
      decided <= Submit(t, b, r).events && ShowsSubmission(b, Submit(t, b, r), decided, r)
  {
    hide Place, IsPositionFor, IsOrderFor;
    PlacementShown(t, Publish(b, DecisionMade(r.strategyId, r.symbol, true)), r);
  }

  /** A signal becomes an order exactly when filter, risk check and exposure cap all pass, and the decision is
      announced either way. The order carries the signal. */
  lemma SignalExactly(s: Setup, e: Engine, signal: Signal, now: int)
    requires Consistent(e.books)
    ensures
      var b, b' := e.books, Next(s, e, Signalled(signal, now)).books;
      var passes := signal.filterPasses && signal.exposurePasses
        && Judge(s.cfg, AfterCheck(e.monitor, now), signal.strategyId, signal.symbol) == Allowed;
      var decided := b.events + [DecisionMade(signal.strategyId, signal.symbol, passes)];
      && decided <= b'.events
      && if passes then exists r :: Carries(signal, s.magics, r) && ShowsSubmission(b, b', decided, r)
         else b' == b.(events := decided)
  {
    hide AfterCheck, Judge, Submit, ShowsSubmission;
    var r := Request(s.magics, signal);
    SubmissionShown(s.terms, e.books, r);
    assert Carries(signal, s.magics, r);
  }

  /** What a modify request leaves in the tables: the owner's tag is needed; whatever is supplied replaces what was
      there, and nothing else changes. A pending order is left alone if its volume would not be positive. */
  lemma ModifyRequestExact(
      s: Setup, e: Engine, sid: string, k: nat,
      sl: Option<real>, tp: Option<real>, price: Option<real>, volume: Option<real>)
    requires Consistent(e.books)
    ensures
      var b, b' := e.books, Next(s, e, ModifyRequested(sid, k, sl, tp, price, volume)).books;
      && (k in b.pending ==>
            var o := b.pending[k];
            var size := if volume.Some? then volume.value else o.volume;
            b' == if MagicOf(s.magics, sid) != o.magic || size <= 0.0 then b else b.(pending := b.pending[k := o.(
              sl := if sl.Some? then sl else o.sl, tp := if tp.Some? then tp else o.tp,
              price := if price.Some? then price else o.price, volume := size)]))
      && (k in b.positions ==>
            var p := b.positions[k];
            var p' := p.(sl := if sl.Some? then sl else p.sl, tp := if tp.Some? then tp else p.tp);
            b' == if MagicOf(s.magics, sid) != p.magic then b
                  else b.(positions := b.positions[k := p'], events := b.events + [PositionModified(p')]))
  {
  }

  /** A position of "trend" closed at the request of "scalp": neither has a tag, so both use zero. */
  lemma ClosedByAnother() returns (trace: seq<Engine>, steps: seq<Step>)
    ensures Run(SmallSetup(), trace, steps, 100.0, 0)
    ensures |steps| > 0 && steps[|steps| - 1] == CloseRequested("scalp", 1)
    ensures 1 in trace[|steps| - 1].books.positions && trace[|steps| - 1].books.strategyOf == map[1 := "trend"]
    ensures 1 !in trace[|steps|].books.positions
  {
    hide Next, Start, OpenList, OwnersAgree;
    var s := SmallSetup();
    var before, done := OwnerLostOnRestart(map[], map[]);
    assert s.(magics := map[]) == s;
    var n := |done|;
    var request := CloseRequested("scalp", 1);
    steps := done + [request];
    trace := before + [Next(s, before[n], request)];
    forall i | 0 <= i < |steps| ensures Enabled(trace[i], steps[i]) && trace[i + 1] == Next(s, trace[i], steps[i]) {
      if i < n {
        assert trace[i] == before[i] && trace[i + 1] == before[i + 1] && steps[i] == done[i];
      }
    }
    assert 1 in [1] && trace[n] == before[n];
    CloseRequestExact(s, trace, steps, 100.0, 0, n, "scalp", 1);
  }
}
