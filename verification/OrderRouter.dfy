/** From signals and requests to broker calls: risk gate, ownership checks and result events. */
module OrderRouter {
  import opened Domain
  import opened SimBroker
  import opened RiskMonitor

  /** A signal with its volume already resolved. The trading filter and the aggregate exposure
      cap are computed elsewhere; only their outcomes matter here. */
  datatype Signal = Signal(
    strategyId: string, symbol: string, side: Side, kind: OrderType, volume: real, price: Option<real>,
    sl: Option<real>, tp: Option<real>, filterPasses: bool, exposurePasses: bool)

  type Magics = map<string, int>

  function MagicOf(magics: Magics, strategyId: string): int {
    if strategyId in magics then magics[strategyId] else 0
  }

  function Request(magics: Magics, s: Signal): OrderRequest {
    OrderRequest(s.strategyId, s.symbol, s.side, s.kind, s.volume, s.price, s.sl, s.tp, MagicOf(magics, s.strategyId))
  }

  function Publish(b: Books, e: Event): Books {
    b.(events := b.events + [e])
  }

  /** A fill is announced here, a parked order was announced by the broker, a refusal is announced here. */
  function PublishResult(b: Books, req: OrderRequest, r: OrderResult): Books {
    if r.ok && r.order.Some? && (r.status == FILLED || r.status == PARTIALLY_FILLED) then
      Publish(b, OrderFilled(r.order.value))
    else if r.ok && r.status == SUBMITTED then b
    else if !r.ok then Publish(b, OrderRejected(req))
    else b
  }

  function Submit(t: Terms, b: Books, req: OrderRequest): Books {
    var (placed, r) := Place(t, Publish(b, DecisionMade(req.strategyId, req.symbol, true)), req);
    PublishResult(placed, req, r)
  }

  function RejectSignal(b: Books, s: Signal): Books {
    Publish(b, DecisionMade(s.strategyId, s.symbol, false))
  }

  /** The filter comes first, then the risk check, then the exposure cap. */
  function HandleSignal(t: Terms, magics: Magics, cfg: RiskConfig, b: Books, m: Monitor, s: Signal, now: int)
    : (Books, Monitor)
  {
    if !s.filterPasses then (RejectSignal(b, s), m)
    else
      var m' := AfterCheck(m, now);
      if Judge(cfg, m', s.strategyId, s.symbol) != Allowed || !s.exposurePasses then (RejectSignal(b, s), m')
      else (Submit(t, b, Request(magics, s)), m')
  }

  predicate OwnsPosition(magics: Magics, b: Books, strategyId: string, ticket: nat) {
    ticket in b.positions && b.positions[ticket].magic == MagicOf(magics, strategyId)
  }

  predicate OwnsPending(magics: Magics, b: Books, strategyId: string, ticket: nat) {
    ticket in b.pending && b.pending[ticket].magic == MagicOf(magics, strategyId)
  }

  function HandleClose(t: Terms, magics: Magics, b: Books, strategyId: string, ticket: nat): Books {
    if OwnsPosition(magics, b, strategyId, ticket) then Close(t, b, ticket, None).0 else b
  }

  /** A chunk as large as the position is refused rather than closed in full. */
  function HandlePartialClose(t: Terms, magics: Magics, b: Books, strategyId: string, ticket: nat, volume: real): Books
  {
    if OwnsPosition(magics, b, strategyId, ticket) && volume < b.positions[ticket].volume then
      Close(t, b, ticket, Some(volume)).0
    else b
  }

  function HandleCancel(magics: Magics, b: Books, strategyId: string, ticket: nat): Books {
    if OwnsPending(magics, b, strategyId, ticket) then Cancel(b, ticket).0 else b
  }

  function HandleModify(
      magics: Magics, b: Books, strategyId: string, ticket: nat,
      sl: Option<real>, tp: Option<real>, price: Option<real>, volume: Option<real>): Books
  {
    if ticket in b.pending then
      var p := b.pending[ticket];
      if p.magic != MagicOf(magics, strategyId) then b
      else Modify(b, ticket, OrElse(sl, p.sl), OrElse(tp, p.tp), OrElse(price, p.price),
                  Some(if volume.Some? then volume.value else p.volume)).0
    else if OwnsPosition(magics, b, strategyId, ticket) then
      var pos := b.positions[ticket];
      var (b', r) := Modify(b, ticket, OrElse(sl, pos.sl), OrElse(tp, pos.tp), None, None);
      if r.ok then Publish(b', PositionModified(GetOr(b'.positions, ticket, pos))) else b'
    else b
  }

  class OrderRouter {
    const broker: SimBroker
    const risk: RiskMonitor
    const magics: Magics

    constructor (broker: SimBroker, risk: RiskMonitor, magics: Magics)
      ensures this.broker == broker && this.risk == risk && this.magics == magics
    {
      this.broker, this.risk, this.magics := broker, risk, magics;
    }

    method PublishOnBus(e: Event)
      modifies broker
      ensures broker.State() == Publish(old(broker.State()), e)
    {
      broker.published := broker.published + [e];
    }

    method OnSignal(s: Signal, now: int)
      modifies broker, risk
      ensures broker.State() ==
        HandleSignal(broker.terms, magics, risk.cfg, old(broker.State()), old(risk.State()), s, now).0
      ensures risk.State() ==
        HandleSignal(broker.terms, magics, risk.cfg, old(broker.State()), old(risk.State()), s, now).1
    {
      hide Submit, AfterCheck, Judge, Publish;
      if !s.filterPasses {
        PublishOnBus(DecisionMade(s.strategyId, s.symbol, false));
        return;
      }
      var verdict := risk.CheckSignal(s.strategyId, s.symbol, now);
      if verdict != Allowed {
        PublishOnBus(DecisionMade(s.strategyId, s.symbol, false));
        return;
      }
      if !s.exposurePasses {
        PublishOnBus(DecisionMade(s.strategyId, s.symbol, false));
        return;
      }
      SubmitRequest(Request(magics, s));
    }

    method SubmitRequest(req: OrderRequest)
      modifies broker
      ensures broker.State() == Submit(broker.terms, old(broker.State()), req)
    {
      hide Publish, Place;
      PublishOnBus(DecisionMade(req.strategyId, req.symbol, true));
      var r := broker.PlaceOrder(req);
      if r.ok && r.order.Some? && (r.status == FILLED || r.status == PARTIALLY_FILLED) {
        PublishOnBus(OrderFilled(r.order.value));
      } else if r.ok && r.status == SUBMITTED {
      } else if !r.ok {
        PublishOnBus(OrderRejected(req));
      }
    }

    method OnClose(strategyId: string, ticket: nat)
      modifies broker
      ensures broker.State() == HandleClose(broker.terms, magics, old(broker.State()), strategyId, ticket)
    {
      hide Close;
      if ticket !in broker.positions {
        return;
      }
      if broker.positions[ticket].magic != MagicOf(magics, strategyId) {
        return;
      }
      var r := broker.ClosePosition(ticket, None);
    }

    method OnPartialClose(strategyId: string, ticket: nat, volume: real)
      modifies broker
      ensures broker.State() ==
        HandlePartialClose(broker.terms, magics, old(broker.State()), strategyId, ticket, volume)
    {
      hide Close;
      if ticket !in broker.positions {
        return;
      }
      var pos := broker.positions[ticket];
      if pos.magic != MagicOf(magics, strategyId) {
        return;
      }
      if volume >= pos.volume {
        return;
      }
      var r := broker.ClosePosition(ticket, Some(volume));
    }

    method OnCancel(strategyId: string, ticket: nat)
      modifies broker
      ensures broker.State() == HandleCancel(magics, old(broker.State()), strategyId, ticket)
    {
      hide Cancel;
      if ticket !in broker.pending {
        return;
      }
      if broker.pending[ticket].magic != MagicOf(magics, strategyId) {
        return;
      }
      var r := broker.CancelOrder(ticket);
    }

    method OnModify(
        strategyId: string, ticket: nat, sl: Option<real>, tp: Option<real>, price: Option<real>, volume: Option<real>)
      modifies broker
      ensures broker.State() ==
        HandleModify(magics, old(broker.State()), strategyId, ticket, sl, tp, price, volume)
    {
      hide Modify;
      if ticket in broker.pending {
        var p := broker.pending[ticket];
        if p.magic != MagicOf(magics, strategyId) {
          return;
        }
        var newVolume := if volume.Some? then volume.value else p.volume;
        var r := broker.ModifyOrder(ticket, OrElse(sl, p.sl), OrElse(tp, p.tp), OrElse(price, p.price),
                                    Some(newVolume));
        return;
      }
      if ticket !in broker.positions {
        return;
      }
      var pos := broker.positions[ticket];
      if pos.magic != MagicOf(magics, strategyId) {
        return;
      }
      var r := broker.ModifyOrder(ticket, OrElse(sl, pos.sl), OrElse(tp, pos.tp), None, None);
      if !r.ok {
        return;
      }
      PublishOnBus(PositionModified(GetOr(broker.positions, ticket, pos)));
    }
  }
}
