/** The order pipeline: a bounded queue in front of risk, lifecycle tracking and the gateway,
    for every wiring of its optional collaborators. */
module Pipeline {
  import opened Messages
  import opened RingBuffers
  import opened PreTradeRisk
  import opened ExecutionReports
  import opened OrderLifecycle
  import opened Exchange
  import opened Gateway

  datatype PipelineCounters = PipelineCounters(
    enqueued: nat, dropped: nat, rejectedByLifecycle: nat, drained: nat, accepted: nat,
    rejected: nat, rejectedByRisk: nat, rejectedByGateway: nat, transitionErrors: nat)

  const NO_ORDERS := PipelineCounters(0, 0, 0, 0, 0, 0, 0, 0, 0)

  /** The risk manager's limits and the outcomes it has produced so far. */
  datatype RiskView = RiskView(config: RiskConfig, decisions: seq<RiskRejectReason>)

  /** What the gateway reports its actions to: the pipeline's own tracker, nothing, or another tracker.
      The pipeline itself never looks at it. */
  datatype GatewayTracker = SharedTracker | NoTracker | OtherTracker(other: Tracker)

  /** The pipeline with everything it reaches; None stands for a null pointer. */
  datatype PipelineView = PipelineView(
    capacity: nat, queue: seq<OrderRequest>, counters: PipelineCounters, lastRiskReject: RiskRejectReason,
    risk: Option<RiskView>, tracker: Option<Tracker>, route: Option<Route>, gatewayTracker: GatewayTracker)

  // ---------- enqueueing ----------

  predicate Known(p: PipelineView, id: uint64)
  {
    p.tracker.Some? && id in p.tracker.value.records
  }

  predicate Admits(p: PipelineView, r: OrderRequest)
  {
    !Known(p, r.sequenceId) && |p.queue| < p.capacity
  }

  function AfterEnqueue(p: PipelineView, r: OrderRequest): PipelineView
  {
    var c := p.counters;
    if Known(p, r.sequenceId) then p.(counters := c.(rejectedByLifecycle := c.rejectedByLifecycle + 1))
    else if |p.queue| >= p.capacity then p.(counters := c.(dropped := c.dropped + 1))
    else p.(
      counters := c.(enqueued := c.enqueued + 1),
      queue := p.queue + [r],
      tracker := if p.tracker.None? then None else Some(Registered(p.tracker.value, r.sequenceId)))
  }

  // ---------- draining ----------

  /** Reports a step to the tracker, if there is one; a refused step is counted. */
  function Notified(p: PipelineView, e: Event): PipelineView
  {
    if p.tracker.None? then p
    else p.(
      tracker := Some(Offer(p.tracker.value, e)),
      counters := if Takes(p.tracker.value, e) then p.counters
                  else p.counters.(transitionErrors := p.counters.transitionErrors + 1))
  }

  function RiskVerdict(p: PipelineView, r: OrderRequest): RiskRejectReason
  {
    if p.risk.None? then RiskNotRejected else Assess(p.risk.value.config, r)
  }

  function GatewayVerdict(p: PipelineView, r: OrderRequest): OrderRejectReason
  {
    if p.route.None? then InvalidSymbol else OrderReply(p.route.value, r)
  }

  function AfterCheck(p: PipelineView, r: OrderRequest): PipelineView
  {
    p.(counters := p.counters.(drained := p.counters.drained + 1),
       risk := if p.risk.None? then None
               else Some(p.risk.value.(decisions := p.risk.value.decisions + [RiskVerdict(p, r)])))
  }

  function AfterRefusal(p: PipelineView, id: uint64, reason: RiskRejectReason): PipelineView
  {
    var c := p.counters;
    Notified(p.(counters := c.(rejected := c.rejected + 1, rejectedByRisk := c.rejectedByRisk + 1),
                lastRiskReject := reason),
             Event(id, ReportRiskRejected, RiskReason(reason)))
  }

  function AfterReply(p: PipelineView, id: uint64, reply: OrderRejectReason): PipelineView
  {
    var c := p.counters;
    if reply == NotRejected then
      Notified(p.(counters := c.(accepted := c.accepted + 1)), Event(id, ReportExchangeAccepted, NoReason))
    else
      Notified(p.(counters := c.(rejected := c.rejected + 1, rejectedByGateway := c.rejectedByGateway + 1)),
               Event(id, ReportExchangeRejected, ExchangeReason(reply)))
  }

  function AfterSend(p: PipelineView, r: OrderRequest): PipelineView
  {
    var sent := Notified(p, Event(r.sequenceId, ReportSent, NoReason));
    AfterReply(
      sent.(route := if p.route.None? then None else Some(AfterSendOrder(p.route.value, r))),
      r.sequenceId, GatewayVerdict(p, r))
  }

  /** The fate of one order taken off the queue. */
  function Dispatch(p: PipelineView, r: OrderRequest): (after: PipelineView)
    ensures after.queue == p.queue && after.capacity == p.capacity && after.gatewayTracker == p.gatewayTracker
  {
    if RiskVerdict(p, r) != RiskNotRejected
    then AfterRefusal(AfterCheck(p, r), r.sequenceId, RiskVerdict(p, r))
    else AfterSend(AfterCheck(p, r), r)
  }

  function DispatchAll(p: PipelineView, orders: seq<OrderRequest>): (after: PipelineView)
    ensures after.queue == p.queue && after.capacity == p.capacity && after.gatewayTracker == p.gatewayTracker
    decreases |orders|
  {
    if orders == [] then p else DispatchAll(Dispatch(p, orders[0]), orders[1..])
  }

  /** Draining empties the queue and folds the single-order step over it, oldest order first. */
  function Drained(p: PipelineView): PipelineView
  {
    DispatchAll(p.(queue := []), p.queue)
  }

  /** Without a gateway, or without an exchange behind it, an order that risk lets through is rejected
      with invalid_symbol, and its record says so. */
  lemma UnreachableExchangeRejects(p: PipelineView, r: OrderRequest)
    requires p.route.None? || p.route.value.exchange.None?
    requires p.tracker.Some? && StateOf(p.tracker.value.records, r.sequenceId) == Some(Queued)
    requires RiskVerdict(p, r) == RiskNotRejected
    ensures var after := Dispatch(p, r);
            && after.counters.rejectedByGateway == p.counters.rejectedByGateway + 1
            && after.tracker.Some?
            && StateOf(after.tracker.value.records, r.sequenceId) == Some(ExchangeRejected)
            && after.tracker.value.records[r.sequenceId].exchangeRejectReason == InvalidSymbol
  {
    hide Assess, Count, Reported;
  }

  lemma NotifiedIgnoresQueue(p: PipelineView, e: Event, q: seq<OrderRequest>)
    ensures Notified(p.(queue := q), e) == Notified(p, e).(queue := q)
  {
    hide Offer, Takes;
  }

  lemma NotifiedKeepsRoute(p: PipelineView, e: Event)
    ensures Notified(p, e).route == p.route && Notified(p, e).gatewayTracker == p.gatewayTracker
  {
    hide Offer, Takes;
  }

  lemma ReplyIgnoresQueue(p: PipelineView, id: uint64, reply: OrderRejectReason, q: seq<OrderRequest>)
    ensures AfterReply(p.(queue := q), id, reply) == AfterReply(p, id, reply).(queue := q)
  {
    hide Notified;
    var c := p.counters;
    NotifiedIgnoresQueue(
      p.(counters := c.(accepted := c.accepted + 1)), Event(id, ReportExchangeAccepted, NoReason), q);
    NotifiedIgnoresQueue(p.(counters := c.(rejected := c.rejected + 1, rejectedByGateway := c.rejectedByGateway + 1)),
                         Event(id, ReportExchangeRejected, ExchangeReason(reply)), q);
  }

  lemma SendIgnoresQueue(p: PipelineView, r: OrderRequest, q: seq<OrderRequest>)
    ensures AfterSend(p.(queue := q), r) == AfterSend(p, r).(queue := q)
  {
    hide Notified, AfterReply, AfterSendOrder, OrderReply;
    var sent := Event(r.sequenceId, ReportSent, NoReason);
    NotifiedIgnoresQueue(p, sent, q);
    ReplyIgnoresQueue(
      Notified(p, sent).(route := if p.route.None? then None else Some(AfterSendOrder(p.route.value, r))),
      r.sequenceId, GatewayVerdict(p, r), q);
  }

  lemma DispatchIgnoresQueue(p: PipelineView, r: OrderRequest, q: seq<OrderRequest>)
    ensures Dispatch(p.(queue := q), r) == Dispatch(p, r).(queue := q)
  {
    hide Notified, AfterSend, Assess;
    var checked := AfterCheck(p, r);
    SendIgnoresQueue(checked, r, q);
    var c := checked.counters;
    NotifiedIgnoresQueue(
      checked.(counters := c.(rejected := c.rejected + 1, rejectedByRisk := c.rejectedByRisk + 1),
               lastRiskReject := RiskVerdict(p, r)),
      Event(r.sequenceId, ReportRiskRejected, RiskReason(RiskVerdict(p, r))), q);
  }

  lemma DrainedNothing(p: PipelineView)
    requires p.queue == []
    ensures Drained(p) == p
  {
  }

  lemma DrainedHead(p: PipelineView, r: OrderRequest, rest: seq<OrderRequest>)
    requires p.queue == [r] + rest
    ensures Drained(p) == Drained(Dispatch(p.(queue := rest), r))
  {
    DispatchIgnoresQueue(p.(queue := []), r, rest);
    assert p.queue[1..] == rest;
  }

  // ---------- the pipeline ----------

  class OrderPipeline {
    const buffer: RingBuffer<OrderRequest>
    const gateway: OrderGateway?
    const riskManager: PreTradeRiskManager?
    const lifecycleTracker: OrderLifecycleTracker?

    var counters: PipelineCounters  // the nine public counters
    var lastRiskRejectReason: RiskRejectReason

    ghost function Exchange(): ExchangeSimulator?
    {
      if gateway == null then null else gateway.exchange
    }

    ghost function Journal(): ExecutionReportJournal?
    {
      if lifecycleTracker == null then null else lifecycleTracker.executionReports
    }

    ghost function Allowlist(): array?<string>
    {
      if riskManager == null then null else riskManager.allowedSymbols
    }

    ghost function ActionTracker(): OrderLifecycleTracker?
    {
      if gateway == null then null else gateway.lifecycleTracker
    }

    /** Another tracker is shown without its journal, which may be any. */
    ghost function ActionTrackerView(): GatewayTracker
      reads ActionTracker()
    {
      if ActionTracker() == null then NoTracker
      else if ActionTracker() == lifecycleTracker then SharedTracker
      else OtherTracker(Tracker(ActionTracker().history, ActionTracker().records, ActionTracker().counters,
                                ActionTracker().errors, None))
    }

    ghost function View(): PipelineView
      requires riskManager != null ==> riskManager.Shaped()
      reads this, buffer, riskManager, Allowlist(), lifecycleTracker, Journal(), gateway, Exchange(), ActionTracker()
    {
      PipelineView(
        buffer.storage.Length, buffer.Contents, counters, lastRiskRejectReason,
        if riskManager == null then None else Some(RiskView(riskManager.Config(), riskManager.decisions)),
        if lifecycleTracker == null then None else Some(lifecycleTracker.View()),
        if gateway == null then None else Some(gateway.OrderRoute()),
        ActionTrackerView())
    }

    ghost predicate Valid()
      reads buffer, buffer.storage, riskManager, lifecycleTracker, Journal(), Exchange()
    {
      && buffer.Valid()
      && (riskManager != null ==> riskManager.Valid() && riskManager.allowedSymbols as object != buffer.storage)
      && (lifecycleTracker != null ==> lifecycleTracker.Valid())
      && (gateway != null ==> gateway.RouteValid())
    }

    constructor (capacity: nat, gateway: OrderGateway?, riskManager: PreTradeRiskManager?,
                 lifecycleTracker: OrderLifecycleTracker?)
      requires capacity > 0
      requires riskManager != null ==> riskManager.Valid()
      requires lifecycleTracker != null ==> lifecycleTracker.Valid()
      requires gateway != null ==> gateway.RouteValid()
      ensures Valid() && fresh(buffer) && fresh(buffer.storage)
      ensures this.gateway == gateway && this.riskManager == riskManager && this.lifecycleTracker == lifecycleTracker
      ensures View().capacity == capacity && View().queue == [] && View().counters == NO_ORDERS
      ensures View().lastRiskReject == RiskNotRejected
    {
      this.gateway, this.riskManager, this.lifecycleTracker := gateway, riskManager, lifecycleTracker;
      counters := NO_ORDERS;
      lastRiskRejectReason := RiskNotRejected;
      var queue := new RingBuffer<OrderRequest>(capacity);
      buffer := queue;
    }

    method Enqueue(request: OrderRequest) returns (ok: bool)
      requires Valid()
      modifies this, buffer, buffer.storage, lifecycleTracker, Journal()
      ensures Valid() && View() == AfterEnqueue(old(View()), request)
      ensures ok <==> Admits(old(View()), request)
    {
      hide Registered;
      if lifecycleTracker != null && lifecycleTracker.Contains(request.sequenceId) {
        counters := counters.(rejectedByLifecycle := counters.rejectedByLifecycle + 1);
        return false;
      }
      var pushed := buffer.Push(request);
      if !pushed {
        counters := counters.(dropped := counters.dropped + 1);
        return false;
      }
      counters := counters.(enqueued := counters.enqueued + 1);
      if lifecycleTracker != null {
        var registered := lifecycleTracker.RegisterQueued(request.sequenceId);
        if !registered {
          assert false;  // the id is new, so the error counter behind this test never moves
        }
      }
      ok := true;
    }

    method NotifyRiskRejected(sequenceId: uint64, reason: RiskRejectReason)
      requires Valid()
      modifies this, lifecycleTracker, Journal()
      ensures Valid()
      ensures View() == Notified(old(View()), Event(sequenceId, ReportRiskRejected, RiskReason(reason)))
    {
      hide Offer, Takes;
      if lifecycleTracker != null {
        var ok := lifecycleTracker.MarkRiskRejected(sequenceId, reason);
        if !ok {
          counters := counters.(transitionErrors := counters.transitionErrors + 1);
        }
      }
    }

    method NotifySent(sequenceId: uint64)
      requires Valid()
      modifies this, lifecycleTracker, Journal()
      ensures Valid()
      ensures View() == Notified(old(View()), Event(sequenceId, ReportSent, NoReason))
    {
      hide Offer, Takes;
      if lifecycleTracker != null {
        var ok := lifecycleTracker.MarkSent(sequenceId);
        if !ok {
          counters := counters.(transitionErrors := counters.transitionErrors + 1);
        }
      }
    }

    method NotifyExchangeAccepted(sequenceId: uint64)
      requires Valid()
      modifies this, lifecycleTracker, Journal()
      ensures Valid()
      ensures View() == Notified(old(View()), Event(sequenceId, ReportExchangeAccepted, NoReason))
    {
      hide Offer, Takes;
      if lifecycleTracker != null {
        var ok := lifecycleTracker.MarkExchangeAccepted(sequenceId);
        if !ok {
          counters := counters.(transitionErrors := counters.transitionErrors + 1);
        }
      }
    }

    method NotifyExchangeRejected(sequenceId: uint64, reason: OrderRejectReason)
      requires Valid()
      modifies this, lifecycleTracker, Journal()
      ensures Valid()
      ensures View() == Notified(old(View()), Event(sequenceId, ReportExchangeRejected, ExchangeReason(reason)))
    {
      hide Offer, Takes;
      if lifecycleTracker != null {
        var ok := lifecycleTracker.MarkExchangeRejected(sequenceId, reason);
        if !ok {
          counters := counters.(transitionErrors := counters.transitionErrors + 1);
        }
      }
    }

    /** The risk check of an order just taken off the queue; no risk manager accepts everything. */
    method CheckRisk(order: OrderRequest) returns (reason: RiskRejectReason)
      requires Valid()
      modifies this, riskManager
      ensures Valid() && View() == AfterCheck(old(View()), order)
      ensures reason == RiskVerdict(old(View()), order)
    {
      counters := counters.(drained := counters.drained + 1);
      reason := RiskNotRejected;
      if riskManager != null {
        var decision := riskManager.Check(order);
        reason := decision.rejectReason;
      }
    }

    method Forward(order: OrderRequest) returns (reply: OrderRejectReason)
      requires Valid()
      modifies gateway, Exchange()
      ensures Valid()
      ensures View() == old(View()).(route := if gateway == null then None
                                              else Some(AfterSendOrder(old(gateway.OrderRoute()), order)))
      ensures reply == GatewayVerdict(old(View()), order)
    {
      if gateway == null {
        return InvalidSymbol;
      }
      var response := gateway.SendOrder(order);
      reply := response.rejectReason;
    }

    method Refuse(order: OrderRequest, reason: RiskRejectReason)
      requires Valid()
      modifies this, lifecycleTracker, Journal()
      ensures Valid() && View() == AfterRefusal(old(View()), order.sequenceId, reason)
    {
      hide Notified;
      counters := counters.(rejected := counters.rejected + 1);
      counters := counters.(rejectedByRisk := counters.rejectedByRisk + 1);
      lastRiskRejectReason := reason;
      NotifyRiskRejected(order.sequenceId, reason);
    }

    method Settle(order: OrderRequest, reply: OrderRejectReason)
      requires Valid()
      modifies this, lifecycleTracker, Journal()
      ensures Valid() && View() == AfterReply(old(View()), order.sequenceId, reply)
    {
      hide Notified;
      if reply == NotRejected {
        counters := counters.(accepted := counters.accepted + 1);
        NotifyExchangeAccepted(order.sequenceId);
      } else {
        counters := counters.(rejected := counters.rejected + 1);
        counters := counters.(rejectedByGateway := counters.rejectedByGateway + 1);
        NotifyExchangeRejected(order.sequenceId, reply);
      }
    }

    method Send(order: OrderRequest)
      requires Valid()
      modifies this, lifecycleTracker, Journal(), gateway, Exchange()
      ensures Valid() && View() == AfterSend(old(View()), order)
    {
      hide Offer, Takes, AfterReply, AfterSendOrder, OrderReply;
      NotifySent(order.sequenceId);
      var reply := Forward(order);
      Settle(order, reply);
    }

    /** One pass of the drain loop. */
    method Process(order: OrderRequest)
      requires Valid()
      modifies this, riskManager, lifecycleTracker, Journal(), gateway, Exchange()
      ensures Valid() && View() == Dispatch(old(View()), order)
    {
      hide AfterCheck, AfterRefusal, AfterSend, Assess;
      var reason := CheckRisk(order);
      if reason != RiskNotRejected {
        Refuse(order, reason);
      } else {
        Send(order);
      }
    }

    method Drain() returns (drainedNow: nat)
      requires Valid()
      modifies this, buffer, riskManager, lifecycleTracker, Journal(), gateway, Exchange()
      ensures Valid() && View() == Drained(old(View()))
      ensures drainedNow == |old(buffer.Contents)| && buffer.Contents == []
    {
      hide Drained, Dispatch;
      drainedNow := 0;
      while true
        invariant Valid()
        invariant Drained(View()) == Drained(old(View()))
        invariant drainedNow + |buffer.Contents| == |old(buffer.Contents)|
        decreases |buffer.Contents|
      {
        ghost var before := View();
        var order := buffer.Pop();
        if order.None? {
          DrainedNothing(before);
          break;
        }
        DrainedHead(before, order.value, buffer.Contents);
        drainedNow := drainedNow + 1;
        Process(order.value);
      }
    }
  }
}
