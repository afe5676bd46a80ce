/** What a gateway that does not report to the pipeline's tracker changes. Amends and cancels are then
    invisible to queue, records and risk, and an accepted cancel leaves the tracker showing an order
    that the exchange no longer has. */
module GatewayWiring {
  import opened Messages
  import opened PreTradeRisk
  import opened ExecutionReports
  import opened OrderLifecycle
  import opened LifecycleLaws
  import opened Exchange
  import opened Gateway
  import opened Pipeline
  import opened SystemRuns
  import opened OrderBook

  // ---------- when one action keeps the views together ----------

  lemma RecordsChangeAt(before: Records, after: Records, x: ExchangeView, y: ExchangeView, q: seq<OrderRequest>,
                        id: uint64)
    requires QueueIsQueued(q, before) && ExchangeMirrors(x, before) && NothingInFlight(before)
    requires forall other :: other != id ==> StateOf(after, other) == StateOf(before, other)
    requires StateOf(before, id) == Some(ExchangeAccepted)
    requires StateOf(after, id) in {Some(ExchangeAccepted), Some(Cancelled)}
    requires y.seen == x.seen
    requires forall other :: other in y.active
                             <==> other in x.active && (other == id ==> StateOf(after, id) == Some(ExchangeAccepted))
    ensures QueueIsQueued(q, after) && ExchangeMirrors(y, after) && NothingInFlight(after)
  {
    forall other
      ensures other in after && after[other].state == Queued <==> other in before && before[other].state == Queued
      ensures other in y.active <==> other in after && after[other].state == ExchangeAccepted
      ensures other in y.seen
              <==> other in after && (after[other].state == ExchangeAccepted || after[other].state == Cancelled)
      ensures other in after ==> after[other].state !in {Created, Sent, CancelPending, AmendPending}
    {
      assert other != id ==> StateOf(after, other) == StateOf(before, other);
    }
  }

  lemma CancelKeepsOthers(g: GatewayView, c: CancelRequest, id: uint64)
    requires g.tracker.Some? && id != c.sequenceId
    ensures AfterSendCancel(g, c).tracker.Some?
    ensures StateOf(AfterSendCancel(g, c).tracker.value.records, id) == StateOf(g.tracker.value.records, id)
  {
    OthersUntouched(g, CancelAction(c), id);
  }

  /** From any coherent state a cancel keeps the views together if and only if the gateway reports to the
      pipeline's tracker, or the exchange has no such order, or the gateway's own tracker bounces it. */
  lemma CancelKeepsCoherenceIff(p: PipelineView, c: CancelRequest)
    requires Coherent(p)
    ensures Coherent(AfterCommand(p, SendCancel(c)))
            <==> || p.gatewayTracker.SharedTracker?
                 || c.sequenceId !in p.route.value.exchange.value.active
                 || Bounces(GatewayOf(p), c.sequenceId, ReportCancelPending)
  {
    if p.gatewayTracker.SharedTracker? {
      SharedCancelKeepsCoherence(p, c);
    } else {
      UnsharedCancel(p, c);
    }
  }

  lemma SharedCancelKeepsCoherence(p: PipelineView, c: CancelRequest)
    requires Coherent(p) && p.gatewayTracker.SharedTracker?
    ensures Coherent(AfterCommand(p, SendCancel(c)))
  {
    hide Offer, Takes, QueueIsQueued, NothingInFlight;
    var g := GatewayOf(p);
    CancelNeverStrands(g, c);
    if CancelReply(g, c) != CancelInvalidState {
      forall other | other != c.sequenceId
        ensures StateOf(AfterSendCancel(g, c).tracker.value.records, other) == StateOf(g.tracker.value.records, other)
      {
        CancelKeepsOthers(g, c, other);
      }
      RecordsChangeAt(g.tracker.value.records, AfterSendCancel(g, c).tracker.value.records, g.exchange.value,
                      AfterSendCancel(g, c).exchange.value, p.queue, c.sequenceId);
    }
  }

  lemma UnsharedCancel(p: PipelineView, c: CancelRequest)
    requires Coherent(p) && !p.gatewayTracker.SharedTracker?
    ensures Coherent(AfterCommand(p, SendCancel(c)))
            <==> || c.sequenceId !in p.route.value.exchange.value.active
                 || Bounces(GatewayOf(p), c.sequenceId, ReportCancelPending)
  {
    hide Offer, Takes, QueueIsQueued, NothingInFlight;
    var x := p.route.value.exchange.value;
    if c.sequenceId !in x.active {
      assert x.active - {c.sequenceId} == x.active;
    }
  }

  lemma AmendKeepsOthers(g: GatewayView, a: AmendRequest, id: uint64)
    requires g.tracker.Some? && id != a.sequenceId
    ensures AfterSendAmend(g, a).tracker.Some?
    ensures StateOf(AfterSendAmend(g, a).tracker.value.records, id) == StateOf(g.tracker.value.records, id)
  {
    OthersUntouched(g, AmendAction(a), id);
  }

  /** An amend always keeps them together, whatever the gateway reports to. */
  lemma AmendKeepsCoherence(p: PipelineView, a: AmendRequest)
    requires Coherent(p)
    ensures Coherent(AfterCommand(p, SendAmend(a)))
  {
    hide Offer, Takes, QueueIsQueued, NothingInFlight;
    var g := GatewayOf(p);
    if p.gatewayTracker.SharedTracker? {
      AmendNeverStrands(g, a);
      if AmendReply(g, a) != AmendInvalidState {
        forall other | other != a.sequenceId
          ensures StateOf(AfterSendAmend(g, a).tracker.value.records, other) == StateOf(g.tracker.value.records, other)
        {
          AmendKeepsOthers(g, a, other);
        }
        RecordsChangeAt(g.tracker.value.records, AfterSendAmend(g, a).tracker.value.records, g.exchange.value,
                        AfterSendAmend(g, a).exchange.value, p.queue, a.sequenceId);
      }
    }
  }

  // ---------- actions the tracker does not see ----------

  function OrdersOnly(commands: seq<Command>): seq<Command>
  {
    if commands == [] then []
    else (if commands[0].Enqueue? || commands[0].Drain? then [commands[0]] else []) + OrdersOnly(commands[1..])
  }

  predicate SameSeen(a: Option<Route>, b: Option<Route>)
  {
    && (a.Some? <==> b.Some?)
    && (a.Some? ==> (a.value.exchange.Some? <==> b.value.exchange.Some?)
                    && (a.value.exchange.Some? ==> a.value.exchange.value.seen == b.value.exchange.value.seen))
  }

  /** All but the gateway's counters and tracker and the exchange's active orders agree. */
  ghost predicate AgreeUpstream(a: PipelineView, b: PipelineView)
  {
    && a.(route := None, gatewayTracker := NoTracker) == b.(route := None, gatewayTracker := NoTracker)
    && SameSeen(a.route, b.route)
  }

  lemma NotifiedAgrees(a: PipelineView, b: PipelineView, e: Event)
    requires AgreeUpstream(a, b)
    ensures AgreeUpstream(Notified(a, e), Notified(b, e))
  {
    hide Offer, Takes, SameSeen;
  }

  lemma ReplyAgrees(a: PipelineView, b: PipelineView, id: uint64, reply: OrderRejectReason)
    requires AgreeUpstream(a, b)
    ensures AgreeUpstream(AfterReply(a, id, reply), AfterReply(b, id, reply))
  {
    hide Notified, SameSeen;
    var c, d := a.counters, b.counters;
    if reply == NotRejected {
      NotifiedAgrees(a.(counters := c.(accepted := c.accepted + 1)), b.(counters := d.(accepted := d.accepted + 1)),
                     Event(id, ReportExchangeAccepted, NoReason));
    } else {
      NotifiedAgrees(
        a.(counters := c.(rejected := c.rejected + 1, rejectedByGateway := c.rejectedByGateway + 1)),
        b.(counters := d.(rejected := d.rejected + 1, rejectedByGateway := d.rejectedByGateway + 1)),
        Event(id, ReportExchangeRejected, ExchangeReason(reply)));
    }
  }

  /** The exchange's verdict on a submission depends on the ids it has seen, not on what is active. */
  lemma SubmitAgrees(a: Option<Route>, b: Option<Route>, r: OrderRequest)
    requires SameSeen(a, b) && a.Some?
    ensures OrderReply(a.value, r) == OrderReply(b.value, r)
    ensures SameSeen(Some(AfterSendOrder(a.value, r)), Some(AfterSendOrder(b.value, r)))
  {
  }

  lemma SendAgrees(a: PipelineView, b: PipelineView, r: OrderRequest)
    requires AgreeUpstream(a, b)
    ensures AgreeUpstream(AfterSend(a, r), AfterSend(b, r))
  {
    hide Notified, AfterReply, AfterSendOrder, OrderReply, SameSeen;
    var sent := Event(r.sequenceId, ReportSent, NoReason);
    NotifiedAgrees(a, b, sent);
    NotifiedKeepsRoute(a, sent);
    NotifiedKeepsRoute(b, sent);
    BothRouted(a, b);
    if a.route.Some? {
      SubmitAgrees(a.route, b.route, r);
    }
    ReplyAgrees(Notified(a, sent).(route := if a.route.None? then None else Some(AfterSendOrder(a.route.value, r))),
                Notified(b, sent).(route := if b.route.None? then None else Some(AfterSendOrder(b.route.value, r))),
                r.sequenceId, GatewayVerdict(a, r));
  }

  lemma BothRouted(a: PipelineView, b: PipelineView)
    requires AgreeUpstream(a, b)
    ensures a.route.Some? <==> b.route.Some?
  {
  }

  lemma DispatchAgrees(a: PipelineView, b: PipelineView, r: OrderRequest)
    requires AgreeUpstream(a, b)
    ensures AgreeUpstream(Dispatch(a, r), Dispatch(b, r))
  {
    hide Notified, AfterSend, Assess, SameSeen;
    var c, d := AfterCheck(a, r), AfterCheck(b, r);
    SendAgrees(c, d, r);
    var k, l := c.counters, d.counters;
    var verdict := RiskVerdict(a, r);
    NotifiedAgrees(
      c.(counters := k.(rejected := k.rejected + 1, rejectedByRisk := k.rejectedByRisk + 1), lastRiskReject := verdict),
      d.(counters := l.(rejected := l.rejected + 1, rejectedByRisk := l.rejectedByRisk + 1), lastRiskReject := verdict),
      Event(r.sequenceId, ReportRiskRejected, RiskReason(verdict)));
  }

  lemma {:induction false} DispatchAllAgrees(a: PipelineView, b: PipelineView, orders: seq<OrderRequest>)
    requires AgreeUpstream(a, b)
    ensures AgreeUpstream(DispatchAll(a, orders), DispatchAll(b, orders))
    decreases |orders|
  {
    hide Dispatch, AgreeUpstream;
    if orders != [] {
      DispatchAgrees(a, b, orders[0]);
      DispatchAllAgrees(Dispatch(a, orders[0]), Dispatch(b, orders[0]), orders[1..]);
    }
  }

  lemma OrderCommandAgrees(a: PipelineView, b: PipelineView, command: Command)
    requires AgreeUpstream(a, b) && (command.Enqueue? || command.Drain?)
    ensures AgreeUpstream(AfterCommand(a, command), AfterCommand(b, command))
    ensures AfterCommand(a, command).gatewayTracker == a.gatewayTracker
  {
    hide Registered, DispatchAll, SameSeen;
    if command.Drain? {
      DispatchAllAgrees(a.(queue := []), b.(queue := []), a.queue);
    }
  }

  lemma ActionAgrees(a: PipelineView, b: PipelineView, command: Command)
    requires AgreeUpstream(a, b) && (command.SendAmend? || command.SendCancel?) && !a.gatewayTracker.SharedTracker?
    ensures AgreeUpstream(AfterCommand(a, command), b)
    ensures !AfterCommand(a, command).gatewayTracker.SharedTracker?
  {
    hide Offer, Takes, CancelReply, CancelSettled, AmendReply, AmendSettled, CancelOutcome, AmendOutcome;
  }

  /** Behind a gateway that does not report to the pipeline's tracker, amends and cancels are invisible:
      the same commands without them lead to the same queue, records, history, journal, risk outcomes,
      pipeline counters and seen ids. */
  lemma {:induction false} UnsharedActionsAreInvisible(a: PipelineView, b: PipelineView, commands: seq<Command>)
    requires AgreeUpstream(a, b) && !a.gatewayTracker.SharedTracker?
    ensures AgreeUpstream(Run(a, commands), Run(b, OrdersOnly(commands)))
    ensures !Run(a, commands).gatewayTracker.SharedTracker?
    decreases |commands|
  {
    hide AgreeUpstream, AfterCommand;
    if commands != [] {
      var first, rest := commands[0], commands[1..];
      if first.Enqueue? || first.Drain? {
        OrderCommandAgrees(a, b, first);
        assert OrdersOnly(commands)[1..] == OrdersOnly(rest);
        UnsharedActionsAreInvisible(AfterCommand(a, first), AfterCommand(b, first), rest);
      } else {
        ActionAgrees(a, b, first);
        assert OrdersOnly(commands) == OrdersOnly(rest);
        UnsharedActionsAreInvisible(AfterCommand(a, first), b, rest);
      }
    }
  }

  // ---------- cancelled orders are gone ----------

  /** An id the exchange has seen is active, or one of the accepted cancels closed it. */
  predicate Accounted(route: Route)
  {
    route.exchange.Some? ==>
      var x := route.exchange.value;
      x.active.Keys <= x.seen && |x.seen| == |x.active.Keys| + route.counters.cancelsAccepted
  }

  predicate RouteAccounted(p: PipelineView)
  {
    p.route.Some? ==> Accounted(p.route.value)
  }

  lemma SubmitKeepsAccounted(route: Route, r: OrderRequest)
    requires Accounted(route)
    ensures Accounted(AfterSendOrder(route, r))
  {
    if route.exchange.Some? && OrderReply(route, r) == NotRejected {
      var x := route.exchange.value;
      assert AfterSubmit(x, r).active.Keys == x.active.Keys + {r.sequenceId};
    }
  }

  lemma CancelKeepsAccounted(g: GatewayView, c: CancelRequest)
    requires Accounted(Route(g.counters, g.exchange))
    ensures Accounted(Route(AfterSendCancel(g, c).counters, AfterSendCancel(g, c).exchange))
  {
    hide Offer, Takes, CancelSettled;
    if g.exchange.Some? {
      var x := g.exchange.value;
      assert AfterCancel(x, c).active.Keys == x.active.Keys - {c.sequenceId};
    }
  }

  lemma AmendKeepsAccounted(g: GatewayView, a: AmendRequest)
    requires Accounted(Route(g.counters, g.exchange))
    ensures Accounted(Route(AfterSendAmend(g, a).counters, AfterSendAmend(g, a).exchange))
  {
    hide Offer, Takes, AmendSettled;
    if g.exchange.Some? {
      var x := g.exchange.value;
      assert AfterAmend(x, a).active.Keys == x.active.Keys;
    }
  }

  lemma DispatchKeepsAccounted(p: PipelineView, r: OrderRequest)
    requires RouteAccounted(p)
    ensures RouteAccounted(Dispatch(p, r))
  {
    hide Offer, Takes, Assess, OrderReply, AfterSendOrder, Accounted;
    if p.route.Some? {
      SubmitKeepsAccounted(p.route.value, r);
    }
  }

  lemma {:induction false} DispatchAllKeepsAccounted(p: PipelineView, orders: seq<OrderRequest>)
    requires RouteAccounted(p)
    ensures RouteAccounted(DispatchAll(p, orders))
    decreases |orders|
  {
    hide Dispatch, RouteAccounted;
    if orders != [] {
      DispatchKeepsAccounted(p, orders[0]);
      DispatchAllKeepsAccounted(Dispatch(p, orders[0]), orders[1..]);
    }
  }

  lemma CommandKeepsAccounted(p: PipelineView, command: Command)
    requires RouteAccounted(p)
    ensures RouteAccounted(AfterCommand(p, command))
  {
    hide DispatchAll, Registered, Accounted, AfterSendCancel, AfterSendAmend;
    match command
    case Enqueue(_) =>
    case Drain => DispatchAllKeepsAccounted(p.(queue := []), p.queue);
    case SendAmend(a) =>
      if p.route.Some? {
        AmendKeepsAccounted(GatewayOf(p), a);
      }
    case SendCancel(c) =>
      if p.route.Some? {
        CancelKeepsAccounted(GatewayOf(p), c);
      }
  }

  /** In every run, under every wiring, the gateway has accepted exactly as many cancels as the exchange
      has seen ids that are not active any more. */
  lemma {:induction false} CancelledAreGone(p: PipelineView, commands: seq<Command>)
    requires RouteAccounted(p)
    ensures RouteAccounted(Run(p, commands))
    decreases |commands|
  {
    hide RouteAccounted, AfterCommand;
    if commands != [] {
      CommandKeepsAccounted(p, commands[0]);
      CancelledAreGone(AfterCommand(p, commands[0]), commands[1..]);
    }
  }

  lemma FreshIsAccounted(p: PipelineView)
    requires Fresh(p)
    ensures RouteAccounted(p)
  {
  }

  // ---------- how far the views drift apart ----------

  lemma DispatchAcceptsNoCancel(p: PipelineView, r: OrderRequest)
    ensures CancelsAccepted(Dispatch(p, r)) == CancelsAccepted(p)
  {
    hide Offer, Takes, Assess, OrderReply;
  }

  function CancelsAccepted(p: PipelineView): nat
  {
    if p.route.None? then 0 else p.route.value.counters.cancelsAccepted
  }

  lemma {:induction false} DispatchAllAcceptsNoCancel(p: PipelineView, orders: seq<OrderRequest>)
    ensures CancelsAccepted(DispatchAll(p, orders)) == CancelsAccepted(p)
    decreases |orders|
  {
    hide Dispatch, CancelsAccepted;
    if orders != [] {
      DispatchAcceptsNoCancel(p, orders[0]);
      DispatchAllAcceptsNoCancel(Dispatch(p, orders[0]), orders[1..]);
    }
  }

  lemma {:induction false} OrdersAcceptNoCancel(p: PipelineView, commands: seq<Command>)
    ensures CancelsAccepted(Run(p, OrdersOnly(commands))) == CancelsAccepted(p)
    decreases |commands|
  {
    hide CancelsAccepted, DispatchAll, Registered, AfterSendAmend, AfterSendCancel;
    if commands != [] {
      var first, rest := commands[0], commands[1..];
      if first.Enqueue? || first.Drain? {
        assert OrdersOnly(commands)[1..] == OrdersOnly(rest);
        DispatchAllAcceptsNoCancel(p.(queue := []), p.queue);
        OrderCommandAcceptsNoCancel(p, first);
        OrdersAcceptNoCancel(AfterCommand(p, first), rest);
      } else {
        assert OrdersOnly(commands) == OrdersOnly(rest);
        OrdersAcceptNoCancel(p, rest);
      }
    }
  }

  lemma OrderCommandAcceptsNoCancel(p: PipelineView, command: Command)
    requires command.Enqueue? || command.Drain?
    ensures CancelsAccepted(AfterCommand(p, command)) == CancelsAccepted(p)
  {
    hide DispatchAll, Registered;
    DispatchAllAcceptsNoCancel(p.(queue := []), p.queue);
  }

  lemma SubsetOfSameSize(part: set<uint64>, whole: set<uint64>)
    requires part <= whole
    ensures part == whole <==> |part| == |whole|
  {
    assert whole == part + (whole - part);
  }

  /** The orders the tracker shows as accepted are exactly the ids the exchange has seen. */
  lemma AcceptedIsSeen(p: PipelineView, commands: seq<Command>)
    requires Fresh(p) && Tracked(p) && !p.gatewayTracker.SharedTracker?
    ensures var after := Run(p, commands);
            && Tracked(after) && RouteAccounted(after)
            && OrdersIn(after.tracker.value.records, ExchangeAccepted) == after.route.value.exchange.value.seen
            && OrdersIn(after.tracker.value.records, Cancelled) == {}
            && QueueIsQueued(after.queue, after.tracker.value.records) && NothingInFlight(after.tracker.value.records)
            && after.counters.transitionErrors == 0
  {
    hide Run, Fresh, QueueIsQueued, NothingInFlight;
    var after := Run(p, commands);
    var shared := p.(gatewayTracker := SharedTracker);
    assert Fresh(shared) && AgreeUpstream(p, shared) && CancelsAccepted(shared) == 0 by { SharedIsFresh(p); }
    UnsharedActionsAreInvisible(p, shared, commands);
    EveryRunIsCoherent(shared, OrdersOnly(commands));
    OrdersAcceptNoCancel(shared, commands);
    FreshIsAccounted(shared);
    CancelledAreGone(shared, OrdersOnly(commands));
    FreshIsAccounted(p);
    CancelledAreGone(p, commands);
    var x := Run(shared, OrdersOnly(commands)).route.value.exchange.value;
    SubsetOfSameSize(x.active.Keys, x.seen);
    var records := after.tracker.value.records;
    assert forall id :: id in x.active <==> id in x.seen;
    assert forall id :: id in OrdersIn(records, ExchangeAccepted) <==> id in x.seen;
    assert forall id :: id in OrdersIn(records, Cancelled) ==> id in OrdersIn(records, ExchangeAccepted);
  }

  lemma SharedIsFresh(p: PipelineView)
    requires Fresh(p)
    ensures var shared := p.(gatewayTracker := SharedTracker);
            Fresh(shared) && AgreeUpstream(p, shared) && CancelsAccepted(shared) == 0
  {
  }

  /** From fresh components, behind a gateway that does not report to the pipeline's tracker, the tracker
      shows as many accepted orders that the exchange no longer has as cancels were accepted. */
  lemma UnsharedRunDriftsByCancels(p: PipelineView, commands: seq<Command>)
    requires Fresh(p) && Tracked(p) && !p.gatewayTracker.SharedTracker?
    ensures var after := Run(p, commands);
            && Tracked(after)
            && var accepted := OrdersIn(after.tracker.value.records, ExchangeAccepted);
            var active := after.route.value.exchange.value.active.Keys;
            && active <= accepted && |accepted - active| == CancelsAccepted(after)
            && (Coherent(after) <==> CancelsAccepted(after) == 0)
  {
    hide Run, Fresh, QueueIsQueued, NothingInFlight;
    AcceptedIsSeen(p, commands);
    var after := Run(p, commands);
    var records, x := after.tracker.value.records, after.route.value.exchange.value;
    SubsetOfSameSize(x.active.Keys, x.seen);
    assert x.seen == x.active.Keys + (x.seen - x.active.Keys);
    DriftIsIncoherence(x, records);
  }

  lemma DriftIsIncoherence(x: ExchangeView, records: Records)
    requires OrdersIn(records, ExchangeAccepted) == x.seen && OrdersIn(records, Cancelled) == {}
    requires x.active.Keys <= x.seen
    ensures ExchangeMirrors(x, records) <==> x.active.Keys == x.seen
  {
    assert forall id :: id in x.seen <==> id in records && records[id].state == ExchangeAccepted by {
      assert forall id :: id in OrdersIn(records, ExchangeAccepted) <==> id in x.seen;
    }
    forall id | id in records
      ensures records[id].state != Cancelled
    {
      assert id !in OrdersIn(records, Cancelled);
    }
  }

  /** From fresh components with pipeline tracker and exchange, the views agree after a run if and only if
      the gateway reports to the pipeline's tracker or has accepted no cancel. */
  lemma CoherentIffSharedOrNoCancel(p: PipelineView, commands: seq<Command>)
    requires Fresh(p) && Tracked(p)
    ensures Coherent(Run(p, commands)) <==> p.gatewayTracker.SharedTracker? || CancelsAccepted(Run(p, commands)) == 0
  {
    hide Run, Fresh, Coherent, CancelsAccepted;
    if p.gatewayTracker.SharedTracker? {
      EveryRunIsCoherent(p, commands);
    } else {
      UnsharedRunDriftsByCancels(p, commands);
    }
  }

  // ---------- the same on objects ----------

  function Unjournaled(g: GatewayView): GatewayView
  {
    g.(tracker := if g.tracker.None? then None else Some(g.tracker.value.(journal := None)))
  }

  lemma OfferIgnoresJournal(t: Tracker, e: Event)
    ensures Offer(t.(journal := None), e) == Offer(t, e).(journal := None)
    ensures Takes(t.(journal := None), e) <==> Takes(t, e)
  {
  }

  lemma CancelIgnoresJournal(g: GatewayView, c: CancelRequest)
    ensures AfterSendCancel(Unjournaled(g), c) == Unjournaled(AfterSendCancel(g, c))
    ensures CancelReply(Unjournaled(g), c) == CancelReply(g, c)
  {
    hide Offer, Takes, CancelOutcome, AfterCancel, CancelSettled;
    if g.tracker.Some? {
      var t, pending := g.tracker.value, Event(c.sequenceId, ReportCancelPending, NoReason);
      OfferIgnoresJournal(t, pending);
      OfferIgnoresJournal(Offer(t, pending), CancelSettled(c.sequenceId, CancelReply(g, c)));
    }
  }

  lemma AmendIgnoresJournal(g: GatewayView, a: AmendRequest)
    ensures AfterSendAmend(Unjournaled(g), a) == Unjournaled(AfterSendAmend(g, a))
    ensures AmendReply(Unjournaled(g), a) == AmendReply(g, a)
  {
    hide Offer, Takes, AmendOutcome, AfterAmend, AmendSettled;
    if g.tracker.Some? {
      var t, pending := g.tracker.value, Event(a.sequenceId, ReportAmendPending, NoReason);
      OfferIgnoresJournal(t, pending);
      OfferIgnoresJournal(Offer(t, pending), AmendSettled(a.sequenceId, AmendReply(g, a)));
    }
  }

  /** Two trackers do not write one journal. */
  ghost predicate OwnJournals(pipeline: OrderPipeline)
  {
    var acting := pipeline.ActionTracker();
    acting != null && acting != pipeline.lifecycleTracker && acting.executionReports != null ==>
      acting.executionReports != pipeline.Journal()
  }

  /** Cancelling through the gateway behind a pipeline, whatever the two are wired to. */
  method Cancel(pipeline: OrderPipeline, gateway: OrderGateway, request: CancelRequest)
    returns (response: CancelResponse)
    requires pipeline.gateway == gateway && pipeline.Valid() && gateway.Valid() && OwnJournals(pipeline)
    modifies gateway, gateway.exchange, gateway.lifecycleTracker, gateway.Journal()
    ensures pipeline.Valid() && gateway.Valid()
    ensures pipeline.View() == AfterCommand(old(pipeline.View()), SendCancel(request))
    ensures response.sequenceId == request.sequenceId
    ensures response.accepted <==> response.rejectReason == CancelNotRejected
    ensures response.rejectReason == CancelReply(old(GatewayOf(pipeline.View())), request)
  {
    hide AfterSendCancel, CancelReply;
    CancelIgnoresJournal(gateway.View(), request);
    response := gateway.SendCancel(request);
  }

  /** The same for amending. */
  method Amend(pipeline: OrderPipeline, gateway: OrderGateway, request: AmendRequest)
    returns (response: AmendResponse)
    requires pipeline.gateway == gateway && pipeline.Valid() && gateway.Valid() && OwnJournals(pipeline)
    modifies gateway, gateway.exchange, gateway.lifecycleTracker, gateway.Journal()
    ensures pipeline.Valid() && gateway.Valid()
    ensures pipeline.View() == AfterCommand(old(pipeline.View()), SendAmend(request))
    ensures response.sequenceId == request.sequenceId
    ensures response.accepted <==> response.rejectReason == AmendNotRejected
    ensures response.rejectReason == AmendReply(old(GatewayOf(pipeline.View())), request)
  {
    hide AfterSendAmend, AmendReply;
    AmendIgnoresJournal(gateway.View(), request);
    response := gateway.SendAmend(request);
  }
}
