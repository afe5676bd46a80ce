/** The order gateway: forwards submissions to the exchange, and runs cancels and amends
    in two phases, pending in the lifecycle tracker first and settled after the exchange replied. */
module Gateway {
  import opened Messages
  import opened ExecutionReports
  import opened OrderLifecycle
  import opened Exchange

  datatype GatewayCounters = GatewayCounters(
    ordersSent: nat, ordersAccepted: nat, ordersRejected: nat,
    cancelsSent: nat, cancelsAccepted: nat, cancelsRejected: nat,
    amendsSent: nat, amendsAccepted: nat, amendsRejected: nat,
    transitionErrors: nat)

  const NO_TRAFFIC := GatewayCounters(0, 0, 0, 0, 0, 0, 0, 0, 0, 0)

  /** The gateway with the collaborators it reaches; None stands for a null pointer. */
  datatype GatewayView = GatewayView(
    counters: GatewayCounters, exchange: Option<ExchangeView>, tracker: Option<Tracker>)

  // ---------- submission ----------

  /** The part of a gateway that a submission uses. */
  datatype Route = Route(counters: GatewayCounters, exchange: Option<ExchangeView>)

  function OrderReply(route: Route, request: OrderRequest): OrderRejectReason
  {
    if route.exchange.None? then InvalidSymbol else SubmitOutcome(route.exchange.value, request)
  }

  function AfterSendOrder(route: Route, request: OrderRequest): Route
  {
    var sent := route.counters.(ordersSent := route.counters.ordersSent + 1);
    Route(
      if OrderReply(route, request) == NotRejected
      then sent.(ordersAccepted := sent.ordersAccepted + 1)
      else sent.(ordersRejected := sent.ordersRejected + 1),
      if route.exchange.None? then None else Some(AfterSubmit(route.exchange.value, request)))
  }

  // ---------- two-phase actions ----------

  /** An action bounces when the tracker refuses to make it pending. */
  predicate Bounces(g: GatewayView, id: uint64, pending: ExecutionReportType)
  {
    g.tracker.Some? && !Takes(g.tracker.value, Event(id, pending, NoReason))
  }

  // ---------- cancel ----------

  function CancelReply(g: GatewayView, request: CancelRequest): CancelRejectReason
  {
    if Bounces(g, request.sequenceId, ReportCancelPending) then CancelInvalidState
    else if g.exchange.None? then CancelUnknownOrder
    else CancelOutcome(g.exchange.value, request)
  }

  function BegunCancel(c: GatewayCounters, pending: bool): GatewayCounters
  {
    var begun := c.(cancelsSent := c.cancelsSent + 1);
    if pending then begun
    else begun.(cancelsRejected := begun.cancelsRejected + 1, transitionErrors := begun.transitionErrors + 1)
  }

  function BookedCancel(c: GatewayCounters, accepted: bool, settled: bool): GatewayCounters
  {
    var booked := if accepted then c.(cancelsAccepted := c.cancelsAccepted + 1)
                  else c.(cancelsRejected := c.cancelsRejected + 1);
    if settled then booked else booked.(transitionErrors := booked.transitionErrors + 1)
  }

  /** How a pending cancel ends. */
  function CancelSettled(sequenceId: uint64, reason: CancelRejectReason): Event
  {
    if reason == CancelNotRejected then Event(sequenceId, ReportCancelled, NoReason)
    else Event(sequenceId, ReportCancelRejected, CancelReason(reason))
  }

  /** A pending cancel can always be settled, whatever the answer. */
  lemma PendingCancelSettles(t: Tracker, id: uint64, reason: CancelRejectReason)
    ensures var pending := Event(id, ReportCancelPending, NoReason);
            Takes(t, pending) ==> Takes(Offer(t, pending), CancelSettled(id, reason))
  {
  }

  /** A bounced cancel only counts; any other one reaches the exchange and is settled at once. */
  function AfterSendCancel(g: GatewayView, request: CancelRequest): GatewayView
  {
    var pending := Event(request.sequenceId, ReportCancelPending, NoReason);
    if Bounces(g, request.sequenceId, ReportCancelPending) then
      GatewayView(BegunCancel(g.counters, false), g.exchange, Some(Offer(g.tracker.value, pending)))
    else
      GatewayView(
        BookedCancel(BegunCancel(g.counters, true), CancelReply(g, request) == CancelNotRejected, true),
        if g.exchange.None? then None else Some(AfterCancel(g.exchange.value, request)),
        if g.tracker.None? then None
        else Some(Offer(Offer(g.tracker.value, pending), CancelSettled(request.sequenceId, CancelReply(g, request)))))
  }

  // ---------- amend ----------

  function AmendReply(g: GatewayView, request: AmendRequest): AmendRejectReason
  {
    if Bounces(g, request.sequenceId, ReportAmendPending) then AmendInvalidState
    else if g.exchange.None? then AmendUnknownOrder
    else AmendOutcome(g.exchange.value, request)
  }

  function BegunAmend(c: GatewayCounters, pending: bool): GatewayCounters
  {
    var begun := c.(amendsSent := c.amendsSent + 1);
    if pending then begun
    else begun.(amendsRejected := begun.amendsRejected + 1, transitionErrors := begun.transitionErrors + 1)
  }

  function BookedAmend(c: GatewayCounters, accepted: bool, settled: bool): GatewayCounters
  {
    var booked := if accepted then c.(amendsAccepted := c.amendsAccepted + 1)
                  else c.(amendsRejected := c.amendsRejected + 1);
    if settled then booked else booked.(transitionErrors := booked.transitionErrors + 1)
  }

  /** How a pending amend ends. */
  function AmendSettled(sequenceId: uint64, reason: AmendRejectReason): Event
  {
    if reason == AmendNotRejected then Event(sequenceId, ReportAmendAccepted, NoReason)
    else Event(sequenceId, ReportAmendRejected, AmendReason(reason))
  }

  /** A pending amend can always be settled, whatever the answer. */
  lemma PendingAmendSettles(t: Tracker, id: uint64, reason: AmendRejectReason)
    ensures var pending := Event(id, ReportAmendPending, NoReason);
            Takes(t, pending) ==> Takes(Offer(t, pending), AmendSettled(id, reason))
  {
  }

  /** A bounced amend only counts; any other one reaches the exchange and is settled at once. */
  function AfterSendAmend(g: GatewayView, request: AmendRequest): GatewayView
  {
    var pending := Event(request.sequenceId, ReportAmendPending, NoReason);
    if Bounces(g, request.sequenceId, ReportAmendPending) then
      GatewayView(BegunAmend(g.counters, false), g.exchange, Some(Offer(g.tracker.value, pending)))
    else
      GatewayView(
        BookedAmend(BegunAmend(g.counters, true), AmendReply(g, request) == AmendNotRejected, true),
        if g.exchange.None? then None else Some(AfterAmend(g.exchange.value, request)),
        if g.tracker.None? then None
        else Some(Offer(Offer(g.tracker.value, pending), AmendSettled(request.sequenceId, AmendReply(g, request)))))
  }

  // ---------- the gateway ----------

  class OrderGateway {
    const exchange: ExchangeSimulator?
    const lifecycleTracker: OrderLifecycleTracker?

    var counters: GatewayCounters  // the ten public counters

    ghost function Journal(): ExecutionReportJournal?
    {
      if lifecycleTracker == null then null else lifecycleTracker.executionReports
    }

    ghost function View(): GatewayView
      reads this, exchange, lifecycleTracker, Journal()
    {
      GatewayView(
        counters,
        if exchange == null then None else Some(exchange.View()),
        if lifecycleTracker == null then None else Some(lifecycleTracker.View()))
    }

    ghost function OrderRoute(): Route
      reads this, exchange
    {
      Route(counters, if exchange == null then None else Some(exchange.View()))
    }

    ghost predicate RouteValid()
      reads exchange
    {
      exchange != null ==> exchange.Valid()
    }

    ghost predicate Valid()
      reads exchange, lifecycleTracker, Journal()
    {
      RouteValid() && (lifecycleTracker != null ==> lifecycleTracker.Valid())
    }

    constructor (exchange: ExchangeSimulator?, lifecycleTracker: OrderLifecycleTracker?)
      requires exchange != null ==> exchange.Valid()
      requires lifecycleTracker != null ==> lifecycleTracker.Valid()
      ensures Valid() && this.exchange == exchange && this.lifecycleTracker == lifecycleTracker
      ensures counters == NO_TRAFFIC
    {
      this.exchange := exchange;
      this.lifecycleTracker := lifecycleTracker;
      counters := NO_TRAFFIC;
    }

    method SendOrder(request: OrderRequest) returns (response: OrderResponse)
      requires RouteValid()
      modifies this, exchange
      ensures RouteValid() && OrderRoute() == AfterSendOrder(old(OrderRoute()), request)
      ensures response.sequenceId == request.sequenceId
      ensures response.rejectReason == OrderReply(old(OrderRoute()), request)
      ensures response.accepted <==> response.rejectReason == NotRejected
    {
      counters := counters.(ordersSent := counters.ordersSent + 1);
      if exchange == null {
        counters := counters.(ordersRejected := counters.ordersRejected + 1);
        return OrderResponse(request.sequenceId, false, InvalidSymbol);
      }
      response := exchange.SubmitOrder(request);
      if response.accepted {
        counters := counters.(ordersAccepted := counters.ordersAccepted + 1);
      } else {
        counters := counters.(ordersRejected := counters.ordersRejected + 1);
      }
    }

    /** The first phase: without the tracker's consent the cancel goes no further. */
    method BeginCancel(sequenceId: uint64) returns (pending: bool)
      requires Valid()
      modifies this, lifecycleTracker, Journal()
      ensures Valid()
      ensures pending <==> !Bounces(old(View()), sequenceId, ReportCancelPending)
      ensures counters == BegunCancel(old(counters), pending)
      ensures lifecycleTracker != null ==>
                lifecycleTracker.View()
                == Offer(old(lifecycleTracker.View()), Event(sequenceId, ReportCancelPending, NoReason))
    {
      hide Offer;
      counters := counters.(cancelsSent := counters.cancelsSent + 1);
      if lifecycleTracker != null {
        pending := lifecycleTracker.MarkCancelPending(sequenceId);
        if !pending {
          counters := counters.(transitionErrors := counters.transitionErrors + 1);
          counters := counters.(cancelsRejected := counters.cancelsRejected + 1);
          return;
        }
      }
      pending := true;
    }

    /** The exchange's answer to a pending cancel; without an exchange no order is known. */
    method AskCancel(request: CancelRequest) returns (response: CancelResponse)
      requires Valid()
      modifies exchange
      ensures Valid()
      ensures View().exchange == if exchange == null then None else Some(AfterCancel(old(exchange.View()), request))
      ensures response.sequenceId == request.sequenceId
      ensures response.rejectReason
              == if exchange == null then CancelUnknownOrder else CancelOutcome(old(exchange.View()), request)
      ensures response.accepted <==> response.rejectReason == CancelNotRejected
    {
      if exchange == null {
        response := CancelResponse(request.sequenceId, false, CancelUnknownOrder);
      } else {
        response := exchange.CancelOrder(request);
      }
    }

    /** The second phase: the pending action is resolved by the exchange's answer. */
    method SettleCancel(response: CancelResponse)
      requires Valid()
      requires response.accepted <==> response.rejectReason == CancelNotRejected
      modifies this, lifecycleTracker, Journal()
      ensures Valid()
      ensures counters == BookedCancel(
                old(counters), response.accepted,
                lifecycleTracker == null
                || Takes(old(lifecycleTracker.View()), CancelSettled(response.sequenceId, response.rejectReason)))
      ensures lifecycleTracker != null ==>
                lifecycleTracker.View()
                == Offer(old(lifecycleTracker.View()), CancelSettled(response.sequenceId, response.rejectReason))
    {
      hide Offer, Takes;
      if response.accepted {
        counters := counters.(cancelsAccepted := counters.cancelsAccepted + 1);
        if lifecycleTracker != null {
          var settled := lifecycleTracker.MarkCancelled(response.sequenceId);
          if !settled {
            counters := counters.(transitionErrors := counters.transitionErrors + 1);
          }
        }
      } else {
        counters := counters.(cancelsRejected := counters.cancelsRejected + 1);
        if lifecycleTracker != null {
          var settled := lifecycleTracker.MarkCancelRejected(response.sequenceId, response.rejectReason);
          if !settled {
            counters := counters.(transitionErrors := counters.transitionErrors + 1);
          }
        }
      }
    }

    method SendCancel(request: CancelRequest) returns (response: CancelResponse)
      requires Valid()
      modifies this, exchange, lifecycleTracker, Journal()
      ensures Valid() && View() == AfterSendCancel(old(View()), request)
      ensures response.sequenceId == request.sequenceId
      ensures response.rejectReason == CancelReply(old(View()), request)
      ensures response.accepted <==> response.rejectReason == CancelNotRejected
    {
      hide CancelOutcome, AfterCancel, Offer, Takes, CancelSettled;
      ghost var before := View();
      var pending := BeginCancel(request.sequenceId);
      if !pending {
        return CancelResponse(request.sequenceId, false, CancelInvalidState);
      }
      response := AskCancel(request);
      if lifecycleTracker != null {
        PendingCancelSettles(before.tracker.value, request.sequenceId, response.rejectReason);
      }
      SettleCancel(response);
    }

    /** The first phase: without the tracker's consent the amend goes no further. */
    method BeginAmend(sequenceId: uint64) returns (pending: bool)
      requires Valid()
      modifies this, lifecycleTracker, Journal()
      ensures Valid()
      ensures pending <==> !Bounces(old(View()), sequenceId, ReportAmendPending)
      ensures counters == BegunAmend(old(counters), pending)
      ensures lifecycleTracker != null ==>
                lifecycleTracker.View()
                == Offer(old(lifecycleTracker.View()), Event(sequenceId, ReportAmendPending, NoReason))
    {
      hide Offer;
      counters := counters.(amendsSent := counters.amendsSent + 1);
      if lifecycleTracker != null {
        pending := lifecycleTracker.MarkAmendPending(sequenceId);
        if !pending {
          counters := counters.(transitionErrors := counters.transitionErrors + 1);
          counters := counters.(amendsRejected := counters.amendsRejected + 1);
          return;
        }
      }
      pending := true;
    }

    /** The exchange's answer to a pending amend; without an exchange no order is known. */
    method AskAmend(request: AmendRequest) returns (response: AmendResponse)
      requires Valid()
      modifies exchange
      ensures Valid()
      ensures View().exchange == if exchange == null then None else Some(AfterAmend(old(exchange.View()), request))
      ensures response.sequenceId == request.sequenceId
      ensures response.rejectReason
              == if exchange == null then AmendUnknownOrder else AmendOutcome(old(exchange.View()), request)
      ensures response.accepted <==> response.rejectReason == AmendNotRejected
    {
      if exchange == null {
        response := AmendResponse(request.sequenceId, false, AmendUnknownOrder);
      } else {
        response := exchange.AmendOrder(request);
      }
    }

    /** The second phase: the pending action is resolved by the exchange's answer. */
    method SettleAmend(response: AmendResponse)
      requires Valid()
      requires response.accepted <==> response.rejectReason == AmendNotRejected
      modifies this, lifecycleTracker, Journal()
      ensures Valid()
      ensures counters == BookedAmend(
                old(counters), response.accepted,
                lifecycleTracker == null
                || Takes(old(lifecycleTracker.View()), AmendSettled(response.sequenceId, response.rejectReason)))
      ensures lifecycleTracker != null ==>
                lifecycleTracker.View()
                == Offer(old(lifecycleTracker.View()), AmendSettled(response.sequenceId, response.rejectReason))
    {
      hide Offer, Takes;
      if response.accepted {
        counters := counters.(amendsAccepted := counters.amendsAccepted + 1);
        if lifecycleTracker != null {
          var settled := lifecycleTracker.MarkAmendAccepted(response.sequenceId);
          if !settled {
            counters := counters.(transitionErrors := counters.transitionErrors + 1);
          }
        }
      } else {
        counters := counters.(amendsRejected := counters.amendsRejected + 1);
        if lifecycleTracker != null {
          var settled := lifecycleTracker.MarkAmendRejected(response.sequenceId, response.rejectReason);
          if !settled {
            counters := counters.(transitionErrors := counters.transitionErrors + 1);
          }
        }
      }
    }

    method SendAmend(request: AmendRequest) returns (response: AmendResponse)
      requires Valid()
      modifies this, exchange, lifecycleTracker, Journal()
      ensures Valid() && View() == AfterSendAmend(old(View()), request)
      ensures response.sequenceId == request.sequenceId
      ensures response.rejectReason == AmendReply(old(View()), request)
      ensures response.accepted <==> response.rejectReason == AmendNotRejected
    {
      hide AmendOutcome, AfterAmend, Offer, Takes, AmendSettled;
      ghost var before := View();
      var pending := BeginAmend(request.sequenceId);
      if !pending {
        return AmendResponse(request.sequenceId, false, AmendInvalidState);
      }
      response := AskAmend(request);
      if lifecycleTracker != null {
        PendingAmendSettles(before.tracker.value, request.sequenceId, response.rejectReason);
      }
      SettleAmend(response);
    }
  }

  // ---------- no order is left stranded ----------

  /** What a cancel is answered with, for every wiring: an order that the tracker does not hold as accepted
      is in an invalid state; one that no exchange has open is unknown. */
  lemma CancelAnswers(g: GatewayView, c: CancelRequest)
    ensures var reply, id := CancelReply(g, c), c.sequenceId;
            var bounced := g.tracker.Some? && StateOf(g.tracker.value.records, id) != Some(ExchangeAccepted);
            var open := g.exchange.Some? && id in g.exchange.value.active;
            && (reply == CancelInvalidState <==> bounced)
            && (reply == CancelUnknownOrder <==> !bounced && !open)
            && (reply == CancelNotRejected <==> !bounced && open)
  {
  }

  /** The same for an amend, whose terms are examined last, price before quantity. */
  lemma AmendAnswers(g: GatewayView, a: AmendRequest)
    ensures var reply, id := AmendReply(g, a), a.sequenceId;
            var bounced := g.tracker.Some? && StateOf(g.tracker.value.records, id) != Some(ExchangeAccepted);
            var known := !bounced && g.exchange.Some? && id in g.exchange.value.active;
            && (reply == AmendInvalidState <==> bounced)
            && (reply == AmendUnknownOrder <==> !bounced && !known)
            && (reply == AmendInvalidPrice <==> known && !Positive(a.newPrice))
            && (reply == AmendInvalidQuantity <==> known && Positive(a.newPrice) && a.newQuantity == 0)
            && (reply == AmendNotRejected <==> known && Positive(a.newPrice) && a.newQuantity > 0)
  {
  }

  /** Every call is counted as sent and, by its answer, as accepted or rejected. */
  lemma CallsAreCounted(g: GatewayView, r: OrderRequest, c: CancelRequest, a: AmendRequest)
    ensures var before, after := g.counters, AfterSendOrder(Route(g.counters, g.exchange), r).counters;
            var ok := OrderReply(Route(g.counters, g.exchange), r) == NotRejected;
            after == before.(ordersSent := before.ordersSent + 1,
                             ordersAccepted := before.ordersAccepted + (if ok then 1 else 0),
                             ordersRejected := before.ordersRejected + (if ok then 0 else 1))
    ensures var before, after := g.counters, AfterSendCancel(g, c).counters;
            var ok := CancelReply(g, c) == CancelNotRejected;
            after == before.(cancelsSent := before.cancelsSent + 1,
                             cancelsAccepted := before.cancelsAccepted + (if ok then 1 else 0),
                             cancelsRejected := before.cancelsRejected + (if ok then 0 else 1),
                             transitionErrors := after.transitionErrors)
    ensures var before, after := g.counters, AfterSendAmend(g, a).counters;
            var ok := AmendReply(g, a) == AmendNotRejected;
            after == before.(amendsSent := before.amendsSent + 1,
                             amendsAccepted := before.amendsAccepted + (if ok then 1 else 0),
                             amendsRejected := before.amendsRejected + (if ok then 0 else 1),
                             transitionErrors := after.transitionErrors)
  {
    hide Offer, Takes, AfterSubmit, AfterCancel, AfterAmend, SubmitOutcome;
  }

  /** From any tracker and exchange state, a null exchange included, a tracked cancel either bounces
      without touching a record or the exchange, or ends with the order accepted or cancelled. The
      second phase never fails, so gateway errors count exactly the bounces. */
  lemma CancelNeverStrands(g: GatewayView, request: CancelRequest)
    requires g.tracker.Some?
    ensures var after := AfterSendCancel(g, request);
            var bounced := CancelReply(g, request) == CancelInvalidState;
            && after.tracker.Some?
            && (bounced <==> StateOf(g.tracker.value.records, request.sequenceId) != Some(ExchangeAccepted))
            && (bounced ==> after.tracker.value.records == g.tracker.value.records && after.exchange == g.exchange)
            && (!bounced ==> StateOf(after.tracker.value.records, request.sequenceId)
                             == Some(if CancelReply(g, request) == CancelNotRejected then Cancelled
                                     else ExchangeAccepted))
            && after.counters.transitionErrors == g.counters.transitionErrors + (if bounced then 1 else 0)
            && after.tracker.value.errors.total == g.tracker.value.errors.total + (if bounced then 1 else 0)
  {
  }

  /** The same for amends, which always end with the order accepted again. */
  lemma AmendNeverStrands(g: GatewayView, request: AmendRequest)
    requires g.tracker.Some?
    ensures var after := AfterSendAmend(g, request);
            var bounced := AmendReply(g, request) == AmendInvalidState;
            && after.tracker.Some?
            && (bounced <==> StateOf(g.tracker.value.records, request.sequenceId) != Some(ExchangeAccepted))
            && (bounced ==> after.tracker.value.records == g.tracker.value.records && after.exchange == g.exchange)
            && (!bounced ==> StateOf(after.tracker.value.records, request.sequenceId) == Some(ExchangeAccepted))
            && after.counters.transitionErrors == g.counters.transitionErrors + (if bounced then 1 else 0)
            && after.tracker.value.errors.total == g.tracker.value.errors.total + (if bounced then 1 else 0)
  {
  }

  /** What the record of a settled cancel keeps: the answer as its cancel reason, and nothing else changes. */
  lemma CancelSettlesItsRecord(g: GatewayView, c: CancelRequest)
    requires g.tracker.Some?
    ensures var records, reply, id := g.tracker.value.records, CancelReply(g, c), c.sequenceId;
            reply != CancelInvalidState ==>
              && id in records && AfterSendCancel(g, c).tracker.Some?
              && AfterSendCancel(g, c).tracker.value.records
                 == records[id := if reply == CancelNotRejected then records[id].(state := Cancelled)
                                  else records[id].(cancelRejectReason := reply)]
  {
    hide Count, Reported, AfterCancel;
  }

  /** The same for an amend, whose reason an accepted one clears. */
  lemma AmendSettlesItsRecord(g: GatewayView, a: AmendRequest)
    requires g.tracker.Some?
    ensures var records, reply, id := g.tracker.value.records, AmendReply(g, a), a.sequenceId;
            reply != AmendInvalidState ==>
              && id in records && AfterSendAmend(g, a).tracker.Some?
              && AfterSendAmend(g, a).tracker.value.records
                 == records[id := records[id].(amendRejectReason := reply)]
  {
    hide Count, Reported, AfterAmend;
  }

  // ---------- sequences of actions ----------

  datatype Action = CancelAction(cancel: CancelRequest) | AmendAction(amend: AmendRequest)

  function ActedOn(action: Action): uint64
  {
    match action
    case CancelAction(c) => c.sequenceId
    case AmendAction(a) => a.sequenceId
  }

  function AfterAction(g: GatewayView, action: Action): GatewayView
  {
    match action
    case CancelAction(c) => AfterSendCancel(g, c)
    case AmendAction(a) => AfterSendAmend(g, a)
  }

  lemma ActionKeepsTracked(g: GatewayView, action: Action)
    ensures AfterAction(g, action).tracker.Some? <==> g.tracker.Some?
  {
    hide Offer, Takes, CancelOutcome, AmendOutcome, AfterCancel, AfterAmend;
  }

  function AfterActions(g: GatewayView, actions: seq<Action>): GatewayView
    decreases |actions|
  {
    if actions == [] then g else AfterActions(AfterAction(g, actions[0]), actions[1..])
  }

  predicate ActionBounces(g: GatewayView, action: Action)
  {
    match action
    case CancelAction(c) => CancelReply(g, c) == CancelInvalidState
    case AmendAction(a) => AmendReply(g, a) == AmendInvalidState
  }

  function BouncedActions(g: GatewayView, actions: seq<Action>): nat
    decreases |actions|
  {
    if actions == [] then 0
    else (if ActionBounces(g, actions[0]) then 1 else 0) + BouncedActions(AfterAction(g, actions[0]), actions[1..])
  }

  predicate NothingPending(t: Tracker)
  {
    forall id :: id in t.records ==> t.records[id].state !in {CancelPending, AmendPending}
  }

  lemma OthersUntouched(g: GatewayView, action: Action, id: uint64)
    requires g.tracker.Some? && id != ActedOn(action)
    ensures AfterAction(g, action).tracker.Some?
    ensures StateOf(AfterAction(g, action).tracker.value.records, id) == StateOf(g.tracker.value.records, id)
  {
  }

  /** After any sequence of actions, with whatever exchange, no order rests in a pending state if none did
      before. */
  lemma {:induction false} ActionsNeverStrand(g: GatewayView, actions: seq<Action>)
    requires g.tracker.Some? && NothingPending(g.tracker.value)
    ensures AfterActions(g, actions).tracker.Some? && NothingPending(AfterActions(g, actions).tracker.value)
    decreases |actions|
  {
    hide AfterSendCancel, AfterSendAmend, CancelReply, AmendReply;
    if actions != [] {
      var next := AfterAction(g, actions[0]);
      match actions[0] {
        case CancelAction(c) => CancelNeverStrands(g, c);
        case AmendAction(a) => AmendNeverStrands(g, a);
      }
      forall id | id in next.tracker.value.records
        ensures next.tracker.value.records[id].state !in {CancelPending, AmendPending}
      {
        if id != ActedOn(actions[0]) {
          OthersUntouched(g, actions[0], id);
          assert StateOf(next.tracker.value.records, id) == StateOf(g.tracker.value.records, id);
        } else {
          assert StateOf(next.tracker.value.records, id).Some?;
        }
      }
      ActionsNeverStrand(next, actions[1..]);
    }
  }

  /** From any tracker and exchange state, the gateway's and the tracker's error counters move by exactly
      the number of actions that bounce. */
  lemma {:induction false} ErrorsCountBounces(g: GatewayView, actions: seq<Action>)
    requires g.tracker.Some?
    ensures var after := AfterActions(g, actions);
            && after.tracker.Some?
            && after.counters.transitionErrors == g.counters.transitionErrors + BouncedActions(g, actions)
            && after.tracker.value.errors.total == g.tracker.value.errors.total + BouncedActions(g, actions)
    decreases |actions|
  {
    hide AfterSendCancel, AfterSendAmend, CancelReply, AmendReply;
    if actions != [] {
      match actions[0] {
        case CancelAction(c) => CancelNeverStrands(g, c);
        case AmendAction(a) => AmendNeverStrands(g, a);
      }
      ErrorsCountBounces(AfterAction(g, actions[0]), actions[1..]);
    }
  }
}
