/** Runs of the whole execution path: orders enqueued and drained through the pipeline, amends and
    cancels sent through its gateway. These laws hold for every run under every wiring of the optional
    collaborators; the gateway may report to the pipeline's tracker, to another one, or to none. */
module SystemRuns {
  import opened Messages
  import opened PreTradeRisk
  import opened ExecutionReports
  import opened OrderLifecycle
  import opened LifecycleLaws
  import opened Exchange
  import opened Gateway
  import opened Pipeline

  datatype Command =
    | Enqueue(order: OrderRequest)
    | Drain
    | SendAmend(amend: AmendRequest)
    | SendCancel(cancel: CancelRequest)

  /** The tracker that amends and cancels are reported to. */
  function ActionTracker(p: PipelineView): Option<Tracker>
  {
    match p.gatewayTracker
    case SharedTracker => p.tracker
    case NoTracker => None
    case OtherTracker(other) => Some(other)
  }

  /** The gateway the pipeline sends through. */
  function GatewayOf(p: PipelineView): GatewayView
    requires p.route.Some?
  {
    GatewayView(p.route.value.counters, p.route.value.exchange, ActionTracker(p))
  }

  function WithGateway(p: PipelineView, g: GatewayView): PipelineView
    requires g.tracker.Some? <==> ActionTracker(p).Some?
  {
    var routed := p.(route := Some(Route(g.counters, g.exchange)));
    match p.gatewayTracker
    case SharedTracker => routed.(tracker := g.tracker)
    case NoTracker => routed
    case OtherTracker(_) => routed.(gatewayTracker := OtherTracker(g.tracker.value))
  }

  function AfterCommand(p: PipelineView, command: Command): PipelineView
  {
    match command
    case Enqueue(r) => AfterEnqueue(p, r)
    case Drain => Drained(p)
    case SendAmend(a) => if p.route.None? then p else WithGateway(p, AfterSendAmend(GatewayOf(p), a))
    case SendCancel(c) => if p.route.None? then p else WithGateway(p, AfterSendCancel(GatewayOf(p), c))
  }

  function Run(p: PipelineView, commands: seq<Command>): PipelineView
    decreases |commands|
  {
    if commands == [] then p else Run(AfterCommand(p, commands[0]), commands[1..])
  }

  /** Freshly constructed components under some wiring; a tracker of the gateway's own may have a past. */
  ghost predicate Fresh(p: PipelineView)
  {
    && p.capacity > 0 && p.queue == [] && p.counters == NO_ORDERS && p.lastRiskReject == RiskNotRejected
    && (p.risk.Some? ==> p.risk.value.decisions == [])
    && (p.tracker.Some? ==> p.tracker == Some(FreshTracker(if p.tracker.value.journal.None? then None else Some([]))))
    && (p.gatewayTracker.OtherTracker? ==> Sound([], p.gatewayTracker.other))
    && (p.route.Some? ==> p.route.value.counters == NO_TRAFFIC
                          && (p.route.value.exchange.Some? ==> p.route.value.exchange == Some(FRESH_EXCHANGE)))
  }

  // ---------- the tracker stays sound ----------

  ghost predicate TrackerSound(origin: PipelineView, p: PipelineView)
  {
    && (p.gatewayTracker.SharedTracker? <==> origin.gatewayTracker.SharedTracker?)
    && (p.gatewayTracker.OtherTracker? <==> origin.gatewayTracker.OtherTracker?)
    && (p.gatewayTracker.OtherTracker? ==> Sound([], p.gatewayTracker.other))
    && (p.tracker.Some? <==> origin.tracker.Some?)
    && (p.tracker.Some? ==> Sound([], p.tracker.value)
                            && (p.tracker.value.journal.Some? <==> origin.tracker.value.journal.Some?))
  }

  lemma NotifiedKeepsSound(origin: PipelineView, p: PipelineView, e: Event)
    requires TrackerSound(origin, p)
    ensures TrackerSound(origin, Notified(p, e))
  {
    hide Offer, Takes, Sound;
    if p.tracker.Some? {
      OfferKeepsSound([], p.tracker.value, e);
    }
  }

  lemma DispatchKeepsSound(origin: PipelineView, p: PipelineView, r: OrderRequest)
    requires TrackerSound(origin, p)
    ensures TrackerSound(origin, Dispatch(p, r))
  {
    hide Notified, Sound, Assess, AfterSendOrder, AfterReply;
    var c := AfterCheck(p, r);
    var k := c.counters;
    NotifiedKeepsSound(
      origin,
      c.(counters := k.(rejected := k.rejected + 1, rejectedByRisk := k.rejectedByRisk + 1),
         lastRiskReject := RiskVerdict(p, r)),
      Event(r.sequenceId, ReportRiskRejected, RiskReason(RiskVerdict(p, r))));
    var sent := Event(r.sequenceId, ReportSent, NoReason);
    NotifiedKeepsSound(origin, c, sent);
    ReplyKeepsSound(
      origin,
      Notified(c, sent).(route := if c.route.None? then None else Some(AfterSendOrder(c.route.value, r))),
      r.sequenceId, GatewayVerdict(c, r));
  }

  lemma ReplyKeepsSound(origin: PipelineView, p: PipelineView, id: uint64, reply: OrderRejectReason)
    requires TrackerSound(origin, p)
    ensures TrackerSound(origin, AfterReply(p, id, reply))
  {
    hide Notified, Sound;
    var c := p.counters;
    NotifiedKeepsSound(
      origin, p.(counters := c.(accepted := c.accepted + 1)), Event(id, ReportExchangeAccepted, NoReason));
    NotifiedKeepsSound(
      origin, p.(counters := c.(rejected := c.rejected + 1, rejectedByGateway := c.rejectedByGateway + 1)),
      Event(id, ReportExchangeRejected, ExchangeReason(reply)));
  }

  lemma {:induction false} DispatchAllKeepsSound(origin: PipelineView, p: PipelineView, orders: seq<OrderRequest>)
    requires TrackerSound(origin, p)
    ensures TrackerSound(origin, DispatchAll(p, orders))
    decreases |orders|
  {
    hide Dispatch, TrackerSound;
    if orders != [] {
      DispatchKeepsSound(origin, p, orders[0]);
      DispatchAllKeepsSound(origin, Dispatch(p, orders[0]), orders[1..]);
    }
  }

  lemma CancelKeepsSound(g: GatewayView, c: CancelRequest)
    requires g.tracker.Some? ==> Sound([], g.tracker.value)
    ensures var after := AfterSendCancel(g, c);
            && (after.tracker.Some? <==> g.tracker.Some?)
            && (after.tracker.Some? ==> Sound([], after.tracker.value)
                                        && (after.tracker.value.journal.Some? <==> g.tracker.value.journal.Some?))
  {
    hide Offer, Takes, Sound, CancelReply, CancelSettled, AfterCancel;
    if g.tracker.Some? {
      var pending := Event(c.sequenceId, ReportCancelPending, NoReason);
      OfferKeepsSound([], g.tracker.value, pending);
      OfferKeepsSound([], Offer(g.tracker.value, pending), CancelSettled(c.sequenceId, CancelReply(g, c)));
    }
  }

  lemma AmendKeepsSound(g: GatewayView, a: AmendRequest)
    requires g.tracker.Some? ==> Sound([], g.tracker.value)
    ensures var after := AfterSendAmend(g, a);
            && (after.tracker.Some? <==> g.tracker.Some?)
            && (after.tracker.Some? ==> Sound([], after.tracker.value)
                                        && (after.tracker.value.journal.Some? <==> g.tracker.value.journal.Some?))
  {
    hide Offer, Takes, Sound, AmendReply, AmendSettled, AfterAmend;
    if g.tracker.Some? {
      var pending := Event(a.sequenceId, ReportAmendPending, NoReason);
      OfferKeepsSound([], g.tracker.value, pending);
      OfferKeepsSound([], Offer(g.tracker.value, pending), AmendSettled(a.sequenceId, AmendReply(g, a)));
    }
  }

  lemma CommandKeepsSound(origin: PipelineView, p: PipelineView, command: Command)
    requires TrackerSound(origin, p)
    ensures TrackerSound(origin, AfterCommand(p, command))
  {
    hide Sound, Dispatch, Registered, AfterSendCancel, AfterSendAmend;
    match command
    case Enqueue(r) =>
      if p.tracker.Some? {
        CallKeepsSound([], p.tracker.value, RegisterQueuedCall(r.sequenceId));
      }
    case Drain =>
      DispatchAllKeepsSound(origin, p.(queue := []), p.queue);
    case SendAmend(a) =>
      if p.route.Some? {
        AmendKeepsSound(GatewayOf(p), a);
      }
    case SendCancel(c) =>
      if p.route.Some? {
        CancelKeepsSound(GatewayOf(p), c);
      }
  }

  lemma {:induction false} RunKeepsSound(origin: PipelineView, p: PipelineView, commands: seq<Command>)
    requires TrackerSound(origin, p)
    ensures TrackerSound(origin, Run(p, commands))
    decreases |commands|
  {
    hide TrackerSound, AfterCommand;
    if commands != [] {
      CommandKeepsSound(origin, p, commands[0]);
      RunKeepsSound(origin, AfterCommand(p, commands[0]), commands[1..]);
    }
  }

  predicate Journaled(p: PipelineView)
  {
    p.tracker.Some? && p.tracker.value.journal.Some?
  }

  lemma FreshIsSound(p: PipelineView)
    requires Fresh(p)
    ensures TrackerSound(p, p)
  {
  }

  /** Every state's population is the balance of the counters, and the reports of the order read as one
      lifecycle sentence. */
  ghost predicate Lawful(t: Tracker, id: uint64)
  {
    FlowsBalance(t.records, t.counters) && IsLifecycle(Word(t.history, id))
  }

  lemma SoundIsLawful(t: Tracker, id: uint64)
    requires Sound([], t)
    ensures Lawful(t, id)
  {
    HistoryBalances(t.history);
    LegalIffEverySentenceIs(t.history);
  }

  /** After any run of fresh components, whatever is wired, the pipeline's tracker is lawful, and so is
      the one the gateway reports to: the same tracker, another one, or none, as wired. */
  lemma EveryRunIsSound(p: PipelineView, commands: seq<Command>, id: uint64)
    requires Fresh(p)
    ensures var after := Run(p, commands);
            && (after.tracker.Some? <==> p.tracker.Some?)
            && (after.tracker.Some? ==> Lawful(after.tracker.value, id))
            && (ActionTracker(after).Some? <==> ActionTracker(p).Some?)
            && (ActionTracker(after).Some? ==> Lawful(ActionTracker(after).value, id))
  {
    hide Run, Sound, Lawful;
    FreshIsSound(p);
    RunKeepsSound(p, p, commands);
    var after := Run(p, commands);
    if after.tracker.Some? {
      SoundIsLawful(after.tracker.value, id);
    }
    if after.gatewayTracker.OtherTracker? {
      SoundIsLawful(after.gatewayTracker.other, id);
    }
  }

  /** When a journal is attached, the journal, and its printed text alone, rebuild the records after
      any run, and the journal's entries for an order are that order's lifecycle sentence. */
  lemma EveryRunIsSourced(p: PipelineView, commands: seq<Command>, id: uint64)
    requires Fresh(p) && Journaled(p)
    ensures Journaled(Run(p, commands))
    ensures var t := Run(p, commands).tracker.value;
            && Rebuild(t.journal.value) == t.records
            && ParseLog(PrintedLog(t.journal.value)) == t.journal
            && TypesOf(Matching(t.journal.value, id)) == Word(t.history, id)
  {
    hide Run;
    FreshIsSound(p);
    RunKeepsSound(p, p, commands);
    var t := Run(p, commands).tracker.value;
    RebuildInvertsRendering(t.history);
    LogRoundTrip(t.journal.value);
    ReportsOfOrderFormItsWord(t.history, id);
  }

  // ---------- conservation of orders under every wiring ----------

  /** Every order is accounted for once at every stage it has passed; `waiting` orders are still queued. */
  predicate Balanced(p: PipelineView, waiting: nat)
  {
    var c := p.counters;
    && c.enqueued == c.drained + waiting
    && c.drained == c.accepted + c.rejected
    && c.rejected == c.rejectedByRisk + c.rejectedByGateway
    && RiskBalanced(p.risk, c)
    && p.lastRiskReject == LastRejection(if p.risk.None? then [] else p.risk.value.decisions)
    && (if p.route.None? then c.accepted == 0 else RouteBalanced(p.route.value.counters, c))
  }

  /** The reason behind the most recent risk rejection. */
  function LastRejection(decisions: seq<RiskRejectReason>): RiskRejectReason
  {
    if decisions == [] then RiskNotRejected
    else if decisions[|decisions| - 1] != RiskNotRejected then decisions[|decisions| - 1]
    else LastRejection(decisions[..|decisions| - 1])
  }

  lemma LastRejectionAppend(decisions: seq<RiskRejectReason>, reason: RiskRejectReason)
    ensures LastRejection(decisions + [reason])
            == if reason != RiskNotRejected then reason else LastRejection(decisions)
  {
    assert (decisions + [reason])[..|decisions|] == decisions;
  }

  predicate RiskBalanced(risk: Option<RiskView>, c: PipelineCounters)
  {
    if risk.None? then c.rejectedByRisk == 0
    else
      && |risk.value.decisions| == c.drained
      && Attributed(risk.value.decisions).rejected == c.rejectedByRisk
  }

  predicate RouteBalanced(g: GatewayCounters, c: PipelineCounters)
  {
    && g.ordersSent == c.drained - c.rejectedByRisk
    && g.ordersAccepted == c.accepted
    && g.ordersRejected == c.rejectedByGateway
    && g.cancelsSent == g.cancelsAccepted + g.cancelsRejected
    && g.amendsSent == g.amendsAccepted + g.amendsRejected
  }

  lemma NotifiedKeepsBalance(p: PipelineView, e: Event, waiting: nat)
    requires Balanced(p, waiting)
    ensures Balanced(Notified(p, e), waiting)
  {
    hide Offer, Takes;
  }

  /** Between the risk check and the gateway's reply one order is in nobody's account. */
  lemma DispatchKeepsBalance(p: PipelineView, r: OrderRequest, waiting: nat)
    requires Balanced(p, waiting + 1)
    ensures Balanced(Dispatch(p, r), waiting)
  {
    hide Notified, Assess, OrderReply;
    var checked := AfterCheck(p, r);
    var c := checked.counters;
    var verdict, reply := RiskVerdict(p, r), GatewayVerdict(p, r);
    if p.risk.Some? {
      AttributedAppend(p.risk.value.decisions, verdict);
      LastRejectionAppend(p.risk.value.decisions, verdict);
    }
    if verdict != RiskNotRejected {
      NotifiedKeepsBalance(
        checked.(counters := c.(rejected := c.rejected + 1, rejectedByRisk := c.rejectedByRisk + 1),
                 lastRiskReject := verdict),
        Event(r.sequenceId, ReportRiskRejected, RiskReason(verdict)), waiting);
    } else {
      SendKeepsBalance(checked, r, waiting);
    }
  }

  lemma SendKeepsBalance(p: PipelineView, r: OrderRequest, waiting: nat)
    requires p.counters.drained > 0 && RiskBalanced(p.risk, p.counters)
    requires p.lastRiskReject == LastRejection(if p.risk.None? then [] else p.risk.value.decisions)
    requires p.counters.enqueued == p.counters.drained + waiting
    requires p.counters.drained == p.counters.accepted + p.counters.rejected + 1
    requires p.counters.rejected == p.counters.rejectedByRisk + p.counters.rejectedByGateway
    requires p.route.None? ==> p.counters.accepted == 0
    requires p.route.Some? ==>
               RouteBalanced(p.route.value.counters, p.counters.(drained := p.counters.drained - 1))
    ensures Balanced(AfterSend(p, r), waiting)
  {
    hide Offer, Takes, OrderReply;
  }

  lemma {:induction false} DispatchAllKeepsBalance(p: PipelineView, orders: seq<OrderRequest>, waiting: nat)
    requires Balanced(p, waiting + |orders|)
    ensures Balanced(DispatchAll(p, orders), waiting)
    decreases |orders|
  {
    hide Dispatch, Balanced;
    if orders != [] {
      DispatchKeepsBalance(p, orders[0], waiting + |orders| - 1);
      DispatchAllKeepsBalance(Dispatch(p, orders[0]), orders[1..], waiting);
    }
  }

  predicate Conserved(p: PipelineView)
  {
    Balanced(p, |p.queue|) && |p.queue| <= p.capacity
  }

  lemma CommandConserves(p: PipelineView, command: Command)
    requires Conserved(p)
    ensures Conserved(AfterCommand(p, command))
  {
    hide Offer, Takes, DispatchAll, Registered, CancelReply, AmendReply, CancelSettled, AmendSettled;
    match command
    case Drain => DispatchAllKeepsBalance(p.(queue := []), p.queue, 0);
    case _ =>
  }

  /** In every state of every run, under every wiring: enqueued = drained + queued,
      drained = accepted + rejected, rejected = by risk + by gateway, the gateway sent what risk let
      through, and the risk manager's own books agree. */
  lemma {:induction false} EveryRunConserves(p: PipelineView, commands: seq<Command>)
    requires Conserved(p)
    ensures Conserved(Run(p, commands))
    decreases |commands|
  {
    hide Conserved, AfterCommand;
    if commands != [] {
      CommandConserves(p, commands[0]);
      EveryRunConserves(AfterCommand(p, commands[0]), commands[1..]);
    }
  }

  lemma FreshIsConserved(p: PipelineView)
    requires Fresh(p)
    ensures Conserved(p)
  {
  }

  // ---------- the tracker only watches ----------

  /** The pipeline without its tracker and the errors it counted for it. */
  function Unwatched(p: PipelineView): PipelineView
  {
    p.(tracker := None, counters := p.counters.(transitionErrors := 0))
  }

  lemma NotifiedIsUnseen(p: PipelineView, e: Event)
    ensures Unwatched(Notified(p, e)) == Unwatched(p)
  {
    hide Offer, Takes;
  }

  lemma ReplyIgnoresTracker(p: PipelineView, id: uint64, reply: OrderRejectReason)
    ensures Unwatched(AfterReply(p, id, reply)) == Unwatched(AfterReply(Unwatched(p), id, reply))
  {
    hide Notified;
    var c, d := p.counters, Unwatched(p).counters;
    var accepted, rejected := Event(id, ReportExchangeAccepted, NoReason),
                              Event(id, ReportExchangeRejected, ExchangeReason(reply));
    NotifiedIsUnseen(p.(counters := c.(accepted := c.accepted + 1)), accepted);
    NotifiedIsUnseen(Unwatched(p).(counters := d.(accepted := d.accepted + 1)), accepted);
    NotifiedIsUnseen(
      p.(counters := c.(rejected := c.rejected + 1, rejectedByGateway := c.rejectedByGateway + 1)), rejected);
    NotifiedIsUnseen(
      Unwatched(p).(counters := d.(rejected := d.rejected + 1, rejectedByGateway := d.rejectedByGateway + 1)),
      rejected);
  }

  lemma SendIgnoresTracker(p: PipelineView, r: OrderRequest)
    ensures Unwatched(AfterSend(p, r)) == Unwatched(AfterSend(Unwatched(p), r))
  {
    hide Notified, AfterReply, AfterSendOrder, OrderReply;
    var sent, u := Event(r.sequenceId, ReportSent, NoReason), Unwatched(p);
    var route := if p.route.None? then None else Some(AfterSendOrder(p.route.value, r));
    NotifiedIsUnseen(p, sent);
    NotifiedIsUnseen(u, sent);
    ReplyIgnoresTracker(Notified(p, sent).(route := route), r.sequenceId, GatewayVerdict(p, r));
    ReplyIgnoresTracker(Notified(u, sent).(route := route), r.sequenceId, GatewayVerdict(p, r));
  }

  lemma RefusalIgnoresTracker(p: PipelineView, id: uint64, reason: RiskRejectReason)
    ensures Unwatched(AfterRefusal(p, id, reason)) == Unwatched(AfterRefusal(Unwatched(p), id, reason))
  {
    hide Notified;
    var c, d, e := p.counters, Unwatched(p).counters, Event(id, ReportRiskRejected, RiskReason(reason));
    NotifiedIsUnseen(
      p.(counters := c.(rejected := c.rejected + 1, rejectedByRisk := c.rejectedByRisk + 1), lastRiskReject := reason),
      e);
    NotifiedIsUnseen(
      Unwatched(p).(counters := d.(rejected := d.rejected + 1, rejectedByRisk := d.rejectedByRisk + 1),
                    lastRiskReject := reason), e);
  }

  lemma DispatchIgnoresTracker(p: PipelineView, r: OrderRequest)
    ensures Unwatched(Dispatch(p, r)) == Unwatched(Dispatch(Unwatched(p), r))
  {
    hide AfterSend, AfterRefusal, Assess;
    assert AfterCheck(Unwatched(p), r) == Unwatched(AfterCheck(p, r));
    SendIgnoresTracker(AfterCheck(p, r), r);
    RefusalIgnoresTracker(AfterCheck(p, r), r.sequenceId, RiskVerdict(p, r));
  }

  lemma {:induction false} DispatchAllIgnoresTracker(p: PipelineView, orders: seq<OrderRequest>)
    ensures Unwatched(DispatchAll(p, orders)) == Unwatched(DispatchAll(Unwatched(p), orders))
    decreases |orders|
  {
    hide Dispatch;
    if orders != [] {
      DispatchIgnoresTracker(p, orders[0]);
      DispatchAllIgnoresTracker(Dispatch(p, orders[0]), orders[1..]);
      DispatchAllIgnoresTracker(Dispatch(Unwatched(p), orders[0]), orders[1..]);
    }
  }

  /** A drain does the same to risk manager, gateway, exchange and order counters whatever the tracker
      holds or answers, and when there is none. */
  lemma DrainIgnoresTracker(p: PipelineView)
    ensures Unwatched(Drained(p)) == Unwatched(Drained(Unwatched(p)))
  {
    hide DispatchAll;
    DispatchAllIgnoresTracker(p.(queue := []), p.queue);
  }

  /** The tracker knows no such order, and the pipeline and the tracker each counted `steps` refusals since. */
  ghost predicate StrangerSince(p: PipelineView, after: PipelineView, id: uint64, steps: nat)
  {
    && p.tracker.Some? && after.tracker.Some? && id !in p.tracker.value.records
    && after.tracker.value.records == p.tracker.value.records
    && after.counters.transitionErrors == p.counters.transitionErrors + steps
    && after.tracker.value.errors.total == p.tracker.value.errors.total + steps
  }

  lemma StrangerIsRefused(p: PipelineView, q: PipelineView, e: Event, steps: nat)
    requires StrangerSince(p, q, e.sequenceId, steps) && e.what != ReportCreated
    ensures StrangerSince(p, Notified(q, e), e.sequenceId, steps + 1)
  {
    hide Apply, Count, Reported, ErrorOf;
    assert Before(e.what).Some? by { match e.what case _ => }
  }

  lemma StrangersReplyIsRefused(p: PipelineView, q: PipelineView, id: uint64, reply: OrderRejectReason, steps: nat)
    requires StrangerSince(p, q, id, steps)
    ensures StrangerSince(p, AfterReply(q, id, reply), id, steps + 1)
  {
    hide Notified;
    var c := q.counters;
    StrangerIsRefused(p, q.(counters := c.(accepted := c.accepted + 1)),
                      Event(id, ReportExchangeAccepted, NoReason), steps);
    StrangerIsRefused(
      p, q.(counters := c.(rejected := c.rejected + 1, rejectedByGateway := c.rejectedByGateway + 1)),
      Event(id, ReportExchangeRejected, ExchangeReason(reply)), steps);
  }

  /** Dispatching an order that the tracker does not know reports each of its steps all the same, and each
      is refused. */
  lemma StrangersAreReported(p: PipelineView, r: OrderRequest)
    requires p.tracker.Some? && r.sequenceId !in p.tracker.value.records
    ensures StrangerSince(p, Dispatch(p, r), r.sequenceId, if RiskVerdict(p, r) != RiskNotRejected then 1 else 2)
  {
    hide Notified, Assess, OrderReply, AfterSendOrder, AfterReply;
    var c, verdict := AfterCheck(p, r), RiskVerdict(p, r);
    if verdict != RiskNotRejected {
      var k := c.counters;
      StrangerIsRefused(
        p, c.(counters := k.(rejected := k.rejected + 1, rejectedByRisk := k.rejectedByRisk + 1),
              lastRiskReject := verdict),
        Event(r.sequenceId, ReportRiskRejected, RiskReason(verdict)), 0);
    } else {
      var sent := Event(r.sequenceId, ReportSent, NoReason);
      StrangerIsRefused(p, c, sent, 0);
      StrangersReplyIsRefused(
        p, Notified(c, sent).(route := if c.route.None? then None else Some(AfterSendOrder(c.route.value, r))),
        r.sequenceId, GatewayVerdict(c, r), 1);
    }
  }

  // ---------- refused steps ----------

  function ActionErrors(p: PipelineView): nat
  {
    if p.route.None? then 0 else p.route.value.counters.transitionErrors
  }

  /** The tracker's refusals are those that the pipeline counted and, when the gateway reports to the same
      tracker, those that the gateway counted. */
  predicate RefusalsCounted(p: PipelineView)
  {
    p.tracker.Some? ==>
      p.tracker.value.errors.total
      == p.counters.transitionErrors + (if p.gatewayTracker.SharedTracker? then ActionErrors(p) else 0)
  }

  lemma NotifiedCountsRefusal(p: PipelineView, e: Event)
    requires RefusalsCounted(p)
    ensures RefusalsCounted(Notified(p, e))
  {
    hide Apply, Count, Reported, ErrorOf;
  }

  lemma ReplyCountsRefusal(p: PipelineView, id: uint64, reply: OrderRejectReason)
    requires RefusalsCounted(p)
    ensures RefusalsCounted(AfterReply(p, id, reply))
  {
    hide Notified;
    var c := p.counters;
    NotifiedCountsRefusal(p.(counters := c.(accepted := c.accepted + 1)), Event(id, ReportExchangeAccepted, NoReason));
    NotifiedCountsRefusal(
      p.(counters := c.(rejected := c.rejected + 1, rejectedByGateway := c.rejectedByGateway + 1)),
      Event(id, ReportExchangeRejected, ExchangeReason(reply)));
  }

  lemma DispatchCountsRefusals(p: PipelineView, r: OrderRequest)
    requires RefusalsCounted(p)
    ensures RefusalsCounted(Dispatch(p, r))
  {
    hide Notified, Assess, OrderReply, AfterReply;
    var c, verdict := AfterCheck(p, r), RiskVerdict(p, r);
    var k, sent := c.counters, Event(r.sequenceId, ReportSent, NoReason);
    NotifiedCountsRefusal(
      c.(counters := k.(rejected := k.rejected + 1, rejectedByRisk := k.rejectedByRisk + 1), lastRiskReject := verdict),
      Event(r.sequenceId, ReportRiskRejected, RiskReason(verdict)));
    NotifiedCountsRefusal(c, sent);
    NotifiedKeepsRoute(c, sent);
    ReplyCountsRefusal(
      Notified(c, sent).(route := if c.route.None? then None else Some(AfterSendOrder(c.route.value, r))),
      r.sequenceId, GatewayVerdict(c, r));
  }

  lemma {:induction false} DispatchAllCountsRefusals(p: PipelineView, orders: seq<OrderRequest>)
    requires RefusalsCounted(p)
    ensures RefusalsCounted(DispatchAll(p, orders))
    decreases |orders|
  {
    hide Dispatch, RefusalsCounted;
    if orders != [] {
      DispatchCountsRefusals(p, orders[0]);
      DispatchAllCountsRefusals(Dispatch(p, orders[0]), orders[1..]);
    }
  }

  lemma ActionCountsRefusal(p: PipelineView, action: Action)
    requires RefusalsCounted(p) && p.route.Some?
    ensures var after := AfterAction(GatewayOf(p), action);
            && (after.tracker.Some? <==> ActionTracker(p).Some?)
            && RefusalsCounted(WithGateway(p, after))
  {
    hide AfterSendCancel, AfterSendAmend;
    ActionKeepsTracked(GatewayOf(p), action);
    if ActionTracker(p).Some? {
      match action
      case CancelAction(c) => CancelNeverStrands(GatewayOf(p), c);
      case AmendAction(a) => AmendNeverStrands(GatewayOf(p), a);
    }
  }

  lemma CommandCountsRefusals(p: PipelineView, command: Command)
    requires RefusalsCounted(p)
    ensures RefusalsCounted(AfterCommand(p, command))
  {
    hide DispatchAll, AfterSendCancel, AfterSendAmend, Registered;
    match command
    case Enqueue(r) =>
      if p.tracker.Some? && r.sequenceId !in p.tracker.value.records {
        RegistrationSucceeds(p.tracker.value, r.sequenceId);
      }
    case Drain =>
      DispatchAllCountsRefusals(p.(queue := []), p.queue);
    case SendAmend(a) =>
      if p.route.Some? {
        ActionCountsRefusal(p, AmendAction(a));
      }
    case SendCancel(c) =>
      if p.route.Some? {
        ActionCountsRefusal(p, CancelAction(c));
      }
  }

  /** In every run, under every wiring, no refused lifecycle step goes uncounted. */
  lemma {:induction false} EveryRefusalIsCounted(p: PipelineView, commands: seq<Command>)
    requires RefusalsCounted(p)
    ensures RefusalsCounted(Run(p, commands))
    decreases |commands|
  {
    hide RefusalsCounted, AfterCommand;
    if commands != [] {
      CommandCountsRefusals(p, commands[0]);
      EveryRefusalIsCounted(AfterCommand(p, commands[0]), commands[1..]);
    }
  }

  lemma FreshCountsRefusals(p: PipelineView)
    requires Fresh(p)
    ensures RefusalsCounted(p)
  {
  }

  // ---------- arrivals ----------

  lemma NotifiedKeepsArrivals(p: PipelineView, e: Event)
    ensures var after, c := Notified(p, e).counters, p.counters;
            && after.enqueued == c.enqueued && after.dropped == c.dropped
            && after.rejectedByLifecycle == c.rejectedByLifecycle
  {
    hide Offer, Takes;
  }

  lemma DispatchKeepsArrivals(p: PipelineView, r: OrderRequest)
    ensures var after, c := Dispatch(p, r).counters, p.counters;
            && after.enqueued == c.enqueued && after.dropped == c.dropped
            && after.rejectedByLifecycle == c.rejectedByLifecycle
  {
    hide Notified, Assess, OrderReply, AfterSendOrder;
    var id := r.sequenceId;
    var c, verdict := AfterCheck(p, r), RiskVerdict(p, r);
    if verdict != RiskNotRejected {
      var k := c.counters;
      NotifiedKeepsArrivals(
        c.(counters := k.(rejected := k.rejected + 1, rejectedByRisk := k.rejectedByRisk + 1),
           lastRiskReject := verdict),
        Event(id, ReportRiskRejected, RiskReason(verdict)));
    } else {
      NotifiedKeepsArrivals(c, Event(id, ReportSent, NoReason));
      ReplyKeepsArrivals(
        Notified(c, Event(id, ReportSent, NoReason)).(
          route := if c.route.None? then None else Some(AfterSendOrder(c.route.value, r))),
        id, GatewayVerdict(c, r));
    }
  }

  lemma ReplyKeepsArrivals(p: PipelineView, id: uint64, reply: OrderRejectReason)
    ensures var after, c := AfterReply(p, id, reply).counters, p.counters;
            && after.enqueued == c.enqueued && after.dropped == c.dropped
            && after.rejectedByLifecycle == c.rejectedByLifecycle
  {
    hide Notified;
    var c := p.counters;
    NotifiedKeepsArrivals(p.(counters := c.(accepted := c.accepted + 1)), Event(id, ReportExchangeAccepted, NoReason));
    NotifiedKeepsArrivals(
      p.(counters := c.(rejected := c.rejected + 1, rejectedByGateway := c.rejectedByGateway + 1)),
      Event(id, ReportExchangeRejected, ExchangeReason(reply)));
  }

  lemma {:induction false} DispatchAllKeepsArrivals(p: PipelineView, orders: seq<OrderRequest>)
    ensures var after, c := DispatchAll(p, orders).counters, p.counters;
            && after.enqueued == c.enqueued && after.dropped == c.dropped
            && after.rejectedByLifecycle == c.rejectedByLifecycle
    decreases |orders|
  {
    hide Dispatch;
    if orders != [] {
      DispatchKeepsArrivals(p, orders[0]);
      DispatchAllKeepsArrivals(Dispatch(p, orders[0]), orders[1..]);
    }
  }

  predicate Full(p: PipelineView, r: OrderRequest)
  {
    !Known(p, r.sequenceId) && |p.queue| >= p.capacity
  }

  /** How many orders of a run meet a tracker that knows their id already, and how many a full buffer. */
  function Refused(p: PipelineView, commands: seq<Command>): (nat, nat)
    decreases |commands|
  {
    if commands == [] then (0, 0)
    else
      var later := Refused(AfterCommand(p, commands[0]), commands[1..]);
      match commands[0]
      case Enqueue(r) =>
        (later.0 + (if Known(p, r.sequenceId) then 1 else 0), later.1 + if Full(p, r) then 1 else 0)
      case _ => later
  }

  function Attempts(commands: seq<Command>): nat
  {
    if commands == [] then 0 else (if commands[0].Enqueue? then 1 else 0) + Attempts(commands[1..])
  }

  lemma CommandCountsArrival(p: PipelineView, command: Command)
    ensures var after, c := AfterCommand(p, command).counters, p.counters;
            if command.Enqueue? then
              && after.rejectedByLifecycle
                 == c.rejectedByLifecycle + (if Known(p, command.order.sequenceId) then 1 else 0)
              && after.dropped == c.dropped + (if Full(p, command.order) then 1 else 0)
              && after.enqueued + after.dropped + after.rejectedByLifecycle
                 == c.enqueued + c.dropped + c.rejectedByLifecycle + 1
            else
              && after.enqueued == c.enqueued && after.dropped == c.dropped
              && after.rejectedByLifecycle == c.rejectedByLifecycle
  {
    hide Registered, AfterSendAmend, AfterSendCancel, DispatchAll;
    if command.Drain? {
      DispatchAllKeepsArrivals(p.(queue := []), p.queue);
    }
  }

  /** Every enqueue attempt is enqueued, dropped because the buffer is full, or rejected because the
      tracker knows its id; the two failure counters count exactly these events. */
  lemma {:induction false} ArrivalsAreAttributed(p: PipelineView, commands: seq<Command>)
    ensures var after, c := Run(p, commands).counters, p.counters;
            && after.rejectedByLifecycle == c.rejectedByLifecycle + Refused(p, commands).0
            && after.dropped == c.dropped + Refused(p, commands).1
            && after.enqueued + after.dropped + after.rejectedByLifecycle
               == c.enqueued + c.dropped + c.rejectedByLifecycle + Attempts(commands)
    decreases |commands|
  {
    hide AfterCommand, Known, Full;
    if commands != [] {
      CommandCountsArrival(p, commands[0]);
      ArrivalsAreAttributed(AfterCommand(p, commands[0]), commands[1..]);
    }
  }
}
