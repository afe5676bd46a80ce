/** When orders are drained does not matter: for every wiring of the pipeline, any two placements of
    Drain calls around the same enqueues, amends and cancels end in the same state, up to the
    interleaving of different orders in the journal, unless an order is dropped, or amended or
    cancelled while it waits. */
module DrainSchedule {
  import opened Messages
  import opened ExecutionReports
  import opened OrderLifecycle
  import opened PreTradeRisk
  import opened Gateway
  import opened Pipeline
  import opened LifecycleLaws
  import opened SystemRuns
  import opened Interleaving

  /** Queue, every counter of pipeline, gateway and risk manager, risk outcomes and exchange are equal. */
  ghost predicate Same(a: PipelineView, b: PipelineView)
  {
    && a.(tracker := None) == b.(tracker := None)
    && (a.tracker.Some? <==> b.tracker.Some?)
    && (a.tracker.Some? ==> SameTracker(a.tracker.value, b.tracker.value))
  }

  // ---------- equal states stay equal ----------

  lemma NotifiedKeepsSame(a: PipelineView, b: PipelineView, e: Event)
    requires Same(a, b)
    ensures Same(Notified(a, e), Notified(b, e))
  {
    hide Offer, Takes, SameTracker;
    if a.tracker.Some? {
      OfferKeepsSame(a.tracker.value, b.tracker.value, e);
    }
  }

  lemma ReplyKeepsSame(a: PipelineView, b: PipelineView, id: uint64, reply: OrderRejectReason)
    requires Same(a, b)
    ensures Same(AfterReply(a, id, reply), AfterReply(b, id, reply))
  {
    hide Notified, SameTracker;
    var c, d := a.counters, b.counters;
    if reply == NotRejected {
      NotifiedKeepsSame(a.(counters := c.(accepted := c.accepted + 1)), b.(counters := d.(accepted := d.accepted + 1)),
                        Event(id, ReportExchangeAccepted, NoReason));
    } else {
      NotifiedKeepsSame(
        a.(counters := c.(rejected := c.rejected + 1, rejectedByGateway := c.rejectedByGateway + 1)),
        b.(counters := d.(rejected := d.rejected + 1, rejectedByGateway := d.rejectedByGateway + 1)),
        Event(id, ReportExchangeRejected, ExchangeReason(reply)));
    }
  }

  lemma SendKeepsSame(a: PipelineView, b: PipelineView, r: OrderRequest)
    requires Same(a, b)
    ensures Same(AfterSend(a, r), AfterSend(b, r))
  {
    hide Notified, SameTracker, AfterReply, AfterSendOrder, OrderReply;
    var sent := Event(r.sequenceId, ReportSent, NoReason);
    NotifiedKeepsSame(a, b, sent);
    var route := if a.route.None? then None else Some(AfterSendOrder(a.route.value, r));
    ReplyKeepsSame(Notified(a, sent).(route := route), Notified(b, sent).(route := route),
                   r.sequenceId, GatewayVerdict(a, r));
  }

  lemma RefusalKeepsSame(a: PipelineView, b: PipelineView, id: uint64, reason: RiskRejectReason)
    requires Same(a, b)
    ensures Same(AfterRefusal(a, id, reason), AfterRefusal(b, id, reason))
  {
    hide Notified, SameTracker;
    var c, d := a.counters, b.counters;
    NotifiedKeepsSame(
      a.(counters := c.(rejected := c.rejected + 1, rejectedByRisk := c.rejectedByRisk + 1), lastRiskReject := reason),
      b.(counters := d.(rejected := d.rejected + 1, rejectedByRisk := d.rejectedByRisk + 1), lastRiskReject := reason),
      Event(id, ReportRiskRejected, RiskReason(reason)));
  }

  lemma DispatchKeepsSame(a: PipelineView, b: PipelineView, r: OrderRequest)
    requires Same(a, b)
    ensures Same(Dispatch(a, r), Dispatch(b, r))
  {
    hide SameTracker, AfterSend, AfterRefusal, Assess;
    assert Same(AfterCheck(a, r), AfterCheck(b, r));
    SendKeepsSame(AfterCheck(a, r), AfterCheck(b, r), r);
    RefusalKeepsSame(AfterCheck(a, r), AfterCheck(b, r), r.sequenceId, RiskVerdict(a, r));
  }

  lemma {:induction false} DispatchAllKeepsSame(a: PipelineView, b: PipelineView, orders: seq<OrderRequest>)
    requires Same(a, b)
    ensures Same(DispatchAll(a, orders), DispatchAll(b, orders))
    decreases |orders|
  {
    hide Same, Dispatch;
    if orders != [] {
      DispatchKeepsSame(a, b, orders[0]);
      DispatchAllKeepsSame(Dispatch(a, orders[0]), Dispatch(b, orders[0]), orders[1..]);
    }
  }

  // ---------- dispatching registers no order ----------

  predicate SameIds(a: PipelineView, b: PipelineView)
  {
    && (a.tracker.Some? <==> b.tracker.Some?)
    && (a.tracker.Some? ==> a.tracker.value.records.Keys == b.tracker.value.records.Keys)
  }

  lemma NotifiedKeepsIds(p: PipelineView, e: Event)
    requires e.what != ReportCreated
    ensures SameIds(p, Notified(p, e))
  {
    if p.tracker.Some? && Takes(p.tracker.value, e) {
      assert Before(e.what).Some? by { match e.what case _ => }
      assert Apply(p.tracker.value.records, e).Keys == p.tracker.value.records.Keys + {e.sequenceId};
    }
  }

  lemma ReplyKeepsIds(p: PipelineView, id: uint64, reply: OrderRejectReason)
    ensures SameIds(p, AfterReply(p, id, reply))
  {
    hide Notified;
    var c := p.counters;
    NotifiedKeepsIds(p.(counters := c.(accepted := c.accepted + 1)), Event(id, ReportExchangeAccepted, NoReason));
    NotifiedKeepsIds(p.(counters := c.(rejected := c.rejected + 1, rejectedByGateway := c.rejectedByGateway + 1)),
                     Event(id, ReportExchangeRejected, ExchangeReason(reply)));
  }

  lemma DispatchKeepsIds(p: PipelineView, o: OrderRequest)
    ensures SameIds(p, Dispatch(p, o))
  {
    hide Notified, Assess, AfterReply, AfterSendOrder;
    var c := AfterCheck(p, o);
    var k := c.counters;
    NotifiedKeepsIds(
      c.(counters := k.(rejected := k.rejected + 1, rejectedByRisk := k.rejectedByRisk + 1),
         lastRiskReject := RiskVerdict(p, o)),
      Event(o.sequenceId, ReportRiskRejected, RiskReason(RiskVerdict(p, o))));
    var sent := Event(o.sequenceId, ReportSent, NoReason);
    NotifiedKeepsIds(c, sent);
    ReplyKeepsIds(
      Notified(c, sent).(route := if c.route.None? then None else Some(AfterSendOrder(c.route.value, o))),
      o.sequenceId, GatewayVerdict(c, o));
  }

  lemma {:induction false} DispatchAllKeepsIds(p: PipelineView, orders: seq<OrderRequest>)
    ensures SameIds(p, DispatchAll(p, orders))
    decreases |orders|
  {
    hide Dispatch;
    if orders != [] {
      DispatchKeepsIds(p, orders[0]);
      DispatchAllKeepsIds(Dispatch(p, orders[0]), orders[1..]);
    }
  }

  // ---------- the arrival of an order ----------

  /** What enqueueing does besides appending to the queue, when the queue has room. */
  function Arrive(p: PipelineView, r: OrderRequest): PipelineView
  {
    var c := p.counters;
    if Known(p, r.sequenceId) then p.(counters := c.(rejectedByLifecycle := c.rejectedByLifecycle + 1))
    else p.(
      counters := c.(enqueued := c.enqueued + 1),
      tracker := if p.tracker.None? then None else Some(Registered(p.tracker.value, r.sequenceId)))
  }

  lemma ArriveKeepsSame(a: PipelineView, b: PipelineView, r: OrderRequest)
    requires Same(a, b)
    ensures Same(Arrive(a, r), Arrive(b, r))
  {
    hide Registered;
    if a.tracker.Some? {
      RegisteredKeepsSame(a.tracker.value, b.tracker.value, r.sequenceId);
    }
  }

  // ---------- arrivals commute with the dispatch of other orders ----------

  /** Every event offered for order `id` concerns an order the tracker knows. */
  predicate Knows(p: PipelineView, id: uint64)
  {
    p.tracker.Some? ==> id in p.tracker.value.records
  }

  lemma NotifiedAndArriveCommute(p: PipelineView, e: Event, r: OrderRequest)
    requires Knows(p, e.sequenceId)
    ensures Same(Notified(Arrive(p, r), e), Arrive(Notified(p, e), r))
  {
    hide Registered, SameTracker;
    if p.tracker.Some? {
      var t := p.tracker.value;
      assert Offer(t, e).records.Keys == t.records.Keys;
      if r.sequenceId !in t.records {
        OfferAndRegisterCommute(t, e, r.sequenceId);
      } else {
        SameIsReflexive(Notified(Arrive(p, r), e));
      }
    }
  }

  lemma SameIsReflexive(p: PipelineView)
    ensures Same(p, p)
  {
  }

  lemma SameIsTransitive(a: PipelineView, b: PipelineView, c: PipelineView)
    requires Same(a, b) && Same(b, c)
    ensures Same(a, c)
  {
    if a.tracker.Some? {
      forall id: uint64
        ensures EventsOf(a.tracker.value.history, id) == EventsOf(c.tracker.value.history, id)
      {
        assert EventsOf(a.tracker.value.history, id) == EventsOf(b.tracker.value.history, id);
      }
    }
  }

  lemma SameIsSymmetric(a: PipelineView, b: PipelineView)
    requires Same(a, b)
    ensures Same(b, a)
  {
  }

  lemma ReplyAndArriveCommute(p: PipelineView, id: uint64, reply: OrderRejectReason, r: OrderRequest)
    requires Knows(p, id)
    ensures Same(AfterReply(Arrive(p, r), id, reply), Arrive(AfterReply(p, id, reply), r))
  {
    hide Notified, Registered, Same;
    var c := p.counters;
    NotifiedAndArriveCommute(
      p.(counters := c.(accepted := c.accepted + 1)), Event(id, ReportExchangeAccepted, NoReason), r);
    NotifiedAndArriveCommute(
      p.(counters := c.(rejected := c.rejected + 1, rejectedByGateway := c.rejectedByGateway + 1)),
      Event(id, ReportExchangeRejected, ExchangeReason(reply)), r);
  }

  lemma RefusalAndArriveCommute(p: PipelineView, id: uint64, reason: RiskRejectReason, r: OrderRequest)
    requires Knows(p, id)
    ensures Same(AfterRefusal(Arrive(p, r), id, reason), Arrive(AfterRefusal(p, id, reason), r))
  {
    hide Notified, Registered, Same;
    var c := p.counters;
    NotifiedAndArriveCommute(
      p.(counters := c.(rejected := c.rejected + 1, rejectedByRisk := c.rejectedByRisk + 1), lastRiskReject := reason),
      Event(id, ReportRiskRejected, RiskReason(reason)), r);
  }

  lemma SendAndArriveCommute(p: PipelineView, o: OrderRequest, r: OrderRequest)
    requires Knows(p, o.sequenceId)
    ensures Same(AfterSend(Arrive(p, r), o), Arrive(AfterSend(p, o), r))
  {
    hide Notified, Registered, Same, AfterReply, AfterSendOrder, OrderReply;
    var sent := Event(o.sequenceId, ReportSent, NoReason);
    var route := if p.route.None? then None else Some(AfterSendOrder(p.route.value, o));
    var reply := GatewayVerdict(p, o);
    NotifiedAndArriveCommute(p, sent, r);
    var a, b := Notified(Arrive(p, r), sent), Arrive(Notified(p, sent), r);
    assert Same(a.(route := route), b.(route := route)) by { SameRoute(a, b, route); }
    ReplyKeepsSame(a.(route := route), b.(route := route), o.sequenceId, reply);
    var q := Notified(p, sent).(route := route);
    assert Knows(q, o.sequenceId) by { NotifiedKeepsIds(p, sent); }
    assert Arrive(q, r) == b.(route := route);
    ReplyAndArriveCommute(q, o.sequenceId, reply, r);
    SameIsTransitive(AfterSend(Arrive(p, r), o), AfterReply(b.(route := route), o.sequenceId, reply),
                     Arrive(AfterSend(p, o), r));
  }

  lemma SameRoute(a: PipelineView, b: PipelineView, route: Option<Route>)
    requires Same(a, b)
    ensures Same(a.(route := route), b.(route := route))
  {
  }

  lemma DispatchAndArriveCommute(p: PipelineView, o: OrderRequest, r: OrderRequest)
    requires Knows(p, o.sequenceId)
    ensures Same(Dispatch(Arrive(p, r), o), Arrive(Dispatch(p, o), r))
  {
    hide Registered, Same, AfterSend, AfterRefusal, Assess;
    var checked := AfterCheck(p, o);
    assert AfterCheck(Arrive(p, r), o) == Arrive(checked, r);
    SendAndArriveCommute(checked, o, r);
    RefusalAndArriveCommute(checked, o.sequenceId, RiskVerdict(p, o), r);
  }

  // ---------- actions commute with the dispatch of other orders ----------

  function Act(p: PipelineView, action: Action): (after: PipelineView)
    ensures after.queue == p.queue && after.capacity == p.capacity
  {
    if p.route.None? then p
    else
      ActionKeepsTracked(GatewayOf(p), action);
      WithGateway(p, AfterAction(GatewayOf(p), action))
  }

  lemma ActKeepsSame(a: PipelineView, b: PipelineView, action: Action)
    requires Same(a, b)
    ensures Same(Act(a, action), Act(b, action))
  {
    hide SameTracker, AfterAction;
    if a.route.Some? && a.gatewayTracker.SharedTracker? {
      ActionKeepsSame(GatewayOf(a), GatewayOf(b), action);
    }
  }

  lemma NotifiedAndActCommute(p: PipelineView, e: Event, action: Action)
    requires e.sequenceId != ActedOn(action)
    ensures Same(Notified(Act(p, action), e), Act(Notified(p, e), action))
  {
    hide SameTracker, AfterAction, Offer, Takes;
    if p.route.Some? && p.gatewayTracker.SharedTracker? && p.tracker.Some? {
      ActionAndOfferCommute(GatewayOf(p), action, e);
    } else {
      SameIsReflexive(Notified(Act(p, action), e));
      if p.route.Some? {
        ActionKeepsTracked(GatewayOf(p), action);
      }
    }
  }

  lemma ReplyAndActCommute(p: PipelineView, id: uint64, reply: OrderRejectReason, action: Action)
    requires id != ActedOn(action)
    ensures Same(AfterReply(Act(p, action), id, reply), Act(AfterReply(p, id, reply), action))
  {
    hide Notified, Same, AfterAction;
    var c := p.counters;
    NotifiedAndActCommute(
      p.(counters := c.(accepted := c.accepted + 1)), Event(id, ReportExchangeAccepted, NoReason), action);
    NotifiedAndActCommute(
      p.(counters := c.(rejected := c.rejected + 1, rejectedByGateway := c.rejectedByGateway + 1)),
      Event(id, ReportExchangeRejected, ExchangeReason(reply)), action);
  }

  lemma RefusalAndActCommute(p: PipelineView, id: uint64, reason: RiskRejectReason, action: Action)
    requires id != ActedOn(action)
    ensures Same(AfterRefusal(Act(p, action), id, reason), Act(AfterRefusal(p, id, reason), action))
  {
    hide Notified, Same, AfterAction;
    var c := p.counters;
    NotifiedAndActCommute(
      p.(counters := c.(rejected := c.rejected + 1, rejectedByRisk := c.rejectedByRisk + 1), lastRiskReject := reason),
      Event(id, ReportRiskRejected, RiskReason(reason)), action);
  }

  function Forwarded(p: PipelineView, o: OrderRequest): PipelineView
  {
    p.(route := if p.route.None? then None else Some(AfterSendOrder(p.route.value, o)))
  }

  lemma ForwardedAndActCommute(p: PipelineView, o: OrderRequest, action: Action)
    requires o.sequenceId != ActedOn(action)
    ensures Forwarded(Act(p, action), o) == Act(Forwarded(p, o), action)
    ensures GatewayVerdict(Act(p, action), o) == GatewayVerdict(p, o)
  {
    hide AfterAction, AfterSendOrder, OrderReply;
    if p.route.Some? {
      ActionKeepsTracked(GatewayOf(p), action);
      ActionAndSubmitCommute(GatewayOf(p), action, o);
    }
  }

  lemma SendAndActCommute(p: PipelineView, o: OrderRequest, action: Action)
    requires o.sequenceId != ActedOn(action)
    ensures Same(AfterSend(Act(p, action), o), Act(AfterSend(p, o), action))
  {
    hide Notified, Same, AfterReply, AfterSendOrder, OrderReply, Act;
    var sent := Event(o.sequenceId, ReportSent, NoReason);
    var reply := GatewayVerdict(p, o);
    NotifiedAndActCommute(p, sent, action);
    NotifiedKeepsRoute(Act(p, action), sent);
    NotifiedKeepsRoute(p, sent);
    var a, b := Notified(Act(p, action), sent), Act(Notified(p, sent), action);
    ForwardedAndActCommute(p, o, action);
    ForwardedKeepsSame(a, b, o);
    ForwardedAndActCommute(Notified(p, sent), o, action);
    ReplyKeepsSame(Forwarded(a, o), Forwarded(b, o), o.sequenceId, reply);
    ReplyAndActCommute(Forwarded(Notified(p, sent), o), o.sequenceId, reply, action);
    SameIsTransitive(AfterSend(Act(p, action), o), AfterReply(Forwarded(b, o), o.sequenceId, reply),
                     Act(AfterSend(p, o), action));
  }

  lemma ForwardedKeepsSame(a: PipelineView, b: PipelineView, o: OrderRequest)
    requires Same(a, b)
    ensures Same(Forwarded(a, o), Forwarded(b, o))
  {
    hide AfterSendOrder, SameTracker;
  }

  lemma DispatchAndActCommute(p: PipelineView, o: OrderRequest, action: Action)
    requires o.sequenceId != ActedOn(action)
    ensures Same(Dispatch(Act(p, action), o), Act(Dispatch(p, o), action))
  {
    hide Same, AfterSend, AfterRefusal, Assess, AfterAction;
    var checked := AfterCheck(p, o);
    assert AfterCheck(Act(p, action), o) == Act(checked, action);
    SendAndActCommute(checked, o, action);
    RefusalAndActCommute(checked, o.sequenceId, RiskVerdict(p, o), action);
  }

  /** No order among these has the id that the action is about. */
  predicate NotAmong(action: Action, orders: seq<OrderRequest>)
  {
    forall i :: 0 <= i < |orders| ==> orders[i].sequenceId != ActedOn(action)
  }

  lemma {:induction false} DispatchAllAndActCommute(p: PipelineView, orders: seq<OrderRequest>, action: Action)
    requires NotAmong(action, orders)
    ensures Same(DispatchAll(Act(p, action), orders), Act(DispatchAll(p, orders), action))
    decreases |orders|
  {
    hide Same, Dispatch, Act;
    if orders == [] {
      SameIsReflexive(Act(p, action));
    } else {
      var o, rest := orders[0], orders[1..];
      DispatchAndActCommute(p, o, action);
      DispatchAllKeepsSame(Dispatch(Act(p, action), o), Act(Dispatch(p, o), action), rest);
      DispatchAllAndActCommute(Dispatch(p, o), rest, action);
      SameIsTransitive(DispatchAll(Act(p, action), orders), DispatchAll(Act(Dispatch(p, o), action), rest),
                       Act(DispatchAll(p, orders), action));
    }
  }

  ghost predicate KnowsAll(p: PipelineView, orders: seq<OrderRequest>)
  {
    forall i :: 0 <= i < |orders| ==> Knows(p, orders[i].sequenceId)
  }

  lemma IdsKeepKnown(a: PipelineView, b: PipelineView, orders: seq<OrderRequest>)
    requires SameIds(a, b) && KnowsAll(a, orders)
    ensures KnowsAll(b, orders)
  {
  }

  lemma {:induction false} DispatchAllAndArriveCommute(p: PipelineView, orders: seq<OrderRequest>, r: OrderRequest)
    requires KnowsAll(p, orders)
    ensures Same(DispatchAll(Arrive(p, r), orders), Arrive(DispatchAll(p, orders), r))
    decreases |orders|
  {
    hide Same, Dispatch, Arrive, Knows;
    if orders == [] {
      SameIsReflexive(Arrive(p, r));
    } else {
      var o, rest := orders[0], orders[1..];
      DispatchKeepsIds(p, o);
      IdsKeepKnown(p, Dispatch(p, o), orders);
      DispatchAndArriveCommute(p, o, r);
      DispatchAllKeepsSame(Dispatch(Arrive(p, r), o), Arrive(Dispatch(p, o), r), rest);
      DispatchAllAndArriveCommute(Dispatch(p, o), rest, r);
      SameIsTransitive(DispatchAll(Arrive(p, r), orders), DispatchAll(Arrive(Dispatch(p, o), r), rest),
                       Arrive(DispatchAll(p, orders), r));
    }
  }

  // ---------- schedules ----------

  predicate IsAction(command: Command)
  {
    command.SendAmend? || command.SendCancel?
  }

  function AsAction(command: Command): Action
    requires IsAction(command)
  {
    match command
    case SendAmend(a) => AmendAction(a)
    case SendCancel(c) => CancelAction(c)
  }

  lemma CommandActs(p: PipelineView, command: Command)
    requires IsAction(command)
    ensures AfterCommand(p, command) == Act(p, AsAction(command))
  {
    hide AfterSendAmend, AfterSendCancel;
  }

  function WithoutDrains(steps: seq<Command>): seq<Command>
  {
    if steps == [] then []
    else (if steps[0].Drain? then [] else [steps[0]]) + WithoutDrains(steps[1..])
  }

  /** No amend or cancel is about an order that is still waiting in the queue. */
  predicate ActionsSettled(p: PipelineView, steps: seq<Command>)
    decreases |steps|
  {
    steps != [] ==>
      && (IsAction(steps[0]) ==> NotAmong(AsAction(steps[0]), p.queue))
      && ActionsSettled(AfterCommand(p, steps[0]), steps[1..])
  }

  /** No step of the schedule drops an order because the buffer is full. */
  predicate NoDrop(p: PipelineView, steps: seq<Command>)
  {
    Refused(p, steps).1 == 0
  }

  /** The schedule that drains after every single command. */
  function Eager(p: PipelineView, commands: seq<Command>): PipelineView
    decreases |commands|
  {
    if commands == [] then p else Eager(Drained(AfterCommand(p, commands[0])), commands[1..])
  }

  lemma DispatchAllSplit(p: PipelineView, orders: seq<OrderRequest>, last: OrderRequest)
    ensures DispatchAll(p, orders + [last]) == Dispatch(DispatchAll(p, orders), last)
    decreases |orders|
  {
    hide Dispatch;
    if orders != [] {
      assert (orders + [last])[1..] == orders[1..] + [last];
      DispatchAllSplit(Dispatch(p, orders[0]), orders[1..], last);
    } else {
      assert DispatchAll(Dispatch(p, last), []) == Dispatch(p, last);
    }
  }

  lemma ArriveIgnoresQueue(p: PipelineView, r: OrderRequest, q: seq<OrderRequest>)
    ensures Arrive(p.(queue := q), r) == Arrive(p, r).(queue := q)
  {
  }

  lemma EnqueueExplicitly(p: PipelineView, r: OrderRequest)
    requires Known(p, r.sequenceId) || |p.queue| < p.capacity
    ensures AfterEnqueue(p, r) == Arrive(p, r).(queue := if Known(p, r.sequenceId) then p.queue else p.queue + [r])
  {
  }

  /** Draining first, then enqueueing and draining, is as good as enqueueing and draining. */
  lemma EarlyDrainIsHarmless(p: PipelineView, r: OrderRequest)
    requires p.capacity > 0 && KnowsAll(p, p.queue)
    requires Known(p, r.sequenceId) || |p.queue| < p.capacity
    ensures Same(Drained(AfterEnqueue(Drained(p), r)), Drained(AfterEnqueue(p, r)))
  {
    hide Same, Dispatch, Arrive, AfterEnqueue;
    var p0 := p.(queue := []);
    var known := Known(p, r.sequenceId);
    DispatchAllAndArriveCommute(p0, p.queue, r);
    DispatchAllKeepsIds(p0, p.queue);
    EnqueueExplicitly(p, r);
    EnqueueExplicitly(Drained(p), r);
    ArriveIgnoresQueue(p, r, []);
    ArriveIgnoresQueue(Drained(p), r, []);
    var a, b := Arrive(Drained(p), r), DispatchAll(Arrive(p0, r), p.queue);
    SameIsSymmetric(b, a);
    DispatchAllSplit(Arrive(p0, r), p.queue, r);
    if known {
      assert DispatchAll(a, []) == a;
    } else {
      assert [] + [r] == [r];
      DispatchAllSplit(a, [], r);
      DispatchKeepsSame(a, b, r);
    }
  }

  lemma DrainedKeepsSame(a: PipelineView, b: PipelineView)
    requires Same(a, b)
    ensures Same(Drained(a), Drained(b))
  {
    hide Dispatch, SameTracker;
    DispatchAllKeepsSame(a.(queue := []), b.(queue := []), a.queue);
  }

  lemma EnqueueKeepsSame(a: PipelineView, b: PipelineView, r: OrderRequest)
    requires Same(a, b)
    ensures Same(AfterEnqueue(a, r), AfterEnqueue(b, r))
  {
    hide SameTracker, Registered;
    ArriveKeepsSame(a, b, r);
    assert Known(a, r.sequenceId) <==> Known(b, r.sequenceId) by { SameRecords(a, b); }
  }

  lemma SameRecords(a: PipelineView, b: PipelineView)
    requires Same(a, b)
    ensures a.tracker.Some? ==> b.tracker.Some? && a.tracker.value.records == b.tracker.value.records
  {
  }

  lemma CommandKeepsSame(a: PipelineView, b: PipelineView, command: Command)
    requires Same(a, b)
    ensures Same(AfterCommand(a, command), AfterCommand(b, command))
  {
    hide Same, Drained, AfterEnqueue, Act, AfterSendAmend, AfterSendCancel;
    if IsAction(command) {
      CommandActs(a, command);
      CommandActs(b, command);
      ActKeepsSame(a, b, AsAction(command));
    } else if command.Enqueue? {
      EnqueueKeepsSame(a, b, command.order);
    } else {
      DrainedKeepsSame(a, b);
    }
  }

  lemma {:induction false} EagerKeepsSame(a: PipelineView, b: PipelineView, commands: seq<Command>)
    requires Same(a, b)
    ensures Same(Eager(a, commands), Eager(b, commands))
    decreases |commands|
  {
    hide Same, Drained, AfterCommand;
    if commands != [] {
      CommandKeepsSame(a, b, commands[0]);
      DrainedKeepsSame(AfterCommand(a, commands[0]), AfterCommand(b, commands[0]));
      EagerKeepsSame(Drained(AfterCommand(a, commands[0])), Drained(AfterCommand(b, commands[0])), commands[1..]);
    }
  }

  /** Draining before an action is harmless when the action is about no waiting order. */
  lemma EarlyDrainBeforeAction(p: PipelineView, action: Action)
    requires NotAmong(action, p.queue)
    ensures Same(Drained(Act(Drained(p), action)), Drained(Act(p, action)))
  {
    hide Same, Dispatch, AfterAction;
    var p0 := p.(queue := []);
    assert Act(p, action).(queue := []) == Act(p0, action);
    DispatchAllAndActCommute(p0, p.queue, action);
    SameIsSymmetric(DispatchAll(Act(p0, action), p.queue), Act(DispatchAll(p0, p.queue), action));
    DrainedNothing(Act(Drained(p), action));
  }

  lemma ActKeepsKnowsAll(p: PipelineView, action: Action)
    requires KnowsAll(p, p.queue)
    ensures KnowsAll(Act(p, action), Act(p, action).queue)
  {
    hide AfterAction;
    if p.route.Some? {
      ActionKeepsIds(GatewayOf(p), action);
    }
  }

  lemma ActionKeepsIds(g: GatewayView, action: Action)
    ensures var after := AfterAction(g, action);
            && (after.tracker.Some? <==> g.tracker.Some?)
            && (g.tracker.Some? ==> after.tracker.value.records.Keys == g.tracker.value.records.Keys)
  {
    hide Offer, AfterAction, SettledEvent;
    ActionKeepsTracked(g, action);
    if g.tracker.Some? {
      var t, pending, settled := g.tracker.value, PendingEvent(action), SettledEvent(g, action);
      ActionOffers(g, action);
      OfferKeepsKeys(t, pending);
      OfferKeepsKeys(Offer(t, pending), settled);
    }
  }

  lemma OfferKeepsKeys(t: Tracker, e: Event)
    requires e.what != ReportCreated
    ensures Offer(t, e).records.Keys == t.records.Keys
  {
    if Takes(t, e) {
      assert Before(e.what).Some? by { match e.what case _ => }
      assert Apply(t.records, e).Keys == t.records.Keys + {e.sequenceId};
    }
  }

  lemma EnqueueKeepsKnowsAll(p: PipelineView, r: OrderRequest)
    requires KnowsAll(p, p.queue)
    ensures KnowsAll(AfterEnqueue(p, r), AfterEnqueue(p, r).queue)
  {
    hide Registered;
    if p.tracker.Some? && Admits(p, r) {
      RegisteredExplicitly(p.tracker.value, r.sequenceId);
    }
  }

  /** One command, drained before or not. */
  lemma EarlyDrainIsUnseen(p: PipelineView, command: Command)
    requires p.capacity > 0 && KnowsAll(p, p.queue) && !command.Drain?
    requires command.Enqueue? ==> !Full(p, command.order)
    requires IsAction(command) ==> NotAmong(AsAction(command), p.queue)
    ensures Same(Drained(AfterCommand(Drained(p), command)), Drained(AfterCommand(p, command)))
    ensures var next := AfterCommand(p, command);
            next.capacity == p.capacity && KnowsAll(next, next.queue)
  {
    hide Same, Drained, AfterEnqueue, Act, AfterSendAmend, AfterSendCancel, Known, KnowsAll;
    if IsAction(command) {
      CommandActs(p, command);
      CommandActs(Drained(p), command);
      EarlyDrainBeforeAction(p, AsAction(command));
      ActKeepsKnowsAll(p, AsAction(command));
    } else {
      EarlyDrainIsHarmless(p, command.order);
      EnqueueKeepsKnowsAll(p, command.order);
      EnqueueKeepsCapacity(p, command.order);
    }
  }

  lemma {:induction false} AnyScheduleIsEager(p: PipelineView, steps: seq<Command>)
    requires p.capacity > 0 && KnowsAll(p, p.queue) && NoDrop(p, steps) && ActionsSettled(p, steps)
    ensures Same(Drained(Run(p, steps)), Eager(Drained(p), WithoutDrains(steps)))
    decreases |steps|
  {
    hide Same, Dispatch, AfterEnqueue, Knows, AfterSendAmend, AfterSendCancel, NotAmong, KnowsAll;
    if steps == [] {
      SameIsReflexive(Drained(p));
    } else if steps[0].Drain? {
      var next, rest := Drained(p), steps[1..];
      assert WithoutDrains(steps) == WithoutDrains(rest);
      DrainedNothing(next);
      assert KnowsAll(next, next.queue) by { KnowsNone(next); }
      AnyScheduleIsEager(next, rest);
    } else {
      var first, next, rest := steps[0], AfterCommand(p, steps[0]), steps[1..];
      assert WithoutDrains(steps)[1..] == WithoutDrains(rest);
      EarlyDrainIsUnseen(p, first);
      AnyScheduleIsEager(next, rest);
      var early := Drained(AfterCommand(Drained(p), first));
      SameIsSymmetric(early, Drained(next));
      EagerKeepsSame(Drained(next), early, WithoutDrains(rest));
      SameIsTransitive(Drained(Run(p, steps)), Eager(Drained(next), WithoutDrains(rest)),
                       Eager(Drained(p), WithoutDrains(steps)));
    }
  }

  lemma KnowsNone(p: PipelineView)
    requires p.queue == []
    ensures KnowsAll(p, p.queue)
  {
  }

  lemma EnqueueKeepsCapacity(p: PipelineView, r: OrderRequest)
    ensures AfterEnqueue(p, r).capacity == p.capacity
  {
    hide Registered;
  }

  /** Take a run that drops nothing. Another placement of drains among the same enqueues, amends and
      cancels ends, after a last drain, in the same state if and only if it drops nothing either: same
      exchange, same risk outcomes, same counters everywhere, same records, and the same events for each
      single order. This holds for every wiring, from every state whose queued orders the tracker knows,
      as long as neither run amends or cancels an order while it waits. */
  lemma DrainScheduleIndependence(p: PipelineView, one: seq<Command>, other: seq<Command>)
    requires p.capacity > 0 && KnowsAll(p, p.queue)
    requires WithoutDrains(one) == WithoutDrains(other)
    requires ActionsSettled(p, one) && ActionsSettled(p, other)
    requires NoDrop(p, other)
    ensures Same(Drained(Run(p, one)), Drained(Run(p, other))) <==> NoDrop(p, one)
  {
    hide Drained, Run, Eager, KnowsAll, WithoutDrains, SameTracker, Refused, ActionsSettled;
    var a, b := Drained(Run(p, one)), Drained(Run(p, other));
    if NoDrop(p, one) {
      AnyScheduleIsEager(p, one);
      AnyScheduleIsEager(p, other);
      SameIsSymmetric(b, Eager(Drained(p), WithoutDrains(other)));
      SameIsTransitive(a, Eager(Drained(p), WithoutDrains(one)), b);
    } else {
      ArrivalsAreAttributed(p, one);
      ArrivalsAreAttributed(p, other);
      DrainKeepsDrops(Run(p, one));
      DrainKeepsDrops(Run(p, other));
      assert a.counters.dropped != b.counters.dropped;
    }
  }

  /** What can be read off a schedule: with these ids waiting at the start, no enqueue meets a full queue
      even if every one before it was admitted, and no action is about an id enqueued since the last drain. */
  predicate WellPaced(capacity: nat, waiting: seq<uint64>, steps: seq<Command>)
    decreases |steps|
  {
    steps != [] ==>
      match steps[0]
      case Enqueue(r) => |waiting| < capacity && WellPaced(capacity, waiting + [r.sequenceId], steps[1..])
      case Drain => WellPaced(capacity, [], steps[1..])
      case _ => ActedOn(AsAction(steps[0])) !in waiting && WellPaced(capacity, waiting, steps[1..])
  }

  /** The queue holds no more orders than these, and none of another id. */
  predicate QueueWithin(p: PipelineView, waiting: seq<uint64>)
  {
    |p.queue| <= |waiting| && forall i :: 0 <= i < |p.queue| ==> p.queue[i].sequenceId in waiting
  }

  lemma EnqueueStaysWithin(p: PipelineView, r: OrderRequest, waiting: seq<uint64>)
    requires QueueWithin(p, waiting)
    ensures QueueWithin(AfterEnqueue(p, r), waiting + [r.sequenceId])
    ensures AfterEnqueue(p, r).capacity == p.capacity
  {
    hide Registered;
    var longer := waiting + [r.sequenceId];
    assert longer[|waiting|] == r.sequenceId && forall id :: id in waiting ==> id in longer;
  }

  /** A well-paced schedule drops nothing and settles before it acts, whatever is wired. */
  lemma {:induction false} WellPacedIsSafe(p: PipelineView, waiting: seq<uint64>, steps: seq<Command>)
    requires QueueWithin(p, waiting) && WellPaced(p.capacity, waiting, steps)
    ensures NoDrop(p, steps) && ActionsSettled(p, steps)
    decreases |steps|
  {
    hide Registered, DispatchAll, AfterSendAmend, AfterSendCancel, AfterEnqueue, Known, Act;
    if steps != [] {
      var next, rest := AfterCommand(p, steps[0]), steps[1..];
      if IsAction(steps[0]) {
        CommandActs(p, steps[0]);
        WellPacedIsSafe(next, waiting, rest);
      } else if steps[0].Drain? {
        WellPacedIsSafe(next, [], rest);
      } else {
        EnqueueStaysWithin(p, steps[0].order, waiting);
        WellPacedIsSafe(next, waiting + [steps[0].order.sequenceId], rest);
      }
    }
  }

  /** From an empty queue, well-paced schedules of the same commands are interchangeable. */
  lemma WellPacedSchedulesAgree(p: PipelineView, one: seq<Command>, other: seq<Command>)
    requires p.capacity > 0 && p.queue == [] && WithoutDrains(one) == WithoutDrains(other)
    requires WellPaced(p.capacity, [], one) && WellPaced(p.capacity, [], other)
    ensures Same(Drained(Run(p, one)), Drained(Run(p, other)))
  {
    hide Drained, Run, WithoutDrains, Same, NoDrop, ActionsSettled, WellPaced;
    WellPacedIsSafe(p, [], one);
    WellPacedIsSafe(p, [], other);
    DrainScheduleIndependence(p, one, other);
  }

  lemma DrainKeepsDrops(p: PipelineView)
    ensures Drained(p).counters.dropped == p.counters.dropped
  {
    hide DispatchAll;
    DispatchAllKeepsArrivals(p.(queue := []), p.queue);
  }

  // ---------- what the journals say ----------

  function Unindexed(reports: seq<ExecutionReport>): seq<ExecutionReport>
  {
    if reports == [] then []
    else Unindexed(reports[..|reports| - 1]) + [reports[|reports| - 1].(eventIndex := 0)]
  }

  function UnindexedReportsOf(events: seq<Event>): seq<ExecutionReport>
  {
    if events == [] then []
    else
      var last := events[|events| - 1];
      UnindexedReportsOf(events[..|events| - 1]) + [ReportOf(0, last.sequenceId, last.what, last.reason)]
  }

  lemma {:induction false} ReportsFollowEvents(history: seq<Event>, id: uint64)
    ensures Unindexed(Matching(Rendered([], history), id)) == UnindexedReportsOf(EventsOf(history, id))
  {
    if history != [] {
      var front, last := history[..|history| - 1], history[|history| - 1];
      ReportsFollowEvents(front, id);
      var before := Rendered([], front);
      var r := ReportOf(|before| + 1, last.sequenceId, last.what, last.reason);
      assert Rendered([], history)[..|before|] == before;
      var m, events := Matching(before, id), EventsOf(front, id);
      assert (m + [r])[..|m|] == m && (events + [last])[..|events|] == events;
      assert m + [] == m && events + [] == events;
    }
  }

  /** For fresh components with a journal attached, the two final journals hold, for every order, the
      same reports in the same order: only the event indexes differ. */
  lemma JournalsDifferOnlyInInterleaving(p: PipelineView, one: seq<Command>, other: seq<Command>, id: uint64)
    requires Fresh(p) && Journaled(p)
    requires WithoutDrains(one) == WithoutDrains(other)
    requires ActionsSettled(p, one) && ActionsSettled(p, other)
    requires NoDrop(p, one) && NoDrop(p, other)
    ensures var a, b := Drained(Run(p, one)), Drained(Run(p, other));
            && Journaled(a) && Journaled(b)
            && Unindexed(Matching(a.tracker.value.journal.value, id))
               == Unindexed(Matching(b.tracker.value.journal.value, id))
  {
    hide Run, Drained, NoDrop, WithoutDrains, ActionsSettled, Same;
    var a, b := Drained(Run(p, one)), Drained(Run(p, other));
    DrainScheduleIndependence(p, one, other);
    FreshIsSound(p);
    RunKeepsSound(p, p, one);
    RunKeepsSound(p, p, other);
    CommandKeepsSound(p, Run(p, one), Drain);
    CommandKeepsSound(p, Run(p, other), Drain);
    SameJournals(p, a, b, id);
  }

  lemma SameJournals(origin: PipelineView, a: PipelineView, b: PipelineView, id: uint64)
    requires Same(a, b) && Journaled(origin) && TrackerSound(origin, a) && TrackerSound(origin, b)
    ensures Unindexed(Matching(a.tracker.value.journal.value, id))
            == Unindexed(Matching(b.tracker.value.journal.value, id))
  {
    ReportsFollowEvents(a.tracker.value.history, id);
    ReportsFollowEvents(b.tracker.value.history, id);
  }
}
