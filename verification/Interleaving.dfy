/** Equality up to the interleaving of different orders: what a tracker and a gateway do for one order
    commutes with what they do for another. */
module Interleaving {
  import opened Messages
  import opened ExecutionReports
  import opened OrderLifecycle
  import opened Exchange
  import opened Gateway

  // ---------- equality up to interleaving ----------

  /** The events of one order, in order. */
  function EventsOf(history: seq<Event>, id: uint64): seq<Event>
  {
    if history == [] then []
    else
      var last := history[|history| - 1];
      EventsOf(history[..|history| - 1], id) + if last.sequenceId == id then [last] else []
  }

  lemma EventsAppend(history: seq<Event>, e: Event, id: uint64)
    ensures EventsOf(history + [e], id) == EventsOf(history, id) + if e.sequenceId == id then [e] else []
  {
    assert (history + [e])[..|history|] == history;
  }

  ghost predicate SamePerOrder(a: seq<Event>, b: seq<Event>)
  {
    forall id: uint64 :: EventsOf(a, id) == EventsOf(b, id)
  }

  lemma SamePerOrderAppend(a: seq<Event>, b: seq<Event>, e: Event)
    requires SamePerOrder(a, b)
    ensures SamePerOrder(a + [e], b + [e])
  {
    forall id: uint64
      ensures EventsOf(a + [e], id) == EventsOf(b + [e], id)
    {
      EventsAppend(a, e, id);
      EventsAppend(b, e, id);
    }
  }

  /** Everything but the interleaving of different orders and the most recent error code. */
  ghost predicate SameTracker(a: Tracker, b: Tracker)
  {
    && a.records == b.records
    && a.counters == b.counters
    && a.errors.(last := NoLifecycleError) == b.errors.(last := NoLifecycleError)
    && (a.journal.Some? <==> b.journal.Some?)
    && SamePerOrder(a.history, b.history)
  }

  lemma OfferKeepsSame(a: Tracker, b: Tracker, e: Event)
    requires SameTracker(a, b)
    ensures SameTracker(Offer(a, e), Offer(b, e)) && (Takes(a, e) <==> Takes(b, e))
  {
    SamePerOrderAppend(a.history, b.history, e);
  }

  lemma RegisteredKeepsSame(a: Tracker, b: Tracker, id: uint64)
    requires SameTracker(a, b)
    ensures SameTracker(Registered(a, id), Registered(b, id))
  {
    hide Offer, Takes, SameTracker;
    var created, queued := Event(id, ReportCreated, NoReason), Event(id, ReportQueued, NoReason);
    OfferKeepsSame(a, b, created);
    OfferKeepsSame(Offer(a, created), Offer(b, created), queued);
  }

  lemma SameTrackerTransitive(a: Tracker, b: Tracker, c: Tracker)
    requires SameTracker(a, b) && SameTracker(b, c)
    ensures SameTracker(a, c)
  {
    forall id: uint64
      ensures EventsOf(a.history, id) == EventsOf(c.history, id)
    {
      assert EventsOf(a.history, id) == EventsOf(b.history, id);
    }
  }

  // ---------- steps of different orders commute ----------

  lemma CountsCommute(c: LifecycleCounters, s: ExecutionReportType, t: ExecutionReportType)
    ensures Count(Count(c, s), t) == Count(Count(c, t), s)
  {
    match t case _ =>
  }

  lemma FailuresCommute(errors: LifecycleErrors, e: LifecycleError, f: LifecycleError)
    ensures var none := NoLifecycleError;
            && Failed(Failed(errors, e), f).(last := none) == Failed(Failed(errors, f), e).(last := none)
            && Failed(errors.(last := none), e).(last := none) == Failed(errors, e).(last := none)
            && Failed(errors.(last := none), f).(last := none) == Failed(errors, f).(last := none)
  {
  }

  lemma EventsCommute(history: seq<Event>, e: Event, f: Event)
    requires e.sequenceId != f.sequenceId
    ensures SamePerOrder(history + [e] + [f], history + [f] + [e])
  {
    forall id: uint64
      ensures EventsOf(history + [e] + [f], id) == EventsOf(history + [f] + [e], id)
    {
      EventsAppend(history, e, id);
      EventsAppend(history + [e], f, id);
      EventsAppend(history, f, id);
      EventsAppend(history + [f], e, id);
    }
  }

  lemma OfferKeepsError(t: Tracker, e: Event, f: Event)
    requires e.sequenceId != f.sequenceId
    ensures ErrorOf(Offer(t, e).records, f) == ErrorOf(t.records, f)
  {
    hide Updated, ProperReason;
  }

  lemma OffersCommute(t: Tracker, e: Event, f: Event)
    requires e.sequenceId != f.sequenceId
    ensures Takes(Offer(t, e), f) <==> Takes(t, f)
    ensures SameTracker(Offer(Offer(t, e), f), Offer(Offer(t, f), e))
  {
    hide Count, Updated, ProperReason, Failed, ErrorOf;
    CountsCommute(t.counters, e.what, f.what);
    EventsCommute(t.history, e, f);
    FailuresCommute(t.errors, ErrorOf(t.records, e), ErrorOf(t.records, f));
    assert ErrorOf(Offer(t, e).records, f) == ErrorOf(t.records, f) by { OfferKeepsError(t, e, f); }
    assert ErrorOf(Offer(t, f).records, e) == ErrorOf(t.records, e) by { OfferKeepsError(t, f, e); }
  }

  lemma TwoOffersCommute(t: Tracker, f: Event, g: Event, e: Event)
    requires e.sequenceId != f.sequenceId && e.sequenceId != g.sequenceId
    ensures SameTracker(Offer(Offer(Offer(t, f), g), e), Offer(Offer(Offer(t, e), f), g))
    ensures Takes(Offer(Offer(t, f), g), e) <==> Takes(t, e)
    ensures Takes(Offer(Offer(t, e), f), g) <==> Takes(Offer(t, f), g)
  {
    hide Offer, Takes, SameTracker;
    OffersCommute(t, f, e);
    OffersCommute(t, e, f);
    OffersCommute(Offer(t, f), g, e);
    OfferKeepsSame(Offer(Offer(t, f), e), Offer(Offer(t, e), f), g);
    OffersCommute(Offer(t, f), e, g);
    SameTrackerTransitive(Offer(Offer(Offer(t, f), g), e), Offer(Offer(Offer(t, f), e), g),
                          Offer(Offer(Offer(t, e), f), g));
  }

  lemma RegisteredExplicitly(t: Tracker, id: uint64)
    requires id !in t.records
    ensures var now := Registered(t, id);
            && now.records == t.records[id := NewRecord(id).(state := Queued)]
            && now.counters == Count(Count(t.counters, ReportCreated), ReportQueued)
            && now.errors == t.errors.(last := NoLifecycleError)
            && (now.journal.Some? <==> t.journal.Some?)
            && now.history == t.history + [Event(id, ReportCreated, NoReason)] + [Event(id, ReportQueued, NoReason)]
  {
  }

  lemma OfferAndRegisterCommute(t: Tracker, e: Event, id: uint64)
    requires id !in t.records && e.sequenceId != id
    ensures Takes(Registered(t, id), e) <==> Takes(t, e)
    ensures SameTracker(Offer(Registered(t, id), e), Registered(Offer(t, e), id))
  {
    hide Offer, SameTracker, Takes;
    var created, queued := Event(id, ReportCreated, NoReason), Event(id, ReportQueued, NoReason);
    assert Takes(t, created) by { NewIsTaken(t, id); }
    OffersCommute(t, e, created);
    TwoOffersCommute(t, created, queued, e);
  }

  lemma NewIsTaken(t: Tracker, id: uint64)
    requires id !in t.records
    ensures Takes(t, Event(id, ReportCreated, NoReason))
  {
  }

  // ---------- actions commute with what happens to other orders ----------

  function PendingEvent(action: Action): Event
  {
    Event(ActedOn(action), if action.CancelAction? then ReportCancelPending else ReportAmendPending, NoReason)
  }

  function SettledEvent(g: GatewayView, action: Action): Event
  {
    match action
    case CancelAction(c) => CancelSettled(c.sequenceId, CancelReply(g, c))
    case AmendAction(a) => AmendSettled(a.sequenceId, AmendReply(g, a))
  }

  predicate Bounced(g: GatewayView, action: Action)
  {
    g.tracker.Some? && !Takes(g.tracker.value, PendingEvent(action))
  }

  lemma ActionOffers(g: GatewayView, action: Action)
    requires g.tracker.Some?
    ensures var begun := Offer(g.tracker.value, PendingEvent(action));
            AfterAction(g, action).tracker
            == Some(if Bounced(g, action) then begun else Offer(begun, SettledEvent(g, action)))
    ensures SettledEvent(g, action).sequenceId == ActedOn(action) && SettledEvent(g, action).what != ReportCreated
  {
    hide Offer, Takes, CancelOutcome, AmendOutcome, AfterCancel, AfterAmend;
  }

  lemma OnlyBounceMatters(g: GatewayView, h: GatewayView, action: Action)
    requires g.counters == h.counters && g.exchange == h.exchange
    requires Bounced(g, action) <==> Bounced(h, action)
    ensures AfterAction(g, action).counters == AfterAction(h, action).counters
    ensures AfterAction(g, action).exchange == AfterAction(h, action).exchange
    ensures SettledEvent(g, action) == SettledEvent(h, action)
  {
    hide Offer, Takes, CancelOutcome, AmendOutcome, AfterCancel, AfterAmend;
  }

  ghost predicate SameGateway(g: GatewayView, h: GatewayView)
  {
    && g.counters == h.counters && g.exchange == h.exchange
    && (g.tracker.Some? <==> h.tracker.Some?)
    && (g.tracker.Some? ==> SameTracker(g.tracker.value, h.tracker.value))
  }

  lemma ActionKeepsSame(g: GatewayView, h: GatewayView, action: Action)
    requires SameGateway(g, h)
    ensures SameGateway(AfterAction(g, action), AfterAction(h, action))
  {
    hide Offer, Takes, SameTracker, AfterAction, SettledEvent;
    ActionKeepsTracked(g, action);
    ActionKeepsTracked(h, action);
    if g.tracker.Some? {
      var t, u, pending := g.tracker.value, h.tracker.value, PendingEvent(action);
      OfferKeepsSame(t, u, pending);
      OfferKeepsSame(Offer(t, pending), Offer(u, pending), SettledEvent(g, action));
      ActionOffers(g, action);
      ActionOffers(h, action);
    }
    OnlyBounceMatters(g, h, action);
  }

  /** An action does not notice a step of another order, nor that step the action. */
  lemma ActionAndOfferCommute(g: GatewayView, action: Action, e: Event)
    requires g.tracker.Some? && e.sequenceId != ActedOn(action)
    ensures var h := g.(tracker := Some(Offer(g.tracker.value, e)));
            var after := AfterAction(g, action);
            && after.tracker.Some?
            && SameGateway(after.(tracker := Some(Offer(after.tracker.value, e))), AfterAction(h, action))
            && (Takes(after.tracker.value, e) <==> Takes(g.tracker.value, e))
  {
    hide Offer, Takes, SameTracker, AfterAction, SettledEvent;
    var t, pending, settled := g.tracker.value, PendingEvent(action), SettledEvent(g, action);
    var h := g.(tracker := Some(Offer(t, e)));
    ActionOffers(g, action);
    ActionOffers(h, action);
    OffersCommute(t, e, pending);
    OffersCommute(t, pending, e);
    OnlyBounceMatters(g, h, action);
    TwoOffersCommute(t, pending, settled, e);
  }

  /** The gateway after a submission. */
  function Submitted(g: GatewayView, r: OrderRequest): GatewayView
  {
    var route := AfterSendOrder(Route(g.counters, g.exchange), r);
    GatewayView(route.counters, route.exchange, g.tracker)
  }

  lemma CancelAndSubmitCommute(x: ExchangeView, c: CancelRequest, r: OrderRequest)
    requires c.sequenceId != r.sequenceId
    ensures CancelOutcome(AfterSubmit(x, r), c) == CancelOutcome(x, c)
    ensures SubmitOutcome(AfterCancel(x, c), r) == SubmitOutcome(x, r)
    ensures AfterCancel(AfterSubmit(x, r), c) == AfterSubmit(AfterCancel(x, c), r)
  {
    assert x.active[r.sequenceId := r] - {c.sequenceId} == (x.active - {c.sequenceId})[r.sequenceId := r];
  }

  lemma AmendAndSubmitCommute(x: ExchangeView, a: AmendRequest, r: OrderRequest)
    requires a.sequenceId != r.sequenceId
    ensures AmendOutcome(AfterSubmit(x, r), a) == AmendOutcome(x, a)
    ensures SubmitOutcome(AfterAmend(x, a), r) == SubmitOutcome(x, r)
    ensures AfterAmend(AfterSubmit(x, r), a) == AfterSubmit(AfterAmend(x, a), r)
  {
  }

  lemma ActionAndSubmitCommute(g: GatewayView, action: Action, r: OrderRequest)
    requires r.sequenceId != ActedOn(action)
    ensures AfterAction(Submitted(g, r), action) == Submitted(AfterAction(g, action), r)
    ensures var after := AfterAction(g, action);
            OrderReply(Route(after.counters, after.exchange), r) == OrderReply(Route(g.counters, g.exchange), r)
  {
    hide Offer, Takes, CancelOutcome, AmendOutcome, SubmitOutcome, AfterCancel, AfterAmend, AfterSubmit;
    hide CancelSettled, AmendSettled;
    if g.exchange.Some? {
      match action
      case CancelAction(c) => CancelAndSubmitCommute(g.exchange.value, c, r);
      case AmendAction(a) => AmendAndSubmitCommute(g.exchange.value, a, r);
    }
  }
}
