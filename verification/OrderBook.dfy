/** The fully wired system as one abstract order book. The pipeline's queue, the tracker's records
    and the exchange's two stores are four views of a single map from order id to entry, and every
    command acts on that map in one simple way. */
module OrderBook {
  import opened Messages
  import opened PreTradeRisk
  import opened ExecutionReports
  import opened OrderLifecycle
  import opened Exchange
  import opened Gateway
  import opened Pipeline
  import opened SystemRuns

  datatype Entry =
    | Waiting(request: OrderRequest)
    | RiskRefused(risk: RiskRejectReason)
    | ExchangeRefused(exchange: OrderRejectReason)
    | Live(order: OrderRequest, lastAmend: AmendRejectReason)
    | Closed(lastAmend: AmendRejectReason)

  type Book = map<uint64, Entry>

  // ---------- commands on the book ----------

  /** The fate of a waiting order depends on the order and the risk limits only. */
  function Fate(risk: Option<RiskConfig>, r: OrderRequest): Entry
  {
    if risk.Some? && Assess(risk.value, r) != RiskNotRejected then RiskRefused(Assess(risk.value, r))
    else if Submittable(r) then Live(r, AmendNotRejected)
    else ExchangeRefused(SubmitOutcome(FRESH_EXCHANGE, r))
  }

  function WaitingIds(b: Book): set<uint64>
  {
    set id | id in b && b[id].Waiting?
  }

  predicate BookAdmits(capacity: nat, b: Book, r: OrderRequest)
  {
    r.sequenceId !in b && |WaitingIds(b)| < capacity
  }

  function BookEnqueue(capacity: nat, b: Book, r: OrderRequest): Book
  {
    if BookAdmits(capacity, b, r) then b[r.sequenceId := Waiting(r)] else b
  }

  /** Draining decides every waiting order, each on its own; there is no order among them. */
  function BookDrain(risk: Option<RiskConfig>, b: Book): Book
  {
    map id | id in b :: if b[id].Waiting? then Fate(risk, b[id].request) else b[id]
  }

  function BookAmendReply(b: Book, a: AmendRequest): AmendRejectReason
  {
    if a.sequenceId !in b || !b[a.sequenceId].Live? then AmendInvalidState
    else if !Positive(a.newPrice) then AmendInvalidPrice
    else if a.newQuantity == 0 then AmendInvalidQuantity
    else AmendNotRejected
  }

  function BookAmend(b: Book, a: AmendRequest): Book
  {
    var reply := BookAmendReply(b, a);
    if reply == AmendInvalidState then b
    else
      var order := b[a.sequenceId].order;
      b[a.sequenceId := Live(if reply == AmendNotRejected then WithTerms(order, a) else order, reply)]
  }

  function BookCancelReply(b: Book, c: CancelRequest): CancelRejectReason
  {
    if c.sequenceId in b && b[c.sequenceId].Live? then CancelNotRejected else CancelInvalidState
  }

  function BookCancel(b: Book, c: CancelRequest): Book
  {
    if BookCancelReply(b, c) == CancelInvalidState then b else b[c.sequenceId := Closed(b[c.sequenceId].lastAmend)]
  }

  function BookCommand(capacity: nat, risk: Option<RiskConfig>, b: Book, command: Command): Book
  {
    match command
    case Enqueue(r) => BookEnqueue(capacity, b, r)
    case Drain => BookDrain(risk, b)
    case SendAmend(a) => BookAmend(b, a)
    case SendCancel(c) => BookCancel(b, c)
  }

  // ---------- the four views ----------

  function RecordOf(id: uint64, e: Entry): OrderLifecycleRecord
  {
    var r := NewRecord(id);
    match e
    case Waiting(_) => r.(state := Queued)
    case RiskRefused(reason) => r.(state := RiskRejected, riskRejectReason := reason)
    case ExchangeRefused(reason) => r.(state := ExchangeRejected, exchangeRejectReason := reason)
    case Live(_, amend) => r.(state := ExchangeAccepted, amendRejectReason := amend)
    case Closed(amend) => r.(state := Cancelled, amendRejectReason := amend)
  }

  ghost predicate RecordsMatch(records: Records, b: Book)
  {
    records.Keys == b.Keys && forall id :: id in b ==> records[id] == RecordOf(id, b[id])
  }

  ghost predicate ExchangeMatches(x: ExchangeView, b: Book)
  {
    && (forall id :: id in x.seen <==> id in b && (b[id].Live? || b[id].Closed?))
    && (forall id :: id in x.active <==> id in b && b[id].Live?)
    && (forall id :: id in x.active ==> x.active[id] == b[id].order)
  }

  /** The queue lists the waiting orders, each once. */
  ghost predicate QueueMatches(q: seq<OrderRequest>, b: Book)
  {
    && (forall i :: 0 <= i < |q| ==> q[i].sequenceId in b && b[q[i].sequenceId] == Waiting(q[i]))
    && (forall i, j :: 0 <= i < j < |q| ==> q[i].sequenceId != q[j].sequenceId)
    && (forall id :: id in b && b[id].Waiting? ==> b[id].request in q && b[id].request.sequenceId == id)
  }

  function LimitsOf(p: PipelineView): Option<RiskConfig>
  {
    if p.risk.None? then None else Some(p.risk.value.config)
  }

  /** Everything but the risk manager is there. */
  predicate Tracked(p: PipelineView)
  {
    p.tracker.Some? && p.route.Some? && p.route.value.exchange.Some?
  }

  /** And the gateway reports its actions to the pipeline's tracker. */
  predicate Wired(p: PipelineView)
  {
    Tracked(p) && p.gatewayTracker.SharedTracker?
  }

  /** The views agree on `b`, with `q` the orders still to be drained. */
  ghost predicate Agrees(p: PipelineView, q: seq<OrderRequest>, b: Book)
  {
    && Wired(p)
    && RecordsMatch(p.tracker.value.records, b)
    && ExchangeMatches(p.route.value.exchange.value, b)
    && QueueMatches(q, b)
    && p.counters.transitionErrors == 0
  }

  ghost predicate Refines(p: PipelineView, b: Book)
  {
    Agrees(p, p.queue, b) && |p.queue| <= p.capacity
  }

  lemma QueueCountsWaiting(q: seq<OrderRequest>, b: Book)
    requires QueueMatches(q, b)
    ensures |WaitingIds(b)| == |q|
  {
    var ids := seq(|q|, i requires 0 <= i < |q| => q[i].sequenceId);
    DistinctCount(ids);
    assert WaitingIds(b) == set i | 0 <= i < |ids| :: ids[i] by {
      forall id | id in WaitingIds(b)
        ensures exists i :: 0 <= i < |ids| && ids[i] == id
      {
        var i :| 0 <= i < |q| && q[i] == b[id].request;
        assert ids[i] == id;
      }
    }
  }

  lemma {:induction false} DistinctCount(ids: seq<uint64>)
    requires forall i, j :: 0 <= i < j < |ids| ==> ids[i] != ids[j]
    ensures |set i | 0 <= i < |ids| :: ids[i]| == |ids|
  {
    var all := set i | 0 <= i < |ids| :: ids[i];
    if ids == [] {
      assert all == {};
    } else {
      var front, last := ids[..|ids| - 1], ids[|ids| - 1];
      DistinctCount(front);
      var some := set i | 0 <= i < |front| :: front[i];
      assert all == some + {last} by {
        forall id | id in all
          ensures id in some + {last}
        {
          var i :| 0 <= i < |ids| && ids[i] == id;
          assert i < |front| ==> front[i] == id;
        }
        forall id | id in some
          ensures id in all
        {
          var i :| 0 <= i < |front| && front[i] == id;
          assert ids[i] == id;
        }
      }
    }
  }

  // ---------- one dispatched order ----------

  lemma OffersInStep(t: Tracker, id: uint64, r: OrderRequest, reply: OrderRejectReason)
    requires id in t.records && t.records[id] == RecordOf(id, Waiting(r))
    ensures var sent := Event(id, ReportSent, NoReason);
            var settled := if reply == NotRejected then Event(id, ReportExchangeAccepted, NoReason)
                           else Event(id, ReportExchangeRejected, ExchangeReason(reply));
            && Takes(t, sent) && Takes(Offer(t, sent), settled)
            && Offer(Offer(t, sent), settled).records
               == t.records[id := RecordOf(id, if reply == NotRejected then Live(r, AmendNotRejected)
                                               else ExchangeRefused(reply))]
  {
  }

  lemma DispatchRefused(p: PipelineView, r: OrderRequest)
    requires Wired(p) && r.sequenceId in p.tracker.value.records
    requires p.tracker.value.records[r.sequenceId] == RecordOf(r.sequenceId, Waiting(r))
    requires RiskVerdict(p, r) != RiskNotRejected
    ensures var c := p.counters;
            var refused := Event(r.sequenceId, ReportRiskRejected, RiskReason(RiskVerdict(p, r)));
            && Takes(p.tracker.value, refused)
            && Dispatch(p, r)
               == AfterCheck(p, r).(
                    counters := c.(drained := c.drained + 1, rejected := c.rejected + 1,
                                   rejectedByRisk := c.rejectedByRisk + 1),
                    lastRiskReject := RiskVerdict(p, r),
                    tracker := Some(Offer(p.tracker.value, refused)))
            && Offer(p.tracker.value, refused).records
               == p.tracker.value.records[r.sequenceId := RecordOf(r.sequenceId, RiskRefused(RiskVerdict(p, r)))]
  {
    hide Assess;
  }

  lemma DispatchSent(p: PipelineView, r: OrderRequest)
    requires Wired(p) && r.sequenceId in p.tracker.value.records
    requires p.tracker.value.records[r.sequenceId] == RecordOf(r.sequenceId, Waiting(r))
    requires RiskVerdict(p, r) == RiskNotRejected
    ensures var c := p.counters;
            var id := r.sequenceId;
            var reply := GatewayVerdict(p, r);
            var settled := if reply == NotRejected then Event(id, ReportExchangeAccepted, NoReason)
                           else Event(id, ReportExchangeRejected, ExchangeReason(reply));
            Dispatch(p, r)
            == AfterCheck(p, r).(
                 counters := if reply == NotRejected
                             then c.(drained := c.drained + 1, accepted := c.accepted + 1)
                             else c.(drained := c.drained + 1, rejected := c.rejected + 1,
                                     rejectedByGateway := c.rejectedByGateway + 1),
                 route := Some(AfterSendOrder(p.route.value, r)),
                 tracker := Some(Offer(Offer(p.tracker.value, Event(id, ReportSent, NoReason)), settled)))
  {
    hide Assess, Offer, Takes, OrderReply, AfterSendOrder;
    OffersInStep(p.tracker.value, r.sequenceId, r, GatewayVerdict(p, r));
  }

  lemma QueueShrinks(r: OrderRequest, rest: seq<OrderRequest>, b: Book, e: Entry)
    requires QueueMatches([r] + rest, b) && !e.Waiting?
    ensures QueueMatches(rest, b[r.sequenceId := e])
  {
    var q := [r] + rest;
    assert q[0] == r;
    forall i | 0 <= i < |rest|
      ensures rest[i].sequenceId != r.sequenceId && rest[i].sequenceId in b && b[rest[i].sequenceId] == Waiting(rest[i])
    {
      assert rest[i] == q[i + 1];
    }
    forall i, j | 0 <= i < j < |rest|
      ensures rest[i].sequenceId != rest[j].sequenceId
    {
      assert rest[i] == q[i + 1] && rest[j] == q[j + 1];
    }
  }

  lemma FateIsFinal(risk: Option<RiskConfig>, r: OrderRequest)
    ensures !Fate(risk, r).Waiting? && !Fate(risk, r).Closed?
    ensures Fate(risk, r).Live? ==> Submittable(r) && Fate(risk, r).order == r
  {
    hide Assess;
  }

  /** Dispatching the oldest waiting order settles its entry and nothing else. */
  lemma DispatchSettles(p: PipelineView, r: OrderRequest, rest: seq<OrderRequest>, b: Book)
    requires Agrees(p, [r] + rest, b)
    ensures Agrees(Dispatch(p, r), rest, b[r.sequenceId := Fate(LimitsOf(p), r)])
    ensures LimitsOf(Dispatch(p, r)) == LimitsOf(p)
  {
    hide Assess, Dispatch, Offer, Takes, QueueMatches, RecordOf, Submittable;
    var fate := Fate(LimitsOf(p), r);
    FateIsFinal(LimitsOf(p), r);
    assert r.sequenceId in b && b[r.sequenceId] == Waiting(r) by { HeadIsWaiting(r, rest, b); }
    QueueShrinks(r, rest, b, fate);
    if RiskVerdict(p, r) != RiskNotRejected {
      DispatchRefused(p, r);
    } else {
      DispatchSent(p, r);
      OffersInStep(p.tracker.value, r.sequenceId, r, GatewayVerdict(p, r));
    }
  }

  lemma HeadIsWaiting(r: OrderRequest, rest: seq<OrderRequest>, b: Book)
    requires QueueMatches([r] + rest, b)
    ensures r.sequenceId in b && b[r.sequenceId] == Waiting(r)
  {
    assert ([r] + rest)[0] == r;
  }

  // ---------- every command ----------

  lemma BookDrainSettled(risk: Option<RiskConfig>, b: Book, id: uint64)
    requires id in b && b[id].Waiting?
    ensures BookDrain(risk, b[id := Fate(risk, b[id].request)]) == BookDrain(risk, b)
  {
    FateIsFinal(risk, b[id].request);
  }

  lemma {:induction false} DispatchAllSettles(p: PipelineView, q: seq<OrderRequest>, b: Book)
    requires Agrees(p, q, b)
    ensures Agrees(DispatchAll(p, q), [], BookDrain(LimitsOf(p), b))
    ensures LimitsOf(DispatchAll(p, q)) == LimitsOf(p)
    decreases |q|
  {
    hide Dispatch, RecordsMatch, ExchangeMatches, Fate;
    if q == [] {
      assert BookDrain(LimitsOf(p), b) == b;
    } else {
      var r, rest := q[0], q[1..];
      assert q == [r] + rest;
      var next := b[r.sequenceId := Fate(LimitsOf(p), r)];
      HeadIsWaiting(r, rest, b);
      DispatchSettles(p, r, rest, b);
      DispatchAllSettles(Dispatch(p, r), rest, next);
      BookDrainSettled(LimitsOf(p), b, r.sequenceId);
    }
  }

  lemma DrainRefines(p: PipelineView, b: Book)
    requires Refines(p, b)
    ensures Refines(Drained(p), BookDrain(LimitsOf(p), b))
    ensures LimitsOf(Drained(p)) == LimitsOf(p)
  {
    hide DispatchAll, RecordsMatch, ExchangeMatches, QueueMatches, BookDrain;
    DispatchAllSettles(p.(queue := []), p.queue, b);
  }

  lemma QueueGrows(q: seq<OrderRequest>, r: OrderRequest, b: Book)
    requires QueueMatches(q, b) && r.sequenceId !in b
    ensures QueueMatches(q + [r], b[r.sequenceId := Waiting(r)])
  {
    var longer := q + [r];
    assert longer[|q|] == r;
    assert forall i :: 0 <= i < |q| ==> longer[i] == q[i];
  }

  lemma RegisteredRecord(t: Tracker, id: uint64, r: OrderRequest)
    requires id !in t.records
    ensures Registered(t, id).records == t.records[id := RecordOf(id, Waiting(r))]
  {
  }

  lemma EnqueueRefines(p: PipelineView, r: OrderRequest, b: Book)
    requires Refines(p, b)
    ensures Refines(AfterEnqueue(p, r), BookEnqueue(p.capacity, b, r))
    ensures Admits(p, r) <==> BookAdmits(p.capacity, b, r)
    ensures LimitsOf(AfterEnqueue(p, r)) == LimitsOf(p)
  {
    hide Registered, QueueMatches, RecordOf, WaitingIds;
    QueueCountsWaiting(p.queue, b);
    if Admits(p, r) {
      QueueGrows(p.queue, r, b);
      RegisteredRecord(p.tracker.value, r.sequenceId, r);
    }
  }

  lemma QueueUntouched(q: seq<OrderRequest>, b: Book, id: uint64, e: Entry)
    requires QueueMatches(q, b) && id in b && b[id].Live? && !e.Waiting?
    ensures QueueMatches(q, b[id := e])
  {
  }

  lemma PendingIffLive(t: Tracker, b: Book, id: uint64)
    requires RecordsMatch(t.records, b)
    ensures Takes(t, Event(id, ReportAmendPending, NoReason)) <==> id in b && b[id].Live?
    ensures Takes(t, Event(id, ReportCancelPending, NoReason)) <==> id in b && b[id].Live?
    ensures Offer(t, Event(id, ReportAmendPending, NoReason)).records == t.records <==> !(id in b && b[id].Live?)
    ensures Offer(t, Event(id, ReportCancelPending, NoReason)).records == t.records <==> !(id in b && b[id].Live?)
  {
  }

  lemma AmendRefines(p: PipelineView, a: AmendRequest, b: Book)
    requires Refines(p, b)
    ensures Refines(WithGateway(p, AfterSendAmend(GatewayOf(p), a)), BookAmend(b, a))
    ensures AmendReply(GatewayOf(p), a) == BookAmendReply(b, a)
  {
    hide QueueMatches, Offer, Takes, RecordOf, AmendSettled;
    var id := a.sequenceId;
    PendingIffLive(p.tracker.value, b, id);
    if BookAmendReply(b, a) != AmendInvalidState {
      QueueUntouched(p.queue, b, id, BookAmend(b, a)[id]);
      AmendSettlesRecord(p.tracker.value, id, b[id], BookAmend(b, a)[id]);
    }
  }

  /** On the book: an accepted amend leaves a live entry with exactly the new terms, a refused one keeps the
      order; either way the entry remembers the answer, and no other entry changes. */
  lemma BookAmendReplacesTerms(b: Book, a: AmendRequest)
    ensures var after, reply := BookAmend(b, a), BookAmendReply(b, a);
            && after.Keys == b.Keys
            && (forall id :: id in b && id != a.sequenceId ==> after[id] == b[id])
            && (reply == AmendInvalidState <==> !(a.sequenceId in b && b[a.sequenceId].Live?))
            && (reply == AmendInvalidState ==> after == b)
            && (reply != AmendInvalidState ==>
                  var was, now := b[a.sequenceId].order, after[a.sequenceId];
                  && now.Live? && now.lastAmend == reply
                  && now.order.sequenceId == was.sequenceId && now.order.symbol == was.symbol
                  && now.order.side == was.side
                  && now.order.price == (if reply == AmendNotRejected then a.newPrice else was.price)
                  && now.order.quantity == (if reply == AmendNotRejected then a.newQuantity else was.quantity))
  {
  }

  lemma AmendSettlesRecord(t: Tracker, id: uint64, e: Entry, next: Entry)
    requires id in t.records && e.Live? && next.Live? && t.records[id] == RecordOf(id, e)
    ensures var pending := Event(id, ReportAmendPending, NoReason);
            && Takes(t, pending) && Takes(Offer(t, pending), AmendSettled(id, next.lastAmend))
            && Offer(Offer(t, pending), AmendSettled(id, next.lastAmend)).records == t.records[id := RecordOf(id, next)]
  {
  }

  lemma CancelRefines(p: PipelineView, c: CancelRequest, b: Book)
    requires Refines(p, b)
    ensures Refines(WithGateway(p, AfterSendCancel(GatewayOf(p), c)), BookCancel(b, c))
    ensures CancelReply(GatewayOf(p), c) == BookCancelReply(b, c)
  {
    hide QueueMatches, Offer, Takes, RecordOf, CancelSettled;
    var id := c.sequenceId;
    PendingIffLive(p.tracker.value, b, id);
    if BookCancelReply(b, c) != CancelInvalidState {
      QueueUntouched(p.queue, b, id, BookCancel(b, c)[id]);
      CancelSettlesRecord(p.tracker.value, id, b[id]);
    }
  }

  lemma CancelSettlesRecord(t: Tracker, id: uint64, e: Entry)
    requires id in t.records && e.Live? && t.records[id] == RecordOf(id, e)
    ensures var pending := Event(id, ReportCancelPending, NoReason);
            && Takes(t, pending) && Takes(Offer(t, pending), CancelSettled(id, CancelNotRejected))
            && Offer(Offer(t, pending), CancelSettled(id, CancelNotRejected)).records
               == t.records[id := RecordOf(id, Closed(e.lastAmend))]
  {
  }

  // ---------- every run ----------

  function BookRun(capacity: nat, risk: Option<RiskConfig>, b: Book, commands: seq<Command>): Book
    decreases |commands|
  {
    if commands == [] then b else BookRun(capacity, risk, BookCommand(capacity, risk, b, commands[0]), commands[1..])
  }

  lemma EnqueueKeepsWiring(p: PipelineView, r: OrderRequest)
    ensures AfterEnqueue(p, r).capacity == p.capacity
  {
    hide Registered;
  }

  lemma CommandRefines(p: PipelineView, command: Command, b: Book)
    requires Refines(p, b)
    ensures Refines(AfterCommand(p, command), BookCommand(p.capacity, LimitsOf(p), b, command))
    ensures LimitsOf(AfterCommand(p, command)) == LimitsOf(p) && AfterCommand(p, command).capacity == p.capacity
  {
    hide RecordsMatch, ExchangeMatches, QueueMatches, AfterEnqueue, Drained, AfterSendAmend, AfterSendCancel;
    hide BookEnqueue, BookDrain, BookAmend, BookCancel;
    match command
    case Enqueue(r) =>
      EnqueueRefines(p, r, b);
      EnqueueKeepsWiring(p, r);
    case Drain =>
      DrainRefines(p, b);
      DrainKeepsCapacity(p);
    case SendAmend(a) => AmendRefines(p, a, b);
    case SendCancel(c) => CancelRefines(p, c, b);
  }

  lemma DrainKeepsCapacity(p: PipelineView)
    ensures Drained(p).capacity == p.capacity
  {
    hide DispatchAll;
  }

  lemma {:induction false} RunRefines(p: PipelineView, commands: seq<Command>, b: Book)
    requires Refines(p, b)
    ensures Refines(Run(p, commands), BookRun(p.capacity, LimitsOf(p), b, commands))
    decreases |commands|
  {
    hide Refines, AfterCommand, BookCommand;
    if commands != [] {
      CommandRefines(p, commands[0], b);
      RunRefines(AfterCommand(p, commands[0]), commands[1..], BookCommand(p.capacity, LimitsOf(p), b, commands[0]));
    }
  }

  lemma FreshRefines(p: PipelineView)
    requires Fresh(p) && Wired(p)
    ensures Refines(p, map[])
  {
  }

  /** Forward simulation: from fresh, fully wired components every interleaving of enqueues, drains,
      amends and cancels leaves queue, records and exchange in agreement with the abstract book. */
  lemma SystemSimulatesBook(p: PipelineView, commands: seq<Command>)
    requires Fresh(p) && Wired(p)
    ensures Refines(Run(p, commands), BookRun(p.capacity, LimitsOf(p), map[], commands))
  {
    hide Refines, Run, BookRun;
    FreshRefines(p);
    RunRefines(p, commands, map[]);
  }

  /** The queued ids are pairwise distinct and are exactly the ids in state queued. */
  ghost predicate QueueIsQueued(q: seq<OrderRequest>, records: Records)
  {
    && (forall i, j :: 0 <= i < j < |q| ==> q[i].sequenceId != q[j].sequenceId)
    && (forall id :: id in records && records[id].state == Queued
                     <==> exists i :: 0 <= i < |q| && q[i].sequenceId == id)
  }

  /** Active orders are the accepted ones; seen ids are the accepted and the cancelled ones. */
  ghost predicate ExchangeMirrors(x: ExchangeView, records: Records)
  {
    && (forall id :: id in x.active <==> id in records && records[id].state == ExchangeAccepted)
    && (forall id :: id in x.seen
                     <==> id in records && (records[id].state == ExchangeAccepted || records[id].state == Cancelled))
  }

  ghost predicate NothingInFlight(records: Records)
  {
    forall id :: id in records ==> records[id].state !in {Created, Sent, CancelPending, AmendPending}
  }

  /** The same agreement without the book, as it holds between any two commands. */
  ghost predicate Coherent(p: PipelineView)
  {
    && Tracked(p)
    && QueueIsQueued(p.queue, p.tracker.value.records)
    && ExchangeMirrors(p.route.value.exchange.value, p.tracker.value.records)
    && NothingInFlight(p.tracker.value.records)
    && p.counters.transitionErrors == 0
  }

  lemma RecordsMirror(records: Records, x: ExchangeView, b: Book)
    requires RecordsMatch(records, b) && ExchangeMatches(x, b)
    ensures ExchangeMirrors(x, records) && NothingInFlight(records)
  {
    forall id | id in records
      ensures records[id].state == ExchangeAccepted <==> b[id].Live?
      ensures records[id].state == Cancelled <==> b[id].Closed?
      ensures records[id].state !in {Created, Sent, CancelPending, AmendPending}
    {
      assert records[id] == RecordOf(id, b[id]);
    }
  }

  lemma QueueIsWaiting(q: seq<OrderRequest>, records: Records, b: Book)
    requires RecordsMatch(records, b) && QueueMatches(q, b)
    ensures QueueIsQueued(q, records)
  {
    forall id
      ensures id in records && records[id].state == Queued
              <==> exists i :: 0 <= i < |q| && q[i].sequenceId == id
    {
      if id in records && records[id].state == Queued {
        var i :| 0 <= i < |q| && q[i] == b[id].request;
        assert q[i].sequenceId == id;
      }
    }
  }

  lemma RefinementIsCoherent(p: PipelineView, b: Book)
    requires Refines(p, b)
    ensures Coherent(p)
  {
    hide RecordsMatch, ExchangeMatches, QueueMatches, QueueIsQueued, ExchangeMirrors, NothingInFlight;
    RecordsMirror(p.tracker.value.records, p.route.value.exchange.value, b);
    QueueIsWaiting(p.queue, p.tracker.value.records, b);
  }

  lemma EveryRunIsCoherent(p: PipelineView, commands: seq<Command>)
    requires Fresh(p) && Wired(p)
    ensures Coherent(Run(p, commands))
  {
    hide Refines, Run, BookRun, Coherent;
    SystemSimulatesBook(p, commands);
    RefinementIsCoherent(Run(p, commands), BookRun(p.capacity, LimitsOf(p), map[], commands));
  }

  /** A cancel of a waiting order bounces, and a drain changes its answer exactly when the order goes live;
      so does an amend's. */
  lemma DrainChangesAnswerIffLive(p: PipelineView, b: Book, c: CancelRequest, a: AmendRequest)
    requires Refines(p, b) && c.sequenceId in b && b[c.sequenceId].Waiting? && a.sequenceId == c.sequenceId
    ensures var live := Fate(LimitsOf(p), b[c.sequenceId].request).Live?;
            && CancelReply(GatewayOf(p), c) == CancelInvalidState
            && AmendReply(GatewayOf(p), a) == AmendInvalidState
            && Wired(Drained(p))
            && (CancelReply(GatewayOf(Drained(p)), c) == CancelInvalidState <==> !live)
            && (AmendReply(GatewayOf(Drained(p)), a) == AmendInvalidState <==> !live)
  {
    hide RecordsMatch, ExchangeMatches, QueueMatches, Drained, Fate, CancelReply, AmendReply;
    hide AfterSendCancel, AfterSendAmend;
    var settled := BookDrain(LimitsOf(p), b);
    CancelRefines(p, c, b);
    AmendRefines(p, a, b);
    DrainRefines(p, b);
    CancelRefines(Drained(p), c, settled);
    AmendRefines(Drained(p), a, settled);
  }

  // ---------- the exchange never has to refuse ----------

  /** An order reaches the exchange only to be refused exactly when nobody checked it before. */
  lemma ExchangeRefusesIffUnchecked(risk: Option<RiskConfig>, r: OrderRequest)
    ensures Fate(risk, r).ExchangeRefused? <==> risk.None? && !Submittable(r)
  {
    if risk.Some? {
      AcceptedIffNothingViolated(risk.value, r);
    }
  }

  /** With a risk manager an order goes live exactly when it is within every limit. The limits hold at
      admission only: later amends are not checked against them. */
  lemma LiveIffWithinLimits(limits: RiskConfig, r: OrderRequest)
    ensures Fate(Some(limits), r).Live? <==> forall reason :: !Violates(limits, r, reason)
  {
    AcceptedIffNothingViolated(limits, r);
    ExchangeRefusesIffUnchecked(Some(limits), r);
  }

  predicate NoneRefusedByExchange(b: Book)
  {
    forall id :: id in b ==> !b[id].ExchangeRefused?
  }

  lemma {:induction false} BookNeverRefuses(capacity: nat, limits: RiskConfig, b: Book, commands: seq<Command>)
    requires NoneRefusedByExchange(b)
    ensures NoneRefusedByExchange(BookRun(capacity, Some(limits), b, commands))
    decreases |commands|
  {
    hide Fate, WaitingIds;
    if commands != [] {
      var next := BookCommand(capacity, Some(limits), b, commands[0]);
      forall id | id in b && b[id].Waiting?
        ensures !Fate(Some(limits), b[id].request).ExchangeRefused?
      {
        ExchangeRefusesIffUnchecked(Some(limits), b[id].request);
      }
      BookNeverRefuses(capacity, limits, next, commands[1..]);
    }
  }
}
