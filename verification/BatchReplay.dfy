/** The batching loop of the end-to-end benchmark, without its clocks and checksum: parse, let the
    strategy decide, enqueue, and drain after every batch, with neither risk manager nor tracker. */
module BatchReplay {
  import opened Messages
  import opened Exchange
  import opened Gateway
  import opened Pipeline
  import opened Strategy
  import opened MarketDataParser

  const PIPELINE_CAPACITY := 4096

  // ---------- what a run must amount to ----------

  datatype Feed = Feed(codec: PriceCodec, tooNarrow: SpreadTest, lines: seq<string>)

  /** The update of event k; the inputs are replayed cyclically. */
  function UpdateAt(feed: Feed, k: nat): MarketDataUpdate
    requires |feed.lines| > 0
  {
    ParsedLine(feed.codec, feed.lines[k % |feed.lines|]).update
  }

  function Updates(feed: Feed, events: nat): (updates: seq<MarketDataUpdate>)
    requires |feed.lines| > 0
    ensures |updates| == events
  {
    if events == 0 then [] else Updates(feed, events - 1) + [UpdateAt(feed, events - 1)]
  }

  /** The orders of the first `events` events; nothing here knows about batches. */
  function Orders(feed: Feed, events: nat): seq<OrderRequest>
    requires |feed.lines| > 0
  {
    OrdersOf(feed.tooNarrow, Updates(feed, events))
  }

  /** The feed is replayed from its first line on, again and again. */
  lemma {:induction false} UpdatesReplayFeed(feed: Feed, events: nat, k: nat)
    requires |feed.lines| > 0 && k < events
    ensures Updates(feed, events)[k] == ParsedLine(feed.codec, feed.lines[k % |feed.lines|]).update
  {
    hide ParsedLine;
    if k < events - 1 {
      UpdatesReplayFeed(feed, events - 1, k);
    }
  }

  /** An exchange that accepted these orders, one after the other. */
  function Filled(orders: seq<OrderRequest>): ExchangeView
  {
    if orders == [] then FRESH_EXCHANGE else AfterSubmit(Filled(orders[..|orders| - 1]), orders[|orders| - 1])
  }

  /** How many of these orders that exchange accepts. */
  function Accepted(orders: seq<OrderRequest>): (n: nat)
    ensures n <= |orders|
  {
    if orders == [] then 0
    else
      var front, last := orders[..|orders| - 1], orders[|orders| - 1];
      Accepted(front) + if SubmitOutcome(Filled(front), last) == NotRejected then 1 else 0
  }

  /** The pipeline after `done` were sent while `queue` still waits; nothing was dropped. */
  function Flowing(done: seq<OrderRequest>, queue: seq<OrderRequest>): PipelineView
  {
    var sent, accepted := |done|, Accepted(done);
    PipelineView(
      PIPELINE_CAPACITY, queue,
      PipelineCounters(sent + |queue|, 0, 0, sent, accepted, sent - accepted, 0, sent - accepted, 0), RiskNotRejected,
      None, None,
      Some(Route(GatewayCounters(sent, accepted, sent - accepted, 0, 0, 0, 0, 0, 0, 0), Some(Filled(done)))),
      NoTracker)
  }

  lemma SentAppend(orders: seq<OrderRequest>, o: OrderRequest)
    ensures Filled(orders + [o]) == AfterSubmit(Filled(orders), o)
    ensures Accepted(orders + [o])
            == Accepted(orders) + if SubmitOutcome(Filled(orders), o) == NotRejected then 1 else 0
  {
    assert (orders + [o])[..|orders|] == orders;
  }

  lemma DispatchFlows(done: seq<OrderRequest>, o: OrderRequest, rest: seq<OrderRequest>)
    ensures Dispatch(Flowing(done, [o] + rest).(queue := rest), o) == Flowing(done + [o], rest)
  {
    hide Filled, Accepted, SubmitOutcome, AfterSubmit;
    SentAppend(done, o);
  }

  /** Draining sends every waiting order, oldest first. */
  lemma {:induction false} DrainFlows(done: seq<OrderRequest>, queue: seq<OrderRequest>)
    ensures Drained(Flowing(done, queue)) == Flowing(done + queue, [])
    decreases |queue|
  {
    hide Dispatch, Drained, Filled, Accepted;
    if queue == [] {
      DrainedNothing(Flowing(done, queue));
      assert done + queue == done;
    } else {
      var o, rest := queue[0], queue[1..];
      assert queue == [o] + rest && done + queue == done + [o] + rest;
      DispatchFlows(done, o, rest);
      DrainedHead(Flowing(done, queue), o, rest);
      DrainFlows(done + [o], rest);
    }
  }

  lemma EnqueueFlows(done: seq<OrderRequest>, queue: seq<OrderRequest>, o: OrderRequest)
    ensures Admits(Flowing(done, queue), o) <==> |queue| < PIPELINE_CAPACITY
    ensures |queue| < PIPELINE_CAPACITY ==> AfterEnqueue(Flowing(done, queue), o) == Flowing(done, queue + [o])
  {
  }

  // ---------- what the exchange accepts ----------

  predicate AllSubmittable(orders: seq<OrderRequest>)
  {
    forall i :: 0 <= i < |orders| ==> Submittable(orders[i])
  }

  lemma {:induction false} FilledSeesOnlyItsOrders(orders: seq<OrderRequest>, id: uint64)
    requires forall i :: 0 <= i < |orders| ==> orders[i].sequenceId != id
    ensures id !in Filled(orders).seen
  {
    if orders != [] {
      FilledSeesOnlyItsOrders(orders[..|orders| - 1], id);
    }
  }

  /** With increasing ids, no order is refused exactly when every order is well-formed. */
  lemma {:induction false} AllAcceptedIffSubmittable(orders: seq<OrderRequest>)
    requires Increasing(orders)
    ensures Accepted(orders) == |orders| <==> AllSubmittable(orders)
  {
    if orders != [] {
      var front, last := orders[..|orders| - 1], orders[|orders| - 1];
      assert orders == front + [last];
      AllAcceptedIffSubmittable(front);
      FilledSeesOnlyItsOrders(front, last.sequenceId);
      SentAppend(front, last);
    }
  }

  /** The exchange then holds exactly the submitted orders, each under its id. */
  lemma {:induction false} FilledHoldsAll(orders: seq<OrderRequest>, i: nat)
    requires Increasing(orders) && AllSubmittable(orders) && i < |orders|
    ensures orders[i].sequenceId in Filled(orders).active && Filled(orders).active[orders[i].sequenceId] == orders[i]
  {
    var front, last := orders[..|orders| - 1], orders[|orders| - 1];
    FilledSeesOnlyItsOrders(front, last.sequenceId);
    if i < |front| {
      assert front[i] == orders[i];
      FilledHoldsAll(front, i);
    }
  }

  // ---------- conditions on the feed ----------

  /** The lines of events `first` up to `end` parse. */
  predicate Parses(feed: Feed, first: nat, end: nat)
    requires |feed.lines| > 0
  {
    forall k :: first <= k < end ==> ParsedLine(feed.codec, feed.lines[k % |feed.lines|]).status == ParseOk
  }

  predicate Triggers(feed: Feed, k: nat)
    requires |feed.lines| > 0
  {
    OrderFor(feed.tooNarrow, 1, UpdateAt(feed, k)).Some?
  }

  /** No event triggers an order at an infinite or NaN price. */
  predicate AsksFinite(feed: Feed, events: nat)
    requires |feed.lines| > 0
  {
    forall k: nat :: k < events && Triggers(feed, k) ==> UpdateAt(feed, k).askPrice.Finite?
  }

  function BatchEnd(first: nat, events: nat, batchSize: nat): nat
    requires first <= events
  {
    if batchSize < events - first then first + batchSize else events
  }

  /** No batch from event `first` on triggers more orders than the pipeline holds. */
  predicate Fits(feed: Feed, first: nat, events: nat, batchSize: nat)
    requires |feed.lines| > 0 && batchSize > 0 && first <= events
    decreases events - first
  {
    first < events ==>
      var next := BatchEnd(first, events, batchSize);
      |Orders(feed, next)| <= |Orders(feed, first)| + PIPELINE_CAPACITY && Fits(feed, next, events, batchSize)
  }

  lemma OrdersStep(feed: Feed, k: nat)
    requires |feed.lines| > 0
    ensures AfterUpdates(feed.tooNarrow, Updates(feed, k + 1))
            == AfterUpdate(feed.tooNarrow, AfterUpdates(feed.tooNarrow, Updates(feed, k)), UpdateAt(feed, k))
    ensures var order := OrderFor(feed.tooNarrow, AfterUpdates(feed.tooNarrow, Updates(feed, k)).nextSequenceId,
                                  UpdateAt(feed, k));
            Orders(feed, k + 1) == Orders(feed, k) + if order.Some? then [order.value] else []
  {
    UpdatesAppend(feed.tooNarrow, Updates(feed, k), UpdateAt(feed, k));
  }

  lemma {:induction false} OrdersGrow(feed: Feed, first: nat, end: nat)
    requires |feed.lines| > 0 && first <= end
    ensures |Orders(feed, first)| <= |Orders(feed, end)| <= |Orders(feed, first)| + (end - first)
    decreases end
  {
    hide Orders, Updates, UpdateAt, AfterUpdates, AfterUpdate, OrderFor;
    if first < end {
      OrdersGrow(feed, first, end - 1);
      OrdersStep(feed, end - 1);
    }
  }

  /** An admissible batch size always fits. */
  lemma {:induction false} SmallBatchesFit(feed: Feed, first: nat, events: nat, batchSize: nat)
    requires |feed.lines| > 0 && 0 < batchSize <= PIPELINE_CAPACITY && first <= events
    ensures Fits(feed, first, events, batchSize)
    decreases events - first
  {
    hide Orders;
    if first < events {
      OrdersGrow(feed, first, BatchEnd(first, events, batchSize));
      SmallBatchesFit(feed, BatchEnd(first, events, batchSize), events, batchSize);
    }
  }

  lemma TriggeredOrder(feed: Feed, k: nat, id: uint64)
    requires |feed.lines| > 0 && Parses(feed, k, k + 1)
    ensures var order := OrderFor(feed.tooNarrow, id, UpdateAt(feed, k));
            && (order.Some? <==> Triggers(feed, k))
            && (order.Some? ==> (Submittable(order.value) <==> UpdateAt(feed, k).askPrice.Finite?))
  {
    hide ParseFields;
    AcceptedLine(feed.codec, feed.lines[k % |feed.lines|]);
  }

  /** What parses is well-formed but for the finiteness of its ask price. */
  lemma {:induction false} SubmittableIffAsksFinite(feed: Feed, events: nat)
    requires |feed.lines| > 0 && Parses(feed, 0, events)
    ensures AllSubmittable(Orders(feed, events)) <==> AsksFinite(feed, events)
  {
    hide Orders, UpdateAt, Updates, AfterUpdates, OrderFor, Submittable, ParsedLine, Triggers;
    if events == 0 {
      StartOfFeed(feed);
    } else {
      var last := events - 1;
      SubmittableIffAsksFinite(feed, last);
      OrdersStep(feed, last);
      var id := AfterUpdates(feed.tooNarrow, Updates(feed, last)).nextSequenceId;
      TriggeredOrder(feed, last, id);
      var order := OrderFor(feed.tooNarrow, id, UpdateAt(feed, last));
      SubmittableAppend(Orders(feed, last), order);
      assert AsksFinite(feed, events)
             <==> AsksFinite(feed, last) && (Triggers(feed, last) ==> UpdateAt(feed, last).askPrice.Finite?);
    }
  }

  lemma AllAcceptedIffAsksFinite(feed: Feed, events: nat)
    requires |feed.lines| > 0 && Parses(feed, 0, events) && events < 0xFFFF_FFFF_FFFF_FFFF
    ensures Accepted(Orders(feed, events)) == |Orders(feed, events)| <==> AsksFinite(feed, events)
    ensures var s := AfterUpdates(feed.tooNarrow, Updates(feed, events));
            s.signalsSeen == events && s.ordersGenerated == |Orders(feed, events)|
  {
    hide Accepted, Updates, AfterUpdates, OrdersOf, AsksFinite, AllSubmittable, Parses;
    SubmittableIffAsksFinite(feed, events);
    IdsIncrease(feed.tooNarrow, Updates(feed, events));
    AllAcceptedIffSubmittable(Orders(feed, events));
  }

  lemma SubmittableAppend(orders: seq<OrderRequest>, order: Option<OrderRequest>)
    ensures AllSubmittable(orders + if order.Some? then [order.value] else [])
            <==> AllSubmittable(orders) && (order.Some? ==> Submittable(order.value))
  {
    if order.Some? {
      var longer := orders + [order.value];
      assert longer[|orders|] == order.value && forall i :: 0 <= i < |orders| ==> longer[i] == orders[i];
    } else {
      assert orders + [] == orders;
    }
  }

  lemma StartOfFeed(feed: Feed)
    requires |feed.lines| > 0
    ensures Orders(feed, 0) == [] && AfterUpdates(feed.tooNarrow, Updates(feed, 0)) == FRESH_STRATEGY
  {
  }

  // ---------- the loops ----------

  class SystemState {
    const exchange: ExchangeSimulator
    const gateway: OrderGateway
    const pipeline: OrderPipeline
    const strategy: SimpleStrategy

    ghost predicate Valid()
      reads pipeline.buffer, pipeline.buffer.storage, exchange
    {
      && gateway.exchange == exchange && gateway.lifecycleTracker == null
      && pipeline.gateway == gateway && pipeline.riskManager == null && pipeline.lifecycleTracker == null
      && pipeline.Valid()
    }

    ghost function View(): PipelineView
      requires Valid()
      reads pipeline, pipeline.buffer, pipeline.buffer.storage, gateway, exchange
    {
      pipeline.View()
    }

    constructor (tooNarrow: SpreadTest)
      ensures Valid() && View() == Flowing([], [])
      ensures strategy.tooNarrow == tooNarrow && strategy.View() == FRESH_STRATEGY
      ensures fresh(pipeline) && fresh(pipeline.buffer) && fresh(pipeline.buffer.storage)
      ensures fresh(gateway) && fresh(exchange) && fresh(strategy)
    {
      var simulator := new ExchangeSimulator();
      var orderGateway := new OrderGateway(simulator, null);
      var orderPipeline := new OrderPipeline(PIPELINE_CAPACITY, orderGateway, null, null);
      exchange, gateway, pipeline := simulator, orderGateway, orderPipeline;
      strategy := new SimpleStrategy(tooNarrow);
    }

    /** One batch; false stands for the benchmark's exit on a parse failure or a dropped order. */
    method ProcessEvents(feed: Feed, startIndex: nat, count: nat) returns (ok: bool)
      requires Valid() && |feed.lines| > 0 && strategy.tooNarrow == feed.tooNarrow
      requires View() == Flowing(Orders(feed, startIndex), [])
      requires strategy.View() == AfterUpdates(feed.tooNarrow, Updates(feed, startIndex))
      modifies pipeline, pipeline.buffer, pipeline.buffer.storage, gateway, exchange, strategy
      ensures Valid()
      ensures ok <==> Parses(feed, startIndex, startIndex + count)
                      && |Orders(feed, startIndex + count)| <= |Orders(feed, startIndex)| + PIPELINE_CAPACITY
      ensures ok ==> View() == Flowing(Orders(feed, startIndex + count), [])
                     && strategy.View() == AfterUpdates(feed.tooNarrow, Updates(feed, startIndex + count))
    {
      hide Flowing, ParsedLine, AfterEnqueue, Drained, Updates, AfterUpdates, Admits, Orders, AfterUpdate;
      ghost var done := Orders(feed, startIndex);
      ghost var queue: seq<OrderRequest> := [];
      for i := 0 to count
        invariant Valid() && |queue| <= PIPELINE_CAPACITY
        invariant Parses(feed, startIndex, startIndex + i)
        invariant View() == Flowing(done, queue)
        invariant Orders(feed, startIndex + i) == done + queue
        invariant strategy.View() == AfterUpdates(feed.tooNarrow, Updates(feed, startIndex + i))
      {
        var k := (startIndex + i) % |feed.lines|;
        var parsed := ParseMarketDataLine(feed.codec, feed.lines[k]);
        if parsed.status != ParseOk {
          return false;
        }
        OrdersStep(feed, startIndex + i);
        OrdersGrow(feed, startIndex + i + 1, startIndex + count);
        var order := strategy.OnMarketData(parsed.update);
        if order.Some? {
          EnqueueFlows(done, queue, order.value);
          var enqueued := pipeline.Enqueue(order.value);
          if !enqueued {
            return false;
          }
          queue := queue + [order.value];
        }
      }
      DrainFlows(done, queue);
      var _ := pipeline.Drain();
      ok := true;
    }
  }

  /** What the benchmark checks after a run, for a run of `expectedEvents` events. */
  predicate ValidateCounters(signalsSeen: nat, ordersGenerated: nat, c: PipelineCounters, g: GatewayCounters,
                             expectedEvents: nat)
  {
    && signalsSeen == expectedEvents
    && ordersGenerated == c.enqueued + c.dropped
    && c.dropped == 0
    && c.drained == c.enqueued
    && c.accepted == c.drained && c.rejected == 0
    && g.ordersSent == c.drained && g.ordersAccepted == g.ordersSent && g.ordersRejected == 0
  }

  /** The run succeeds exactly when every line it reads parses, no batch overflows the pipeline and no
      order is triggered at a non-finite price; otherwise the benchmark exits. When it succeeds, the
      exchange depends on the feed and the number of events but not on the batch size. */
  method RunStabilization(feed: Feed, iterations: nat, batchSize: nat) returns (ok: bool, state: SystemState)
    requires |feed.lines| > 0 && batchSize > 0 && iterations < 0xFFFF_FFFF_FFFF_FFFF
    ensures state.Valid()
    ensures ok <==> Parses(feed, 0, iterations) && Fits(feed, 0, iterations, batchSize) && AsksFinite(feed, iterations)
    ensures ok ==> state.exchange.View() == Filled(Orders(feed, iterations))
    ensures ok ==> state.View().queue == [] && state.View().counters.drained == |Orders(feed, iterations)|
  {
    hide Filled, Accepted, Updates, AfterUpdates, Orders, AsksFinite, AllSubmittable, ParsedLine;
    state := new SystemState(feed.tooNarrow);
    var eventIndex := 0;
    StartOfFeed(feed);
    while eventIndex < iterations
      invariant eventIndex <= iterations && state.Valid() && state.strategy.tooNarrow == feed.tooNarrow
      invariant fresh(state.pipeline) && fresh(state.pipeline.buffer) && fresh(state.pipeline.buffer.storage)
      invariant fresh(state.gateway) && fresh(state.exchange) && fresh(state.strategy)
      invariant state.View() == Flowing(Orders(feed, eventIndex), [])
      invariant state.strategy.View() == AfterUpdates(feed.tooNarrow, Updates(feed, eventIndex))
      invariant Parses(feed, 0, eventIndex)
      invariant Fits(feed, 0, iterations, batchSize) <==> Fits(feed, eventIndex, iterations, batchSize)
    {
      var count := if batchSize < iterations - eventIndex then batchSize else iterations - eventIndex;
      ok := state.ProcessEvents(feed, eventIndex, count);
      if !ok {
        return;
      }
      eventIndex := eventIndex + count;
    }
    AllAcceptedIffAsksFinite(feed, iterations);
    ok := ValidateCounters(state.strategy.signalsSeen, state.strategy.ordersGenerated, state.pipeline.counters,
                           state.gateway.counters, iterations);
  }

  /** A feed whose lines parse and ask finite prices succeeds for every event count and batch size from
      1 to the capacity. */
  lemma GoodFeedSucceeds(feed: Feed, iterations: nat, batchSize: nat)
    requires |feed.lines| > 0 && 0 < batchSize <= PIPELINE_CAPACITY
    requires forall i :: 0 <= i < |feed.lines| ==>
               var parsed := ParsedLine(feed.codec, feed.lines[i]);
               parsed.status == ParseOk && parsed.update.askPrice.Finite?
    ensures Parses(feed, 0, iterations) && Fits(feed, 0, iterations, batchSize) && AsksFinite(feed, iterations)
  {
    hide ParsedLine;
    SmallBatchesFit(feed, 0, iterations, batchSize);
  }
}
