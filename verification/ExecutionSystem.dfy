/** The demo wiring: one exchange, risk manager, journal, tracker, gateway and pipeline, the gateway
    and the pipeline sharing the tracker. As an object it behaves like the abstract order book. */
module ExecutionSystem {
  import opened Messages
  import opened PreTradeRisk
  import opened ExecutionReports
  import opened OrderLifecycle
  import opened Exchange
  import opened Gateway
  import opened Pipeline
  import opened SystemRuns
  import opened OrderBook
  import opened SystemLedger

  class TradingSystem {
    ghost var book: Book

    const exchange: ExchangeSimulator
    const riskManager: PreTradeRiskManager
    const executionReports: ExecutionReportJournal
    const lifecycleTracker: OrderLifecycleTracker
    const gateway: OrderGateway
    const pipeline: OrderPipeline

    ghost predicate Connected()
    {
      && lifecycleTracker.executionReports == executionReports
      && gateway.exchange == exchange && gateway.lifecycleTracker == lifecycleTracker
      && pipeline.gateway == gateway && pipeline.riskManager == riskManager
      && pipeline.lifecycleTracker == lifecycleTracker
      && riskManager.Shaped()
    }

    ghost function View(): PipelineView
      requires Connected()
      reads pipeline, pipeline.buffer, riskManager, riskManager.allowedSymbols
      reads lifecycleTracker, executionReports, gateway, exchange
    {
      pipeline.View()
    }

    /** All components are consistent, their views agree on the book, and their counters add up. */
    ghost predicate Valid()
      reads this, pipeline, pipeline.buffer, pipeline.buffer.storage, riskManager, riskManager.allowedSymbols
      reads lifecycleTracker, executionReports, gateway, exchange
    {
      && Connected()
      && pipeline.Valid()
      && Refines(View(), book)
      && Ledger(View())
      && Conserved(View())
    }

    ghost function Limits(): RiskConfig
      requires Connected()
      reads riskManager.allowedSymbols
    {
      riskManager.Config()
    }

    constructor (pipeline: OrderPipeline, gateway: OrderGateway, exchange: ExchangeSimulator,
                 riskManager: PreTradeRiskManager, lifecycleTracker: OrderLifecycleTracker,
                 executionReports: ExecutionReportJournal)
      requires lifecycleTracker.executionReports == executionReports
      requires gateway.exchange == exchange && gateway.lifecycleTracker == lifecycleTracker
      requires pipeline.gateway == gateway && pipeline.riskManager == riskManager
      requires pipeline.lifecycleTracker == lifecycleTracker
      requires pipeline.Valid() && Fresh(pipeline.View())
      ensures Valid() && book == map[]
      ensures this.pipeline == pipeline && this.riskManager == riskManager
    {
      hide Refines, Ledger, Conserved, Fresh;
      StartingPoint(pipeline.View());
      this.pipeline, this.gateway, this.exchange := pipeline, gateway, exchange;
      this.riskManager, this.lifecycleTracker, this.executionReports := riskManager, lifecycleTracker, executionReports;
      book := map[];
    }

    static lemma StartingPoint(p: PipelineView)
      requires Fresh(p) && Wired(p)
      ensures Refines(p, map[]) && Ledger(p) && Conserved(p)
    {
      FreshRefines(p);
      FreshLedger(p);
      FreshIsConserved(p);
    }

    method Enqueue(request: OrderRequest) returns (ok: bool)
      requires Valid()
      modifies this, pipeline, pipeline.buffer, pipeline.buffer.storage, lifecycleTracker, executionReports
      ensures Valid() && Limits() == old(Limits())
      ensures View() == AfterCommand(old(View()), SystemRuns.Enqueue(request))
      ensures book == BookEnqueue(pipeline.buffer.storage.Length, old(book), request)
      ensures ok <==> BookAdmits(pipeline.buffer.storage.Length, old(book), request)
    {
      hide Refines, Ledger, Conserved, AfterEnqueue, BookEnqueue, BookAdmits, Admits;
      ghost var before := View();
      Advance(before, SystemRuns.Enqueue(request));
      EnqueueRefines(before, request, book);
      ok := pipeline.Enqueue(request);
      book := BookEnqueue(pipeline.buffer.storage.Length, book, request);
    }

    method Drain() returns (drainedNow: nat)
      requires Valid()
      modifies this, pipeline, pipeline.buffer, riskManager, lifecycleTracker, executionReports, gateway, exchange
      ensures Valid() && Limits() == old(Limits())
      ensures View() == AfterCommand(old(View()), SystemRuns.Drain)
      ensures book == BookDrain(Some(Limits()), old(book))
      ensures drainedNow == |WaitingIds(old(book))|
    {
      hide Refines, Ledger, Conserved, Drained, BookDrain, WaitingIds;
      ghost var before := View();
      Advance(before, SystemRuns.Drain);
      CountWaiting(before, book);
      drainedNow := pipeline.Drain();
      book := BookDrain(Some(Limits()), book);
    }

    method SendAmend(request: AmendRequest) returns (response: AmendResponse)
      requires Valid()
      modifies this, gateway, exchange, lifecycleTracker, executionReports
      ensures Valid() && Limits() == old(Limits())
      ensures View() == AfterCommand(old(View()), SystemRuns.SendAmend(request))
      ensures book == BookAmend(old(book), request)
      ensures response.sequenceId == request.sequenceId
      ensures response.accepted <==> response.rejectReason == AmendNotRejected
      ensures response.rejectReason == BookAmendReply(old(book), request)
    {
      hide Refines, Ledger, Conserved, AfterSendAmend, BookAmend, BookAmendReply, AmendReply;
      ghost var before := View();
      Advance(before, SystemRuns.SendAmend(request));
      AmendRefines(before, request, book);
      response := gateway.SendAmend(request);
      book := BookAmend(book, request);
    }

    method SendCancel(request: CancelRequest) returns (response: CancelResponse)
      requires Valid()
      modifies this, gateway, exchange, lifecycleTracker, executionReports
      ensures Valid() && Limits() == old(Limits())
      ensures View() == AfterCommand(old(View()), SystemRuns.SendCancel(request))
      ensures book == BookCancel(old(book), request)
      ensures response.sequenceId == request.sequenceId
      ensures response.accepted <==> response.rejectReason == CancelNotRejected
      ensures response.rejectReason == BookCancelReply(old(book), request)
    {
      hide Refines, Ledger, Conserved, AfterSendCancel, BookCancel, BookCancelReply, CancelReply;
      ghost var before := View();
      Advance(before, SystemRuns.SendCancel(request));
      CancelRefines(before, request, book);
      response := gateway.SendCancel(request);
      book := BookCancel(book, request);
    }

    lemma Advance(before: PipelineView, command: Command)
      requires Refines(before, book) && Ledger(before) && Conserved(before)
      ensures Refines(AfterCommand(before, command), BookCommand(before.capacity, LimitsOf(before), book, command))
      ensures Ledger(AfterCommand(before, command)) && Conserved(AfterCommand(before, command))
    {
      hide *;
      CommandRefines(before, command, book);
      CommandKeepsLedger(before, command, book);
      CommandConserves(before, command);
    }

    /** The public queries read the book: the tracker finds a record for every entry, the exchange has an
        active order exactly under a live entry, and it is that entry's order. */
    lemma QueriesReadBook(id: uint64)
      requires Valid()
      ensures lifecycleTracker.Contains(id) <==> id in book
      ensures lifecycleTracker.Find(id) == if id in book then Some(RecordOf(id, book[id])) else None
      ensures exchange.HasActiveOrder(id) <==> id in book && book[id].Live?
      ensures exchange.FindActiveOrder(id)
              == if id in book && book[id].Live? then Some(book[id].order) else None
    {
      hide Ledger, Conserved, QueueMatches, RecordOf;
    }

    lemma CountWaiting(before: PipelineView, b: Book)
      requires Refines(before, b)
      ensures |WaitingIds(b)| == |before.queue|
    {
      QueueCountsWaiting(before.queue, b);
    }
  }

  /** Builds the components in dependency order and wires them up. */
  method Assemble(capacity: nat, limits: RiskLimits, times: (real, uint32) -> Price) returns (system: TradingSystem)
    requires capacity > 0
    ensures fresh(system) && system.Valid() && system.book == map[]
    ensures system.View().capacity == capacity
    ensures system.Limits() == ConfigOf(limits, times)
  {
    hide Refines, Ledger, Conserved, ConfigOf;
    var exchange := new ExchangeSimulator();
    var riskManager := new PreTradeRiskManager(limits, times);
    var executionReports := new ExecutionReportJournal();
    var lifecycleTracker := new OrderLifecycleTracker(executionReports);
    var gateway := new OrderGateway(exchange, lifecycleTracker);
    var pipeline := new OrderPipeline(capacity, gateway, riskManager, lifecycleTracker);
    system := new TradingSystem(pipeline, gateway, exchange, riskManager, lifecycleTracker, executionReports);
  }
}
