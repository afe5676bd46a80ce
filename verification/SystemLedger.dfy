/** Counters across components in the fully wired system: how the pipeline's, the gateway's, the
    tracker's and the journal's numbers determine each other after every run. */
module SystemLedger {
  import opened Messages
  import opened PreTradeRisk
  import opened ExecutionReports
  import opened OrderLifecycle
  import opened LifecycleLaws
  import opened Gateway
  import opened Pipeline
  import opened SystemRuns
  import opened OrderBook

  /** The tracker counts what the pipeline and the gateway count, and its history, hence the journal,
      has two entries per enqueued order, one per risk rejection, two per order sent and two per
      action that did not bounce. */
  predicate LedgerAgrees(t: Tracker, c: PipelineCounters, g: GatewayCounters)
  {
    var k := t.counters;
    && k.registered == k.queued == c.enqueued
    && k.riskRejected == c.rejectedByRisk
    && k.sent == c.drained - c.rejectedByRisk
    && k.exchangeAccepted == c.accepted
    && k.exchangeRejected == c.rejectedByGateway
    && k.cancelsRejected == 0
    && k.cancelRequests == k.cancelsAccepted == g.cancelsAccepted
    && k.amendRequests == k.amendsAccepted + k.amendsRejected
    && k.amendsAccepted == g.amendsAccepted
    && g.cancelsRejected + g.amendsRejected == k.amendsRejected + g.transitionErrors
    && t.errors.total == g.transitionErrors
    && k.cancelRequests + k.amendRequests == g.cancelsSent + g.amendsSent - g.transitionErrors
    && |t.history| == 2 * c.enqueued + c.rejectedByRisk + 2 * (c.drained - c.rejectedByRisk)
                      + 2 * (k.cancelRequests + k.amendRequests)
  }

  predicate Ledger(p: PipelineView)
  {
    Wired(p) && LedgerAgrees(p.tracker.value, p.counters, p.route.value.counters)
  }

  lemma DispatchKeepsLedger(p: PipelineView, r: OrderRequest)
    requires Ledger(p) && r.sequenceId in p.tracker.value.records
    requires p.tracker.value.records[r.sequenceId] == RecordOf(r.sequenceId, Waiting(r))
    ensures Ledger(Dispatch(p, r))
  {
    hide Assess, Dispatch, RecordOf, OrderReply;
    if RiskVerdict(p, r) != RiskNotRejected {
      DispatchRefused(p, r);
    } else {
      DispatchSent(p, r);
      OffersInStep(p.tracker.value, r.sequenceId, r, GatewayVerdict(p, r));
    }
  }

  lemma {:induction false} DispatchAllKeepsLedger(p: PipelineView, q: seq<OrderRequest>, b: Book)
    requires Agrees(p, q, b) && Ledger(p)
    ensures Ledger(DispatchAll(p, q))
    decreases |q|
  {
    hide Dispatch, ExchangeMatches, Fate, LedgerAgrees;
    if q != [] {
      var r, rest := q[0], q[1..];
      assert q == [r] + rest;
      HeadIsWaiting(r, rest, b);
      DispatchSettles(p, r, rest, b);
      DispatchKeepsLedger(p, r);
      DispatchAllKeepsLedger(Dispatch(p, r), rest, b[r.sequenceId := Fate(LimitsOf(p), r)]);
    }
  }

  lemma EnqueueKeepsLedger(p: PipelineView, r: OrderRequest)
    requires Ledger(p)
    ensures Ledger(AfterEnqueue(p, r))
  {
  }

  lemma AmendKeepsLedger(p: PipelineView, a: AmendRequest, b: Book)
    requires Refines(p, b) && Ledger(p)
    ensures Ledger(WithGateway(p, AfterSendAmend(GatewayOf(p), a)))
  {
    hide QueueMatches, RecordOf;
    PendingIffLive(p.tracker.value, b, a.sequenceId);
    if BookAmendReply(b, a) != AmendInvalidState {
      AmendSettlesRecord(p.tracker.value, a.sequenceId, b[a.sequenceId], BookAmend(b, a)[a.sequenceId]);
    }
  }

  lemma CancelKeepsLedger(p: PipelineView, c: CancelRequest, b: Book)
    requires Refines(p, b) && Ledger(p)
    ensures Ledger(WithGateway(p, AfterSendCancel(GatewayOf(p), c)))
  {
    hide QueueMatches, RecordOf;
    PendingIffLive(p.tracker.value, b, c.sequenceId);
    if BookCancelReply(b, c) != CancelInvalidState {
      CancelSettlesRecord(p.tracker.value, c.sequenceId, b[c.sequenceId]);
    }
  }

  lemma CommandKeepsLedger(p: PipelineView, command: Command, b: Book)
    requires Refines(p, b) && Ledger(p)
    ensures Ledger(AfterCommand(p, command))
  {
    hide LedgerAgrees, RecordsMatch, ExchangeMatches, QueueMatches;
    hide AfterEnqueue, DispatchAll, AfterSendAmend, AfterSendCancel;
    match command
    case Enqueue(r) => EnqueueKeepsLedger(p, r);
    case Drain => DispatchAllKeepsLedger(p.(queue := []), p.queue, b);
    case SendAmend(a) => AmendKeepsLedger(p, a, b);
    case SendCancel(c) => CancelKeepsLedger(p, c, b);
  }

  lemma {:induction false} RunKeepsLedger(p: PipelineView, commands: seq<Command>, b: Book)
    requires Refines(p, b) && Ledger(p)
    ensures Ledger(Run(p, commands))
    decreases |commands|
  {
    hide Refines, Ledger, AfterCommand, BookCommand;
    if commands != [] {
      CommandRefines(p, commands[0], b);
      CommandKeepsLedger(p, commands[0], b);
      RunKeepsLedger(AfterCommand(p, commands[0]), commands[1..], BookCommand(p.capacity, LimitsOf(p), b, commands[0]));
    }
  }

  lemma FreshLedger(p: PipelineView)
    requires Fresh(p) && Wired(p)
    ensures Ledger(p)
  {
  }

  lemma EveryRunBalances(p: PipelineView, commands: seq<Command>)
    requires Fresh(p) && Wired(p)
    ensures Ledger(Run(p, commands)) && Conserved(Run(p, commands))
  {
    hide Run, Ledger, Refines, Conserved;
    FreshLedger(p);
    FreshRefines(p);
    RunKeepsLedger(p, commands, map[]);
    FreshIsConserved(p);
    EveryRunConserves(p, commands);
  }

  function RejectionTotal(k: LifecycleCounters): nat
  {
    k.riskRejected + k.exchangeRejected + k.cancelsRejected + k.amendsRejected
  }

  function ActionTotal(k: LifecycleCounters): nat
  {
    k.cancelRequests + k.cancelsAccepted + k.cancelsRejected + k.amendRequests + k.amendsAccepted + k.amendsRejected
  }

  lemma CountedStep(k: LifecycleCounters, t: ExecutionReportType, reason: Reason)
    requires ProperReason(t, reason)
    ensures RejectionTotal(Count(k, t)) == RejectionTotal(k) + if SourceOf(reason) != SourceNone then 1 else 0
    ensures ActionTotal(Count(k, t)) == ActionTotal(k) + if IsActionReport(t) then 1 else 0
  {
    match t case _ =>
  }

  ghost predicate CountsAgree(reports: seq<ExecutionReport>, k: LifecycleCounters)
  {
    CountRejections(reports) == RejectionTotal(k) && CountActions(reports) == ActionTotal(k)
  }

  lemma NothingCounted(reports: seq<ExecutionReport>, k: LifecycleCounters)
    requires reports == [] && k == NO_COUNTS
    ensures CountsAgree(reports, k)
  {
    hide CountRejections, CountActions;
    EmptyJournal(reports);
  }

  lemma EmptyJournal(reports: seq<ExecutionReport>)
    requires reports == []
    ensures CountRejections(reports) == 0 && CountActions(reports) == 0
  {
  }

  lemma CountsAgreeStep(reports: seq<ExecutionReport>, k: LifecycleCounters, e: Event)
    requires CountsAgree(reports, k) && ProperReason(e.what, e.reason)
    ensures CountsAgree(Reported(reports, e), Count(k, e.what))
  {
    hide RejectionTotal, ActionTotal, Count, ReasonString, CountRejections, CountActions, ProperReason;
    CountsAppend(reports, ReportOf(|reports| + 1, e.sequenceId, e.what, e.reason));
    CountedStep(k, e.what, e.reason);
  }

  /** Rejections and actions in the rendered journal are what the tracker's counters say. */
  lemma {:induction false} RenderedCounts(history: seq<Event>)
    requires ProperReasons(history)
    ensures CountsAgree(Rendered([], history), Counted(history))
  {
    hide ProperReason, CountsAgree, Reported, Count;
    if history == [] {
      NothingCounted(Rendered([], history), Counted(history));
    } else {
      var front, last := history[..|history| - 1], history[|history| - 1];
      RenderedCounts(front);
      CountsAgreeStep(Rendered([], front), Counted(front), last);
    }
  }

  /** The journal of a fully wired run: gapless one-based indexes, the length the pipeline's and the
      gateway's counters predict, one rejection entry per rejected order or amend that did not bounce,
      and two action entries per action that did not bounce. */
  lemma JournalArithmetic(p: PipelineView, commands: seq<Command>)
    requires Fresh(p) && Wired(p) && Journaled(p)
    ensures var after := Run(p, commands);
            && Journaled(after) && after.route.Some?
            && var reports, c, g := after.tracker.value.journal.value, after.counters, after.route.value.counters;
            var settled := g.cancelsSent + g.amendsSent - g.transitionErrors;
            && (forall i :: 0 <= i < |reports| ==> reports[i].eventIndex == i + 1)
            && |reports| == 2 * c.enqueued + c.rejectedByRisk + 2 * (c.drained - c.rejectedByRisk) + 2 * settled
            && CountRejections(reports) == c.rejected + g.cancelsRejected + g.amendsRejected - g.transitionErrors
            && CountActions(reports) == 2 * settled
  {
    hide Run;
    EveryRunBalances(p, commands);
    FreshIsSound(p);
    RunKeepsSound(p, p, commands);
    var t := Run(p, commands).tracker.value;
    RebuildInvertsRendering(t.history);
    LegalHasProperReasons(t.history);
    RenderedCounts(t.history);
  }

  /** With a risk manager in front, the exchange never refuses a submission: every validation failure
      is caught by risk and every duplicate by the tracker. */
  lemma ExchangeNeverRejects(p: PipelineView, commands: seq<Command>)
    requires Fresh(p) && Wired(p) && p.risk.Some?
    ensures var after := Run(p, commands);
            && after.counters.rejectedByGateway == 0
            && after.route.Some? && after.route.value.counters.ordersRejected == 0
            && after.tracker.Some?
            && forall id :: id in after.tracker.value.records ==>
                 after.tracker.value.records[id].state != ExchangeRejected
  {
    hide Run, BookRun;
    var limits := p.risk.value.config;
    SystemSimulatesBook(p, commands);
    BookNeverRefuses(p.capacity, limits, map[], commands);
    EveryRunBalances(p, commands);
    EveryRunIsSound(p, commands, 0);
    NoRecordRefused(Run(p, commands), BookRun(p.capacity, Some(limits), map[], commands));
  }

  lemma NoRecordRefused(p: PipelineView, b: Book)
    requires Refines(p, b) && NoneRefusedByExchange(b)
    requires Ledger(p) && Conserved(p) && FlowsBalance(p.tracker.value.records, p.tracker.value.counters)
    ensures p.counters.rejectedByGateway == 0 && p.route.value.counters.ordersRejected == 0
    ensures forall id :: id in p.tracker.value.records ==> p.tracker.value.records[id].state != ExchangeRejected
  {
    hide QueueMatches, ExchangeMatches;
    var records := p.tracker.value.records;
    forall id | id in records
      ensures records[id].state != ExchangeRejected
    {
      assert records[id] == RecordOf(id, b[id]);
    }
    assert OrdersIn(records, ExchangeRejected) == {};
    assert Population(records, ExchangeRejected) == Resting(p.tracker.value.counters, ExchangeRejected);
  }
}
