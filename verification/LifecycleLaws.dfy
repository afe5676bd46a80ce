/** Laws of the lifecycle tracker over every sequence of public calls, refused calls included:
    the history determines the tracker, the journal rebuilds it, counters measure the
    population of every state, and each order's reports form a sentence of the lifecycle grammar. */
module LifecycleLaws {
  import opened Messages
  import opened ExecutionReports
  import opened OrderLifecycle

  // ---------- what a history determines ----------

  function Replay(history: seq<Event>): Records
  {
    if history == [] then map[] else Apply(Replay(history[..|history| - 1]), history[|history| - 1])
  }

  function Counted(history: seq<Event>): LifecycleCounters
  {
    if history == [] then NO_COUNTS else Count(Counted(history[..|history| - 1]), history[|history| - 1].what)
  }

  function Rendered(prior: seq<ExecutionReport>, history: seq<Event>): seq<ExecutionReport>
  {
    if history == [] then prior else Reported(Rendered(prior, history[..|history| - 1]), history[|history| - 1])
  }

  ghost predicate LegalHistory(history: seq<Event>)
  {
    history != [] ==>
      LegalHistory(history[..|history| - 1]) && Legal(Replay(history[..|history| - 1]), history[|history| - 1])
  }

  lemma HistoryAppend(history: seq<Event>, e: Event)
    ensures Replay(history + [e]) == Apply(Replay(history), e)
    ensures Counted(history + [e]) == Count(Counted(history), e.what)
    ensures LegalHistory(history + [e]) <==> LegalHistory(history) && Legal(Replay(history), e)
  {
    assert (history + [e])[..|history|] == history;
  }

  lemma RenderedAppend(prior: seq<ExecutionReport>, history: seq<Event>, e: Event)
    ensures Rendered(prior, history + [e]) == Reported(Rendered(prior, history), e)
  {
    assert (history + [e])[..|history|] == history;
  }

  /** Records, counters and journal are all functions of the steps that succeeded. */
  ghost predicate Sound(prior: seq<ExecutionReport>, t: Tracker)
  {
    && LegalHistory(t.history)
    && t.records == Replay(t.history)
    && t.counters == Counted(t.history)
    && (t.journal.Some? ==> t.journal.value == Rendered(prior, t.history))
  }

  lemma OfferKeepsSound(prior: seq<ExecutionReport>, t: Tracker, e: Event)
    requires Sound(prior, t)
    ensures Sound(prior, Offer(t, e))
    ensures Offer(t, e).journal.Some? <==> t.journal.Some?
  {
    HistoryAppend(t.history, e);
    RenderedAppend(prior, t.history, e);
  }

  // ---------- runs of public calls ----------

  /** RegisterQueued is the one public call that can make two steps. */
  datatype TrackerCall = StepCall(event: Event) | RegisterQueuedCall(sequenceId: uint64)

  function AfterCall(t: Tracker, call: TrackerCall): Tracker
  {
    match call
    case StepCall(e) => Offer(t, e)
    case RegisterQueuedCall(id) => Registered(t, id)
  }

  function AfterCalls(t: Tracker, calls: seq<TrackerCall>): Tracker
    decreases |calls|
  {
    if calls == [] then t else AfterCalls(AfterCall(t, calls[0]), calls[1..])
  }

  lemma CallKeepsSound(prior: seq<ExecutionReport>, t: Tracker, call: TrackerCall)
    requires Sound(prior, t)
    ensures Sound(prior, AfterCall(t, call))
    ensures AfterCall(t, call).journal.Some? <==> t.journal.Some?
  {
    match call
    case StepCall(e) =>
      OfferKeepsSound(prior, t, e);
    case RegisterQueuedCall(id) =>
      OfferKeepsSound(prior, t, Event(id, ReportCreated, NoReason));
      OfferKeepsSound(prior, Offer(t, Event(id, ReportCreated, NoReason)), Event(id, ReportQueued, NoReason));
  }

  lemma {:induction false} CallsKeepSound(prior: seq<ExecutionReport>, t: Tracker, calls: seq<TrackerCall>)
    requires Sound(prior, t)
    ensures Sound(prior, AfterCalls(t, calls))
    ensures AfterCalls(t, calls).journal.Some? <==> t.journal.Some?
    decreases |calls|
  {
    if calls != [] {
      CallKeepsSound(prior, t, calls[0]);
      CallsKeepSound(prior, AfterCall(t, calls[0]), calls[1..]);
    }
  }

  /** A refused step leaves records, counters and journal alone and counts exactly one error. */
  lemma RefusedStepChangesNothing(t: Tracker, e: Event)
    ensures (Offer(t, e).records == t.records && Offer(t, e).journal == t.journal) <==> !Takes(t, e)
    ensures !Takes(t, e) ==> Offer(t, e).history == t.history && Offer(t, e).counters == t.counters
    ensures Offer(t, e).errors.total == t.errors.total + if Takes(t, e) then 0 else 1
    ensures Offer(t, e).errors.last != NoLifecycleError <==> !Takes(t, e)
  {
    if Takes(t, e) {
      assert Offer(t, e).records[e.sequenceId].state == After(e.what);
    }
  }

  // ---------- what is counted ----------

  function TypesIn(history: seq<Event>): seq<ExecutionReportType>
  {
    if history == [] then [] else TypesIn(history[..|history| - 1]) + [history[|history| - 1].what]
  }

  predicate Tallies(c: LifecycleCounters, m: multiset<ExecutionReportType>)
  {
    && c.registered == m[ReportCreated] && c.queued == m[ReportQueued]
    && c.riskRejected == m[ReportRiskRejected] && c.sent == m[ReportSent]
    && c.exchangeAccepted == m[ReportExchangeAccepted] && c.exchangeRejected == m[ReportExchangeRejected]
    && c.cancelRequests == m[ReportCancelPending] && c.cancelsAccepted == m[ReportCancelled]
    && c.cancelsRejected == m[ReportCancelRejected] && c.amendRequests == m[ReportAmendPending]
    && c.amendsAccepted == m[ReportAmendAccepted] && c.amendsRejected == m[ReportAmendRejected]
  }

  lemma TalliesStep(c: LifecycleCounters, m: multiset<ExecutionReportType>, t: ExecutionReportType)
    requires Tallies(c, m)
    ensures Tallies(Count(c, t), m + multiset{t})
  {
    match t case _ =>
  }

  /** Each of the twelve counters is the number of successful steps of its kind. */
  lemma {:induction false} CountersAreStepCounts(history: seq<Event>)
    ensures Tallies(Counted(history), multiset(TypesIn(history)))
  {
    hide Count;
    if history != [] {
      hide Tallies;
      var front, last := history[..|history| - 1], history[|history| - 1];
      CountersAreStepCounts(front);
      TalliesStep(Counted(front), multiset(TypesIn(front)), last.what);
      assert multiset(TypesIn(front) + [last.what]) == multiset(TypesIn(front)) + multiset{last.what};
    }
  }

  /** What a public call is answered with, given the records: registering a known id is a duplicate, any
      other step of an unknown id is unknown unless its reason is improper, and the remaining refusals are
      invalid transitions. */
  function Answer(records: Records, call: TrackerCall): LifecycleError
  {
    match call
    case RegisterQueuedCall(id) => if id in records then DuplicateOrder else NoLifecycleError
    case StepCall(e) =>
      if Legal(records, e) then NoLifecycleError
      else if e.what == ReportCreated && e.sequenceId in records then DuplicateOrder
      else if e.what != ReportCreated && ProperReason(e.what, e.reason) && e.sequenceId !in records then UnknownOrder
      else InvalidTransition
  }

  function Answers(t: Tracker, calls: seq<TrackerCall>): (answers: seq<LifecycleError>)
    ensures |answers| == |calls|
    decreases |calls|
  {
    if calls == [] then [] else [Answer(t.records, calls[0])] + Answers(AfterCall(t, calls[0]), calls[1..])
  }

  lemma CallCountsItsAnswer(t: Tracker, call: TrackerCall)
    ensures var answer, before, after := Answer(t.records, call), t.errors, AfterCall(t, call).errors;
            && after.duplicateOrder == before.duplicateOrder + (if answer == DuplicateOrder then 1 else 0)
            && after.unknownOrder == before.unknownOrder + (if answer == UnknownOrder then 1 else 0)
            && after.invalidTransition == before.invalidTransition + (if answer == InvalidTransition then 1 else 0)
            && after.total == before.total + (if answer == NoLifecycleError then 0 else 1)
            && after.last == answer
  {
    hide Apply, Count, Reported;
    if call.RegisterQueuedCall? && call.sequenceId !in t.records {
      RegistrationSucceeds(t, call.sequenceId);
    }
  }

  lemma RegistrationSucceeds(t: Tracker, id: uint64)
    requires id !in t.records
    ensures Registered(t, id).errors == t.errors.(last := NoLifecycleError)
  {
  }

  /** Over any sequence of calls each error counter is the number of calls answered with its error, their
      total is the number of refused calls, and the last error is the answer to the last call. */
  lemma {:induction false} ErrorsCountAnswers(t: Tracker, calls: seq<TrackerCall>)
    ensures var answers, before, after := Answers(t, calls), t.errors, AfterCalls(t, calls).errors;
            var m := multiset(answers);
            && after.duplicateOrder == before.duplicateOrder + m[DuplicateOrder]
            && after.unknownOrder == before.unknownOrder + m[UnknownOrder]
            && after.invalidTransition == before.invalidTransition + m[InvalidTransition]
            && after.total + m[NoLifecycleError] == before.total + |calls|
            && after.last == if calls == [] then before.last else answers[|calls| - 1]
    decreases |calls|
  {
    hide Answer, AfterCall;
    if calls != [] {
      var next, rest := AfterCall(t, calls[0]), calls[1..];
      CallCountsItsAnswer(t, calls[0]);
      ErrorsCountAnswers(next, rest);
      assert Answers(t, calls) == [Answer(t.records, calls[0])] + Answers(next, rest);
    }
  }

  // ---------- event sourcing ----------

  /** Applies one journal entry, reading the reason back from its source and string. */
  function ApplyReport(records: Records, r: ExecutionReport): Records
  {
    var reason := ParseReason(r.rejectSource, r.rejectReason);
    if reason.None? then records else Apply(records, Event(r.sequenceId, r.reportType, reason.value))
  }

  function Rebuild(reports: seq<ExecutionReport>): Records
  {
    if reports == [] then map[] else ApplyReport(Rebuild(reports[..|reports| - 1]), reports[|reports| - 1])
  }

  lemma {:induction false} RebuildInvertsRendering(history: seq<Event>)
    ensures var reports := Rendered([], history);
            Rebuild(reports) == Replay(history) && Indexed(reports) && AllPrintable(reports)
            && |reports| == |history|
  {
    hide ReasonString, SourceOf, ParseReason, Apply, Printable;
    if history != [] {
      var front, last := history[..|history| - 1], history[|history| - 1];
      RebuildInvertsRendering(front);
      var reports := Rendered([], history);
      assert reports[..|reports| - 1] == Rendered([], front);
      ReasonRoundTrip(last.reason);
      ReasonStringsArePrintable(last.reason);
    }
  }

  /** With a journal attached from the start, folding the journal, or the printed text of the
      journal, from the empty map rebuilds every record: state and all four reject reasons. */
  lemma EventSourcing(calls: seq<TrackerCall>)
    ensures var t := AfterCalls(FreshTracker(Some([])), calls);
            && t.journal.Some?
            && Rebuild(t.journal.value) == t.records
            && var logged := ParseLog(PrintedLog(t.journal.value));
            logged.Some? && logged.value == t.journal.value && Rebuild(logged.value) == t.records
  {
    CallsKeepSound([], FreshTracker(Some([])), calls);
    var t := AfterCalls(FreshTracker(Some([])), calls);
    RebuildInvertsRendering(t.history);
    LogRoundTrip(t.journal.value);
  }

  /** A report has a reject source exactly when it reports a rejection, the source of that kind of rejection,
      and exactly then a reason other than "none". */
  predicate ReasonFits(r: ExecutionReport)
  {
    && (r.reportType == ReportRiskRejected <==> r.rejectSource == SourceRisk)
    && (r.reportType == ReportExchangeRejected <==> r.rejectSource == SourceExchange)
    && (r.reportType == ReportCancelRejected <==> r.rejectSource == SourceCancel)
    && (r.reportType == ReportAmendRejected <==> r.rejectSource == SourceAmend)
    && (r.rejectSource == SourceNone <==> r.rejectReason == "none")
  }

  lemma OnlyNoReasonIsNone(reason: Reason)
    requires match reason
             case NoReason => true
             case RiskReason(r) => r != RiskNotRejected
             case ExchangeReason(r) => r != NotRejected
             case CancelReason(r) => r != CancelNotRejected
             case AmendReason(r) => r != AmendNotRejected
    ensures ReasonString(reason) == "none" <==> reason == NoReason
  {
    hide ParseReason;
    ReasonRoundTrip(reason);
    ReasonRoundTrip(RiskReason(RiskNotRejected));
    ReasonRoundTrip(ExchangeReason(NotRejected));
    ReasonRoundTrip(CancelReason(CancelNotRejected));
    ReasonRoundTrip(AmendReason(AmendNotRejected));
  }

  lemma LegalReasonFits(index: nat, records: Records, e: Event)
    requires Legal(records, e)
    ensures ReasonFits(ReportOf(index, e.sequenceId, e.what, e.reason))
  {
    hide ReasonString;
    OnlyNoReasonIsNone(e.reason);
  }

  lemma {:induction false} LegalReasonsFit(history: seq<Event>)
    requires LegalHistory(history)
    ensures forall r :: r in Rendered([], history) ==> ReasonFits(r)
  {
    hide ReasonFits, Legal, Apply, ReportOf;
    if history != [] {
      var front, last := history[..|history| - 1], history[|history| - 1];
      LegalReasonsFit(front);
      LegalReasonFits(|Rendered([], front)| + 1, Replay(front), last);
    }
  }

  /** After any calls every journal entry has the source and reason its type demands. */
  lemma JournalReasonsFit(calls: seq<TrackerCall>)
    ensures var t := AfterCalls(FreshTracker(Some([])), calls);
            t.journal.Some? && forall r :: r in t.journal.value ==> ReasonFits(r)
  {
    hide ReasonFits;
    CallsKeepSound([], FreshTracker(Some([])), calls);
    LegalReasonsFit(AfterCalls(FreshTracker(Some([])), calls).history);
  }

  // ---------- what a record remembers ----------

  function LastRiskReason(history: seq<Event>, id: uint64): RiskRejectReason
  {
    if history == [] then RiskNotRejected
    else
      var last := history[|history| - 1];
      if last.sequenceId == id && last.reason.RiskReason? then last.reason.risk
      else LastRiskReason(history[..|history| - 1], id)
  }

  function LastExchangeReason(history: seq<Event>, id: uint64): OrderRejectReason
  {
    if history == [] then NotRejected
    else
      var last := history[|history| - 1];
      if last.sequenceId == id && last.reason.ExchangeReason? then last.reason.order
      else LastExchangeReason(history[..|history| - 1], id)
  }

  function LastCancelReason(history: seq<Event>, id: uint64): CancelRejectReason
  {
    if history == [] then CancelNotRejected
    else
      var last := history[|history| - 1];
      if last.sequenceId == id && last.reason.CancelReason? then last.reason.cancel
      else LastCancelReason(history[..|history| - 1], id)
  }

  function LastAmendReason(history: seq<Event>, id: uint64): AmendRejectReason
  {
    if history == [] then AmendNotRejected
    else
      var last := history[|history| - 1];
      if last.sequenceId == id && last.what == ReportAmendAccepted then AmendNotRejected
      else if last.sequenceId == id && last.reason.AmendReason? then last.reason.amend
      else LastAmendReason(history[..|history| - 1], id)
  }

  /** A record carries, per source, the reason of the last rejection reported for the order. Only the
      amend reason is ever cleared, by an accepted amend; a cancel rejection stays for good. */
  lemma {:induction false} RecordRemembersLastReasons(history: seq<Event>, id: uint64)
    requires LegalHistory(history) && id in Replay(history)
    ensures var r := Replay(history)[id];
            && r.sequenceId == id
            && r.riskRejectReason == LastRiskReason(history, id)
            && r.exchangeRejectReason == LastExchangeReason(history, id)
            && r.cancelRejectReason == LastCancelReason(history, id)
            && r.amendRejectReason == LastAmendReason(history, id)
  {
    var front, last := history[..|history| - 1], history[|history| - 1];
    if id in Replay(front) {
      RecordRemembersLastReasons(front, id);
    } else {
      UnknownHasNoReasons(front, id);
    }
  }

  lemma {:induction false} UnknownHasNoReasons(history: seq<Event>, id: uint64)
    requires LegalHistory(history) && id !in Replay(history)
    ensures LastRiskReason(history, id) == RiskNotRejected && LastExchangeReason(history, id) == NotRejected
    ensures LastCancelReason(history, id) == CancelNotRejected && LastAmendReason(history, id) == AmendNotRejected
  {
    if history != [] {
      UnknownHasNoReasons(history[..|history| - 1], id);
    }
  }

  // ---------- flow conservation ----------

  function OrdersIn(records: Records, s: OrderLifecycleState): set<uint64>
  {
    set id | id in records && records[id].state == s
  }

  function Population(records: Records, s: OrderLifecycleState): nat
  {
    |OrdersIn(records, s)|
  }

  lemma OrdersInUpdate(records: Records, id: uint64, r: OrderLifecycleRecord, s: OrderLifecycleState)
    ensures OrdersIn(records[id := r], s) == OrdersIn(records, s) - {id} + if r.state == s then {id} else {}
    ensures id in OrdersIn(records, s) <==> StateOf(records, id) == Some(s)
  {
  }

  lemma PopulationUpdate(records: Records, id: uint64, r: OrderLifecycleRecord, s: OrderLifecycleState)
    ensures Population(records[id := r], s)
            == Population(records, s) + (if r.state == s then 1 else 0)
                                      - (if StateOf(records, id) == Some(s) then 1 else 0)
  {
    hide OrdersIn, StateOf;
    OrdersInUpdate(records, id, r, s);
  }

  /** A legal step moves one order into After and out of Before. */
  lemma PopulationStep(records: Records, e: Event, s: OrderLifecycleState)
    requires Legal(records, e)
    ensures Population(Apply(records, e), s)
            == Population(records, s) + (if After(e.what) == s then 1 else 0)
                                      - (if Before(e.what) == Some(s) then 1 else 0)
  {
    PopulationUpdate(records, e.sequenceId, Apply(records, e)[e.sequenceId], s);
  }

  /** How many orders rest in a state, in terms of the public counters. */
  function Resting(c: LifecycleCounters, s: OrderLifecycleState): int
  {
    match s
    case Created => c.registered - c.queued
    case Queued => c.queued - c.riskRejected - c.sent
    case RiskRejected => c.riskRejected
    case Sent => c.sent - c.exchangeAccepted - c.exchangeRejected
    case ExchangeRejected => c.exchangeRejected
    case ExchangeAccepted =>
      c.exchangeAccepted + c.cancelsRejected + c.amendsAccepted + c.amendsRejected - c.cancelRequests - c.amendRequests
    case CancelPending => c.cancelRequests - c.cancelsAccepted - c.cancelsRejected
    case Cancelled => c.cancelsAccepted
    case AmendPending => c.amendRequests - c.amendsAccepted - c.amendsRejected
  }

  ghost predicate FlowsBalance(records: Records, c: LifecycleCounters)
  {
    forall s :: Population(records, s) == Resting(c, s)
  }

  lemma RestingStep(c: LifecycleCounters, t: ExecutionReportType, s: OrderLifecycleState)
    ensures Resting(Count(c, t), s)
            == Resting(c, s) + (if After(t) == s then 1 else 0) - (if Before(t) == Some(s) then 1 else 0)
  {
    match t case _ =>
  }

  lemma BalanceStep(records: Records, c: LifecycleCounters, e: Event)
    requires Legal(records, e) && FlowsBalance(records, c)
    ensures FlowsBalance(Apply(records, e), Count(c, e.what))
  {
    forall s
      ensures Population(Apply(records, e), s) == Resting(Count(c, e.what), s)
    {
      PopulationStep(records, e, s);
      RestingStep(c, e.what, s);
    }
  }

  lemma {:induction false} HistoryBalances(history: seq<Event>)
    requires LegalHistory(history)
    ensures FlowsBalance(Replay(history), Counted(history))
  {
    if history == [] {
      forall s
        ensures Population(map[], s) == 0
      {
        assert OrdersIn(map[], s) == {};
      }
    } else {
      var front := history[..|history| - 1];
      HistoryBalances(front);
      BalanceStep(Replay(front), Counted(front), history[|history| - 1]);
    }
  }

  lemma FlowConservation(journal: Option<seq<ExecutionReport>>, calls: seq<TrackerCall>)
    ensures var t := AfterCalls(FreshTracker(journal), calls);
            FlowsBalance(t.records, t.counters)
  {
    var prior := if journal.Some? then journal.value else [];
    CallsKeepSound(prior, FreshTracker(journal), calls);
    HistoryBalances(AfterCalls(FreshTracker(journal), calls).history);
  }

  // ---------- terminal states ----------

  predicate Terminal(s: OrderLifecycleState)
  {
    s in {RiskRejected, ExchangeRejected, Cancelled}
  }

  function SomeStepFrom(id: uint64, s: OrderLifecycleState): Event
    requires !Terminal(s)
  {
    Event(
      id,
      match s
      case Created => ReportQueued
      case Queued => ReportSent
      case Sent => ReportExchangeAccepted
      case ExchangeAccepted => ReportCancelPending
      case CancelPending => ReportCancelled
      case AmendPending => ReportAmendAccepted,
      NoReason)
  }

  /** An order can make another step exactly when its state is not terminal; in particular an accepted
      order can. */
  lemma StepExistsIffNotTerminal(records: Records, id: uint64)
    requires id in records
    ensures (exists e: Event :: e.sequenceId == id && Legal(records, e)) <==> !Terminal(records[id].state)
  {
    var s := records[id].state;
    if Terminal(s) {
      forall e: Event | e.sequenceId == id
        ensures !Legal(records, e)
      {
        assert Before(e.what) != Some(s) by { match e.what case _ => }
      }
    } else {
      assert Legal(records, SomeStepFrom(id, s));
    }
  }

  /** A terminal order's record is never touched again, whatever calls follow. */
  lemma {:induction false} TerminalIsForever(t: Tracker, calls: seq<TrackerCall>, id: uint64)
    requires id in t.records && Terminal(t.records[id].state)
    ensures id in AfterCalls(t, calls).records && AfterCalls(t, calls).records[id] == t.records[id]
    decreases |calls|
  {
    hide Registered, Offer, Terminal;
    if calls != [] {
      match calls[0] {
        case StepCall(e) => TerminalRefuses(t, e, id);
        case RegisterQueuedCall(other) => TerminalRefusesRegistration(t, other, id);
      }
      TerminalIsForever(AfterCall(t, calls[0]), calls[1..], id);
    }
  }

  lemma TerminalRefuses(t: Tracker, e: Event, id: uint64)
    requires id in t.records && Terminal(t.records[id].state)
    ensures id in Offer(t, e).records && Offer(t, e).records[id] == t.records[id]
  {
    if e.sequenceId == id {
      StepExistsIffNotTerminal(t.records, id);
    }
  }

  lemma TerminalRefusesRegistration(t: Tracker, other: uint64, id: uint64)
    requires id in t.records && Terminal(t.records[id].state)
    ensures id in Registered(t, other).records && Registered(t, other).records[id] == t.records[id]
  {
    hide Offer, Takes;
    var created := Event(other, ReportCreated, NoReason);
    TerminalRefuses(t, created, id);
    TerminalRefuses(Offer(t, created), Event(other, ReportQueued, NoReason), id);
  }

  function Steps(id: uint64, types: seq<ExecutionReportType>): seq<Event>
  {
    seq(|types|, i requires 0 <= i < |types| => Event(id, types[i], NoReason))
  }

  /** A history in which an accepted order goes on to be cancelled. */
  lemma AcceptedIsNotTerminal(id: uint64)
    ensures var history := Steps(id, [ReportCreated, ReportQueued, ReportSent, ReportExchangeAccepted,
                                      ReportCancelPending, ReportCancelled]);
            && LegalHistory(history[..4]) && StateOf(Replay(history[..4]), id) == Some(ExchangeAccepted)
            && LegalHistory(history) && StateOf(Replay(history), id) == Some(Cancelled)
  {
    hide Replay, LegalHistory;
    var types := [ReportCreated, ReportQueued, ReportSent, ReportExchangeAccepted,
                  ReportCancelPending, ReportCancelled];
    var history := Steps(id, types);
    FromNothing(id);
    for i := 0 to 6
      invariant LegalHistory(history[..i])
      invariant StateOf(Replay(history[..i]), id) == if i == 0 then None else Some(After(types[i - 1]))
      invariant i >= 4 ==> LegalHistory(history[..4]) && StateOf(Replay(history[..4]), id) == Some(ExchangeAccepted)
    {
      assert history[..i] + [Event(id, types[i], NoReason)] == history[..i + 1];
      StepTaken(history[..i], id, types[i]);
    }
    assert history[..6] == history;
  }

  lemma FromNothing(id: uint64)
    ensures LegalHistory([]) && StateOf(Replay([]), id) == None
  {
  }

  lemma StepTaken(history: seq<Event>, id: uint64, t: ExecutionReportType)
    requires LegalHistory(history) && StateOf(Replay(history), id) == Before(t) && ProperReason(t, NoReason)
    ensures var longer := history + [Event(id, t, NoReason)];
            LegalHistory(longer) && StateOf(Replay(longer), id) == Some(After(t))
  {
    HistoryAppend(history, Event(id, t, NoReason));
  }

  // ---------- the language of one order's reports ----------

  type Sentence = seq<ExecutionReportType>

  /** Prefixes of: created queued (risk_rejected | sent (exchange_rejected | exchange_accepted actions)). */
  predicate IsLifecycle(w: Sentence)
  {
    w == [] || (w[0] == ReportCreated && (|w| == 1 || (w[1] == ReportQueued && AfterQueued(w[2..]))))
  }

  predicate AfterQueued(w: Sentence)
  {
    w == [] || w == [ReportRiskRejected] || (w[0] == ReportSent && AfterSent(w[1..]))
  }

  predicate AfterSent(w: Sentence)
  {
    w == [] || w == [ReportExchangeRejected] || (w[0] == ReportExchangeAccepted && Actions(w[1..]))
  }

  /** Prefixes of: (amend_pending (amend_accepted | amend_rejected) | cancel_pending cancel_rejected)*
      (cancel_pending cancelled)?. */
  predicate Actions(w: Sentence)
  {
    || w == [] || w == [ReportAmendPending] || w == [ReportCancelPending]
    || w == [ReportCancelPending, ReportCancelled]
    || (|w| >= 2 && CompletedAction(w[0], w[1]) && Actions(w[2..]))
  }

  predicate CompletedAction(request: ExecutionReportType, outcome: ExecutionReportType)
  {
    || (request == ReportAmendPending && outcome in {ReportAmendAccepted, ReportAmendRejected})
    || (request == ReportCancelPending && outcome == ReportCancelRejected)
  }

  function Word(history: seq<Event>, id: uint64): Sentence
  {
    if history == [] then []
    else
      var last := history[|history| - 1];
      Word(history[..|history| - 1], id) + if last.sequenceId == id then [last.what] else []
  }

  /** Where a sentence leads: Stuck when some report did not leave the state it was made in. */
  datatype Status = Stuck | At(state: Option<OrderLifecycleState>)

  function Move(s: Status, t: ExecutionReportType): Status
  {
    if s == At(Before(t)) then At(Some(After(t))) else Stuck
  }

  function Walk(s: Status, w: Sentence): Status
    decreases |w|
  {
    if w == [] then s else Walk(Move(s, w[0]), w[1..])
  }

  lemma {:induction false} WalkAppend(s: Status, w: Sentence, t: ExecutionReportType)
    ensures Walk(s, w + [t]) == Move(Walk(s, w), t)
    decreases |w|
  {
    if w == [] {
      assert Walk(Move(s, t), []) == Move(s, t);
    } else {
      assert (w + [t])[1..] == w[1..] + [t];
      WalkAppend(Move(s, w[0]), w[1..], t);
    }
  }

  lemma {:induction false} StuckStays(w: Sentence)
    ensures Walk(Stuck, w) == Stuck
  {
    if w != [] {
      StuckStays(w[1..]);
    }
  }

  lemma {:induction false} ActionsWalk(w: Sentence)
    ensures Actions(w) <==> Walk(At(Some(ExchangeAccepted)), w) != Stuck
  {
    if |w| == 1 {
      assert Walk(At(Some(ExchangeAccepted)), w) == Walk(Move(At(Some(ExchangeAccepted)), w[0]), []);
    } else if |w| >= 2 {
      var first := Move(At(Some(ExchangeAccepted)), w[0]);
      var second := Move(first, w[1]);
      assert w[1..][1..] == w[2..];
      assert Walk(At(Some(ExchangeAccepted)), w) == Walk(first, w[1..]) == Walk(second, w[2..]);
      ActionsWalk(w[2..]);
      StuckStays(w[2..]);
      if second == At(Some(Cancelled)) && |w| > 2 {
        StuckStays(w[2..][1..]);
      }
    }
  }

  lemma AfterSentWalk(w: Sentence)
    ensures AfterSent(w) <==> Walk(At(Some(Sent)), w) != Stuck
  {
    if w != [] {
      ActionsWalk(w[1..]);
      StuckStays(w[1..]);
      if |w| > 1 {
        StuckStays(w[1..][1..]);
      }
    }
  }

  lemma AfterQueuedWalk(w: Sentence)
    ensures AfterQueued(w) <==> Walk(At(Some(Queued)), w) != Stuck
  {
    if w != [] {
      AfterSentWalk(w[1..]);
      StuckStays(w[1..]);
      if |w| > 1 {
        StuckStays(w[1..][1..]);
      }
    }
  }

  lemma LifecycleWalk(w: Sentence)
    ensures IsLifecycle(w) <==> Walk(At(None), w) != Stuck
  {
    if w != [] {
      StuckStays(w[1..]);
      if |w| > 1 {
        assert w[1..][1..] == w[2..];
        AfterQueuedWalk(w[2..]);
        StuckStays(w[2..]);
      }
    }
  }

  /** The state of every order is where its own reports lead. */
  lemma {:induction false} WordsLeadToStates(history: seq<Event>, id: uint64)
    requires LegalHistory(history)
    ensures Walk(At(None), Word(history, id)) == At(StateOf(Replay(history), id))
  {
    if history != [] {
      var front, last := history[..|history| - 1], history[|history| - 1];
      WordsLeadToStates(front, id);
      WalkAppend(At(None), Word(front, id), last.what);
      assert Word(front, id) + [] == Word(front, id);
    }
  }

  ghost predicate ProperReasons(history: seq<Event>)
  {
    forall i :: 0 <= i < |history| ==> ProperReason(history[i].what, history[i].reason)
  }

  ghost predicate EverySentenceIs(history: seq<Event>)
  {
    forall id: uint64 :: IsLifecycle(Word(history, id))
  }

  lemma {:induction false} LegalHasProperReasons(history: seq<Event>)
    requires LegalHistory(history)
    ensures ProperReasons(history)
  {
    if history != [] {
      LegalHasProperReasons(history[..|history| - 1]);
    }
  }

  lemma PrefixOfSentence(history: seq<Event>, id: uint64)
    requires history != [] && IsLifecycle(Word(history, id))
    ensures IsLifecycle(Word(history[..|history| - 1], id))
  {
    var front, last := history[..|history| - 1], history[|history| - 1];
    LifecycleWalk(Word(history, id));
    LifecycleWalk(Word(front, id));
    WalkAppend(At(None), Word(front, id), last.what);
    assert Word(front, id) + [] == Word(front, id);
  }

  lemma {:induction false} SentencesAreLegal(history: seq<Event>)
    requires ProperReasons(history) && EverySentenceIs(history)
    ensures LegalHistory(history)
  {
    if history != [] {
      var front, last := history[..|history| - 1], history[|history| - 1];
      forall id: uint64
        ensures IsLifecycle(Word(front, id))
      {
        PrefixOfSentence(history, id);
      }
      SentencesAreLegal(front);
      assert IsLifecycle(Word(history, last.sequenceId));
      LifecycleWalk(Word(history, last.sequenceId));
      WordsLeadToStates(front, last.sequenceId);
      WalkAppend(At(None), Word(front, last.sequenceId), last.what);
    }
  }

  /** The tracker admits exactly the interleavings of lifecycle sentences: a history with proper
      reasons is legal if and only if the reports of each order, taken alone, form a sentence. */
  lemma LegalIffEverySentenceIs(history: seq<Event>)
    ensures LegalHistory(history) <==> ProperReasons(history) && EverySentenceIs(history)
  {
    if LegalHistory(history) {
      LegalHasProperReasons(history);
      forall id: uint64
        ensures IsLifecycle(Word(history, id))
      {
        WordsLeadToStates(history, id);
        LifecycleWalk(Word(history, id));
      }
    } else if ProperReasons(history) && EverySentenceIs(history) {
      SentencesAreLegal(history);
    }
  }

  function TypesOf(reports: seq<ExecutionReport>): Sentence
  {
    if reports == [] then [] else TypesOf(reports[..|reports| - 1]) + [reports[|reports| - 1].reportType]
  }

  lemma {:induction false} ReportsOfOrderFormItsWord(history: seq<Event>, id: uint64)
    ensures TypesOf(Matching(Rendered([], history), id)) == Word(history, id)
  {
    if history != [] {
      var front, last := history[..|history| - 1], history[|history| - 1];
      ReportsOfOrderFormItsWord(front, id);
      var reports := Rendered([], history);
      assert reports[..|reports| - 1] == Rendered([], front);
      var m := Matching(Rendered([], front), id);
      var r := reports[|reports| - 1];
      assert m + [] == m && (m + [r])[..|m|] == m;
    }
  }

  /** Whatever calls were made, the reports for an order read as a lifecycle sentence, so
      risk_rejected, exchange_rejected and cancelled are never followed by anything. */
  lemma HistoryLanguage(calls: seq<TrackerCall>, id: uint64)
    ensures var t := AfterCalls(FreshTracker(Some([])), calls);
            t.journal.Some? && IsLifecycle(TypesOf(Matching(t.journal.value, id)))
  {
    CallsKeepSound([], FreshTracker(Some([])), calls);
    var t := AfterCalls(FreshTracker(Some([])), calls);
    LegalIffEverySentenceIs(t.history);
    ReportsOfOrderFormItsWord(t.history, id);
  }
}
