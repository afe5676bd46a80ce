/** The nine-state lifecycle of every order, the tracker that enforces it, and the
    event history that determines the tracker's whole state. */
module OrderLifecycle {
  import opened Messages
  import opened ExecutionReports

  datatype OrderLifecycleState =
    | Created
    | Queued
    | RiskRejected
    | Sent
    | ExchangeAccepted
    | ExchangeRejected
    | CancelPending
    | Cancelled
    | AmendPending

  datatype LifecycleError = NoLifecycleError | DuplicateOrder | UnknownOrder | InvalidTransition

  datatype OrderLifecycleRecord = OrderLifecycleRecord(
    sequenceId: uint64, state: OrderLifecycleState,
    riskRejectReason: RiskRejectReason, exchangeRejectReason: OrderRejectReason,
    cancelRejectReason: CancelRejectReason, amendRejectReason: AmendRejectReason)

  type Records = map<uint64, OrderLifecycleRecord>

  // ---------- events ----------

  /** A successful lifecycle step of one order. */
  datatype Event = Event(sequenceId: uint64, what: ExecutionReportType, reason: Reason)

  /** The state an event leaves behind it, None meaning that the order is not registered. */
  function Before(t: ExecutionReportType): Option<OrderLifecycleState>
  {
    match t
    case ReportCreated => None
    case ReportQueued => Some(Created)
    case ReportRiskRejected => Some(Queued)
    case ReportSent => Some(Queued)
    case ReportExchangeAccepted => Some(Sent)
    case ReportExchangeRejected => Some(Sent)
    case ReportCancelPending => Some(ExchangeAccepted)
    case ReportCancelled => Some(CancelPending)
    case ReportCancelRejected => Some(CancelPending)
    case ReportAmendPending => Some(ExchangeAccepted)
    case ReportAmendAccepted => Some(AmendPending)
    case ReportAmendRejected => Some(AmendPending)
  }

  /** The state an event leads to; both amend outcomes and a refused cancel return to ExchangeAccepted. */
  function After(t: ExecutionReportType): OrderLifecycleState
  {
    match t
    case ReportCreated => Created
    case ReportQueued => Queued
    case ReportRiskRejected => RiskRejected
    case ReportSent => Sent
    case ReportExchangeAccepted => ExchangeAccepted
    case ReportExchangeRejected => ExchangeRejected
    case ReportCancelPending => CancelPending
    case ReportCancelled => Cancelled
    case ReportCancelRejected => ExchangeAccepted
    case ReportAmendPending => AmendPending
    case ReportAmendAccepted => ExchangeAccepted
    case ReportAmendRejected => ExchangeAccepted
  }

  /** A rejection carries a proper reason of its own kind; nothing else carries a reason. */
  predicate ProperReason(t: ExecutionReportType, reason: Reason)
  {
    match t
    case ReportRiskRejected => reason.RiskReason? && reason.risk != RiskNotRejected
    case ReportExchangeRejected => reason.ExchangeReason? && reason.order != NotRejected
    case ReportCancelRejected => reason.CancelReason? && reason.cancel != CancelNotRejected
    case ReportAmendRejected => reason.AmendReason? && reason.amend != AmendNotRejected
    case _ => reason.NoReason?
  }

  function StateOf(records: Records, sequenceId: uint64): Option<OrderLifecycleState>
  {
    if sequenceId in records then Some(records[sequenceId].state) else None
  }

  predicate Legal(records: Records, e: Event)
  {
    ProperReason(e.what, e.reason) && StateOf(records, e.sequenceId) == Before(e.what)
  }

  /** Why an event that is not legal is refused. */
  function ErrorOf(records: Records, e: Event): LifecycleError
  {
    if e.what == ReportCreated && e.sequenceId in records then DuplicateOrder
    else if e.what != ReportCreated && ProperReason(e.what, e.reason) && e.sequenceId !in records then UnknownOrder
    else InvalidTransition
  }

  function NewRecord(sequenceId: uint64): OrderLifecycleRecord
  {
    OrderLifecycleRecord(sequenceId, Created, RiskNotRejected, NotRejected, CancelNotRejected, AmendNotRejected)
  }

  /** A reject reason stays in the record; only an accepted amend clears one, the amend reason. */
  function Updated(r: OrderLifecycleRecord, t: ExecutionReportType, reason: Reason): OrderLifecycleRecord
  {
    var moved := r.(state := After(t));
    match reason
    case NoReason => if t == ReportAmendAccepted then moved.(amendRejectReason := AmendNotRejected) else moved
    case RiskReason(x) => moved.(riskRejectReason := x)
    case ExchangeReason(x) => moved.(exchangeRejectReason := x)
    case CancelReason(x) => moved.(cancelRejectReason := x)
    case AmendReason(x) => moved.(amendRejectReason := x)
  }

  function Apply(records: Records, e: Event): Records
  {
    var r := if e.sequenceId in records then records[e.sequenceId] else NewRecord(e.sequenceId);
    records[e.sequenceId := Updated(r, e.what, e.reason)]
  }

  /** The journal after the report of an event. */
  function Reported(reports: seq<ExecutionReport>, e: Event): seq<ExecutionReport>
  {
    reports + [ReportOf(|reports| + 1, e.sequenceId, e.what, e.reason)]
  }

  // ---------- counters and errors ----------

  datatype LifecycleCounters = LifecycleCounters(
    registered: nat, queued: nat, riskRejected: nat, sent: nat, exchangeAccepted: nat, exchangeRejected: nat,
    cancelRequests: nat, cancelsAccepted: nat, cancelsRejected: nat,
    amendRequests: nat, amendsAccepted: nat, amendsRejected: nat)

  function Count(c: LifecycleCounters, t: ExecutionReportType): LifecycleCounters
  {
    match t
    case ReportCreated => c.(registered := c.registered + 1)
    case ReportQueued => c.(queued := c.queued + 1)
    case ReportRiskRejected => c.(riskRejected := c.riskRejected + 1)
    case ReportSent => c.(sent := c.sent + 1)
    case ReportExchangeAccepted => c.(exchangeAccepted := c.exchangeAccepted + 1)
    case ReportExchangeRejected => c.(exchangeRejected := c.exchangeRejected + 1)
    case ReportCancelPending => c.(cancelRequests := c.cancelRequests + 1)
    case ReportCancelled => c.(cancelsAccepted := c.cancelsAccepted + 1)
    case ReportCancelRejected => c.(cancelsRejected := c.cancelsRejected + 1)
    case ReportAmendPending => c.(amendRequests := c.amendRequests + 1)
    case ReportAmendAccepted => c.(amendsAccepted := c.amendsAccepted + 1)
    case ReportAmendRejected => c.(amendsRejected := c.amendsRejected + 1)
  }

  datatype LifecycleErrors = LifecycleErrors(
    total: nat, duplicateOrder: nat, unknownOrder: nat, invalidTransition: nat, last: LifecycleError)

  function Failed(errors: LifecycleErrors, error: LifecycleError): LifecycleErrors
  {
    var counted := errors.(total := errors.total + 1, last := error);
    match error
    case DuplicateOrder => counted.(duplicateOrder := errors.duplicateOrder + 1)
    case UnknownOrder => counted.(unknownOrder := errors.unknownOrder + 1)
    case InvalidTransition => counted.(invalidTransition := errors.invalidTransition + 1)
    case NoLifecycleError => counted
  }

  // ---------- the tracker ----------

  /** A tracker's whole state. The history of successful steps is specification only;
      the journal is None when none is attached. */
  datatype Tracker = Tracker(
    history: seq<Event>, records: Records, counters: LifecycleCounters, errors: LifecycleErrors,
    journal: Option<seq<ExecutionReport>>)

  predicate Takes(t: Tracker, e: Event)
  {
    Legal(t.records, e)
  }

  /** A legal event updates the record, its counter and the journal; anything else only counts as an error. */
  function Offer(t: Tracker, e: Event): Tracker
  {
    if !Takes(t, e) then t.(errors := Failed(t.errors, ErrorOf(t.records, e)))
    else Tracker(
      t.history + [e],
      Apply(t.records, e),
      Count(t.counters, e.what),
      t.errors.(last := NoLifecycleError),
      if t.journal.None? then None else Some(Reported(t.journal.value, e)))
  }

  /** Registering and queueing in one call. */
  function Registered(t: Tracker, sequenceId: uint64): Tracker
  {
    var created := Event(sequenceId, ReportCreated, NoReason);
    if Takes(t, created) then Offer(Offer(t, created), Event(sequenceId, ReportQueued, NoReason)) else Offer(t, created)
  }

  const NO_COUNTS := LifecycleCounters(0, 0, 0, 0, 0, 0, 0, 0, 0, 0, 0, 0)

  function FreshTracker(journal: Option<seq<ExecutionReport>>): Tracker
  {
    Tracker([], map[], NO_COUNTS, LifecycleErrors(0, 0, 0, 0, NoLifecycleError), journal)
  }

  class OrderLifecycleTracker {
    ghost var history: seq<Event>

    const executionReports: ExecutionReportJournal?
    var records: Records

    var counters: LifecycleCounters  // the twelve public counters
    var errors: LifecycleErrors      // the four error counters and the last error

    ghost function View(): Tracker
      reads this, executionReports
    {
      Tracker(history, records, counters, errors,
              if executionReports == null then None else Some(executionReports.reports))
    }

    ghost predicate Valid()
      reads this, executionReports
    {
      && errors.total == errors.duplicateOrder + errors.unknownOrder + errors.invalidTransition
      && (executionReports != null ==> executionReports.Valid())
    }

    constructor (executionReports: ExecutionReportJournal?)
      requires executionReports != null ==> executionReports.Valid()
      ensures Valid() && this.executionReports == executionReports
      ensures View() == FreshTracker(if executionReports == null then None else Some(executionReports.reports))
    {
      this.executionReports := executionReports;
      records, history := map[], [];
      counters, errors := NO_COUNTS, LifecycleErrors(0, 0, 0, 0, NoLifecycleError);
    }

    predicate Contains(sequenceId: uint64)
      reads this
    {
      sequenceId in records
    }

    function Find(sequenceId: uint64): Option<OrderLifecycleRecord>
      reads this
    {
      if sequenceId in records then Some(records[sequenceId]) else None
    }

    method Fail(error: LifecycleError) returns (ok: bool)
      modifies this`errors
      ensures !ok && errors == Failed(old(errors), error)
      ensures errors.total == old(errors).total + 1 && errors.last == error
      ensures errors.duplicateOrder == old(errors).duplicateOrder + (if error == DuplicateOrder then 1 else 0)
      ensures errors.unknownOrder == old(errors).unknownOrder + (if error == UnknownOrder then 1 else 0)
      ensures errors.invalidTransition
              == old(errors).invalidTransition + (if error == InvalidTransition then 1 else 0)
    {
      errors := errors.(total := errors.total + 1, last := error);
      match error {
        case DuplicateOrder => errors := errors.(duplicateOrder := errors.duplicateOrder + 1);
        case UnknownOrder => errors := errors.(unknownOrder := errors.unknownOrder + 1);
        case InvalidTransition => errors := errors.(invalidTransition := errors.invalidTransition + 1);
        case NoLifecycleError =>
      }
      ok := false;
    }

    method Transition(sequenceId: uint64, expected: OrderLifecycleState, next: OrderLifecycleState) returns (ok: bool)
      modifies this`records, this`errors
      ensures ok <==> StateOf(old(records), sequenceId) == Some(expected)
      ensures ok ==> records == old(records)[sequenceId := old(records)[sequenceId].(state := next)]
      ensures ok ==> errors == old(errors).(last := NoLifecycleError)
      ensures !ok ==> records == old(records)
      ensures !ok ==> errors == Failed(old(errors), if sequenceId in records then InvalidTransition else UnknownOrder)
    {
      if sequenceId !in records {
        ok := Fail(UnknownOrder);
        return;
      }
      if records[sequenceId].state != expected {
        ok := Fail(InvalidTransition);
        return;
      }
      records := records[sequenceId := records[sequenceId].(state := next)];
      errors := errors.(last := NoLifecycleError);
      ok := true;
    }

    method RegisterCreated(sequenceId: uint64) returns (ok: bool)
      requires Valid()
      modifies this, executionReports
      ensures Valid()
      ensures View() == Offer(old(View()), Event(sequenceId, ReportCreated, NoReason))
      ensures ok <==> Takes(old(View()), Event(sequenceId, ReportCreated, NoReason))
    {
      if sequenceId in records {
        ok := Fail(DuplicateOrder);
        return;
      }
      records := records[sequenceId := NewRecord(sequenceId)];
      counters := counters.(registered := counters.registered + 1);
      errors := errors.(last := NoLifecycleError);
      if executionReports != null {
        executionReports.RecordState(sequenceId, ReportCreated);
      }
      history := history + [Event(sequenceId, ReportCreated, NoReason)];
      ok := true;
    }

    method RegisterQueued(sequenceId: uint64) returns (ok: bool)
      requires Valid()
      modifies this, executionReports
      ensures Valid()
      ensures View() == Registered(old(View()), sequenceId)
      ensures ok <==> sequenceId !in old(records)
    {
      var created := RegisterCreated(sequenceId);
      if !created {
        return false;
      }
      ok := MarkQueued(sequenceId);
    }

    method MarkQueued(sequenceId: uint64) returns (ok: bool)
      requires Valid()
      modifies this, executionReports
      ensures Valid()
      ensures View() == Offer(old(View()), Event(sequenceId, ReportQueued, NoReason))
      ensures ok <==> Takes(old(View()), Event(sequenceId, ReportQueued, NoReason))
    {
      var moved := Transition(sequenceId, Created, Queued);
      if !moved {
        return false;
      }
      counters := counters.(queued := counters.queued + 1);
      if executionReports != null {
        executionReports.RecordState(sequenceId, ReportQueued);
      }
      history := history + [Event(sequenceId, ReportQueued, NoReason)];
      ok := true;
    }

    method MarkRiskRejected(sequenceId: uint64, reason: RiskRejectReason) returns (ok: bool)
      requires Valid()
      modifies this, executionReports
      ensures Valid()
      ensures View() == Offer(old(View()), Event(sequenceId, ReportRiskRejected, RiskReason(reason)))
      ensures ok <==> Takes(old(View()), Event(sequenceId, ReportRiskRejected, RiskReason(reason)))
    {
      if reason == RiskNotRejected {
        ok := Fail(InvalidTransition);
        return;
      }
      var moved := Transition(sequenceId, Queued, RiskRejected);
      if !moved {
        return false;
      }
      records := records[sequenceId := records[sequenceId].(riskRejectReason := reason)];
      assert records
             == old(records)[sequenceId :=
                  Updated(old(records)[sequenceId], ReportRiskRejected, RiskReason(reason))];
      counters := counters.(riskRejected := counters.riskRejected + 1);
      if executionReports != null {
        executionReports.RecordRiskRejected(sequenceId, reason);
      }
      history := history + [Event(sequenceId, ReportRiskRejected, RiskReason(reason))];
      ok := true;
    }

    method MarkSent(sequenceId: uint64) returns (ok: bool)
      requires Valid()
      modifies this, executionReports
      ensures Valid()
      ensures View() == Offer(old(View()), Event(sequenceId, ReportSent, NoReason))
      ensures ok <==> Takes(old(View()), Event(sequenceId, ReportSent, NoReason))
    {
      var moved := Transition(sequenceId, Queued, Sent);
      if !moved {
        return false;
      }
      counters := counters.(sent := counters.sent + 1);
      if executionReports != null {
        executionReports.RecordState(sequenceId, ReportSent);
      }
      history := history + [Event(sequenceId, ReportSent, NoReason)];
      ok := true;
    }

    method MarkExchangeAccepted(sequenceId: uint64) returns (ok: bool)
      requires Valid()
      modifies this, executionReports
      ensures Valid()
      ensures View() == Offer(old(View()), Event(sequenceId, ReportExchangeAccepted, NoReason))
      ensures ok <==> Takes(old(View()), Event(sequenceId, ReportExchangeAccepted, NoReason))
    {
      var moved := Transition(sequenceId, Sent, ExchangeAccepted);
      if !moved {
        return false;
      }
      counters := counters.(exchangeAccepted := counters.exchangeAccepted + 1);
      if executionReports != null {
        executionReports.RecordState(sequenceId, ReportExchangeAccepted);
      }
      history := history + [Event(sequenceId, ReportExchangeAccepted, NoReason)];
      ok := true;
    }

    method MarkExchangeRejected(sequenceId: uint64, reason: OrderRejectReason) returns (ok: bool)
      requires Valid()
      modifies this, executionReports
      ensures Valid()
      ensures View() == Offer(old(View()), Event(sequenceId, ReportExchangeRejected, ExchangeReason(reason)))
      ensures ok <==> Takes(old(View()), Event(sequenceId, ReportExchangeRejected, ExchangeReason(reason)))
    {
      if reason == NotRejected {
        ok := Fail(InvalidTransition);
        return;
      }
      var moved := Transition(sequenceId, Sent, ExchangeRejected);
      if !moved {
        return false;
      }
      records := records[sequenceId := records[sequenceId].(exchangeRejectReason := reason)];
      assert records
             == old(records)[sequenceId :=
                  Updated(old(records)[sequenceId], ReportExchangeRejected, ExchangeReason(reason))];
      counters := counters.(exchangeRejected := counters.exchangeRejected + 1);
      if executionReports != null {
        executionReports.RecordExchangeRejected(sequenceId, reason);
      }
      history := history + [Event(sequenceId, ReportExchangeRejected, ExchangeReason(reason))];
      ok := true;
    }

    method MarkCancelPending(sequenceId: uint64) returns (ok: bool)
      requires Valid()
      modifies this, executionReports
      ensures Valid()
      ensures View() == Offer(old(View()), Event(sequenceId, ReportCancelPending, NoReason))
      ensures ok <==> Takes(old(View()), Event(sequenceId, ReportCancelPending, NoReason))
    {
      var moved := Transition(sequenceId, ExchangeAccepted, CancelPending);
      if !moved {
        return false;
      }
      counters := counters.(cancelRequests := counters.cancelRequests + 1);
      if executionReports != null {
        executionReports.RecordState(sequenceId, ReportCancelPending);
      }
      history := history + [Event(sequenceId, ReportCancelPending, NoReason)];
      ok := true;
    }

    method MarkCancelled(sequenceId: uint64) returns (ok: bool)
      requires Valid()
      modifies this, executionReports
      ensures Valid()
      ensures View() == Offer(old(View()), Event(sequenceId, ReportCancelled, NoReason))
      ensures ok <==> Takes(old(View()), Event(sequenceId, ReportCancelled, NoReason))
    {
      var moved := Transition(sequenceId, CancelPending, Cancelled);
      if !moved {
        return false;
      }
      counters := counters.(cancelsAccepted := counters.cancelsAccepted + 1);
      if executionReports != null {
        executionReports.RecordState(sequenceId, ReportCancelled);
      }
      history := history + [Event(sequenceId, ReportCancelled, NoReason)];
      ok := true;
    }

    method MarkCancelRejected(sequenceId: uint64, reason: CancelRejectReason) returns (ok: bool)
      requires Valid()
      modifies this, executionReports
      ensures Valid()
      ensures View() == Offer(old(View()), Event(sequenceId, ReportCancelRejected, CancelReason(reason)))
      ensures ok <==> Takes(old(View()), Event(sequenceId, ReportCancelRejected, CancelReason(reason)))
    {
      if reason == CancelNotRejected {
        ok := Fail(InvalidTransition);
        return;
      }
      var moved := Transition(sequenceId, CancelPending, ExchangeAccepted);
      if !moved {
        return false;
      }
      records := records[sequenceId := records[sequenceId].(cancelRejectReason := reason)];
      assert records
             == old(records)[sequenceId :=
                  Updated(old(records)[sequenceId], ReportCancelRejected, CancelReason(reason))];
      counters := counters.(cancelsRejected := counters.cancelsRejected + 1);
      if executionReports != null {
        executionReports.RecordCancelRejected(sequenceId, reason);
      }
      history := history + [Event(sequenceId, ReportCancelRejected, CancelReason(reason))];
      ok := true;
    }

    method MarkAmendPending(sequenceId: uint64) returns (ok: bool)
      requires Valid()
      modifies this, executionReports
      ensures Valid()
      ensures View() == Offer(old(View()), Event(sequenceId, ReportAmendPending, NoReason))
      ensures ok <==> Takes(old(View()), Event(sequenceId, ReportAmendPending, NoReason))
    {
      var moved := Transition(sequenceId, ExchangeAccepted, AmendPending);
      if !moved {
        return false;
      }
      counters := counters.(amendRequests := counters.amendRequests + 1);
      if executionReports != null {
        executionReports.RecordState(sequenceId, ReportAmendPending);
      }
      history := history + [Event(sequenceId, ReportAmendPending, NoReason)];
      ok := true;
    }

    method MarkAmendAccepted(sequenceId: uint64) returns (ok: bool)
      requires Valid()
      modifies this, executionReports
      ensures Valid()
      ensures View() == Offer(old(View()), Event(sequenceId, ReportAmendAccepted, NoReason))
      ensures ok <==> Takes(old(View()), Event(sequenceId, ReportAmendAccepted, NoReason))
    {
      var moved := Transition(sequenceId, AmendPending, ExchangeAccepted);
      if !moved {
        return false;
      }
      records := records[sequenceId := records[sequenceId].(amendRejectReason := AmendNotRejected)];
      counters := counters.(amendsAccepted := counters.amendsAccepted + 1);
      if executionReports != null {
        executionReports.RecordState(sequenceId, ReportAmendAccepted);
      }
      history := history + [Event(sequenceId, ReportAmendAccepted, NoReason)];
      ok := true;
    }

    method MarkAmendRejected(sequenceId: uint64, reason: AmendRejectReason) returns (ok: bool)
      requires Valid()
      modifies this, executionReports
      ensures Valid()
      ensures View() == Offer(old(View()), Event(sequenceId, ReportAmendRejected, AmendReason(reason)))
      ensures ok <==> Takes(old(View()), Event(sequenceId, ReportAmendRejected, AmendReason(reason)))
    {
      if reason == AmendNotRejected {
        ok := Fail(InvalidTransition);
        return;
      }
      var moved := Transition(sequenceId, AmendPending, ExchangeAccepted);
      if !moved {
        return false;
      }
      records := records[sequenceId := records[sequenceId].(amendRejectReason := reason)];
      assert records
             == old(records)[sequenceId :=
                  Updated(old(records)[sequenceId], ReportAmendRejected, AmendReason(reason))];
      counters := counters.(amendsRejected := counters.amendsRejected + 1);
      if executionReports != null {
        executionReports.RecordAmendRejected(sequenceId, reason);
      }
      history := history + [Event(sequenceId, ReportAmendRejected, AmendReason(reason))];
      ok := true;
    }
  }
}
