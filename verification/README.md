# Order gateway: a verified model

This project models the execution path of the low-latency order gateway simulator in Dafny 4.11 and
proves properties of it that span its components. An order travels from a bounded queue through
pre-trade risk and the gateway to a simulated exchange; a lifecycle tracker and an append-only journal
record what happens to it; amends and cancels follow it afterwards.

## How the model is organised

| file | models |
|---|---|
| `Messages.dfy`, `FixedSymbol.dfy` | requests, responses, prices with infinities and NaN, owned bounded symbols |
| `RingBuffer.dfy` | the circular buffer over a real array |
| `PreTradeRisk.dfy` | the six ordered risk checks and their counters |
| `ExecutionReport.dfy`, `Text.dfy` | the journal, its names, the one-line text form and a reader for it |
| `OrderLifecycle.dfy`, `LifecycleLaws.dfy` | the nine-state tracker and what holds after every sequence of its calls |
| `ExchangeSimulator.dfy` | the exchange and the meaning of its state in terms of its call history |
| `OrderGateway.dfy`, `OrderPipeline.dfy` | the two-phase gateway, and the pipeline for every wiring of its optional parts |
| `SystemRuns.dfy` | laws of every run of the whole path, whatever is wired to pipeline and gateway |
| `Interleaving.dfy`, `DrainSchedule.dfy` | what commutes for different orders; draining early or late makes no difference |
| `GatewayWiring.dfy` | what a gateway that does not report to the pipeline's tracker changes |
| `OrderBook.dfy`, `SystemLedger.dfy`, `ExecutionSystem.dfy` | the fully wired system as one abstract order book, its cross-component counters, and the same as objects |
| `MarketDataParser.dfy`, `SimpleStrategy.dfy`, `BatchReplay.dfy` | the CSV parser, the demo strategy, and the benchmark's batching loop |

Each component that updates itself in place is a class with its fields; its methods are proved against
functions on a value view of the state (`View()`), and the laws are lemmas about those functions. A
null collaborator is `None` in the view. Public counters that the source keeps as separate members
are kept together in one record field per class.

## Main results

- **One abstract book.** From fresh, fully wired components, after every interleaving of enqueues,
  drains, amends and cancels, the queue, the tracker's records and the exchange's seen ids and active
  orders are four views of one map from id to entry (`OrderBook.SystemSimulatesBook`). Draining acts on
  that map point by point. `ExecutionSystem.TradingSystem` carries the same statement as an object.
- **Schedule independence.** Against a run that drops nothing, another placement of drains among the same
  enqueues, amends and cancels reaches the same final state if and only if it drops nothing either
  (`DrainSchedule.DrainScheduleIndependence`), under every wiring, as long as no order is amended or
  cancelled while it waits. `DrainSchedule.WellPacedSchedulesAgree` gives a condition on the two schedules
  alone; `OrderBook.DrainChangesAnswerIffLive` shows what goes wrong with a waiting order.
- **Split wiring.** A gateway may report its actions to no tracker, or to another one than the pipeline's, as
  in `tests/test_end_to_end_lifecycle.cpp:43-46`. `GatewayWiring.CancelKeepsCoherenceIff` says exactly when
  one cancel separates tracker and exchange, `GatewayWiring.UnsharedActionsAreInvisible` that nothing
  upstream notices, and `GatewayWiring.CoherentIffSharedOrNoCancel` when the views agree after a whole run.
- **Event sourcing.** The journal, and its printed text alone, rebuild the tracker's records after any
  run (`LifecycleLaws.EventSourcing`, `SystemRuns.EveryRunIsSourced`).
- **The language of the tracker.** A history is legal if and only if each order's reports, taken alone,
  form a sentence of the lifecycle grammar (`LifecycleLaws.LegalIffEverySentenceIs`). A further step is
  possible exactly outside three terminal states (`LifecycleLaws.StepExistsIffNotTerminal`).
- **Conservation.** The population of each of the nine states is a balance of public counters
  (`LifecycleLaws.FlowConservation`); pipeline, gateway, risk, tracker and journal numbers determine each
  other (`SystemLedger.EveryRunBalances`, `SystemLedger.JournalArithmetic`).
- **Reachability.** Behind a risk manager the exchange never refuses a submission
  (`SystemLedger.ExchangeNeverRejects`), and no action leaves an order pending
  (`Gateway.ActionsNeverStrand`).
- **Answers and counters.** What each operation answers and counts is also stated without the function it is
  proved against: the risk outcome on the original limits (`PreTradeRisk.OutcomeOnLimits`), amended terms over
  call histories (`Exchange.ActiveTermsAreTheLast`), error kinds over tracker calls
  (`LifecycleLaws.ErrorsCountAnswers`), generated orders over feeds (`Strategy.OrdersBuyTheirSources`).
- **The tracker only watches.** It never changes what a drain does (`SystemRuns.DrainIgnoresTracker`), and none
  of its refusals goes uncounted (`SystemRuns.EveryRefusalIsCounted`).
- **Batching.** The benchmark's run succeeds exactly when its lines parse, no batch overflows the queue and
  no triggering ask price is infinite or NaN, and then the exchange does not depend on the batch size
  (`BatchReplay.RunStabilization`).
- **Exchange history, bounded FIFO, parser round trip, downward-closed risk** are
  `Exchange.ExchangeHistory`, `RingBuffers.FifoKeepsOrder`, `MarketDataParser.ParseInvertsPrint` and
  `PreTradeRisk.AcceptanceIsDownwardClosed`.

## Where code and documentation differ

The model follows the code.

- `docs/architecture.md:70` lists finite prices among the parser's checks. The code compares with `<=` and
  `>` only (`src/market_data_parser.cpp:132-133`), so positive infinity and NaN can pass; negative infinity
  never does. `MarketDataParser.NonFiniteIsAcceptedIff` says exactly which lines get through with a price
  that is not finite.
- `docs/order_lifecycle.md:19` calls exchange_accepted terminal. Since amends and cancels exist it is not;
  the terminal states are risk_rejected, exchange_rejected and cancelled
  (`LifecycleLaws.StepExistsIffNotTerminal`, and `LifecycleLaws.AcceptedIsNotTerminal` for a history).
- `include/llgw/order_pipeline.hpp:40-44` counts a failed registration after a successful push. The branch
  is unreachable, and the model proves so in its place.

## Model

| member | source | states |
|---|---|---|
| RingBuffers.RingBuffer.NextIndex | include/llgw/ring_buffer.hpp:43-45 | the modular successor is the next slot, wrapping to 0 at the capacity |
| RingBuffers.RingBuffer.Push | include/llgw/ring_buffer.hpp:14-23 | fails exactly when the queue holds as many elements as the capacity and then changes nothing; otherwise appends; tail stays (head + size) mod capacity |
| RingBuffers.RingBuffer.Pop | include/llgw/ring_buffer.hpp:25-34 | yields the oldest element, or nothing exactly when the queue is empty |
| RingBuffers.RunCalls | include/llgw/ring_buffer.hpp:14-45 | over any call sequence the real buffer yields and keeps what the bounded FIFO does, across wrap-around |
| RingBuffers.FifoKeepsOrder | include/llgw/ring_buffer.hpp:14-45 | admitted elements are the popped ones followed by the waiting ones, in order, never more than the capacity waiting |
| FixedSymbols.FixedSymbol.Assign | include/llgw/fixed_symbol.hpp:26-39 | accepts exactly values of 1 to 16 characters and otherwise leaves the empty symbol, with the unused storage cleared |
| PreTradeRisk.PreTradeRiskManager.constructor | src/pre_trade_risk.cpp:30-38 | keeps exactly the first min(count, 8) allowlist symbols, each in its place, whatever count is given |
| PreTradeRisk.PreTradeRiskManager.IsAllowedSymbol | src/pre_trade_risk.cpp:78-91 | an empty allowlist allows everything, otherwise membership decides |
| PreTradeRisk.PreTradeRiskManager.Reject | src/pre_trade_risk.cpp:93-123 | one more outcome of that reason in the attribution |
| PreTradeRisk.PreTradeRiskManager.Check | src/pre_trade_risk.cpp:40-76 | the outcome is a function of limits and order, independent of all counters, and is the one outcome added to the history that determines them |
| PreTradeRisk.OutcomeIsFirstFailure | src/pre_trade_risk.cpp:40-76 | a reason is the outcome exactly when the order fails that check and no earlier one |
| PreTradeRisk.AllowlistOnLimits | src/pre_trade_risk.cpp:78-91 | a manager built from limits fails an order's allowlist check exactly when the count is positive and none of the first min(count, 8) symbols is the order's |
| PreTradeRisk.OutcomeOnLimits | src/pre_trade_risk.cpp:30-91 | each of the seven outcomes as a condition on the original limits and the order |
| PreTradeRisk.AcceptedIffNothingViolated | src/pre_trade_risk.cpp:40-76 | acceptance means that no check fails |
| PreTradeRisk.AcceptanceIsDownwardClosed | src/pre_trade_risk.cpp:51-68 | if an order is accepted, so is any order of the same symbol with smaller or equal positive price and quantity, given only monotone rounding |
| PreTradeRisk.CountersAreMultiplicities | src/pre_trade_risk.cpp:93-123 | each counter is the number of times its outcome occurred |
| PreTradeRisk.AttributionIsComplete | src/pre_trade_risk.cpp:93-123 | checked = accepted + rejected, and the six reason counters sum to rejected |
| ExecutionReports.TypeNamesAreInjective | src/execution_report.cpp:78-107 | no two report types share a name |
| ExecutionReports.SourceNamesAreInjective | src/execution_report.cpp:109-124 | no two reject sources share a name |
| ExecutionReports.ReasonsAreInjectivePerSource | src/execution_report.cpp:8-53 | within one source a reason string names one reason, although strings repeat across sources |
| ExecutionReports.TypeRoundTrip | src/execution_report.cpp:78-107 | each type is written as the text that the reader's own table lists for it |
| ExecutionReports.SourceRoundTrip | src/execution_report.cpp:109-124 | the same for each reject source |
| ExecutionReports.ReasonRoundTrip | src/execution_report.cpp:8-53 | each reason is written as the text that the reader's own table for its source lists for it |
| ExecutionReports.ReasonStringsArePrintable | src/execution_report.cpp:8-53 | no reason string holds a space, line break or control character |
| ExecutionReports.FormatRoundTrip | src/execution_report.cpp:126-136 | a reader with its own tables of keys, types and sources gets the report back from its line |
| ExecutionReports.LogRoundTrip | src/main.cpp:101-105 | reading a whole printed log, one indented report a line, gives the journal back |
| ExecutionReports.ExecutionReportJournal.Record | src/execution_report.cpp:202-226 | appends one report with the next one-based gapless index; the counters stay the counts of rejections, actions and the rest |
| ExecutionReports.ExecutionReportJournal.RecordState | src/execution_report.cpp:138-146 | appends a report without a reason |
| ExecutionReports.ExecutionReportJournal.RecordRiskRejected | src/execution_report.cpp:148-156 | appends a report of source risk from which the reason can be read back |
| ExecutionReports.ExecutionReportJournal.RecordExchangeRejected | src/execution_report.cpp:158-166 | the same for the exchange |
| ExecutionReports.ExecutionReportJournal.RecordCancelRejected | src/execution_report.cpp:168-176 | the same for cancels |
| ExecutionReports.ExecutionReportJournal.RecordAmendRejected | src/execution_report.cpp:178-186 | the same for amends |
| ExecutionReports.ExecutionReportJournal.ReportsFor | src/execution_report.cpp:188-200 | the loop computes the selection of one order's reports |
| ExecutionReports.MatchingIsOrderedSelection | src/execution_report.cpp:188-200 | that selection holds exactly the order's reports, with strictly increasing event index |
| OrderLifecycle.OrderLifecycleTracker.Transition | src/order_lifecycle.cpp:344-361 | moves the record exactly when it exists in the expected state; otherwise changes no record and names the error |
| OrderLifecycle.OrderLifecycleTracker.Fail | src/order_lifecycle.cpp:363-383 | adds one to the total and one to the counter of its own kind only, and remembers the kind |
| OrderLifecycle.OrderLifecycleTracker.RegisterCreated | src/order_lifecycle.cpp:49-70 | succeeds exactly for a new id; record, counter and journal move together, or only an error is counted |
| OrderLifecycle.OrderLifecycleTracker.RegisterQueued | src/order_lifecycle.cpp:72-79 | succeeds exactly for a new id, and then makes both steps |
| OrderLifecycle.OrderLifecycleTracker.MarkQueued | src/order_lifecycle.cpp:81-99 | legal only from created; all-or-nothing on record, counter and journal |
| OrderLifecycle.OrderLifecycleTracker.MarkRiskRejected | src/order_lifecycle.cpp:101-125 | legal only from queued with a proper reason, which record and journal keep |
| OrderLifecycle.OrderLifecycleTracker.MarkSent | src/order_lifecycle.cpp:127-145 | legal only from queued; all-or-nothing |
| OrderLifecycle.OrderLifecycleTracker.MarkExchangeAccepted | src/order_lifecycle.cpp:147-165 | legal only from sent; all-or-nothing |
| OrderLifecycle.OrderLifecycleTracker.MarkExchangeRejected | src/order_lifecycle.cpp:167-191 | legal only from sent with a proper reason, which record and journal keep |
| OrderLifecycle.OrderLifecycleTracker.MarkCancelPending | src/order_lifecycle.cpp:193-211 | legal only from exchange_accepted; all-or-nothing |
| OrderLifecycle.OrderLifecycleTracker.MarkCancelled | src/order_lifecycle.cpp:213-231 | legal only from cancel_pending; all-or-nothing |
| OrderLifecycle.OrderLifecycleTracker.MarkCancelRejected | src/order_lifecycle.cpp:233-257 | rolls back to exchange_accepted with the reason kept |
| OrderLifecycle.OrderLifecycleTracker.MarkAmendPending | src/order_lifecycle.cpp:259-277 | legal only from exchange_accepted; all-or-nothing |
| OrderLifecycle.OrderLifecycleTracker.MarkAmendAccepted | src/order_lifecycle.cpp:279-299 | returns to exchange_accepted and clears the amend reason |
| OrderLifecycle.OrderLifecycleTracker.MarkAmendRejected | src/order_lifecycle.cpp:301-325 | rolls back to exchange_accepted with the reason kept |
| LifecycleLaws.RefusedStepChangesNothing | src/order_lifecycle.cpp:344-383 | a step is refused exactly when records and journal stay the same, and then exactly one error is counted |
| LifecycleLaws.CallsKeepSound | src/order_lifecycle.cpp:49-325 | after any calls, failing ones included, records, counters and journal are functions of the steps that succeeded |
| LifecycleLaws.ErrorsCountAnswers | src/order_lifecycle.cpp:344-383 | over any calls: duplicates count registrations of known ids, unknowns the other properly reasoned steps of unknown ids, invalid transitions the remaining refusals; the last error is the answer to the last call |
| LifecycleLaws.CountersAreStepCounts | src/order_lifecycle.cpp:49-325 | each of the twelve counters is the number of successful steps of its kind |
| LifecycleLaws.EventSourcing | src/order_lifecycle.cpp:49-325 | folding the journal, or the text of the printed journal, from the empty map rebuilds the records exactly |
| LifecycleLaws.JournalReasonsFit | src/order_lifecycle.cpp:101-125 | after any calls a journal entry has a reject source and a reason other than none exactly when it reports a rejection, and the source of that rejection |
| LifecycleLaws.RecordRemembersLastReasons | src/order_lifecycle.cpp:101-125 | each of the four reasons in a record is the last one reported for its source; only an accepted amend ever clears one, the amend reason |
| LifecycleLaws.FlowConservation | src/order_lifecycle.cpp:49-325 | for each of the nine states the number of orders in it is the signed sum of public counters |
| LifecycleLaws.StepExistsIffNotTerminal | src/order_lifecycle.cpp:344-361 | an order can make a further legal step exactly when it is not risk_rejected, exchange_rejected or cancelled |
| LifecycleLaws.TerminalIsForever | src/order_lifecycle.cpp:49-325 | no sequence of calls touches the record of an order in one of these three states |
| LifecycleLaws.AcceptedIsNotTerminal | src/order_lifecycle.cpp:193-231 | a legal history that rests in exchange_accepted and goes on to cancelled, against docs/order_lifecycle.md:19 |
| LifecycleLaws.LegalIffEverySentenceIs | src/order_lifecycle.cpp:344-361 | the legal histories are exactly the interleavings of lifecycle sentences with proper reasons |
| LifecycleLaws.HistoryLanguage | src/order_lifecycle.cpp:72-325 | after any calls the journal's reports for an order form a sentence of the grammar |
| LifecycleLaws.WordsLeadToStates | src/order_lifecycle.cpp:344-361 | an order's state is where its own reports lead |
| Exchange.ExchangeSimulator.SubmitOrder | src/exchange_simulator.cpp:7-45 | accepts exactly well-formed orders with an unseen id, marks the id seen and stores the order; the non-replacing insertion always inserts; a refusal changes nothing |
| Exchange.ExchangeSimulator.CancelOrder | src/exchange_simulator.cpp:47-66 | removes exactly that active order and keeps its id seen; accepted exactly when it was active |
| Exchange.ExchangeSimulator.AmendOrder | src/exchange_simulator.cpp:68-103 | an accepted amend puts exactly the new price and quantity under the id and changes neither its id, symbol and side nor any other order; a refused one changes nothing |
| Exchange.AmendReplacesTerms | src/exchange_simulator.cpp:75-103 | the same about the state function: the two terms replaced and nothing else, or no change at all |
| Exchange.Placement | src/exchange_simulator.cpp:7-45 | the first well-formed submission of an id in a call history |
| Exchange.ExchangeHistory | src/exchange_simulator.cpp:7-103 | over any calls: an id is seen exactly when some submission of it was well-formed, active exactly when no cancel followed the first such one, and the active order is that submission with the last proper terms since |
| Exchange.ActiveTermsAreTheLast | src/exchange_simulator.cpp:68-103 | over any calls an active order has the price and quantity of the last proper amend after its placement, or the submitted ones when there is none |
| Exchange.ActionsAnsweredByHistory | src/exchange_simulator.cpp:47-103 | over any calls, each answer to a cancel or an amend: unknown unless the id is open, then price, then quantity |
| Exchange.AcceptedIffFirstPlacement | src/exchange_simulator.cpp:12-38 | a submission is accepted exactly when it is well-formed and no earlier one of its id was, a duplicate exactly when one was; an ill-formed one does not burn its id; each refusal reason is characterised |
| Exchange.RepricedKeepsIdentity | src/exchange_simulator.cpp:97-98 | amends never change id, symbol or side |
| Exchange.ClosedStaysClosed | src/exchange_simulator.cpp:30-66 | a cancelled id never becomes active again |
| Gateway.OrderGateway.SendOrder | src/order_gateway.cpp:13-38 | the exchange's verdict, or invalid_symbol without an exchange, counted once as accepted or rejected |
| Gateway.OrderGateway.SendCancel | src/order_gateway.cpp:40-89 | the tracker's consent first, then the exchange, then settlement, with the reply each failure gives; settling a pending action never adds an error |
| Gateway.OrderGateway.SendAmend | src/order_gateway.cpp:91-140 | the tracker's consent first, then the exchange, then settlement, with the reply each failure gives; settling a pending action never adds an error |
| Gateway.CancelAnswers | src/order_gateway.cpp:40-89 | each answer to a cancel for every wiring: invalid_state, unknown_order or accepted |
| Gateway.AmendAnswers | src/order_gateway.cpp:91-140 | each answer to an amend for every wiring |
| Gateway.CallsAreCounted | src/order_gateway.cpp:13-140 | every call adds one to its sent counter and one to accepted or rejected, by its answer, and to no other |
| Gateway.CancelSettlesItsRecord | src/order_gateway.cpp:60-86 | a settled cancel leaves the order cancelled, or as it was but for the reported cancel reason; no other record changes |
| Gateway.AmendSettlesItsRecord | src/order_gateway.cpp:111-137 | a settled amend leaves its record as it was but for the amend reason, which is the answer |
| Gateway.CancelNeverStrands | src/order_gateway.cpp:40-89 | from any tracker and exchange state, null exchange included: a cancel bounces, exactly when the order is not exchange_accepted, and touches nothing, or ends with the order cancelled or accepted |
| Gateway.AmendNeverStrands | src/order_gateway.cpp:91-140 | the same for amends, which always end with the order accepted |
| Gateway.ActionsNeverStrand | src/order_gateway.cpp:40-140 | after any sequence of actions no order is pending, if none was before |
| Gateway.ErrorsCountBounces | src/order_gateway.cpp:40-140 | from any tracker and exchange state, a sequence of actions moves the gateway's and the tracker's error counters by the number of bounces |
| Pipeline.OrderPipeline.Enqueue | include/llgw/order_pipeline.hpp:26-47 | admits exactly unknown ids while there is room, then queues and registers; for every wiring; a registration after a push never fails |
| Pipeline.OrderPipeline.Drain | include/llgw/order_pipeline.hpp:49-127 | terminates, returns the old size, leaves the queue empty, and its whole effect is the left fold of the single-order step over the queue, oldest first |
| Pipeline.DrainedHead | include/llgw/order_pipeline.hpp:52-56 | dispatching the oldest order first and draining the rest is draining |
| Pipeline.UnreachableExchangeRejects | include/llgw/order_pipeline.hpp:87-100 | without a gateway, or an exchange behind it, an order that risk accepts ends exchange_rejected with invalid_symbol |
| DrainSchedule.EarlyDrainIsHarmless | include/llgw/order_pipeline.hpp:26-127 | draining before an enqueue changes nothing observable after the next drain |
| DrainSchedule.DispatchAndArriveCommute | include/llgw/order_pipeline.hpp:26-127 | the dispatch of one order and the arrival of another commute up to interleaving |
| DrainSchedule.DispatchAndActCommute | include/llgw/order_pipeline.hpp:49-127 | the dispatch of one order and an amend or cancel of another commute up to interleaving, for every wiring |
| Interleaving.ActionAndOfferCommute | src/order_gateway.cpp:40-140 | an action and a tracker step of another order commute up to interleaving |
| Interleaving.ActionAndSubmitCommute | src/exchange_simulator.cpp:7-103 | an action and a submission of another order commute exactly, with the same replies |
| DrainSchedule.DrainScheduleIndependence | include/llgw/order_pipeline.hpp:26-127 | given a run without drops, another placement of drains among the same enqueues, amends and cancels ends in the same state if and only if it has no drops; for every wiring, actions being about orders that do not wait |
| DrainSchedule.WellPacedSchedulesAgree | include/llgw/order_pipeline.hpp:26-127 | from an empty queue, two placements of drains end alike if each has at most capacity enqueues between drains and no action on an id enqueued since the last one |
| DrainSchedule.JournalsDifferOnlyInInterleaving | src/execution_report.cpp:202-226 | the two journals hold the same reports per order in the same order, up to event index |
| SystemRuns.EveryRunIsSound | src/order_lifecycle.cpp:49-325 | flow conservation and the lifecycle grammar after every run of the whole path, for the pipeline's tracker and for the one the gateway reports to, be it the same, another or none |
| SystemRuns.EveryRunIsSourced | src/execution_report.cpp:126-226 | after every run the journal and its printed text rebuild the records, and an order's entries are its sentence |
| SystemRuns.EveryRunConserves | include/llgw/order_pipeline.hpp:26-127 | enqueued = drained + queued, drained = accepted + rejected, rejected = by risk + by gateway, gateway sent = drained - by risk, and the risk manager's books agree; kept from any such state, fresh components being one, whatever pipeline and gateway are wired to |
| SystemRuns.DrainIgnoresTracker | include/llgw/order_pipeline.hpp:49-127 | a drain does the same to risk manager, gateway, exchange and order counters whatever the tracker holds, and when there is none |
| SystemRuns.StrangersAreReported | include/llgw/order_pipeline.hpp:61-123 | an order that the tracker does not know is reported at each step all the same, and each refusal is counted |
| SystemRuns.EveryRefusalIsCounted | include/llgw/order_pipeline.hpp:40-123 | after any run, under every wiring, the tracker's error total is the pipeline's lifecycle errors plus, for a shared tracker, the gateway's |
| SystemRuns.FreshCountsRefusals | include/llgw/order_pipeline.hpp:18-24 | fresh components are in a state from which that law holds |
| SystemRuns.ArrivalsAreAttributed | include/llgw/order_pipeline.hpp:26-38 | each attempt is enqueued, dropped or rejected by lifecycle, and the two failure counters count full-buffer and known-id attempts; whatever pipeline and gateway are wired to |
| GatewayWiring.CancelKeepsCoherenceIff | tests/test_end_to_end_lifecycle.cpp:43-46 | from any coherent state a cancel keeps queue, records and exchange in agreement if and only if the gateway shares the pipeline's tracker, the exchange has no such order, or the gateway's own tracker bounces it |
| GatewayWiring.AmendKeepsCoherence | src/order_gateway.cpp:91-140 | an amend keeps them in agreement under every wiring of the gateway |
| GatewayWiring.UnsharedActionsAreInvisible | tests/test_end_to_end_lifecycle.cpp:88-90 | behind a gateway that does not share the tracker, a run without its amends and cancels has the same queue, records, journal, risk outcomes, pipeline counters and seen ids |
| GatewayWiring.CancelledAreGone | src/exchange_simulator.cpp:7-66 | in every run under every wiring, seen ids = active orders + cancels accepted |
| GatewayWiring.UnsharedRunDriftsByCancels | tests/test_end_to_end_lifecycle.cpp:112-114 | after any run behind such a gateway the tracker shows as accepted all active orders and as many gone ones as cancels were accepted |
| GatewayWiring.CoherentIffSharedOrNoCancel | tests/test_end_to_end_lifecycle.cpp:43-46 | after any run from fresh components the views agree if and only if the tracker is shared or no cancel was accepted |
| GatewayWiring.Cancel | src/order_gateway.cpp:40-89 | on objects, whatever is wired: a cancel through the gateway changes the pipeline's whole view as the run model says |
| GatewayWiring.Amend | src/order_gateway.cpp:91-140 | the same for amends |
| OrderBook.EnqueueRefines | include/llgw/order_pipeline.hpp:26-47 | enqueueing adds a waiting entry to the abstract book, with the same answer |
| OrderBook.DispatchSettles | include/llgw/order_pipeline.hpp:58-123 | dispatching the oldest order settles its entry by its fate and no other entry |
| OrderBook.DrainRefines | include/llgw/order_pipeline.hpp:49-127 | draining settles every waiting entry of the book independently |
| OrderBook.AmendRefines | src/order_gateway.cpp:91-140 | an amend changes the terms of a live entry or only its last reason, with the book's answer |
| OrderBook.BookAmendReplacesTerms | src/exchange_simulator.cpp:97-98 | on the book an accepted amend leaves the live entry with exactly the new price and quantity, id, symbol and side unchanged, and no other entry changed |
| OrderBook.CancelRefines | src/order_gateway.cpp:40-89 | a cancel closes a live entry and is never refused by the exchange, with the book's answer |
| OrderBook.SystemSimulatesBook | src/main.cpp:15-36 | forward simulation of every interleaving of commands from fresh components by the abstract book |
| OrderBook.EveryRunIsCoherent | include/llgw/order_pipeline.hpp:26-127 | queued ids are distinct and exactly the queued records; active ids are the accepted ones; seen ids the accepted and cancelled ones; nothing rests in a transient state; the pipeline's lifecycle errors stay 0 |
| OrderBook.DrainChangesAnswerIffLive | src/order_gateway.cpp:40-140 | a cancel or amend of a waiting order bounces, and after a drain it does not exactly when the order went live |
| OrderBook.ExchangeRefusesIffUnchecked | src/exchange_simulator.cpp:12-28 | an order reaches the exchange only to be refused exactly when there is no risk manager and it is ill-formed |
| OrderBook.LiveIffWithinLimits | src/pre_trade_risk.cpp:40-76 | an order goes live exactly when it is within every risk limit at admission |
| SystemLedger.EveryRunBalances | src/order_gateway.cpp:13-140 | tracker, pipeline and gateway counters and the history length determine each other after every wired run |
| SystemLedger.JournalArithmetic | src/execution_report.cpp:202-226 | length, rejections and actions of the journal as the pipeline's and the gateway's counters predict, with gapless indexes |
| SystemLedger.ExchangeNeverRejects | include/llgw/order_pipeline.hpp:61-123 | behind a risk manager exchange_rejected is unreachable and the gateway rejection counters stay 0 |
| ExecutionSystem.Assemble | src/main.cpp:15-36 | the demo wiring yields a system whose book is empty |
| ExecutionSystem.TradingSystem.Enqueue | include/llgw/order_pipeline.hpp:26-47 | as an object, the wired system enqueues like the book and stays coherent and balanced |
| ExecutionSystem.TradingSystem.Drain | include/llgw/order_pipeline.hpp:49-127 | as an object, it drains like the book and returns the number of waiting entries |
| ExecutionSystem.TradingSystem.SendAmend | src/order_gateway.cpp:91-140 | as an object, it amends and answers like the book, with the request's id and the matching accepted flag |
| ExecutionSystem.TradingSystem.SendCancel | src/order_gateway.cpp:40-89 | as an object, it cancels and answers like the book, with the request's id and the matching accepted flag |
| ExecutionSystem.TradingSystem.QueriesReadBook | src/order_lifecycle.cpp:327-342 | the tracker finds the record of every entry of the book, and the exchange an active order exactly under a live entry, with its current terms |
| MarketDataParser.UnsignedExactly | src/market_data_parser.cpp:25-47 | a field parses exactly when it is a non-empty digit string whose value fits the width |
| MarketDataParser.SplitCsvLine | src/market_data_parser.cpp:56-80 | the loop succeeds exactly on lines with five commas and delivers the pieces between them |
| MarketDataParser.ParseMarketDataLine | src/market_data_parser.cpp:84-141 | the result depends on the line alone, through its comma-separated pieces |
| MarketDataParser.StatusExplained | src/market_data_parser.cpp:84-141 | exactly when each of the five statuses is reported, and with what update |
| MarketDataParser.AcceptedIff | src/market_data_parser.cpp:84-141 | a line is accepted exactly when it has six fields, a symbol, numbers everywhere, positive sizes, and prices that are finite, positive and in order or that slip past every comparison as NonFiniteIsAcceptedIff lists |
| MarketDataParser.ParseInvertsPrint | src/market_data_parser.cpp:84-141 | printing then parsing any admissible update is the identity, with or without one trailing carriage return |
| MarketDataParser.AcceptedLine | src/market_data_parser.cpp:56-141 | joining the pieces of an accepted line gives the line back |
| MarketDataParser.NonFiniteIsAcceptedIff | src/market_data_parser.cpp:84-141 | exactly the lines that are accepted with a price that is not finite; on an accepted line it means a NaN or an ask of positive infinity |
| MarketDataParser.FinitePromiseIffCodecIsFinite | src/market_data_parser.cpp:132-133 | so all accepted prices are finite if and only if the number conversion never yields positive infinity or NaN for a field |
| Text.JoinOfSplit | src/market_data_parser.cpp:56-80 | splitting loses nothing, leaves no delimiter in a piece, and makes one piece more than there are delimiters |
| Text.SplitOfJoin | src/market_data_parser.cpp:56-80 | splitting inverts joining of delimiter-free pieces |
| Strategy.SimpleStrategy.OnMarketData | src/simple_strategy.cpp:12-33 | an order results exactly when the spread is wide and the symbol has 1 to 16 characters: a buy of ten of that symbol at the ask, under the id that was next; a wide spread consumes an id either way, and the 64-bit id wraps |
| Strategy.IdsIncrease | src/simple_strategy.cpp:12-33 | until the id counter wraps, generated ids strictly increase and the counters count signals and orders |
| Strategy.OrdersBuyTheirSources | src/simple_strategy.cpp:12-33 | whatever the feed, the orders are buys of the tradable updates, one each, in feed order, with ids that count the wide spreads before |
| Strategy.SourcesAreTradable | src/simple_strategy.cpp:12-33 | those updates are exactly the tradable ones, in increasing position |
| BatchReplay.SystemState.ProcessEvents | benchmarks/bench_end_to_end.cpp:469-517 | a batch completes exactly when its lines parse and its orders fit the pipeline, and then leaves the state its events alone determine |
| BatchReplay.RunStabilization | benchmarks/bench_end_to_end.cpp:585-621 | for every feed, event count and batch size: no exit, the final validation included, if and only if the lines parse, no batch overflows the pipeline and no order is triggered at a non-finite ask; then the exchange does not depend on the batch size |
| BatchReplay.GoodFeedSucceeds | benchmarks/bench_end_to_end.cpp:585-621 | a feed of parsing lines with finite asks meets that condition for every event count and batch size from 1 to the capacity |
| BatchReplay.UpdatesReplayFeed | benchmarks/bench_end_to_end.cpp:469-486 | event k reads line k modulo the number of lines |
| BatchReplay.AllAcceptedIffSubmittable | src/exchange_simulator.cpp:7-45 | orders with increasing ids are all accepted exactly when each is well-formed |
| BatchReplay.DrainFlows | benchmarks/bench_end_to_end.cpp:515-516 | draining sends the whole queue, and each order is accepted or rejected as the exchange would after the ones before it |
| BatchReplay.FilledHoldsAll | src/exchange_simulator.cpp:40 | the final exchange holds every well-formed generated order under its id |

## Left out

- `src/feed_replay.cpp` and the printing in `src/main.cpp`, except the lines of the report log: file input and console output.
- The rest of `benchmarks/`: clocks, percentiles, metadata, argument parsing, and the checksum, which does depend on the batch size.
- Binary64 rounding and decimal conversion: `RiskConfig.times`, `SpreadTest` and `PriceCodec` are parameters, constrained only where a lemma says so.
- Hashing and allocation: hash maps and sets are mathematical maps and sets.
- Concurrency, networking, persistence, fills and matching: the repository has none.
- Overflow of 64-bit counters: counters are natural numbers, which assumes fewer than 2^64 operations; sequence ids are 64-bit, and their wrap-around is modelled in the strategy.
- Equality operators of FixedSymbol: a symbol inside a request is the string it shows, compared as a string.
- A journal written by anything but the one tracker it is attached to: the event-sourcing results assume a journal that starts empty and has no other writer, and two trackers in one wiring have different journals, of which the model follows the pipeline's.
- DrainSchedule.DrainScheduleIndependence: does not compare the tracker's most recent error code, which is overwritten by every call.
- BatchReplay.RunStabilization: returns false where the benchmark would exit the process, does not say which message it prints, and does not compute the checksum.
- Method boundaries: the body of the drain loop and the two phases of cancels and amends are split into smaller methods; the order of their effects is the source's.
