/** Structured execution reports: the append-only journal, the names it uses,
    and the one-line text form of a report. */
module ExecutionReports {
  import opened Messages
  import opened Text

  datatype ExecutionReportType =
    | ReportCreated
    | ReportQueued
    | ReportRiskRejected
    | ReportSent
    | ReportExchangeAccepted
    | ReportExchangeRejected
    | ReportCancelPending
    | ReportCancelled
    | ReportCancelRejected
    | ReportAmendPending
    | ReportAmendAccepted
    | ReportAmendRejected

  datatype ExecutionRejectSource = SourceNone | SourceRisk | SourceExchange | SourceCancel | SourceAmend

  datatype ExecutionReport = ExecutionReport(
    eventIndex: nat, sequenceId: uint64, reportType: ExecutionReportType,
    rejectSource: ExecutionRejectSource, rejectReason: string)

  /** The reason behind a report, before it is flattened into a source and a string. */
  datatype Reason =
    | NoReason
    | RiskReason(risk: RiskRejectReason)
    | ExchangeReason(order: OrderRejectReason)
    | CancelReason(cancel: CancelRejectReason)
    | AmendReason(amend: AmendRejectReason)

  // ---------- names ----------

  function RiskReasonString(reason: RiskRejectReason): string
  {
    match reason
    case RiskNotRejected => "none"
    case RiskInvalidSymbol => "invalid_symbol"
    case RiskInvalidPrice => "invalid_price"
    case RiskInvalidQuantity => "invalid_quantity"
    case RiskQuantityLimit => "quantity_limit"
    case RiskNotionalLimit => "notional_limit"
    case RiskSymbolNotAllowed => "symbol_not_allowed"
  }

  function OrderReasonString(reason: OrderRejectReason): string
  {
    match reason
    case NotRejected => "none"
    case InvalidSymbol => "invalid_symbol"
    case InvalidPrice => "invalid_price"
    case InvalidQuantity => "invalid_quantity"
    case DuplicateSequence => "duplicate_sequence"
  }

  function CancelReasonString(reason: CancelRejectReason): string
  {
    match reason
    case CancelNotRejected => "none"
    case CancelUnknownOrder => "unknown_order"
    case CancelInvalidState => "invalid_state"
  }

  function AmendReasonString(reason: AmendRejectReason): string
  {
    match reason
    case AmendNotRejected => "none"
    case AmendUnknownOrder => "unknown_order"
    case AmendInvalidPrice => "invalid_price"
    case AmendInvalidQuantity => "invalid_quantity"
    case AmendInvalidState => "invalid_state"
  }

  function TypeName(t: ExecutionReportType): string
  {
    match t
    case ReportCreated => "created"
    case ReportQueued => "queued"
    case ReportRiskRejected => "risk_rejected"
    case ReportSent => "sent"
    case ReportExchangeAccepted => "exchange_accepted"
    case ReportExchangeRejected => "exchange_rejected"
    case ReportCancelPending => "cancel_pending"
    case ReportCancelled => "cancelled"
    case ReportCancelRejected => "cancel_rejected"
    case ReportAmendPending => "amend_pending"
    case ReportAmendAccepted => "amend_accepted"
    case ReportAmendRejected => "amend_rejected"
  }

  function SourceName(s: ExecutionRejectSource): string
  {
    match s
    case SourceNone => "none"
    case SourceRisk => "risk"
    case SourceExchange => "exchange"
    case SourceCancel => "cancel"
    case SourceAmend => "amend"
  }

  predicate IsActionReport(t: ExecutionReportType)
  {
    match t
    case ReportCancelPending | ReportCancelled | ReportCancelRejected
       | ReportAmendPending | ReportAmendAccepted | ReportAmendRejected => true
    case _ => false
  }

  function SourceOf(reason: Reason): ExecutionRejectSource
  {
    match reason
    case NoReason => SourceNone
    case RiskReason(_) => SourceRisk
    case ExchangeReason(_) => SourceExchange
    case CancelReason(_) => SourceCancel
    case AmendReason(_) => SourceAmend
  }

  function ReasonString(reason: Reason): string
  {
    match reason
    case NoReason => "none"
    case RiskReason(r) => RiskReasonString(r)
    case ExchangeReason(r) => OrderReasonString(r)
    case CancelReason(r) => CancelReasonString(r)
    case AmendReason(r) => AmendReasonString(r)
  }

  // ---------- reading names back ----------

  /** The reader's own dictionaries of the written names. */
  const TYPE_TABLE: seq<(string, ExecutionReportType)> :=
    [("created", ReportCreated), ("queued", ReportQueued), ("risk_rejected", ReportRiskRejected),
     ("sent", ReportSent), ("exchange_accepted", ReportExchangeAccepted),
     ("exchange_rejected", ReportExchangeRejected), ("cancel_pending", ReportCancelPending),
     ("cancelled", ReportCancelled), ("cancel_rejected", ReportCancelRejected),
     ("amend_pending", ReportAmendPending), ("amend_accepted", ReportAmendAccepted),
     ("amend_rejected", ReportAmendRejected)]

  const SOURCE_TABLE: seq<(string, ExecutionRejectSource)> :=
    [("none", SourceNone), ("risk", SourceRisk), ("exchange", SourceExchange), ("cancel", SourceCancel),
     ("amend", SourceAmend)]

  const NO_REASON_TABLE: seq<(string, Reason)> := [("none", NoReason)]

  const RISK_TABLE: seq<(string, Reason)> :=
    [("none", RiskReason(RiskNotRejected)), ("invalid_symbol", RiskReason(RiskInvalidSymbol)),
     ("invalid_price", RiskReason(RiskInvalidPrice)), ("invalid_quantity", RiskReason(RiskInvalidQuantity)),
     ("quantity_limit", RiskReason(RiskQuantityLimit)), ("notional_limit", RiskReason(RiskNotionalLimit)),
     ("symbol_not_allowed", RiskReason(RiskSymbolNotAllowed))]

  const EXCHANGE_TABLE: seq<(string, Reason)> :=
    [("none", ExchangeReason(NotRejected)), ("invalid_symbol", ExchangeReason(InvalidSymbol)),
     ("invalid_price", ExchangeReason(InvalidPrice)), ("invalid_quantity", ExchangeReason(InvalidQuantity)),
     ("duplicate_sequence", ExchangeReason(DuplicateSequence))]

  const CANCEL_TABLE: seq<(string, Reason)> :=
    [("none", CancelReason(CancelNotRejected)), ("unknown_order", CancelReason(CancelUnknownOrder)),
     ("invalid_state", CancelReason(CancelInvalidState))]

  const AMEND_TABLE: seq<(string, Reason)> :=
    [("none", AmendReason(AmendNotRejected)), ("unknown_order", AmendReason(AmendUnknownOrder)),
     ("invalid_price", AmendReason(AmendInvalidPrice)), ("invalid_quantity", AmendReason(AmendInvalidQuantity)),
     ("invalid_state", AmendReason(AmendInvalidState))]

  /** The first entry under this text. */
  function Lookup<T>(table: seq<(string, T)>, text: string): Option<T>
  {
    if table == [] then None
    else if table[0].0 == text then Some(table[0].1)
    else Lookup(table[1..], text)
  }

  /** A table whose texts are distinct is read exactly by its entries. */
  lemma {:induction false} LookupFinds<T>(table: seq<(string, T)>, k: nat)
    requires k < |table| && forall i :: 0 <= i < k ==> table[i].0 != table[k].0
    ensures Lookup(table, table[k].0) == Some(table[k].1)
  {
    if k > 0 {
      LookupFinds(table[1..], k - 1);
    }
  }

  function ParseType(s: string): Option<ExecutionReportType>
  {
    Lookup(TYPE_TABLE, s)
  }

  function ParseSource(s: string): Option<ExecutionRejectSource>
  {
    Lookup(SOURCE_TABLE, s)
  }

  /** A reason string means something only together with the source that reported it. */
  function ParseReason(source: ExecutionRejectSource, s: string): Option<Reason>
  {
    match source
    case SourceNone => Lookup(NO_REASON_TABLE, s)
    case SourceRisk => Lookup(RISK_TABLE, s)
    case SourceExchange => Lookup(EXCHANGE_TABLE, s)
    case SourceCancel => Lookup(CANCEL_TABLE, s)
    case SourceAmend => Lookup(AMEND_TABLE, s)
  }

  lemma TypeRoundTrip(t: ExecutionReportType)
    ensures ParseType(TypeName(t)) == Some(t)
  {
    var k := match t
      case ReportCreated => 0
      case ReportQueued => 1
      case ReportRiskRejected => 2
      case ReportSent => 3
      case ReportExchangeAccepted => 4
      case ReportExchangeRejected => 5
      case ReportCancelPending => 6
      case ReportCancelled => 7
      case ReportCancelRejected => 8
      case ReportAmendPending => 9
      case ReportAmendAccepted => 10
      case ReportAmendRejected => 11;
    TypeTextsDiffer(k);
    LookupFinds(TYPE_TABLE, k);
  }

  lemma TypeTextsDiffer(k: nat)
    requires k < |TYPE_TABLE|
    ensures forall i :: 0 <= i < k ==> TYPE_TABLE[i].0 != TYPE_TABLE[k].0
  {
    forall i | 0 <= i < k
      ensures TYPE_TABLE[i].0 != TYPE_TABLE[k].0
    {
      var s, t := TYPE_TABLE[i].0, TYPE_TABLE[k].0;
      assert |s| != |t| || s[0] != t[0] || s[|s| - 3] != t[|t| - 3] || s[|s| - 8] != t[|t| - 8];
    }
  }

  lemma SourceRoundTrip(source: ExecutionRejectSource)
    ensures ParseSource(SourceName(source)) == Some(source)
  {
    var k := match source case SourceNone => 0 case SourceRisk => 1 case SourceExchange => 2
                          case SourceCancel => 3 case SourceAmend => 4;
    forall i | 0 <= i < k
      ensures SOURCE_TABLE[i].0 != SOURCE_TABLE[k].0
    {
      assert SOURCE_TABLE[i].0[0] != SOURCE_TABLE[k].0[0];
    }
    LookupFinds(SOURCE_TABLE, k);
  }

  lemma RiskReasonRoundTrip(reason: RiskRejectReason)
    ensures Lookup(RISK_TABLE, RiskReasonString(reason)) == Some(RiskReason(reason))
  {
    var k := match reason case RiskNotRejected => 0 case RiskInvalidSymbol => 1 case RiskInvalidPrice => 2
                          case RiskInvalidQuantity => 3 case RiskQuantityLimit => 4 case RiskNotionalLimit => 5
                          case RiskSymbolNotAllowed => 6;
    forall i | 0 <= i < k
      ensures RISK_TABLE[i].0 != RISK_TABLE[k].0
    {
      assert |RISK_TABLE[i].0| != |RISK_TABLE[k].0| || RISK_TABLE[i].0[0] != RISK_TABLE[k].0[0];
    }
    LookupFinds(RISK_TABLE, k);
  }

  lemma ExchangeReasonRoundTrip(reason: OrderRejectReason)
    ensures Lookup(EXCHANGE_TABLE, OrderReasonString(reason)) == Some(ExchangeReason(reason))
  {
    var k := match reason case NotRejected => 0 case InvalidSymbol => 1 case InvalidPrice => 2
                          case InvalidQuantity => 3 case DuplicateSequence => 4;
    forall i | 0 <= i < k
      ensures EXCHANGE_TABLE[i].0 != EXCHANGE_TABLE[k].0
    {
      assert |EXCHANGE_TABLE[i].0| != |EXCHANGE_TABLE[k].0|;
    }
    LookupFinds(EXCHANGE_TABLE, k);
  }

  lemma CancelReasonRoundTrip(reason: CancelRejectReason)
    ensures Lookup(CANCEL_TABLE, CancelReasonString(reason)) == Some(CancelReason(reason))
  {
    var k := match reason case CancelNotRejected => 0 case CancelUnknownOrder => 1 case CancelInvalidState => 2;
    forall i | 0 <= i < k
      ensures CANCEL_TABLE[i].0 != CANCEL_TABLE[k].0
    {
      assert CANCEL_TABLE[i].0[0] != CANCEL_TABLE[k].0[0];
    }
    LookupFinds(CANCEL_TABLE, k);
  }

  lemma AmendReasonRoundTrip(reason: AmendRejectReason)
    ensures Lookup(AMEND_TABLE, AmendReasonString(reason)) == Some(AmendReason(reason))
  {
    var k := match reason case AmendNotRejected => 0 case AmendUnknownOrder => 1 case AmendInvalidPrice => 2
                          case AmendInvalidQuantity => 3 case AmendInvalidState => 4;
    forall i | 0 <= i < k
      ensures AMEND_TABLE[i].0 != AMEND_TABLE[k].0
    {
      var s, t := AMEND_TABLE[i].0, AMEND_TABLE[k].0;
      assert |s| != |t| || s[0] != t[0] || s[8] != t[8];
    }
    LookupFinds(AMEND_TABLE, k);
  }

  /** The reader understands every reason the writer spells, although texts repeat across sources. */
  lemma ReasonRoundTrip(reason: Reason)
    ensures ParseReason(SourceOf(reason), ReasonString(reason)) == Some(reason)
  {
    match reason
    case NoReason => LookupFinds(NO_REASON_TABLE, 0);
    case RiskReason(r) => RiskReasonRoundTrip(r);
    case ExchangeReason(r) => ExchangeReasonRoundTrip(r);
    case CancelReason(r) => CancelReasonRoundTrip(r);
    case AmendReason(r) => AmendReasonRoundTrip(r);
  }

  /** So no two report types share a name. */
  lemma TypeNamesAreInjective(a: ExecutionReportType, b: ExecutionReportType)
    requires TypeName(a) == TypeName(b)
    ensures a == b
  {
    hide TypeName, ParseType;
    TypeRoundTrip(a);
    TypeRoundTrip(b);
  }

  lemma SourceNamesAreInjective(a: ExecutionRejectSource, b: ExecutionRejectSource)
    requires SourceName(a) == SourceName(b)
    ensures a == b
  {
    hide SourceName, ParseSource;
    SourceRoundTrip(a);
    SourceRoundTrip(b);
  }

  /** Within one source a text names one reason. */
  lemma ReasonsAreInjectivePerSource(a: Reason, b: Reason)
    requires SourceOf(a) == SourceOf(b) && ReasonString(a) == ReasonString(b)
    ensures a == b
  {
    hide SourceOf, ReasonString, ParseReason;
    ReasonRoundTrip(a);
    ReasonRoundTrip(b);
  }

  /** No space, line break or other control character. */
  predicate Printable(s: string)
  {
    forall i :: 0 <= i < |s| ==> s[i] > ' '
  }

  lemma TypeNamesArePrintable(t: ExecutionReportType)
    ensures Printable(TypeName(t))
  {
    match t case _ =>
  }

  lemma SourceNamesArePrintable(source: ExecutionRejectSource)
    ensures Printable(SourceName(source))
  {
    match source case _ =>
  }

  lemma RiskReasonStringsArePrintable(reason: RiskRejectReason)
    ensures Printable(RiskReasonString(reason))
  {
    match reason case _ =>
  }

  lemma OrderReasonStringsArePrintable(reason: OrderRejectReason)
    ensures Printable(OrderReasonString(reason))
  {
    match reason case _ =>
  }

  lemma ActionReasonStringsArePrintable(cancel: CancelRejectReason, amend: AmendRejectReason)
    ensures Printable(CancelReasonString(cancel)) && Printable(AmendReasonString(amend))
  {
    match cancel { case _ => }
    match amend { case _ => }
  }

  lemma ReasonStringsArePrintable(reason: Reason)
    ensures Printable(ReasonString(reason))
  {
    match reason
    case NoReason =>
    case RiskReason(r) => RiskReasonStringsArePrintable(r);
    case ExchangeReason(r) => OrderReasonStringsArePrintable(r);
    case CancelReason(r) => ActionReasonStringsArePrintable(r, AmendNotRejected);
    case AmendReason(r) => ActionReasonStringsArePrintable(CancelNotRejected, r);
  }

  // ---------- the text form of one report ----------

  function FormatExecutionReport(r: ExecutionReport): string
  {
    "event=" + Decimal(r.eventIndex)
    + " sequence_id=" + Decimal(r.sequenceId)
    + " type=" + TypeName(r.reportType)
    + " reject_source=" + SourceName(r.rejectSource)
    + " reject_reason=" + r.rejectReason
  }

  const KEYS: seq<string> := ["event=", "sequence_id=", "type=", "reject_source=", "reject_reason="]

  function FieldsOf(r: ExecutionReport): (fields: seq<string>)
    ensures |fields| == 5
  {
    [KEYS[0] + Decimal(r.eventIndex), KEYS[1] + Decimal(r.sequenceId), KEYS[2] + TypeName(r.reportType),
     KEYS[3] + SourceName(r.rejectSource), KEYS[4] + r.rejectReason]
  }

  function ValueOf(field: string, key: string): Option<string>
  {
    if |key| <= |field| && field[..|key|] == key then Some(field[|key|..]) else None
  }

  function ParseNumber(s: Option<string>): Option<nat>
  {
    if s.Some? && s.value != "" && AllDigits(s.value) then Some(DecimalValue(s.value)) else None
  }

  /** Reads a printed report back from its five space-separated key=value fields. */
  function ParseExecutionReport(line: string): Option<ExecutionReport>
  {
    var fields := Split(line, ' ');
    if |fields| != 5 then None else
      var index := ParseNumber(ValueOf(fields[0], KEYS[0]));
      var id := ParseNumber(ValueOf(fields[1], KEYS[1]));
      var typeName := ValueOf(fields[2], KEYS[2]);
      var sourceName := ValueOf(fields[3], KEYS[3]);
      var reason := ValueOf(fields[4], KEYS[4]);
      if index.None? || id.None? || typeName.None? || sourceName.None? || reason.None? then None
      else if id.value >= 0x1_0000_0000_0000_0000 then None
      else
        var t, source := ParseType(typeName.value), ParseSource(sourceName.value);
        if t.None? || source.None? then None
        else Some(ExecutionReport(index.value, id.value, t.value, source.value, reason.value))
  }

  lemma DigitsArePrintable(s: string)
    requires AllDigits(s)
    ensures Printable(s)
  {
  }

  lemma FieldsArePrintable(r: ExecutionReport)
    requires Printable(r.rejectReason)
    ensures forall i :: 0 <= i < 5 ==> Printable(FieldsOf(r)[i])
  {
    DigitsArePrintable(Decimal(r.eventIndex));
    DigitsArePrintable(Decimal(r.sequenceId));
    TypeNamesArePrintable(r.reportType);
    SourceNamesArePrintable(r.rejectSource);
    forall i | 0 <= i < 5
      ensures Printable(KEYS[i])
    {
    }
    forall i | 0 <= i < 5
      ensures Printable(FieldsOf(r)[i])
    {
    }
  }

  lemma JoinOfFive(a: string, b: string, c: string, d: string, e: string)
    ensures Join([a, b, c, d, e], ' ') == a + (" " + b) + (" " + c) + (" " + d) + (" " + e)
  {
    var f := [a, b, c, d, e];
    assert f[1..] == [b, c, d, e] && f[1..][1..] == [c, d, e] && [c, d, e][1..] == [d, e] && [d, e][1..] == [e];
    assert Join([d, e], ' ') == d + " " + e;
    assert Join([c, d, e], ' ') == c + " " + Join([d, e], ' ');
    assert Join([b, c, d, e], ' ') == b + " " + Join([c, d, e], ' ');
  }

  lemma Regroup(front: string, spacedKey: string, key: string, value: string)
    requires spacedKey == " " + key
    ensures front + spacedKey + value == front + (" " + (key + value))
  {
  }

  lemma FormatJoinsFields(r: ExecutionReport)
    ensures FormatExecutionReport(r) == Join(FieldsOf(r), ' ')
  {
    var f := FieldsOf(r);
    JoinOfFive(f[0], f[1], f[2], f[3], f[4]);
    assert [f[0], f[1], f[2], f[3], f[4]] == f;
    var front := f[0];
    Regroup(front, " sequence_id=", KEYS[1], Decimal(r.sequenceId));
    front := front + (" " + f[1]);
    Regroup(front, " type=", KEYS[2], TypeName(r.reportType));
    front := front + (" " + f[2]);
    Regroup(front, " reject_source=", KEYS[3], SourceName(r.rejectSource));
    front := front + (" " + f[3]);
    Regroup(front, " reject_reason=", KEYS[4], r.rejectReason);
  }

  lemma ValueRoundTrip(key: string, value: string)
    ensures ValueOf(key + value, key) == Some(value)
  {
  }

  /** The printed line determines the report, for every report whose reason is printable; every
      reason the journal records is of that kind. */
  lemma FormatRoundTrip(r: ExecutionReport)
    requires Printable(r.rejectReason)
    ensures ParseExecutionReport(FormatExecutionReport(r)) == Some(r)
  {
    FieldsArePrintable(r);
    FormatJoinsFields(r);
    SplitOfJoin(FieldsOf(r), ' ');
    DecimalRoundTrip(r.eventIndex);
    DecimalRoundTrip(r.sequenceId);
    ValueRoundTrip(KEYS[0], Decimal(r.eventIndex));
    ValueRoundTrip(KEYS[1], Decimal(r.sequenceId));
    ValueRoundTrip(KEYS[2], TypeName(r.reportType));
    ValueRoundTrip(KEYS[3], SourceName(r.rejectSource));
    ValueRoundTrip(KEYS[4], r.rejectReason);
    TypeRoundTrip(r.reportType);
    SourceRoundTrip(r.rejectSource);
  }

  // ---------- the text form of a journal, one report a line ----------

  function LogLine(r: ExecutionReport): string
  {
    "  " + FormatExecutionReport(r)
  }

  function ParseLogLine(line: string): Option<ExecutionReport>
  {
    if |line| >= 2 && line[0] == line[1] == ' ' then ParseExecutionReport(line[2..]) else None
  }

  lemma LogLineRoundTrip(r: ExecutionReport)
    requires Printable(r.rejectReason)
    ensures ParseLogLine(LogLine(r)) == Some(r) && '\n' !in LogLine(r)
  {
    hide FormatExecutionReport, ParseExecutionReport, Printable;
    FormatRoundTrip(r);
    FormatHasNoLineBreak(r);
    assert LogLine(r)[2..] == FormatExecutionReport(r);
  }

  function PrintLog(reports: seq<ExecutionReport>): (lines: seq<string>)
    ensures |lines| == |reports| + 1
  {
    if reports == [] then [""] else [LogLine(reports[0])] + PrintLog(reports[1..])
  }

  function ParseLines(lines: seq<string>): Option<seq<ExecutionReport>>
  {
    if |lines| <= 1 then if lines == [""] then Some([]) else None
    else
      var first, rest := ParseLogLine(lines[0]), ParseLines(lines[1..]);
      if first.None? || rest.None? then None else Some([first.value] + rest.value)
  }

  /** The log as written: every report indented and followed by a line break. */
  function PrintedLog(reports: seq<ExecutionReport>): string
  {
    Join(PrintLog(reports), '\n')
  }

  function ParseLog(text: string): Option<seq<ExecutionReport>>
  {
    ParseLines(Split(text, '\n'))
  }

  ghost predicate AllPrintable(reports: seq<ExecutionReport>)
  {
    forall i :: 0 <= i < |reports| ==> Printable(reports[i].rejectReason)
  }

  lemma FormatHasNoLineBreak(r: ExecutionReport)
    requires Printable(r.rejectReason)
    ensures '\n' !in FormatExecutionReport(r)
  {
    FieldsArePrintable(r);
    var f := FieldsOf(r);
    FormatJoinsFields(r);
    JoinAvoids(f, ' ', '\n');
  }

  lemma {:induction false} JoinAvoids(pieces: seq<string>, c: char, avoided: char)
    requires |pieces| >= 1 && avoided != c && AllFree(pieces, avoided)
    ensures avoided !in Join(pieces, c)
  {
    if |pieces| > 1 {
      JoinAvoids(pieces[1..], c, avoided);
    }
  }

  lemma {:induction false} LinesRoundTrip(reports: seq<ExecutionReport>)
    requires AllPrintable(reports)
    ensures AllFree(PrintLog(reports), '\n')
    ensures ParseLines(PrintLog(reports)) == Some(reports)
  {
    hide LogLine, ParseLogLine, Printable;
    if reports != [] {
      LinesRoundTrip(reports[1..]);
      LogLineRoundTrip(reports[0]);
      assert PrintLog(reports)[1..] == PrintLog(reports[1..]);
      assert reports == [reports[0]] + reports[1..];
    }
  }

  lemma LogRoundTrip(reports: seq<ExecutionReport>)
    requires AllPrintable(reports)
    ensures ParseLog(PrintedLog(reports)) == Some(reports)
  {
    LinesRoundTrip(reports);
    SplitOfJoin(PrintLog(reports), '\n');
  }

  // ---------- counting and selecting reports ----------

  function CountRejections(reports: seq<ExecutionReport>): nat
  {
    if reports == [] then 0
    else CountRejections(reports[..|reports| - 1]) + if reports[|reports| - 1].rejectSource != SourceNone then 1 else 0
  }

  function CountActions(reports: seq<ExecutionReport>): nat
  {
    if reports == [] then 0
    else CountActions(reports[..|reports| - 1]) + if IsActionReport(reports[|reports| - 1].reportType) then 1 else 0
  }

  lemma CountsAppend(reports: seq<ExecutionReport>, r: ExecutionReport)
    ensures CountRejections(reports + [r]) == CountRejections(reports) + if r.rejectSource != SourceNone then 1 else 0
    ensures CountActions(reports + [r]) == CountActions(reports) + if IsActionReport(r.reportType) then 1 else 0
  {
    assert (reports + [r])[..|reports|] == reports;
  }

  function Matching(reports: seq<ExecutionReport>, sequenceId: uint64): seq<ExecutionReport>
  {
    if reports == [] then []
    else
      var last := reports[|reports| - 1];
      Matching(reports[..|reports| - 1], sequenceId) + if last.sequenceId == sequenceId then [last] else []
  }

  ghost predicate Indexed(reports: seq<ExecutionReport>)
  {
    forall i :: 0 <= i < |reports| ==> reports[i].eventIndex == i + 1
  }

  /** A filtered copy holds exactly the reports of the order, in journal order. */
  lemma {:induction false} MatchingIsOrderedSelection(reports: seq<ExecutionReport>, sequenceId: uint64)
    requires Indexed(reports)
    ensures var m := Matching(reports, sequenceId);
            && (forall r :: r in m <==> r in reports && r.sequenceId == sequenceId)
            && (forall i, j :: 0 <= i < j < |m| ==> m[i].eventIndex < m[j].eventIndex)
  {
    if reports != [] {
      var front, last := reports[..|reports| - 1], reports[|reports| - 1];
      MatchingIsOrderedSelection(front, sequenceId);
      assert reports == front + [last];
      assert forall r :: r in front ==> r.eventIndex < last.eventIndex;
    }
  }

  // ---------- the journal ----------

  class ExecutionReportJournal {
    var reports: seq<ExecutionReport>
    var nextEventIndex: nat
    var reportsRecorded: nat
    var rejectionReports: nat
    var orderReports: nat
    var actionReports: nat

    /** Event indexes are one-based and gapless, and the counters partition the reports. */
    ghost predicate Valid()
      reads this
    {
      && Indexed(reports)
      && nextEventIndex == |reports| + 1
      && reportsRecorded == |reports|
      && rejectionReports == CountRejections(reports)
      && actionReports == CountActions(reports)
      && orderReports + actionReports == |reports|
    }

    constructor ()
      ensures Valid() && reports == []
    {
      reports := [];
      nextEventIndex := 1;
      reportsRecorded, rejectionReports, orderReports, actionReports := 0, 0, 0, 0;
    }

    method Record(sequenceId: uint64, reportType: ExecutionReportType, source: ExecutionRejectSource, reason: string)
      requires Valid()
      modifies this
      ensures Valid()
      ensures reports == old(reports)
                         + [ExecutionReport(|old(reports)| + 1, sequenceId, reportType, source, reason)]
    {
      var report := ExecutionReport(nextEventIndex, sequenceId, reportType, source, reason);
      CountsAppend(reports, report);
      nextEventIndex := nextEventIndex + 1;
      reports := reports + [report];
      reportsRecorded := reportsRecorded + 1;
      if source != SourceNone {
        rejectionReports := rejectionReports + 1;
      }
      if IsActionReport(reportType) {
        actionReports := actionReports + 1;
      } else {
        orderReports := orderReports + 1;
      }
    }

    method RecordState(sequenceId: uint64, reportType: ExecutionReportType)
      requires Valid()
      modifies this
      ensures Valid()
      ensures reports == old(reports) + [ReportOf(|old(reports)| + 1, sequenceId, reportType, NoReason)]
    {
      Record(sequenceId, reportType, SourceNone, "none");
    }

    method RecordRiskRejected(sequenceId: uint64, reason: RiskRejectReason)
      requires Valid()
      modifies this
      ensures Valid()
      ensures reports == old(reports)
                         + [ReportOf(|old(reports)| + 1, sequenceId, ReportRiskRejected, RiskReason(reason))]
    {
      Record(sequenceId, ReportRiskRejected, SourceRisk, RiskReasonString(reason));
    }

    method RecordExchangeRejected(sequenceId: uint64, reason: OrderRejectReason)
      requires Valid()
      modifies this
      ensures Valid()
      ensures reports == old(reports)
                         + [ReportOf(|old(reports)| + 1, sequenceId, ReportExchangeRejected, ExchangeReason(reason))]
    {
      Record(sequenceId, ReportExchangeRejected, SourceExchange, OrderReasonString(reason));
    }

    method RecordCancelRejected(sequenceId: uint64, reason: CancelRejectReason)
      requires Valid()
      modifies this
      ensures Valid()
      ensures reports == old(reports)
                         + [ReportOf(|old(reports)| + 1, sequenceId, ReportCancelRejected, CancelReason(reason))]
    {
      Record(sequenceId, ReportCancelRejected, SourceCancel, CancelReasonString(reason));
    }

    method RecordAmendRejected(sequenceId: uint64, reason: AmendRejectReason)
      requires Valid()
      modifies this
      ensures Valid()
      ensures reports == old(reports)
                         + [ReportOf(|old(reports)| + 1, sequenceId, ReportAmendRejected, AmendReason(reason))]
    {
      Record(sequenceId, ReportAmendRejected, SourceAmend, AmendReasonString(reason));
    }

    method ReportsFor(sequenceId: uint64) returns (matches: seq<ExecutionReport>)
      ensures matches == Matching(reports, sequenceId)
    {
      matches := [];
      for i := 0 to |reports|
        invariant matches == Matching(reports[..i], sequenceId)
      {
        assert reports[..i + 1][..i] == reports[..i];
        if reports[i].sequenceId == sequenceId {
          matches := matches + [reports[i]];
        }
      }
      assert reports[..|reports|] == reports;
    }
  }

  function ReportOf(index: nat, sequenceId: uint64, t: ExecutionReportType, reason: Reason): ExecutionReport
  {
    ExecutionReport(index, sequenceId, t, SourceOf(reason), ReasonString(reason))
  }
}
