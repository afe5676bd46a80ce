/** The pre-trade risk layer: six ordered checks on each order, with attribution counters. */
module PreTradeRisk {
  import opened Messages

  const MAX_ALLOWED_SYMBOLS := 8

  type SymbolTable = s: seq<string> | |s| == MAX_ALLOWED_SYMBOLS witness seq(MAX_ALLOWED_SYMBOLS, _ => "")

  datatype RiskLimits = RiskLimits(
    maxOrderQuantity: uint32, maxOrderNotional: Price, allowedSymbols: SymbolTable, allowedSymbolCount: nat)

  datatype RiskDecision = RiskDecision(accepted: bool, rejectReason: RiskRejectReason)

  /** What a decision depends on. `times` is the platform's rounded product of a finite
      price and an integral quantity. */
  datatype RiskConfig = RiskConfig(
    maxOrderQuantity: uint32, maxOrderNotional: Price, allowed: seq<string>, times: (real, uint32) -> Price)

  function Clamped(limits: RiskLimits): (symbols: seq<string>)
    ensures KeepsAllowlist(symbols, limits)
  {
    limits.allowedSymbols[..if limits.allowedSymbolCount < MAX_ALLOWED_SYMBOLS
                            then limits.allowedSymbolCount else MAX_ALLOWED_SYMBOLS]
  }

  /** Exactly the first min(count, 8) symbols, each in its place. */
  ghost predicate KeepsAllowlist(symbols: seq<string>, limits: RiskLimits)
  {
    && (limits.allowedSymbolCount <= 8 ==> |symbols| == limits.allowedSymbolCount)
    && (limits.allowedSymbolCount > 8 ==> |symbols| == 8)
    && forall i :: 0 <= i < |symbols| ==> symbols[i] == limits.allowedSymbols[i]
  }

  /** What a manager built from these limits decides by. */
  function ConfigOf(limits: RiskLimits, times: (real, uint32) -> Price): RiskConfig
  {
    RiskConfig(limits.maxOrderQuantity, limits.maxOrderNotional, Clamped(limits), times)
  }

  /** Whether an order fails the check that `reason` names, regardless of the other checks. */
  predicate Violates(config: RiskConfig, request: OrderRequest, reason: RiskRejectReason)
  {
    match reason
    case RiskNotRejected => false
    case RiskInvalidSymbol => request.symbol == ""
    case RiskInvalidPrice => !Positive(request.price)
    case RiskInvalidQuantity => request.quantity == 0
    case RiskQuantityLimit => request.quantity > config.maxOrderQuantity
    case RiskNotionalLimit =>
      request.price.Finite? &&
      var notional := config.times(request.price.value, request.quantity);
      !notional.Finite? || Above(notional, config.maxOrderNotional)
    case RiskSymbolNotAllowed => config.allowed != [] && request.symbol !in config.allowed
  }

  /** The first check the order fails, in the documented order. */
  function Assess(config: RiskConfig, request: OrderRequest): RiskRejectReason
  {
    if Violates(config, request, RiskInvalidSymbol) then RiskInvalidSymbol
    else if Violates(config, request, RiskInvalidPrice) then RiskInvalidPrice
    else if Violates(config, request, RiskInvalidQuantity) then RiskInvalidQuantity
    else if Violates(config, request, RiskQuantityLimit) then RiskQuantityLimit
    else if Violates(config, request, RiskNotionalLimit) then RiskNotionalLimit
    else if Violates(config, request, RiskSymbolNotAllowed) then RiskSymbolNotAllowed
    else RiskNotRejected
  }

  // ---------- attribution ----------

  datatype RiskCounters = RiskCounters(
    accepted: nat, rejected: nat, invalidSymbol: nat, invalidPrice: nat,
    invalidQuantity: nat, quantityLimit: nat, notionalLimit: nat, symbolNotAllowed: nat)

  const NO_DECISIONS := RiskCounters(0, 0, 0, 0, 0, 0, 0, 0)

  function Attribute(c: RiskCounters, reason: RiskRejectReason): RiskCounters
  {
    match reason
    case RiskNotRejected => c.(accepted := c.accepted + 1)
    case RiskInvalidSymbol => c.(rejected := c.rejected + 1, invalidSymbol := c.invalidSymbol + 1)
    case RiskInvalidPrice => c.(rejected := c.rejected + 1, invalidPrice := c.invalidPrice + 1)
    case RiskInvalidQuantity => c.(rejected := c.rejected + 1, invalidQuantity := c.invalidQuantity + 1)
    case RiskQuantityLimit => c.(rejected := c.rejected + 1, quantityLimit := c.quantityLimit + 1)
    case RiskNotionalLimit => c.(rejected := c.rejected + 1, notionalLimit := c.notionalLimit + 1)
    case RiskSymbolNotAllowed => c.(rejected := c.rejected + 1, symbolNotAllowed := c.symbolNotAllowed + 1)
  }

  /** The counters after a sequence of outcomes. */
  function Attributed(decisions: seq<RiskRejectReason>): RiskCounters
  {
    if decisions == [] then NO_DECISIONS
    else Attribute(Attributed(decisions[..|decisions| - 1]), decisions[|decisions| - 1])
  }

  lemma AttributedAppend(decisions: seq<RiskRejectReason>, reason: RiskRejectReason)
    ensures Attributed(decisions + [reason]) == Attribute(Attributed(decisions), reason)
  {
    assert (decisions + [reason])[..|decisions|] == decisions;
  }

  /** Every order checked is accepted or rejected, and every rejection has exactly one reason. */
  lemma {:induction false} AttributionIsComplete(decisions: seq<RiskRejectReason>)
    ensures var c := Attributed(decisions);
            && c.accepted + c.rejected == |decisions|
            && c.rejected == c.invalidSymbol + c.invalidPrice + c.invalidQuantity
                           + c.quantityLimit + c.notionalLimit + c.symbolNotAllowed
  {
    if decisions != [] {
      AttributionIsComplete(decisions[..|decisions| - 1]);
    }
  }

  /** Every counter is the number of times its outcome occurred. */
  lemma {:induction false} CountersAreMultiplicities(decisions: seq<RiskRejectReason>)
    ensures var c, m := Attributed(decisions), multiset(decisions);
            && c.accepted == m[RiskNotRejected]
            && c.invalidSymbol == m[RiskInvalidSymbol] && c.invalidPrice == m[RiskInvalidPrice]
            && c.invalidQuantity == m[RiskInvalidQuantity] && c.quantityLimit == m[RiskQuantityLimit]
            && c.notionalLimit == m[RiskNotionalLimit] && c.symbolNotAllowed == m[RiskSymbolNotAllowed]
  {
    if decisions != [] {
      var front, last := decisions[..|decisions| - 1], decisions[|decisions| - 1];
      assert decisions == front + [last];
      CountersAreMultiplicities(front);
      match last case _ =>
    }
  }

  class PreTradeRiskManager {
    ghost var decisions: seq<RiskRejectReason>  // one outcome per Check, oldest first

    const maxOrderQuantity: uint32
    const maxOrderNotional: Price
    const times: (real, uint32) -> Price
    const allowedSymbols: array<string>
    const allowedSymbolCount: nat

    var ordersChecked: nat
    var counters: RiskCounters  // accepted, rejected, and one counter per reason

    ghost predicate Shaped()
    {
      allowedSymbols.Length == MAX_ALLOWED_SYMBOLS && allowedSymbolCount <= MAX_ALLOWED_SYMBOLS
    }

    ghost predicate Valid()
      reads this
    {
      Shaped() && counters == Attributed(decisions) && ordersChecked == |decisions|
    }

    ghost function Config(): RiskConfig
      requires Shaped()
      reads allowedSymbols
    {
      RiskConfig(maxOrderQuantity, maxOrderNotional, allowedSymbols[..allowedSymbolCount], times)
    }

    constructor (limits: RiskLimits, times: (real, uint32) -> Price)
      ensures Valid() && decisions == [] && fresh(allowedSymbols)
      ensures Config() == ConfigOf(limits, times)
      ensures KeepsAllowlist(Config().allowed, limits)
    {
      maxOrderQuantity := limits.maxOrderQuantity;
      maxOrderNotional := limits.maxOrderNotional;
      this.times := times;
      allowedSymbols := new string[MAX_ALLOWED_SYMBOLS](_ => "");
      allowedSymbolCount := if limits.allowedSymbolCount < MAX_ALLOWED_SYMBOLS
                            then limits.allowedSymbolCount else MAX_ALLOWED_SYMBOLS;
      ordersChecked, counters := 0, NO_DECISIONS;
      decisions := [];
      new;
      for i := 0 to allowedSymbolCount
        invariant allowedSymbols[..i] == limits.allowedSymbols[..i]
        invariant fresh(allowedSymbols)
        modifies allowedSymbols
      {
        allowedSymbols[i] := limits.allowedSymbols[i];
      }
    }

    method IsAllowedSymbol(request: OrderRequest) returns (allowed: bool)
      requires Shaped()
      ensures allowed <==> !Violates(Config(), request, RiskSymbolNotAllowed)
    {
      if allowedSymbolCount == 0 {
        return true;
      }
      for i := 0 to allowedSymbolCount
        invariant request.symbol !in allowedSymbols[..i]
      {
        if request.symbol == allowedSymbols[i] {
          assert request.symbol in allowedSymbols[..allowedSymbolCount];
          return true;
        }
      }
      allowed := false;
    }

    /** Books the rejection of the order being checked under its reason. */
    method Reject(reason: RiskRejectReason) returns (decision: RiskDecision)
      requires reason != RiskNotRejected
      requires Shaped() && counters == Attributed(decisions) && ordersChecked == |decisions| + 1
      modifies this
      ensures Valid() && decisions == old(decisions) + [reason]
      ensures decision == RiskDecision(false, reason)
    {
      hide Attributed;
      ghost var before := counters;
      counters := counters.(rejected := counters.rejected + 1);
      match reason {
        case RiskInvalidSymbol => counters := counters.(invalidSymbol := counters.invalidSymbol + 1);
        case RiskInvalidPrice => counters := counters.(invalidPrice := counters.invalidPrice + 1);
        case RiskInvalidQuantity => counters := counters.(invalidQuantity := counters.invalidQuantity + 1);
        case RiskQuantityLimit => counters := counters.(quantityLimit := counters.quantityLimit + 1);
        case RiskNotionalLimit => counters := counters.(notionalLimit := counters.notionalLimit + 1);
        case RiskSymbolNotAllowed => counters := counters.(symbolNotAllowed := counters.symbolNotAllowed + 1);
      }
      assert counters == Attribute(before, reason);
      AttributedAppend(decisions, reason);
      decisions := decisions + [reason];
      decision := RiskDecision(false, reason);
    }

    /** The decision depends on the limits and the order only, never on the counters. */
    method Check(request: OrderRequest) returns (decision: RiskDecision)
      requires Valid()
      modifies this
      ensures Valid()
      ensures decision.rejectReason == Assess(Config(), request)
      ensures decision.accepted <==> decision.rejectReason == RiskNotRejected
      ensures decisions == old(decisions) + [decision.rejectReason]
    {
      hide Attributed;
      ordersChecked := ordersChecked + 1;
      if request.symbol == "" {
        decision := Reject(RiskInvalidSymbol);
        return;
      }
      if !request.price.Finite? || AtMost(request.price, ZERO) {
        decision := Reject(RiskInvalidPrice);
        return;
      }
      if request.quantity == 0 {
        decision := Reject(RiskInvalidQuantity);
        return;
      }
      if request.quantity > maxOrderQuantity {
        decision := Reject(RiskQuantityLimit);
        return;
      }
      var notional := times(request.price.value, request.quantity);
      if !notional.Finite? || Above(notional, maxOrderNotional) {
        decision := Reject(RiskNotionalLimit);
        return;
      }
      var allowed := IsAllowedSymbol(request);
      if !allowed {
        decision := Reject(RiskSymbolNotAllowed);
        return;
      }
      counters := counters.(accepted := counters.accepted + 1);
      AttributedAppend(decisions, RiskNotRejected);
      decisions := decisions + [RiskNotRejected];
      decision := RiskDecision(true, RiskNotRejected);
    }
  }

  // ---------- what acceptance means ----------

  /** The documented position of each check. */
  function CheckPosition(reason: RiskRejectReason): nat
  {
    match reason
    case RiskInvalidSymbol => 1
    case RiskInvalidPrice => 2
    case RiskInvalidQuantity => 3
    case RiskQuantityLimit => 4
    case RiskNotionalLimit => 5
    case RiskSymbolNotAllowed => 6
    case RiskNotRejected => 7
  }

  /** The outcome names the first check that fails; an order that fails none is accepted. */
  lemma OutcomeIsFirstFailure(config: RiskConfig, request: OrderRequest, reason: RiskRejectReason)
    ensures Assess(config, request) == reason
            <==> (reason == RiskNotRejected || Violates(config, request, reason))
                 && forall earlier :: CheckPosition(earlier) < CheckPosition(reason)
                                      ==> !Violates(config, request, earlier)
  {
    var outcome := Assess(config, request);
    forall earlier | CheckPosition(earlier) < CheckPosition(outcome)
      ensures !Violates(config, request, earlier)
    {
      match earlier case _ =>
    }
    if reason != outcome {
      match reason case _ =>
    }
  }

  /** The allowlist as the limits state it. */
  ghost predicate Listed(limits: RiskLimits, symbol: string)
  {
    exists i :: 0 <= i < 8 && i < limits.allowedSymbolCount && limits.allowedSymbols[i] == symbol
  }

  lemma ListedIsKept(limits: RiskLimits, symbol: string)
    ensures Listed(limits, symbol) <==> symbol in Clamped(limits)
    ensures limits.allowedSymbolCount == 0 <==> Clamped(limits) == []
  {
    if Listed(limits, symbol) {
      var i :| 0 <= i < 8 && i < limits.allowedSymbolCount && limits.allowedSymbols[i] == symbol;
      assert Clamped(limits)[i] == symbol;
    }
  }

  /** The allowlist check of a manager built from these limits. */
  lemma AllowlistOnLimits(limits: RiskLimits, times: (real, uint32) -> Price, r: OrderRequest)
    ensures Violates(ConfigOf(limits, times), r, RiskSymbolNotAllowed)
            <==> limits.allowedSymbolCount > 0 && !Listed(limits, r.symbol)
  {
    hide Listed, Clamped;
    ListedIsKept(limits, r.symbol);
  }

  /** Every outcome on the limits themselves: what is asked of an order, in the documented order. */
  lemma OutcomeOnLimits(limits: RiskLimits, times: (real, uint32) -> Price, r: OrderRequest)
    ensures var outcome := Assess(ConfigOf(limits, times), r);
            var priced := r.price.Finite? && r.price.value > 0.0;
            var formed := r.symbol != "" && priced && r.quantity > 0;
            var sized := formed && r.quantity <= limits.maxOrderQuantity;
            var most := limits.maxOrderNotional;  // NaN compares with nothing, so it is no bound
            var bounded := sized && var notional := times(r.price.value, r.quantity);
                           && notional.Finite?
                           && (most.NaN? || most.PosInf? || (most.Finite? && notional.value <= most.value));
            && (outcome == RiskInvalidSymbol <==> r.symbol == "")
            && (outcome == RiskInvalidPrice <==> r.symbol != "" && !priced)
            && (outcome == RiskInvalidQuantity <==> r.symbol != "" && priced && r.quantity == 0)
            && (outcome == RiskQuantityLimit <==> formed && r.quantity > limits.maxOrderQuantity)
            && (outcome == RiskNotionalLimit <==> sized && !bounded)
            && (outcome == RiskSymbolNotAllowed
                <==> bounded && limits.allowedSymbolCount > 0 && !Listed(limits, r.symbol))
            && (outcome == RiskNotRejected
                <==> bounded && (limits.allowedSymbolCount == 0 || Listed(limits, r.symbol)))
  {
    hide Listed, Clamped;
    AllowlistOnLimits(limits, times, r);
  }

  lemma AcceptedIffNothingViolated(config: RiskConfig, request: OrderRequest)
    ensures Assess(config, request) == RiskNotRejected
            <==> forall reason :: !Violates(config, request, reason)
  {
    OutcomeIsFirstFailure(config, request, RiskNotRejected);
  }

  /** Rounding (section 4.3 of IEEE 754-2008) is monotone and keeps a positive product non-negative. */
  ghost predicate MonotoneRounding(times: (real, uint32) -> Price)
  {
    && (forall p: real, q: uint32 :: p > 0.0 && q > 0 ==> AtMost(ZERO, times(p, q)))
    && forall p: real, q: uint32, p': real, q': uint32 ::
         0.0 < p <= p' && 0 < q <= q' ==> AtMost(times(p, q), times(p', q'))
  }

  /** Acceptance is downward closed in price and quantity. */
  lemma AcceptanceIsDownwardClosed(config: RiskConfig, larger: OrderRequest, smaller: OrderRequest)
    requires MonotoneRounding(config.times)
    requires Assess(config, larger) == RiskNotRejected
    requires smaller.symbol == larger.symbol
    requires Positive(smaller.price) && AtMost(smaller.price, larger.price)
    requires 0 < smaller.quantity <= larger.quantity
    ensures Assess(config, smaller) == RiskNotRejected
  {
    AcceptedIffNothingViolated(config, larger);
    assert !Violates(config, larger, RiskNotionalLimit);
    var bound := config.times(larger.price.value, larger.quantity);
    var notional := config.times(smaller.price.value, smaller.quantity);
    assert AtMost(ZERO, notional) && AtMost(notional, bound);
  }
}
