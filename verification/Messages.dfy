/** Values exchanged between the components of the gateway: prices, order
    requests, action requests and their responses. */
module Messages {

  type uint32 = n: int | 0 <= n < 0x1_0000_0000

  type uint64 = n: int | 0 <= n < 0x1_0000_0000_0000_0000

  datatype Option<+T> = None | Some(value: T)

  /** A binary64 value, with every finite value represented exactly. */
  datatype Price = Finite(value: real) | PosInf | NegInf | NaN

  const ZERO: Price := Finite(0.0)

  /** The `<=` comparison of section 5.11 of IEEE 754-2008: NaN is unordered. */
  predicate AtMost(a: Price, b: Price)
  {
    a != NaN && b != NaN && (a == NegInf || b == PosInf || (a.Finite? && b.Finite? && a.value <= b.value))
  }

  /** The `>` comparison. */
  predicate Above(a: Price, b: Price)
  {
    a != NaN && b != NaN && !AtMost(a, b)
  }

  /** What the risk layer and the exchange mean by a usable price. */
  predicate Positive(p: Price)
  {
    p.Finite? && p.value > 0.0
  }

  /** The characters a FixedSymbol owns; the empty string is the unassigned symbol. */
  type Symbol = s: string | |s| <= MAX_SYMBOL_LENGTH

  const MAX_SYMBOL_LENGTH := 16

  datatype Side = Buy | Sell

  datatype MarketDataUpdate = MarketDataUpdate(
    symbol: string, bidPrice: Price, bidSize: uint32, askPrice: Price, askSize: uint32, exchangeTsNs: uint64)

  datatype OrderRequest = OrderRequest(
    sequenceId: uint64, symbol: Symbol, side: Side, price: Price, quantity: uint32)

  datatype OrderRejectReason =
    | NotRejected
    | InvalidSymbol
    | InvalidPrice
    | InvalidQuantity
    | DuplicateSequence

  datatype CancelRejectReason =
    | CancelNotRejected
    | CancelUnknownOrder
    | CancelInvalidState

  datatype AmendRejectReason =
    | AmendNotRejected
    | AmendUnknownOrder
    | AmendInvalidPrice
    | AmendInvalidQuantity
    | AmendInvalidState

  datatype RiskRejectReason =
    | RiskNotRejected
    | RiskInvalidSymbol
    | RiskInvalidPrice
    | RiskInvalidQuantity
    | RiskQuantityLimit
    | RiskNotionalLimit
    | RiskSymbolNotAllowed

  datatype CancelRequest = CancelRequest(sequenceId: uint64)

  datatype AmendRequest = AmendRequest(sequenceId: uint64, newPrice: Price, newQuantity: uint32)

  datatype OrderResponse = OrderResponse(sequenceId: uint64, accepted: bool, rejectReason: OrderRejectReason)

  datatype CancelResponse = CancelResponse(sequenceId: uint64, accepted: bool, rejectReason: CancelRejectReason)

  datatype AmendResponse = AmendResponse(sequenceId: uint64, accepted: bool, rejectReason: AmendRejectReason)
}
