/** The simulated exchange: validated submissions, duplicate prevention, and the
    active-order store that cancels and amends act on. */
module Exchange {
  import opened Messages

  datatype ExchangeView = ExchangeView(seen: set<uint64>, active: map<uint64, OrderRequest>)

  const FRESH_EXCHANGE := ExchangeView({}, map[])

  predicate Submittable(r: OrderRequest)
  {
    r.symbol != "" && Positive(r.price) && r.quantity > 0
  }

  predicate ProperTerms(a: AmendRequest)
  {
    Positive(a.newPrice) && a.newQuantity > 0
  }

  /** What the store always satisfies. */
  ghost predicate Consistent(x: ExchangeView)
  {
    && x.active.Keys <= x.seen
    && forall id :: id in x.active ==> x.active[id].sequenceId == id && Submittable(x.active[id])
  }

  function SubmitOutcome(x: ExchangeView, r: OrderRequest): OrderRejectReason
  {
    if Submittable(r) then if r.sequenceId in x.seen then DuplicateSequence else NotRejected
    else if r.symbol == "" then InvalidSymbol
    else if !Positive(r.price) then InvalidPrice
    else InvalidQuantity
  }

  function AfterSubmit(x: ExchangeView, r: OrderRequest): ExchangeView
  {
    if SubmitOutcome(x, r) != NotRejected then x
    else ExchangeView(x.seen + {r.sequenceId}, x.active[r.sequenceId := r])
  }

  function CancelOutcome(x: ExchangeView, c: CancelRequest): CancelRejectReason
  {
    if c.sequenceId in x.active then CancelNotRejected else CancelUnknownOrder
  }

  function AfterCancel(x: ExchangeView, c: CancelRequest): ExchangeView
  {
    x.(active := x.active - {c.sequenceId})
  }

  function AmendOutcome(x: ExchangeView, a: AmendRequest): AmendRejectReason
  {
    if a.sequenceId !in x.active then AmendUnknownOrder
    else if !Positive(a.newPrice) then AmendInvalidPrice
    else if a.newQuantity == 0 then AmendInvalidQuantity
    else AmendNotRejected
  }

  function WithTerms(r: OrderRequest, a: AmendRequest): OrderRequest
  {
    r.(price := a.newPrice, quantity := a.newQuantity)
  }

  function AfterAmend(x: ExchangeView, a: AmendRequest): ExchangeView
  {
    if AmendOutcome(x, a) != AmendNotRejected then x
    else x.(active := x.active[a.sequenceId := WithTerms(x.active[a.sequenceId], a)])
  }

  /** Exactly the terms of one order are replaced. */
  ghost predicate TermsReplaced(before: ExchangeView, after: ExchangeView, a: AmendRequest)
  {
    && after.seen == before.seen
    && after.active.Keys == before.active.Keys && a.sequenceId in before.active
    && (forall id :: id in before.active && id != a.sequenceId ==> after.active[id] == before.active[id])
    && var was, now := before.active[a.sequenceId], after.active[a.sequenceId];
    && now.price == a.newPrice && now.quantity == a.newQuantity
    && now.sequenceId == was.sequenceId && now.symbol == was.symbol && now.side == was.side
  }

  /** An accepted amend replaces exactly the two terms; any other one changes nothing. */
  lemma AmendReplacesTerms(x: ExchangeView, a: AmendRequest)
    ensures if AmendOutcome(x, a) == AmendNotRejected then TermsReplaced(x, AfterAmend(x, a), a)
            else AfterAmend(x, a) == x
  {
  }

  class ExchangeSimulator {
    var seenSequenceIds: set<uint64>
    var activeOrders: map<uint64, OrderRequest>

    ghost function View(): ExchangeView
      reads this
    {
      ExchangeView(seenSequenceIds, activeOrders)
    }

    ghost predicate Valid()
      reads this
    {
      Consistent(View())
    }

    constructor ()
      ensures Valid() && View() == FRESH_EXCHANGE
    {
      seenSequenceIds, activeOrders := {}, map[];
    }

    method SubmitOrder(request: OrderRequest) returns (response: OrderResponse)
      requires Valid()
      modifies this
      ensures Valid() && View() == AfterSubmit(old(View()), request)
      ensures response.sequenceId == request.sequenceId
      ensures response.rejectReason == SubmitOutcome(old(View()), request)
      ensures response.accepted <==> response.rejectReason == NotRejected
    {
      if request.symbol == "" {
        return OrderResponse(request.sequenceId, false, InvalidSymbol);
      }
      if !request.price.Finite? || AtMost(request.price, ZERO) {
        return OrderResponse(request.sequenceId, false, InvalidPrice);
      }
      if request.quantity == 0 {
        return OrderResponse(request.sequenceId, false, InvalidQuantity);
      }
      if request.sequenceId in seenSequenceIds {
        return OrderResponse(request.sequenceId, false, DuplicateSequence);
      }
      seenSequenceIds := seenSequenceIds + {request.sequenceId};
      if request.sequenceId !in activeOrders {  // the insertion never replaces an entry
        activeOrders := activeOrders[request.sequenceId := request];
      }
      response := OrderResponse(request.sequenceId, true, NotRejected);
    }

    method CancelOrder(request: CancelRequest) returns (response: CancelResponse)
      requires Valid()
      modifies this
      ensures Valid() && View() == AfterCancel(old(View()), request)
      ensures response.sequenceId == request.sequenceId
      ensures response.rejectReason == CancelOutcome(old(View()), request)
      ensures response.accepted <==> response.rejectReason == CancelNotRejected
    {
      if request.sequenceId !in activeOrders {
        assert activeOrders - {request.sequenceId} == activeOrders;
        return CancelResponse(request.sequenceId, false, CancelUnknownOrder);
      }
      activeOrders := activeOrders - {request.sequenceId};
      response := CancelResponse(request.sequenceId, true, CancelNotRejected);
    }

    method AmendOrder(request: AmendRequest) returns (response: AmendResponse)
      requires Valid()
      modifies this
      ensures Valid() && View() == AfterAmend(old(View()), request)
      ensures response.sequenceId == request.sequenceId
      ensures response.rejectReason == AmendOutcome(old(View()), request)
      ensures response.accepted <==> response.rejectReason == AmendNotRejected
      ensures if response.accepted then TermsReplaced(old(View()), View(), request) else View() == old(View())
    {
      if request.sequenceId !in activeOrders {
        return AmendResponse(request.sequenceId, false, AmendUnknownOrder);
      }
      if !request.newPrice.Finite? || AtMost(request.newPrice, ZERO) {
        return AmendResponse(request.sequenceId, false, AmendInvalidPrice);
      }
      if request.newQuantity == 0 {
        return AmendResponse(request.sequenceId, false, AmendInvalidQuantity);
      }
      var order := activeOrders[request.sequenceId];
      activeOrders := activeOrders[request.sequenceId :=
        order.(price := request.newPrice, quantity := request.newQuantity)];
      response := AmendResponse(request.sequenceId, true, AmendNotRejected);
    }

    predicate HasActiveOrder(sequenceId: uint64)
      reads this
    {
      sequenceId in activeOrders
    }

    function FindActiveOrder(sequenceId: uint64): Option<OrderRequest>
      reads this
    {
      if sequenceId in activeOrders then Some(activeOrders[sequenceId]) else None
    }
  }

  // ---------- arbitrary call sequences ----------

  datatype ExchangeCall = Submit(order: OrderRequest) | Cancel(cancel: CancelRequest) | Amend(amend: AmendRequest)

  function AfterExchangeCall(x: ExchangeView, call: ExchangeCall): ExchangeView
  {
    match call
    case Submit(r) => AfterSubmit(x, r)
    case Cancel(c) => AfterCancel(x, c)
    case Amend(a) => AfterAmend(x, a)
  }

  function Session(calls: seq<ExchangeCall>): ExchangeView
  {
    if calls == [] then FRESH_EXCHANGE
    else AfterExchangeCall(Session(calls[..|calls| - 1]), calls[|calls| - 1])
  }

  predicate Places(call: ExchangeCall, id: uint64)
  {
    call.Submit? && call.order.sequenceId == id && Submittable(call.order)
  }

  predicate Withdraws(call: ExchangeCall, id: uint64)
  {
    call.Cancel? && call.cancel.sequenceId == id
  }

  predicate Reprices(call: ExchangeCall, id: uint64)
  {
    call.Amend? && call.amend.sequenceId == id && ProperTerms(call.amend)
  }

  /** The position of the first well-formed submission of an id, or |calls| when there is none. */
  function Placement(calls: seq<ExchangeCall>, id: uint64): (p: nat)
    ensures p <= |calls|
    ensures p < |calls| ==> Places(calls[p], id)
    ensures forall i :: 0 <= i < p ==> !Places(calls[i], id)
  {
    if calls == [] then 0
    else
      var front := calls[..|calls| - 1];
      var p := Placement(front, id);
      assert forall i :: 0 <= i < |front| ==> front[i] == calls[i];
      if p < |front| then p else if Places(calls[|front|], id) then |front| else |calls|
  }

  ghost predicate Withdrawn(calls: seq<ExchangeCall>, id: uint64, since: nat)
  {
    exists i :: since < i < |calls| && Withdraws(calls[i], id)
  }

  /** The submitted order with the terms of the last proper amend after position `since`. */
  function Repriced(order: OrderRequest, calls: seq<ExchangeCall>, since: nat): OrderRequest
    requires since < |calls|
  {
    var last := calls[|calls| - 1];
    if since == |calls| - 1 then order
    else if Reprices(last, order.sequenceId) then WithTerms(order, last.amend)
    else Repriced(order, calls[..|calls| - 1], since)
  }

  /** The exchange's state of one id, read off the call history alone. */
  ghost predicate Explains(calls: seq<ExchangeCall>, id: uint64, x: ExchangeView)
  {
    var p := Placement(calls, id);
    && (id in x.seen <==> p < |calls|)
    && (id in x.active <==> p < |calls| && !Withdrawn(calls, id, p))
    && (id in x.active ==> x.active[id] == Repriced(calls[p].order, calls, p))
  }

  lemma WithdrawnStep(calls: seq<ExchangeCall>, id: uint64, since: nat)
    requires since < |calls| - 1
    ensures Withdrawn(calls, id, since)
            <==> Withdrawn(calls[..|calls| - 1], id, since) || Withdraws(calls[|calls| - 1], id)
  {
    var front := calls[..|calls| - 1];
    if Withdrawn(front, id, since) {
      var i :| since < i < |front| && Withdraws(front[i], id);
      assert Withdraws(calls[i], id);
    }
    if Withdrawn(calls, id, since) {
      var i :| since < i < |calls| && Withdraws(calls[i], id);
      assert i < |front| ==> Withdraws(front[i], id);
    }
  }

  lemma {:induction false} RepricedKeepsIdentity(order: OrderRequest, calls: seq<ExchangeCall>, since: nat)
    requires since < |calls|
    ensures var r := Repriced(order, calls, since);
            r.sequenceId == order.sequenceId && r.symbol == order.symbol && r.side == order.side
  {
    if since < |calls| - 1 {
      RepricedKeepsIdentity(order, calls[..|calls| - 1], since);
    }
  }

  lemma WithTermsOverrides(order: OrderRequest, a: AmendRequest, calls: seq<ExchangeCall>, since: nat)
    requires since < |calls|
    ensures WithTerms(Repriced(order, calls, since), a) == WithTerms(order, a)
  {
    RepricedKeepsIdentity(order, calls, since);
  }

  /** Over any sequence of submissions, cancels and amends, for every id: the id is seen exactly when
      some submission of it was well-formed; it is active exactly when no cancel followed the first
      such submission; and the active order is that submission with the last proper terms since. */
  lemma {:induction false} ExchangeHistory(calls: seq<ExchangeCall>, id: uint64)
    ensures Explains(calls, id, Session(calls))
  {
    if calls != [] {
      var front, last := calls[..|calls| - 1], calls[|calls| - 1];
      ExchangeHistory(front, id);
      var p := Placement(front, id);
      if p < |front| {
        WithdrawnStep(calls, id, p);
        assert calls[p] == front[p];
        WithTermsOverrides(front[p].order, if last.Amend? then last.amend else AmendRequest(id, ZERO, 0), front, p);
      }
    }
  }

  /** Call k is the last proper amend of the id. */
  ghost predicate LastReprices(calls: seq<ExchangeCall>, id: uint64, k: nat)
  {
    k < |calls| && Reprices(calls[k], id) && forall i :: k < i < |calls| ==> !Reprices(calls[i], id)
  }

  lemma {:induction false} RepricedByLast(calls: seq<ExchangeCall>, since: nat, k: nat)
    requires since < |calls| && calls[since].Submit? && LastReprices(calls, calls[since].order.sequenceId, k)
    ensures var placed := calls[since].order;
            Repriced(placed, calls, since)
            == if k > since then placed.(price := calls[k].amend.newPrice, quantity := calls[k].amend.newQuantity)
               else placed
  {
    var id := calls[since].order.sequenceId;
    if since < |calls| - 1 && k < |calls| - 1 {
      var front := calls[..|calls| - 1];
      assert front[k] == calls[k] && front[since] == calls[since];
      assert forall i :: k < i < |front| ==> front[i] == calls[i];
      assert LastReprices(front, id, k);
      RepricedByLast(front, since, k);
    }
  }

  lemma {:induction false} NeverRepriced(order: OrderRequest, calls: seq<ExchangeCall>, since: nat)
    requires since < |calls|
    requires forall i :: since < i < |calls| ==> !Reprices(calls[i], order.sequenceId)
    ensures Repriced(order, calls, since) == order
  {
    if since < |calls| - 1 {
      var front := calls[..|calls| - 1];
      assert forall i :: since < i < |front| ==> front[i] == calls[i];
      NeverRepriced(order, front, since);
    }
  }

  /** The terms of an active order, over any calls: those of the last proper amend after its placement,
      or the submitted ones when there is none; everything else is as submitted. */
  lemma ActiveTermsAreTheLast(calls: seq<ExchangeCall>, id: uint64)
    requires id in Session(calls).active
    ensures var p, now := Placement(calls, id), Session(calls).active[id];
            && p < |calls| && calls[p].Submit?
            && now.sequenceId == id && now.symbol == calls[p].order.symbol && now.side == calls[p].order.side
            && (forall k :: p < k && LastReprices(calls, id, k) ==>
                  now.price == calls[k].amend.newPrice && now.quantity == calls[k].amend.newQuantity)
            && ((forall i :: p < i < |calls| ==> !Reprices(calls[i], id)) ==> now == calls[p].order)
  {
    ExchangeHistory(calls, id);
    var p := Placement(calls, id);
    assert Places(calls[p], id);
    RepricedKeepsIdentity(calls[p].order, calls, p);
    forall k | p < k && LastReprices(calls, id, k)
      ensures Session(calls).active[id].price == calls[k].amend.newPrice
      ensures Session(calls).active[id].quantity == calls[k].amend.newQuantity
    {
      RepricedByLast(calls, p, k);
    }
    if forall i :: p < i < |calls| ==> !Reprices(calls[i], id) {
      NeverRepriced(calls[p].order, calls, p);
    }
  }

  ghost predicate Open(calls: seq<ExchangeCall>, id: uint64)
  {
    Placement(calls, id) < |calls| && !Withdrawn(calls, id, Placement(calls, id))
  }

  /** How cancels and amends are answered after any calls: an id that is not open is unknown, whatever the
      terms; then the price is examined, then the quantity. */
  lemma ActionsAnsweredByHistory(calls: seq<ExchangeCall>, c: CancelRequest, a: AmendRequest)
    ensures CancelOutcome(Session(calls), c)
            == if Open(calls, c.sequenceId) then CancelNotRejected else CancelUnknownOrder
    ensures var outcome, known := AmendOutcome(Session(calls), a), Open(calls, a.sequenceId);
            && (outcome == AmendUnknownOrder <==> !known)
            && (outcome == AmendInvalidPrice <==> known && !(a.newPrice.Finite? && a.newPrice.value > 0.0))
            && (outcome == AmendInvalidQuantity
                <==> known && a.newPrice.Finite? && a.newPrice.value > 0.0 && a.newQuantity == 0)
            && (outcome == AmendNotRejected
                <==> known && a.newPrice.Finite? && a.newPrice.value > 0.0 && a.newQuantity > 0)
  {
    ExchangeHistory(calls, c.sequenceId);
    ExchangeHistory(calls, a.sequenceId);
  }

  ghost predicate PlacedBefore(calls: seq<ExchangeCall>, id: uint64)
  {
    exists i :: 0 <= i < |calls| && Places(calls[i], id)
  }

  /** A submission is accepted exactly when it is well-formed and no earlier submission of its id was
      well-formed; it is a duplicate exactly when one was. An ill-formed submission does not burn its
      id, and is charged to its symbol, its price or its quantity, in this order. */
  lemma AcceptedIffFirstPlacement(calls: seq<ExchangeCall>, r: OrderRequest)
    ensures var outcome := SubmitOutcome(Session(calls), r);
            && (outcome == NotRejected <==> Submittable(r) && !PlacedBefore(calls, r.sequenceId))
            && (outcome == DuplicateSequence <==> Submittable(r) && PlacedBefore(calls, r.sequenceId))
            && (outcome == InvalidSymbol <==> r.symbol == "")
            && (outcome == InvalidPrice <==> r.symbol != "" && !Positive(r.price))
            && (outcome == InvalidQuantity <==> r.symbol != "" && Positive(r.price) && r.quantity == 0)
  {
    ExchangeHistory(calls, r.sequenceId);
    var p := Placement(calls, r.sequenceId);
    assert p < |calls| ==> Places(calls[p], r.sequenceId);
  }

  /** A cancelled id never becomes active again. */
  lemma {:induction false} ClosedStaysClosed(calls: seq<ExchangeCall>, more: seq<ExchangeCall>, id: uint64)
    requires id in Session(calls).seen && id !in Session(calls).active
    ensures id in Session(calls + more).seen && id !in Session(calls + more).active
  {
    if more == [] {
      assert calls + more == calls;
    } else {
      ClosedStaysClosed(calls, more[..|more| - 1], id);
      assert (calls + more)[..|calls + more| - 1] == calls + more[..|more| - 1];
    }
  }
}
