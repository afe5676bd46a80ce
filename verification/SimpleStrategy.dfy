/** The demo strategy: one small buy order per update whose spread is wide enough. */
module Strategy {
  import opened Messages
  import opened FixedSymbols

  const ORDER_QUANTITY: uint32 := 10

  /** Whether the spread stays below the configured minimum; stands for the binary64 test
      `ask - bid + 1e-9 < min_spread`, given bid and ask. */
  type SpreadTest = (Price, Price) -> bool

  datatype StrategyView = StrategyView(nextSequenceId: uint64, signalsSeen: nat, ordersGenerated: nat)

  const FRESH_STRATEGY := StrategyView(1, 0, 0)

  /** The counter is unsigned 64-bit and wraps around. */
  function NextId(id: uint64): uint64
  {
    (id + 1) % 0x1_0000_0000_0000_0000
  }

  /** The order an update triggers; a symbol that does not fit yields none. */
  function OrderFor(tooNarrow: SpreadTest, id: uint64, u: MarketDataUpdate): Option<OrderRequest>
  {
    if tooNarrow(u.bidPrice, u.askPrice) || Assigned(u.symbol) == "" then None
    else Some(OrderRequest(id, Assigned(u.symbol), Buy, u.askPrice, ORDER_QUANTITY))
  }

  /** The spread is wide and the symbol fits its storage. */
  predicate Tradable(tooNarrow: SpreadTest, u: MarketDataUpdate)
  {
    !tooNarrow(u.bidPrice, u.askPrice) && 1 <= |u.symbol| <= 16
  }

  /** A buy of ten at the update's ask. */
  predicate BuysAtAsk(o: OrderRequest, u: MarketDataUpdate)
  {
    o.symbol == u.symbol && o.side == Buy && o.price == u.askPrice && o.quantity == 10
  }

  /** A wide spread consumes an id even when no order comes of it. */
  function AfterUpdate(tooNarrow: SpreadTest, s: StrategyView, u: MarketDataUpdate): StrategyView
  {
    StrategyView(
      if tooNarrow(u.bidPrice, u.askPrice) then s.nextSequenceId else NextId(s.nextSequenceId),
      s.signalsSeen + 1,
      s.ordersGenerated + if OrderFor(tooNarrow, s.nextSequenceId, u).Some? then 1 else 0)
  }

  class SimpleStrategy {
    const tooNarrow: SpreadTest
    var nextSequenceId: uint64
    var signalsSeen: nat
    var ordersGenerated: nat

    ghost function View(): StrategyView
      reads this
    {
      StrategyView(nextSequenceId, signalsSeen, ordersGenerated)
    }

    constructor (tooNarrow: SpreadTest)
      ensures this.tooNarrow == tooNarrow && View() == FRESH_STRATEGY
    {
      this.tooNarrow := tooNarrow;
      nextSequenceId, signalsSeen, ordersGenerated := 1, 0, 0;
    }

    method OnMarketData(update: MarketDataUpdate) returns (order: Option<OrderRequest>)
      modifies this
      ensures View() == AfterUpdate(tooNarrow, old(View()), update)
      ensures order == OrderFor(tooNarrow, old(nextSequenceId), update)
      ensures order.Some? <==> Tradable(tooNarrow, update)
      ensures order.Some? ==> order.value.sequenceId == old(nextSequenceId) && BuysAtAsk(order.value, update)
      ensures nextSequenceId == if tooNarrow(update.bidPrice, update.askPrice) then old(nextSequenceId)
                                else if old(nextSequenceId) == 0xFFFF_FFFF_FFFF_FFFF then 0
                                else old(nextSequenceId) + 1
      ensures signalsSeen == old(signalsSeen) + 1
      ensures ordersGenerated == old(ordersGenerated) + if order.Some? then 1 else 0
    {
      signalsSeen := signalsSeen + 1;
      if tooNarrow(update.bidPrice, update.askPrice) {
        return None;
      }
      var id := nextSequenceId;
      nextSequenceId := NextId(nextSequenceId);
      var symbol := new FixedSymbol();
      var fits := symbol.Assign(update.symbol);
      if !fits {
        return None;
      }
      ordersGenerated := ordersGenerated + 1;
      order := Some(OrderRequest(id, symbol.View(), Buy, update.askPrice, ORDER_QUANTITY));
    }
  }

  // ---------- runs ----------

  function AfterUpdates(tooNarrow: SpreadTest, updates: seq<MarketDataUpdate>): StrategyView
  {
    if updates == [] then FRESH_STRATEGY
    else AfterUpdate(tooNarrow, AfterUpdates(tooNarrow, updates[..|updates| - 1]), updates[|updates| - 1])
  }

  /** The orders a fresh strategy generates. */
  function OrdersOf(tooNarrow: SpreadTest, updates: seq<MarketDataUpdate>): seq<OrderRequest>
  {
    if updates == [] then []
    else
      var front, last := updates[..|updates| - 1], updates[|updates| - 1];
      var order := OrderFor(tooNarrow, AfterUpdates(tooNarrow, front).nextSequenceId, last);
      OrdersOf(tooNarrow, front) + if order.Some? then [order.value] else []
  }

  ghost predicate Increasing(orders: seq<OrderRequest>)
  {
    forall i, j :: 0 <= i < j < |orders| ==> orders[i].sequenceId < orders[j].sequenceId
  }

  /** Before the counter can wrap, generated ids are strictly increasing, start at 1 or above, and lie
      below the next id; the counters count signals and orders. */
  lemma {:induction false} IdsIncrease(tooNarrow: SpreadTest, updates: seq<MarketDataUpdate>)
    requires |updates| < 0xFFFF_FFFF_FFFF_FFFF
    ensures var s, orders := AfterUpdates(tooNarrow, updates), OrdersOf(tooNarrow, updates);
            && Increasing(orders)
            && (forall i :: 0 <= i < |orders| ==> 1 <= orders[i].sequenceId < s.nextSequenceId)
            && 1 <= s.nextSequenceId <= |updates| + 1
            && s.signalsSeen == |updates| && s.ordersGenerated == |orders| <= |updates|
  {
    if updates != [] {
      var front, last := updates[..|updates| - 1], updates[|updates| - 1];
      IdsIncrease(tooNarrow, front);
      var s, orders := AfterUpdates(tooNarrow, front), OrdersOf(tooNarrow, front);
      var order := OrderFor(tooNarrow, s.nextSequenceId, last);
      var longer := OrdersOf(tooNarrow, updates);
      assert forall i :: 0 <= i < |orders| ==> longer[i] == orders[i];
      assert NextId(s.nextSequenceId) == s.nextSequenceId + 1;
      var next := AfterUpdates(tooNarrow, updates).nextSequenceId;
      assert s.nextSequenceId <= next;
      forall i | 0 <= i < |longer|
        ensures 1 <= longer[i].sequenceId < next
      {
        if i < |orders| {
          assert longer[i] == orders[i];
        } else {
          assert order.Some? && longer[i].sequenceId == s.nextSequenceId < next;
        }
      }
    }
  }

  lemma UpdatesAppend(tooNarrow: SpreadTest, updates: seq<MarketDataUpdate>, u: MarketDataUpdate)
    ensures AfterUpdates(tooNarrow, updates + [u]) == AfterUpdate(tooNarrow, AfterUpdates(tooNarrow, updates), u)
    ensures var order := OrderFor(tooNarrow, AfterUpdates(tooNarrow, updates).nextSequenceId, u);
            OrdersOf(tooNarrow, updates + [u])
            == OrdersOf(tooNarrow, updates) + if order.Some? then [order.value] else []
  {
    assert (updates + [u])[..|updates|] == updates;
  }

  /** Where in the feed orders arise. */
  function Sources(tooNarrow: SpreadTest, updates: seq<MarketDataUpdate>): seq<nat>
  {
    if updates == [] then []
    else
      var last := |updates| - 1;
      Sources(tooNarrow, updates[..last]) + if Tradable(tooNarrow, updates[last]) then [last] else []
  }

  /** They are exactly the tradable updates, in feed order. */
  lemma {:induction false} SourcesAreTradable(tooNarrow: SpreadTest, updates: seq<MarketDataUpdate>)
    ensures var s := Sources(tooNarrow, updates);
            && (forall i: nat :: i in s <==> i < |updates| && Tradable(tooNarrow, updates[i]))
            && (forall i, j :: 0 <= i < j < |s| ==> s[i] < s[j])
  {
    if updates != [] {
      var front := updates[..|updates| - 1];
      SourcesAreTradable(tooNarrow, front);
      var s, longer := Sources(tooNarrow, front), Sources(tooNarrow, updates);
      assert forall i :: 0 <= i < |s| ==> longer[i] == s[i] && s[i] in s;
      forall i: nat
        ensures i in longer <==> i < |updates| && Tradable(tooNarrow, updates[i])
      {
        assert i < |front| ==> front[i] == updates[i];
      }
    }
  }

  /** How many updates have a wide spread; each of them uses up an id. */
  function WideSpreads(tooNarrow: SpreadTest, updates: seq<MarketDataUpdate>): nat
  {
    if updates == [] then 0
    else
      var u := updates[|updates| - 1];
      WideSpreads(tooNarrow, updates[..|updates| - 1]) + if tooNarrow(u.bidPrice, u.askPrice) then 0 else 1
  }

  lemma NextIdCounts(n: nat)
    ensures NextId(n % 0x1_0000_0000_0000_0000) == (n + 1) % 0x1_0000_0000_0000_0000
  {
  }

  lemma {:induction false} NextIdCountsWideSpreads(tooNarrow: SpreadTest, updates: seq<MarketDataUpdate>)
    ensures AfterUpdates(tooNarrow, updates).nextSequenceId
            == (1 + WideSpreads(tooNarrow, updates)) % 0x1_0000_0000_0000_0000
  {
    hide OrderFor, NextId;
    if updates != [] {
      var front := updates[..|updates| - 1];
      NextIdCountsWideSpreads(tooNarrow, front);
      NextIdCounts(1 + WideSpreads(tooNarrow, front));
    }
  }

  /** Order i is the buy of the i-th tradable update, and its id counts the wide spreads before it. */
  ghost predicate BuysItsSource(tooNarrow: SpreadTest, updates: seq<MarketDataUpdate>, o: OrderRequest, source: nat)
  {
    && source < |updates| && BuysAtAsk(o, updates[source])
    && o.sequenceId == (1 + WideSpreads(tooNarrow, updates[..source])) % 0x1_0000_0000_0000_0000
  }

  /** Whatever the feed, the generated orders are buys of the tradable updates, one each, in feed order. */
  lemma {:induction false} OrdersBuyTheirSources(tooNarrow: SpreadTest, updates: seq<MarketDataUpdate>)
    ensures var orders, s := OrdersOf(tooNarrow, updates), Sources(tooNarrow, updates);
            && |orders| == |s|
            && forall i :: 0 <= i < |s| ==> BuysItsSource(tooNarrow, updates, orders[i], s[i])
  {
    if updates != [] {
      var front, last := updates[..|updates| - 1], updates[|updates| - 1];
      OrdersBuyTheirSources(tooNarrow, front);
      NextIdCountsWideSpreads(tooNarrow, front);
      var orders, s := OrdersOf(tooNarrow, updates), Sources(tooNarrow, updates);
      forall i | 0 <= i < |s|
        ensures BuysItsSource(tooNarrow, updates, orders[i], s[i])
      {
        if i < |Sources(tooNarrow, front)| {
          assert BuysItsSource(tooNarrow, front, orders[i], s[i]);
          assert front[..s[i]] == updates[..s[i]];
        } else {
          assert updates[..s[i]] == front;
        }
      }
    }
  }
}
