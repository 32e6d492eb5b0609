/** What the portfolio grants and refuses, what a grant holds, and how a hold is given back. */
module Grants {
  import opened Decimals
  import opened Domain
  import opened MapSums
  import opened Portfolio
  import opened Accounting

  /** Cash less everything reserved: the sum of all holds and of all open orders. */
  ghost function Unreserved(p: Account): int {
    p.cash - (Sum(HoldAmounts(p.holds)) + Sum(OrderReserves(p.openOrders)))
  }

  /** A request for some shares, under a signal id that is valid and holds nothing yet. */
  predicate FirstRequest(p: Account, signal: nat, quantity: int) {
    signal != 0 && signal !in p.holds && quantity > 0
  }

  lemma AddedHold(p: Account, signal: nat, h: Hold)
    requires signal !in p.holds
    ensures Unreserved(p.(holds := p.holds[signal := h])) == Unreserved(p) - h.amount
  {
    SumUpdate(HoldAmounts(p.holds), signal, h.amount);
    assert HoldAmounts(p.holds[signal := h]) == HoldAmounts(p.holds)[signal := h.amount];
  }

  /** A buy is granted exactly when it has a price and unreserved cash covers its cost; what is left is not negative. */
  lemma BuyIsGrantedExactly(p: Account, signal: nat, symbol: Symbol, quantity: int, limit: Option<int>)
    requires FirstRequest(p, signal, quantity)
    ensures var (after, r) := HoldForSignal(p, signal, symbol, Buy, quantity, limit);
            var cost := BuyCost(p, symbol, quantity, limit);
            && (r.granted <==> (limit.Some? || symbol in p.marks) && cost.value <= Unreserved(p))
            && (r.granted ==>
                  && after == p.(holds := p.holds[signal := Hold(symbol, Buy, quantity, cost.value)])
                  && r.amount == cost.value && r.power == Unreserved(after) >= 0)
            && (!r.granted ==> after == p && r.amount == 0 && r.power == Unreserved(p))
  {
    hide WithFees, Sum, HoldAmounts, OrderReserves;
    var cost := BuyCost(p, symbol, quantity, limit);
    if cost.Some? { AddedHold(p, signal, Hold(symbol, Buy, quantity, cost.value)); }
  }

  /** A sell is granted exactly when the shares held cover it and everything promised already; it reserves no cash. */
  lemma SellIsGrantedExactly(p: Account, signal: nat, symbol: Symbol, quantity: int, limit: Option<int>)
    requires FirstRequest(p, signal, quantity)
    ensures var (after, r) := HoldForSignal(p, signal, symbol, Sell, quantity, limit);
            && (r.granted <==>
                  quantity + Sum(SellHolds(p.holds, symbol)) + Sum(SellOrders(p.openOrders, symbol)) <= Held(p, symbol))
            && (r.granted ==>
                  after == p.(holds := p.holds[signal := Hold(symbol, Sell, quantity, 0)]) && r.amount == 0)
            && (!r.granted ==> after == p)
            && r.power == Unreserved(after) == Unreserved(p)
  {
    hide Sum, HoldAmounts, OrderReserves, SellHolds, SellOrders;
    AddedHold(p, signal, Hold(symbol, Sell, quantity, 0));
  }

  /** Anything else: the hold of a signal that has one is granted again unchanged, a request for nothing refused. */
  lemma RepeatedOrEmptyRequest(p: Account, signal: nat, symbol: Symbol, side: OrderSide, quantity: int,
                               limit: Option<int>)
    requires !FirstRequest(p, signal, quantity)
    ensures var (after, r) := HoldForSignal(p, signal, symbol, side, quantity, limit);
            && after == p && r.power == Unreserved(p)
            && (r.granted <==> signal in p.holds) && (r.granted ==> r.amount == p.holds[signal].amount)
  {
    hide Sum, HoldAmounts, OrderReserves, BuyCost;
  }

  /**
   * A buy's cost is exactly the cash its whole fill takes at its ceiling: at the limit price, or for the
   * buffered notional of the mark.
   */
  lemma CostIsTheFillAtTheCeiling(p: Account, symbol: Symbol, quantity: int, limit: Option<int>, f: Fill)
    requires limit.Some? || symbol in p.marks
    requires f.quantity == quantity != 0
    requires f.price * quantity ==
             if limit.Some? then limit.value * quantity else p.fees.hold(p.marks[symbol] * quantity)
    requires f.fees == p.fees.perTrade + p.fees.perShare * quantity + p.fees.rate(f.price * quantity)
    ensures BuyCost(p, symbol, quantity, limit) == Some(p.cash - SettleFill(p, f).cash)
  {
    hide NextPosition, ReleaseForFill;
  }

  // ----- what an order update does to buying power ---------------------------------------

  lemma RemovedHold(p: Account, signal: nat)
    ensures Sum(HoldAmounts(p.holds - {signal}))
         == Sum(HoldAmounts(p.holds)) - (if signal in p.holds then p.holds[signal].amount else 0)
  {
    if signal in p.holds {
      SumRemove(HoldAmounts(p.holds), signal);
      assert HoldAmounts(p.holds - {signal}) == HoldAmounts(p.holds) - {signal};
    } else {
      assert p.holds - {signal} == p.holds;
    }
  }

  lemma RemovedOrder(p: Account, id: nat)
    ensures Sum(OrderReserves(p.openOrders - {id})) == Sum(OrderReserves(p.openOrders)) - ReservedFor(p, id)
  {
    if id in p.openOrders {
      SumRemove(OrderReserves(p.openOrders), id);
      assert OrderReserves(p.openOrders - {id}) == OrderReserves(p.openOrders) - {id};
    } else {
      assert p.openOrders - {id} == p.openOrders;
    }
  }

  lemma AddedOrder(p: Account, id: nat, o: PendingOrder)
    requires id !in p.openOrders
    ensures Sum(OrderReserves(p.openOrders[id := o])) == Sum(OrderReserves(p.openOrders)) + o.reserved
  {
    SumUpdate(OrderReserves(p.openOrders), id, o.reserved);
    assert OrderReserves(p.openOrders[id := o]) == OrderReserves(p.openOrders)[id := o.reserved];
  }

  function HeldFor(p: Account, signal: nat): int {
    if signal in p.holds then p.holds[signal].amount else 0
  }

  /** An order that takes its signal's hold over leaves buying power as it was; the hold is gone. */
  lemma TakingOverKeepsPower(p: Account, o: Order)
    requires Opens(p, o) && o.originSignal in p.holds
    ensures var after := ApplyOrderUpdate(p, o);
            && Unreserved(after) == Unreserved(p) && after.cash == p.cash
            && after.holds == p.holds - {o.originSignal}
            && after.openOrders == p.openOrders[o.id := PendingOrder(o.originSignal, o.symbol, o.side,
                 o.quantity - o.filledQuantity, p.holds[o.originSignal].amount)]
  {
    hide BuyCost, Sum, HoldAmounts, OrderReserves;
    RemovedHold(p, o.originSignal);
    AddedOrder(p, o.id, ApplyOrderUpdate(p, o).openOrders[o.id]);
  }

  /** An order without a hold reserves its own cost: a buy what it would have been held for, a sell nothing. */
  lemma OpeningTakesItsCost(p: Account, o: Order)
    requires Opens(p, o) && o.originSignal !in p.holds
    ensures Unreserved(p) - Unreserved(ApplyOrderUpdate(p, o))
         == if o.side == Sell then 0
            else BuyCost(p, o.symbol, o.quantity - o.filledQuantity, o.limitPrice).ValueOr(0)
  {
    hide BuyCost, Sum, HoldAmounts, OrderReserves;
    RemovedHold(p, o.originSignal);
    AddedOrder(p, o.id, ApplyOrderUpdate(p, o).openOrders[o.id]);
  }

  /** A dead order gives back all it reserved, and its signal's hold; it is closed for good. */
  lemma DeadOrderGivesBack(p: Account, o: Order)
    requires o.runId == p.runId && o.status in {Rejected, Cancelled, Expired}
    ensures var after := ApplyOrderUpdate(p, o);
            && Unreserved(after) == Unreserved(p) + ReservedFor(p, o.id) + HeldFor(p, o.originSignal)
            && after.holds == p.holds - {o.originSignal} && after.openOrders == p.openOrders - {o.id}
            && after.closedOrders == p.closedOrders + {o.id} && after.cash == p.cash
  {
    hide BuyCost, Sum, HoldAmounts, OrderReserves;
    RemovedHold(p, o.originSignal);
    RemovedOrder(p, o.id);
  }

  /** No other update changes anything. */
  lemma OtherUpdatesChangeNothing(p: Account, o: Order)
    requires !Opens(p, o) && (o.runId != p.runId || o.status !in {Rejected, Cancelled, Expired})
    ensures ApplyOrderUpdate(p, o) == p
  {
    hide BuyCost;
  }

  /** A released hold comes back to buying power. */
  lemma ReleasedHoldComesBack(p: Account, signal: nat)
    ensures Unreserved(Step(p, ReleaseOp(signal))) == Unreserved(p) + HeldFor(p, signal)
  {
    hide Sum, HoldAmounts, OrderReserves;
    RemovedHold(p, signal);
  }

  // ----- what a fill does to its order ---------------------------------------------------

  /**
   * A fill that completes its order, or takes all that remains, closes it and gives all it reserved back. Any
   * other takes its shares off, and off the reservation the nearest to their share of it. No other order moves.
   */
  lemma FillMovesItsOrder(p: Account, f: Fill)
    requires f.quantity != 0 && f.orderId in p.openOrders && p.openOrders[f.orderId].remaining > 0
    ensures var after, o, n := SettleFill(p, f), p.openOrders[f.orderId], Abs(f.quantity);
            && after.holds == p.holds
            && (f.status == Complete || n >= o.remaining ==>
                  after.openOrders == p.openOrders - {f.orderId} && f.orderId in after.closedOrders)
            && (f.status == Partial && n < o.remaining ==>
                  && after.closedOrders == p.closedOrders
                  && after.openOrders.Keys == p.openOrders.Keys
                  && after.openOrders == p.openOrders[f.orderId := after.openOrders[f.orderId]]
                  && var left := after.openOrders[f.orderId];
                     && left == o.(remaining := o.remaining - n, reserved := left.reserved)
                     && 2 * Abs((o.reserved - left.reserved) * o.remaining - o.reserved * n) <= o.remaining)
  {
    hide NextPosition, DivRound;
    var o := p.openOrders[f.orderId];
    DivRoundNearest(o.reserved * Abs(f.quantity), o.remaining);
  }

  /** An order the portfolio does not track is closed by the fill that completes it, and by no other. */
  lemma FillOfAnUntrackedOrder(p: Account, f: Fill)
    requires f.quantity != 0 && f.orderId !in p.openOrders
    ensures var after := SettleFill(p, f);
            && after.openOrders == p.openOrders && after.holds == p.holds
            && after.closedOrders == if f.status == Complete then p.closedOrders + {f.orderId} else p.closedOrders
  {
    hide NextPosition;
  }
}
