/** What a bar of a backtest fills, at which price, and what an order's average price says of its fills. */
module FairFills {
  import opened Domain
  import opened Decimals
  import opened Accounting
  import opened Execution
  import opened Products

  // ----- the fills of one bar ------------------------------------------------------------

  /** The price of a bar: where it opened, or else its last trade. */
  function BarPrice(e: MarketEvent): int {
    match e.open
    case Some(open) => open
    case None => e.price.ValueOr(0)
  }

  /** The limit an order may not fill beyond, if it has one. */
  function Cap(order: Order): Option<int> {
    if order.orderType == Limit then order.limitPrice else None
  }

  /** The order was there before the bar, the bar's price reaches its limit, and it would not sell for nothing. */
  predicate Due(order: Order, e: MarketEvent, slip: int -> int) {
    var p, cap := BarPrice(e), Cap(order);
    && p > 0
    && order.symbol == e.symbol && order.createdAt < e.exchangeTime
    && match order.side {
         case Buy => (cap.Some? ==> p <= cap.value)
         case Sell => (cap.Some? ==> p >= cap.value) && (p > Abs(slip(p)) || (cap.Some? && cap.value > 0))
       }
  }

  /** A fill of the whole remainder at the bar's price, worse by at most the slippage and within the limit. */
  predicate Fair(f: Fill, order: Order, e: MarketEvent, slip: int -> int, fees: FeeModel) {
    var p, cap, n := BarPrice(e), Cap(order), order.quantity - order.filledQuantity;
    && f.orderId == order.id && f.runId == order.runId && f.symbol == order.symbol
    && f.filledAt == e.exchangeTime && f.status == Complete
    && f.slippage == f.price - p
    && f.fees == fees.perTrade + fees.perShare * n + fees.rate(f.price * n)
    && match order.side {
         case Buy =>
           && f.quantity == n && p <= f.price <= p + Abs(slip(p))
           && (if cap.Some? && cap.value < p + Abs(slip(p)) then f.price == cap.value else f.price == p + Abs(slip(p)))
         case Sell =>
           && f.quantity == -n && p - Abs(slip(p)) <= f.price <= p
           && (if cap.Some? && cap.value > p - Abs(slip(p)) then f.price == cap.value else f.price == p - Abs(slip(p)))
       }
  }

  /** The naive model's answer for an open order on its symbol. */
  lemma NaiveIsFair(order: Order, e: MarketEvent, slip: int -> int, fees: FeeModel)
    requires order.symbol == e.symbol && order.createdAt < e.exchangeTime
    requires Reference(e).Some? && Reference(e).value > 0
    requires order.filledQuantity < order.quantity
    ensures var fills := NaiveModel(slip, fees)(order, e);
            && (fills == [] <==> !Due(order, e, slip))
            && (Due(order, e, slip) ==> |fills| == 1 && Fair(fills[0], order, e, slip, fees))
  {
    var p := BarPrice(e);
    assert Reference(e).value == p;
    NaiveModelFills(slip, fees, order, e);
  }

  /** One whole fill: the order leaves the table, and its fill comes out as it was made. */
  lemma WholeFillExecutes(s: Simulator, id: nat, f: Fill, at: int)
    requires TableOk(s) && id in s.working && f.status == Complete
    requires Shares(f) == s.working[id].quantity - s.working[id].filledQuantity && f.runId == s.working[id].runId
    ensures var (s', out) := ExecuteAll(s, id, [f], at);
            && s'.working == s.working - {id}
            && |out| == 2 && out[0].Execution? && out[1].OrderUpdate?
            && out[0].fill == f.(id := s.lastFillId + 1, sequence := out[0].fill.sequence)
            && out[1].order.id == id && out[1].order.status == Filled
            && out[1].order.filledQuantity == s.working[id].quantity
  {
    hide AveragePrice;
    assert [f][1..] == [];
    var (s1, out1) := Execute(s, id, f, at);
    assert ExecuteAll(s1, id, [], at) == (s1, []);
    assert out1 + [] == out1;
  }

  /** Of the orders `ids` those that are due leave the table, each with a fill; every other order stays as it was. */
  ghost predicate DueAreFilled(s: Simulator, ids: set<nat>, e: MarketEvent, slip: int -> int,
                               s': Simulator, out: seq<Event>)
  {
    && s'.working.Keys <= s.working.Keys
    && (forall id :: id in s.working ==>
          if id in ids && Due(s.working[id], e, slip) then
            && id !in s'.working
            && exists i :: 0 <= i < |out| && out[i].Execution? && out[i].fill.orderId == id
          else id in s'.working && s'.working[id] == s.working[id])
  }

  /** The fills are fair, of orders among `ids` that are due, in id order and so one to an order. */
  ghost predicate FillsAreFair(s: Simulator, ids: set<nat>, e: MarketEvent, slip: int -> int, fees: FeeModel,
                               out: seq<Event>)
  {
    && (forall i :: 0 <= i < |out| && out[i].Execution? ==>
          && out[i].fill.orderId in ids && out[i].fill.orderId in s.working
          && Due(s.working[out[i].fill.orderId], e, slip)
          && Fair(out[i].fill, s.working[out[i].fill.orderId], e, slip, fees))
    && (forall i, j :: 0 <= i < j < |out| && out[i].Execution? && out[j].Execution? ==>
          out[i].fill.orderId < out[j].fill.orderId)
  }

  /** What a bar's sweep over the orders `ids` leaves and publishes. */
  ghost predicate FillsDue(s: Simulator, ids: set<nat>, e: MarketEvent, slip: int -> int, fees: FeeModel,
                           s': Simulator, out: seq<Event>)
  {
    DueAreFilled(s, ids, e, slip, s', out) && FillsAreFair(s, ids, e, slip, fees, out)
  }

  lemma NotDueIsLeft(s: Simulator, id: nat, ids: set<nat>, e: MarketEvent, slip: int -> int, fees: FeeModel,
                     s': Simulator, out: seq<Event>)
    requires id in ids && ids <= s.working.Keys && !Due(s.working[id], e, slip)
    requires FillsDue(s, ids - {id}, e, slip, fees, s', out)
    ensures FillsDue(s, ids, e, slip, fees, s', out)
  {
    hide Due, Fair;
  }

  lemma DueIsFilled(s: Simulator, id: nat, ids: set<nat>, e: MarketEvent, slip: int -> int, fees: FeeModel,
                    s1: Simulator, first: seq<Event>, s': Simulator, rest: seq<Event>)
    requires IsLeast(id, ids) && ids <= s.working.Keys && s.working[id].id == id
    requires Due(s.working[id], e, slip) && s1.working == s.working - {id}
    requires |first| == 2 && first[0].Execution? && first[1].OrderUpdate?
    requires Fair(first[0].fill, s.working[id], e, slip, fees) && first[0].fill.orderId == id
    requires FillsDue(s1, ids - {id}, e, slip, fees, s', rest)
    ensures FillsDue(s, ids, e, slip, fees, s', first + rest)
  {
    hide DueAreFilled, FillsAreFair;
    DueOneIsFilled(s, id, ids, e, slip, s1, first, s', rest);
    DueOneIsFair(s, id, ids, e, slip, fees, s1, first, rest);
  }

  lemma DueOneIsFilled(s: Simulator, id: nat, ids: set<nat>, e: MarketEvent, slip: int -> int,
                       s1: Simulator, first: seq<Event>, s': Simulator, rest: seq<Event>)
    requires id in ids && ids <= s.working.Keys && Due(s.working[id], e, slip)
    requires s1.working == s.working - {id}
    requires |first| == 2 && first[0].Execution? && first[0].fill.orderId == id
    requires DueAreFilled(s1, ids - {id}, e, slip, s', rest)
    ensures DueAreFilled(s, ids, e, slip, s', first + rest)
  {
    hide Due;
    var out := first + rest;
    assert out[0] == first[0];
    forall k | k in s.working && k != id && k in ids && Due(s.working[k], e, slip)
      ensures exists i :: 0 <= i < |out| && out[i].Execution? && out[i].fill.orderId == k
    {
      assert s1.working[k] == s.working[k];
      var i :| 0 <= i < |rest| && rest[i].Execution? && rest[i].fill.orderId == k;
      assert out[i + 2] == rest[i];
    }
  }

  lemma DueOneIsFair(s: Simulator, id: nat, ids: set<nat>, e: MarketEvent, slip: int -> int, fees: FeeModel,
                     s1: Simulator, first: seq<Event>, rest: seq<Event>)
    requires IsLeast(id, ids) && ids <= s.working.Keys && s.working[id].id == id
    requires Due(s.working[id], e, slip) && s1.working == s.working - {id}
    requires |first| == 2 && first[0].Execution? && first[1].OrderUpdate?
    requires Fair(first[0].fill, s.working[id], e, slip, fees) && first[0].fill.orderId == id
    requires FillsAreFair(s1, ids - {id}, e, slip, fees, rest)
    ensures FillsAreFair(s, ids, e, slip, fees, first + rest)
  {
    hide Due, Fair;
    var out := first + rest;
    forall i | 0 <= i < |out| && out[i].Execution?
      ensures i == 0 || (i >= 2 && out[i] == rest[i - 2])
    {
    }
    assert out[0] == first[0];
  }

  lemma {:induction false} SweepFillsDue(s: Simulator, ids: set<nat>, e: MarketEvent, slip: int -> int, fees: FeeModel)
    requires TableOk(s) && ids <= s.working.Keys && fees.Valid() && KeepsContract(NaiveModel(slip, fees))
    requires Reference(e).Some? && Reference(e).value > 0
    ensures var (s', out) := Sweep(s, ids, e, NaiveModel(slip, fees));
            FillsDue(s, ids, e, slip, fees, s', out)
    decreases |ids|
  {
    hide ExecuteAll, Due, Fair, NaiveModel, KeepsContract;
    var model := NaiveModel(slip, fees);
    if ids == {} {
    } else {
      var id := Least(ids);
      var order := s.working[id];
      if !Eligible(order, e) {
        SweepFillsDue(s, ids - {id}, e, slip, fees);
        assert !Due(order, e, slip) by { NotEligibleIsNotDue(order, e, slip); }
        NotDueIsLeft(s, id, ids, e, slip, fees, Sweep(s, ids - {id}, e, model).0, Sweep(s, ids - {id}, e, model).1);
      } else {
        NaiveIsFair(order, e, slip, fees);
        ModelAnswers(model, order, e);
        ExecuteAllKeepsTable(s, id, model(order, e), e.exchangeTime);
        var (s1, out1) := ExecuteAll(s, id, model(order, e), e.exchangeTime);
        if Due(order, e, slip) {
          OneIsExecuted(s, id, model(order, e)[0], e, slip, fees);
          assert model(order, e) == [model(order, e)[0]];
          SweepFillsDue(s1, ids - {id}, e, slip, fees);
          var (s2, out2) := Sweep(s1, ids - {id}, e, model);
          DueIsFilled(s, id, ids, e, slip, fees, s1, out1, s2, out2);
        } else {
          NothingIsExecuted(s, id, e.exchangeTime);
          SweepFillsDue(s, ids - {id}, e, slip, fees);
          var (s2, out2) := Sweep(s, ids - {id}, e, model);
          NotDueIsLeft(s, id, ids, e, slip, fees, s2, out2);
          assert [] + out2 == out2;
        }
      }
    }
  }

  lemma ModelAnswers(model: Model, order: Order, e: MarketEvent)
    requires KeepsContract(model) && 0 <= order.filledQuantity <= order.quantity
    requires Reference(e).Some? && Reference(e).value > 0
    ensures FillContract(order, model(order, e))
  {
  }

  lemma NothingIsExecuted(s: Simulator, id: nat, at: int)
    requires TableOk(s) && id in s.working
    ensures ExecuteAll(s, id, [], at) == (s, [])
  {
  }

  lemma NotEligibleIsNotDue(order: Order, e: MarketEvent, slip: int -> int)
    requires !Eligible(order, e)
    ensures !Due(order, e, slip)
  {
  }

  lemma OneIsExecuted(s: Simulator, id: nat, f: Fill, e: MarketEvent, slip: int -> int, fees: FeeModel)
    requires TableOk(s) && id in s.working && Fair(f, s.working[id], e, slip, fees)
    ensures var (s1, out) := ExecuteAll(s, id, [f], e.exchangeTime);
            && s1.working == s.working - {id} && |out| == 2 && out[0].Execution? && out[1].OrderUpdate?
            && Fair(out[0].fill, s.working[id], e, slip, fees) && out[0].fill.orderId == id
  {
    hide ExecuteAll;
    WholeFillExecutes(s, id, f, e.exchangeTime);
  }

  /**
   * One bar of a backtest fills exactly the open orders that are due, each once and whole, in id order: at the open, or
   * else the last trade, moved against the order by no more than the slippage and never beyond its limit.
   * Every other order is left as it was.
   */
  lemma BarFillsExactlyWhatIsDue(s: Simulator, e: MarketEvent, slip: int -> int, fees: FeeModel)
    requires TableOk(s) && fees.Valid() && KeepsContract(NaiveModel(slip, fees))
    ensures var (s', out) := OnMarket(s, e, NaiveModel(slip, fees));
            FillsDue(s, s.working.Keys, e, slip, fees, s', out)
  {
    hide NaiveModel, KeepsContract, Fair;
    if Reference(e).Some? && Reference(e).value > 0 {
      SweepFillsDue(s, s.working.Keys, e, slip, fees);
    }
  }

  // ----- the average price of an order ---------------------------------------------------

  /** The order after its executions, in turn. */
  function Worked(order: Order, fills: seq<Fill>, at: int): Order
    requires order.filledQuantity >= 0
    decreases |fills|
  {
    if fills == [] then order
    else if Shares(fills[0]) == 0 then Worked(order, fills[1..], at)
    else Worked(Executed(order, fills[0], at), fills[1..], at)
  }

  /** What the executions paid, and how many there were. */
  function Paid(fills: seq<Fill>): int {
    if fills == [] then 0 else fills[0].price * Shares(fills[0]) + Paid(fills[1..])
  }

  lemma ExecutionFollowsNotional(order: Order, f: Fill, at: int, paid: int, k: nat)
    requires Shares(f) > 0 && order.filledQuantity >= 0
    requires 2 * Abs(order.averageFillPrice.ValueOr(0) * order.filledQuantity - paid) <= k * order.filledQuantity
    ensures var next := Executed(order, f, at);
            2 * Abs(next.averageFillPrice.value * next.filledQuantity - (paid + f.price * Shares(f)))
            <= (k + 1) * next.filledQuantity
  {
    var a, n := order.averageFillPrice.ValueOr(0), order.filledQuantity;
    var total, m := a * n + f.price * Shares(f), n + Shares(f);
    DivRoundNearest(total, m);
    hide DivRound;
    assert k * n <= k * m by { ProductBounds(k, n, m); }
    assert (k + 1) * m == k * m + m;
  }

  /**
   * After any executions, an order's average price times its shares is what they paid in all, within half
   * a millionth per share and execution; so it is their volume-weighted price.
   */
  lemma {:induction false} AverageIsWhatWasPaid(order: Order, fills: seq<Fill>, at: int, paid: int, k: nat)
    requires order.filledQuantity >= 0
    requires 2 * Abs(order.averageFillPrice.ValueOr(0) * order.filledQuantity - paid) <= k * order.filledQuantity
    ensures var last := Worked(order, fills, at);
            && last.filledQuantity == order.filledQuantity + TotalShares(fills)
            && 2 * Abs(last.averageFillPrice.ValueOr(0) * last.filledQuantity - (paid + Paid(fills)))
               <= (k + |fills|) * last.filledQuantity
    decreases |fills|
  {
    hide AveragePrice;
    if fills == [] {
    } else if Shares(fills[0]) == 0 {
      AverageIsWhatWasPaid(order, fills[1..], at, paid, k);
      var n := Worked(order, fills[1..], at).filledQuantity;
      ProductMonotone(k + |fills[1..]|, k + |fills|, n);
    } else {
      ExecutionFollowsNotional(order, fills[0], at, paid, k);
      var next := Executed(order, fills[0], at);
      AverageIsWhatWasPaid(next, fills[1..], at, paid + fills[0].price * Shares(fills[0]), k + 1);
    }
  }

  /** The simulator's order is that one as long as it is open. */
  lemma {:induction false} OpenOrderIsWorked(s: Simulator, id: nat, fills: seq<Fill>, at: int)
    requires TableOk(s) && id in s.working && FillContract(s.working[id], fills)
    ensures var s' := ExecuteAll(s, id, fills, at).0;
            id in s'.working ==> s'.working[id] == Worked(s.working[id], fills, at)
    decreases |fills|
  {
    hide AveragePrice;
    if fills == [] {
    } else if Shares(fills[0]) == 0 {
      assert FillContract(s.working[id], fills[1..]);
      OpenOrderIsWorked(s, id, fills[1..], at);
    } else {
      ExecuteKeepsTable(s, id, fills, at);
      var s1 := Execute(s, id, fills[0], at).0;
      if id in s1.working { OpenOrderIsWorked(s1, id, fills[1..], at); }
    }
  }
}
