/** Fill model and execution simulator. */
module Execution {
  import opened Domain
  import opened Decimals
  import opened Portfolio
  import opened Accounting

  function Shares(f: Fill): nat {
    Abs(f.quantity)
  }

  function TotalShares(fills: seq<Fill>): nat {
    if fills == [] then 0 else Shares(fills[0]) + TotalShares(fills[1..])
  }

  /** What a fill model promises: well-formed executions of this order, at most what remains of it. */
  ghost predicate FillContract(order: Order, fills: seq<Fill>) {
    && (forall i :: 0 <= i < |fills| ==> ExecutionOf(order, fills[i]))
    && TotalShares(fills) <= order.quantity - order.filledQuantity
  }

  predicate ExecutionOf(order: Order, f: Fill) {
    && f.orderId == order.id && f.symbol == order.symbol
    && (if order.side == Buy then f.quantity >= 0 else f.quantity <= 0)
    && f.price > 0 && f.fees >= 0
  }

  // ----- the naive model -----------------------------------------------------------------

  function FeeFor(quantity: int, price: int, fees: FeeModel): int {
    fees.perTrade + fees.perShare * Abs(quantity) + fees.rate(price * Abs(quantity))
  }

  function SlippedPrice(order: Order, reference: int, slip: int): int {
    var moved := if order.side == Buy then reference + Abs(slip) else reference - Abs(slip);
    if order.orderType == Limit && order.limitPrice.Some? then
      if order.side == Buy then Min(moved, order.limitPrice.value) else Max(moved, order.limitPrice.value)
    else moved
  }

  predicate LimitReached(order: Order, reference: int) {
    order.orderType == Limit && order.limitPrice.Some? ==>
      if order.side == Buy then reference <= order.limitPrice.value else reference >= order.limitPrice.value
  }

  /** NaiveFillModel: everything that remains, at the slipped reference price, or nothing. */
  function NaiveFills(order: Order, reference: int, asOf: int, slip: int, fees: FeeModel): seq<Fill>
    requires reference > 0
  {
    var remaining := order.quantity - order.filledQuantity;
    var price := SlippedPrice(order, reference, slip);
    if remaining <= 0 || !LimitReached(order, reference) || price <= 0 then []
    else
      [Fill(0, order.id, order.runId, order.symbol, if order.side == Buy then remaining else -remaining,
            price, FeeFor(remaining, price, fees), price - reference, asOf, Complete, 0)]
  }

  lemma FeesNotNegative(quantity: int, price: int, fees: FeeModel)
    requires fees.Valid() && price >= 0
    ensures FeeFor(quantity, price, fees) >= 0
  {
    assert price * Abs(quantity) >= 0;
    assert fees.rate(0) <= fees.rate(price * Abs(quantity));
    assert fees.perShare * Abs(quantity) >= 0;
  }

  lemma NaiveMeetsContract(order: Order, reference: int, asOf: int, slip: int, fees: FeeModel)
    requires reference > 0 && fees.Valid() && order.filledQuantity <= order.quantity
    ensures FillContract(order, NaiveFills(order, reference, asOf, slip, fees))
    ensures forall f :: f in NaiveFills(order, reference, asOf, slip, fees) ==>
              && Shares(f) == order.quantity - order.filledQuantity
              && (order.orderType == Limit && order.limitPrice.Some? ==>
                    if order.side == Buy then f.price <= order.limitPrice.value
                    else f.price >= order.limitPrice.value)
  {
    var fills := NaiveFills(order, reference, asOf, slip, fees);
    if fills != [] {
      FeesNotNegative(order.quantity - order.filledQuantity, fills[0].price, fees);
      assert TotalShares(fills[1..]) == 0;
    }
  }

  /** A limit buy filled by the naive model never costs more than its hold: buying power cannot fall. */
  lemma LimitBuyNeverLowersPower(p: Account, order: Order, reference: int, asOf: int, slip: int)
    requires p.fees.Valid() && reference > 0
    requires order.side == Buy && order.orderType == Limit && order.limitPrice.Some?
    requires order.id in p.openOrders
    requires var o := p.openOrders[order.id];
             && o.remaining == order.quantity - order.filledQuantity > 0
             && o.reserved == WithFees(p.fees, order.limitPrice.value * o.remaining, o.remaining)
    ensures forall f :: f in NaiveFills(order, reference, asOf, slip, p.fees) ==>
              BuyingPower(SettleFill(p, f)) >= BuyingPower(p)
  {
    hide DivRound, NextPosition, FeeFor, WithFees;
    var fills := NaiveFills(order, reference, asOf, slip, p.fees);
    if fills != [] {
      var f := fills[0];
      NaiveMeetsContract(order, reference, asOf, slip, p.fees);
      FillMovesBuyingPower(p, f);
      HoldCoversCost(p.fees, order.limitPrice.value, f.price, f.quantity);
    }
  }

  lemma HoldCoversCost(fees: FeeModel, limit: int, price: int, n: nat)
    requires fees.Valid() && price <= limit
    ensures price * n + FeeFor(n, price, fees) <= WithFees(fees, limit * n, n)
  {
    assert n * (limit - price) >= 0;
    assert price * n <= limit * n;
    assert fees.rate(price * n) <= fees.rate(limit * n);
  }

  // ----- the simulator -------------------------------------------------------------------

  datatype Simulator = Simulator(runId: nat, working: map<nat, Order>, fillCounts: map<nat, nat>,
                                 lastOrderId: nat, lastFillId: nat)

  function NewOrder(s: Simulator, g: Signal, now: int): Order {
    var kind := g.orderType.ValueOr(Market);
    Order(s.lastOrderId + 1, s.runId, g.id, g.symbol, if g.side == SellSignal then Sell else Buy, kind,
          if kind == Limit then g.limitPrice else None, g.quantity.ValueOr(0), New, 0, None, now, now)
  }

  predicate CannotBecomeOrder(g: Signal) {
    || g.side == Flat
    || g.quantity.ValueOr(0) <= 0
    || (g.orderType.ValueOr(Market) == Limit && g.limitPrice.None?)
  }

  /** Every signal uses one order id and publishes one order: Working, or Rejected when it is unusable. */
  function Submit(s: Simulator, g: Signal, now: int): (Simulator, Order) {
    var order := NewOrder(s, g, now);
    if CannotBecomeOrder(g) then
      (s.(lastOrderId := order.id), order.(status := Rejected))
    else
      var live := order.(status := Working);
      (s.(lastOrderId := order.id, working := s.working[order.id := live]), live)
  }

  function AveragePrice(order: Order, f: Fill): int
    requires Shares(f) > 0 && order.filledQuantity >= 0
  {
    DivRound(order.averageFillPrice.ValueOr(0) * order.filledQuantity + f.price * Shares(f),
             order.filledQuantity + Shares(f))
  }

  function Executed(order: Order, f: Fill, at: int): Order
    requires Shares(f) > 0 && order.filledQuantity >= 0
  {
    var filled := order.filledQuantity + Shares(f);
    order.(filledQuantity := filled,
           averageFillPrice := Some(AveragePrice(order, f)),
           updatedAt := at,
           status := if filled >= order.quantity then Filled else PartiallyFilled)
  }

  function Stamped(s: Simulator, order: Order, f: Fill): Fill {
    f.(id := s.lastFillId + 1,
       runId := order.runId,
       sequence := (if order.id in s.fillCounts then s.fillCounts[order.id] else 0) + 1,
       status := if order.status == Filled then Complete else Partial)
  }

  /** One execution: the order moves, the fill gets its id and sequence, a filled order leaves the table. */
  function Execute(s: Simulator, id: nat, f: Fill, at: int): (Simulator, seq<Event>)
    requires id in s.working && s.working[id].filledQuantity >= 0 && Shares(f) > 0
  {
    var order := Executed(s.working[id], f, at);
    var fill := Stamped(s, order, f);
    var s' := s.(lastFillId := fill.id,
                 working := if order.status == Filled then s.working - {id} else s.working[id := order],
                 fillCounts := if order.status == Filled then s.fillCounts - {order.id}
                               else s.fillCounts[order.id := fill.sequence]);
    (s', [Execution(fill), OrderUpdate(order)])
  }

  /** The executions a fill model returned for one order, in turn. */
  function ExecuteAll(s: Simulator, id: nat, fills: seq<Fill>, at: int): (Simulator, seq<Event>)
    requires id in s.working ==> s.working[id].filledQuantity >= 0
    decreases |fills|
  {
    if fills == [] || id !in s.working then (s, [])
    else if Shares(fills[0]) == 0 then ExecuteAll(s, id, fills[1..], at)
    else
      var (s1, out1) := Execute(s, id, fills[0], at);
      var (s2, out2) := ExecuteAll(s1, id, fills[1..], at);
      (s2, out1 + out2)
  }

  /** The volume-weighted average never leaves the range of the execution prices. */
  lemma AverageStaysInRange(order: Order, f: Fill, lo: int, hi: int)
    requires Shares(f) > 0 && order.filledQuantity >= 0 && lo <= f.price <= hi
    requires order.filledQuantity > 0 ==> lo <= order.averageFillPrice.ValueOr(0) <= hi
    ensures lo <= AveragePrice(order, f) <= hi
  {
    hide DivRound;
    WeightedBetween(order.averageFillPrice.ValueOr(0), order.filledQuantity, f.price, Shares(f), lo, hi);
  }

  lemma WeightedBetween(a: int, n: nat, price: int, m: nat, lo: int, hi: int)
    requires m > 0 && lo <= price <= hi && (n > 0 ==> lo <= a <= hi)
    ensures lo <= DivRound(a * n + price * m, n + m) <= hi
  {
    hide DivRound;
    if n > 0 {
      assert (a - lo) * n >= 0 && (hi - a) * n >= 0;
    }
    assert (price - lo) * m >= 0 && (hi - price) * m >= 0;
    assert lo * (n + m) <= a * n + price * m <= hi * (n + m);
    DivRoundBetween(a * n + price * m, n + m, lo, hi);
  }

  predicate Eligible(order: Order, e: MarketEvent) {
    order.symbol == e.symbol && order.createdAt < e.exchangeTime
  }

  function Reference(e: MarketEvent): Option<int> {
    if e.open.Some? then e.open else e.price
  }

  ghost function Least(ids: set<nat>): (least: nat)
    requires ids != {}
    ensures IsLeast(least, ids)
  {
    LeastExists(ids);
    var least :| IsLeast(least, ids);
    least
  }

  ghost predicate IsLeast(least: nat, ids: set<nat>) {
    least in ids && forall i :: i in ids ==> least <= i
  }

  lemma {:induction false} LeastExists(ids: set<nat>)
    requires ids != {}
    ensures exists least :: IsLeast(least, ids)
    decreases |ids|
  {
    var x :| x in ids;
    if ids == {x} {
      assert IsLeast(x, ids);
    } else {
      assert ids - {x} != {};
      LeastExists(ids - {x});
      var y :| IsLeast(y, ids - {x});
      LesserIsLeast(ids, x, y);
    }
  }

  lemma LesserIsLeast(ids: set<nat>, x: nat, y: nat)
    requires x in ids && IsLeast(y, ids - {x})
    ensures IsLeast(if x < y then x else y, ids)
  {
    assert forall i :: i in ids ==> i == x || i in ids - {x};
  }

  /** A fill model as the simulator sees it: the order, the bar and its reference price. */
  type Model = (Order, MarketEvent) -> seq<Fill>

  ghost predicate KeepsContract(model: Model) {
    forall order: Order, e: MarketEvent {:trigger model(order, e)} ::
      0 <= order.filledQuantity <= order.quantity && Reference(e).Some? && Reference(e).value > 0 ==>
      FillContract(order, model(order, e))
  }

  /** The model of a backtest: the naive fills at the reference price, whose slippage `slip` gives. */
  function NaiveModel(slip: int -> int, fees: FeeModel): Model {
    (order: Order, e: MarketEvent) =>
      var reference := Reference(e).ValueOr(0);
      if reference > 0 then NaiveFills(order, reference, e.exchangeTime, slip(reference), fees) else []
  }

  lemma NaiveModelFills(slip: int -> int, fees: FeeModel, order: Order, e: MarketEvent)
    requires Reference(e).Some? && Reference(e).value > 0
    ensures NaiveModel(slip, fees)(order, e)
         == NaiveFills(order, Reference(e).value, e.exchangeTime, slip(Reference(e).value), fees)
  {
  }

  lemma NaiveKeepsContract(slip: int -> int, fees: FeeModel)
    requires fees.Valid()
    ensures KeepsContract(NaiveModel(slip, fees))
  {
    var model := NaiveModel(slip, fees);
    forall order: Order, e: MarketEvent | 0 <= order.filledQuantity <= order.quantity
                                          && Reference(e).Some? && Reference(e).value > 0
      ensures FillContract(order, model(order, e))
    {
      NaiveMeetsContract(order, Reference(e).value, e.exchangeTime, slip(Reference(e).value), fees);
    }
  }

  ghost predicate TableOk(s: Simulator) {
    && s.fillCounts.Keys <= s.working.Keys
    && forall id :: id in s.working ==>
        && s.working[id].id == id <= s.lastOrderId
        && s.working[id].runId == s.runId
        && 0 <= s.working[id].filledQuantity < s.working[id].quantity
        && (id in s.fillCounts <==> s.working[id].filledQuantity > 0)
  }

  ghost predicate OnlyMoves(s: Simulator, s': Simulator, id: nat) {
    && s'.runId == s.runId
    && s'.working.Keys <= s.working.Keys
    && forall k :: k in s.working && k != id ==> k in s'.working && s'.working[k] == s.working[k]
  }

  lemma ExecuteKeepsTable(s: Simulator, id: nat, fills: seq<Fill>, at: int)
    requires TableOk(s) && id in s.working && fills != [] && Shares(fills[0]) > 0
    requires FillContract(s.working[id], fills)
    ensures var s' := Execute(s, id, fills[0], at).0;
            && TableOk(s')
            && OnlyMoves(s, s', id)
            && (id in s'.working ==> FillContract(s'.working[id], fills[1..]))
  {
    hide AveragePrice;
    assert TotalShares(fills) == Shares(fills[0]) + TotalShares(fills[1..]);
    var s' := Execute(s, id, fills[0], at).0;
    forall i | id in s'.working && 0 <= i < |fills| - 1
      ensures ExecutionOf(s'.working[id], fills[1..][i])
    {
      assert fills[1..][i] == fills[i + 1];
    }
  }

  lemma {:induction false} ExecuteAllKeepsTable(s: Simulator, id: nat, fills: seq<Fill>, at: int)
    requires TableOk(s) && id in s.working
    requires FillContract(s.working[id], fills)
    ensures var s' := ExecuteAll(s, id, fills, at).0;
            && TableOk(s')
            && OnlyMoves(s, s', id)
    decreases |fills|
  {
    hide AveragePrice;
    if fills == [] {
    } else {
      if Shares(fills[0]) == 0 {
        assert FillContract(s.working[id], fills[1..]);
        ExecuteAllKeepsTable(s, id, fills[1..], at);
      } else {
        ExecuteKeepsTable(s, id, fills, at);
        var s1 := Execute(s, id, fills[0], at).0;
        if id in s1.working {
          ExecuteAllKeepsTable(s1, id, fills[1..], at);
        }
      }
    }
  }

  /** A market event: every eligible working order, in id order, is offered to the fill model. */
  ghost function Sweep(s: Simulator, ids: set<nat>, e: MarketEvent, model: Model): (result: (Simulator, seq<Event>))
    requires TableOk(s) && ids <= s.working.Keys
    requires KeepsContract(model) && Reference(e).Some? && Reference(e).value > 0
    ensures TableOk(result.0)
    decreases |ids|
  {
    if ids == {} then (s, [])
    else
      var id := Least(ids);
      var order := s.working[id];
      if !Eligible(order, e) then Sweep(s, ids - {id}, e, model)
      else
        ExecuteAllKeepsTable(s, id, model(order, e), e.exchangeTime);
        var (s1, out1) := ExecuteAll(s, id, model(order, e), e.exchangeTime);
        var (s2, out2) := Sweep(s1, ids - {id}, e, model);
        (s2, out1 + out2)
  }

  ghost function OnMarket(s: Simulator, e: MarketEvent, model: Model): (result: (Simulator, seq<Event>))
    requires TableOk(s) && KeepsContract(model)
    ensures TableOk(result.0)
  {
    if Reference(e).None? || Reference(e).value <= 0 then (s, [])
    else Sweep(s, s.working.Keys, e, model)
  }

  ghost predicate FillsOrdersBefore(out: seq<Event>, s: Simulator, ids: set<nat>, e: MarketEvent) {
    forall x :: x in out && x.Execution? ==>
      x.fill.orderId in ids && x.fill.orderId in s.working && Eligible(s.working[x.fill.orderId], e)
  }

  lemma {:induction false} ExecuteAllFillsOne(s: Simulator, id: nat, fills: seq<Fill>, at: int)
    requires TableOk(s) && id in s.working && FillContract(s.working[id], fills)
    ensures forall x :: x in ExecuteAll(s, id, fills, at).1 && x.Execution? ==> x.fill.orderId == id
    decreases |fills|
  {
    hide AveragePrice;
    if fills == [] {
    } else if Shares(fills[0]) == 0 {
      assert FillContract(s.working[id], fills[1..]);
      ExecuteAllFillsOne(s, id, fills[1..], at);
    } else {
      assert ExecutionOf(s.working[id], fills[0]);
      ExecuteKeepsTable(s, id, fills, at);
      var s1 := Execute(s, id, fills[0], at).0;
      if id in s1.working {
        ExecuteAllFillsOne(s1, id, fills[1..], at);
      }
    }
  }

  /** A bar fills only orders on its symbol created before its time: never one its own close led to. */
  lemma {:induction false} SweepFillsEarlierOrders(s: Simulator, ids: set<nat>, e: MarketEvent, model: Model)
    requires TableOk(s) && ids <= s.working.Keys
    requires KeepsContract(model) && Reference(e).Some? && Reference(e).value > 0
    ensures FillsOrdersBefore(Sweep(s, ids, e, model).1, s, ids, e)
    decreases |ids|
  {
    hide ExecuteAll;
    if ids == {} {
    } else {
      var id := Least(ids);
      if !Eligible(s.working[id], e) {
        SweepFillsEarlierOrders(s, ids - {id}, e, model);
      } else {
        var fills := model(s.working[id], e);
        ExecuteAllKeepsTable(s, id, fills, e.exchangeTime);
        ExecuteAllFillsOne(s, id, fills, e.exchangeTime);
        SweepFillsEarlierOrders(ExecuteAll(s, id, fills, e.exchangeTime).0, ids - {id}, e, model);
      }
    }
  }

  method FindLeast(ids: set<nat>) returns (least: nat)
    requires ids != {}
    ensures least == Least(ids)
  {
    least :| least in ids;
    var left := ids - {least};
    while left != {}
      invariant least in ids && left <= ids
      invariant forall i :: i in ids && i !in left ==> least <= i
      decreases |left|
    {
      var i :| i in left;
      if i < least { least := i; }
      left := left - {i};
    }
  }

  class ExecutionSimulator {
    const runId: nat
    const model: Model
    var working: map<nat, Order>
    var fillCounts: map<nat, nat>
    var lastOrderId: nat
    var lastFillId: nat

    ghost function Value(): Simulator
      reads this
    {
      Simulator(runId, working, fillCounts, lastOrderId, lastFillId)
    }

    ghost predicate Valid()
      reads this
    {
      TableOk(Value()) && KeepsContract(model)
    }

    constructor (runId: nat, model: Model)
      requires KeepsContract(model)
      ensures Valid() && Value() == Simulator(runId, map[], map[], 0, 0) && this.model == model
    {
      this.runId, this.model := runId, model;
      working, fillCounts, lastOrderId, lastFillId := map[], map[], 0, 0;
    }

    /** Turns an approved signal into an order; returns the order event to publish. */
    method SubmitSignal(g: Signal, now: int) returns (order: Order)
      requires Valid()
      modifies this
      ensures Valid() && (Value(), order) == Submit(old(Value()), g, now)
    {
      lastOrderId := lastOrderId + 1;
      var kind := g.orderType.ValueOr(Market);
      order := Order(lastOrderId, runId, g.id, g.symbol, if g.side == SellSignal then Sell else Buy, kind,
                     if kind == Limit then g.limitPrice else None, g.quantity.ValueOr(0), New, 0, None, now, now);
      var reject := false;
      if g.side == Flat {
        reject := true;
      } else if order.quantity <= 0 {
        reject := true;
      } else if kind == Limit && order.limitPrice.None? {
        reject := true;
      }
      if reject {
        order := order.(status := Rejected);
      } else {
        order := order.(status := Working);
        working := working[order.id := order];
      }
    }

    method OnMarketEvent(e: MarketEvent) returns (out: seq<Event>)
      requires Valid()
      modifies this
      ensures Valid() && (Value(), out) == OnMarket(old(Value()), e, model)
    {
      hide ExecuteAll, Least, Sweep, KeepsContract, FillContract, TableOk;
      out := [];
      var reference := if e.open.Some? then e.open else e.price;
      if reference.None? || reference.value <= 0 { return; }
      var left := working.Keys;
      assert out + Sweep(Value(), left, e, model).1 == Sweep(Value(), left, e, model).1;
      while left != {}
        invariant Valid() && left <= working.Keys
        invariant var rest := Sweep(Value(), left, e, model);
                  (rest.0, out + rest.1) == OnMarket(old(Value()), e, model)
        decreases |left|
      {
        var id := FindLeast(left);
        var order := working[id];
        ghost var before, sent := Value(), out;
        SweepStep(before, left, e, model);
        if order.symbol == e.symbol && order.createdAt < e.exchangeTime {
          ModelKeepsContract(order, e);
          ExecuteAllKeepsTable(Value(), id, model(order, e), e.exchangeTime);
          var published := Fills(id, model(order, e), e.exchangeTime);
          out := out + published;
          assert sent + (published + Sweep(Value(), left - {id}, e, model).1)
              == out + Sweep(Value(), left - {id}, e, model).1;
        }
        left := left - {id};
      }
      SweptNothing(Value(), left, e, model);
      assert out + [] == out;
    }

    lemma ModelKeepsContract(order: Order, e: MarketEvent)
      requires KeepsContract(model) && 0 <= order.filledQuantity <= order.quantity
      requires Reference(e).Some? && Reference(e).value > 0
      ensures FillContract(order, model(order, e))
    {
    }

    lemma SweepStep(s: Simulator, ids: set<nat>, e: MarketEvent, model: Model)
      requires TableOk(s) && ids <= s.working.Keys && ids != {}
      requires KeepsContract(model) && Reference(e).Some? && Reference(e).value > 0
      ensures var id := Least(ids);
              && 0 <= s.working[id].filledQuantity <= s.working[id].quantity
              && if Eligible(s.working[id], e) then
                   var (s1, out1) := ExecuteAll(s, id, model(s.working[id], e), e.exchangeTime);
                   && TableOk(s1) && ids - {id} <= s1.working.Keys
                   && var (s2, out2) := Sweep(s1, ids - {id}, e, model);
                      Sweep(s, ids, e, model) == (s2, out1 + out2)
                 else Sweep(s, ids, e, model) == Sweep(s, ids - {id}, e, model)
    {
      hide ExecuteAll, FillContract;
      var id := Least(ids);
      if Eligible(s.working[id], e) { ExecuteAllKeepsTable(s, id, model(s.working[id], e), e.exchangeTime); }
    }

    lemma SweptNothing(s: Simulator, ids: set<nat>, e: MarketEvent, model: Model)
      requires TableOk(s) && ids == {}
      requires KeepsContract(model) && Reference(e).Some? && Reference(e).value > 0
      ensures Sweep(s, ids, e, model) == (s, [])
    {
    }

    /** The inner loop over the fills the model returned for one order. */
    method Fills(id: nat, fills: seq<Fill>, at: int) returns (out: seq<Event>)
      requires Valid() && id in working && FillContract(working[id], fills)
      modifies this
      ensures Valid() && (Value(), out) == ExecuteAll(old(Value()), id, fills, at)
    {
      hide Execute, FillContract, ExecuteAll;
      out := [];
      ghost var start := Value();
      ExecuteAllKeepsTable(start, id, fills, at);
      var i := 0;
      assert fills[0..] == fills;
      assert out + ExecuteAll(start, id, fills, at).1 == ExecuteAll(start, id, fills, at).1;
      while i < |fills| && id in working
        invariant 0 <= i <= |fills|
        invariant TableOk(Value())
        invariant id in working ==> FillContract(working[id], fills[i..])
        invariant var rest := ExecuteAll(Value(), id, fills[i..], at);
                  (rest.0, out + rest.1) == ExecuteAll(start, id, fills, at)
        decreases |fills| - i
      {
        var f := fills[i];
        assert fills[i..][0] == f && fills[i..][1..] == fills[i + 1..];
        ghost var before, sent := Value(), out;
        OneFill(before, id, fills[i..], at);
        if Shares(f) == 0 {
          NothingFilled(before, id, fills[i..]);
        } else {
          ExecuteKeepsTable(before, id, fills[i..], at);
          var published := Take(id, f, at);
          out := out + published;
          ghost var rest := ExecuteAll(Value(), id, fills[i + 1..], at);
          assert sent + (published + rest.1) == out + rest.1;
        }
        i := i + 1;
      }
      NoMoreFills(Value(), id, fills[i..], at);
      assert out + [] == out;
    }

    lemma OneFill(s: Simulator, id: nat, fills: seq<Fill>, at: int)
      requires fills != [] && id in s.working && TableOk(s)
      ensures Shares(fills[0]) == 0 ==> ExecuteAll(s, id, fills, at) == ExecuteAll(s, id, fills[1..], at)
      ensures Shares(fills[0]) > 0 && FillContract(s.working[id], fills) ==>
                var (s1, out1) := Execute(s, id, fills[0], at);
                TableOk(s1) && var (s2, out2) := ExecuteAll(s1, id, fills[1..], at);
                               ExecuteAll(s, id, fills, at) == (s2, out1 + out2)
    {
      if Shares(fills[0]) > 0 && FillContract(s.working[id], fills) { ExecuteKeepsTable(s, id, fills, at); }
    }

    lemma NothingFilled(s: Simulator, id: nat, fills: seq<Fill>)
      requires fills != [] && id in s.working && FillContract(s.working[id], fills) && Shares(fills[0]) == 0
      ensures FillContract(s.working[id], fills[1..])
    {
    }

    lemma NoMoreFills(s: Simulator, id: nat, fills: seq<Fill>, at: int)
      requires TableOk(s) && (fills == [] || id !in s.working)
      ensures ExecuteAll(s, id, fills, at) == (s, [])
    {
    }

    method Take(id: nat, f: Fill, at: int) returns (out: seq<Event>)
      requires TableOk(Value()) && id in working && Shares(f) > 0
      modifies this
      ensures (Value(), out) == Execute(old(Value()), id, f, at)
    {
      var order := Executed(working[id], f, at);
      lastFillId := lastFillId + 1;
      var count := (if id in fillCounts then fillCounts[id] else 0) + 1;
      var stamped := f.(id := lastFillId, runId := order.runId, sequence := count,
                        status := if order.status == Filled then Complete else Partial);
      if order.status == Filled {
        fillCounts := fillCounts - {id};
        working := working - {id};
      } else {
        fillCounts := fillCounts[id := count];
        working := working[id := order];
      }
      out := [Execution(stamped), OrderUpdate(order)];
    }
  }
}
