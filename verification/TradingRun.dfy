/**
 * Whole runs of signal, check, hold, order, fill and settlement over one bus.
 *
 * Every handler runs on the bus dispatcher; the bus is a first-in first-out queue whose publishes
 * succeed; signal ids are fresh. The portfolio lags the simulator by exactly what is in the queue.
 */
module TradingRun {
  import opened Domain
  import opened Decimals
  import opened MapSums
  import opened Portfolio
  import opened Accounting
  import opened Execution
  import opened Risk

  datatype World = World(account: Account, sim: Simulator, desk: Desk, queue: seq<Event>, now: int,
                         minted: set<nat>, decided: set<nat>,
                         lastMarks: map<Symbol, MarketEvent>,
                         fillsApplied: nat, fillsIgnored: nat, errors: nat)

  datatype Action =
    | EmitSignal(signal: Signal)          // a strategy publishes a signal with a new id
    | PublishMarket(market: MarketEvent)  // the data source publishes an event
    | FeedExecution(market: MarketEvent)  // the simulator sees an event
    | Dispatch                            // the bus delivers its oldest event
    | SetKill(engaged: bool)
    | Tick(now: int)

  function InitialWorld(runId: nat, startingCash: int, fees: FeeModel, limits: Limits, policies: seq<Policy>): World {
    World(Initial(runId, startingCash, fees), Simulator(runId, map[], map[], 0, 0),
          Desk(limits, policies, map[], -1, None, false), [], 0, {}, {}, map[], 0, 0, 0)
  }

  ghost predicate Enabled(w: World, a: Action) {
    match a
    case EmitSignal(g) => g.id !in w.minted
    case Dispatch => w.queue != []
    case _ => true
  }

  /** The bridge's Fill handler: settle, then put back a mark at least as new as the fill. */
  function DeliverFill(w: World, f: Fill): World {
    match ApplyFill(w.account, f)
    case Ignored => w.(fillsIgnored := w.fillsIgnored + 1)
    case Refused(_) => w.(errors := w.errors + 1)
    case Applied(after) =>
      var remark := f.symbol in w.lastMarks && w.lastMarks[f.symbol].exchangeTime >= f.filledAt;
      w.(account := if remark then ApplyMark(after, w.lastMarks[f.symbol]) else after,
         fillsApplied := w.fillsApplied + 1)
  }

  /** The risk manager's Signal handler: decide, report, and hand an approved signal to the simulator. */
  ghost function DeliverSignal(w: World, g: Signal): World {
    var (account, decision) := CheckSignal(w.desk, w.account, g, w.now);
    var reported := w.(account := account, queue := w.queue + [RiskDecided], decided := w.decided + {g.id});
    if !decision.approved then reported
    else
      var (sim, order) := Submit(w.sim, Sized(g, decision), w.now);
      reported.(sim := sim, queue := reported.queue + [OrderUpdate(order)])
  }

  ghost function Deliver(w: World, e: Event): World {
    match e
    case MarketData(m) =>
      w.(desk := ObserveMarket(w.desk, w.account, m),
         account := ApplyMark(w.account, m),
         lastMarks := w.lastMarks[m.symbol := m])
    case SignalMade(g) => DeliverSignal(w, g)
    case OrderUpdate(o) => w.(account := ApplyOrderUpdate(w.account, o))
    case Execution(f) => DeliverFill(w, f)
    case RiskDecided => w
  }

  lemma SubmitKeepsTable(s: Simulator, g: Signal, now: int)
    requires TableOk(s)
    ensures TableOk(Submit(s, g, now).0)
  {
    assert s.lastOrderId + 1 !in s.working;
  }

  ghost function Next(w: World, a: Action, model: Model): (w': World)
    requires TableOk(w.sim) && KeepsContract(model) && Enabled(w, a)
    ensures TableOk(w'.sim)
  {
    match a
    case EmitSignal(g) => w.(queue := w.queue + [SignalMade(g)], minted := w.minted + {g.id})
    case PublishMarket(m) => w.(queue := w.queue + [MarketData(m)])
    case FeedExecution(m) =>
      var (sim, out) := OnMarket(w.sim, m, model);
      w.(sim := sim, queue := w.queue + out)
    case Dispatch =>
      forall g { SubmitKeepsTable(w.sim, g, w.now); }
      Deliver(w.(queue := w.queue[1..]), w.queue[0])
    case SetKill(engaged) => w.(desk := w.desk.(killed := engaged))
    case Tick(now) => w.(now := now)
  }

  ghost predicate Feasible(w: World, actions: seq<Action>, model: Model)
    requires TableOk(w.sim) && KeepsContract(model)
    decreases |actions|
  {
    actions == [] || (Enabled(w, actions[0]) && Feasible(Next(w, actions[0], model), actions[1..], model))
  }

  ghost function After(w: World, actions: seq<Action>, model: Model): (w': World)
    requires TableOk(w.sim) && KeepsContract(model) && Feasible(w, actions, model)
    ensures TableOk(w'.sim)
    decreases |actions|
  {
    if actions == [] then w else After(Next(w, actions[0], model), actions[1..], model)
  }

  // ----- what the queue will do to the portfolio -----------------------------------------

  /** The state an event finds when the portfolio can take it without refusing or dropping it. */
  ghost predicate Accepts(p: Account, e: Event) {
    match e
    case OrderUpdate(o) =>
      && o.runId == p.runId
      && match o.status {
           case Working =>
             && o.id !in p.openOrders && o.id !in p.closedOrders
             && o.filledQuantity == 0 && o.quantity > 0
             && o.originSignal in p.holds
             && var h := p.holds[o.originSignal];
                h.symbol == o.symbol && h.side == o.side && h.quantity == o.quantity
           case Rejected => o.id !in p.openOrders
           case PartiallyFilled => true
           case Filled => true
           case _ => false
         }
    case Execution(f) =>
      && ApplyFill(p, f).Applied?
      && f.orderId in p.openOrders
      && var o := p.openOrders[f.orderId];
         && o.symbol == f.symbol
         && (if o.side == Buy then f.quantity > 0 else f.quantity < 0)
         && Abs(f.quantity) <= o.remaining
         && (f.status == Complete <==> Abs(f.quantity) == o.remaining)
    case _ => true
  }

  ghost function Absorb(p: Account, e: Event): Account {
    match e
    case OrderUpdate(o) => ApplyOrderUpdate(p, o)
    case Execution(f) => if ApplyFill(p, f).Applied? then ApplyFill(p, f).after else p
    case _ => p
  }

  ghost predicate AcceptsAll(p: Account, events: seq<Event>)
    decreases |events|
  {
    events == [] || (Accepts(p, events[0]) && AcceptsAll(Absorb(p, events[0]), events[1..]))
  }

  ghost function Drain(p: Account, events: seq<Event>): Account
    decreases |events|
  {
    if events == [] then p else Drain(Absorb(p, events[0]), events[1..])
  }

  lemma {:induction false} DrainConcat(p: Account, a: seq<Event>, b: seq<Event>)
    ensures AcceptsAll(p, a + b) <==> AcceptsAll(p, a) && AcceptsAll(Drain(p, a), b)
    ensures Drain(p, a + b) == Drain(Drain(p, a), b)
    decreases |a|
  {
    if a == [] {
      assert a + b == b;
    } else {
      assert (a + b)[1..] == a[1..] + b;
      DrainConcat(Absorb(p, a[0]), a[1..], b);
    }
  }

  // ----- agreement of the two order tables -----------------------------------------------

  predicate SameOrder(pending: PendingOrder, order: Order) {
    && pending.originSignal == order.originSignal
    && pending.symbol == order.symbol && pending.side == order.side
    && pending.remaining == order.quantity - order.filledQuantity > 0
  }

  /** The portfolio's projection is the simulator's table, and no signal hold is left. */
  ghost predicate Agrees(p: Account, s: Simulator) {
    && p.runId == s.runId
    && p.holds == map[]
    && p.openOrders.Keys == s.working.Keys
    && (forall id :: id in s.working ==> SameOrder(p.openOrders[id], s.working[id]))
    && p.lastSequence == s.fillCounts
    && (forall id :: id in p.closedOrders ==> id <= s.lastOrderId && id !in s.working)
    && (forall id :: id in p.appliedFills ==> id <= s.lastFillId)
  }

  /** The portfolio can take the fill of one execution. */
  lemma ExecutionIsAccepted(p: Account, s: Simulator, id: nat, f: Fill, at: int)
    requires TableOk(s) && Agrees(p, s) && id in s.working
    requires ExecutionOf(s.working[id], f)
    requires 0 < Shares(f) <= s.working[id].quantity - s.working[id].filledQuantity
    ensures var fill := Execute(s, id, f, at).1[0].fill;
            Accepts(p, Execution(fill)) && ApplyFill(p, fill) == Applied(SettleFill(p, fill))
  {
    hide AveragePrice, SettleFill;
  }

  /** Settling it moves the portfolio's order table as the simulator moved its own. */
  lemma SettlementMovesOrder(p: Account, s: Simulator, id: nat, f: Fill, at: int)
    requires TableOk(s) && Agrees(p, s) && id in s.working && f.orderId == id
    requires 0 < Shares(f) <= s.working[id].quantity - s.working[id].filledQuantity
    ensures var (s', out) := Execute(s, id, f, at);
            var p' := ReleaseForFill(p, out[0].fill);
            && p'.openOrders.Keys == s'.working.Keys
            && (forall k :: k in s'.working ==> SameOrder(p'.openOrders[k], s'.working[k]))
            && (forall k :: k in p'.closedOrders ==> k <= s'.lastOrderId && k !in s'.working)
  {
    hide AveragePrice, ReservedAfter;
    var fill := Execute(s, id, f, at).1[0].fill;
    assert SameOrder(p.openOrders[id], s.working[id]);
    var remainder := s.working[id].quantity - s.working[id].filledQuantity;
    assert FillCompletes(p.openOrders[id], fill) <==> Shares(f) == remainder;
    if Shares(f) == remainder {
      hide SameOrder;
      assert Execute(s, id, f, at).0.working == s.working - {id};
      assert ReleaseForFill(p, fill).openOrders == p.openOrders - {id};
    }
  }

  lemma SettlementAgrees(p: Account, s: Simulator, id: nat, f: Fill, at: int)
    requires TableOk(s) && Agrees(p, s) && id in s.working
    requires ExecutionOf(s.working[id], f)
    requires 0 < Shares(f) <= s.working[id].quantity - s.working[id].filledQuantity
    ensures var (s', out) := Execute(s, id, f, at);
            Agrees(SettleFill(p, out[0].fill), s')
  {
    hide AveragePrice, NextPosition, ReservedAfter, SameOrder, FillCompletes;
    SettlementMovesOrder(p, s, id, f, at);
    ReleaseKeepsHolds(p, Execute(s, id, f, at).1[0].fill);
  }

  lemma ExecuteAgrees(p: Account, s: Simulator, id: nat, f: Fill, at: int)
    requires TableOk(s) && Agrees(p, s) && id in s.working
    requires ExecutionOf(s.working[id], f)
    requires 0 < Shares(f) <= s.working[id].quantity - s.working[id].filledQuantity
    ensures var (s', out) := Execute(s, id, f, at);
            AcceptsAll(p, out) && Agrees(Drain(p, out), s')
  {
    var (s', out) := Execute(s, id, f, at);
    ExecutionIsAccepted(p, s, id, f, at);
    SettlementAgrees(p, s, id, f, at);
    SettledPairDrains(p, out[0].fill, out[1].order);
    assert out == [Execution(out[0].fill), OrderUpdate(out[1].order)];
  }

  /** A fill that is accepted, then its order's new status, which the portfolio only looks at. */
  lemma SettledPairDrains(p: Account, f: Fill, o: Order)
    requires f.quantity != 0 && Accepts(p, Execution(f)) && ApplyFill(p, f) == Applied(SettleFill(p, f))
    requires o.runId == p.runId && (o.status == Filled || o.status == PartiallyFilled)
    ensures var out := [Execution(f), OrderUpdate(o)];
            AcceptsAll(p, out) && Drain(p, out) == SettleFill(p, f)
  {
    hide ApplyFill, NextPosition;
    var out := [Execution(f), OrderUpdate(o)];
    var settled := SettleFill(p, f);
    assert out[1..] == [OrderUpdate(o)] && out[1..][1..] == [];
    assert Absorb(p, out[0]) == settled && Absorb(settled, out[1]) == settled;
    assert Drain(settled, out[1..]) == Drain(Absorb(settled, out[1]), []);
    assert AcceptsAll(settled, out[1..]);
  }

  lemma {:induction false} ExecuteAllAgrees(p: Account, s: Simulator, id: nat, fills: seq<Fill>, at: int)
    requires TableOk(s) && Agrees(p, s) && id in s.working
    requires FillContract(s.working[id], fills)
    ensures var (s', out) := ExecuteAll(s, id, fills, at);
            AcceptsAll(p, out) && Agrees(Drain(p, out), s')
    decreases |fills|
  {
    hide AveragePrice, Accepts, Absorb;
    if fills == [] {
    } else {
      if Shares(fills[0]) == 0 {
        assert FillContract(s.working[id], fills[1..]);
        ExecuteAllAgrees(p, s, id, fills[1..], at);
      } else {
        ExecuteKeepsTable(s, id, fills, at);
        ExecuteAgrees(p, s, id, fills[0], at);
        var (s1, out1) := Execute(s, id, fills[0], at);
        if id in s1.working {
          ExecuteAllAgrees(Drain(p, out1), s1, id, fills[1..], at);
        }
        var (s2, out2) := ExecuteAll(s1, id, fills[1..], at);
        DrainConcat(p, out1, out2);
      }
    }
  }

  lemma {:induction false} SweepAgrees(p: Account, s: Simulator, ids: set<nat>, e: MarketEvent, model: Model)
    requires TableOk(s) && ids <= s.working.Keys
    requires KeepsContract(model) && Reference(e).Some? && Reference(e).value > 0
    requires Agrees(p, s)
    ensures var (s', out) := Sweep(s, ids, e, model);
            AcceptsAll(p, out) && Agrees(Drain(p, out), s')
    decreases |ids|
  {
    hide Accepts, Absorb, Agrees;
    if ids == {} {
    } else {
      var id := Least(ids);
      var order := s.working[id];
      if !Eligible(order, e) {
        SweepAgrees(p, s, ids - {id}, e, model);
      } else {
        ExecuteAllKeepsTable(s, id, model(order, e), e.exchangeTime);
        ExecuteAllAgrees(p, s, id, model(order, e), e.exchangeTime);
        var (s1, out1) := ExecuteAll(s, id, model(order, e), e.exchangeTime);
        SweepAgrees(Drain(p, out1), s1, ids - {id}, e, model);
        DrainConcat(p, out1, Sweep(s1, ids - {id}, e, model).1);
      }
    }
  }

  function WithHold(p: Account, signal: nat, h: Hold): Account {
    p.(holds := p.holds[signal := h])
  }

  /** A rejected order gives its hold back, and the tables are as before. */
  lemma RejectionAgrees(p: Account, s: Simulator, g: Signal, h: Hold, now: int)
    requires TableOk(s) && Agrees(p, s) && CannotBecomeOrder(g)
    ensures var held := WithHold(p, g.id, h);
            var (s', order) := Submit(s, g, now);
            Accepts(held, OrderUpdate(order)) && Agrees(Absorb(held, OrderUpdate(order)), s')
  {
    hide ApplyFill, BuyCost, OpenOrder, SameOrder;
    var held := WithHold(p, g.id, h);
    assert s.lastOrderId + 1 !in s.working;
    assert held.holds - {g.id} == map[];
    assert held.openOrders - {s.lastOrderId + 1} == held.openOrders;
  }

  /** A live order takes the hold over, and joins both tables. */
  lemma OpeningAgrees(p: Account, s: Simulator, g: Signal, amount: int, now: int)
    requires TableOk(s) && Agrees(p, s) && !CannotBecomeOrder(g)
    ensures var held := WithHold(p, g.id, Hold(g.symbol, OrderSideOf(g), Requested(g), amount));
            var (s', order) := Submit(s, g, now);
            Accepts(held, OrderUpdate(order)) && Agrees(Absorb(held, OrderUpdate(order)), s')
  {
    hide ApplyFill, BuyCost;
    var held := WithHold(p, g.id, Hold(g.symbol, OrderSideOf(g), Requested(g), amount));
    assert s.lastOrderId + 1 !in s.working;
    assert held.holds - {g.id} == map[];
  }

  /** Submitting a signal whose hold is in place: its order event is accepted and restores agreement. */
  lemma SubmitAgrees(p: Account, s: Simulator, g: Signal, amount: int, now: int)
    requires TableOk(s) && Agrees(p, s)
    ensures var h := Hold(g.symbol, OrderSideOf(g), Requested(g), amount);
            var held := WithHold(p, g.id, h);
            var (s', order) := Submit(s, g, now);
            Accepts(held, OrderUpdate(order)) && Agrees(Absorb(held, OrderUpdate(order)), s')
  {
    hide Accepts, Absorb, Agrees, Submit, TableOk, CannotBecomeOrder, WithHold;
    if CannotBecomeOrder(g) {
      RejectionAgrees(p, s, g, Hold(g.symbol, OrderSideOf(g), Requested(g), amount), now);
    } else {
      OpeningAgrees(p, s, g, amount, now);
    }
  }

  // ----- events commute with marks and with an unrelated hold ----------------------------

  ghost predicate SameButMarks(p: Account, q: Account) {
    p == q.(marks := p.marks)
  }

  lemma OrderIgnoresMarks(p: Account, q: Account, o: Order)
    requires SameButMarks(p, q) && Accepts(p, OrderUpdate(o))
    ensures Accepts(q, OrderUpdate(o)) && SameButMarks(ApplyOrderUpdate(p, o), ApplyOrderUpdate(q, o))
  {
    hide BuyCost, ApplyFill;
  }

  lemma FillIgnoresMarks(p: Account, q: Account, f: Fill)
    requires SameButMarks(p, q) && Accepts(p, Execution(f))
    ensures Accepts(q, Execution(f)) && SameButMarks(SettleFill(p, f), SettleFill(q, f))
  {
    hide NextPosition, ReservedAfter;
  }

  lemma AbsorbIgnoresMarks(p: Account, q: Account, e: Event)
    requires SameButMarks(p, q) && Accepts(p, e)
    ensures Accepts(q, e) && SameButMarks(Absorb(p, e), Absorb(q, e))
  {
    hide SettleFill, ApplyOrderUpdate;
    match e
    case OrderUpdate(o) => OrderIgnoresMarks(p, q, o);
    case Execution(f) => FillIgnoresMarks(p, q, f);
    case _ =>
  }

  lemma {:induction false} DrainIgnoresMarks(p: Account, q: Account, events: seq<Event>)
    requires SameButMarks(p, q) && AcceptsAll(p, events)
    ensures AcceptsAll(q, events) && SameButMarks(Drain(p, events), Drain(q, events))
    decreases |events|
  {
    hide Accepts, Absorb;
    if events == [] {
    } else {
      AbsorbIgnoresMarks(p, q, events[0]);
      DrainIgnoresMarks(Absorb(p, events[0]), Absorb(q, events[0]), events[1..]);
    }
  }

  predicate Mentions(e: Event, signal: nat) {
    e.OrderUpdate? && e.order.originSignal == signal
  }

  lemma OrderCommutesWithHold(p: Account, signal: nat, h: Hold, o: Order)
    requires signal !in p.holds && o.originSignal != signal && Accepts(p, OrderUpdate(o))
    ensures Accepts(WithHold(p, signal, h), OrderUpdate(o))
    ensures ApplyOrderUpdate(WithHold(p, signal, h), o) == WithHold(ApplyOrderUpdate(p, o), signal, h)
    ensures signal !in ApplyOrderUpdate(p, o).holds
  {
    hide BuyCost, ApplyFill;
    assert p.holds[signal := h] - {o.originSignal} == (p.holds - {o.originSignal})[signal := h];
  }

  lemma FillCommutesWithHold(p: Account, signal: nat, h: Hold, f: Fill)
    requires signal !in p.holds && Accepts(p, Execution(f))
    ensures Accepts(WithHold(p, signal, h), Execution(f))
    ensures SettleFill(WithHold(p, signal, h), f) == WithHold(SettleFill(p, f), signal, h)
    ensures signal !in SettleFill(p, f).holds
  {
    hide NextPosition, ReservedAfter;
  }

  lemma AbsorbCommutesWithHold(p: Account, signal: nat, h: Hold, e: Event)
    requires signal !in p.holds && !Mentions(e, signal) && Accepts(p, e)
    ensures Accepts(WithHold(p, signal, h), e)
    ensures Absorb(WithHold(p, signal, h), e) == WithHold(Absorb(p, e), signal, h)
    ensures signal !in Absorb(p, e).holds
  {
    hide SettleFill, ApplyOrderUpdate;
    match e
    case OrderUpdate(o) => OrderCommutesWithHold(p, signal, h, o);
    case Execution(f) => FillCommutesWithHold(p, signal, h, f);
    case _ =>
  }

  lemma {:induction false} DrainCommutesWithHold(p: Account, signal: nat, h: Hold, events: seq<Event>)
    requires signal !in p.holds && AcceptsAll(p, events)
    requires forall i :: 0 <= i < |events| ==> !Mentions(events[i], signal)
    ensures AcceptsAll(WithHold(p, signal, h), events)
    ensures Drain(WithHold(p, signal, h), events) == WithHold(Drain(p, events), signal, h)
    decreases |events|
  {
    hide Accepts, Absorb;
    if events == [] {
    } else {
      AbsorbCommutesWithHold(p, signal, h, events[0]);
      DrainCommutesWithHold(Absorb(p, events[0]), signal, h, events[1..]);
    }
  }

  // ----- long only -----------------------------------------------------------------------

  /** Nothing promised to a sell that is not held. */
  ghost predicate LongOnly(p: Account) {
    && (forall s :: s in p.holds ==> p.holds[s].quantity > 0)
    && (forall o :: o in p.openOrders ==> p.openOrders[o].remaining > 0)
    && (forall symbol :: Covered(p, symbol))
  }

  ghost predicate Covered(p: Account, symbol: Symbol) {
    CommittedToSell(p, symbol) <= Held(p, symbol)
  }

  lemma CommitmentsNotNegative(p: Account, symbol: Symbol)
    requires LongOnly(p)
    ensures 0 <= CommittedToSell(p, symbol) <= Held(p, symbol)
  {
    SumNonNegative(SellHolds(p.holds, symbol));
    SumNonNegative(SellOrders(p.openOrders, symbol));
    assert Covered(p, symbol);
  }

  lemma RemoveHold(holds: map<nat, Hold>, s: nat, symbol: Symbol)
    ensures Sum(SellHolds(holds - {s}, symbol))
         == Sum(SellHolds(holds, symbol)) - (if s in holds then HeldForSale(holds[s], symbol) else 0)
  {
    if s in holds {
      SumRemove(SellHolds(holds, symbol), s);
      assert SellHolds(holds - {s}, symbol) == SellHolds(holds, symbol) - {s};
    } else {
      assert holds - {s} == holds;
    }
  }

  lemma AddHold(holds: map<nat, Hold>, s: nat, h: Hold, symbol: Symbol)
    requires s !in holds
    ensures Sum(SellHolds(holds[s := h], symbol)) == Sum(SellHolds(holds, symbol)) + HeldForSale(h, symbol)
  {
    SumUpdate(SellHolds(holds, symbol), s, HeldForSale(h, symbol));
    assert SellHolds(holds[s := h], symbol) == SellHolds(holds, symbol)[s := HeldForSale(h, symbol)];
  }

  lemma PutOrder(orders: map<nat, PendingOrder>, id: nat, o: PendingOrder, symbol: Symbol)
    ensures Sum(SellOrders(orders[id := o], symbol))
         == Sum(SellOrders(orders, symbol)) + OrderedForSale(o, symbol)
            - (if id in orders then OrderedForSale(orders[id], symbol) else 0)
  {
    SumUpdate(SellOrders(orders, symbol), id, OrderedForSale(o, symbol));
    assert SellOrders(orders[id := o], symbol) == SellOrders(orders, symbol)[id := OrderedForSale(o, symbol)];
  }

  lemma RemoveOrder(orders: map<nat, PendingOrder>, id: nat, symbol: Symbol)
    ensures Sum(SellOrders(orders - {id}, symbol))
         == Sum(SellOrders(orders, symbol)) - (if id in orders then OrderedForSale(orders[id], symbol) else 0)
  {
    if id in orders {
      SumRemove(SellOrders(orders, symbol), id);
      assert SellOrders(orders - {id}, symbol) == SellOrders(orders, symbol) - {id};
    } else {
      assert orders - {id} == orders;
    }
  }

  lemma OrderUpdateKeepsCovered(p: Account, o: Order, symbol: Symbol)
    requires LongOnly(p) && Accepts(p, OrderUpdate(o))
    ensures Covered(ApplyOrderUpdate(p, o), symbol)
  {
    hide BuyCost, Sum, SellHolds, SellOrders, ApplyFill;
    var p' := ApplyOrderUpdate(p, o);
    assert Covered(p, symbol);
    if o.status == Working || o.status == Rejected {
      RemoveHold(p.holds, o.originSignal, symbol);
      if o.status == Working {
        PutOrder(p.openOrders, o.id, p'.openOrders[o.id], symbol);
      } else {
        RemoveOrder(p.openOrders, o.id, symbol);
      }
    }
  }

  lemma OrderUpdateKeepsLongOnly(p: Account, o: Order)
    requires LongOnly(p) && Accepts(p, OrderUpdate(o))
    ensures LongOnly(ApplyOrderUpdate(p, o))
  {
    hide BuyCost, Covered, ApplyFill;
    forall symbol
      ensures Covered(ApplyOrderUpdate(p, o), symbol)
    {
      OrderUpdateKeepsCovered(p, o, symbol);
    }
  }

  lemma HeldAfterFill(p: Account, f: Fill, symbol: Symbol)
    requires f.quantity != 0
    ensures Held(SettleFill(p, f), symbol) == Held(p, symbol) + if symbol == f.symbol then f.quantity else 0
  {
    hide DivRound, ReleaseForFill;
  }

  /** A fill takes off what is promised, or puts on what is held, at least as much as the other way round. */
  lemma FillKeepsCovered(p: Account, f: Fill, symbol: Symbol)
    requires LongOnly(p) && Accepts(p, Execution(f))
    ensures Covered(SettleFill(p, f), symbol)
  {
    hide ReservedAfter, NextPosition, Sum, Held;
    var p' := SettleFill(p, f);
    assert Covered(p, symbol);
    HeldAfterFill(p, f, symbol);
    if f.orderId in p'.openOrders {
      PutOrder(p.openOrders, f.orderId, p'.openOrders[f.orderId], symbol);
    } else {
      RemoveOrder(p.openOrders, f.orderId, symbol);
    }
  }

  lemma FillKeepsLongOnly(p: Account, f: Fill)
    requires LongOnly(p) && Accepts(p, Execution(f))
    ensures LongOnly(SettleFill(p, f))
  {
    hide ReservedAfter, NextPosition, Covered;
    forall symbol
      ensures Covered(SettleFill(p, f), symbol)
    {
      FillKeepsCovered(p, f, symbol);
    }
  }

  lemma HoldKeepsLongOnly(p: Account, signal: nat, symbol: Symbol, side: OrderSide, quantity: int, limit: Option<int>)
    requires LongOnly(p)
    ensures LongOnly(HoldForSignal(p, signal, symbol, side, quantity, limit).0)
  {
    hide BuyCost;
    var p' := HoldForSignal(p, signal, symbol, side, quantity, limit).0;
    if p' != p {
      forall other
        ensures Covered(p', other)
      {
        assert Covered(p, other);
        AddHold(p.holds, signal, p'.holds[signal], other);
      }
    }
  }

  lemma MarksKeepLongOnly(p: Account, q: Account)
    requires LongOnly(p) && SameButMarks(p, q)
    ensures LongOnly(q)
  {
    forall symbol ensures Covered(q, symbol) { assert Covered(p, symbol); }
  }

  // ----- the invariant -------------------------------------------------------------------

  /** Signals in the queue are undecided and distinct; orders in the queue come from decided signals. */
  ghost predicate SignalsFresh(w: World) {
    && w.decided <= w.minted
    && (forall s :: s in w.account.holds ==> s in w.decided)
    && (forall i :: 0 <= i < |w.queue| ==>
          && (w.queue[i].SignalMade? ==> w.queue[i].signal.id in w.minted && w.queue[i].signal.id !in w.decided)
          && (w.queue[i].OrderUpdate? ==> w.queue[i].order.originSignal in w.decided))
    && (forall i, j :: 0 <= i < j < |w.queue| && w.queue[i].SignalMade? && w.queue[j].SignalMade? ==>
          w.queue[i].signal.id != w.queue[j].signal.id)
    && (forall id :: id in w.sim.working ==> w.sim.working[id].originSignal in w.decided)
  }

  ghost predicate InStep(w: World) {
    AcceptsAll(w.account, w.queue) && Agrees(Drain(w.account, w.queue), w.sim)
  }

  ghost predicate Invariant(w: World) {
    && TableOk(w.sim)
    && LongOnly(w.account)
    && InStep(w)
    && SignalsFresh(w)
    && w.errors == 0 && w.fillsIgnored == 0
  }

  // ----- every action keeps the invariant ------------------------------------------------

  predicate Neutral(e: Event) {
    e.MarketData? || e.SignalMade? || e.RiskDecided?
  }

  lemma AppendKeepsInStep(p: Account, queue: seq<Event>, more: seq<Event>, s: Simulator)
    requires AcceptsAll(p, queue)
    requires AcceptsAll(Drain(p, queue), more) && Agrees(Drain(Drain(p, queue), more), s)
    ensures AcceptsAll(p, queue + more) && Agrees(Drain(p, queue + more), s)
  {
    DrainConcat(p, queue, more);
  }

  lemma NeutralIsAbsorbed(p: Account, e: Event)
    requires Neutral(e)
    ensures AcceptsAll(p, [e]) && Drain(p, [e]) == p
  {
    assert [e][1..] == [];
  }

  lemma NeutralKeepsInStep(w: World, e: Event)
    requires InStep(w) && Neutral(e)
    ensures InStep(w.(queue := w.queue + [e]))
  {
    hide Accepts, Absorb, Agrees, Neutral;
    NeutralIsAbsorbed(Drain(w.account, w.queue), e);
    AppendKeepsInStep(w.account, w.queue, [e], w.sim);
  }

  lemma MintingKeepsSignalsFresh(w: World, g: Signal)
    requires SignalsFresh(w) && g.id !in w.minted
    ensures SignalsFresh(w.(queue := w.queue + [SignalMade(g)], minted := w.minted + {g.id}))
  {
  }

  /** Of a world, being in step concerns its account, its simulator and its queue only. */
  lemma MintingKeepsInStep(w: World, minted: set<nat>)
    requires InStep(w)
    ensures InStep(w.(minted := minted))
  {
    hide AcceptsAll, Drain, Agrees;
  }

  lemma EmitKeepsInvariant(w: World, g: Signal, model: Model)
    requires Invariant(w) && KeepsContract(model) && Enabled(w, EmitSignal(g))
    ensures Invariant(Next(w, EmitSignal(g), model))
  {
    hide LongOnly, InStep, SignalsFresh;
    NeutralKeepsInStep(w, SignalMade(g));
    MintingKeepsInStep(w.(queue := w.queue + [SignalMade(g)]), w.minted + {g.id});
    MintingKeepsSignalsFresh(w, g);
  }

  lemma PublishingKeepsSignalsFresh(w: World, e: Event)
    requires SignalsFresh(w) && (e.MarketData? || e.RiskDecided?)
    ensures SignalsFresh(w.(queue := w.queue + [e]))
  {
  }

  lemma PublishKeepsInvariant(w: World, m: MarketEvent, model: Model)
    requires Invariant(w) && KeepsContract(model)
    ensures Invariant(Next(w, PublishMarket(m), model))
  {
    hide LongOnly, InStep, SignalsFresh;
    NeutralKeepsInStep(w, MarketData(m));
    PublishingKeepsSignalsFresh(w, MarketData(m));
  }

  function Origins(s: Simulator): set<nat> {
    set id | id in s.working :: s.working[id].originSignal
  }

  ghost predicate FromOrders(out: seq<Event>, origins: set<nat>) {
    forall e :: e in out ==> !e.SignalMade? && (e.OrderUpdate? ==> e.order.originSignal in origins)
  }

  lemma {:induction false} ExecuteAllOrigins(s: Simulator, id: nat, fills: seq<Fill>, at: int)
    requires TableOk(s) && id in s.working && FillContract(s.working[id], fills)
    ensures var (s', out) := ExecuteAll(s, id, fills, at);
            FromOrders(out, Origins(s)) && Origins(s') <= Origins(s)
    decreases |fills|
  {
    hide AveragePrice;
    if fills == [] {
    } else {
      if Shares(fills[0]) == 0 {
        assert FillContract(s.working[id], fills[1..]);
        ExecuteAllOrigins(s, id, fills[1..], at);
      } else {
        ExecuteKeepsTable(s, id, fills, at);
        var (s1, out1) := Execute(s, id, fills[0], at);
        assert out1[1].order.originSignal == s.working[id].originSignal;
        assert Origins(s1) <= Origins(s);
        if id in s1.working {
          ExecuteAllOrigins(s1, id, fills[1..], at);
        }
      }
    }
  }

  lemma {:induction false} SweepOrigins(s: Simulator, ids: set<nat>, e: MarketEvent, model: Model)
    requires TableOk(s) && ids <= s.working.Keys
    requires KeepsContract(model) && Reference(e).Some? && Reference(e).value > 0
    ensures var (s', out) := Sweep(s, ids, e, model);
            FromOrders(out, Origins(s)) && Origins(s') <= Origins(s)
    decreases |ids|
  {
    hide Origins;
    if ids == {} {
    } else {
      var id := Least(ids);
      var order := s.working[id];
      if !Eligible(order, e) {
        SweepOrigins(s, ids - {id}, e, model);
      } else {
        ExecuteAllKeepsTable(s, id, model(order, e), e.exchangeTime);
        ExecuteAllOrigins(s, id, model(order, e), e.exchangeTime);
        SweepOrigins(ExecuteAll(s, id, model(order, e), e.exchangeTime).0, ids - {id}, e, model);
      }
    }
  }

  lemma FeedKeepsInvariant(w: World, m: MarketEvent, model: Model)
    requires Invariant(w) && KeepsContract(model)
    ensures Invariant(Next(w, FeedExecution(m), model))
  {
    hide Accepts, Absorb, Agrees;
    if Reference(m).Some? && Reference(m).value > 0 {
      var p := Drain(w.account, w.queue);
      var (sim, out) := Sweep(w.sim, w.sim.working.Keys, m, model);
      SweepAgrees(p, w.sim, w.sim.working.Keys, m, model);
      AppendKeepsInStep(w.account, w.queue, out, sim);
      SweepOrigins(w.sim, w.sim.working.Keys, m, model);
      FeedKeepsSignalsFresh(w, sim, out);
    } else {
      assert w.queue + [] == w.queue;
    }
  }

  lemma FeedKeepsSignalsFresh(w: World, sim: Simulator, out: seq<Event>)
    requires SignalsFresh(w) && FromOrders(out, Origins(w.sim)) && Origins(sim) <= Origins(w.sim)
    ensures SignalsFresh(w.(sim := sim, queue := w.queue + out))
  {
    var w' := w.(sim := sim, queue := w.queue + out);
    assert Origins(w.sim) <= w.decided;
    forall id | id in sim.working
      ensures sim.working[id].originSignal in w.decided
    {
      assert sim.working[id].originSignal in Origins(sim);
    }
    forall i | 0 <= i < |w'.queue|
      ensures w'.queue[i].SignalMade? ==> i < |w.queue|
      ensures w'.queue[i].OrderUpdate? ==> w'.queue[i].order.originSignal in w.decided
    {
      if i >= |w.queue| { assert w'.queue[i] == out[i - |w.queue|]; }
    }
  }

  /** The oldest event is one the portfolio takes, and the rest stays in step behind it. */
  lemma HeadIsAccepted(w: World)
    requires InStep(w) && w.queue != []
    ensures Accepts(w.account, w.queue[0])
    ensures InStep(w.(account := Absorb(w.account, w.queue[0]), queue := w.queue[1..]))
  {
  }

  lemma QueueHead(w: World)
    requires Invariant(w) && w.queue != []
    ensures TableOk(w.sim) && Accepts(w.account, w.queue[0])
  {
    HeadIsAccepted(w);
  }

  lemma DeliverFillKeepsQueue(w: World, f: Fill)
    ensures DeliverFill(w, f).queue == w.queue && DeliverFill(w, f).sim == w.sim
  {
  }

  lemma RemarkKeepsInStep(w: World, account: Account)
    requires InStep(w) && SameButMarks(w.account, account)
    ensures InStep(w.(account := account))
  {
    hide Accepts, Absorb;
    DrainIgnoresMarks(w.account, account, w.queue);
  }

  lemma DequeueKeepsSignalsFresh(w: World, account: Account)
    requires SignalsFresh(w) && w.queue != []
    requires forall s :: s in account.holds ==> s in w.account.holds
    ensures SignalsFresh(w.(account := account, queue := w.queue[1..]))
  {
  }

  lemma DispatchMarketKeepsInvariant(w: World, model: Model)
    requires Invariant(w) && KeepsContract(model) && w.queue != [] && w.queue[0].MarketData?
    ensures Invariant(Next(w, Dispatch, model))
  {
    var m := w.queue[0].market;
    var marked := ApplyMark(w.account, m);
    HeadIsAccepted(w);
    RemarkKeepsInStep(w.(queue := w.queue[1..]), marked);
    MarksKeepLongOnly(w.account, marked);
    DequeueKeepsSignalsFresh(w, marked);
  }

  lemma DispatchOrderKeepsInvariant(w: World, model: Model)
    requires Invariant(w) && KeepsContract(model) && w.queue != [] && w.queue[0].OrderUpdate?
    ensures Invariant(Next(w, Dispatch, model))
  {
    HeadIsAccepted(w);
    OrderUpdateKeepsLongOnly(w.account, w.queue[0].order);
    DequeueKeepsSignalsFresh(w, ApplyOrderUpdate(w.account, w.queue[0].order));
  }

  /** A fill the portfolio takes: it is settled, and at most its symbol's mark is put back. */
  lemma FillIsSettled(w: World, f: Fill)
    requires Accepts(w.account, Execution(f))
    ensures var w' := DeliverFill(w, f);
            && w' == w.(account := w'.account, fillsApplied := w.fillsApplied + 1)
            && SameButMarks(SettleFill(w.account, f), w'.account)
            && Absorb(w.account, Execution(f)) == SettleFill(w.account, f)
            && SettleFill(w.account, f).holds == w.account.holds
  {
    hide NextPosition, ReservedAfter;
  }

  lemma DispatchFillKeepsInvariant(w: World, model: Model)
    requires Invariant(w) && KeepsContract(model) && w.queue != [] && w.queue[0].Execution?
    ensures Invariant(Next(w, Dispatch, model))
  {
    hide SettleFill, LongOnly, InStep, SignalsFresh, Accepts, Absorb, DeliverFill, SameButMarks;
    var f, rest := w.queue[0].fill, w.(queue := w.queue[1..]);
    HeadIsAccepted(w);
    FillIsSettled(rest, f);
    FillKeepsLongOnly(w.account, f);
    var settled := SettleFill(w.account, f);
    DequeueKeepsSignalsFresh(w, settled);
    var final := DeliverFill(rest, f).account;
    RemarkKeepsInStep(rest.(account := settled), final);
    MarksKeepLongOnly(settled, final);
    RemarkKeepsSignalsFresh(rest.(account := settled), final);
    RelabelKeepsParts(rest.(account := final), Next(w, Dispatch, model));
  }

  lemma RemarkKeepsSignalsFresh(w: World, account: Account)
    requires SignalsFresh(w) && SameButMarks(w.account, account)
    ensures SignalsFresh(w.(account := account))
  {
  }

  /** Counters play no part in the two. */
  lemma RelabelKeepsParts(w: World, w': World)
    requires InStep(w) && SignalsFresh(w) && w' == w.(fillsApplied := w'.fillsApplied)
    ensures InStep(w') && SignalsFresh(w')
  {
  }

  /** An approval leaves exactly one new hold, for the size of the signal handed to the simulator. */
  lemma ApprovalHolds(d: Desk, p: Account, g: Signal, now: int)
    requires g.id !in p.holds
    ensures var (p', decision) := CheckSignal(d, p, g, now);
            if decision.approved then
              && g.id in p'.holds
              && p' == WithHold(p, g.id, Hold(g.symbol, OrderSideOf(g), Requested(Sized(g, decision)),
                                              p'.holds[g.id].amount))
            else p' == p
  {
    hide HoldForSignal, Screen;
    var screened := Screen(d.policies, g, SnapshotOf(p, now), ContextOf(d, p));
    if !d.killed && screened.Some? {
      var quantity := Requested(screened.value);
      HoldEffect(p, HoldOp(g.id, g.symbol, OrderSideOf(g), quantity, g.limitPrice));
      RefusalChangesNothing(p, g.id, g.symbol, OrderSideOf(g), quantity, g.limitPrice);
    }
  }

  lemma DecisionIsQueued(w: World)
    requires Invariant(w)
    ensures Invariant(w.(queue := w.queue + [RiskDecided]))
  {
    hide LongOnly, InStep, SignalsFresh;
    NeutralKeepsInStep(w, RiskDecided);
    PublishingKeepsSignalsFresh(w, RiskDecided);
  }

  /** Taking a signal off the queue and marking it decided. */
  lemma SignalIsTaken(w: World)
    requires Invariant(w) && w.queue != [] && w.queue[0].SignalMade?
    ensures Invariant(w.(queue := w.queue[1..], decided := w.decided + {w.queue[0].signal.id}))
  {
    HeadIsAccepted(w);
    var w' := w.(queue := w.queue[1..], decided := w.decided + {w.queue[0].signal.id});
    forall i | 0 <= i < |w'.queue| && w'.queue[i].SignalMade?
      ensures w'.queue[i].signal.id in w'.minted && w'.queue[i].signal.id !in w'.decided
    {
      assert w'.queue[i] == w.queue[i + 1];
    }
  }

  lemma AgreedHoldsNothing(p: Account, s: Simulator)
    requires Agrees(p, s)
    ensures p.holds == map[]
  {
  }

  lemma ApprovalKeepsSignalsFresh(w: World, g: Signal, h: Hold)
    requires SignalsFresh(w) && TableOk(w.sim) && g.id in w.decided
    ensures var (sim, order) := Submit(w.sim, g, w.now);
            SignalsFresh(w.(account := WithHold(w.account, g.id, h), sim := sim,
                            queue := w.queue + [OrderUpdate(order)]))
  {
    var (sim, order) := Submit(w.sim, g, w.now);
    assert order.originSignal == g.id;
  }

  /** The hold and the order event go in together: the rest of the queue does not notice the hold. */
  lemma ApprovalKeepsInvariant(w: World, g: Signal, h: Hold)
    requires Invariant(w) && g.id in w.decided && g.id !in w.account.holds
    requires forall i :: 0 <= i < |w.queue| ==> !Mentions(w.queue[i], g.id)
    requires h == Hold(g.symbol, OrderSideOf(g), Requested(g), h.amount)
    requires LongOnly(WithHold(w.account, g.id, h))
    ensures var (sim, order) := Submit(w.sim, g, w.now);
            Invariant(w.(account := WithHold(w.account, g.id, h), sim := sim,
                         queue := w.queue + [OrderUpdate(order)]))
  {
    hide Accepts, Absorb, Agrees, SignalsFresh, LongOnly, TableOk, Submit;
    var (sim, order) := Submit(w.sim, g, w.now);
    var p := Drain(w.account, w.queue);
    var held := WithHold(w.account, g.id, h);
    AgreedHoldsNothing(p, w.sim);
    SubmitKeepsTable(w.sim, g, w.now);
    DrainCommutesWithHold(w.account, g.id, h, w.queue);
    SubmitAgrees(p, w.sim, g, h.amount, w.now);
    assert [OrderUpdate(order)][1..] == [];
    AppendKeepsInStep(held, w.queue, [OrderUpdate(order)], sim);
    ApprovalKeepsSignalsFresh(w, g, h);
  }

  lemma DispatchSignalKeepsInvariant(w: World, model: Model)
    requires Invariant(w) && KeepsContract(model) && w.queue != [] && w.queue[0].SignalMade?
    ensures Invariant(Next(w, Dispatch, model))
  {
    hide Accepts, Absorb, Agrees, BuyCost, Screen, LongOnly, InStep, HoldForSignal;
    var g := w.queue[0].signal;
    var taken := w.(queue := w.queue[1..], decided := w.decided + {g.id});
    assert forall i :: 0 <= i < |taken.queue| ==> taken.queue[i] == w.queue[i + 1];
    SignalIsTaken(w);
    DecisionIsQueued(taken);
    ApprovalHolds(w.desk, w.account, g, w.now);
    var reported := taken.(queue := taken.queue + [RiskDecided]);
    var (account, decision) := CheckSignal(w.desk, w.account, g, w.now);
    if decision.approved {
      CheckKeepsLongOnly(w.desk, w.account, g, w.now);
      ApprovalKeepsInvariant(reported, Sized(g, decision), account.holds[g.id]);
    }
  }

  lemma CheckKeepsLongOnly(d: Desk, p: Account, g: Signal, now: int)
    requires LongOnly(p)
    ensures LongOnly(CheckSignal(d, p, g, now).0)
  {
    hide LongOnly, HoldForSignal, Screen;
    var screened := Screen(d.policies, g, SnapshotOf(p, now), ContextOf(d, p));
    if screened.Some? {
      HoldKeepsLongOnly(p, g.id, g.symbol, OrderSideOf(g), Requested(screened.value), g.limitPrice);
    }
  }

  lemma NextKeepsInvariant(w: World, a: Action, model: Model)
    requires Invariant(w) && KeepsContract(model) && Enabled(w, a)
    ensures Invariant(Next(w, a, model))
  {
    hide LongOnly, InStep, SignalsFresh, Deliver;
    match a
    case EmitSignal(g) => EmitKeepsInvariant(w, g, model);
    case PublishMarket(m) => PublishKeepsInvariant(w, m, model);
    case FeedExecution(m) => FeedKeepsInvariant(w, m, model);
    case Dispatch =>
      match w.queue[0] {
        case MarketData(m) => DispatchMarketKeepsInvariant(w, model);
        case SignalMade(g) => DispatchSignalKeepsInvariant(w, model);
        case OrderUpdate(o) => DispatchOrderKeepsInvariant(w, model);
        case Execution(f) => DispatchFillKeepsInvariant(w, model);
        case RiskDecided => DispatchReportKeepsInvariant(w, model);
      }
    case SetKill(engaged) => RelabelKeepsInvariant(w, Next(w, a, model));
    case Tick(now) => RelabelKeepsInvariant(w, Next(w, a, model));
  }

  lemma DispatchReportKeepsInvariant(w: World, model: Model)
    requires Invariant(w) && KeepsContract(model) && w.queue != [] && w.queue[0].RiskDecided?
    ensures Invariant(Next(w, Dispatch, model))
  {
    HeadIsAccepted(w);
    DequeueKeepsSignalsFresh(w, w.account);
  }

  lemma RelabelKeepsInvariant(w: World, w': World)
    requires Invariant(w) && w' == w.(desk := w'.desk, now := w'.now)
    ensures Invariant(w')
  {
  }

  lemma InitiallyInvariant(runId: nat, startingCash: int, fees: FeeModel, limits: Limits, policies: seq<Policy>)
    ensures Invariant(InitialWorld(runId, startingCash, fees, limits, policies))
  {
    var w := InitialWorld(runId, startingCash, fees, limits, policies);
    forall symbol
      ensures Covered(w.account, symbol)
    {
      assert SellHolds(w.account.holds, symbol) == map[] && SellOrders(w.account.openOrders, symbol) == map[];
    }
  }

  lemma {:induction false} RunKeepsInvariant(w: World, actions: seq<Action>, model: Model)
    requires Invariant(w) && KeepsContract(model) && Feasible(w, actions, model)
    ensures Invariant(After(w, actions, model))
    decreases |actions|
  {
    hide LongOnly, InStep, SignalsFresh, Next;
    if actions == [] {
    } else {
      NextKeepsInvariant(w, actions[0], model);
      RunKeepsInvariant(Next(w, actions[0], model), actions[1..], model);
    }
  }

  // ----- the claims over whole runs ------------------------------------------------------

  /** Long only: in every reachable state no symbol is short, and no share is promised twice. */
  lemma NoPositionEverGoesShort(runId: nat, startingCash: int, fees: FeeModel, limits: Limits,
                                policies: seq<Policy>, actions: seq<Action>, model: Model, symbol: Symbol)
    requires KeepsContract(model)
    requires Feasible(InitialWorld(runId, startingCash, fees, limits, policies), actions, model)
    ensures var p := After(InitialWorld(runId, startingCash, fees, limits, policies), actions, model).account;
            0 <= CommittedToSell(p, symbol) <= Held(p, symbol)
  {
    var w0 := InitialWorld(runId, startingCash, fees, limits, policies);
    InitiallyInvariant(runId, startingCash, fees, limits, policies);
    RunKeepsInvariant(w0, actions, model);
    CommitmentsNotNegative(After(w0, actions, model).account, symbol);
  }

  /** No fill the simulator publishes is ever refused or ignored by the portfolio. */
  lemma EveryFillIsSettled(runId: nat, startingCash: int, fees: FeeModel, limits: Limits,
                           policies: seq<Policy>, actions: seq<Action>, model: Model)
    requires KeepsContract(model)
    requires Feasible(InitialWorld(runId, startingCash, fees, limits, policies), actions, model)
    ensures var w := After(InitialWorld(runId, startingCash, fees, limits, policies), actions, model);
            w.errors == 0 && w.fillsIgnored == 0
  {
    InitiallyInvariant(runId, startingCash, fees, limits, policies);
    RunKeepsInvariant(InitialWorld(runId, startingCash, fees, limits, policies), actions, model);
  }

  /** Whenever the bus is drained: no hold is left, and open orders mirror the working orders. */
  lemma DrainedMeansNoLeak(runId: nat, startingCash: int, fees: FeeModel, limits: Limits,
                           policies: seq<Policy>, actions: seq<Action>, model: Model)
    requires KeepsContract(model)
    requires Feasible(InitialWorld(runId, startingCash, fees, limits, policies), actions, model)
    ensures var w := After(InitialWorld(runId, startingCash, fees, limits, policies), actions, model);
            w.queue == [] ==>
              && w.account.holds == map[]
              && w.account.openOrders.Keys == w.sim.working.Keys
              && forall id :: id in w.sim.working ==>
                   w.account.openOrders[id].remaining
                   == w.sim.working[id].quantity - w.sim.working[id].filledQuantity
  {
    InitiallyInvariant(runId, startingCash, fees, limits, policies);
    RunKeepsInvariant(InitialWorld(runId, startingCash, fees, limits, policies), actions, model);
  }
}
