/**
 * Whole runs again: what reservations do to buying power.
 *
 * With any fill model, while buy limits are not negative, buying power never exceeds cash. With the
 * naive model, the fill of a limit buy never lowers it.
 */
module CashRun {
  import opened Domain
  import opened Decimals
  import opened Portfolio
  import opened Accounting
  import opened Execution
  import opened Risk
  import opened TradingRun

  // ----- reservations never turn negative ------------------------------------------------

  predicate LimitOk(g: Signal) {
    g.side != SellSignal && g.limitPrice.Some? ==> g.limitPrice.value >= 0
  }

  predicate Asks(actions: seq<Action>) {
    forall a :: a in actions && a.EmitSignal? ==> LimitOk(a.signal)
  }

  ghost predicate LimitsOk(queue: seq<Event>) {
    forall e :: e in queue && e.SignalMade? ==> LimitOk(e.signal)
  }

  ghost predicate CashInvariant(w: World) {
    Invariant(w) && w.account.fees.Valid() && ReservesOk(w.account) && LimitsOk(w.queue)
  }

  lemma OpKeepsReserves(p: Account, op: Op)
    requires ReservesOk(p) && p.fees.Valid() && !TakesNegative(p, op)
    ensures ReservesOk(Step(p, op)) && Step(p, op).fees == p.fees
  {
    hide Step;
    StepKeepsReserves(p, op);
    StepKeepsFees(p, op);
  }

  lemma CheckKeepsFees(d: Desk, p: Account, g: Signal, now: int)
    ensures CheckSignal(d, p, g, now).0.fees == p.fees
  {
    hide HoldForSignal, Screen;
    var screened := Screen(d.policies, g, SnapshotOf(p, now), ContextOf(d, p));
    if !d.killed && screened.Some? {
      StepKeepsFees(p, HoldOp(g.id, g.symbol, OrderSideOf(g), Requested(screened.value), g.limitPrice));
    }
  }

  lemma CheckKeepsReserves(d: Desk, p: Account, g: Signal, now: int)
    requires ReservesOk(p) && p.fees.Valid() && LimitOk(g)
    ensures ReservesOk(CheckSignal(d, p, g, now).0) && CheckSignal(d, p, g, now).0.fees == p.fees
  {
    hide HoldForSignal, Screen, ReservesOk, TakesNegative;
    var screened := Screen(d.policies, g, SnapshotOf(p, now), ContextOf(d, p));
    if !d.killed && screened.Some? {
      var op := HoldOp(g.id, g.symbol, OrderSideOf(g), Requested(screened.value), g.limitPrice);
      LimitsPreventNegative(p, op);
      OpKeepsReserves(p, op);
    }
  }

  lemma OrderKeepsCash(p: Account, o: Order)
    requires ReservesOk(p) && p.fees.Valid() && Accepts(p, OrderUpdate(o))
    ensures ReservesOk(ApplyOrderUpdate(p, o)) && ApplyOrderUpdate(p, o).fees == p.fees
  {
    hide ApplyOrderUpdate;
    OpKeepsReserves(p, OrderOp(o));
  }

  lemma MarkKeepsCash(p: Account, m: MarketEvent)
    requires ReservesOk(p) && p.fees.Valid()
    ensures ReservesOk(ApplyMark(p, m)) && ApplyMark(p, m).fees == p.fees
  {
    hide ApplyMark;
    OpKeepsReserves(p, MarkOp(m));
  }

  lemma FillKeepsCash(w: World, f: Fill)
    requires ReservesOk(w.account) && w.account.fees.Valid() && Accepts(w.account, Execution(f))
    ensures ReservesOk(DeliverFill(w, f).account) && DeliverFill(w, f).account.fees == w.account.fees
  {
    hide ApplyMark, ReservesOk, SettleFill;
    OpKeepsReserves(w.account, FillOp(f));
    var settled := SettleFill(w.account, f);
    if f.symbol in w.lastMarks { MarkKeepsCash(settled, w.lastMarks[f.symbol]); }
  }

  lemma DeliveryKeepsCash(w: World, model: Model)
    requires CashInvariant(w) && KeepsContract(model) && w.queue != []
    ensures var w' := Next(w, Dispatch, model);
            ReservesOk(w'.account) && w'.account.fees == w.account.fees && LimitsOk(w'.queue)
  {
    hide ReservesOk, CheckSignal, ApplyMark, ApplyOrderUpdate, DeliverFill, Invariant;
    assert TableOk(w.sim) && Accepts(w.account, w.queue[0]) by { QueueHead(w); }
    match w.queue[0]
    case MarketData(m) => MarkKeepsCash(w.account, m);
    case SignalMade(g) => CheckKeepsReserves(w.desk, w.account, g, w.now);
    case OrderUpdate(o) => OrderKeepsCash(w.account, o);
    case Execution(f) =>
      FillKeepsCash(w.(queue := w.queue[1..]), f);
      assert DeliverFill(w.(queue := w.queue[1..]), f).queue == w.queue[1..]
        by { DeliverFillKeepsQueue(w.(queue := w.queue[1..]), f); }
    case RiskDecided =>
  }

  lemma NextKeepsCash(w: World, a: Action, model: Model)
    requires CashInvariant(w) && KeepsContract(model) && Enabled(w, a)
    requires a.EmitSignal? ==> LimitOk(a.signal)
    ensures CashInvariant(Next(w, a, model))
  {
    hide Invariant, ReservesOk;
    NextKeepsInvariant(w, a, model);
    if a.Dispatch? {
      DeliveryKeepsCash(w, model);
    } else if a.FeedExecution? {
      FeedAddsNoSignal(w, a.market, model);
    }
  }

  lemma FeedAddsNoSignal(w: World, m: MarketEvent, model: Model)
    requires Invariant(w) && KeepsContract(model) && LimitsOk(w.queue)
    ensures LimitsOk(Next(w, FeedExecution(m), model).queue)
  {
    if Reference(m).Some? && Reference(m).value > 0 {
      SweepOrigins(w.sim, w.sim.working.Keys, m, model);
    }
  }

  lemma {:induction false} RunKeepsCash(w: World, actions: seq<Action>, model: Model)
    requires CashInvariant(w) && KeepsContract(model) && Feasible(w, actions, model) && Asks(actions)
    ensures CashInvariant(After(w, actions, model))
    decreases |actions|
  {
    hide Invariant, ReservesOk, LimitsOk, Next;
    if actions == [] {
    } else {
      assert TableOk(w.sim) by { TableIsOk(w); }
      NextKeepsCash(w, actions[0], model);
      RunKeepsCash(Next(w, actions[0], model), actions[1..], model);
    }
  }

  lemma TableIsOk(w: World)
    requires Invariant(w)
    ensures TableOk(w.sim)
  {
  }

  /** In every reachable state of a run whose buy limits are not negative, buying power is within cash. */
  lemma PowerStaysWithinCash(runId: nat, startingCash: int, fees: FeeModel, limits: Limits,
                             policies: seq<Policy>, actions: seq<Action>, model: Model)
    requires fees.Valid() && KeepsContract(model) && Asks(actions)
    requires Feasible(InitialWorld(runId, startingCash, fees, limits, policies), actions, model)
    ensures var p := After(InitialWorld(runId, startingCash, fees, limits, policies), actions, model).account;
            0 <= ReservedTotal(p) && BuyingPower(p) <= p.cash
  {
    var w0 := InitialWorld(runId, startingCash, fees, limits, policies);
    InitiallyInvariant(runId, startingCash, fees, limits, policies);
    RunKeepsCash(w0, actions, model);
    BuyingPowerWithinCash(After(w0, actions, model).account);
  }

  // ----- limit buys and the naive model --------------------------------------------------

  predicate LimitBuy(o: Order) {
    o.side == Buy && o.orderType == Limit && o.limitPrice.Some?
  }

  /** No working order is partly filled, and a limit buy reserves its whole cost at the limit. */
  ghost predicate Backed(p: Account, s: Simulator) {
    forall id :: id in s.working ==> OrderBacked(p, s.working[id])
  }

  ghost predicate OrderBacked(p: Account, o: Order) {
    && o.filledQuantity == 0
    && (LimitBuy(o) ==>
          o.id in p.openOrders
          && p.openOrders[o.id].reserved == WithFees(p.fees, o.limitPrice.value * o.quantity, o.quantity))
  }

  /** The fill closes an order that reserves at least what the fill costs. */
  ghost predicate PaidFor(p: Account, f: Fill) {
    && f.orderId in p.openOrders && f.status == Complete
    && p.openOrders[f.orderId].reserved >= f.price * f.quantity + f.fees
  }

  /** The first event fills a limit buy: its order comes right behind it. */
  predicate FillsLimitBuy(events: seq<Event>) {
    && |events| >= 2 && events[0].Execution? && events[1].OrderUpdate?
    && events[1].order.id == events[0].fill.orderId && LimitBuy(events[1].order)
  }

  ghost predicate AllPaid(p: Account, events: seq<Event>)
    decreases |events|
  {
    events == [] || (&& (FillsLimitBuy(events) ==> PaidFor(p, events[0].fill))
                     && AllPaid(Absorb(p, events[0]), events[1..]))
  }

  lemma {:induction false} AllPaidConcat(p: Account, a: seq<Event>, b: seq<Event>)
    requires AllPaid(p, a) && AllPaid(Drain(p, a), b) && (b != [] ==> !b[0].OrderUpdate?)
    ensures AllPaid(p, a + b)
    decreases |a|
  {
    hide Absorb, PaidFor;
    if a == [] {
      assert a + b == b;
    } else {
      assert (a + b)[1..] == a[1..] + b;
      AllPaidConcat(Absorb(p, a[0]), a[1..], b);
    }
  }

  lemma {:induction false} AllPaidIgnoresMarks(p: Account, q: Account, events: seq<Event>)
    requires SameButMarks(p, q) && AcceptsAll(p, events) && AllPaid(p, events)
    ensures AllPaid(q, events)
    decreases |events|
  {
    hide Accepts, Absorb;
    if events == [] {
    } else {
      AbsorbIgnoresMarks(p, q, events[0]);
      AllPaidIgnoresMarks(Absorb(p, events[0]), Absorb(q, events[0]), events[1..]);
    }
  }

  lemma {:induction false} AllPaidIgnoresHold(p: Account, signal: nat, h: Hold, events: seq<Event>)
    requires signal !in p.holds && AcceptsAll(p, events) && AllPaid(p, events)
    requires forall i :: 0 <= i < |events| ==> !Mentions(events[i], signal)
    ensures AllPaid(WithHold(p, signal, h), events)
    decreases |events|
  {
    hide Accepts, Absorb;
    if events == [] {
    } else {
      AbsorbCommutesWithHold(p, signal, h, events[0]);
      AllPaidIgnoresHold(Absorb(p, events[0]), signal, h, events[1..]);
    }
  }

  /** Filling all that remains: one fill event, then the Filled order, which leaves the table. */
  lemma WholeExecution(s: Simulator, id: nat, f: Fill, at: int)
    requires TableOk(s) && id in s.working && s.working[id].filledQuantity == 0
    requires Shares(f) == s.working[id].quantity
    ensures var (s', out) := Execute(s, id, f, at);
            && s'.working == s.working - {id}
            && |out| == 2 && out[0].Execution? && out[1].OrderUpdate? && out[1].order.status == Filled
            && out[0].fill == f.(id := out[0].fill.id, runId := s.working[id].runId,
                                 sequence := out[0].fill.sequence, status := Complete)
            && out[1].order == s.working[id].(filledQuantity := out[1].order.filledQuantity, status := Filled,
                                              averageFillPrice := out[1].order.averageFillPrice, updatedAt := at)
  {
    hide AveragePrice;
  }

  /** The portfolio settles such a pair by taking the order out. */
  lemma PairIsSettled(p: Account, f: Fill, o: Order)
    requires Accepts(p, Execution(f)) && f.status == Complete && o.status == Filled
    ensures var out := [Execution(f), OrderUpdate(o)];
            && Drain(p, out).fees == p.fees && Drain(p, out).openOrders == p.openOrders - {f.orderId}
            && (AllPaid(p, out) <==> (FillsLimitBuy(out) ==> PaidFor(p, f)))
  {
    hide NextPosition, PaidFor;
    var out := [Execution(f), OrderUpdate(o)];
    var settled := SettleFill(p, f);
    assert out[1..] == [OrderUpdate(o)] && out[1..][1..] == [];
    assert Absorb(p, out[0]) == settled && Absorb(settled, out[1]) == settled;
    assert Drain(settled, out[1..]) == Drain(Absorb(settled, out[1]), []);
    assert AllPaid(settled, out[1..]);
  }

  /** One fill of the naive model: the order it closes was backed, and the other orders still are. */
  lemma NaiveFillIsPaid(p: Account, s: Simulator, id: nat, e: MarketEvent, slip: int -> int, fills: seq<Fill>)
    requires TableOk(s) && Agrees(p, s) && id in s.working && Backed(p, s) && p.fees.Valid()
    requires Reference(e).Some? && Reference(e).value > 0
    requires fills == NaiveModel(slip, p.fees)(s.working[id], e) && fills != []
    ensures Shares(fills[0]) > 0
    ensures var (s', out) := Execute(s, id, fills[0], e.exchangeTime);
            && AllPaid(p, out) && out[0].Execution?
            && id !in s'.working
            && Drain(p, out).fees == p.fees && Backed(Drain(p, out), s')
  {
    hide FeeFor, WithFees, Accepts, Absorb, Drain, AcceptsAll, Agrees, Execute, AllPaid;
    var o, f := s.working[id], fills[0];
    assert OrderBacked(p, o);
    NaiveMeetsContract(o, Reference(e).value, e.exchangeTime, slip(Reference(e).value), p.fees);
    NaiveModelFills(slip, p.fees, o, e);
    assert FillContract(o, fills) && ExecutionOf(o, f) && f in fills;
    WholeExecution(s, id, f, e.exchangeTime);
    var (s', out) := Execute(s, id, f, e.exchangeTime);
    FirstIsAccepted(p, s, id, f, e.exchangeTime);
    assert out == [Execution(out[0].fill), OrderUpdate(out[1].order)];
    PairIsSettled(p, out[0].fill, out[1].order);
    if LimitBuy(o) { HoldCoversCost(p.fees, o.limitPrice.value, f.price, o.quantity); }
    RestIsBacked(p, Drain(p, out), s, id);
  }

  lemma FirstIsAccepted(p: Account, s: Simulator, id: nat, f: Fill, at: int)
    requires TableOk(s) && Agrees(p, s) && id in s.working && ExecutionOf(s.working[id], f)
    requires 0 < Shares(f) <= s.working[id].quantity - s.working[id].filledQuantity
    ensures Accepts(p, Execute(s, id, f, at).1[0])
  {
    hide Accepts, Absorb, Agrees;
    ExecuteAgrees(p, s, id, f, at);
  }

  lemma RestIsBacked(p: Account, p': Account, s: Simulator, id: nat)
    requires TableOk(s) && Backed(p, s)
    requires p'.fees == p.fees && p'.openOrders == p.openOrders - {id}
    ensures Backed(p', s.(working := s.working - {id}))
    ensures forall s': Simulator :: s'.working == s.working - {id} ==> Backed(p', s')
  {
    hide WithFees;
    forall k | k in s.working && k != id ensures OrderBacked(p', s.working[k]) { assert OrderBacked(p, s.working[k]); }
  }

  lemma {:induction false} NaiveSweepIsPaid(p: Account, s: Simulator, ids: set<nat>, e: MarketEvent, slip: int -> int)
    requires TableOk(s) && Agrees(p, s) && Backed(p, s) && p.fees.Valid() && ids <= s.working.Keys
    requires Reference(e).Some? && Reference(e).value > 0 && KeepsContract(NaiveModel(slip, p.fees))
    ensures var (s', out) := Sweep(s, ids, e, NaiveModel(slip, p.fees));
            && AllPaid(p, out) && (out != [] ==> out[0].Execution?)
            && Drain(p, out).fees == p.fees && Backed(Drain(p, out), s')
    decreases |ids|
  {
    hide Agrees, Backed, Absorb, NaiveModel, Execute;
    var model := NaiveModel(slip, p.fees);
    if ids == {} {
    } else {
      var id := Least(ids);
      var fills := model(s.working[id], e);
      if !Eligible(s.working[id], e) {
        NaiveSweepIsPaid(p, s, ids - {id}, e, slip);
      } else {
        ExecuteAllKeepsTable(s, id, fills, e.exchangeTime);
        ExecuteAllAgrees(p, s, id, fills, e.exchangeTime);
        NaiveOrderIsPaid(p, s, id, e, slip);
        var (s1, out1) := ExecuteAll(s, id, fills, e.exchangeTime);
        var p1 := Drain(p, out1);
        NaiveSweepIsPaid(p1, s1, ids - {id}, e, slip);
        var out2 := Sweep(s1, ids - {id}, e, model).1;
        AllPaidConcat(p, out1, out2);
        DrainConcat(p, out1, out2);
      }
    }
  }

  lemma NaiveOrderIsPaid(p: Account, s: Simulator, id: nat, e: MarketEvent, slip: int -> int)
    requires TableOk(s) && Agrees(p, s) && id in s.working && Backed(p, s) && p.fees.Valid()
    requires Reference(e).Some? && Reference(e).value > 0
    ensures var (s', out) := ExecuteAll(s, id, NaiveModel(slip, p.fees)(s.working[id], e), e.exchangeTime);
            && AllPaid(p, out) && (out != [] ==> out[0].Execution?)
            && Drain(p, out).fees == p.fees && Backed(Drain(p, out), s')
  {
    hide Agrees, Backed, Absorb, Execute, PaidFor;
    var fills := NaiveModel(slip, p.fees)(s.working[id], e);
    if fills != [] {
      NaiveFillIsPaid(p, s, id, e, slip, fills);
      assert |fills| == 1 && fills[1..] == [];
      var (s1, out1) := Execute(s, id, fills[0], e.exchangeTime);
      assert out1 + [] == out1;
    }
  }

  ghost predicate PaidInvariant(w: World) {
    && Invariant(w) && w.account.fees.Valid()
    && AllPaid(w.account, w.queue)
    && Backed(Drain(w.account, w.queue), w.sim)
  }

  lemma AbsorbKeepsFees(p: Account, e: Event)
    ensures Absorb(p, e).fees == p.fees
  {
    hide NextPosition, ReservedAfter, BuyCost;
  }

  lemma {:induction false} DrainKeepsFees(p: Account, events: seq<Event>)
    ensures Drain(p, events).fees == p.fees
    decreases |events|
  {
    hide Absorb;
    if events == [] {
    } else {
      AbsorbKeepsFees(p, events[0]);
      DrainKeepsFees(Absorb(p, events[0]), events[1..]);
    }
  }

  lemma BackedIgnoresMarks(p: Account, q: Account, s: Simulator)
    requires SameButMarks(p, q) && Backed(p, s)
    ensures Backed(q, s)
  {
    hide WithFees;
    forall id | id in s.working ensures OrderBacked(q, s.working[id]) { assert OrderBacked(p, s.working[id]); }
  }

  lemma AppendNeutral(w: World, e: Event)
    requires PaidInvariant(w) && Neutral(e)
    ensures AllPaid(w.account, w.queue + [e]) && Drain(w.account, w.queue + [e]) == Drain(w.account, w.queue)
  {
    hide Absorb, PaidFor;
    var p := Drain(w.account, w.queue);
    NeutralIsAbsorbed(p, e);
    assert AllPaid(p, [e]);
    AllPaidConcat(w.account, w.queue, [e]);
    DrainConcat(w.account, w.queue, [e]);
  }

  lemma FeedKeepsPaid(w: World, m: MarketEvent, slip: int -> int)
    requires PaidInvariant(w) && KeepsContract(NaiveModel(slip, w.account.fees))
    ensures var w' := Next(w, FeedExecution(m), NaiveModel(slip, w.account.fees));
            AllPaid(w'.account, w'.queue) && Backed(Drain(w'.account, w'.queue), w'.sim)
  {
    hide Absorb, PaidFor, Agrees, Backed, NaiveModel;
    if Reference(m).Some? && Reference(m).value > 0 {
      var p := Drain(w.account, w.queue);
      DrainKeepsFees(w.account, w.queue);
      NaiveSweepIsPaid(p, w.sim, w.sim.working.Keys, m, slip);
      var out := Sweep(w.sim, w.sim.working.Keys, m, NaiveModel(slip, w.account.fees)).1;
      AllPaidConcat(w.account, w.queue, out);
      DrainConcat(w.account, w.queue, out);
    } else {
      assert w.queue + [] == w.queue;
    }
  }

  /** Marks changed while the queue waits: what is paid and backed stays so. */
  lemma RemarkKeepsPaid(p: Account, q: Account, queue: seq<Event>, s: Simulator)
    requires SameButMarks(p, q) && AcceptsAll(p, queue)
    requires AllPaid(p, queue) && Backed(Drain(p, queue), s)
    ensures AllPaid(q, queue) && Backed(Drain(q, queue), s)
  {
    hide Accepts, Absorb, Backed;
    AllPaidIgnoresMarks(p, q, queue);
    DrainIgnoresMarks(p, q, queue);
    BackedIgnoresMarks(Drain(p, queue), Drain(q, queue), s);
  }

  /** The hold an approved limit buy leaves is its whole cost at the limit. */
  lemma ApprovalReserves(d: Desk, p: Account, g: Signal, now: int)
    requires g.id !in p.holds && CheckSignal(d, p, g, now).1.approved
    ensures var (p', decision) := CheckSignal(d, p, g, now);
            var sized := Sized(g, decision);
            && g.id in p'.holds
            && (OrderSideOf(g) == Buy && g.limitPrice.Some? ==>
                  p'.holds[g.id].amount == WithFees(p.fees, g.limitPrice.value * Requested(sized), Requested(sized)))
  {
    hide WithFees, Screen;
  }

  lemma SignalKeepsPaid(w: World, g: Signal, decision: Decision, h: Hold)
    requires PaidInvariant(w) && g.id !in w.account.holds && g.id in w.decided
    requires forall i :: 0 <= i < |w.queue| ==> !Mentions(w.queue[i], g.id)
    requires h == Hold(g.symbol, OrderSideOf(g), Requested(g), h.amount)
    requires OrderSideOf(g) == Buy && g.limitPrice.Some? ==>
               h.amount == WithFees(w.account.fees, g.limitPrice.value * Requested(g), Requested(g))
    ensures var (sim, order) := Submit(w.sim, g, w.now);
            var account, queue := WithHold(w.account, g.id, h), w.queue + [RiskDecided, OrderUpdate(order)];
            AllPaid(account, queue) && Backed(Drain(account, queue), sim)
  {
    hide Accepts, Absorb, Agrees, Backed, PaidFor, Submit, WithFees;
    var (sim, order) := Submit(w.sim, g, w.now);
    var account := WithHold(w.account, g.id, h);
    var more := [RiskDecided, OrderUpdate(order)];
    var p := Drain(w.account, w.queue);
    AllPaidIgnoresHold(w.account, g.id, h, w.queue);
    DrainCommutesWithHold(w.account, g.id, h, w.queue);
    DrainKeepsFees(w.account, w.queue);
    OpeningIsBacked(p, w.sim, g, h, w.now);
    DecisionThenOrder(WithHold(p, g.id, h), order);
    AllPaidConcat(account, w.queue, more);
    DrainConcat(account, w.queue, more);
  }

  lemma DecisionThenOrder(p: Account, o: Order)
    ensures var out := [RiskDecided, OrderUpdate(o)];
            AllPaid(p, out) && Drain(p, out) == Absorb(p, OrderUpdate(o))
  {
    hide ApplyOrderUpdate;
    var out := [RiskDecided, OrderUpdate(o)];
    assert out[1..] == [OrderUpdate(o)] && out[1..][1..] == [];
    assert Drain(p, out[1..]) == Drain(Absorb(p, OrderUpdate(o)), []);
    assert AllPaid(p, out[1..]);
  }

  /** What the order of a held signal does to both tables. */
  lemma OpeningMovesTables(p: Account, s: Simulator, g: Signal, h: Hold, now: int)
    requires TableOk(s) && Agrees(p, s)
    ensures var (s', order) := Submit(s, g, now);
            var p' := Absorb(WithHold(p, g.id, h), OrderUpdate(order));
            && p'.fees == p.fees && order.id !in s.working
            && if CannotBecomeOrder(g) then s'.working == s.working && p'.openOrders == p.openOrders
               else && s'.working == s.working[order.id := order] && order.filledQuantity == 0
                    && order.id in p'.openOrders && p'.openOrders[order.id].reserved == h.amount
                    && p'.openOrders - {order.id} == p.openOrders - {order.id}
  {
    hide BuyCost, SameOrder;
    assert s.lastOrderId + 1 !in s.working;
  }

  lemma OpeningIsBacked(p: Account, s: Simulator, g: Signal, h: Hold, now: int)
    requires TableOk(s) && Agrees(p, s) && Backed(p, s)
    requires h == Hold(g.symbol, OrderSideOf(g), Requested(g), h.amount)
    requires OrderSideOf(g) == Buy && g.limitPrice.Some? ==>
               h.amount == WithFees(p.fees, g.limitPrice.value * Requested(g), Requested(g))
    ensures var (s', order) := Submit(s, g, now);
            Backed(Absorb(WithHold(p, g.id, h), OrderUpdate(order)), s')
  {
    hide WithFees, Absorb, Agrees, WithHold, CannotBecomeOrder;
    OpeningMovesTables(p, s, g, h, now);
    var (s', order) := Submit(s, g, now);
    var p' := Absorb(WithHold(p, g.id, h), OrderUpdate(order));
    forall id | id in s'.working
      ensures OrderBacked(p', s'.working[id])
    {
      if id != order.id {
        assert OrderBacked(p, s.working[id]) && s.working[id].id == id;
        assert id in p.openOrders ==> id in p.openOrders - {order.id};
      }
    }
  }

  lemma DispatchSignalKeepsPaid(w: World, g: Signal, model: Model)
    requires PaidInvariant(w) && KeepsContract(model) && w.queue != [] && w.queue[0] == SignalMade(g)
    ensures PaidInvariant(Next(w, Dispatch, model))
  {
    hide AllPaid, Absorb, Accepts, Agrees, Backed, Submit, Invariant, HoldForSignal, CheckSignal;
    NextKeepsInvariant(w, Dispatch, model);
    var taken := w.(queue := w.queue[1..], decided := w.decided + {g.id});
    assert Invariant(w) && w.queue[0].SignalMade?;
    SignalIsTaken(w);
    HeadIsNeutral(w);
    SignalIsNew(w, g);
    ApprovalHolds(w.desk, w.account, g, w.now);
    var (account, decision) := CheckSignal(w.desk, w.account, g, w.now);
    if decision.approved {
      ApprovalReserves(w.desk, w.account, g, w.now);
      SignalKeepsPaid(taken, Sized(g, decision), decision, account.holds[g.id]);
      var order := Submit(w.sim, Sized(g, decision), w.now).1;
      assert (taken.queue + [RiskDecided]) + [OrderUpdate(order)] == taken.queue + [RiskDecided, OrderUpdate(order)];
    } else {
      AppendNeutral(taken, RiskDecided);
    }
  }

  /** A neutral event at the head leaves what the rest of the queue will do as it was. */
  lemma HeadIsNeutral(w: World)
    requires w.queue != [] && Neutral(w.queue[0])
    requires AllPaid(w.account, w.queue) && Backed(Drain(w.account, w.queue), w.sim)
    ensures AllPaid(w.account, w.queue[1..]) && Backed(Drain(w.account, w.queue[1..]), w.sim)
  {
    hide Backed, PaidFor;
  }

  lemma SignalIsNew(w: World, g: Signal)
    requires Invariant(w) && w.queue != [] && w.queue[0] == SignalMade(g)
    ensures g.id !in w.account.holds && forall i :: 0 <= i < |w.queue| ==> !Mentions(w.queue[i], g.id)
  {
    hide InStep, LongOnly;
  }

  lemma DispatchOtherKeepsPaid(w: World, model: Model)
    requires PaidInvariant(w) && KeepsContract(model) && w.queue != [] && !w.queue[0].SignalMade?
    ensures PaidInvariant(Next(w, Dispatch, model))
  {
    hide AllPaid, Absorb, Accepts, Agrees, Backed, Invariant, ApplyMark, SettleFill, ApplyOrderUpdate;
    NextKeepsInvariant(w, Dispatch, model);
    HeadIsTaken(w);
    var p, q, rest := Absorb(w.account, w.queue[0]), Next(w, Dispatch, model).account, w.queue[1..];
    DeliveryIsAbsorption(w, model);
    RemarkKeepsPaid(p, q, rest, w.sim);
    AbsorbKeepsFees(w.account, w.queue[0]);
  }

  lemma HeadIsTaken(w: World)
    requires PaidInvariant(w) && w.queue != []
    ensures var p := Absorb(w.account, w.queue[0]);
            AcceptsAll(p, w.queue[1..]) && AllPaid(p, w.queue[1..]) && Backed(Drain(p, w.queue[1..]), w.sim)
  {
    hide Absorb, Accepts, Agrees, Backed, PaidFor;
  }

  /** Delivering anything but a signal is absorbing it, up to marks, and takes it off the queue. */
  lemma DeliveryIsAbsorption(w: World, model: Model)
    requires Invariant(w) && KeepsContract(model) && w.queue != [] && !w.queue[0].SignalMade?
    ensures var w' := Next(w, Dispatch, model);
            && SameButMarks(Absorb(w.account, w.queue[0]), w'.account)
            && w'.queue == w.queue[1..] && w'.sim == w.sim
  {
    hide SettleFill, ApplyOrderUpdate, LongOnly, SignalsFresh, Agrees;
    HeadIsAccepted(w);
  }

  lemma NextKeepsPaid(w: World, a: Action, slip: int -> int)
    requires PaidInvariant(w) && KeepsContract(NaiveModel(slip, w.account.fees)) && Enabled(w, a)
    ensures var w' := Next(w, a, NaiveModel(slip, w.account.fees));
            PaidInvariant(w') && w'.account.fees == w.account.fees
  {
    hide AllPaid, Absorb, Backed, Invariant, NaiveModel, Deliver;
    var model := NaiveModel(slip, w.account.fees);
    NextKeepsInvariant(w, a, model);
    match a
    case EmitSignal(g) => AppendNeutral(w, SignalMade(g));
    case PublishMarket(m) => AppendNeutral(w, MarketData(m));
    case FeedExecution(m) => FeedKeepsPaid(w, m, slip);
    case Dispatch =>
      DispatchKeepsFees(w, model);
      if w.queue[0].SignalMade? {
        DispatchSignalKeepsPaid(w, w.queue[0].signal, model);
      } else {
        DispatchOtherKeepsPaid(w, model);
      }
    case _ =>
  }

  lemma DispatchKeepsFees(w: World, model: Model)
    requires Invariant(w) && KeepsContract(model) && w.queue != []
    ensures Next(w, Dispatch, model).account.fees == w.account.fees
  {
    hide Absorb, CheckSignal, ApplyMark, ApplyOrderUpdate, ApplyFill, SettleFill, Invariant;
    assert TableOk(w.sim) by { TableIsOk(w); }
    if w.queue[0].SignalMade? {
      CheckKeepsFees(w.desk, w.account, w.queue[0].signal, w.now);
    } else {
      DeliveryIsAbsorption(w, model);
      AbsorbKeepsFees(w.account, w.queue[0]);
    }
  }

  lemma {:induction false} RunKeepsPaid(w: World, actions: seq<Action>, slip: int -> int, fees: FeeModel)
    requires PaidInvariant(w) && w.account.fees == fees && KeepsContract(NaiveModel(slip, fees))
    requires Feasible(w, actions, NaiveModel(slip, fees))
    ensures PaidInvariant(After(w, actions, NaiveModel(slip, fees)))
    ensures After(w, actions, NaiveModel(slip, fees)).account.fees == fees
    decreases |actions|
  {
    hide AllPaid, Backed, Next, NaiveModel;
    if actions == [] {
    } else {
      NextKeepsPaid(w, actions[0], slip);
      RunKeepsPaid(Next(w, actions[0], NaiveModel(slip, fees)), actions[1..], slip, fees);
    }
  }

  lemma InitiallyPaid(w: World)
    requires Invariant(w) && w.account.fees.Valid() && w.queue == [] && w.sim.working == map[]
    ensures PaidInvariant(w)
  {
  }

  /** Settling a fill that is paid for does not lower buying power, whatever is marked afterwards. */
  lemma PaidFillKeepsPower(w: World, f: Fill)
    requires Accepts(w.account, Execution(f)) && PaidFor(w.account, f)
    ensures BuyingPower(DeliverFill(w, f).account) >= BuyingPower(w.account)
  {
    hide NextPosition, BuyingPower;
    var settled := SettleFill(w.account, f);
    FillMovesBuyingPower(w.account, f);
    PowerIgnoresMarks(settled, DeliverFill(w, f).account);
  }

  lemma PowerIgnoresMarks(p: Account, q: Account)
    requires SameButMarks(p, q)
    ensures BuyingPower(p) == BuyingPower(q)
  {
  }

  /** A run of the assembled system with the naive model, from the start. */
  ghost predicate NaiveRun(w: World, actions: seq<Action>, slip: int -> int)
    requires TableOk(w.sim) && w.account.fees.Valid()
  {
    NaiveKeepsContract(slip, w.account.fees);
    Feasible(w, actions, NaiveModel(slip, w.account.fees))
  }

  ghost function NaiveAfter(w: World, actions: seq<Action>, slip: int -> int): (w': World)
    requires TableOk(w.sim) && w.account.fees.Valid() && NaiveRun(w, actions, slip)
    ensures TableOk(w'.sim)
  {
    NaiveKeepsContract(slip, w.account.fees);
    After(w, actions, NaiveModel(slip, w.account.fees))
  }

  /**
   * In every run with the naive model: whenever the bus delivers the fill of a limit buy, buying power
   * does not fall. The Filled order right behind the fill tells that its order was a limit buy.
   */
  lemma LimitBuysNeverLowerPower(runId: nat, startingCash: int, fees: FeeModel, limits: Limits,
                                 policies: seq<Policy>, actions: seq<Action>, slip: int -> int)
    requires fees.Valid() && NaiveRun(InitialWorld(runId, startingCash, fees, limits, policies), actions, slip)
    ensures KeepsContract(NaiveModel(slip, fees))
    ensures var w := NaiveAfter(InitialWorld(runId, startingCash, fees, limits, policies), actions, slip);
            FillsLimitBuy(w.queue) ==>
              BuyingPower(Next(w, Dispatch, NaiveModel(slip, fees)).account) >= BuyingPower(w.account)
  {
    hide Absorb, Accepts, BuyingPower, NaiveModel, DeliverFill, InitialWorld;
    var w0 := InitialWorld(runId, startingCash, fees, limits, policies);
    StartsEmpty(runId, startingCash, fees, limits, policies);
    NaiveKeepsContract(slip, fees);
    InitiallyInvariant(runId, startingCash, fees, limits, policies);
    InitiallyPaid(w0);
    RunKeepsPaid(w0, actions, slip, fees);
    var w := NaiveAfter(w0, actions, slip);
    if FillsLimitBuy(w.queue) {
      HeadIsAccepted(w);
      PaidFillKeepsPower(w.(queue := w.queue[1..]), w.queue[0].fill);
    }
  }

  lemma StartsEmpty(runId: nat, startingCash: int, fees: FeeModel, limits: Limits, policies: seq<Policy>)
    ensures var w := InitialWorld(runId, startingCash, fees, limits, policies);
            w.queue == [] && w.sim.working == map[] && w.account.fees == fees
  {
  }
}
