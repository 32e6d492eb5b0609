/**
 * Whole runs once more: what is granted, what the kill switch stops, when a signal becomes an order, and
 * that every order and fill answers a signal some strategy emitted.
 */
module RunSafety {
  import opened Domain
  import opened Decimals
  import opened MapSums
  import opened Portfolio
  import opened Accounting
  import opened Grants
  import opened Execution
  import opened FairFills
  import opened Risk
  import opened RiskLimits
  import opened TradingRun
  import opened Valuation

  // ----- grants --------------------------------------------------------------------------

  lemma CheckAddsItsHold(d: Desk, p: Account, g: Signal, now: int)
    ensures var after := CheckSignal(d, p, g, now).0;
            && after == p.(holds := after.holds)
            && (forall s :: s in after.holds && s !in p.holds ==> s == g.id)
            && (forall s :: s in p.holds ==> s in after.holds && after.holds[s] == p.holds[s])
            && (g.id in after.holds && g.id !in p.holds && after.holds[g.id].side == Buy ==> Unreserved(after) >= 0)
  {
    hide Screen, SnapshotOf, ContextOf, HoldForSignal, Unreserved, BuyCost, Held, SellHolds, SellOrders, Sum;
    var screened := Screen(d.policies, g, SnapshotOf(p, now), ContextOf(d, p));
    if !d.killed && screened.Some? {
      var side, q := OrderSideOf(g), Requested(screened.value);
      if !FirstRequest(p, g.id, q) {
        RepeatedOrEmptyRequest(p, g.id, g.symbol, side, q, g.limitPrice);
      } else if side == Sell {
        SellIsGrantedExactly(p, g.id, g.symbol, q, g.limitPrice);
      } else {
        BuyIsGrantedExactly(p, g.id, g.symbol, q, g.limitPrice);
      }
    }
  }

  lemma OrderAddsNoHold(p: Account, o: Order)
    ensures ApplyOrderUpdate(p, o).holds.Keys <= p.holds.Keys
  {
    hide BuyCost;
  }

  lemma FillAddsNoHold(w: World, f: Fill)
    ensures var w' := DeliverFill(w, f);
            w'.account.holds == w.account.holds && w'.sim == w.sim && w'.desk == w.desk
  {
    hide SettleFill, ApplyMark;
    if ApplyFill(w.account, f).Applied? {
      SettlementKeepsHolds(w.account, f);
      if f.symbol in w.lastMarks { MarkKeepsHolds(SettleFill(w.account, f), w.lastMarks[f.symbol]); }
    }
  }

  lemma SettlementKeepsHolds(p: Account, f: Fill)
    requires f.quantity != 0
    ensures SettleFill(p, f).holds == p.holds
  {
    hide NextPosition, ReleaseForFill;
    ReleaseKeepsHolds(p, f);
  }

  lemma MarkKeepsHolds(p: Account, e: MarketEvent)
    ensures ApplyMark(p, e).holds == p.holds
  {
    hide MarkPriceOf;
  }

  lemma OthersAddNoHold(w: World, model: Model)
    requires TableOk(w.sim) && KeepsContract(model) && w.queue != [] && !w.queue[0].SignalMade?
    ensures var w' := Next(w, Dispatch, model);
            w'.account.holds.Keys <= w.account.holds.Keys && w'.sim == w.sim && w'.desk.killed == w.desk.killed
  {
    hide ApplyOrderUpdate, DeliverFill, TotalEquity, MarkPriceOf, DeliverSignal;
    var rest := w.(queue := w.queue[1..]);
    match w.queue[0]
    case OrderUpdate(o) => OrderAddsNoHold(w.account, o);
    case Execution(f) => FillAddsNoHold(rest, f);
    case _ =>
  }

  lemma SignalMovesAccount(w: World, model: Model)
    requires TableOk(w.sim) && KeepsContract(model) && w.queue != [] && w.queue[0].SignalMade?
    ensures Next(w, Dispatch, model).account == CheckSignal(w.desk, w.account, w.queue[0].signal, w.now).0
  {
    hide CheckSignal, Submit;
  }

  /** No delivery grants a buy more than the cash that nothing else has a claim on. */
  lemma GrantNeverOverdraws(w: World, model: Model, signal: nat)
    requires TableOk(w.sim) && KeepsContract(model) && w.queue != []
    ensures var after := Next(w, Dispatch, model).account;
            signal in after.holds && signal !in w.account.holds && after.holds[signal].side == Buy ==>
              after.cash - (Sum(HoldAmounts(after.holds)) + Sum(OrderReserves(after.openOrders))) >= 0
  {
    hide Next, CheckSignal, Sum, HoldAmounts, OrderReserves;
    if w.queue[0].SignalMade? {
      SignalMovesAccount(w, model);
      CheckAddsItsHold(w.desk, w.account, w.queue[0].signal, w.now);
    } else {
      OthersAddNoHold(w, model);
    }
  }

  // ----- the kill switch -----------------------------------------------------------------

  lemma {:induction false} ExecuteAllTakesNoOrderId(s: Simulator, id: nat, fills: seq<Fill>, at: int)
    requires TableOk(s) && id in s.working && FillContract(s.working[id], fills)
    ensures ExecuteAll(s, id, fills, at).0.lastOrderId == s.lastOrderId
    decreases |fills|
  {
    hide AveragePrice;
    if fills == [] {
    } else if Shares(fills[0]) == 0 {
      assert FillContract(s.working[id], fills[1..]);
      ExecuteAllTakesNoOrderId(s, id, fills[1..], at);
    } else {
      ExecuteKeepsTable(s, id, fills, at);
      var s1 := Execute(s, id, fills[0], at).0;
      if id in s1.working { ExecuteAllTakesNoOrderId(s1, id, fills[1..], at); }
    }
  }

  lemma {:induction false} SweepTakesNoOrderId(s: Simulator, ids: set<nat>, e: MarketEvent, model: Model)
    requires TableOk(s) && ids <= s.working.Keys
    requires KeepsContract(model) && Reference(e).Some? && Reference(e).value > 0
    ensures Sweep(s, ids, e, model).0.lastOrderId == s.lastOrderId
    decreases |ids|
  {
    hide ExecuteAll;
    if ids == {} {
    } else {
      var id := Least(ids);
      if !Eligible(s.working[id], e) {
        SweepTakesNoOrderId(s, ids - {id}, e, model);
      } else {
        var fills := model(s.working[id], e);
        ExecuteAllKeepsTable(s, id, fills, e.exchangeTime);
        ExecuteAllTakesNoOrderId(s, id, fills, e.exchangeTime);
        SweepTakesNoOrderId(ExecuteAll(s, id, fills, e.exchangeTime).0, ids - {id}, e, model);
      }
    }
  }

  /** One action while the switch is engaged places no order and holds nothing. */
  lemma KilledStepPlacesNothing(w: World, a: Action, model: Model)
    requires TableOk(w.sim) && KeepsContract(model) && Enabled(w, a)
    requires w.desk.killed && a != SetKill(false)
    ensures var w' := Next(w, a, model);
            && w'.desk.killed && w'.sim.lastOrderId == w.sim.lastOrderId
            && w'.account.holds.Keys <= w.account.holds.Keys
  {
    hide Deliver, OnMarket;
    match a
    case Dispatch =>
      if w.queue[0].SignalMade? {
        KilledSignalIsDenied(w, model);
      } else {
        OthersAddNoHold(w, model);
      }
    case FeedExecution(m) => FeedTakesNoOrderId(w.sim, m, model);
    case _ =>
  }

  lemma FeedTakesNoOrderId(s: Simulator, m: MarketEvent, model: Model)
    requires TableOk(s) && KeepsContract(model)
    ensures OnMarket(s, m, model).0.lastOrderId == s.lastOrderId
  {
    if Reference(m).Some? && Reference(m).value > 0 { SweepTakesNoOrderId(s, s.working.Keys, m, model); }
  }

  lemma KilledSignalIsDenied(w: World, model: Model)
    requires TableOk(w.sim) && KeepsContract(model) && w.queue != [] && w.queue[0].SignalMade? && w.desk.killed
    ensures Next(w, Dispatch, model) ==
            w.(queue := w.queue[1..] + [RiskDecided], decided := w.decided + {w.queue[0].signal.id})
  {
    hide CheckSignal;
    KilledDeskApprovesNothing(w.desk, w.account, w.queue[0].signal, w.now);
  }

  /**
   * From any state with the kill switch engaged, through any actions that do not disengage it: no order is
   * placed and no signal is granted a hold.
   */
  lemma {:induction false} KillSwitchStopsOrders(w: World, actions: seq<Action>, model: Model)
    requires TableOk(w.sim) && KeepsContract(model) && Feasible(w, actions, model)
    requires w.desk.killed && SetKill(false) !in actions
    ensures var w' := After(w, actions, model);
            && w'.desk.killed && w'.sim.lastOrderId == w.sim.lastOrderId
            && w'.account.holds.Keys <= w.account.holds.Keys
    decreases |actions|
  {
    hide Next;
    if actions == [] {
    } else {
      KilledStepPlacesNothing(w, actions[0], model);
      KillSwitchStopsOrders(Next(w, actions[0], model), actions[1..], model);
    }
  }

  // ----- when a signal becomes an order --------------------------------------------------

  ghost predicate DeskOk(d: Desk, policies: seq<Policy>) {
    d.policies == policies && PositivePrices(d.prices)
  }

  lemma NextKeepsDesk(w: World, a: Action, model: Model, policies: seq<Policy>)
    requires TableOk(w.sim) && KeepsContract(model) && Enabled(w, a) && DeskOk(w.desk, policies)
    ensures DeskOk(Next(w, a, model).desk, policies)
  {
    hide OnMarket, CheckSignal, Submit, ApplyFill, ApplyOrderUpdate, ApplyMark, TotalEquity;
  }

  lemma {:induction false} RunKeepsDesk(w: World, actions: seq<Action>, model: Model, policies: seq<Policy>)
    requires TableOk(w.sim) && KeepsContract(model) && Feasible(w, actions, model) && DeskOk(w.desk, policies)
    ensures DeskOk(After(w, actions, model).desk, policies)
    decreases |actions|
  {
    hide Next, DeskOk;
    if actions == [] {
    } else {
      NextKeepsDesk(w, actions[0], model, policies);
      RunKeepsDesk(Next(w, actions[0], model), actions[1..], model, policies);
    }
  }

  /** The order a signal asks for, in size q: bought or sold as the signal says, at its limit if it is a limit order. */
  predicate Asks(o: Order, g: Signal, q: int, at: int) {
    && o.originSignal == g.id && o.symbol == g.symbol
    && o.side == (if g.side == SellSignal then Sell else Buy)
    && o.orderType == g.orderType.ValueOr(Market)
    && o.limitPrice == (if g.orderType == Some(Limit) then g.limitPrice else None)
    && o.quantity == q && o.filledQuantity == 0 && o.averageFillPrice == None
    && o.createdAt == at && o.updatedAt == at
  }

  /** A flat signal, or a limit signal without a limit, is rejected by the simulator. */
  predicate Usable(g: Signal) {
    g.side != Flat && (g.orderType == Some(Limit) ==> g.limitPrice.Some?)
  }

  lemma OldestSignalIsNew(w: World)
    requires Invariant(w) && w.queue != [] && w.queue[0].SignalMade?
    ensures w.queue[0].signal.id !in w.account.holds
  {
  }

  lemma SubmittedOrder(s: Simulator, g: Signal, q: int, now: int)
    requires q > 0 && g.quantity.ValueOr(0) == q
    ensures var (s', order) := Submit(s, g, now);
            && Asks(order, g, q, now) && order.id == s.lastOrderId + 1 && order.runId == s.runId
            && order.status == (if Usable(g) then Working else Rejected)
            && s' == s.(lastOrderId := s.lastOrderId + 1,
                        working := if Usable(g) then s.working[order.id := order] else s.working)
  {
  }

  /**
   * In every reachable state of a run with the starter policies: the oldest event, when it is a signal,
   * becomes an order exactly when it is approvable - the order it asks for, at its capped size, numbered
   * next - and otherwise is only reported.
   */
  lemma SignalBecomesOrderExactly(runId: nat, startingCash: int, fees: FeeModel, limits: Limits,
                                  actions: seq<Action>, w: World, model: Model)
    requires KeepsContract(model)
    requires Feasible(InitialWorld(runId, startingCash, fees, limits, STARTER_POLICIES), actions, model)
    requires w == After(InitialWorld(runId, startingCash, fees, limits, STARTER_POLICIES), actions, model)
    requires w.queue != [] && w.queue[0].SignalMade?
    ensures var g, w' := w.queue[0].signal, Next(w, Dispatch, model);
            && (Approvable(w.desk, w.account, g) ==>
                  && w'.sim.lastOrderId == w.sim.lastOrderId + 1
                  && |w'.queue| == |w.queue| + 1
                  && var last := w'.queue[|w'.queue| - 1];
                     && last.OrderUpdate? && last.order.id == w.sim.lastOrderId + 1
                     && Asks(last.order, g, Capped(w.desk, g), w.now)
                     && last.order.status == (if Usable(g) then Working else Rejected))
            && (!Approvable(w.desk, w.account, g) ==>
                  w' == w.(queue := w.queue[1..] + [RiskDecided], decided := w.decided + {g.id}))
  {
    hide Invariant, After, Feasible, CheckSignal, Approvable, Submit, Asks;
    var w0, g := InitialWorld(runId, startingCash, fees, limits, STARTER_POLICIES), w.queue[0].signal;
    InitiallyInvariant(runId, startingCash, fees, limits, STARTER_POLICIES);
    RunKeepsInvariant(w0, actions, model);
    RunKeepsDesk(w0, actions, model, STARTER_POLICIES);
    OldestSignalIsNew(w);
    SignalIsApprovedExactly(w.desk, w.account, g, w.now);
    ApprovableHasASize(w.desk, w.account, g);
    if Approvable(w.desk, w.account, g) {
      var sized := Sized(g, CheckSignal(w.desk, w.account, g, w.now).1);
      SubmittedOrder(w.sim, sized, Capped(w.desk, g), w.now);
      SizeIsNotAsked(Submit(w.sim, sized, w.now).1, g, sized, Capped(w.desk, g), w.now);
    }
  }

  lemma ApprovableHasASize(d: Desk, p: Account, g: Signal)
    ensures Approvable(d, p, g) ==> Capped(d, g) > 0
  {
    hide WithinLimits, Affordable;
  }

  lemma SizeIsNotAsked(o: Order, g: Signal, sized: Signal, q: int, at: int)
    requires sized == g.(quantity := sized.quantity) && Asks(o, sized, q, at)
    ensures Asks(o, g, q, at) && (Usable(g) <==> Usable(sized))
  {
  }

  // ----- orders and fills answer signals -------------------------------------------------

  // Order `id` was placed for `signal`, which was decided at clock time `at`.
  datatype Placement = Placement(id: nat, signal: Signal, at: int)

  /** What the deliveries of a run placed, in order. */
  ghost function Placements(w: World, actions: seq<Action>, model: Model): seq<Placement>
    requires TableOk(w.sim) && KeepsContract(model) && Feasible(w, actions, model)
    decreases |actions|
  {
    if actions == [] then []
    else
      var next := Next(w, actions[0], model);
      (if actions[0] == Dispatch && w.queue[0].SignalMade? && next.sim.lastOrderId > w.sim.lastOrderId
       then [Placement(next.sim.lastOrderId, w.queue[0].signal, w.now)] else [])
      + Placements(next, actions[1..], model)
  }

  /** An open order is the one its placement asked for, less what was filled. */
  predicate Answers(o: Order, p: Placement) {
    && o.id == p.id && o.originSignal == p.signal.id && o.symbol == p.signal.symbol
    && p.signal.side == (if o.side == Buy then BuySignal else SellSignal)
    && o.orderType == p.signal.orderType.ValueOr(Market)
    && (o.orderType == Limit ==> o.limitPrice.Some? && o.limitPrice == p.signal.limitPrice)
    && (o.orderType == Market ==> o.limitPrice == None)
    && 0 < o.quantity <= p.signal.quantity.ValueOr(0)
    && o.createdAt == p.at
  }

  /** Execution changes none of an order's terms. */
  predicate SameTerms(o: Order, o': Order) {
    o' == o.(filledQuantity := o'.filledQuantity, averageFillPrice := o'.averageFillPrice,
             updatedAt := o'.updatedAt, status := o'.status)
  }

  ghost predicate KeepsTerms(s: Simulator, s': Simulator) {
    forall id :: id in s'.working ==> id in s.working && SameTerms(s.working[id], s'.working[id])
  }

  lemma {:induction false} ExecuteAllKeepsTerms(s: Simulator, id: nat, fills: seq<Fill>, at: int)
    requires TableOk(s) && id in s.working && FillContract(s.working[id], fills)
    ensures KeepsTerms(s, ExecuteAll(s, id, fills, at).0)
    decreases |fills|
  {
    hide AveragePrice;
    if fills == [] {
    } else if Shares(fills[0]) == 0 {
      assert FillContract(s.working[id], fills[1..]);
      ExecuteAllKeepsTerms(s, id, fills[1..], at);
    } else {
      ExecuteKeepsTable(s, id, fills, at);
      var s1 := Execute(s, id, fills[0], at).0;
      if id in s1.working { ExecuteAllKeepsTerms(s1, id, fills[1..], at); }
    }
  }

  lemma {:induction false} SweepKeepsTerms(s: Simulator, ids: set<nat>, e: MarketEvent, model: Model)
    requires TableOk(s) && ids <= s.working.Keys
    requires KeepsContract(model) && Reference(e).Some? && Reference(e).value > 0
    ensures KeepsTerms(s, Sweep(s, ids, e, model).0)
    decreases |ids|
  {
    hide ExecuteAll;
    if ids == {} {
    } else {
      var id := Least(ids);
      if !Eligible(s.working[id], e) {
        SweepKeepsTerms(s, ids - {id}, e, model);
      } else {
        var fills := model(s.working[id], e);
        ExecuteAllKeepsTable(s, id, fills, e.exchangeTime);
        ExecuteAllKeepsTerms(s, id, fills, e.exchangeTime);
        SweepKeepsTerms(ExecuteAll(s, id, fills, e.exchangeTime).0, ids - {id}, e, model);
      }
    }
  }

  /** An approved signal is not larger than it was, and is for some shares. */
  lemma ApprovedSize(d: Desk, p: Account, g: Signal, now: int)
    requires PositivePrices(d.prices) && g.id !in p.holds && CheckSignal(d, p, g, now).1.approved
    ensures var sized := Sized(g, CheckSignal(d, p, g, now).1);
            sized == g.(quantity := sized.quantity) && 0 < sized.quantity.ValueOr(0) <= g.quantity.ValueOr(0)
  {
    hide SnapshotOf, ContextOf, HoldForSignal, Meets;
    var s, c := SnapshotOf(p, now), ContextOf(d, p);
    assert c.prices == d.prices by { ContextPrices(d, p); }
    PassedMeetsEveryLimit(d.policies, g, s, c);
    var q := Requested(Screen(d.policies, g, s, c).value);
    GrantsAreAffordable(p, g, q);
  }

  lemma ContextPrices(d: Desk, p: Account)
    ensures ContextOf(d, p).prices == d.prices
  {
  }

  /** One action: an order open afterwards was open before on the same terms, or was just placed. */
  ghost predicate Traced(w: World, w': World, placed: seq<Placement>) {
    forall id :: id in w'.sim.working ==>
      || (id in w.sim.working && SameTerms(w.sim.working[id], w'.sim.working[id]))
      || exists i :: 0 <= i < |placed| && Answers(w'.sim.working[id], placed[i])
  }

  lemma SignalIsTraced(w: World, model: Model)
    requires Invariant(w) && KeepsContract(model) && DeskOk(w.desk, w.desk.policies)
    requires w.queue != [] && w.queue[0].SignalMade?
    ensures var w' := Next(w, Dispatch, model);
            Traced(w, w', if w'.sim.lastOrderId > w.sim.lastOrderId
                          then [Placement(w'.sim.lastOrderId, w.queue[0].signal, w.now)] else [])
  {
    hide LongOnly, InStep, SignalsFresh, CheckSignal, Answers, Submit;
    var g, w' := w.queue[0].signal, Next(w, Dispatch, model);
    OldestSignalIsNew(w);
    var decision := CheckSignal(w.desk, w.account, g, w.now).1;
    if decision.approved {
      ApprovedSize(w.desk, w.account, g, w.now);
      var sized := Sized(g, decision);
      var q := sized.quantity.ValueOr(0);
      SubmittedOrder(w.sim, sized, q, w.now);
      if Usable(sized) {
        var placement := Placement(w'.sim.lastOrderId, g, w.now);
        AskedIsAnswered(w'.sim.working[w'.sim.lastOrderId], sized, g, q, placement);
        assert Answers(w'.sim.working[w'.sim.lastOrderId], [placement][0]);
      }
    }
  }

  lemma AskedIsAnswered(o: Order, sized: Signal, g: Signal, q: int, p: Placement)
    requires Usable(sized) && sized == g.(quantity := sized.quantity) && Asks(o, sized, q, p.at)
    requires 0 < q <= g.quantity.ValueOr(0) && p.signal == g && o.id == p.id
    ensures Answers(o, p)
  {
  }

  lemma NextIsTraced(w: World, a: Action, model: Model)
    requires Invariant(w) && KeepsContract(model) && DeskOk(w.desk, w.desk.policies) && Enabled(w, a)
    ensures Traced(w, Next(w, a, model),
                   if a == Dispatch && w.queue[0].SignalMade? && Next(w, a, model).sim.lastOrderId > w.sim.lastOrderId
                   then [Placement(Next(w, a, model).sim.lastOrderId, w.queue[0].signal, w.now)] else [])
  {
    hide Deliver, OnMarket, Answers, InStep, LongOnly, SignalsFresh;
    match a
    case Dispatch =>
      if w.queue[0].SignalMade? { SignalIsTraced(w, model); } else { OthersAddNoHold(w, model); }
    case FeedExecution(m) => FeedKeepsTerms(w.sim, m, model);
    case _ =>
  }

  lemma FeedKeepsTerms(s: Simulator, m: MarketEvent, model: Model)
    requires TableOk(s) && KeepsContract(model)
    ensures KeepsTerms(s, OnMarket(s, m, model).0)
  {
    if Reference(m).Some? && Reference(m).value > 0 { SweepKeepsTerms(s, s.working.Keys, m, model); }
  }

  lemma TracesCompose(w: World, w1: World, w': World, first: seq<Placement>, rest: seq<Placement>)
    requires Traced(w, w1, first) && Traced(w1, w', rest)
    ensures Traced(w, w', first + rest)
  {
    hide Answers;
    var all := first + rest;
    forall id | id in w'.sim.working
      ensures || (id in w.sim.working && SameTerms(w.sim.working[id], w'.sim.working[id]))
              || exists i :: 0 <= i < |all| && Answers(w'.sim.working[id], all[i])
    {
      if i :| 0 <= i < |rest| && Answers(w'.sim.working[id], rest[i]) {
        assert all[|first| + i] == rest[i];
      } else if i :| 0 <= i < |first| && Answers(w1.sim.working[id], first[i]) {
        TermsAreAnswered(w1.sim.working[id], w'.sim.working[id], first[i]);
        assert all[i] == first[i];
      }
    }
  }

  lemma TermsAreAnswered(o: Order, o': Order, p: Placement)
    requires SameTerms(o, o') && Answers(o, p)
    ensures Answers(o', p)
  {
  }

  lemma {:induction false} RunIsTraced(w: World, actions: seq<Action>, model: Model)
    requires Invariant(w) && KeepsContract(model) && DeskOk(w.desk, w.desk.policies) && Feasible(w, actions, model)
    ensures Traced(w, After(w, actions, model), Placements(w, actions, model))
    decreases |actions|
  {
    hide LongOnly, InStep, SignalsFresh, Next, Traced, DeskOk;
    if actions == [] {
      NothingIsTraced(w);
    } else {
      var next := Next(w, actions[0], model);
      NextIsTraced(w, actions[0], model);
      NextKeepsInvariant(w, actions[0], model);
      NextKeepsDesk(w, actions[0], model, w.desk.policies);
      PoliciesStay(w.desk, next.desk);
      RunIsTraced(next, actions[1..], model);
      TracesCompose(w, next, After(w, actions, model),
                    if actions[0] == Dispatch && w.queue[0].SignalMade? && next.sim.lastOrderId > w.sim.lastOrderId
                    then [Placement(next.sim.lastOrderId, w.queue[0].signal, w.now)] else [],
                    Placements(next, actions[1..], model));
    }
  }

  lemma PoliciesStay(d: Desk, d': Desk)
    requires DeskOk(d', d.policies)
    ensures DeskOk(d', d'.policies)
  {
  }

  lemma NothingIsTraced(w: World)
    ensures Traced(w, w, [])
  {
  }

  // ----- the signals of a run are those emitted ------------------------------------------

  ghost predicate Emitted(w: World, actions: seq<Action>, g: Signal) {
    SignalMade(g) in w.queue || EmitSignal(g) in actions
  }

  lemma NextQueuesEmitted(w: World, a: Action, model: Model, g: Signal)
    requires TableOk(w.sim) && KeepsContract(model) && Enabled(w, a)
    requires SignalMade(g) in Next(w, a, model).queue
    ensures SignalMade(g) in w.queue || a == EmitSignal(g)
  {
    hide OnMarket, CheckSignal, Submit, ApplyFill;
    match a
    case FeedExecution(m) => FeedEmitsNothing(w.sim, m, model);
    case _ =>
  }

  lemma FeedEmitsNothing(s: Simulator, m: MarketEvent, model: Model)
    requires TableOk(s) && KeepsContract(model)
    ensures forall e :: e in OnMarket(s, m, model).1 ==> !e.SignalMade?
  {
    if Reference(m).Some? && Reference(m).value > 0 { SweepOrigins(s, s.working.Keys, m, model); }
  }

  lemma {:induction false} PlacedWereEmitted(w: World, actions: seq<Action>, model: Model, i: nat)
    requires TableOk(w.sim) && KeepsContract(model) && Feasible(w, actions, model)
    requires i < |Placements(w, actions, model)|
    ensures Emitted(w, actions, Placements(w, actions, model)[i].signal)
    decreases |actions|
  {
    hide Next;
    var next, all := Next(w, actions[0], model), Placements(w, actions, model);
    var rest := Placements(next, actions[1..], model);
    if i >= |all| - |rest| {
      var k := i - (|all| - |rest|);
      assert all[i] == rest[k];
      PlacedWereEmitted(next, actions[1..], model, k);
      if SignalMade(rest[k].signal) in next.queue { NextQueuesEmitted(w, actions[0], model, rest[k].signal); }
    } else {
      assert all[i].signal == w.queue[0].signal;
    }
  }

  /**
   * In every reachable state each open order answers a signal a strategy emitted in the run: the same symbol
   * and side, its type and limit, no more shares, and created when that signal was decided.
   */
  lemma OpenOrdersAnswerSignals(runId: nat, startingCash: int, fees: FeeModel, limits: Limits,
                                policies: seq<Policy>, actions: seq<Action>, model: Model, id: nat)
    requires KeepsContract(model)
    requires Feasible(InitialWorld(runId, startingCash, fees, limits, policies), actions, model)
    requires id in After(InitialWorld(runId, startingCash, fees, limits, policies), actions, model).sim.working
    ensures var w0 := InitialWorld(runId, startingCash, fees, limits, policies);
            var placed := Placements(w0, actions, model);
            exists i :: 0 <= i < |placed| && Answers(After(w0, actions, model).sim.working[id], placed[i])
                        && EmitSignal(placed[i].signal) in actions
  {
    hide Invariant, After, Feasible, Placements, Answers;
    var w0 := InitialWorld(runId, startingCash, fees, limits, policies);
    InitiallyInvariant(runId, startingCash, fees, limits, policies);
    RunIsTraced(w0, actions, model);
    var placed := Placements(w0, actions, model);
    var i :| 0 <= i < |placed| && Answers(After(w0, actions, model).sim.working[id], placed[i]);
    PlacedWereEmitted(w0, actions, model, i);
  }

  /** A limit signal's fill is at its limit or better. */
  predicate KeepsLimit(g: Signal, f: Fill) {
    g.orderType == Some(Limit) ==>
      && g.limitPrice.Some?
      && (if f.quantity > 0 then f.price <= g.limitPrice.value else f.price >= g.limitPrice.value)
  }

  /**
   * So every fill of a backtest answers such a signal: a buy at the bar's price or above, a sell at it or
   * below, within the signal's limit, and at a time after the signal was decided.
   */
  lemma FillsAnswerSignals(runId: nat, startingCash: int, fees: FeeModel, limits: Limits, policies: seq<Policy>,
                           actions: seq<Action>, slip: int -> int, bar: MarketEvent, f: Fill)
    requires fees.Valid() && KeepsContract(NaiveModel(slip, fees))
    requires Feasible(InitialWorld(runId, startingCash, fees, limits, policies), actions, NaiveModel(slip, fees))
    requires var w := After(InitialWorld(runId, startingCash, fees, limits, policies), actions, NaiveModel(slip, fees));
             Execution(f) in OnMarket(w.sim, bar, NaiveModel(slip, fees)).1
    ensures exists g, at ::
              && EmitSignal(g) in actions && f.symbol == g.symbol == bar.symbol && at < f.filledAt == bar.exchangeTime
              && 0 < Abs(f.quantity) <= g.quantity.ValueOr(0)
              && (f.quantity > 0 ==> g.side == BuySignal && BarPrice(bar) <= f.price)
              && (f.quantity < 0 ==> g.side == SellSignal && f.price <= BarPrice(bar))
              && KeepsLimit(g, f)
              && Placement(f.orderId, g, at) in
                 Placements(InitialWorld(runId, startingCash, fees, limits, policies), actions, NaiveModel(slip, fees))
  {
    hide NaiveModel, KeepsContract, Feasible, After, OnMarket, Placements, Due, Fair;
    var model := NaiveModel(slip, fees);
    var w0 := InitialWorld(runId, startingCash, fees, limits, policies);
    var w := After(w0, actions, model);
    var (s', out) := OnMarket(w.sim, bar, model);
    var i :| 0 <= i < |out| && out[i] == Execution(f);
    BarFillsExactlyWhatIsDue(w.sim, bar, slip, fees);
    var order := w.sim.working[f.orderId];
    OpenOrdersAnswerSignals(runId, startingCash, fees, limits, policies, actions, model, f.orderId);
    var placed := Placements(w0, actions, model);
    var k :| 0 <= k < |placed| && Answers(order, placed[k]) && EmitSignal(placed[k].signal) in actions;
    DueFillAnswers(order, placed[k], bar, slip, fees, f);
    TableEntry(w.sim, f.orderId);
    assert placed[k] == Placement(f.orderId, placed[k].signal, placed[k].at);
  }

  lemma TableEntry(s: Simulator, id: nat)
    requires TableOk(s) && id in s.working
    ensures s.working[id].id == id && 0 <= s.working[id].filledQuantity < s.working[id].quantity
  {
  }

  lemma DueFillAnswers(order: Order, p: Placement, bar: MarketEvent, slip: int -> int, fees: FeeModel, f: Fill)
    requires Answers(order, p) && Due(order, bar, slip) && Fair(f, order, bar, slip, fees)
    ensures var g := p.signal;
            && f.orderId == p.id && f.symbol == g.symbol == bar.symbol && p.at < f.filledAt == bar.exchangeTime
            && f.quantity == (if g.side == BuySignal then 1 else -1) * (order.quantity - order.filledQuantity)
            && g.side == (if order.side == Buy then BuySignal else SellSignal)
            && (if order.side == Buy then BarPrice(bar) <= f.price else f.price <= BarPrice(bar))
            && (order.filledQuantity < order.quantity ==> KeepsLimit(g, f))
            && order.quantity <= g.quantity.ValueOr(0)
  {
  }

  // ----- the mark after a fill -----------------------------------------------------------

  ghost predicate MarksByName(w: World) {
    forall s :: s in w.lastMarks ==> w.lastMarks[s].symbol == s
  }

  lemma NextKeepsMarksByName(w: World, a: Action, model: Model)
    requires TableOk(w.sim) && KeepsContract(model) && Enabled(w, a) && MarksByName(w)
    ensures MarksByName(Next(w, a, model))
  {
    hide OnMarket, CheckSignal, Submit, ApplyFill, ApplyOrderUpdate, ApplyMark, ObserveMarket;
  }

  lemma {:induction false} RunKeepsMarksByName(w: World, actions: seq<Action>, model: Model)
    requires TableOk(w.sim) && KeepsContract(model) && Feasible(w, actions, model) && MarksByName(w)
    ensures MarksByName(After(w, actions, model))
    decreases |actions|
  {
    hide Next, MarksByName;
    if actions == [] {
    } else {
      NextKeepsMarksByName(w, actions[0], model);
      RunKeepsMarksByName(Next(w, actions[0], model), actions[1..], model);
    }
  }

  /**
   * In every reachable state: the fill that is delivered leaves its symbol marked at the fill's price, or at
   * the last market price delivered when that is at least as new as the fill.
   */
  lemma NewerMarkWins(runId: nat, startingCash: int, fees: FeeModel, limits: Limits, policies: seq<Policy>,
                      actions: seq<Action>, w: World, model: Model)
    requires KeepsContract(model)
    requires Feasible(InitialWorld(runId, startingCash, fees, limits, policies), actions, model)
    requires w == After(InitialWorld(runId, startingCash, fees, limits, policies), actions, model)
    requires w.queue != [] && w.queue[0].Execution?
    ensures var f, marks := w.queue[0].fill, Next(w, Dispatch, model).account.marks;
            var newer := f.symbol in w.lastMarks && w.lastMarks[f.symbol].exchangeTime >= f.filledAt;
            && f.symbol in marks
            && (!newer ==> marks == w.account.marks[f.symbol := f.price])
            && (newer && f.symbol != "" && w.lastMarks[f.symbol].price.ValueOr(0) > 0 ==>
                  marks == w.account.marks[f.symbol := w.lastMarks[f.symbol].price.value])
  {
    hide After, Feasible, Invariant, Accepts, SettleFill, ApplyMark, MarksByName;
    var w0, f := InitialWorld(runId, startingCash, fees, limits, policies), w.queue[0].fill;
    InitiallyInvariant(runId, startingCash, fees, limits, policies);
    RunKeepsInvariant(w0, actions, model);
    NoMarksYet(w0);
    RunKeepsMarksByName(w0, actions, model);
    QueueHead(w);
    FillMarks(w.account, f);
    if f.symbol in w.lastMarks {
      EventIsNamed(w, f.symbol);
      MarketMarks(SettleFill(w.account, f), w.lastMarks[f.symbol]);
    }
  }

  lemma NoMarksYet(w: World)
    requires w.lastMarks == map[]
    ensures MarksByName(w)
  {
  }

  lemma EventIsNamed(w: World, s: Symbol)
    requires MarksByName(w) && s in w.lastMarks
    ensures w.lastMarks[s].symbol == s
  {
  }

  lemma FillMarks(p: Account, f: Fill)
    requires Accepts(p, Execution(f))
    ensures f.quantity != 0 && ApplyFill(p, f) == Applied(SettleFill(p, f))
    ensures SettleFill(p, f).marks == p.marks[f.symbol := f.price]
  {
    hide NextPosition, ReleaseForFill;
  }

  /**
   * A market event of a new UTC day opens the session at the equity of the moment before: the risk manager
   * sees the event first, and only then is the symbol marked.
   */
  lemma SessionOpensBeforeTheMark(w: World, model: Model)
    requires TableOk(w.sim) && KeepsContract(model) && w.queue != [] && w.queue[0].MarketData?
    requires DayOf(w.queue[0].market) != w.desk.sessionDay
    ensures var e, w' := w.queue[0].market, Next(w, Dispatch, model);
            && w'.desk.sessionStart == Some(w.account.cash + Sum(MarketValues(w.account)))
            && w'.desk.sessionDay == DayOf(e)
            && (Marks(e) && e.price.Some? ==> w'.account.marks == w.account.marks[e.symbol := e.price.value])
            && e.symbol in w'.lastMarks && w'.lastMarks[e.symbol] == e
  {
    hide Sum, MarketValues, MarkPriceOf, ApplyMark;
    MarketMarks(w.account, w.queue[0].market);
  }

  /** So engaging the switch stops orders at once, whatever is queued already. */
  lemma EngagingStopsOrders(w: World, actions: seq<Action>, model: Model)
    requires TableOk(w.sim) && KeepsContract(model) && Feasible(Next(w, SetKill(true), model), actions, model)
    requires SetKill(false) !in actions
    ensures var w' := After(Next(w, SetKill(true), model), actions, model);
            w'.sim.lastOrderId == w.sim.lastOrderId && w'.account.holds.Keys <= w.account.holds.Keys
  {
    KillSwitchStopsOrders(Next(w, SetKill(true), model), actions, model);
  }
}
