/**
 * The assembled engine: portfolio, bridge, risk manager and simulator around one event queue.
 * Each method is one action of `TradingRun`, so every whole-run claim holds of these objects.
 */
module Engine {
  import opened Domain
  import opened Portfolio
  import opened PortfolioManagement
  import opened Execution
  import opened Risk
  import opened TradingRun
  import opened FairFills

  /** Events left to deliver, counting what delivering a signal can add. */
  function Weight(queue: seq<Event>): nat {
    if queue == [] then 0 else (if queue[0].SignalMade? then 3 else 1) + Weight(queue[1..])
  }

  lemma {:induction false} WeightOfConcat(a: seq<Event>, b: seq<Event>)
    ensures Weight(a + b) == Weight(a) + Weight(b)
    decreases |a|
  {
    if a == [] {
      assert a + b == b;
    } else {
      assert (a + b)[1..] == a[1..] + b;
      WeightOfConcat(a[1..], b);
    }
  }

  lemma WeightOfOneMore(queue: seq<Event>, e: Event)
    ensures Weight(queue + [e]) == Weight(queue) + if e.SignalMade? then 3 else 1
  {
    WeightOfConcat(queue, [e]);
    assert [e][1..] == [];
  }

  lemma DeliveryLightens(w: World, model: Model)
    requires Invariant(w) && KeepsContract(model) && w.queue != []
    ensures Weight(Next(w, Dispatch, model).queue) < Weight(w.queue)
  {
    hide Invariant, CheckSignal, ApplyMark, ApplyOrderUpdate, ApplyFill;
    assert TableOk(w.sim) by { QueueHead(w); }
    if w.queue[0].SignalMade? {
      var g, rest := w.queue[0].signal, w.queue[1..];
      var order := Submit(w.sim, Sized(g, CheckSignal(w.desk, w.account, g, w.now).1), w.now).1;
      WeightOfOneMore(rest, RiskDecided);
      WeightOfOneMore(rest + [RiskDecided], OrderUpdate(order));
    } else if w.queue[0].Execution? {
      DeliverFillKeepsQueue(w.(queue := w.queue[1..]), w.queue[0].fill);
    }
  }

  /** The bus delivers until nothing is queued. */
  ghost function Drained(w: World, model: Model): (w': World)
    requires Invariant(w) && KeepsContract(model)
    ensures Invariant(w') && w'.queue == []
    decreases Weight(w.queue)
  {
    if w.queue == [] then w
    else
      NextKeepsInvariant(w, Dispatch, model);
      DeliveryLightens(w, model);
      Drained(Next(w, Dispatch, model), model)
  }

  ghost predicate FreshIds(signals: seq<Signal>, minted: set<nat>) {
    && (forall i :: 0 <= i < |signals| ==> signals[i].id !in minted)
    && (forall i, j :: 0 <= i < j < |signals| ==> signals[i].id != signals[j].id)
  }

  /** The strategies publish their signals, in order. */
  ghost function Emitted(w: World, signals: seq<Signal>, model: Model): (w': World)
    requires Invariant(w) && KeepsContract(model) && FreshIds(signals, w.minted)
    ensures Invariant(w')
    decreases |signals|
  {
    if signals == [] then w
    else
      NextKeepsInvariant(w, EmitSignal(signals[0]), model);
      Emitted(Next(w, EmitSignal(signals[0]), model), signals[1..], model)
  }

  /** Step 2 of a bar: at its time, earlier orders fill at it and their events are applied. */
  ghost function Settled(w: World, bar: MarketEvent, model: Model): (w': World)
    requires Invariant(w) && KeepsContract(model)
    ensures Invariant(w') && w'.queue == []
  {
    NextKeepsInvariant(w, Tick(bar.exchangeTime), model);
    var ticked := Next(w, Tick(bar.exchangeTime), model);
    NextKeepsInvariant(ticked, FeedExecution(bar), model);
    Drained(Next(ticked, FeedExecution(bar), model), model)
  }

  // ----- what a bar does -----------------------------------------------------------------

  predicate NoSignals(queue: seq<Event>) {
    forall e :: e in queue ==> !e.SignalMade?
  }

  lemma OtherDeliveriesKeepTheTable(w: World, model: Model)
    requires TableOk(w.sim) && KeepsContract(model) && w.queue != [] && NoSignals(w.queue)
    ensures var w' := Next(w, Dispatch, model);
            w'.sim == w.sim && w'.queue == w.queue[1..] && w'.now == w.now && NoSignals(w'.queue)
  {
    hide ApplyFill, ApplyOrderUpdate, ApplyMark, ObserveMarket;
  }

  lemma {:induction false} DrainKeepsTheTable(w: World, model: Model)
    requires Invariant(w) && KeepsContract(model) && NoSignals(w.queue)
    ensures Drained(w, model).sim == w.sim && Drained(w, model).now == w.now
    decreases |w.queue|
  {
    hide Invariant, Next, NoSignals;
    if w.queue == [] {
    } else {
      assert TableOk(w.sim) by { QueueHead(w); }
      NextKeepsInvariant(w, Dispatch, model);
      DeliveryLightens(w, model);
      OtherDeliveriesKeepTheTable(w, model);
      DrainKeepsTheTable(Next(w, Dispatch, model), model);
    }
  }

  lemma TablesCoincide(w: World)
    requires Invariant(w) && w.queue == []
    ensures w.account.openOrders.Keys == w.sim.working.Keys && w.account.holds == map[]
    ensures TableOk(w.sim)
  {
  }

  /**
   * Before a bar's own signals are decided, at the bar's time: exactly the orders that were due at it are
   * filled and gone from the portfolio, the others are open as they were, and nothing is queued or held.
   */
  lemma BarSettlesWhatIsDue(w: World, bar: MarketEvent, slip: int -> int, fees: FeeModel)
    requires Invariant(w) && w.queue == [] && fees.Valid() && KeepsContract(NaiveModel(slip, fees))
    ensures var s := Settled(w, bar, NaiveModel(slip, fees));
            && s.now == bar.exchangeTime && s.queue == [] && s.account.holds == map[]
            && (forall id :: id in w.sim.working ==>
                  && (id in s.sim.working <==> !Due(w.sim.working[id], bar, slip))
                  && (id in s.account.openOrders <==> !Due(w.sim.working[id], bar, slip))
                  && (id in s.sim.working ==> s.sim.working[id] == w.sim.working[id]))
            && s.sim.working.Keys <= w.sim.working.Keys
  {
    hide Invariant, NaiveModel, KeepsContract, OnMarket, Due, Fair, Drained;
    var model := NaiveModel(slip, fees);
    TablesCoincide(w);
    NextKeepsInvariant(w, Tick(bar.exchangeTime), model);
    var ticked := Next(w, Tick(bar.exchangeTime), model);
    NextKeepsInvariant(ticked, FeedExecution(bar), model);
    var (sim, out) := OnMarket(w.sim, bar, model);
    BarFillsExactlyWhatIsDue(w.sim, bar, slip, fees);
    FeedHasNoSignals(w.sim, bar, model);
    assert [] + out == out;
    DrainKeepsTheTable(Next(ticked, FeedExecution(bar), model), model);
    TablesCoincide(Settled(w, bar, model));
  }

  lemma FeedHasNoSignals(s: Simulator, bar: MarketEvent, model: Model)
    requires TableOk(s) && KeepsContract(model)
    ensures NoSignals(OnMarket(s, bar, model).1)
  {
    if Reference(bar).Some? && Reference(bar).value > 0 { SweepOrigins(s, s.working.Keys, bar, model); }
  }

  lemma DeliveryDecides(w: World, model: Model)
    requires TableOk(w.sim) && KeepsContract(model) && w.queue != []
    ensures var w' := Next(w, Dispatch, model);
            && w.decided <= w'.decided && w.queue[1..] <= w'.queue
            && (w.queue[0].SignalMade? ==> w.queue[0].signal.id in w'.decided)
  {
    hide ApplyFill, ApplyOrderUpdate, ApplyMark, ObserveMarket, CheckSignal, Submit;
  }

  /** Draining decides every signal that was queued. */
  lemma {:induction false} DrainDecides(w: World, model: Model, i: nat)
    requires Invariant(w) && KeepsContract(model)
    ensures w.decided <= Drained(w, model).decided
    ensures i < |w.queue| && w.queue[i].SignalMade? ==> w.queue[i].signal.id in Drained(w, model).decided
    decreases Weight(w.queue)
  {
    hide Invariant, Next, Weight;
    if w.queue == [] {
    } else {
      assert TableOk(w.sim) by { QueueHead(w); }
      NextKeepsInvariant(w, Dispatch, model);
      DeliveryLightens(w, model);
      DeliveryDecides(w, model);
      var next := Next(w, Dispatch, model);
      if i > 0 && i < |w.queue| { assert next.queue[i - 1] == w.queue[1..][i - 1]; }
      DrainDecides(next, model, if i > 0 then i - 1 else 0);
    }
  }

  lemma {:induction false} EmittedAreQueued(w: World, signals: seq<Signal>, model: Model)
    requires Invariant(w) && KeepsContract(model) && FreshIds(signals, w.minted)
    ensures Emitted(w, signals, model).queue ==
            w.queue + seq(|signals|, i requires 0 <= i < |signals| => SignalMade(signals[i]))
    decreases |signals|
  {
    hide Invariant;
    if signals == [] {
      assert w.queue + [] == w.queue;
    } else {
      NextKeepsInvariant(w, EmitSignal(signals[0]), model);
      var next := Next(w, EmitSignal(signals[0]), model);
      EmittedAreQueued(next, signals[1..], model);
      var made := seq(|signals|, i requires 0 <= i < |signals| => SignalMade(signals[i]));
      assert made == [SignalMade(signals[0])]
                     + seq(|signals[1..]|, i requires 0 <= i < |signals[1..]| => SignalMade(signals[1..][i]));
    }
  }

  /** By the end of a bar every signal its strategies emitted has been decided. */
  lemma BarDecidesItsSignals(w: World, signals: seq<Signal>, model: Model, g: Signal)
    requires Invariant(w) && KeepsContract(model) && FreshIds(signals, w.minted) && g in signals
    ensures g.id in Drained(Emitted(w, signals, model), model).decided
  {
    hide Invariant, Drained, Emitted, FreshIds;
    EmittedAreQueued(w, signals, model);
    var i :| 0 <= i < |signals| && signals[i] == g;
    DrainDecides(Emitted(w, signals, model), model, |w.queue| + i);
  }

  class TradingEngine {
    const portfolio: PortfolioManager
    const simulator: ExecutionSimulator
    const risk: RiskManager
    var queue: seq<Event>
    var now: int
    var lastMarks: map<Symbol, MarketEvent>
    var fillsApplied: nat
    var fillsIgnored: nat
    var errors: nat
    ghost var minted: set<nat>
    ghost var decided: set<nat>

    ghost function Value(): World
      reads this, portfolio, simulator, risk
    {
      World(portfolio.State(), simulator.Value(), risk.Value(), queue, now, minted, decided, lastMarks,
            fillsApplied, fillsIgnored, errors)
    }

    ghost predicate Valid()
      reads this, portfolio, simulator, risk
    {
      && risk.portfolio == portfolio
      && simulator.Valid() && risk.Valid()
      && Invariant(Value())
    }

    constructor (runId: nat, startingCash: int, fees: FeeModel, limits: Limits, policies: seq<Policy>, model: Model)
      requires KeepsContract(model)
      ensures Valid() && fresh(portfolio) && fresh(simulator) && fresh(risk)
      ensures Value() == InitialWorld(runId, startingCash, fees, limits, policies) && simulator.model == model
    {
      var manager := new PortfolioManager(runId, startingCash, fees);
      portfolio := manager;
      simulator := new ExecutionSimulator(runId, model);
      risk := new RiskManager(limits, manager, policies);
      queue, now, lastMarks := [], 0, map[];
      fillsApplied, fillsIgnored, errors := 0, 0, 0;
      minted, decided := {}, {};
      InitiallyInvariant(runId, startingCash, fees, limits, policies);
    }

    /** A strategy's signal enters the queue. */
    method Emit(g: Signal)
      requires Valid() && g.id !in minted
      modifies this`queue, this`minted
      ensures Valid() && minted == old(minted) + {g.id}
      ensures Value() == Next(old(Value()), EmitSignal(g), simulator.model)
    {
      NextKeepsInvariant(Value(), EmitSignal(g), simulator.model);
      queue := queue + [SignalMade(g)];
      minted := minted + {g.id};
    }

    /** A bar's signals, in order. */
    method EmitAll(signals: seq<Signal>)
      requires Valid() && FreshIds(signals, minted)
      modifies this`queue, this`minted
      ensures Valid() && Value() == Emitted(old(Value()), signals, simulator.model)
    {
      hide Invariant, Next;
      for i := 0 to |signals|
        invariant Valid() && FreshIds(signals[i..], minted)
        invariant Emitted(Value(), signals[i..], simulator.model) == Emitted(old(Value()), signals, simulator.model)
      {
        assert signals[i..][0] == signals[i] && signals[i..][1..] == signals[i + 1..];
        Emit(signals[i]);
      }
    }

    method Publish(m: MarketEvent)
      requires Valid()
      modifies this`queue
      ensures Valid() && minted == old(minted)
      ensures Value() == Next(old(Value()), PublishMarket(m), simulator.model)
    {
      NextKeepsInvariant(Value(), PublishMarket(m), simulator.model);
      queue := queue + [MarketData(m)];
    }

    method FeedSimulator(m: MarketEvent)
      requires Valid()
      modifies this`queue, simulator
      ensures Valid() && minted == old(minted)
      ensures Value() == Next(old(Value()), FeedExecution(m), simulator.model)
    {
      NextKeepsInvariant(Value(), FeedExecution(m), simulator.model);
      var out := simulator.OnMarketEvent(m);
      queue := queue + out;
    }

    method SetClock(time: int)
      requires Valid()
      modifies this`now
      ensures Valid() && minted == old(minted)
      ensures Value() == Next(old(Value()), Tick(time), simulator.model)
    {
      NextKeepsInvariant(Value(), Tick(time), simulator.model);
      now := time;
    }

    /** The dispatcher's turn: the oldest event goes to its handlers. */
    method DispatchNext()
      requires Valid() && queue != []
      modifies this, portfolio, simulator, risk
      ensures Valid() && Value() == Next(old(Value()), Dispatch, simulator.model)
      ensures minted == old(minted) && Weight(queue) < Weight(old(queue))
    {
      hide LongOnly, InStep, SignalsFresh, CheckSignal, Submit, ApplyFill, ObserveMarket, ApplyMark, ApplyOrderUpdate;
      ghost var before := Value();
      NextKeepsInvariant(before, Dispatch, simulator.model);
      var e := queue[0];
      queue := queue[1..];
      match e {
        case MarketData(m) =>
          risk.OnMarketEvent(m, now);
          portfolio.Mark(m);
          lastMarks := lastMarks[m.symbol := m];
        case SignalMade(g) =>
          HandleSignal(g);
        case OrderUpdate(o) =>
          var _ := portfolio.ApplyOrder(o);
        case Execution(f) =>
          HandleFill(f);
        case RiskDecided =>
      }
    }

    method HandleSignal(g: Signal)
      requires risk.portfolio == portfolio && simulator.Valid() && risk.Valid()
      modifies this`queue, this`decided, portfolio, simulator, risk
      ensures risk.portfolio == portfolio && simulator.Valid() && risk.Valid()
      ensures Value() == DeliverSignal(old(Value()), g)
      ensures Weight(queue) <= Weight(old(queue)) + 2
    {
      hide Weight, CheckSignal, Submit, TableOk, KeepsContract, PositivePrices;
      var decision := risk.Check(g, now);
      WeightOfOneMore(queue, RiskDecided);
      queue := queue + [RiskDecided];
      decided := decided + {g.id};
      if decision.approved {
        var order := simulator.SubmitSignal(Sized(g, decision), now);
        WeightOfOneMore(queue, OrderUpdate(order));
        queue := queue + [OrderUpdate(order)];
      }
    }

    /** The bridge's Fill handler. */
    method HandleFill(f: Fill)
      modifies this`fillsApplied, this`fillsIgnored, this`errors, portfolio
      ensures Value() == DeliverFill(old(Value()), f)
    {
      var result := portfolio.Apply(f);
      match result {
        case Ok(applied) =>
          if applied {
            fillsApplied := fillsApplied + 1;
            if f.symbol in lastMarks && lastMarks[f.symbol].exchangeTime >= f.filledAt {
              portfolio.Mark(lastMarks[f.symbol]);
            }
          } else {
            fillsIgnored := fillsIgnored + 1;
          }
        case Err(_) =>
          errors := errors + 1;
      }
    }

    /** Delivers until nothing is queued; then nothing is held and the order tables coincide. */
    method DrainBus()
      requires Valid()
      modifies this, portfolio, simulator, risk
      ensures Valid() && queue == [] && minted == old(minted)
      ensures Value() == Drained(old(Value()), simulator.model)
      ensures portfolio.holds == map[] && portfolio.openOrders.Keys == simulator.working.Keys
      ensures errors == 0 && fillsIgnored == 0
    {
      hide Next, DeliverSignal;
      while queue != []
        invariant Valid() && minted == old(minted)
        invariant Drained(Value(), simulator.model) == Drained(old(Value()), simulator.model)
        decreases Weight(queue)
      {
        DispatchNext();
      }
    }

    /**
     * One bar of a backtest, in this order: the clock, the fills of earlier orders and their settlement,
     * the bar's close, the signals decided on it, and all their consequences.
     */
    method ReplayBar(bar: MarketEvent, signals: seq<Signal>)
      requires Valid() && FreshIds(signals, minted)
      modifies this, portfolio, simulator, risk
      ensures Valid() && queue == [] && errors == 0
      ensures portfolio.holds == map[]
      ensures var model := simulator.model;
              var settled := Settled(old(Value()), bar, model);
              && settled.minted == old(minted)
              && var seen := Next(settled, PublishMarket(bar), model);
                 && Invariant(seen)
                 && Value() == Drained(Emitted(seen, signals, model), model)
    {
      hide Invariant, Next, Drained, Emitted, FreshIds;
      SetClock(bar.exchangeTime);
      FeedSimulator(bar);
      DrainBus();
      Publish(bar);
      EmitAll(signals);
      DrainBus();
    }
  }
}
