/** Risk policies and the risk manager's check-and-hold. */
module Risk {
  import opened Domain
  import opened Decimals
  import opened MapSums
  import opened Portfolio
  import opened PortfolioManagement

  datatype Policy = MaxOrderQuantity | MaxPositionNotional | MaxGrossExposure | MaxOpenOrders | DailyLoss

  const STARTER_POLICIES: seq<Policy> :=
    [MaxOrderQuantity, MaxPositionNotional, MaxGrossExposure, MaxOpenOrders, DailyLoss]

  datatype Limits = Limits(maxOrderQuantity: int, maxPositionNotional: int, maxGrossExposure: int,
                           maxOpenOrders: nat, maxDailyLoss: int)

  datatype Context = Context(limits: Limits, prices: map<Symbol, int>, openOrders: nat, pnlToday: int)

  datatype Verdict = Allow | Deny | Resize(limit: int)

  function Requested(g: Signal): int {
    g.quantity.ValueOr(0)
  }

  function HeldIn(s: Snapshot, symbol: Symbol): int {
    if symbol in s.positions then s.positions[symbol].position.quantity else 0
  }

  function Evaluate(policy: Policy, g: Signal, s: Snapshot, c: Context): Verdict {
    match policy
    case MaxOrderQuantity =>
      if Requested(g) <= c.limits.maxOrderQuantity then Allow
      else if c.limits.maxOrderQuantity <= 0 then Deny
      else Resize(c.limits.maxOrderQuantity)
    case MaxPositionNotional =>
      if g.side != BuySignal then Allow
      else if g.symbol !in c.prices then Deny
      else if c.prices[g.symbol] * (HeldIn(s, g.symbol) + Requested(g)) > c.limits.maxPositionNotional then Deny
      else Allow
    case MaxGrossExposure =>
      if g.side != BuySignal then Allow
      else if g.symbol !in c.prices then Deny
      else if s.grossExposure + c.prices[g.symbol] * Requested(g) > c.limits.maxGrossExposure then Deny
      else Allow
    case MaxOpenOrders =>
      if c.openOrders >= c.limits.maxOpenOrders then Deny else Allow
    case DailyLoss =>
      if g.side == BuySignal && -c.pnlToday >= c.limits.maxDailyLoss then Deny else Allow
  }

  /** The policy loop: the quantity left after every policy has passed, or None at the first denial. */
  function Screen(policies: seq<Policy>, g: Signal, s: Snapshot, c: Context): Option<Signal>
    decreases |policies|
  {
    if policies == [] then Some(g)
    else
      match Evaluate(policies[0], g, s, c)
      case Deny => None
      case Allow => Screen(policies[1..], g, s, c)
      case Resize(limit) =>
        Screen(policies[1..], if limit < Requested(g) then g.(quantity := Some(limit)) else g, s, c)
  }

  /** What each policy is for, at a given order size. */
  predicate Meets(policy: Policy, g: Signal, quantity: int, s: Snapshot, c: Context) {
    match policy
    case MaxOrderQuantity => quantity <= c.limits.maxOrderQuantity
    case MaxPositionNotional => g.side == BuySignal ==>
      && g.symbol in c.prices
      && c.prices[g.symbol] * (HeldIn(s, g.symbol) + quantity) <= c.limits.maxPositionNotional
    case MaxGrossExposure => g.side == BuySignal ==>
      && g.symbol in c.prices
      && s.grossExposure + c.prices[g.symbol] * quantity <= c.limits.maxGrossExposure
    case MaxOpenOrders => c.openOrders < c.limits.maxOpenOrders
    case DailyLoss => g.side == BuySignal ==> -c.pnlToday < c.limits.maxDailyLoss
  }

  ghost predicate PositivePrices(prices: map<Symbol, int>) {
    forall s :: s in prices ==> prices[s] > 0
  }

  lemma SmallerAlsoMeets(policy: Policy, g: Signal, more: int, less: int, s: Snapshot, c: Context)
    requires less <= more && Meets(policy, g, more, s, c) && PositivePrices(c.prices)
    ensures Meets(policy, g, less, s, c)
  {
    if g.side == BuySignal && g.symbol in c.prices {
      var price := c.prices[g.symbol];
      assert price * (more - less) >= 0;
      assert price * (HeldIn(s, g.symbol) + more) == price * (HeldIn(s, g.symbol) + less) + price * (more - less);
      assert price * more == price * less + price * (more - less);
    }
  }

  /** A signal that passes meets every listed policy at its final size, whatever the order of the list. */
  lemma {:induction false} PassedMeetsEveryLimit(policies: seq<Policy>, g: Signal, s: Snapshot, c: Context)
    requires PositivePrices(c.prices) && Screen(policies, g, s, c).Some?
    ensures var passed := Screen(policies, g, s, c).value;
            && passed == g.(quantity := passed.quantity)
            && Requested(passed) <= Requested(g)
            && (Requested(passed) != Requested(g) ==> 0 < Requested(passed) == c.limits.maxOrderQuantity)
            && forall policy :: policy in policies ==> Meets(policy, g, Requested(passed), s, c)
    decreases |policies|
  {
    if policies == [] {
    } else {
      var verdict := Evaluate(policies[0], g, s, c);
      var next := if verdict.Resize? && verdict.limit < Requested(g) then g.(quantity := Some(verdict.limit)) else g;
      PassedMeetsEveryLimit(policies[1..], next, s, c);
      var passed := Screen(policies, g, s, c).value;
      assert Meets(policies[0], g, Requested(next), s, c);
      SmallerAlsoMeets(policies[0], g, Requested(next), Requested(passed), s, c);
      forall policy | policy in policies
        ensures Meets(policy, g, Requested(passed), s, c)
      {
        if policy != policies[0] {
          assert policy in policies[1..];
          assert Meets(policy, next, Requested(passed), s, c);
        }
      }
    }
  }

  /** All policies but the first of the starter list only refuse. */
  lemma {:induction false} RefusedOrKept(policies: seq<Policy>, g: Signal, s: Snapshot, c: Context)
    requires MaxOrderQuantity !in policies
    ensures Screen(policies, g, s, c) ==
            if forall policy :: policy in policies ==> Evaluate(policy, g, s, c) == Allow then Some(g) else None
    decreases |policies|
  {
    if policies == [] {
    } else {
      RefusedOrKept(policies[1..], g, s, c);
      assert forall policy :: policy in policies <==> policy == policies[0] || policy in policies[1..];
    }
  }

  lemma Listed(policy: Policy)
    ensures policy == MaxOrderQuantity <==> policy !in STARTER_POLICIES[1..]
  {
    assert STARTER_POLICIES[1..] == [MaxPositionNotional, MaxGrossExposure, MaxOpenOrders, DailyLoss];
  }

  lemma AllowsWhatMeets(policy: Policy, g: Signal, next: Signal, s: Snapshot, c: Context)
    requires next == g.(quantity := next.quantity)
    requires policy == MaxOrderQuantity ==> Requested(next) <= c.limits.maxOrderQuantity
    ensures policy != MaxOrderQuantity ==>
              (Evaluate(policy, next, s, c) == Allow <==> Meets(policy, g, Requested(next), s, c))
    ensures policy == MaxOrderQuantity ==> Meets(policy, g, Requested(next), s, c)
  {
  }

  /** The starter list refuses exactly when the capped order would break one of the other limits. */
  lemma StarterPoliciesAreExact(g: Signal, s: Snapshot, c: Context)
    requires PositivePrices(c.prices)
    ensures var capped := Min(Requested(g), c.limits.maxOrderQuantity);
            Screen(STARTER_POLICIES, g, s, c).Some? <==>
              && (Requested(g) <= c.limits.maxOrderQuantity || 0 < c.limits.maxOrderQuantity)
              && forall policy: Policy :: Meets(policy, g, capped, s, c)
    ensures Screen(STARTER_POLICIES, g, s, c).Some? ==>
              Requested(Screen(STARTER_POLICIES, g, s, c).value) == Min(Requested(g), c.limits.maxOrderQuantity)
  {
    hide Meets;
    var capped := Min(Requested(g), c.limits.maxOrderQuantity);
    var next := if Requested(g) <= c.limits.maxOrderQuantity then g
                else g.(quantity := Some(c.limits.maxOrderQuantity));
    assert Requested(next) == capped;
    var rest := STARTER_POLICIES[1..];
    RefusedOrKept(rest, next, s, c);
    forall policy: Policy
      ensures policy == MaxOrderQuantity || policy in rest
      ensures policy in rest ==> (Evaluate(policy, next, s, c) == Allow <==> Meets(policy, g, capped, s, c))
      ensures policy == MaxOrderQuantity ==> Meets(policy, g, capped, s, c)
    {
      Listed(policy);
      AllowsWhatMeets(policy, g, next, s, c);
    }
  }

  // ----- the manager ---------------------------------------------------------------------

  datatype Decision = Decision(approved: bool, adjusted: Option<int>)

  const DENIED := Decision(false, None)

  datatype Desk = Desk(limits: Limits, policies: seq<Policy>, prices: map<Symbol, int>,
                       sessionDay: int, sessionStart: Option<int>, killed: bool)

  ghost function ContextOf(d: Desk, p: Account): Context {
    Context(d.limits, d.prices, |p.openOrders|, TotalEquity(p) - d.sessionStart.ValueOr(TotalEquity(p)))
  }

  function OrderSideOf(g: Signal): OrderSide {
    if g.side == SellSignal then Sell else Buy
  }

  /** Kill switch, then the policies, then the atomic hold; the portfolio moves only when approved. */
  ghost function CheckSignal(d: Desk, p: Account, g: Signal, now: int): (Account, Decision) {
    if d.killed then (p, DENIED)
    else
      var screened := Screen(d.policies, g, SnapshotOf(p, now), ContextOf(d, p));
      if screened.None? then (p, DENIED)
      else
        var quantity := Requested(screened.value);
        var (after, hold) := HoldForSignal(p, g.id, g.symbol, OrderSideOf(g), quantity, g.limitPrice);
        if !hold.granted then (p, DENIED)
        else (after, Decision(true, if quantity != Requested(g) then Some(quantity) else None))
  }

  /** The signal handed to the simulator after approval. */
  function Sized(g: Signal, decision: Decision): Signal {
    if decision.adjusted.Some? then g.(quantity := decision.adjusted) else g
  }

  const NANOS_PER_DAY := 86_400_000_000_000

  ghost function ObserveMarket(d: Desk, p: Account, e: MarketEvent): Desk {
    var price := if e.price.Some? then e.price else e.open;
    var priced := if price.Some? && price.value > 0 then d.(prices := d.prices[e.symbol := price.value]) else d;
    var day := e.exchangeTime / NANOS_PER_DAY;
    if day != d.sessionDay then priced.(sessionDay := day, sessionStart := Some(TotalEquity(p))) else priced
  }

  lemma RefusalChangesNothing(p: Account, signal: nat, symbol: Symbol, side: OrderSide, quantity: int,
                              limit: Option<int>)
    ensures var (after, hold) := HoldForSignal(p, signal, symbol, side, quantity, limit);
            !hold.granted ==> after == p
  {
    hide BuyCost, BuyingPower, CommittedToSell;
  }

  lemma SnapshotFacts(p: Account, now: int)
    ensures SnapshotOf(p, now).totalEquity == TotalEquity(p) && SnapshotOf(p, now).pendingOrders == p.openOrders
  {
  }

  datatype Stats = Stats(evaluated: nat, approved: nat, resized: nat, rejected: nat)

  /** How many decisions there were, by outcome. */
  function Tally(decisions: seq<(Signal, Decision)>): Stats {
    if decisions == [] then Stats(0, 0, 0, 0)
    else
      var before, decision := Tally(decisions[..|decisions| - 1]), decisions[|decisions| - 1].1;
      Stats(before.evaluated + 1,
            before.approved + (if decision.approved then 1 else 0),
            before.resized + (if decision.approved && decision.adjusted.Some? then 1 else 0),
            before.rejected + (if decision.approved then 0 else 1))
  }

  lemma {:induction false} TallyOneMore(decisions: seq<(Signal, Decision)>, g: Signal, decision: Decision)
    ensures var before, after := Tally(decisions), Tally(decisions + [(g, decision)]);
            && after.evaluated == before.evaluated + 1
            && after.approved == before.approved + (if decision.approved then 1 else 0)
            && after.resized == before.resized + (if decision.approved && decision.adjusted.Some? then 1 else 0)
            && after.rejected == before.rejected + (if decision.approved then 0 else 1)
  {
    assert (decisions + [(g, decision)])[..|decisions|] == decisions;
  }

  class RiskManager {
    const limits: Limits
    const portfolio: PortfolioManager
    var policies: seq<Policy>
    var prices: map<Symbol, int>
    var sessionDay: int
    var sessionStart: Option<int>
    var killed: bool
    var decisions: seq<(Signal, Decision)>
    var stats: Stats

    ghost function Value(): Desk
      reads this
    {
      Desk(limits, policies, prices, sessionDay, sessionStart, killed)
    }

    ghost predicate Valid()
      reads this
    {
      && PositivePrices(prices)
      && stats == Tally(decisions)
    }

    constructor (limits: Limits, portfolio: PortfolioManager, policies: seq<Policy>)
      ensures Valid() && this.portfolio == portfolio
      ensures Value() == Desk(limits, policies, map[], -1, None, false)
    {
      this.limits, this.portfolio, this.policies := limits, portfolio, policies;
      prices, sessionDay, sessionStart, killed := map[], -1, None, false;
      decisions, stats := [], Stats(0, 0, 0, 0);
    }

    method SetKillSwitch(engaged: bool)
      requires Valid()
      modifies this`killed
      ensures Valid() && Value() == old(Value()).(killed := engaged)
    {
      killed := engaged;
    }

    method AddPolicy(policy: Policy)
      requires Valid()
      modifies this`policies
      ensures Valid() && Value() == old(Value()).(policies := old(policies) + [policy])
    {
      policies := policies + [policy];
    }

    method OnMarketEvent(e: MarketEvent, now: int)
      requires Valid()
      modifies this`prices, this`sessionDay, this`sessionStart
      ensures Valid() && Value() == ObserveMarket(old(Value()), portfolio.State(), e)
    {
      hide SnapshotOf, TotalEquity;
      var price := if e.price.Some? then e.price else e.open;
      if price.Some? && price.value > 0 {
        prices := prices[e.symbol := price.value];
      }
      var day := e.exchangeTime / NANOS_PER_DAY;
      if day != sessionDay {
        sessionDay := day;
        var snapshot := portfolio.TakeSnapshot(now);
        SnapshotFacts(portfolio.State(), now);
        sessionStart := Some(snapshot.totalEquity);
      }
    }

    method Check(g: Signal, now: int) returns (decision: Decision)
      requires Valid()
      modifies this`decisions, this`stats, portfolio`holds
      ensures Valid() && Value() == old(Value())
      ensures (portfolio.State(), decision) == CheckSignal(Value(), old(portfolio.State()), g, now)
      ensures decisions == old(decisions) + [(g, decision)] && stats == Tally(decisions)
    {
      hide SnapshotOf, TotalEquity, Screen, HoldForSignal;
      var snapshot := portfolio.TakeSnapshot(now);
      SnapshotFacts(portfolio.State(), now);
      var context := Context(limits, prices, |snapshot.pendingOrders|,
                             snapshot.totalEquity - sessionStart.ValueOr(snapshot.totalEquity));
      decision := DENIED;
      if !killed {
        var screened := RunPolicies(g, snapshot, context);
        if screened.Some? {
          var quantity := Requested(screened.value);
          RefusalChangesNothing(portfolio.State(), g.id, g.symbol, OrderSideOf(g), quantity, g.limitPrice);
          var hold := portfolio.Reserve(g.id, g.symbol, OrderSideOf(g), quantity, g.limitPrice);
          if hold.granted {
            decision := Decision(true, if quantity != Requested(g) then Some(quantity) else None);
          }
        }
      }
      Record(g, decision);
    }

    /** The policy loop: the first denial ends it, a smaller limit shrinks the signal for the policies after. */
    method RunPolicies(g: Signal, snapshot: Snapshot, context: Context) returns (screened: Option<Signal>)
      ensures screened == Screen(policies, g, snapshot, context)
    {
      hide Evaluate;
      var working := g;
      assert policies[0..] == policies;
      for i := 0 to |policies|
        invariant Screen(policies, g, snapshot, context) == Screen(policies[i..], working, snapshot, context)
      {
        assert policies[i..][0] == policies[i] && policies[i..][1..] == policies[i + 1..];
        var verdict := Evaluate(policies[i], working, snapshot, context);
        if verdict.Deny? { return None; }
        if verdict.Resize? && verdict.limit < Requested(working) {
          working := working.(quantity := Some(verdict.limit));
        }
      }
      assert policies[|policies|..] == [];
      screened := Some(working);
    }

    method Record(g: Signal, decision: Decision)
      requires Valid()
      modifies this`decisions, this`stats
      ensures Valid() && decisions == old(decisions) + [(g, decision)]
    {
      hide Tally;
      stats := stats.(evaluated := stats.evaluated + 1);
      if decision.approved {
        stats := stats.(approved := stats.approved + 1);
        if decision.adjusted.Some? { stats := stats.(resized := stats.resized + 1); }
      } else {
        stats := stats.(rejected := stats.rejected + 1);
      }
      TallyOneMore(decisions, g, decision);
      decisions := decisions + [(g, decision)];
    }
  }
}
