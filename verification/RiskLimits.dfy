/** When the risk manager approves a signal, in the terms of the account and of the day's market events. */
module RiskLimits {
  import opened Domain
  import opened Decimals
  import opened MapSums
  import opened Portfolio
  import opened Accounting
  import opened Grants
  import opened Risk

  /** What has been lost since the session began; nothing before the first market event. */
  ghost function LostToday(d: Desk, p: Account): int {
    if d.sessionStart.Some? then d.sessionStart.value - (p.cash + Sum(MarketValues(p))) else 0
  }

  /** The position in the symbol, q shares larger and at the reference price, is within its limit. */
  ghost predicate KeepsNotional(d: Desk, p: Account, g: Signal, q: int)
    requires g.symbol in d.prices
  {
    d.prices[g.symbol] * (Held(p, g.symbol) + q) <= d.limits.maxPositionNotional
  }

  /** Everything held at its mark, and q shares at the reference price, are within the limit. */
  ghost predicate KeepsExposure(d: Desk, p: Account, g: Signal, q: int)
    requires g.symbol in d.prices
  {
    Sum(GrossValues(p)) + d.prices[g.symbol] * q <= d.limits.maxGrossExposure
  }

  /** An order of q shares keeps every limit of the starter policies; sells are limited in number and size only. */
  ghost predicate WithinLimits(d: Desk, p: Account, g: Signal, q: int) {
    && q <= d.limits.maxOrderQuantity
    && |p.openOrders| < d.limits.maxOpenOrders
    && (g.side == BuySignal ==>
          g.symbol in d.prices && KeepsNotional(d, p, g, q) && KeepsExposure(d, p, g, q)
          && LostToday(d, p) < d.limits.maxDailyLoss)
  }

  /** The account can take it: shares held for a sell, unreserved cash for anything else. */
  ghost predicate Affordable(p: Account, g: Signal, q: int) {
    if g.side == SellSignal then
      q + Sum(SellHolds(p.holds, g.symbol)) + Sum(SellOrders(p.openOrders, g.symbol)) <= Held(p, g.symbol)
    else
      (g.limitPrice.Some? || g.symbol in p.marks) && BuyCost(p, g.symbol, q, g.limitPrice).value <= Unreserved(p)
  }

  lemma SizePoliciesMeet(d: Desk, p: Account, g: Signal, q: int, now: int)
    ensures var s, c := SnapshotOf(p, now), ContextOf(d, p);
            && (Meets(MaxOrderQuantity, g, q, s, c) <==> q <= d.limits.maxOrderQuantity)
            && (Meets(MaxOpenOrders, g, q, s, c) <==> |p.openOrders| < d.limits.maxOpenOrders)
            && (Meets(DailyLoss, g, q, s, c) <==> g.side != BuySignal || LostToday(d, p) < d.limits.maxDailyLoss)
  {
    hide MarketValues, GrossValues, ValuedPositions, BuyingPower, ReservedTotal, HeldIn;
  }

  lemma NotionalPolicyMeets(d: Desk, p: Account, g: Signal, q: int, now: int)
    ensures Meets(MaxPositionNotional, g, q, SnapshotOf(p, now), ContextOf(d, p)) <==>
            g.side != BuySignal || (g.symbol in d.prices && KeepsNotional(d, p, g, q))
  {
    hide MarketValues, GrossValues, BuyingPower, ReservedTotal, TotalEquity, HeldIn, Held;
    SnapshotHolds(p, g.symbol, now);
  }

  lemma SnapshotHolds(p: Account, symbol: Symbol, now: int)
    ensures HeldIn(SnapshotOf(p, now), symbol) == Held(p, symbol)
  {
  }

  lemma ExposurePolicyMeets(d: Desk, p: Account, g: Signal, q: int, now: int)
    ensures Meets(MaxGrossExposure, g, q, SnapshotOf(p, now), ContextOf(d, p)) <==>
            g.side != BuySignal || (g.symbol in d.prices && KeepsExposure(d, p, g, q))
  {
    hide MarketValues, ValuedPositions, GrossValues, BuyingPower, ReservedTotal, TotalEquity, HeldIn;
  }

  lemma LimitsAreThePolicies(d: Desk, p: Account, g: Signal, q: int, now: int)
    ensures WithinLimits(d, p, g, q) <==>
            forall policy: Policy :: Meets(policy, g, q, SnapshotOf(p, now), ContextOf(d, p))
  {
    hide Meets, SnapshotOf, ContextOf, GrossValues, Held, LostToday, KeepsNotional, KeepsExposure;
    SizePoliciesMeet(d, p, g, q, now);
    NotionalPolicyMeets(d, p, g, q, now);
    ExposurePolicyMeets(d, p, g, q, now);
    if WithinLimits(d, p, g, q) {
      forall policy: Policy ensures Meets(policy, g, q, SnapshotOf(p, now), ContextOf(d, p)) {
        match policy
        case MaxOrderQuantity =>
        case MaxPositionNotional =>
        case MaxGrossExposure =>
        case MaxOpenOrders =>
        case DailyLoss =>
      }
    }
  }

  lemma GrantsAreAffordable(p: Account, g: Signal, q: int)
    requires g.id !in p.holds
    ensures var (after, r) := HoldForSignal(p, g.id, g.symbol, OrderSideOf(g), q, g.limitPrice);
            && (r.granted <==> g.id != 0 && q > 0 && Affordable(p, g, q))
            && (r.granted ==> after == p.(holds := p.holds[g.id :=
                  Hold(g.symbol, if g.side == SellSignal then Sell else Buy, q, r.amount)]))
            && (!r.granted ==> after == p)
  {
    hide HoldForSignal, BuyCost, Unreserved, SellHolds, SellOrders, Sum, Held;
    if g.id == 0 || q <= 0 {
      RepeatedOrEmptyRequest(p, g.id, g.symbol, OrderSideOf(g), q, g.limitPrice);
    } else if g.side == SellSignal {
      SellIsGrantedExactly(p, g.id, g.symbol, q, g.limitPrice);
    } else {
      BuyIsGrantedExactly(p, g.id, g.symbol, q, g.limitPrice);
    }
  }

  /** The size that is checked: what was asked for, and at most the largest order allowed. */
  function Capped(d: Desk, g: Signal): int {
    Min(g.quantity.ValueOr(0), d.limits.maxOrderQuantity)
  }

  /** With the switch off, in some size, within the limits, and affordable: then and only then. */
  ghost predicate Approvable(d: Desk, p: Account, g: Signal) {
    var q := Capped(d, g);
    !d.killed && g.id != 0 && q > 0 && WithinLimits(d, p, g, q) && Affordable(p, g, q)
  }

  /**
   * With the starter policies a new signal is approved exactly when it is approvable, at its capped size;
   * the account then has one more hold, and is unchanged otherwise.
   */
  lemma SignalIsApprovedExactly(d: Desk, p: Account, g: Signal, now: int)
    requires d.policies == STARTER_POLICIES && PositivePrices(d.prices) && g.id !in p.holds
    ensures var (after, decision) := CheckSignal(d, p, g, now);
            var q := Capped(d, g);
            && (decision.approved <==> Approvable(d, p, g))
            && (decision.approved ==>
                  && decision.adjusted == (if q == g.quantity.ValueOr(0) then None else Some(q))
                  && g.id in after.holds
                  && after == p.(holds := p.holds[g.id := Hold(g.symbol,
                       if g.side == SellSignal then Sell else Buy, q, after.holds[g.id].amount)]))
            && (!decision.approved ==> after == p && decision.adjusted == None)
  {
    hide Screen, Meets, HoldForSignal, WithinLimits, Affordable;
    var s, c, q := SnapshotOf(p, now), ContextOf(d, p), Capped(d, g);
    StarterPoliciesAreExact(g, s, c);
    LimitsAreThePolicies(d, p, g, q, now);
    GrantsAreAffordable(p, g, q);
    if Screen(STARTER_POLICIES, g, s, c).None? && q > 0 {
      assert q <= d.limits.maxOrderQuantity;
    }
  }

  /** Whatever the policies: nothing is approved while the kill switch is engaged. */
  lemma KilledDeskApprovesNothing(d: Desk, p: Account, g: Signal, now: int)
    requires d.killed
    ensures CheckSignal(d, p, g, now) == (p, DENIED)
  {
  }

  // ----- what the desk has seen of the market --------------------------------------------

  /** The desk after the market events it was shown, each with the account as it was then. */
  ghost function Watched(d: Desk, seen: seq<(Account, MarketEvent)>): Desk {
    if seen == [] then d
    else
      var (p, e) := seen[|seen| - 1];
      ObserveMarket(Watched(d, seen[..|seen| - 1]), p, e)
  }

  function DayOf(e: MarketEvent): int {
    e.exchangeTime / (24 * 60 * 60 * 1_000_000_000)
  }

  /** Event k is the first of the last stretch of events on one UTC day. */
  predicate OpensTheDay(seen: seq<(Account, MarketEvent)>, k: nat)
    requires k < |seen|
  {
    && (forall i :: k <= i < |seen| ==> DayOf(seen[i].1) == DayOf(seen[|seen| - 1].1))
    && (k > 0 ==> DayOf(seen[k - 1].1) != DayOf(seen[k].1))
  }

  lemma StretchGrows(seen: seq<(Account, MarketEvent)>, k: nat, x: (Account, MarketEvent))
    requires k < |seen| && OpensTheDay(seen, k) && DayOf(x.1) == DayOf(seen[|seen| - 1].1)
    ensures OpensTheDay(seen + [x], k)
  {
  }

  /**
   * The session's reference is the equity at the first event of the current UTC day: so the day's loss is
   * measured from there.
   */
  lemma {:induction false} SessionStartsWithTheDay(d: Desk, seen: seq<(Account, MarketEvent)>) returns (k: nat)
    requires seen != [] && DayOf(seen[0].1) != d.sessionDay
    ensures k < |seen| && OpensTheDay(seen, k)
    ensures Watched(d, seen).sessionDay == DayOf(seen[|seen| - 1].1)
    ensures Watched(d, seen).sessionStart == Some(seen[k].0.cash + Sum(MarketValues(seen[k].0)))
    decreases |seen|
  {
    hide Sum, MarketValues;
    var before, x := seen[..|seen| - 1], seen[|seen| - 1];
    assert seen == before + [x];
    if before == [] {
      k := 0;
    } else {
      k := SessionStartsWithTheDay(d, before);
      if DayOf(x.1) == DayOf(before[|before| - 1].1) {
        StretchGrows(before, k, x);
      } else {
        k := |before|;
      }
    }
  }

  /** What an event says of its symbol's price: the trade price, or the open of a bar without one. */
  function Says(e: MarketEvent): int {
    match e.price
    case Some(price) => price
    case None => e.open.ValueOr(0)
  }

  /** Event k is the last one with a positive price for the symbol. */
  predicate IsLatest(seen: seq<(Account, MarketEvent)>, symbol: Symbol, k: nat)
    requires k < |seen|
  {
    && seen[k].1.symbol == symbol && Says(seen[k].1) > 0
    && forall i :: k < i < |seen| && seen[i].1.symbol == symbol ==> Says(seen[i].1) <= 0
  }

  /** Prices are checked against the latest positive one of the symbol; a symbol without any has none. */
  lemma LatestBefore(before: seq<(Account, MarketEvent)>, x: (Account, MarketEvent), symbol: Symbol, k: nat)
    requires k < |before| && !(x.1.symbol == symbol && Says(x.1) > 0)
    ensures IsLatest(before + [x], symbol, k) <==> IsLatest(before, symbol, k)
  {
    var seen := before + [x];
    assert forall i :: 0 <= i < |before| ==> seen[i] == before[i];
    assert seen[|before|] == x;
  }

  /** Prices are checked against the latest positive one of the symbol; a symbol without any has none. */
  lemma {:induction false} PriceIsTheLatest(d: Desk, seen: seq<(Account, MarketEvent)>, symbol: Symbol)
    requires symbol !in d.prices
    ensures forall k :: 0 <= k < |seen| && IsLatest(seen, symbol, k) ==>
              symbol in Watched(d, seen).prices && Watched(d, seen).prices[symbol] == Says(seen[k].1)
    ensures symbol in Watched(d, seen).prices ==> exists k :: 0 <= k < |seen| && IsLatest(seen, symbol, k)
    decreases |seen|
  {
    hide TotalEquity;
    if seen == [] {
    } else {
      var before, x := seen[..|seen| - 1], seen[|seen| - 1];
      assert seen == before + [x];
      PriceIsTheLatest(d, before, symbol);
      if x.1.symbol == symbol && Says(x.1) > 0 {
        assert IsLatest(seen, symbol, |before|);
      } else {
        hide IsLatest, Says, ObserveMarket;
        forall k | 0 <= k < |before|
          ensures IsLatest(seen, symbol, k) <==> IsLatest(before, symbol, k)
        {
          LatestBefore(before, x, symbol, k);
        }
        assert !IsLatest(seen, symbol, |before|) by { LastIsNotLatest(before, x, symbol); }
        SamePrice(Watched(d, before), x, symbol);
      }
    }
  }

  lemma LastIsNotLatest(before: seq<(Account, MarketEvent)>, x: (Account, MarketEvent), symbol: Symbol)
    requires !(x.1.symbol == symbol && Says(x.1) > 0)
    ensures !IsLatest(before + [x], symbol, |before|)
  {
  }

  lemma SamePrice(d: Desk, x: (Account, MarketEvent), symbol: Symbol)
    requires !(x.1.symbol == symbol && Says(x.1) > 0)
    ensures var after := ObserveMarket(d, x.0, x.1);
            && (symbol in after.prices <==> symbol in d.prices)
            && (symbol in d.prices ==> after.prices[symbol] == d.prices[symbol])
  {
  }
}
