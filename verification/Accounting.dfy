/** Conservation over whole histories of portfolio operations. */
module Accounting {
  import opened Domain
  import opened Decimals
  import opened MapSums
  import opened Portfolio
  import opened Products

  datatype Op =
    | FillOp(fill: Fill)
    | OrderOp(order: Order)
    | MarkOp(event: MarketEvent)
    | HoldOp(signal: nat, symbol: Symbol, side: OrderSide, quantity: int, limitPrice: Option<int>)
    | ReleaseOp(signal: nat)

  /** One call on the portfolio; a refused or ignored fill leaves it unchanged. */
  ghost function Step(p: Account, op: Op): Account {
    match op
    case FillOp(f) => var r := ApplyFill(p, f); if r.Applied? then r.after else p
    case OrderOp(o) => ApplyOrderUpdate(p, o)
    case MarkOp(e) => ApplyMark(p, e)
    case HoldOp(signal, symbol, side, quantity, limit) =>
      HoldForSignal(p, signal, symbol, side, quantity, limit).0
    case ReleaseOp(signal) => p.(holds := p.holds - {signal})
  }

  ghost function Run(p: Account, ops: seq<Op>): Account
    decreases |ops|
  {
    if ops == [] then p else Run(Step(p, ops[0]), ops[1..])
  }

  // ----- value ---------------------------------------------------------------------------

  function CostBasis(p: Account): map<Symbol, int> {
    map s | s in p.positions :: p.positions[s].averageCost * p.positions[s].quantity
  }

  function RealizedPnls(p: Account): map<Symbol, int> {
    map s | s in p.positions :: p.positions[s].realizedPnl
  }

  /** Cash plus what the open shares cost, less the profit already taken. */
  ghost function BookValue(p: Account): int {
    p.cash + Sum(CostBasis(p)) - Sum(RealizedPnls(p))
  }

  /** The size of the position a blending fill leaves; every other operation rounds nothing. */
  function BlendedShares(p: Account, op: Op): nat {
    if op.FillOp? && ApplyFill(p, op.fill).Applied?
       && Held(p, op.fill.symbol) != 0 && Blends(PositionOf(p, op.fill.symbol), op.fill.quantity)
    then Abs(Held(p, op.fill.symbol) + op.fill.quantity)
    else 0
  }

  ghost function TotalBlendedShares(p: Account, ops: seq<Op>): nat
    decreases |ops|
  {
    if ops == [] then 0 else BlendedShares(p, ops[0]) + TotalBlendedShares(Step(p, ops[0]), ops[1..])
  }

  /** What one fill moves between cash, cost and realised profit, apart from rounding. */
  function Drift(pos: Position, f: Fill): int
    requires f.quantity != 0
  {
    var next := NextPosition(pos, f);
    (next.averageCost * next.quantity - pos.averageCost * pos.quantity)
    - (next.realizedPnl - pos.realizedPnl)
    - (f.price * f.quantity + f.fees)
  }

  lemma DriftWhenBlending(pos: Position, f: Fill)
    requires f.quantity != 0 && Blends(pos, f.quantity)
    ensures 2 * Abs(Drift(pos, f)) <= Abs(pos.quantity + f.quantity)
    ensures pos.quantity == 0 ==> Drift(pos, f) == 0
  {
    var total := pos.quantity + f.quantity;
    var a := pos.averageCost * Abs(pos.quantity) + f.price * Abs(f.quantity);
    var avg := DivRound(a, Abs(total));
    DivRoundNearest(a, Abs(total));
    if pos.quantity == 0 {
      assert a == f.price * Abs(f.quantity);
      DivRoundExact(f.price, Abs(total));
    }
    SignedBlend(pos.averageCost, pos.quantity, f.price, f.quantity, avg);
  }

  lemma SignedBlend(c: int, x: int, price: int, q: int, avg: int)
    requires q != 0 && (x == 0 || ((x > 0) == (q > 0)))
    ensures Abs(avg * (x + q) - c * x - price * q)
         == Abs(avg * Abs(x + q) - (c * Abs(x) + price * Abs(q)))
  {
    if q < 0 {
      Mirrored(avg, x + q);
      Mirrored(c, x);
      Mirrored(price, q);
    }
  }

  lemma Mirrored(a: int, n: int)
    requires n <= 0
    ensures a * n == -(a * Abs(n))
  {
  }

  lemma DriftWhenReducing(pos: Position, f: Fill)
    requires f.quantity != 0 && !Blends(pos, f.quantity)
    ensures Drift(pos, f) == 0
  {
    var x, q, c, price := pos.quantity, f.quantity, pos.averageCost, f.price;
    var total := x + q;
    var closed := Min(Abs(q), Abs(x));
    var signed := closed * (if x > 0 then 1 else -1);
    assert (price - c) * signed == price * signed - c * signed;
    if Abs(q) <= Abs(x) {
      assert signed == -q;
      assert price * (-q) == -(price * q) && c * (-q) == -(c * q);
      assert c * total == c * x + c * q;
      if total == 0 { assert 0 * total == 0; }
    } else {
      assert signed == x;
      assert price * total == price * x + price * q;
    }
  }

  /** What a settled fill does to the two tables book value is made of. */
  lemma FillMovesTables(p: Account, f: Fill)
    requires f.quantity != 0
    ensures var after, next := SettleFill(p, f), NextPosition(PositionOf(p, f.symbol), f);
            && after.cash == p.cash - (f.price * f.quantity + f.fees)
            && CostBasis(after) == CostBasis(p)[f.symbol := next.averageCost * next.quantity]
            && RealizedPnls(after) == RealizedPnls(p)[f.symbol := next.realizedPnl]
  {
    hide NextPosition, ReleaseForFill;
  }

  lemma FillConserves(p: Account, f: Fill)
    requires f.quantity != 0
    ensures BookValue(SettleFill(p, f)) == BookValue(p) + Drift(PositionOf(p, f.symbol), f)
  {
    hide Sum, NextPosition, SettleFill;
    var pos := PositionOf(p, f.symbol);
    var next := NextPosition(pos, f);
    FillMovesTables(p, f);
    SumUpdate(CostBasis(p), f.symbol, next.averageCost * next.quantity);
    SumUpdate(RealizedPnls(p), f.symbol, next.realizedPnl);
    TablesAt(p, f.symbol);
  }

  lemma TablesAt(p: Account, s: Symbol)
    ensures var pos := PositionOf(p, s);
            && (if s in CostBasis(p) then CostBasis(p)[s] else 0) == pos.averageCost * pos.quantity
            && (if s in RealizedPnls(p) then RealizedPnls(p)[s] else 0) == pos.realizedPnl
  {
  }

  /** Each operation conserves book value, up to half a millionth per share of a blended position. */
  lemma StepConserves(p: Account, op: Op)
    ensures 2 * Abs(BookValue(Step(p, op)) - BookValue(p)) <= BlendedShares(p, op)
  {
    hide BookValue, Drift, NextPosition, SettleFill;
    if op.FillOp? && ApplyFill(p, op.fill).Applied? {
      var pos := PositionOf(p, op.fill.symbol);
      FillConserves(p, op.fill);
      if Blends(pos, op.fill.quantity) {
        DriftWhenBlending(pos, op.fill);
      } else {
        DriftWhenReducing(pos, op.fill);
      }
    } else {
      OtherStepsMoveNothing(p, op);
    }
  }

  lemma OtherStepsKeepPositions(p: Account, op: Op)
    requires !(op.FillOp? && ApplyFill(p, op.fill).Applied?)
    ensures Step(p, op).positions == p.positions && Step(p, op).cash == p.cash
  {
    hide BookValue, SettleFill, BuyCost, BuyingPower, CommittedToSell, MarkPriceOf;
  }

  lemma OtherStepsMoveNothing(p: Account, op: Op)
    requires !(op.FillOp? && ApplyFill(p, op.fill).Applied?)
    ensures BookValue(Step(p, op)) == BookValue(p)
  {
    hide Sum, Step;
    OtherStepsKeepPositions(p, op);
    assert CostBasis(Step(p, op)) == CostBasis(p);
    assert RealizedPnls(Step(p, op)) == RealizedPnls(p);
  }

  lemma {:induction false} RunConserves(p: Account, ops: seq<Op>)
    ensures 2 * Abs(BookValue(Run(p, ops)) - BookValue(p)) <= TotalBlendedShares(p, ops)
    decreases |ops|
  {
    if ops == [] {
    } else {
      StepConserves(p, ops[0]);
      RunConserves(Step(p, ops[0]), ops[1..]);
    }
  }

  lemma {:induction false} SumOfSums<K>(a: map<K, int>, b: map<K, int>, c: map<K, int>)
    requires a.Keys == b.Keys == c.Keys
    requires forall k :: k in a ==> c[k] == a[k] + b[k]
    ensures Sum(c) == Sum(a) + Sum(b)
    decreases |a|
  {
    if c == map[] {
      assert a == map[] && b == map[];
    } else {
      var k :| k in c;
      SumRemove(a, k);
      SumRemove(b, k);
      SumRemove(c, k);
      SumOfSums(a - {k}, b - {k}, c - {k});
    }
  }

  /** The snapshot's equity is exactly book value plus realised plus unrealised profit. */
  lemma EquityDecomposes(p: Account)
    ensures TotalEquity(p) == BookValue(p) + Sum(RealizedPnls(p)) + Sum(UnrealizedPnls(p))
  {
    forall s | s in p.positions
      ensures MarketValues(p)[s] == CostBasis(p)[s] + UnrealizedPnls(p)[s]
    {
      ValueSplits(p, s);
    }
    hide CostBasis, UnrealizedPnls, MarketValues;
    ValueTables(p);
    SumOfSums(CostBasis(p), UnrealizedPnls(p), MarketValues(p));
  }

  lemma ValueTables(p: Account)
    ensures CostBasis(p).Keys == UnrealizedPnls(p).Keys == MarketValues(p).Keys == p.positions.Keys
  {
  }

  lemma ValueSplits(p: Account, s: Symbol)
    requires s in p.positions
    ensures MarketValues(p)[s] == CostBasis(p)[s] + UnrealizedPnls(p)[s]
  {
    var m, c, q := MarkPrice(p, s), p.positions[s].averageCost, p.positions[s].quantity;
    assert (m - c) * q == m * q - c * q;
  }

  /** From opening cash through any history: equity gained is profit, up to the blending error. */
  lemma EquityGainIsProfit(runId: nat, startingCash: int, fees: FeeModel, ops: seq<Op>)
    ensures var p0 := Initial(runId, startingCash, fees);
            var p := Run(p0, ops);
            var profit := Sum(RealizedPnls(p)) + Sum(UnrealizedPnls(p));
            2 * Abs(TotalEquity(p) - startingCash - profit) <= TotalBlendedShares(p0, ops)
  {
    var p0 := Initial(runId, startingCash, fees);
    RunConserves(p0, ops);
    EquityDecomposes(Run(p0, ops));
    assert CostBasis(p0) == map[] && RealizedPnls(p0) == map[];
  }

  // ----- reservations --------------------------------------------------------------------

  /** After k partial fills of an order opened with `original` cash against `shares`. */
  ghost predicate Proportional(o: PendingOrder, original: int, shares: int, k: nat) {
    && 0 < o.remaining <= shares
    && 0 <= o.reserved <= original
    && 2 * Abs(shares * o.reserved - original * o.remaining) <= k * shares
  }

  lemma PartialFillKeepsProportion(o: PendingOrder, original: int, shares: int, k: nat, filled: nat)
    requires Proportional(o, original, shares, k) && 0 < filled < o.remaining
    ensures Proportional(o.(reserved := ReservedAfter(o, filled), remaining := o.remaining - filled),
                         original, shares, k + 1)
  {
    var r, m := o.reserved, o.remaining;
    var d := DivRound(r * filled, m);
    DivRoundNearest(r * filled, m);
    assert 0 <= r * filled <= r * m by { ProductBounds(r, filled, m); }
    DivRoundBetween(r * filled, m, 0, r);
    ErrorGrowsByOneHalf(r, m, filled, d, original, shares, k);
  }

  /** The distance to the exact share is scaled by (m - f)/m and gains at most one half. */
  lemma ErrorGrowsByOneHalf(r: int, m: int, f: int, d: int, original: int, shares: int, k: nat)
    requires 0 < f < m && 0 < shares
    requires 2 * Abs(d * m - r * f) <= m
    requires 2 * Abs(shares * r - original * m) <= k * shares
    ensures 2 * Abs(shares * (r - d) - original * (m - f)) <= (k + 1) * shares
  {
    var e := shares * r - original * m;
    var e' := shares * (r - d) - original * (m - f);
    var g := r * f - d * m;
    ErrorIdentity(r, m, f, d, original, shares);
    ScaledBound(m - f, e, m, k * shares);
    ScaledBound(shares, g, shares, m);
    assert (k + 1) * shares == k * shares + shares;
    CancelSum(m, e', (m - f) * e, shares * g, k * shares, shares);
  }

  lemma CancelSum(m: int, x: int, y: int, z: int, a: int, b: int)
    requires m > 0 && m * x == y + z
    requires 2 * Abs(y) <= m * a && 2 * Abs(z) <= b * m
    ensures 2 * Abs(x) <= a + b
  {
    assert m * (a + b) == m * a + b * m;
    Cancel(m, x, a + b);
  }

  lemma ErrorIdentity(r: int, m: int, f: int, d: int, original: int, shares: int)
    ensures m * (shares * (r - d) - original * (m - f))
         == (m - f) * (shares * r - original * m) + shares * (r * f - d * m)
  {
    var rm, rf, dm := r * m, r * f, d * m;
    assert m * (shares * (r - d)) == shares * rm - shares * dm by {
      assert m * (r - d) == rm - dm;
      assert m * (shares * (r - d)) == shares * (m * (r - d));
    }
    assert (m - f) * (shares * r) == shares * rm - shares * rf by {
      assert (m - f) * r == rm - rf;
      assert (m - f) * (shares * r) == shares * ((m - f) * r);
    }
    assert (m - f) * (original * m) == m * (original * (m - f));
    assert (m - f) * (shares * r - original * m) == (m - f) * (shares * r) - (m - f) * (original * m);
    assert shares * (rf - dm) == shares * rf - shares * dm;
  }

  lemma AbsOfProduct(a: int, x: int)
    requires a >= 0
    ensures Abs(a * x) == a * Abs(x)
  {
    if x < 0 {
      assert a * x == -(a * -x);
      ProductNotNegative(a, -x);
    } else {
      ProductNotNegative(a, x);
    }
  }

  lemma ScaledBound(a: int, x: int, m: int, b: int)
    requires 0 <= a <= m && 2 * Abs(x) <= b
    ensures 2 * Abs(a * x) <= m * b
  {
    AbsOfProduct(a, x);
    hide Abs;
    ProductMonotone(2 * Abs(x), b, a);
    ProductMonotone(a, m, b);
    assert (2 * Abs(x)) * a == 2 * (a * Abs(x));
  }

  lemma Cancel(m: int, x: int, b: int)
    requires m > 0 && 2 * Abs(m * x) <= m * b
    ensures 2 * Abs(x) <= b
  {
    AbsOfProduct(m, x);
    hide Abs;
    assert (2 * Abs(x)) * m == 2 * (m * Abs(x));
    if b < 2 * Abs(x) { ProductGrows(b, 2 * Abs(x), m); }
  }

  ghost function FillsFor(p: Account, ops: seq<Op>, orderId: nat): nat
    decreases |ops|
  {
    if ops == [] then 0
    else
      (if ops[0].FillOp? && ops[0].fill.orderId == orderId && ApplyFill(p, ops[0].fill).Applied? then 1 else 0)
      + FillsFor(Step(p, ops[0]), ops[1..], orderId)
  }

  /** Either still open and proportional, or closed for good with its reservation gone. */
  ghost predicate Tracked(p: Account, orderId: nat, original: int, shares: int, k: nat) {
    if orderId in p.openOrders then Proportional(p.openOrders[orderId], original, shares, k)
    else orderId in p.closedOrders
  }

  lemma StepTracks(p: Account, op: Op, orderId: nat, original: int, shares: int, k: nat)
    requires Tracked(p, orderId, original, shares, k) && shares > 0
    ensures Tracked(Step(p, op), orderId, original, shares, k + FillsFor(p, [op], orderId))
  {
    hide Proportional;
    assert FillsFor(p, [op], orderId) ==
      if op.FillOp? && op.fill.orderId == orderId && ApplyFill(p, op.fill).Applied? then 1 else 0;
    if op.FillOp? && ApplyFill(p, op.fill).Applied? {
      FillTracks(p, op.fill, orderId, original, shares, k);
    } else {
      OtherStepsKeepOrder(p, op, orderId);
    }
  }

  lemma FillTracks(p: Account, f: Fill, orderId: nat, original: int, shares: int, k: nat)
    requires Tracked(p, orderId, original, shares, k) && shares > 0 && f.quantity != 0
    ensures Tracked(SettleFill(p, f), orderId, original, shares, k + (if f.orderId == orderId then 1 else 0))
  {
    hide NextPosition, ReservedAfter;
    if orderId in p.openOrders && f.orderId == orderId {
      var o := p.openOrders[orderId];
      if !FillCompletes(o, f) { PartialFillKeepsProportion(o, original, shares, k, Abs(f.quantity)); }
    }
  }

  /** Any other operation leaves an open order as it is, or closes it for good. */
  lemma OtherStepsKeepOrder(p: Account, op: Op, orderId: nat)
    requires !(op.FillOp? && ApplyFill(p, op.fill).Applied?)
    requires orderId in p.openOrders || orderId in p.closedOrders
    ensures var q := Step(p, op);
            if orderId in q.openOrders then orderId in p.openOrders && q.openOrders[orderId] == p.openOrders[orderId]
            else orderId in q.closedOrders
  {
    if op.HoldOp? {
      hide Step, HoldForSignal;
      HoldEffect(p, op);
    } else {
      hide SettleFill, BuyCost, HoldForSignal, MarkPriceOf;
    }
  }

  lemma {:induction false} RunTracks(p: Account, ops: seq<Op>, orderId: nat, original: int, shares: int, k: nat)
    requires Tracked(p, orderId, original, shares, k) && shares > 0
    ensures Tracked(Run(p, ops), orderId, original, shares, k + FillsFor(p, ops, orderId))
    decreases |ops|
  {
    hide Tracked, Step;
    if ops == [] {
    } else {
      StepTracks(p, ops[0], orderId, original, shares, k);
      RunTracks(Step(p, ops[0]), ops[1..], orderId, original, shares, k + FillsFor(p, [ops[0]], orderId));
      FillsForFirst(p, ops, orderId);
    }
  }

  lemma FillsForFirst(p: Account, ops: seq<Op>, orderId: nat)
    requires ops != []
    ensures FillsFor(p, ops, orderId)
         == FillsFor(p, [ops[0]], orderId) + FillsFor(Step(p, ops[0]), ops[1..], orderId)
  {
    hide Step, ApplyFill;
    assert [ops[0]][1..] == [];
  }

  function Unfilled(o: Order): int {
    o.quantity - o.filledQuantity
  }

  /** A Working order the portfolio does not know yet: the update opens it. */
  predicate Opens(p: Account, o: Order) {
    && o.runId == p.runId && o.status == Working
    && o.id !in p.openOrders && o.id !in p.closedOrders
    && o.quantity - o.filledQuantity > 0
  }

  /** What the order opened by `o` reserves: its signal's hold, or its own cost when there is none. */
  function Opening(p: Account, o: Order): int {
    if o.originSignal in p.holds then p.holds[o.originSignal].amount
    else if o.side == Buy then BuyCost(p, o.symbol, o.quantity - o.filledQuantity, o.limitPrice).ValueOr(0)
    else 0
  }

  /** After `ops`: proportional to what the order was opened with, or closed for good. */
  ghost predicate TrackedAfter(p: Account, ops: seq<Op>, orderId: nat, original: int, shares: int) {
    Tracked(Run(p, ops), orderId, original, shares, FillsFor(p, ops, orderId))
  }

  /**
   * From its opening on, in any history: the reservation of an order is in [0, original] and within
   * k/2 millionths of the exact pro-rata share after k fills, or the order is closed for good and
   * reserves nothing. This holds if and only if the amount it was opened with is not negative.
   */
  lemma ReservationStaysProportional(p: Account, o: Order)
    requires Opens(p, o)
    ensures (forall ops :: TrackedAfter(Step(p, OrderOp(o)), ops, o.id, Opening(p, o), Unfilled(o)))
            <==> Opening(p, o) >= 0
  {
    hide BuyCost, Step, Opening;
    var live, original, shares := Step(p, OrderOp(o)), Opening(p, o), Unfilled(o);
    OpenedOrder(p, o);
    if original >= 0 {
      forall ops
        ensures TrackedAfter(live, ops, o.id, original, shares)
      {
        RunTracks(live, ops, o.id, original, shares, 0);
      }
    } else {
      assert Run(live, []) == live;
      assert !TrackedAfter(live, [], o.id, original, shares);
    }
  }

  lemma OpenedOrder(p: Account, o: Order)
    requires Opens(p, o)
    ensures var live := Step(p, OrderOp(o));
            && o.id in live.openOrders
            && live.openOrders[o.id].remaining == o.quantity - o.filledQuantity
            && live.openOrders[o.id].reserved == Opening(p, o)
  {
  }

  // ----- the sign of reservations --------------------------------------------------------

  /** No hold and no order reserves a negative amount; marks are prices, open orders have shares left. */
  ghost predicate ReservesOk(p: Account) {
    && (forall s :: s in p.holds ==> p.holds[s].amount >= 0)
    && (forall o :: o in p.openOrders ==> p.openOrders[o].reserved >= 0 && p.openOrders[o].remaining > 0)
    && (forall s :: s in p.marks ==> p.marks[s] > 0)
  }

  /** The hold granted to a new signal is negative exactly when it is a buy whose cost is. */
  lemma HoldIsNegative(p: Account, signal: nat, symbol: Symbol, side: OrderSide, quantity: int, limit: Option<int>)
    requires signal !in p.holds && HoldForSignal(p, signal, symbol, side, quantity, limit).1.granted
    ensures HoldForSignal(p, signal, symbol, side, quantity, limit).1.amount < 0 <==>
            side == Buy && BuyCost(p, symbol, quantity, limit).value < 0
  {
    hide BuyCost;
  }

  lemma CostNotNegative(p: Account, symbol: Symbol, quantity: int, limit: Option<int>)
    requires p.fees.Valid() && quantity > 0
    requires limit.Some? ==> limit.value >= 0
    requires symbol in p.marks ==> p.marks[symbol] > 0
    ensures BuyCost(p, symbol, quantity, limit).ValueOr(0) >= 0
  {
    var cost := BuyCost(p, symbol, quantity, limit);
    if cost.Some? {
      var gross := if limit.Some? then limit.value * quantity else p.marks[symbol] * quantity;
      ProductBounds(if limit.Some? then limit.value else p.marks[symbol], quantity, quantity);
      var notional := if limit.Some? then gross else p.fees.hold(gross);
      assert p.fees.hold(0) <= p.fees.hold(gross);
      assert p.fees.rate(0) <= p.fees.rate(notional);
      ProductBounds(p.fees.perShare, quantity, quantity);
    }
  }

  /** An operation that takes a negative reservation: a new buy hold, or a buy order opened without one. */
  ghost predicate TakesNegative(p: Account, op: Op) {
    match op
    case HoldOp(signal, symbol, side, quantity, limit) =>
      && signal !in p.holds
      && HoldForSignal(p, signal, symbol, side, quantity, limit).1.granted
      && HoldForSignal(p, signal, symbol, side, quantity, limit).1.amount < 0
    case OrderOp(o) => Opens(p, o) && Opening(p, o) < 0
    case _ => false
  }

  lemma FillKeepsReserves(p: Account, f: Fill)
    requires ReservesOk(p) && f.quantity != 0 && f.price > 0
    ensures ReservesOk(SettleFill(p, f))
  {
    hide NextPosition, DivRound;
    if f.orderId in p.openOrders {
      var o := p.openOrders[f.orderId];
      if !FillCompletes(o, f) {
        ProductBounds(o.reserved, Abs(f.quantity), o.remaining);
        DivRoundBetween(o.reserved * Abs(f.quantity), o.remaining, 0, o.reserved);
      }
    }
  }

  /** A request for a hold changes nothing, or adds one hold of the amount granted. */
  lemma HoldEffect(p: Account, op: Op)
    requires op.HoldOp?
    ensures var (p', r) := HoldForSignal(p, op.signal, op.symbol, op.side, op.quantity, op.limitPrice);
            Step(p, op) ==
            if r.granted && op.signal !in p.holds
            then p.(holds := p.holds[op.signal := Hold(op.symbol, op.side, op.quantity, r.amount)])
            else p
  {
    hide BuyCost, Sum;
  }

  lemma HoldKeepsReserves(p: Account, op: Op)
    requires ReservesOk(p) && op.HoldOp?
    ensures ReservesOk(Step(p, op)) <==> !TakesNegative(p, op)
  {
    hide HoldForSignal, Step;
    HoldEffect(p, op);
    assert op.signal in Step(p, op).holds || Step(p, op) == p;
  }

  lemma OrderKeepsReserves(p: Account, o: Order)
    requires ReservesOk(p)
    ensures ReservesOk(Step(p, OrderOp(o))) <==> !TakesNegative(p, OrderOp(o))
  {
    hide BuyCost;
    if Opens(p, o) { OpenedOrder(p, o); }
  }

  /** Reservations stay non-negative exactly while no operation takes a negative one. */
  lemma StepKeepsReserves(p: Account, op: Op)
    requires ReservesOk(p)
    ensures ReservesOk(Step(p, op)) <==> !TakesNegative(p, op)
  {
    hide SettleFill, BuyCost, HoldForSignal;
    match op
    case FillOp(f) => if ApplyFill(p, f).Applied? { FillKeepsReserves(p, f); }
    case OrderOp(o) => OrderKeepsReserves(p, o);
    case HoldOp(_, _, _, _, _) => HoldKeepsReserves(p, op);
    case _ =>
  }

  /** The limit price of a buy, where the operation has one, is not negative. */
  predicate LimitNotNegative(op: Op) {
    && (op.HoldOp? && op.side == Buy && op.limitPrice.Some? ==> op.limitPrice.value >= 0)
    && (op.OrderOp? && op.order.side == Buy && op.order.limitPrice.Some? ==> op.order.limitPrice.value >= 0)
  }

  lemma LimitsPreventNegative(p: Account, op: Op)
    requires ReservesOk(p) && p.fees.Valid() && LimitNotNegative(op)
    ensures !TakesNegative(p, op)
  {
    hide BuyCost;
    match op
    case HoldOp(_, symbol, Buy, quantity, limit) =>
      if quantity > 0 { CostNotNegative(p, symbol, quantity, limit); }
    case OrderOp(o) =>
      if Opens(p, o) && o.side == Buy { CostNotNegative(p, o.symbol, o.quantity - o.filledQuantity, o.limitPrice); }
    case _ =>
  }

  lemma BuyingPowerWithinCash(p: Account)
    requires ReservesOk(p)
    ensures ReservedTotal(p) >= 0 && BuyingPower(p) <= p.cash
  {
    SumNonNegative(HoldAmounts(p.holds));
    SumNonNegative(OrderReserves(p.openOrders));
  }

  lemma StepKeepsFees(p: Account, op: Op)
    ensures Step(p, op).fees == p.fees
  {
    hide NextPosition, ReservedAfter, BuyCost, Sum, MarkPriceOf;
  }

  lemma {:induction false} RunKeepsReserves(p: Account, ops: seq<Op>)
    requires ReservesOk(p) && p.fees.Valid() && forall op :: op in ops ==> LimitNotNegative(op)
    ensures ReservesOk(Run(p, ops))
    decreases |ops|
  {
    hide ReservesOk, Step, TakesNegative;
    if ops == [] {
    } else {
      LimitsPreventNegative(p, ops[0]);
      StepKeepsReserves(p, ops[0]);
      StepKeepsFees(p, ops[0]);
      RunKeepsReserves(Step(p, ops[0]), ops[1..]);
    }
  }

  /** In any run whose buy limits are not negative: every reservation is not, and power never exceeds cash. */
  lemma PowerNeverExceedsCash(runId: nat, startingCash: int, fees: FeeModel, ops: seq<Op>)
    requires fees.Valid() && forall op :: op in ops ==> LimitNotNegative(op)
    ensures var p := Run(Initial(runId, startingCash, fees), ops);
            ReservesOk(p) && 0 <= ReservedTotal(p) && BuyingPower(p) <= p.cash
  {
    var p0 := Initial(runId, startingCash, fees);
    RunKeepsReserves(p0, ops);
    BuyingPowerWithinCash(Run(p0, ops));
  }

  /** A negative limit is not refused: without fees, a buy of q at -1 is granted and raises power by q. */
  lemma NegativeLimitRaisesPower(runId: nat, cash: nat, symbol: Symbol, quantity: int)
    requires quantity > 0
    ensures var p := Initial(runId, cash, FeeModel(0, 0, x => 0, x => x));
            var (held, r) := HoldForSignal(p, 1, symbol, Buy, quantity, Some(-1));
            r.granted && r.amount == -quantity && BuyingPower(held) == cash + quantity > held.cash
  {
    var p := Initial(runId, cash, FeeModel(0, 0, x => 0, x => x));
    assert HoldAmounts(p.holds) == map[] && OrderReserves(p.openOrders) == map[];
    assert BuyCost(p, symbol, quantity, Some(-1)) == Some(-quantity);
    var held := HoldForSignal(p, 1, symbol, Buy, quantity, Some(-1)).0;
    SumUpdate(map[], 1 as nat, -quantity);
    assert HoldAmounts(held.holds) == map[1 := -quantity];
  }

  // ----- buying power --------------------------------------------------------------------

  function ReservedFor(p: Account, orderId: nat): int {
    if orderId in p.openOrders then p.openOrders[orderId].reserved else 0
  }

  /** A fill moves buying power by the reservation it releases minus what it costs. */
  lemma FillMovesBuyingPower(p: Account, f: Fill)
    requires f.quantity != 0
    requires f.orderId in p.openOrders ==> p.openOrders[f.orderId].remaining > 0
    ensures var after := SettleFill(p, f);
            BuyingPower(after) == BuyingPower(p)
                                  + (ReservedFor(p, f.orderId) - ReservedFor(after, f.orderId))
                                  - (f.price * f.quantity + f.fees)
  {
    hide Sum, HoldAmounts, OrderReserves, ReleaseForFill, NextPosition;
    ReleaseMovesReserves(p, f);
    ReleaseKeepsHolds(p, f);
  }

  lemma ReleaseKeepsHolds(p: Account, f: Fill)
    ensures ReleaseForFill(p, f).holds == p.holds
  {
  }

  lemma ReleaseMovesReserves(p: Account, f: Fill)
    requires f.orderId in p.openOrders ==> p.openOrders[f.orderId].remaining > 0
    ensures var after := ReleaseForFill(p, f);
            Sum(OrderReserves(p.openOrders)) - Sum(OrderReserves(after.openOrders))
            == ReservedFor(p, f.orderId) - ReservedFor(after, f.orderId)
  {
    if f.orderId in p.openOrders {
      var order := p.openOrders[f.orderId];
      if FillCompletes(order, f) {
        SumRemove(OrderReserves(p.openOrders), f.orderId);
        assert OrderReserves(p.openOrders - {f.orderId}) == OrderReserves(p.openOrders) - {f.orderId};
      } else {
        ReplaceMovesReserves(p.openOrders, f.orderId, ReleaseForFill(p, f).openOrders[f.orderId]);
      }
    }
  }

  lemma ReplaceMovesReserves(orders: map<nat, PendingOrder>, id: nat, order: PendingOrder)
    requires id in orders
    ensures Sum(OrderReserves(orders)) - Sum(OrderReserves(orders[id := order]))
         == orders[id].reserved - order.reserved
  {
    SumUpdate(OrderReserves(orders), id, order.reserved);
    assert OrderReserves(orders[id := order]) == OrderReserves(orders)[id := order.reserved];
  }
}
