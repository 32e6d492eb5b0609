/** Portfolio state and what each portfolio operation does to it. */
module Portfolio {
  import opened Domain
  import opened Decimals
  import opened MapSums

  datatype Position = Position(quantity: int, averageCost: int, realizedPnl: int)

  datatype Hold = Hold(symbol: Symbol, side: OrderSide, quantity: int, amount: int)

  datatype PendingOrder = PendingOrder(originSignal: nat, symbol: Symbol, side: OrderSide,
                                       remaining: int, reserved: int)

  datatype Account = Account(runId: nat, fees: FeeModel,
                         cash: int,
                         positions: map<Symbol, Position>,
                         marks: map<Symbol, int>,
                         openOrders: map<nat, PendingOrder>,
                         holds: map<nat, Hold>,
                         closedOrders: set<nat>,
                         appliedFills: set<nat>,
                         lastSequence: map<nat, nat>)

  function Initial(runId: nat, startingCash: int, fees: FeeModel): Account {
    Account(runId, fees, startingCash, map[], map[], map[], map[], {}, {}, map[])
  }

  // ----- fills ---------------------------------------------------------------------------

  datatype FillError = ZeroQuantity | PriceNotPositive | NegativeFees | OrderClosed | SequenceGap

  datatype FillOutcome = Ignored | Refused(error: FillError) | Applied(after: Account)

  const FLAT := Position(0, 0, 0)

  function Held(p: Account, symbol: Symbol): int {
    if symbol in p.positions then p.positions[symbol].quantity else 0
  }

  function PositionOf(p: Account, symbol: Symbol): Position {
    if symbol in p.positions then p.positions[symbol] else FLAT
  }

  /** A fill in the direction already held (or from flat) blends into the average cost. */
  predicate Blends(pos: Position, quantity: int) {
    pos.quantity == 0 || ((pos.quantity > 0) == (quantity > 0))
  }

  function NextPosition(pos: Position, f: Fill): Position
    requires f.quantity != 0
  {
    var total := pos.quantity + f.quantity;
    if Blends(pos, f.quantity) then
      Position(total,
               DivRound(pos.averageCost * Abs(pos.quantity) + f.price * Abs(f.quantity), Abs(total)),
               pos.realizedPnl - f.fees)
    else
      var closed := Min(Abs(f.quantity), Abs(pos.quantity));
      var direction := if pos.quantity > 0 then 1 else -1;
      Position(total,
               if total == 0 then 0
               else if (total > 0) != (pos.quantity > 0) then f.price
               else pos.averageCost,
               pos.realizedPnl - f.fees + (f.price - pos.averageCost) * (closed * direction))
  }

  function ExpectedSequence(p: Account, orderId: nat): nat {
    (if orderId in p.lastSequence then p.lastSequence[orderId] else 0) + 1
  }

  /** The share of an order's reservation that stays after a partial fill. */
  function ReservedAfter(order: PendingOrder, filled: nat): int
    requires order.remaining > 0
  {
    order.reserved - DivRound(order.reserved * filled, order.remaining)
  }

  predicate FillCompletes(order: PendingOrder, f: Fill) {
    f.status == Complete || Abs(f.quantity) >= order.remaining
  }

  function ReleaseForFill(p: Account, f: Fill): Account {
    if f.orderId !in p.openOrders then p
    else
      var order := p.openOrders[f.orderId];
      if FillCompletes(order, f) then
        p.(openOrders := p.openOrders - {f.orderId}, closedOrders := p.closedOrders + {f.orderId})
      else
        p.(openOrders := p.openOrders[f.orderId :=
             order.(reserved := ReservedAfter(order, Abs(f.quantity)),
                    remaining := order.remaining - Abs(f.quantity))])
  }

  function SettleFill(p: Account, f: Fill): Account
    requires f.quantity != 0
  {
    var q := ReleaseForFill(p, f);
    q.(cash := p.cash - (f.price * f.quantity + f.fees),
       positions := p.positions[f.symbol := NextPosition(PositionOf(p, f.symbol), f)],
       marks := p.marks[f.symbol := f.price],
       appliedFills := p.appliedFills + {f.id},
       lastSequence := if f.status == Complete then p.lastSequence - {f.orderId}
                       else p.lastSequence[f.orderId := f.sequence],
       closedOrders := if f.status == Complete then q.closedOrders + {f.orderId} else q.closedOrders)
  }

  function ApplyFill(p: Account, f: Fill): FillOutcome {
    if f.runId != p.runId || f.id in p.appliedFills then Ignored
    else if f.quantity == 0 then Refused(ZeroQuantity)
    else if f.price <= 0 then Refused(PriceNotPositive)
    else if f.fees < 0 then Refused(NegativeFees)
    else if f.orderId in p.closedOrders then Refused(OrderClosed)
    else if f.sequence != ExpectedSequence(p, f.orderId) then Refused(SequenceGap)
    else Applied(SettleFill(p, f))
  }

  // ----- orders --------------------------------------------------------------------------

  function BuyCost(p: Account, symbol: Symbol, quantity: int, limitPrice: Option<int>): Option<int> {
    if limitPrice.Some? then Some(WithFees(p.fees, limitPrice.value * quantity, quantity))
    else if symbol in p.marks then Some(WithFees(p.fees, p.fees.hold(p.marks[symbol] * quantity), quantity))
    else None
  }

  function WithFees(fees: FeeModel, notional: int, quantity: int): int {
    notional + (fees.perShare * quantity + fees.perTrade + fees.rate(notional))
  }

  function OpenOrder(p: Account, o: Order): Account {
    var remaining := o.quantity - o.filledQuantity;
    var taken := o.originSignal in p.holds;
    var reserved :=
      if taken then p.holds[o.originSignal].amount
      else if o.side == Buy then BuyCost(p, o.symbol, remaining, o.limitPrice).ValueOr(0)
      else 0;
    p.(openOrders := p.openOrders[o.id := PendingOrder(o.originSignal, o.symbol, o.side, remaining, reserved)],
       holds := p.holds - {o.originSignal})
  }

  function CloseOrder(p: Account, o: Order): Account {
    p.(holds := p.holds - {o.originSignal},
       openOrders := p.openOrders - {o.id},
       closedOrders := p.closedOrders + {o.id})
  }

  function ApplyOrderUpdate(p: Account, o: Order): Account {
    if o.runId != p.runId then p
    else match o.status
      case Working =>
        if o.id in p.openOrders || o.id in p.closedOrders || o.quantity - o.filledQuantity <= 0 then p
        else OpenOrder(p, o)
      case Rejected => CloseOrder(p, o)
      case Cancelled => CloseOrder(p, o)
      case Expired => CloseOrder(p, o)
      case _ => p
  }

  // ----- marks ---------------------------------------------------------------------------

  function MarkPriceOf(e: MarketEvent): Option<int> {
    if e.price.Some? then e.price
    else if e.bid.Some? && e.ask.Some? then Some(DivRound(e.bid.value + e.ask.value, 2))
    else None
  }

  function ApplyMark(p: Account, e: MarketEvent): Account {
    var price := MarkPriceOf(e);
    if price.None? || price.value <= 0 || e.symbol == "" then p
    else p.(marks := p.marks[e.symbol := price.value])
  }

  // ----- reservations --------------------------------------------------------------------

  function HoldAmounts(holds: map<nat, Hold>): map<nat, int> {
    map s | s in holds :: holds[s].amount
  }

  function OrderReserves(orders: map<nat, PendingOrder>): map<nat, int> {
    map o | o in orders :: orders[o].reserved
  }

  function SellHolds(holds: map<nat, Hold>, symbol: Symbol): map<nat, int> {
    map s | s in holds :: HeldForSale(holds[s], symbol)
  }

  function HeldForSale(h: Hold, symbol: Symbol): int {
    if h.side == Sell && h.symbol == symbol then h.quantity else 0
  }

  function SellOrders(orders: map<nat, PendingOrder>, symbol: Symbol): map<nat, int> {
    map o | o in orders :: OrderedForSale(orders[o], symbol)
  }

  function OrderedForSale(o: PendingOrder, symbol: Symbol): int {
    if o.side == Sell && o.symbol == symbol then o.remaining else 0
  }

  ghost function ReservedTotal(p: Account): int {
    Sum(HoldAmounts(p.holds)) + Sum(OrderReserves(p.openOrders))
  }

  ghost function BuyingPower(p: Account): int {
    p.cash - ReservedTotal(p)
  }

  ghost function CommittedToSell(p: Account, symbol: Symbol): int {
    Sum(SellHolds(p.holds, symbol)) + Sum(SellOrders(p.openOrders, symbol))
  }

  datatype Reservation = Reservation(granted: bool, amount: int, power: int)

  ghost function HoldForSignal(p: Account, signal: nat, symbol: Symbol, side: OrderSide, quantity: int,
                               limitPrice: Option<int>): (Account, Reservation)
  {
    var power := BuyingPower(p);
    if signal in p.holds then (p, Reservation(true, p.holds[signal].amount, power))
    else if signal == 0 || quantity <= 0 then (p, Reservation(false, 0, power))
    else if side == Sell then
      if quantity > Held(p, symbol) - CommittedToSell(p, symbol) then (p, Reservation(false, 0, power))
      else (p.(holds := p.holds[signal := Hold(symbol, side, quantity, 0)]), Reservation(true, 0, power))
    else
      var cost := BuyCost(p, symbol, quantity, limitPrice);
      if cost.None? || cost.value > power then (p, Reservation(false, 0, power))
      else (p.(holds := p.holds[signal := Hold(symbol, side, quantity, cost.value)]),
            Reservation(true, cost.value, power - cost.value))
  }

  // ----- valuation -----------------------------------------------------------------------

  function MarkPrice(p: Account, symbol: Symbol): int
    requires symbol in p.positions
  {
    if symbol in p.marks then p.marks[symbol] else p.positions[symbol].averageCost
  }

  function MarketValues(p: Account): map<Symbol, int> {
    map s | s in p.positions :: MarkPrice(p, s) * p.positions[s].quantity
  }

  function GrossValues(p: Account): map<Symbol, int> {
    map s | s in p.positions :: Abs(MarkPrice(p, s) * p.positions[s].quantity)
  }

  function UnrealizedPnls(p: Account): map<Symbol, int> {
    map s | s in p.positions :: (MarkPrice(p, s) - p.positions[s].averageCost) * p.positions[s].quantity
  }

  ghost function TotalEquity(p: Account): int {
    p.cash + Sum(MarketValues(p))
  }

  datatype Valued = Valued(position: Position, unrealizedPnl: int)

  datatype Snapshot = Snapshot(runId: nat, asOf: int, cash: int, reserved: int, buyingPower: int,
                               pendingOrders: map<nat, PendingOrder>, positions: map<Symbol, Valued>,
                               netExposure: int, grossExposure: int, totalEquity: int)

  function ValuedPositions(p: Account): map<Symbol, Valued> {
    map s | s in p.positions :: Valued(p.positions[s], UnrealizedPnls(p)[s])
  }

  ghost function SnapshotOf(p: Account, asOf: int): Snapshot {
    Snapshot(p.runId, asOf, p.cash, ReservedTotal(p), BuyingPower(p), p.openOrders, ValuedPositions(p),
             Sum(MarketValues(p)), Sum(GrossValues(p)), TotalEquity(p))
  }
}
