/** The values that travel between components. Prices and money are whole millionths. */
module Domain {

  type Symbol = string

  datatype Option<+T> = None | Some(value: T) {
    function ValueOr(default: T): T {
      if Some? then value else default
    }
  }

  datatype Result<+T, +E> = Ok(value: T) | Err(error: E)

  // What a strategy asks for.
  datatype Side = BuySide | SellSide

  datatype OrderSide = Buy | Sell
  datatype SignalSide = BuySignal | SellSignal | Flat
  datatype OrderType = Market | Limit
  datatype OrderStatus =
    New | PendingRisk | Rejected | Approved | Working | PartiallyFilled | Filled | Cancelled | Expired

  // FillStatus::Filled and FillStatus::PartiallyFilled
  datatype FillStatus = Complete | Partial

  datatype Signal = Signal(id: nat, symbol: Symbol, side: SignalSide, quantity: Option<int>,
                           orderType: Option<OrderType>, limitPrice: Option<int>)

  datatype Order = Order(id: nat, runId: nat, originSignal: nat, symbol: Symbol, side: OrderSide,
                         orderType: OrderType, limitPrice: Option<int>, quantity: int,
                         status: OrderStatus, filledQuantity: int, averageFillPrice: Option<int>,
                         createdAt: int, updatedAt: int)

  // `quantity` is signed: positive bought, negative sold.
  datatype Fill = Fill(id: nat, orderId: nat, runId: nat, symbol: Symbol, quantity: int, price: int,
                       fees: int, slippage: int, filledAt: int, status: FillStatus, sequence: nat)

  datatype MarketEvent = MarketEvent(symbol: Symbol, exchangeTime: int, price: Option<int>,
                                     bid: Option<int>, ask: Option<int>, open: Option<int>)

  // One event on the bus; a risk decision's content is informational.
  datatype Event =
    | MarketData(market: MarketEvent)
    | SignalMade(signal: Signal)
    | OrderUpdate(order: Order)
    | Execution(fill: Fill)
    | RiskDecided

  /**
   * Fee settings. `rate` and `hold` stand for Decimal::scaled_by with the basis-point rate and
   * with one plus the market-buy buffer; doubles enter the source only through them.
   */
  datatype FeeModel = FeeModel(perTrade: int, perShare: int, rate: int -> int, hold: int -> int) {
    ghost predicate Valid() {
      && perTrade >= 0 && perShare >= 0
      && Scaling(rate) && Scaling(hold)
    }
  }

  /** What is relied on about rounding a product with a non-negative factor. */
  ghost predicate Scaling(f: int -> int) {
    && f(0) == 0
    && forall a, b :: a <= b ==> f(a) <= f(b)
  }
}
