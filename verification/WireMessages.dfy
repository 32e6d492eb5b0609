/** The events that travel on the wire, field by field, and how their enumerators are spelled. */
module WireMessages {
  import opened Domain
  import opened MachineIntegers
  import W = WireWords

  datatype MarketEventType = Unknown | Trade | Quote | Bar | Status
  datatype RiskOutcome = Passed | Resized | Refused
  datatype EventType = MarketEvents | SignalEvents | OrderEvents | FillEvents | DecisionEvents

  // Amounts are millionths, times are nanoseconds since 1970.
  datatype MarketMessage = MarketMessage(
    symbol: string, exchangeTime: Long, ingestTime: Long, kind: MarketEventType,
    price: Option<Long>, bid: Option<Long>, ask: Option<Long>, open: Option<Long>, high: Option<Long>,
      low: Option<Long>,
    size: Option<Long>, volume: Option<Long>, sequence: ULong)

  datatype SignalMessage = SignalMessage(
    id: ULong, strategyId: string, symbol: string, side: SignalSide, createdAt: Long,
    requestedQuantity: Option<Long>, targetExposure: Option<real>, confidence: Option<real>,
    metadata: map<string, string>, orderType: Option<OrderType>, limitPrice: Option<Long>)

  datatype OrderMessage = OrderMessage(
    id: ULong, runId: ULong, originSignal: ULong, strategyId: string, symbol: string, side: OrderSide, kind: OrderType,
    quantity: Long, limitPrice: Option<Long>, status: OrderStatus, createdAt: Long, updatedAt: Long,
    filledQuantity: Long, averageFillPrice: Option<Long>, rejectReason: Option<string>)

  datatype FillMessage = FillMessage(
    id: ULong, orderId: ULong, runId: ULong, symbol: string, filledQuantity: Long, fillPrice: Long, fees: Long,
    slippage: Long, filledAt: Long, status: FillStatus, sequence: UInt)

  datatype CheckMessage = CheckMessage(
    policy: string, passed: bool, detail: string, limit: Option<string>, observed: Option<string>)

  datatype DecisionMessage = DecisionMessage(
    id: ULong, runId: ULong, signalId: ULong, decidedAt: Long, symbol: string, side: SignalSide, strategyId: string,
    outcome: RiskOutcome, requestedQuantity: Long, approvedQuantity: Long, reason: Option<string>,
    checks: seq<CheckMessage>, orderId: Option<ULong>)

  datatype Payload =
    | MarketPayload(market: MarketMessage)
    | SignalPayload(signal: SignalMessage)
    | OrderPayload(order: OrderMessage)
    | FillPayload(fill: FillMessage)
    | DecisionPayload(decision: DecisionMessage)

  /** The event's type and its payload are set independently by whoever publishes it. */
  datatype Envelope = Envelope(origin: string, sequence: ULong, kind: EventType, enqueuedAt: Long, payload: Payload)

  predicate PayloadMatches(e: Envelope) {
    match e.kind
    case MarketEvents => e.payload.MarketPayload?
    case SignalEvents => e.payload.SignalPayload?
    case OrderEvents => e.payload.OrderPayload?
    case FillEvents => e.payload.FillPayload?
    case DecisionEvents => e.payload.DecisionPayload?
  }

  // ----- enumerators ---------------------------------------------------------------------

  function MarketEventWord(t: MarketEventType): W.Word {
    match t
    case Unknown => W.Unknown
    case Trade => W.Trade
    case Quote => W.Quote
    case Bar => W.Bar
    case Status => W.Status
  }

  function SideWord(s: SignalSide): W.Word {
    match s
    case BuySignal => W.Buy
    case SellSignal => W.Sell
    case Flat => W.Flat
  }

  function OrderSideWord(s: OrderSide): W.Word {
    match s
    case Buy => W.Buy
    case Sell => W.Sell
  }

  function OrderTypeWord(t: OrderType): W.Word {
    match t
    case Market => W.Market
    case Limit => W.Limit
  }

  function OrderStatusWord(s: OrderStatus): W.Word {
    match s
    case New => W.New
    case PendingRisk => W.PendingRisk
    case Rejected => W.Rejected
    case Approved => W.Approved
    case Working => W.Working
    case PartiallyFilled => W.PartiallyFilled
    case Filled => W.Filled
    case Cancelled => W.Cancelled
    case Expired => W.Expired
  }

  function FillStatusWord(s: FillStatus): W.Word {
    match s
    case Complete => W.Filled
    case Partial => W.PartiallyFilled
  }

  function OutcomeWord(o: RiskOutcome): W.Word {
    match o
    case Passed => W.Approved
    case Resized => W.Resized
    case Refused => W.Rejected
  }

  function EventTypeWord(t: EventType): W.Word {
    match t
    case MarketEvents => W.MarketData
    case SignalEvents => W.Signal
    case OrderEvents => W.Order
    case FillEvents => W.Fill
    case DecisionEvents => W.RiskDecision
  }

  const MARKET_EVENT_TYPES := [Unknown, Trade, Quote, Bar, Status]
  const SIGNAL_SIDES := [BuySignal, SellSignal, Flat]
  const ORDER_SIDES := [Buy, Sell]
  const ORDER_TYPES := [Market, Limit]
  const ORDER_STATUSES :=
    [New, PendingRisk, Rejected, Approved, Working, PartiallyFilled, Filled, Cancelled, Expired]
  const FILL_STATUSES := [Complete, Partial]
  const RISK_OUTCOMES := [Passed, Resized, Refused]
  const EVENT_TYPES := [MarketEvents, SignalEvents, OrderEvents, FillEvents, DecisionEvents]

  /** The reverse direction: a scan over the enumerators for the one spelled so. */
  function EnumFrom<E>(text: string, all: seq<E>, word: E -> W.Word): Option<E> {
    if all == [] then None
    else if W.Spelled(word(all[0])) == text then Some(all[0])
    else EnumFrom(text, all[1..], word)
  }

  /** Enumerators with words of their own come back from their spelling. */
  lemma {:induction false} EnumComesBack<E>(all: seq<E>, word: E -> W.Word, k: nat)
    requires k < |all| && forall i :: 0 <= i < k ==> word(all[i]) != word(all[k])
    ensures EnumFrom(W.Spelled(word(all[k])), all, word) == Some(all[k])
    decreases k
  {
    hide W.Spelled;
    if k == 0 {
    } else {
      if W.Spelled(word(all[0])) == W.Spelled(word(all[k])) { W.SpellingTellsWord(word(all[0]), word(all[k])); }
      EnumComesBack(all[1..], word, k - 1);
    }
  }
}
