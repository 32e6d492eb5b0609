/** Every member name and enumerator spelling of the wire format, and that no two are the same. */
module WireWords {
  datatype Word =
    | Schema | Origin | Sequence | Type | EnqueuedAt | Payload
    | Symbol | ExchangeTime | IngestTime | Price | Bid | Ask
    | Open | High | Low | Size | Volume | Id
    | StrategyId | Side | CreatedAt | RequestedQuantity | TargetExposure | Confidence
    | Metadata | OrderType | LimitPrice | RunId | OriginSignal | Quantity
    | Status | UpdatedAt | FilledQuantity | AverageFillPrice | RejectReason | OrderId
    | FillPrice | Fees | Slippage | FilledAt | SignalId | DecidedAt
    | Outcome | ApprovedQuantity | Reason | Checks | Policy | Passed
    | Detail | Limit | Observed | MarketData | Signal | Order
    | Fill | RiskDecision | Unknown | Trade | Quote | Bar
    | Buy | Sell | Flat | Market | New | PendingRisk
    | Rejected | Approved | Working | PartiallyFilled | Filled | Cancelled
    | Expired | Resized

  function Spelled(w: Word): string {
    match w
    case Schema => "schema"
    case Origin => "origin"
    case Sequence => "sequence"
    case Type => "type"
    case EnqueuedAt => "enqueued_at"
    case Payload => "payload"
    case Symbol => "symbol"
    case ExchangeTime => "exchange_time"
    case IngestTime => "ingest_time"
    case Price => "price"
    case Bid => "bid"
    case Ask => "ask"
    case Open => "open"
    case High => "high"
    case Low => "low"
    case Size => "size"
    case Volume => "volume"
    case Id => "id"
    case StrategyId => "strategy_id"
    case Side => "side"
    case CreatedAt => "created_at"
    case RequestedQuantity => "requested_quantity"
    case TargetExposure => "target_exposure"
    case Confidence => "confidence"
    case Metadata => "metadata"
    case OrderType => "order_type"
    case LimitPrice => "limit_price"
    case RunId => "run_id"
    case OriginSignal => "origin_signal"
    case Quantity => "quantity"
    case Status => "status"
    case UpdatedAt => "updated_at"
    case FilledQuantity => "filled_quantity"
    case AverageFillPrice => "average_fill_price"
    case RejectReason => "reject_reason"
    case OrderId => "order_id"
    case FillPrice => "fill_price"
    case Fees => "fees"
    case Slippage => "slippage"
    case FilledAt => "filled_at"
    case SignalId => "signal_id"
    case DecidedAt => "decided_at"
    case Outcome => "outcome"
    case ApprovedQuantity => "approved_quantity"
    case Reason => "reason"
    case Checks => "checks"
    case Policy => "policy"
    case Passed => "passed"
    case Detail => "detail"
    case Limit => "limit"
    case Observed => "observed"
    case MarketData => "market_data"
    case Signal => "signal"
    case Order => "order"
    case Fill => "fill"
    case RiskDecision => "risk_decision"
    case Unknown => "unknown"
    case Trade => "trade"
    case Quote => "quote"
    case Bar => "bar"
    case Buy => "buy"
    case Sell => "sell"
    case Flat => "flat"
    case Market => "market"
    case New => "new"
    case PendingRisk => "pending_risk"
    case Rejected => "rejected"
    case Approved => "approved"
    case Working => "working"
    case PartiallyFilled => "partially_filled"
    case Filled => "filled"
    case Cancelled => "cancelled"
    case Expired => "expired"
    case Resized => "resized"
  }

  // ----- no two words are spelled alike --------------------------------------------------

  /** The word spelled so, found by its length and its third characters from both ends. */
  function WordFor(s: string): Word {
    match |s|
    case 2 => Id
    case 3 => OfLength3(s[2], s[0])
    case 4 => OfLength4(s[2], s[1])
    case 5 => OfLength5(s[2], s[2])
    case 6 => OfLength6(s[2], s[3])
    case 7 => OfLength7(s[2], s[4])
    case 8 => OfLength8(s[2], s[5])
    case 9 => OfLength9(s[2], s[6])
    case 10 => OfLength10(s[2], s[7])
    case 11 => OfLength11(s[2], s[8])
    case 12 => PendingRisk
    case 13 => OfLength13(s[2], s[10])
    case 15 => OfLength15(s[2], s[12])
    case 16 => PartiallyFilled
    case 17 => ApprovedQuantity
    case 18 => OfLength18(s[2], s[15])
    case _ => Id
  }

  function OfLength3(a: char, b: char): Word {
    if a == 'd' && b == 'b' then Bid
    else if a == 'k' && b == 'a' then Ask
    else if a == 'w' && b == 'l' then Low
    else if a == 'r' && b == 'b' then Bar
    else if a == 'y' && b == 'b' then Buy
    else New
  }

  function OfLength4(a: char, b: char): Word {
    if a == 'p' && b == 'y' then Type
    else if a == 'e' && b == 'p' then Open
    else if a == 'g' && b == 'i' then High
    else if a == 'z' && b == 'i' then Size
    else if a == 'd' && b == 'i' then Side
    else if a == 'e' && b == 'e' then Fees
    else if a == 'l' && b == 'i' then Fill
    else if a == 'l' && b == 'e' then Sell
    else Flat
  }

  function OfLength5(a: char, b: char): Word {
    if a == 'i' && b == 'i' then Price
    else if a == 'm' && b == 'm' then Limit
    else if a == 'd' && b == 'd' then Order
    else if a == 'a' && b == 'a' then Trade
    else Quote
  }

  function OfLength6(a: char, b: char): Word {
    if a == 'h' && b == 'e' then Schema
    else if a == 'i' && b == 'g' then Origin
    else if a == 'm' && b == 'b' then Symbol
    else if a == 'l' && b == 'u' then Volume
    else if a == 'n' && b == '_' then RunId
    else if a == 'a' && b == 't' then Status
    else if a == 'a' && b == 's' then Reason
    else if a == 'e' && b == 'c' then Checks
    else if a == 'l' && b == 'i' then Policy
    else if a == 's' && b == 's' then Passed
    else if a == 't' && b == 'a' then Detail
    else if a == 'g' && b == 'n' then Signal
    else if a == 'r' && b == 'k' then Market
    else Filled
  }

  function OfLength7(a: char, b: char): Word {
    if a == 'y' && b == 'o' then Payload
    else if a == 't' && b == 'o' then Outcome
    else if a == 'k' && b == 'o' then Unknown
    else if a == 'r' && b == 'i' then Working
    else if a == 'p' && b == 'r' then Expired
    else Resized
  }

  function OfLength8(a: char, b: char): Word {
    if a == 'q' && b == 'n' then Sequence
    else if a == 't' && b == 'a' then Metadata
    else if a == 'a' && b == 'i' then Quantity
    else if a == 'd' && b == '_' then OrderId
    else if a == 'i' && b == 'a' then Slippage
    else if a == 's' && b == 'v' then Observed
    else if a == 'j' && b == 't' then Rejected
    else Approved
  }

  function OfLength9(a: char, b: char): Word {
    if a == 'l' && b == '_' then FilledAt
    else if a == 'g' && b == '_' then SignalId
    else Cancelled
  }

  function OfLength10(a: char, b: char): Word {
    if a == 'e' && b == '_' then CreatedAt
    else if a == 'n' && b == 'n' then Confidence
    else if a == 'd' && b == 'y' then OrderType
    else if a == 'd' && b == '_' then UpdatedAt
    else if a == 'l' && b == 'i' then FillPrice
    else DecidedAt
  }

  function OfLength11(a: char, b: char): Word {
    if a == 'q' && b == '_' then EnqueuedAt
    else if a == 'g' && b == 'i' then IngestTime
    else if a == 'r' && b == '_' then StrategyId
    else if a == 'm' && b == 'i' then LimitPrice
    else MarketData
  }

  function OfLength13(a: char, b: char): Word {
    if a == 'c' && b == 'i' then ExchangeTime
    else if a == 'i' && b == 'n' then OriginSignal
    else if a == 'j' && b == 's' then RejectReason
    else RiskDecision
  }

  function OfLength15(a: char, b: char): Word {
    if a == 'r' && b == 'u' then TargetExposure
    else FilledQuantity
  }

  function OfLength18(a: char, b: char): Word {
    if a == 'q' && b == 'i' then RequestedQuantity
    else AverageFillPrice
  }

  lemma Recognised1(w: Word)
    requires w.Id?
    ensures WordFor(Spelled(w)) == w
  {
    hide OfLength3, OfLength4, OfLength5, OfLength6, OfLength7, OfLength8, OfLength9, OfLength10, OfLength11,
         OfLength13, OfLength15, OfLength18;
  }

  lemma Recognised2(w: Word)
    requires w.Bid? || w.Ask? || w.Low?
    ensures WordFor(Spelled(w)) == w
  {
    hide OfLength4, OfLength5, OfLength6, OfLength7, OfLength8, OfLength9, OfLength10, OfLength11,
         OfLength13, OfLength15, OfLength18;
  }

  lemma Recognised3(w: Word)
    requires w.Bar? || w.Buy? || w.New?
    ensures WordFor(Spelled(w)) == w
  {
    hide OfLength4, OfLength5, OfLength6, OfLength7, OfLength8, OfLength9, OfLength10, OfLength11,
         OfLength13, OfLength15, OfLength18;
  }

  lemma Recognised4(w: Word)
    requires w.Type? || w.Open? || w.High?
    ensures WordFor(Spelled(w)) == w
  {
    hide OfLength3, OfLength5, OfLength6, OfLength7, OfLength8, OfLength9, OfLength10, OfLength11,
         OfLength13, OfLength15, OfLength18;
  }

  lemma Recognised5(w: Word)
    requires w.Size? || w.Side? || w.Fees?
    ensures WordFor(Spelled(w)) == w
  {
    hide OfLength3, OfLength5, OfLength6, OfLength7, OfLength8, OfLength9, OfLength10, OfLength11,
         OfLength13, OfLength15, OfLength18;
  }

  lemma Recognised6(w: Word)
    requires w.Fill? || w.Sell? || w.Flat?
    ensures WordFor(Spelled(w)) == w
  {
    hide OfLength3, OfLength5, OfLength6, OfLength7, OfLength8, OfLength9, OfLength10, OfLength11,
         OfLength13, OfLength15, OfLength18;
  }

  lemma Recognised7(w: Word)
    requires w.Price? || w.Limit? || w.Order?
    ensures WordFor(Spelled(w)) == w
  {
    hide OfLength3, OfLength4, OfLength6, OfLength7, OfLength8, OfLength9, OfLength10, OfLength11,
         OfLength13, OfLength15, OfLength18;
  }

  lemma Recognised8(w: Word)
    requires w.Trade? || w.Quote?
    ensures WordFor(Spelled(w)) == w
  {
    hide OfLength3, OfLength4, OfLength6, OfLength7, OfLength8, OfLength9, OfLength10, OfLength11,
         OfLength13, OfLength15, OfLength18;
  }

  lemma Recognised9(w: Word)
    requires w.Schema? || w.Origin? || w.Symbol?
    ensures WordFor(Spelled(w)) == w
  {
    hide OfLength3, OfLength4, OfLength5, OfLength7, OfLength8, OfLength9, OfLength10, OfLength11,
         OfLength13, OfLength15, OfLength18;
  }

  lemma Recognised10(w: Word)
    requires w.Volume? || w.RunId? || w.Status?
    ensures WordFor(Spelled(w)) == w
  {
    hide OfLength3, OfLength4, OfLength5, OfLength7, OfLength8, OfLength9, OfLength10, OfLength11,
         OfLength13, OfLength15, OfLength18;
  }

  lemma Recognised11(w: Word)
    requires w.Reason? || w.Checks? || w.Policy?
    ensures WordFor(Spelled(w)) == w
  {
    hide OfLength3, OfLength4, OfLength5, OfLength7, OfLength8, OfLength9, OfLength10, OfLength11,
         OfLength13, OfLength15, OfLength18;
  }

  lemma Recognised12(w: Word)
    requires w.Passed? || w.Detail? || w.Signal?
    ensures WordFor(Spelled(w)) == w
  {
    hide OfLength3, OfLength4, OfLength5, OfLength7, OfLength8, OfLength9, OfLength10, OfLength11,
         OfLength13, OfLength15, OfLength18;
  }

  lemma Recognised13(w: Word)
    requires w.Market? || w.Filled?
    ensures WordFor(Spelled(w)) == w
  {
    hide OfLength3, OfLength4, OfLength5, OfLength7, OfLength8, OfLength9, OfLength10, OfLength11,
         OfLength13, OfLength15, OfLength18;
  }

  lemma Recognised14(w: Word)
    requires w.Payload? || w.Outcome? || w.Unknown?
    ensures WordFor(Spelled(w)) == w
  {
    hide OfLength3, OfLength4, OfLength5, OfLength6, OfLength8, OfLength9, OfLength10, OfLength11,
         OfLength13, OfLength15, OfLength18;
  }

  lemma Recognised15(w: Word)
    requires w.Working? || w.Expired?
    ensures WordFor(Spelled(w)) == w
  {
    hide OfLength3, OfLength4, OfLength5, OfLength6, OfLength8, OfLength9, OfLength10, OfLength11,
         OfLength13, OfLength15, OfLength18;
  }

  lemma Recognised31(w: Word)
    requires w.Resized?
    ensures WordFor(Spelled(w)) == w
  {
    hide OfLength3, OfLength4, OfLength5, OfLength6, OfLength8, OfLength9, OfLength10, OfLength11,
         OfLength13, OfLength15, OfLength18;
  }

  lemma Recognised16(w: Word)
    requires w.Sequence? || w.Metadata? || w.Quantity?
    ensures WordFor(Spelled(w)) == w
  {
    hide OfLength3, OfLength4, OfLength5, OfLength6, OfLength7, OfLength9, OfLength10, OfLength11,
         OfLength13, OfLength15, OfLength18;
  }

  lemma Recognised17(w: Word)
    requires w.OrderId? || w.Slippage? || w.Observed?
    ensures WordFor(Spelled(w)) == w
  {
    hide OfLength3, OfLength4, OfLength5, OfLength6, OfLength7, OfLength9, OfLength10, OfLength11,
         OfLength13, OfLength15, OfLength18;
  }

  lemma Recognised18(w: Word)
    requires w.Rejected? || w.Approved?
    ensures WordFor(Spelled(w)) == w
  {
    hide OfLength3, OfLength4, OfLength5, OfLength6, OfLength7, OfLength9, OfLength10, OfLength11,
         OfLength13, OfLength15, OfLength18;
  }

  lemma Recognised19(w: Word)
    requires w.FilledAt? || w.SignalId? || w.Cancelled?
    ensures WordFor(Spelled(w)) == w
  {
    hide OfLength3, OfLength4, OfLength5, OfLength6, OfLength7, OfLength8, OfLength10, OfLength11,
         OfLength13, OfLength15, OfLength18;
  }

  lemma Recognised20(w: Word)
    requires w.CreatedAt? || w.Confidence? || w.OrderType?
    ensures WordFor(Spelled(w)) == w
  {
    hide OfLength3, OfLength4, OfLength5, OfLength6, OfLength7, OfLength8, OfLength9, OfLength11, OfLength13,
         OfLength15, OfLength18;
  }

  lemma Recognised21(w: Word)
    requires w.UpdatedAt? || w.FillPrice? || w.DecidedAt?
    ensures WordFor(Spelled(w)) == w
  {
    hide OfLength3, OfLength4, OfLength5, OfLength6, OfLength7, OfLength8, OfLength9, OfLength11, OfLength13,
         OfLength15, OfLength18;
  }

  lemma Recognised22(w: Word)
    requires w.EnqueuedAt? || w.IngestTime? || w.StrategyId?
    ensures WordFor(Spelled(w)) == w
  {
    hide OfLength3, OfLength4, OfLength5, OfLength6, OfLength7, OfLength8, OfLength9, OfLength10, OfLength13,
         OfLength15, OfLength18;
  }

  lemma Recognised23(w: Word)
    requires w.LimitPrice? || w.MarketData?
    ensures WordFor(Spelled(w)) == w
  {
    hide OfLength3, OfLength4, OfLength5, OfLength6, OfLength7, OfLength8, OfLength9, OfLength10, OfLength13,
         OfLength15, OfLength18;
  }

  lemma Recognised24(w: Word)
    requires w.PendingRisk?
    ensures WordFor(Spelled(w)) == w
  {
    hide OfLength3, OfLength4, OfLength5, OfLength6, OfLength7, OfLength8, OfLength9, OfLength10, OfLength11,
         OfLength13, OfLength15, OfLength18;
  }

  lemma Recognised25(w: Word)
    requires w.ExchangeTime? || w.OriginSignal? || w.RejectReason?
    ensures WordFor(Spelled(w)) == w
  {
    hide OfLength3, OfLength4, OfLength5, OfLength6, OfLength7, OfLength8, OfLength9, OfLength10, OfLength11,
         OfLength15, OfLength18;
  }

  lemma Recognised26(w: Word)
    requires w.RiskDecision?
    ensures WordFor(Spelled(w)) == w
  {
    hide OfLength3, OfLength4, OfLength5, OfLength6, OfLength7, OfLength8, OfLength9, OfLength10, OfLength11,
         OfLength15, OfLength18;
  }

  lemma Recognised27(w: Word)
    requires w.TargetExposure? || w.FilledQuantity?
    ensures WordFor(Spelled(w)) == w
  {
    hide OfLength3, OfLength4, OfLength5, OfLength6, OfLength7, OfLength8, OfLength9, OfLength10, OfLength11,
         OfLength13, OfLength18;
  }

  lemma Recognised28(w: Word)
    requires w.PartiallyFilled?
    ensures WordFor(Spelled(w)) == w
  {
    hide OfLength3, OfLength4, OfLength5, OfLength6, OfLength7, OfLength8, OfLength9, OfLength10, OfLength11,
         OfLength13, OfLength15, OfLength18;
  }

  lemma Recognised29(w: Word)
    requires w.ApprovedQuantity?
    ensures WordFor(Spelled(w)) == w
  {
    hide OfLength3, OfLength4, OfLength5, OfLength6, OfLength7, OfLength8, OfLength9, OfLength10, OfLength11,
         OfLength13, OfLength15, OfLength18;
  }

  lemma Recognised30(w: Word)
    requires w.RequestedQuantity? || w.AverageFillPrice?
    ensures WordFor(Spelled(w)) == w
  {
    hide OfLength3, OfLength4, OfLength5, OfLength6, OfLength7, OfLength8, OfLength9, OfLength10, OfLength11,
         OfLength13, OfLength15;
  }

  lemma Recognised(w: Word)
    ensures WordFor(Spelled(w)) == w
  {
    hide Spelled, WordFor;
    if w.Id? {
      Recognised1(w);
    } else if w.Bid? || w.Ask? || w.Low? {
      Recognised2(w);
    } else if w.Bar? || w.Buy? || w.New? {
      Recognised3(w);
    } else if w.Type? || w.Open? || w.High? {
      Recognised4(w);
    } else if w.Size? || w.Side? || w.Fees? {
      Recognised5(w);
    } else if w.Fill? || w.Sell? || w.Flat? {
      Recognised6(w);
    } else if w.Price? || w.Limit? || w.Order? {
      Recognised7(w);
    } else if w.Trade? || w.Quote? {
      Recognised8(w);
    } else if w.Schema? || w.Origin? || w.Symbol? {
      Recognised9(w);
    } else if w.Volume? || w.RunId? || w.Status? {
      Recognised10(w);
    } else if w.Reason? || w.Checks? || w.Policy? {
      Recognised11(w);
    } else if w.Passed? || w.Detail? || w.Signal? {
      Recognised12(w);
    } else if w.Market? || w.Filled? {
      Recognised13(w);
    } else if w.Payload? || w.Outcome? || w.Unknown? {
      Recognised14(w);
    } else if w.Working? || w.Expired? {
      Recognised15(w);
    } else if w.Resized? {
      Recognised31(w);
    } else if w.Sequence? || w.Metadata? || w.Quantity? {
      Recognised16(w);
    } else if w.OrderId? || w.Slippage? || w.Observed? {
      Recognised17(w);
    } else if w.Rejected? || w.Approved? {
      Recognised18(w);
    } else if w.FilledAt? || w.SignalId? || w.Cancelled? {
      Recognised19(w);
    } else if w.CreatedAt? || w.Confidence? || w.OrderType? {
      Recognised20(w);
    } else if w.UpdatedAt? || w.FillPrice? || w.DecidedAt? {
      Recognised21(w);
    } else if w.EnqueuedAt? || w.IngestTime? || w.StrategyId? {
      Recognised22(w);
    } else if w.LimitPrice? || w.MarketData? {
      Recognised23(w);
    } else if w.PendingRisk? {
      Recognised24(w);
    } else if w.ExchangeTime? || w.OriginSignal? || w.RejectReason? {
      Recognised25(w);
    } else if w.RiskDecision? {
      Recognised26(w);
    } else if w.TargetExposure? || w.FilledQuantity? {
      Recognised27(w);
    } else if w.PartiallyFilled? {
      Recognised28(w);
    } else if w.ApprovedQuantity? {
      Recognised29(w);
    } else {
      Recognised30(w);
    }
  }

  lemma SpellingTellsWord(a: Word, b: Word)
    requires Spelled(a) == Spelled(b)
    ensures a == b
  {
    hide Spelled, WordFor;
    Recognised(a);
    Recognised(b);
  }
}
