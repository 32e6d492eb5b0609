/** The wire format as other readers see it: the names and the texts of a message, member by member. */
module WireText {
  import opened DecimalText
  import opened Domain
  import opened Json
  import opened JsonWriting
  import opened MachineIntegers
  import opened WireCodec
  import opened WireMessages
  import opened WireProtocol
  import opened WireWriting
  import W = WireWords

  /** The member of an object with this name: its value, or that there is none. */
  ghost predicate Says(v: Value, name: string, member: Option<Value>) {
    v.Object? && if member.Some? then name in v.members && v.members[name] == member.value else name !in v.members
  }

  // ----- the values a member can have ----------------------------------------------------

  function Whole(n: int): Option<Value> {
    Some(Number(IntText(n)))
  }

  function OptWhole(n: Option<int>): Option<Value> {
    if n.Some? then Whole(n.value) else None
  }

  /** Millionths, as the shortest decimal of the amount. */
  function Amount(v: Long): Option<Value> {
    Some(Text(FormatOf(v, 6)))
  }

  function OptAmount(v: Option<Long>): Option<Value> {
    if v.Some? then Amount(v.value) else None
  }

  function Time(t: Long): Option<Value> {
    Some(Text(TimeText(t)))
  }

  function Word(s: string): Option<Value> {
    Some(Text(s))
  }

  function OptWord(s: Option<string>): Option<Value> {
    if s.Some? then Word(s.value) else None
  }

  function OptDouble(k: Doubles, v: Option<real>): Option<Value> {
    if v.Some? then Some(Number(k.show(v.value))) else None
  }

  // ----- the enumerators -----------------------------------------------------------------

  function MarketEventText(t: MarketEventType): string {
    match t
    case Unknown => "unknown"
    case Trade => "trade"
    case Quote => "quote"
    case Bar => "bar"
    case Status => "status"
  }

  function SignalSideText(s: SignalSide): string {
    match s
    case BuySignal => "buy"
    case SellSignal => "sell"
    case Flat => "flat"
  }

  function OrderSideText(s: OrderSide): string {
    match s
    case Buy => "buy"
    case Sell => "sell"
  }

  function OrderTypeText(t: OrderType): string {
    match t
    case Market => "market"
    case Limit => "limit"
  }

  function OrderStatusText(s: OrderStatus): string {
    match s
    case New => "new"
    case PendingRisk => "pending_risk"
    case Rejected => "rejected"
    case Approved => "approved"
    case Working => "working"
    case PartiallyFilled => "partially_filled"
    case Filled => "filled"
    case Cancelled => "cancelled"
    case Expired => "expired"
  }

  function FillStatusText(s: FillStatus): string {
    match s
    case Complete => "filled"
    case Partial => "partially_filled"
  }

  function OutcomeText(o: RiskOutcome): string {
    match o
    case Passed => "approved"
    case Resized => "resized"
    case Refused => "rejected"
  }

  function EventTypeText(t: EventType): string {
    match t
    case MarketEvents => "market_data"
    case SignalEvents => "signal"
    case OrderEvents => "order"
    case FillEvents => "fill"
    case DecisionEvents => "risk_decision"
  }

  // ----- the words -----------------------------------------------------------------------

  lemma Spellings1()
    ensures W.Spelled(W.Schema) == "schema"
         && W.Spelled(W.Origin) == "origin"
         && W.Spelled(W.Sequence) == "sequence"
         && W.Spelled(W.Type) == "type"
         && W.Spelled(W.EnqueuedAt) == "enqueued_at"
  {
  }

  lemma Spellings2()
    ensures W.Spelled(W.Payload) == "payload"
         && W.Spelled(W.Symbol) == "symbol"
         && W.Spelled(W.ExchangeTime) == "exchange_time"
         && W.Spelled(W.IngestTime) == "ingest_time"
         && W.Spelled(W.Price) == "price"
  {
  }

  lemma Spellings3()
    ensures W.Spelled(W.Bid) == "bid"
         && W.Spelled(W.Ask) == "ask"
         && W.Spelled(W.Open) == "open"
         && W.Spelled(W.High) == "high"
         && W.Spelled(W.Low) == "low"
  {
  }

  lemma Spellings4()
    ensures W.Spelled(W.Size) == "size"
         && W.Spelled(W.Volume) == "volume"
         && W.Spelled(W.Id) == "id"
         && W.Spelled(W.StrategyId) == "strategy_id"
         && W.Spelled(W.Side) == "side"
  {
  }

  lemma Spellings5()
    ensures W.Spelled(W.CreatedAt) == "created_at"
         && W.Spelled(W.RequestedQuantity) == "requested_quantity"
         && W.Spelled(W.TargetExposure) == "target_exposure"
         && W.Spelled(W.Confidence) == "confidence"
  {
  }

  lemma Spellings6()
    ensures W.Spelled(W.Metadata) == "metadata"
         && W.Spelled(W.OrderType) == "order_type"
         && W.Spelled(W.LimitPrice) == "limit_price"
         && W.Spelled(W.RunId) == "run_id"
  {
  }

  lemma Spellings7()
    ensures W.Spelled(W.OriginSignal) == "origin_signal"
         && W.Spelled(W.Quantity) == "quantity"
         && W.Spelled(W.Status) == "status"
         && W.Spelled(W.UpdatedAt) == "updated_at"
  {
  }

  lemma Spellings8()
    ensures W.Spelled(W.FilledQuantity) == "filled_quantity"
         && W.Spelled(W.AverageFillPrice) == "average_fill_price"
         && W.Spelled(W.RejectReason) == "reject_reason"
         && W.Spelled(W.OrderId) == "order_id"
  {
  }

  lemma Spellings9()
    ensures W.Spelled(W.FillPrice) == "fill_price"
         && W.Spelled(W.Fees) == "fees"
         && W.Spelled(W.Slippage) == "slippage"
  {
  }

  lemma Spellings10()
    ensures W.Spelled(W.FilledAt) == "filled_at"
         && W.Spelled(W.SignalId) == "signal_id"
         && W.Spelled(W.DecidedAt) == "decided_at"
  {
  }

  lemma Spellings11()
    ensures W.Spelled(W.Outcome) == "outcome"
         && W.Spelled(W.ApprovedQuantity) == "approved_quantity"
         && W.Spelled(W.Reason) == "reason"
  {
  }

  lemma Spellings12()
    ensures W.Spelled(W.Checks) == "checks"
         && W.Spelled(W.Policy) == "policy"
         && W.Spelled(W.Passed) == "passed"
  {
  }

  lemma Spellings13()
    ensures W.Spelled(W.Detail) == "detail"
         && W.Spelled(W.Limit) == "limit"
         && W.Spelled(W.Observed) == "observed"
  {
  }

  lemma Spellings14()
    ensures W.Spelled(W.MarketData) == "market_data"
         && W.Spelled(W.Signal) == "signal"
         && W.Spelled(W.Order) == "order"
  {
  }

  lemma Spellings15()
    ensures W.Spelled(W.Fill) == "fill"
         && W.Spelled(W.RiskDecision) == "risk_decision"
  {
  }

  lemma Spellings16()
    ensures W.Spelled(W.Unknown) == "unknown"
         && W.Spelled(W.Trade) == "trade"
  {
  }

  lemma Spellings17()
    ensures W.Spelled(W.Quote) == "quote"
         && W.Spelled(W.Bar) == "bar"
  {
  }

  lemma Spellings18()
    ensures W.Spelled(W.Buy) == "buy"
         && W.Spelled(W.Sell) == "sell"
  {
  }

  lemma Spellings19()
    ensures W.Spelled(W.Flat) == "flat"
         && W.Spelled(W.Market) == "market"
  {
  }

  lemma Spellings20()
    ensures W.Spelled(W.New) == "new"
         && W.Spelled(W.PendingRisk) == "pending_risk"
  {
  }

  lemma Spellings21()
    ensures W.Spelled(W.Rejected) == "rejected"
         && W.Spelled(W.Approved) == "approved"
  {
  }

  lemma Spellings22()
    ensures W.Spelled(W.Working) == "working"
         && W.Spelled(W.PartiallyFilled) == "partially_filled"
  {
  }

  lemma Spellings23()
    ensures W.Spelled(W.Filled) == "filled"
         && W.Spelled(W.Cancelled) == "cancelled"
  {
  }

  lemma Spellings24()
    ensures W.Spelled(W.Expired) == "expired"
         && W.Spelled(W.Resized) == "resized"
  {
  }

  lemma SignalSideIsSpelled(x: SignalSide)
    ensures W.Spelled(SideWord(x)) == SignalSideText(x)
  {
    hide W.Spelled;
    Spellings18();
    Spellings19();
  }

  lemma OrderSideIsSpelled(x: OrderSide)
    ensures W.Spelled(OrderSideWord(x)) == OrderSideText(x)
  {
    hide W.Spelled;
    Spellings18();
  }

  lemma OrderTypeIsSpelled(x: OrderType)
    ensures W.Spelled(OrderTypeWord(x)) == OrderTypeText(x)
  {
    hide W.Spelled;
    Spellings13();
    Spellings19();
  }

  lemma OrderStatusIsSpelled(x: OrderStatus)
    ensures W.Spelled(OrderStatusWord(x)) == OrderStatusText(x)
  {
    hide W.Spelled;
    Spellings20();
    Spellings21();
    Spellings22();
    Spellings23();
    Spellings24();
  }

  lemma FillStatusIsSpelled(x: FillStatus)
    ensures W.Spelled(FillStatusWord(x)) == FillStatusText(x)
  {
    hide W.Spelled;
    Spellings22();
    Spellings23();
  }

  lemma MarketEventIsSpelled(x: MarketEventType)
    ensures W.Spelled(MarketEventWord(x)) == MarketEventText(x)
  {
    hide W.Spelled;
    Spellings7();
    Spellings16();
    Spellings17();
  }

  lemma OutcomeIsSpelled(x: RiskOutcome)
    ensures W.Spelled(OutcomeWord(x)) == OutcomeText(x)
  {
    hide W.Spelled;
    Spellings21();
    Spellings24();
  }

  lemma EventTypeIsSpelled(x: EventType)
    ensures W.Spelled(EventTypeWord(x)) == EventTypeText(x)
  {
    hide W.Spelled;
    Spellings14();
    Spellings15();
  }

  // ----- the members of each payload -----------------------------------------------------

  /** A field written under a word is the member of that name. */
  lemma FieldSays(fields: seq<Field>, i: nat, name: string)
    requires NoRepeats(fields) && i < |fields| && W.Spelled(fields[i].word) == name
    ensures Says(ValueOf(DObject(Present(fields))), name, Meaning(fields[i].doc))
  {
    hide W.Spelled, ValueOf, Present, NoRepeats, Meaning;
    FieldIsFound(fields, i);
    ObjectValue(Present(fields));
  }

  lemma DocsMean(n: int, v: Long, t: string)
    ensures Meaning(Some(IntDoc(n))) == Whole(n)
    ensures Meaning(Some(DecDoc(v))) == Amount(v)
    ensures Meaning(Some(DText(t))) == Word(t)
  {
  }

  lemma OptionsMean(n: Option<int>, v: Option<Long>, t: Option<string>)
    ensures Meaning(OptInt(n)) == OptWhole(n)
    ensures Meaning(OptDec(v)) == OptAmount(v)
    ensures Meaning(OptText(t)) == OptWord(t)
  {
  }

  /** The metadata object: every key with its text, in whatever order they are written. */
  lemma MetadataReads(m: map<string, string>, keys: seq<string>)
    requires Lists(keys, m)
    ensures Meaning(Some(DObject(MetadataMembers(m, keys)))) == Some(Object(map x | x in m :: Text(m[x])))
  {
    hide MetadataMembers, MapOf;
    MetadataIsWritten(m, keys);
    ObjectValue(MetadataMembers(m, keys));
    assert MapOf(MetadataMembers(m, keys)) == map x | x in m :: Text(m[x]);
  }

  /** A market event. */
  ghost predicate ShowsMarket(v: Value, e: MarketMessage) {
    ShowsMarket1(v, e) && ShowsMarket2(v, e)
  }

  ghost predicate ShowsMarket1(v: Value, e: MarketMessage) {
    && Says(v, "symbol", Word(e.symbol))
    && Says(v, "exchange_time", Time(e.exchangeTime))
    && Says(v, "ingest_time", Time(e.ingestTime))
    && Says(v, "type", Word(MarketEventText(e.kind)))
    && Says(v, "price", OptAmount(e.price))
    && Says(v, "bid", OptAmount(e.bid))
    && Says(v, "ask", OptAmount(e.ask))
  }

  ghost predicate ShowsMarket2(v: Value, e: MarketMessage) {
    && Says(v, "open", OptAmount(e.open))
    && Says(v, "high", OptAmount(e.high))
    && Says(v, "low", OptAmount(e.low))
    && Says(v, "size", OptWhole(e.size))
    && Says(v, "volume", OptWhole(e.volume))
    && Says(v, "sequence", Whole(e.sequence))
  }

  lemma MarketIsShown1(e: MarketMessage)
    ensures ShowsMarket1(ValueOf(MarketDoc(e)), e)
  {
    hide MapOf, ValuesOf, Present, NoRepeats, Says, TimeText, FormatOf, IntText, W.Spelled;
    var fields := MarketFields(e);
    MarketFieldsDiffer(e);
    Spellings1();
    Spellings2();
    Spellings3();
    MarketEventIsSpelled(e.kind);
    FieldSays(fields, 0, "symbol");
    FieldSays(fields, 1, "exchange_time");
    FieldSays(fields, 2, "ingest_time");
    FieldSays(fields, 3, "type");
    FieldSays(fields, 4, "price");
    FieldSays(fields, 5, "bid");
    FieldSays(fields, 6, "ask");
  }

  lemma MarketIsShown2(e: MarketMessage)
    ensures ShowsMarket2(ValueOf(MarketDoc(e)), e)
  {
    hide MapOf, ValuesOf, Present, NoRepeats, Says, TimeText, FormatOf, IntText, W.Spelled;
    var fields := MarketFields(e);
    MarketFieldsDiffer(e);
    Spellings1();
    Spellings3();
    Spellings4();
    FieldSays(fields, 7, "open");
    FieldSays(fields, 8, "high");
    FieldSays(fields, 9, "low");
    FieldSays(fields, 10, "size");
    FieldSays(fields, 11, "volume");
    FieldSays(fields, 12, "sequence");
  }

  lemma MarketIsShown(e: MarketMessage)
    ensures ShowsMarket(ValueOf(MarketDoc(e)), e)
  {
    hide ValueOf, MarketDoc, ShowsMarket1, ShowsMarket2;
    MarketIsShown1(e);
    MarketIsShown2(e);
  }

  /** A signal: its side is "buy", "sell" or "flat" as it is; doubles and metadata are named like the rest. */
  ghost predicate ShowsSignal(v: Value, k: Doubles, e: SignalMessage) {
    ShowsSignal1(v, k, e) && ShowsSignal2(v, k, e)
  }

  ghost predicate ShowsSignal1(v: Value, k: Doubles, e: SignalMessage) {
    && Says(v, "id", Whole(e.id))
    && Says(v, "strategy_id", Word(e.strategyId))
    && Says(v, "symbol", Word(e.symbol))
    && Says(v, "side", Word(SignalSideText(e.side)))
    && Says(v, "created_at", Time(e.createdAt))
    && Says(v, "requested_quantity", OptWhole(e.requestedQuantity))
    && Says(v, "target_exposure", OptDouble(k, e.targetExposure))
  }

  ghost predicate ShowsSignal2(v: Value, k: Doubles, e: SignalMessage) {
    && Says(v, "confidence", OptDouble(k, e.confidence))
    && Says(v, "metadata", Some(Object(map x | x in e.metadata :: Text(e.metadata[x]))))
    && Says(v, "order_type", if e.orderType.Some? then Word(OrderTypeText(e.orderType.value)) else None)
    && Says(v, "limit_price", OptAmount(e.limitPrice))
  }

  lemma SignalIsShown1(k: Doubles, e: SignalMessage, keys: seq<string>)
    requires Lists(keys, e.metadata)
    ensures ShowsSignal1(ValueOf(SignalDoc(k, e, keys)), k, e)
  {
    hide MapOf, ValuesOf, Present, NoRepeats, Says, TimeText, FormatOf, IntText, W.Spelled, MetadataMembers;
    var fields := SignalFields(k, e, keys);
    SignalFieldsDiffer(k, e, keys);
    Spellings2();
    Spellings4();
    Spellings5();
    SignalSideIsSpelled(e.side);
    FieldSays(fields, 0, "id");
    FieldSays(fields, 1, "strategy_id");
    FieldSays(fields, 2, "symbol");
    FieldSays(fields, 3, "side");
    FieldSays(fields, 4, "created_at");
    FieldSays(fields, 5, "requested_quantity");
    FieldSays(fields, 6, "target_exposure");
  }

  lemma SignalIsShown2(k: Doubles, e: SignalMessage, keys: seq<string>)
    requires Lists(keys, e.metadata)
    ensures ShowsSignal2(ValueOf(SignalDoc(k, e, keys)), k, e)
  {
    hide MapOf, ValuesOf, Present, NoRepeats, Says, TimeText, FormatOf, IntText, W.Spelled, MetadataMembers;
    var fields := SignalFields(k, e, keys);
    SignalFieldsDiffer(k, e, keys);
    Spellings5();
    Spellings6();
    if e.orderType.Some? { OrderTypeIsSpelled(e.orderType.value); }
    MetadataReads(e.metadata, keys);
    FieldSays(fields, 7, "confidence");
    FieldSays(fields, 8, "metadata");
    FieldSays(fields, 9, "order_type");
    FieldSays(fields, 10, "limit_price");
  }

  lemma SignalIsShown(k: Doubles, e: SignalMessage, keys: seq<string>)
    requires Lists(keys, e.metadata)
    ensures ShowsSignal(ValueOf(SignalDoc(k, e, keys)), k, e)
  {
    hide ValueOf, SignalDoc, ShowsSignal1, ShowsSignal2;
    SignalIsShown1(k, e, keys);
    SignalIsShown2(k, e, keys);
  }

  /** An order. */
  ghost predicate ShowsOrder(v: Value, e: OrderMessage) {
    ShowsOrder1(v, e) && ShowsOrder2(v, e)
  }

  ghost predicate ShowsOrder1(v: Value, e: OrderMessage) {
    && Says(v, "id", Whole(e.id))
    && Says(v, "run_id", Whole(e.runId))
    && Says(v, "origin_signal", Whole(e.originSignal))
    && Says(v, "strategy_id", Word(e.strategyId))
    && Says(v, "symbol", Word(e.symbol))
    && Says(v, "side", Word(OrderSideText(e.side)))
    && Says(v, "type", Word(OrderTypeText(e.kind)))
  }

  ghost predicate ShowsOrder2(v: Value, e: OrderMessage) {
    && Says(v, "quantity", Whole(e.quantity))
    && Says(v, "limit_price", OptAmount(e.limitPrice))
    && Says(v, "status", Word(OrderStatusText(e.status)))
    && Says(v, "created_at", Time(e.createdAt))
    && Says(v, "updated_at", Time(e.updatedAt))
    && Says(v, "filled_quantity", Whole(e.filledQuantity))
    && Says(v, "average_fill_price", OptAmount(e.averageFillPrice))
    && Says(v, "reject_reason", OptWord(e.rejectReason))
  }

  lemma OrderIsShown1(e: OrderMessage)
    ensures ShowsOrder1(ValueOf(OrderDoc(e)), e)
  {
    hide MapOf, ValuesOf, Present, NoRepeats, Says, TimeText, FormatOf, IntText, W.Spelled;
    var fields := OrderFields(e);
    OrderFieldsDiffer(e);
    Spellings1();
    Spellings2();
    Spellings4();
    Spellings6();
    Spellings7();
    OrderSideIsSpelled(e.side);
    OrderTypeIsSpelled(e.kind);
    FieldSays(fields, 0, "id");
    FieldSays(fields, 1, "run_id");
    FieldSays(fields, 2, "origin_signal");
    FieldSays(fields, 3, "strategy_id");
    FieldSays(fields, 4, "symbol");
    FieldSays(fields, 5, "side");
    FieldSays(fields, 6, "type");
  }

  lemma OrderIsShown2(e: OrderMessage)
    ensures ShowsOrder2(ValueOf(OrderDoc(e)), e)
  {
    hide MapOf, ValuesOf, Present, NoRepeats, Says, TimeText, FormatOf, IntText, W.Spelled;
    var fields := OrderFields(e);
    OrderFieldsDiffer(e);
    Spellings5();
    Spellings6();
    Spellings7();
    Spellings8();
    OrderStatusIsSpelled(e.status);
    FieldSays(fields, 7, "quantity");
    FieldSays(fields, 8, "limit_price");
    FieldSays(fields, 9, "status");
    FieldSays(fields, 10, "created_at");
    FieldSays(fields, 11, "updated_at");
    FieldSays(fields, 12, "filled_quantity");
    FieldSays(fields, 13, "average_fill_price");
    FieldSays(fields, 14, "reject_reason");
  }

  lemma OrderIsShown(e: OrderMessage)
    ensures ShowsOrder(ValueOf(OrderDoc(e)), e)
  {
    hide ValueOf, OrderDoc, ShowsOrder1, ShowsOrder2;
    OrderIsShown1(e);
    OrderIsShown2(e);
  }

  /** A fill. */
  ghost predicate ShowsFill(v: Value, e: FillMessage) {
    ShowsFill1(v, e) && ShowsFill2(v, e)
  }

  ghost predicate ShowsFill1(v: Value, e: FillMessage) {
    && Says(v, "id", Whole(e.id))
    && Says(v, "order_id", Whole(e.orderId))
    && Says(v, "run_id", Whole(e.runId))
    && Says(v, "symbol", Word(e.symbol))
    && Says(v, "filled_quantity", Whole(e.filledQuantity))
    && Says(v, "fill_price", Amount(e.fillPrice))
    && Says(v, "fees", Amount(e.fees))
  }

  ghost predicate ShowsFill2(v: Value, e: FillMessage) {
    && Says(v, "slippage", Amount(e.slippage))
    && Says(v, "filled_at", Time(e.filledAt))
    && Says(v, "status", Word(FillStatusText(e.status)))
    && Says(v, "sequence", Whole(e.sequence))
  }

  lemma FillIsShown1(e: FillMessage)
    ensures ShowsFill1(ValueOf(FillDoc(e)), e)
  {
    hide MapOf, ValuesOf, Present, NoRepeats, Says, TimeText, FormatOf, IntText, W.Spelled;
    var fields := FillFields(e);
    FillFieldsDiffer(e);
    Spellings2();
    Spellings4();
    Spellings6();
    Spellings8();
    Spellings9();
    FieldSays(fields, 0, "id");
    FieldSays(fields, 1, "order_id");
    FieldSays(fields, 2, "run_id");
    FieldSays(fields, 3, "symbol");
    FieldSays(fields, 4, "filled_quantity");
    FieldSays(fields, 5, "fill_price");
    FieldSays(fields, 6, "fees");
  }

  lemma FillIsShown2(e: FillMessage)
    ensures ShowsFill2(ValueOf(FillDoc(e)), e)
  {
    hide MapOf, ValuesOf, Present, NoRepeats, Says, TimeText, FormatOf, IntText, W.Spelled;
    var fields := FillFields(e);
    FillFieldsDiffer(e);
    Spellings1();
    Spellings7();
    Spellings9();
    Spellings10();
    FillStatusIsSpelled(e.status);
    FieldSays(fields, 7, "slippage");
    FieldSays(fields, 8, "filled_at");
    FieldSays(fields, 9, "status");
    FieldSays(fields, 10, "sequence");
  }

  lemma FillIsShown(e: FillMessage)
    ensures ShowsFill(ValueOf(FillDoc(e)), e)
  {
    hide ValueOf, FillDoc, ShowsFill1, ShowsFill2;
    FillIsShown1(e);
    FillIsShown2(e);
  }

  /** One check of a risk decision. */
  ghost predicate ShowsCheck(v: Value, e: CheckMessage) {
    && Says(v, "policy", Word(e.policy))
    && Says(v, "passed", Some(Bool(e.passed)))
    && Says(v, "detail", Word(e.detail))
    && Says(v, "limit", OptWord(e.limit))
    && Says(v, "observed", OptWord(e.observed))
  }

  lemma CheckIsShown(e: CheckMessage)
    ensures ShowsCheck(ValueOf(CheckDoc(e)), e)
  {
    hide MapOf, ValuesOf, Present, NoRepeats, Says, TimeText, FormatOf, IntText, W.Spelled;
    var fields := CheckFields(e);
    CheckFieldsDiffer(e);
    Spellings12();
    Spellings13();
    FieldSays(fields, 0, "policy");
    FieldSays(fields, 1, "passed");
    FieldSays(fields, 2, "detail");
    FieldSays(fields, 3, "limit");
    FieldSays(fields, 4, "observed");
  }

  /** A risk decision; its checks are the array of theirs. */
  ghost predicate ShowsDecision(v: Value, e: DecisionMessage) {
    ShowsDecision1(v, e) && ShowsDecision2(v, e)
  }

  ghost predicate ShowsDecision1(v: Value, e: DecisionMessage) {
    && Says(v, "id", Whole(e.id))
    && Says(v, "run_id", Whole(e.runId))
    && Says(v, "signal_id", Whole(e.signalId))
    && Says(v, "decided_at", Time(e.decidedAt))
    && Says(v, "symbol", Word(e.symbol))
    && Says(v, "side", Word(SignalSideText(e.side)))
    && Says(v, "strategy_id", Word(e.strategyId))
  }

  ghost predicate ShowsDecision2(v: Value, e: DecisionMessage) {
    && Says(v, "outcome", Word(OutcomeText(e.outcome)))
    && Says(v, "requested_quantity", Whole(e.requestedQuantity))
    && Says(v, "approved_quantity", Whole(e.approvedQuantity))
    && Says(v, "reason", OptWord(e.reason))
    && Says(v, "checks", Some(Array(ValuesOf(CheckDocs(e.checks)))))
    && Says(v, "order_id", OptWhole(e.orderId))
  }

  lemma DecisionIsShown1(e: DecisionMessage)
    ensures ShowsDecision1(ValueOf(DecisionDoc(e)), e)
  {
    hide MapOf, ValuesOf, Present, NoRepeats, Says, TimeText, FormatOf, IntText, W.Spelled, CheckDocs;
    var fields := DecisionFields(e);
    DecisionFieldsDiffer(e);
    Spellings2();
    Spellings4();
    Spellings6();
    Spellings10();
    SignalSideIsSpelled(e.side);
    FieldSays(fields, 0, "id");
    FieldSays(fields, 1, "run_id");
    FieldSays(fields, 2, "signal_id");
    FieldSays(fields, 3, "decided_at");
    FieldSays(fields, 4, "symbol");
    FieldSays(fields, 5, "side");
    FieldSays(fields, 6, "strategy_id");
  }

  lemma DecisionIsShown2(e: DecisionMessage)
    ensures ShowsDecision2(ValueOf(DecisionDoc(e)), e)
  {
    hide MapOf, ValuesOf, Present, NoRepeats, Says, TimeText, FormatOf, IntText, W.Spelled, CheckDocs;
    var fields := DecisionFields(e);
    DecisionFieldsDiffer(e);
    Spellings5();
    Spellings8();
    Spellings11();
    Spellings12();
    OutcomeIsSpelled(e.outcome);
    FieldSays(fields, 7, "outcome");
    FieldSays(fields, 8, "requested_quantity");
    FieldSays(fields, 9, "approved_quantity");
    FieldSays(fields, 10, "reason");
    FieldSays(fields, 11, "checks");
    FieldSays(fields, 12, "order_id");
  }

  lemma DecisionIsShown(e: DecisionMessage)
    ensures ShowsDecision(ValueOf(DecisionDoc(e)), e)
  {
    hide ValueOf, DecisionDoc, ShowsDecision1, ShowsDecision2;
    DecisionIsShown1(e);
    DecisionIsShown2(e);
  }

  lemma SchemaIsOne()
    ensures IntText(SCHEMA) == "1"
  {
  }

  /** The envelope: schema 1, who published what and when, and the payload. */
  ghost predicate ShowsEnvelope(v: Value, k: Doubles, e: Envelope, keys: seq<string>) {
    && Says(v, "schema", Some(Number("1")))
    && Says(v, "origin", Word(e.origin))
    && Says(v, "sequence", Whole(e.sequence))
    && Says(v, "type", Word(EventTypeText(e.kind)))
    && Says(v, "enqueued_at", Time(e.enqueuedAt))
    && Says(v, "payload", Some(ValueOf(PayloadDoc(k, e.payload, keys))))
  }

  lemma EnvelopeIsShown(k: Doubles, e: Envelope, keys: seq<string>)
    ensures ShowsEnvelope(ValueOf(EnvelopeDoc(k, e, keys)), k, e, keys)
  {
    hide MapOf, ValuesOf, Present, NoRepeats, Says, TimeText, FormatOf, IntText, W.Spelled, PayloadDoc;
    var fields := EnvelopeFields(k, e, keys);
    EnvelopeFieldsDiffer(k, e, keys);
    Spellings1();
    Spellings2();
    EventTypeIsSpelled(e.kind);
    SchemaIsOne();
    FieldSays(fields, 0, "schema");
    FieldSays(fields, 1, "origin");
    FieldSays(fields, 2, "sequence");
    FieldSays(fields, 3, "type");
    FieldSays(fields, 4, "enqueued_at");
    FieldSays(fields, 5, "payload");
  }

  ghost predicate ShowsPayload(v: Value, k: Doubles, p: Payload) {
    match p
    case MarketPayload(m) => ShowsMarket(v, m)
    case SignalPayload(s) => ShowsSignal(v, k, s)
    case OrderPayload(o) => ShowsOrder(v, o)
    case FillPayload(f) => ShowsFill(v, f)
    case DecisionPayload(d) => ShowsDecision(v, d)
  }

  lemma PayloadIsShown(k: Doubles, p: Payload, keys: seq<string>)
    requires Writable(k, p, keys)
    ensures ShowsPayload(ValueOf(PayloadDoc(k, p, keys)), k, p)
  {
    hide ValueOf, MarketDoc, SignalDoc, OrderDoc, FillDoc, DecisionDoc;
    hide ShowsMarket, ShowsSignal, ShowsOrder, ShowsFill, ShowsDecision;
    match p
    case MarketPayload(m) => MarketIsShown(m);
    case SignalPayload(s) => SignalIsShown(k, s, keys);
    case OrderPayload(o) => OrderIsShown(o);
    case FillPayload(f) => FillIsShown(f);
    case DecisionPayload(d) => DecisionIsShown(d);
  }

  /** The checks of a decision, each shown in its place. */
  lemma {:induction false} ChecksAreShown(checks: seq<CheckMessage>, i: nat)
    requires i < |checks|
    ensures i < |ValuesOf(CheckDocs(checks))| && ShowsCheck(ValuesOf(CheckDocs(checks))[i], checks[i])
    decreases i
  {
    hide CheckDoc, ShowsCheck, ValueOf;
    var docs := CheckDocs(checks);
    assert docs[0] == CheckDoc(checks[0]) && docs[1..] == CheckDocs(checks[1..]);
    if i == 0 {
      CheckIsShown(checks[0]);
    } else {
      ChecksAreShown(checks[1..], i - 1);
    }
  }

  /**
   * What any JSON reader finds in an encoded message: the members of the envelope by their names, and under
   * "payload" those of the event, each enumerator by its own spelling and each amount at six decimals.
   */
  lemma EncodedTextSays(k: Doubles, e: Envelope, keys: seq<string>)
    requires PayloadMatches(e) && Writable(k, e.payload, keys)
    ensures Encode(k, e, keys).Some?
    ensures var read := DocumentOf(Encode(k, e, keys).value);
            && read.Got? && ShowsEnvelope(read.value, k, e, keys)
            && ShowsPayload(read.value.members["payload"], k, e.payload)
  {
    hide EnvelopeDoc, ValueOf, DocumentOf, Render, PayloadMatches, Writable, ShowsPayload, PayloadDoc, TimeText,
         IntText;
    EnvelopeIsJson(k, e, keys);
    ParseUndoesRender(EnvelopeDoc(k, e, keys));
    EnvelopeIsShown(k, e, keys);
    PayloadIsShown(k, e.payload, keys);
  }

  // ----- what a decoded message said -----------------------------------------------------

  lemma {:induction false} EnumIsAsSpelled<E>(text: string, all: seq<E>, word: E -> W.Word)
    requires EnumFrom(text, all, word).Some?
    ensures W.Spelled(word(EnumFrom(text, all, word).value)) == text
    decreases |all|
  {
    hide W.Spelled;
    if W.Spelled(word(all[0])) != text { EnumIsAsSpelled(text, all[1..], word); }
  }

  /** Nothing is decoded but schema 1, a known event type and a payload of that type. */
  lemma DecodedTextSaid(k: Doubles, text: string)
    requires Decode(k, text).Some?
    ensures DocumentOf(text).Got?
    ensures var e, root := Decode(k, text).value, DocumentOf(text).value;
            && PayloadMatches(e)
            && Says(root, "origin", Word(e.origin)) && Says(root, "type", Word(EventTypeText(e.kind)))
            && "schema" in root.members && root.members["schema"].Number?
            && IntegerOf(root.members["schema"].literal, -0x8000_0000, 0x7FFF_FFFF) == Some(1)
            && "payload" in root.members && root.members["payload"].Object?
  {
    hide W.Spelled, DocumentOf, MarketFrom, SignalFrom, OrderFrom, FillFrom, DecisionFrom, TimeOf, IntegerOf, EnumFrom;
    Spellings1();
    Spellings2();
    var root, e := DocumentOf(text).value, Decode(k, text).value;
    var kind := TextOf(Find(root, W.Type)).value;
    EnumIsAsSpelled(kind, EVENT_TYPES, EventTypeWord);
    EventTypeIsSpelled(e.kind);
  }
}
