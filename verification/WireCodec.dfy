/** The event wire codec: what is written for each event, what is read back, and that it is the event. */
module WireCodec {
  import opened DecimalText
  import opened Domain
  import opened Json
  import opened JsonWriting
  import opened MachineIntegers
  import opened Numerals
  import opened TimestampText
  import opened WireMessages
  import W = WireWords

  const SCHEMA: int := 1

  /** The text of doubles, taken from elsewhere. */
  datatype Doubles = Doubles(show: real -> string, read: string -> Option<real>)

  // ----- members present and members found -----------------------------------------------

  /** A member as it may be written: left out when it has no value. */
  datatype Field = Field(word: W.Word, doc: Option<Doc>)

  function Present(fields: seq<Field>): seq<(string, Doc)> {
    if fields == [] then []
    else
      var rest := Present(fields[1..]);
      if fields[0].doc.Some? then [(W.Spelled(fields[0].word), fields[0].doc.value)] + rest else rest
  }

  ghost predicate NoRepeats(fields: seq<Field>) {
    forall i, j :: 0 <= i < j < |fields| ==> fields[i].word != fields[j].word
  }

  function Lookup(fields: seq<Field>, w: W.Word): Option<Doc> {
    if fields == [] then None else if fields[0].word == w then fields[0].doc else Lookup(fields[1..], w)
  }

  function Find(v: Value, w: W.Word): Option<Value> {
    if v.Object? && W.Spelled(w) in v.members then Some(v.members[W.Spelled(w)]) else None
  }

  function Meaning(d: Option<Doc>): Option<Value> {
    if d.None? then None else Some(ValueOf(d.value))
  }

  lemma {:induction false} NotListed(fields: seq<Field>, w: W.Word)
    requires forall i :: 0 <= i < |fields| ==> fields[i].word != w
    ensures Lookup(fields, w).None?
    decreases |fields|
  {
    if fields == [] {
    } else {
      NotListed(fields[1..], w);
    }
  }

  /** A field in front that has a value: it is found, and the others are found as before. */
  lemma {:induction false} FirstIsFound(fields: seq<Field>, w: W.Word)
    requires fields != [] && fields[0].doc.Some?
    requires Find(Object(MapOf(Present(fields[1..]))), w) == Meaning(Lookup(fields[1..], w))
    ensures Find(Object(MapOf(Present(fields))), w) == Meaning(Lookup(fields, w))
  {
    hide W.Spelled, ValueOf, MapOf;
    var first, all, rest := fields[0], Present(fields), Present(fields[1..]);
    assert all[0] == (W.Spelled(first.word), first.doc.value) && all[1..] == rest;
    hide Present;
    OneMoreIn(all);
    if W.Spelled(w) == W.Spelled(first.word) { W.SpellingTellsWord(w, first.word); }
  }

  /** A field in front that has none: no field further on has its word. */
  lemma {:induction false} FirstIsLeftOut(fields: seq<Field>, w: W.Word)
    requires fields != [] && NoRepeats(fields) && fields[0].doc.None?
    requires Find(Object(MapOf(Present(fields[1..]))), w) == Meaning(Lookup(fields[1..], w))
    ensures Find(Object(MapOf(Present(fields))), w) == Meaning(Lookup(fields, w))
  {
    hide W.Spelled, ValueOf, MapOf;
    if w == fields[0].word { NotListed(fields[1..], w); }
  }

  lemma NothingIsFound(fields: seq<Field>, w: W.Word)
    requires fields == []
    ensures Find(Object(MapOf(Present(fields))), w) == Meaning(Lookup(fields, w))
  {
    assert MapOf(Present(fields)) == map[] by { NothingIn(Present(fields)); }
  }

  /** A member is found exactly when it was written, with what was written. */
  lemma {:induction false} WrittenIsFound(fields: seq<Field>, w: W.Word)
    requires NoRepeats(fields)
    ensures Find(Object(MapOf(Present(fields))), w) == Meaning(Lookup(fields, w))
    decreases |fields|
  {
    hide *;
    if fields == [] {
      NothingIsFound(fields, w);
    } else {
      RestHasNoRepeats(fields);
      WrittenIsFound(fields[1..], w);
      if fields[0].doc.Some? { FirstIsFound(fields, w); } else { FirstIsLeftOut(fields, w); }
    }
  }

  lemma RestHasNoRepeats(fields: seq<Field>)
    requires fields != [] && NoRepeats(fields)
    ensures NoRepeats(fields[1..])
  {
  }

  lemma NothingIn(members: seq<(string, Doc)>)
    requires members == []
    ensures MapOf(members) == map[]
  {
  }

  lemma OneMoreIn(members: seq<(string, Doc)>)
    requires members != []
    ensures MapOf(members) == MapOf(members[1..])[members[0].0 := ValueOf(members[0].1)]
  {
    assert MemberValue(members[0]) == ValueOf(members[0].1);
  }

  lemma {:induction false} LookupAt(fields: seq<Field>, i: nat)
    requires NoRepeats(fields) && i < |fields|
    ensures Lookup(fields, fields[i].word) == fields[i].doc
    decreases i
  {
    if i == 0 {
    } else {
      LookupAt(fields[1..], i - 1);
    }
  }

  /** The i-th member of an object, read back. */
  lemma FieldIsFound(fields: seq<Field>, i: nat)
    requires NoRepeats(fields) && i < |fields|
    ensures Find(ValueOf(DObject(Present(fields))), fields[i].word) == Meaning(fields[i].doc)
  {
    hide Find, Present, Meaning, NoRepeats;
    WrittenIsFound(fields, fields[i].word);
    LookupAt(fields, i);
    assert ValueOf(DObject(Present(fields))) == Object(MapOf(Present(fields))) by { ObjectValue(Present(fields)); }
  }

  lemma ObjectValue(members: seq<(string, Doc)>)
    ensures ValueOf(DObject(members)) == Object(MapOf(members))
  {
  }

  ghost predicate Written(fields: seq<Field>, m: (string, Doc)) {
    exists i :: 0 <= i < |fields| && fields[i].doc == Some(m.1) && W.Spelled(fields[i].word) == m.0
  }

  lemma WrittenFurtherOn(fields: seq<Field>, m: (string, Doc))
    requires fields != [] && Written(fields[1..], m)
    ensures Written(fields, m)
    ensures NoRepeats(fields) ==> W.Spelled(fields[0].word) != m.0
  {
    hide W.Spelled;
    var i :| 0 <= i < |fields[1..]| && fields[1..][i].doc == Some(m.1) && W.Spelled(fields[1..][i].word) == m.0;
    assert fields[i + 1] == fields[1..][i];
    if W.Spelled(fields[0].word) == m.0 { W.SpellingTellsWord(fields[0].word, fields[i + 1].word); }
  }

  lemma {:induction false} PresentKeys(fields: seq<Field>)
    requires NoRepeats(fields)
    ensures forall i :: 0 <= i < |Present(fields)| ==> Written(fields, Present(fields)[i])
    ensures forall i, j :: 0 <= i < j < |Present(fields)| ==> Present(fields)[i].0 != Present(fields)[j].0
    decreases |fields|
  {
    if fields == [] {
    } else {
      var rest, all := Present(fields[1..]), Present(fields);
      PresentKeys(fields[1..]);
      forall j | 0 <= j < |rest| ensures Written(fields, rest[j]) && W.Spelled(fields[0].word) != rest[j].0 {
        WrittenFurtherOn(fields, rest[j]);
      }
      hide W.Spelled;
      if fields[0].doc.Some? {
        assert Written(fields, all[0]);
        assert all[1..] == rest;
      }
    }
  }

  lemma ObjectIsWellFormed(fields: seq<Field>, depth: nat)
    requires NoRepeats(fields) && depth <= MAX_DEPTH
    requires forall i :: 0 <= i < |fields| && fields[i].doc.Some? ==> WellFormed(fields[i].doc.value, depth + 1)
    ensures WellFormed(DObject(Present(fields)), depth)
  {
    PresentKeys(fields);
    hide W.Spelled, Present;
    var all := Present(fields);
    forall i | 0 <= i < |all| ensures WellFormed(all[i].1, depth + 1) {
      var k :| 0 <= k < |fields| && fields[k].doc == Some(all[i].1) && W.Spelled(fields[k].word) == all[i].0;
    }
  }

  // ----- single fields -------------------------------------------------------------------

  function TimeText(t: Long): string {
    YearsOfInt64(t);
    Stamp(MomentOf(t))
  }

  function DecDoc(v: Long): Doc {
    DText(FormatOf(v, DECIMAL_PLACES))
  }

  function IntDoc(n: int): Doc {
    DNumber(IntText(n))
  }

  function OptDec(v: Option<Long>): Option<Doc> {
    if v.None? then None else Some(DecDoc(v.value))
  }

  function OptInt(v: Option<int>): Option<Doc> {
    if v.None? then None else Some(IntDoc(v.value))
  }

  function OptText(v: Option<string>): Option<Doc> {
    if v.None? then None else Some(DText(v.value))
  }

  function TextOf(v: Option<Value>): Option<string> {
    if v.Some? && v.value.Text? then Some(v.value.text) else None
  }

  function TimeOf(v: Option<Value>): Option<Long> {
    var text := TextOf(v);
    if text.None? then None
    else
      var t := ParseIn(text.value, 0, 9999);
      if t.Some? && -INT64_MAX - 1 <= t.value <= INT64_MAX then Some(t.value) else None
  }

  function DecOf(v: Option<Value>): Option<Long> {
    var text := TextOf(v);
    if text.None? then None
    else
      var d := DecimalOf(text.value);
      if d.Some? && -INT64_MAX - 1 <= d.value <= INT64_MAX then Some(d.value) else None
  }

  /** std::from_chars over the whole literal: no sign when the type has none, nothing out of range. */
  function IntegerOf(literal: string, min: int, max: int): Option<int> {
    var negative := min < 0 && literal != "" && literal[0] == '-';
    var digits := if negative then literal[1..] else literal;
    if digits == "" || !AllDigits(digits) then None
    else
      var magnitude: int := Numeral(digits);
      var n := if negative then -magnitude else magnitude;
      if min <= n <= max then Some(n) else None
  }

  function IntOf(v: Option<Value>, min: int, max: int): Option<int> {
    if v.Some? && v.value.Number? then IntegerOf(v.value.literal, min, max) else None
  }

  function LongOf(v: Option<Value>): Option<Long> {
    IntOf(v, -INT64_MAX - 1, INT64_MAX)
  }

  function ULongOf(v: Option<Value>): Option<ULong> {
    IntOf(v, 0, UINT64_MAX)
  }

  /** An optional member: None when it is there but cannot be read. */
  function Optionally<T>(v: Option<Value>, read: Option<Value> -> Option<T>): Option<Option<T>> {
    if v.None? then Some(None)
    else
      var r := read(v);
      if r.None? then None else Some(Some(r.value))
  }

  lemma TimeSurvives(t: Long)
    ensures TimeOf(Some(Text(TimeText(t)))) == Some(t)
  {
    hide ParseIn, MomentOf, Stamp;
    YearsOfInt64(t);
    ParseUndoesStamp(t, 0, 9999);
  }

  predicate AmountFits(v: Long) {
    v != -INT64_MAX - 1
  }

  predicate OptAmountFits(v: Option<Long>) {
    v.Some? ==> AmountFits(v.value)
  }

  lemma AmountSurvives(v: Long)
    ensures DecOf(Some(Text(FormatOf(v, DECIMAL_PLACES)))) == if AmountFits(v) then Some(v) else None
  {
    hide FormatOf, DecimalOf;
    DecimalSurvives(v);
  }

  lemma IntegerSurvives(n: int, min: int, max: int)
    requires min <= n <= max && min <= 0
    ensures IntegerOf(IntText(n), min, max) == Some(n)
  {
    hide Show, Numeral;
    var digits := Show(if n < 0 then -n else n);
    ShowReadsBack(if n < 0 then -n else n);
    if n < 0 {
      assert ("-" + digits)[1..] == digits;
    } else {
      assert digits[0] != '-';
    }
  }

  /** One of the enumerators, by its spelling. */
  function Named<E>(v: Option<Value>, all: seq<E>, word: E -> W.Word): Option<E> {
    var text := TextOf(v);
    if text.None? then None else EnumFrom(text.value, all, word)
  }

  function UIntOf(v: Option<Value>): Option<UInt> {
    IntOf(v, 0, 0xFFFF_FFFF)
  }

  function BoolOf(v: Option<Value>): Option<bool> {
    if v.Some? && v.value.Bool? then Some(v.value.boolean) else None
  }

  function WordDoc(w: W.Word): Option<Doc> {
    Some(DText(W.Spelled(w)))
  }

  lemma NamedSurvives<E>(all: seq<E>, word: E -> W.Word, k: nat)
    requires k < |all| && forall i :: 0 <= i < k ==> word(all[i]) != word(all[k])
    ensures Named(Meaning(WordDoc(word(all[k]))), all, word) == Some(all[k])
  {
    hide W.Spelled, EnumFrom;
    EnumComesBack(all, word, k);
  }

  lemma TextDocSurvives(s: string)
    ensures TextOf(Meaning(Some(DText(s)))) == Some(s)
  {
  }

  lemma TimeDocSurvives(t: Long)
    ensures TimeOf(Meaning(Some(DText(TimeText(t))))) == Some(t)
  {
    hide TimeOf, TimeText;
    TimeSurvives(t);
  }

  lemma AmountDocSurvives(v: Long)
    ensures DecOf(Meaning(Some(DecDoc(v)))) == if AmountFits(v) then Some(v) else None
  {
    hide DecOf, FormatOf;
    AmountSurvives(v);
  }

  lemma IntDocSurvives(n: int, min: int, max: int)
    requires min <= n <= max && min <= 0
    ensures IntOf(Meaning(Some(IntDoc(n))), min, max) == Some(n)
  {
    hide IntText, IntegerOf;
    IntegerSurvives(n, min, max);
  }

  lemma OptAmountSurvives(v: Option<Long>)
    ensures Optionally(Meaning(OptDec(v)), DecOf) == if OptAmountFits(v) then Some(v) else None
  {
    hide FormatOf, DecOf;
    if v.Some? { AmountSurvives(v.value); }
  }

  lemma OptQuantitySurvives(v: Option<Long>)
    ensures Optionally(Meaning(OptInt(v)), LongOf) == Some(v)
  {
    hide IntText, IntegerOf;
    if v.Some? { IntegerSurvives(v.value, -INT64_MAX - 1, INT64_MAX); }
  }

  lemma OptTextSurvives(v: Option<string>)
    ensures Optionally(Meaning(OptText(v)), TextOf) == Some(v)
  {
  }

  // ----- enumerators ---------------------------------------------------------------------

  function MarketEventTypeOf(v: Option<Value>): Option<MarketEventType> {
    Named(v, MARKET_EVENT_TYPES, MarketEventWord)
  }

  lemma MarketEventTypeSurvives(x: MarketEventType)
    ensures MarketEventTypeOf(Meaning(WordDoc(MarketEventWord(x)))) == Some(x)
  {
    hide WordDoc, Named;
    var k := match x
             case Unknown => 0
             case Trade => 1
             case Quote => 2
             case Bar => 3
             case Status => 4;
    NamedSurvives(MARKET_EVENT_TYPES, MarketEventWord, k);
  }

  function SignalSideOf(v: Option<Value>): Option<SignalSide> {
    Named(v, SIGNAL_SIDES, SideWord)
  }

  lemma SignalSideSurvives(x: SignalSide)
    ensures SignalSideOf(Meaning(WordDoc(SideWord(x)))) == Some(x)
  {
    hide WordDoc, Named;
    var k := match x
             case BuySignal => 0
             case SellSignal => 1
             case Flat => 2;
    NamedSurvives(SIGNAL_SIDES, SideWord, k);
  }

  function OrderSideOf(v: Option<Value>): Option<OrderSide> {
    Named(v, ORDER_SIDES, OrderSideWord)
  }

  lemma OrderSideSurvives(x: OrderSide)
    ensures OrderSideOf(Meaning(WordDoc(OrderSideWord(x)))) == Some(x)
  {
    hide WordDoc, Named;
    var k := match x
             case Buy => 0
             case Sell => 1;
    NamedSurvives(ORDER_SIDES, OrderSideWord, k);
  }

  function OrderTypeOf(v: Option<Value>): Option<OrderType> {
    Named(v, ORDER_TYPES, OrderTypeWord)
  }

  lemma OrderTypeSurvives(x: OrderType)
    ensures OrderTypeOf(Meaning(WordDoc(OrderTypeWord(x)))) == Some(x)
  {
    hide WordDoc, Named;
    var k := match x
             case Market => 0
             case Limit => 1;
    NamedSurvives(ORDER_TYPES, OrderTypeWord, k);
  }

  function OrderStatusOf(v: Option<Value>): Option<OrderStatus> {
    Named(v, ORDER_STATUSES, OrderStatusWord)
  }

  lemma OrderStatusSurvives(x: OrderStatus)
    ensures OrderStatusOf(Meaning(WordDoc(OrderStatusWord(x)))) == Some(x)
  {
    hide WordDoc, Named, Meaning;
    var k := match x
             case New => 0
             case PendingRisk => 1
             case Rejected => 2
             case Approved => 3
             case Working => 4
             case PartiallyFilled => 5
             case Filled => 6
             case Cancelled => 7
             case Expired => 8;
    NamedSurvives(ORDER_STATUSES, OrderStatusWord, k);
  }

  function FillStatusOf(v: Option<Value>): Option<FillStatus> {
    Named(v, FILL_STATUSES, FillStatusWord)
  }

  lemma FillStatusSurvives(x: FillStatus)
    ensures FillStatusOf(Meaning(WordDoc(FillStatusWord(x)))) == Some(x)
  {
    hide WordDoc, Named;
    var k := match x
             case Complete => 0
             case Partial => 1;
    NamedSurvives(FILL_STATUSES, FillStatusWord, k);
  }

  function RiskOutcomeOf(v: Option<Value>): Option<RiskOutcome> {
    Named(v, RISK_OUTCOMES, OutcomeWord)
  }

  lemma RiskOutcomeSurvives(x: RiskOutcome)
    ensures RiskOutcomeOf(Meaning(WordDoc(OutcomeWord(x)))) == Some(x)
  {
    hide WordDoc, Named;
    var k := match x
             case Passed => 0
             case Resized => 1
             case Refused => 2;
    NamedSurvives(RISK_OUTCOMES, OutcomeWord, k);
  }

  function EventTypeOf(v: Option<Value>): Option<EventType> {
    Named(v, EVENT_TYPES, EventTypeWord)
  }

  lemma EventTypeSurvives(x: EventType)
    ensures EventTypeOf(Meaning(WordDoc(EventTypeWord(x)))) == Some(x)
  {
    hide WordDoc, Named;
    var k := match x
             case MarketEvents => 0
             case SignalEvents => 1
             case OrderEvents => 2
             case FillEvents => 3
             case DecisionEvents => 4;
    NamedSurvives(EVENT_TYPES, EventTypeWord, k);
  }

  // ----- market events ----------------------------------------------------------------------

  function MarketFields(e: MarketMessage): (fields: seq<Field>)
    ensures |fields| == 13
  {
    [
      Field(W.Symbol, Some(DText(e.symbol))),
      Field(W.ExchangeTime, Some(DText(TimeText(e.exchangeTime)))),
      Field(W.IngestTime, Some(DText(TimeText(e.ingestTime)))),
      Field(W.Type, WordDoc(MarketEventWord(e.kind))),
      Field(W.Price, OptDec(e.price)),
      Field(W.Bid, OptDec(e.bid)),
      Field(W.Ask, OptDec(e.ask)),
      Field(W.Open, OptDec(e.open)),
      Field(W.High, OptDec(e.high)),
      Field(W.Low, OptDec(e.low)),
      Field(W.Size, OptInt(e.size)),
      Field(W.Volume, OptInt(e.volume)),
      Field(W.Sequence, Some(IntDoc(e.sequence)))
    ]
  }

  function MarketDoc(e: MarketMessage): Doc {
    DObject(Present(MarketFields(e)))
  }

  function MarketFrom(p: Value): Option<MarketMessage> {
    var symbol := TextOf(Find(p, W.Symbol));
    var exchangeTime := TimeOf(Find(p, W.ExchangeTime));
    var ingestTime := TimeOf(Find(p, W.IngestTime));
    var kind := MarketEventTypeOf(Find(p, W.Type));
    var price := Optionally(Find(p, W.Price), DecOf);
    var bid := Optionally(Find(p, W.Bid), DecOf);
    var ask := Optionally(Find(p, W.Ask), DecOf);
    var open := Optionally(Find(p, W.Open), DecOf);
    var high := Optionally(Find(p, W.High), DecOf);
    var low := Optionally(Find(p, W.Low), DecOf);
    var size := Optionally(Find(p, W.Size), LongOf);
    var volume := Optionally(Find(p, W.Volume), LongOf);
    var sequence := ULongOf(Find(p, W.Sequence));
    if symbol.None? || exchangeTime.None? || ingestTime.None? || kind.None? || price.None? || bid.None? ||
       ask.None? || open.None? || high.None? || low.None? || size.None? || volume.None? || sequence.None?
    then None
    else
      Some(MarketMessage(symbol.value, exchangeTime.value, ingestTime.value, kind.value,
                         price.value, bid.value, ask.value, open.value, high.value, low.value, size.value,
                         volume.value, sequence.value))
  }

  predicate MarketFits(e: MarketMessage) {
    OptAmountFits(e.price) && OptAmountFits(e.bid) && OptAmountFits(e.ask) && OptAmountFits(e.open) &&
    OptAmountFits(e.high) && OptAmountFits(e.low)
  }

  lemma MarketFieldsDiffer(e: MarketMessage)
    ensures NoRepeats(MarketFields(e))
  {
    hide TimeText, DecDoc, IntDoc, OptDec, OptInt, OptText, WordDoc;
  }

  lemma MarketHas(e: MarketMessage, i: nat)
    requires i < 13
    ensures Find(ValueOf(MarketDoc(e)), MarketFields(e)[i].word) == Meaning(MarketFields(e)[i].doc)
  {
    hide ValueOf, Find, Present, Meaning, NoRepeats, MarketFields;
    MarketFieldsDiffer(e);
    FieldIsFound(MarketFields(e), i);
  }

  lemma MarketPart1(e: MarketMessage)
    ensures var p := ValueOf(MarketDoc(e));
            && TextOf(Find(p, W.Symbol)) == Some(e.symbol)
            && TimeOf(Find(p, W.ExchangeTime)) == Some(e.exchangeTime)
            && TimeOf(Find(p, W.IngestTime)) == Some(e.ingestTime)
            && MarketEventTypeOf(Find(p, W.Type)) == Some(e.kind)
            && Optionally(Find(p, W.Price), DecOf) == (if OptAmountFits(e.price) then Some(e.price) else None)
  {
    hide MarketDoc, Find, Meaning, ValueOf, TextOf, TimeOf, DecOf, IntOf, Optionally, Named, OptAmountFits, AmountFits;
    hide DecDoc, IntDoc, WordDoc, OptDec, OptInt, OptText, TimeText;
    MarketHas(e, 0);
    TextDocSurvives(e.symbol);
    MarketHas(e, 1);
    TimeDocSurvives(e.exchangeTime);
    MarketHas(e, 2);
    TimeDocSurvives(e.ingestTime);
    MarketHas(e, 3);
    MarketEventTypeSurvives(e.kind);
    MarketHas(e, 4);
    OptAmountSurvives(e.price);
  }

  lemma MarketPart2(e: MarketMessage)
    ensures var p := ValueOf(MarketDoc(e));
            && Optionally(Find(p, W.Bid), DecOf) == (if OptAmountFits(e.bid) then Some(e.bid) else None)
            && Optionally(Find(p, W.Ask), DecOf) == (if OptAmountFits(e.ask) then Some(e.ask) else None)
            && Optionally(Find(p, W.Open), DecOf) == (if OptAmountFits(e.open) then Some(e.open) else None)
            && Optionally(Find(p, W.High), DecOf) == (if OptAmountFits(e.high) then Some(e.high) else None)
            && Optionally(Find(p, W.Low), DecOf) == (if OptAmountFits(e.low) then Some(e.low) else None)
  {
    hide MarketDoc, Find, Meaning, ValueOf, TextOf, TimeOf, DecOf, IntOf, Optionally, Named, OptAmountFits, AmountFits;
    hide DecDoc, IntDoc, WordDoc, OptDec, OptInt, OptText, TimeText;
    MarketHas(e, 5);
    OptAmountSurvives(e.bid);
    MarketHas(e, 6);
    OptAmountSurvives(e.ask);
    MarketHas(e, 7);
    OptAmountSurvives(e.open);
    MarketHas(e, 8);
    OptAmountSurvives(e.high);
    MarketHas(e, 9);
    OptAmountSurvives(e.low);
  }

  lemma MarketPart3(e: MarketMessage)
    ensures var p := ValueOf(MarketDoc(e));
            && Optionally(Find(p, W.Size), LongOf) == Some(e.size)
            && Optionally(Find(p, W.Volume), LongOf) == Some(e.volume)
            && ULongOf(Find(p, W.Sequence)) == Some(e.sequence)
  {
    hide MarketDoc, Find, Meaning, ValueOf, TextOf, TimeOf, DecOf, IntOf, Optionally, Named, OptAmountFits, AmountFits;
    hide DecDoc, IntDoc, WordDoc, OptDec, OptInt, OptText, TimeText;
    MarketHas(e, 10);
    OptQuantitySurvives(e.size);
    MarketHas(e, 11);
    OptQuantitySurvives(e.volume);
    MarketHas(e, 12);
    IntDocSurvives(e.sequence, 0, UINT64_MAX);
  }

  /** Every market event comes back; an amount of INT64_MIN millionths, and only that, does not. */
  lemma MarketSurvives(e: MarketMessage)
    ensures MarketFrom(ValueOf(MarketDoc(e))) == if MarketFits(e) then Some(e) else None
  {
    hide MarketDoc, ValueOf, Find, TextOf, TimeOf, DecOf, IntOf, LongOf, ULongOf, UIntOf, BoolOf, Optionally, Named;
    MarketPart1(e);
    MarketPart2(e);
    MarketPart3(e);
  }

  // ----- signals ----------------------------------------------------------------------------

  function OptNumber(k: Doubles, v: Option<real>): Option<Doc> {
    if v.None? then None else Some(DNumber(k.show(v.value)))
  }

  function OptNumberOf(k: Doubles, v: Option<Value>): Option<Option<real>> {
    if v.None? then Some(None)
    else if !v.value.Number? then None
    else
      var d := k.read(v.value.literal);
      if d.None? then None else Some(d)
  }

  /** The text of this double is a JSON number and reads back as the double. */
  ghost predicate DoubleSurvives(k: Doubles, v: Option<real>) {
    v.Some? ==> IsNumber(k.show(v.value)) && k.read(k.show(v.value)) == v
  }

  lemma OptNumberSurvives(k: Doubles, v: Option<real>)
    requires DoubleSurvives(k, v)
    ensures OptNumberOf(k, Meaning(OptNumber(k, v))) == Some(v)
  {
  }

  function OptWord(t: Option<OrderType>): Option<Doc> {
    if t.None? then None else WordDoc(OrderTypeWord(t.value))
  }

  lemma OptOrderTypeSurvives(t: Option<OrderType>)
    ensures Optionally(Meaning(OptWord(t)), OrderTypeOf) == Some(t)
  {
    hide WordDoc, OrderTypeOf;
    if t.Some? {
      OrderTypeSurvives(t.value);
      assert WordDoc(OrderTypeWord(t.value)).Some? by { WordIsThere(OrderTypeWord(t.value)); }
    }
  }

  lemma WordIsThere(w: W.Word)
    ensures WordDoc(w).Some?
  {
  }

  /** `keys` are the keys of m, each once: the order in which its members are written. */
  ghost predicate Lists(keys: seq<string>, m: map<string, string>) {
    (forall x :: x in keys <==> x in m) && forall i, j :: 0 <= i < j < |keys| ==> keys[i] != keys[j]
  }

  function MetadataMembers(m: map<string, string>, keys: seq<string>): seq<(string, Doc)> {
    if keys == [] then []
    else [(keys[0], DText(if keys[0] in m then m[keys[0]] else ""))] + MetadataMembers(m, keys[1..])
  }

  function MetadataOf(v: Option<Value>): Option<map<string, string>> {
    if v.None? then Some(map[])
    else if !v.value.Object? || exists x :: x in v.value.members && !v.value.members[x].Text? then None
    else Some(map x | x in v.value.members :: v.value.members[x].text)
  }

  lemma {:induction false} MetadataIsWritten(m: map<string, string>, keys: seq<string>)
    requires forall x :: x in keys ==> x in m
    ensures var ms := MapOf(MetadataMembers(m, keys));
            (forall x :: x in ms <==> x in keys) && forall x :: x in keys ==> ms[x] == Text(m[x])
    decreases |keys|
  {
    if keys == [] {
    } else {
      var ms := MetadataMembers(m, keys);
      assert ms[1..] == MetadataMembers(m, keys[1..]) && ms[0] == (keys[0], DText(m[keys[0]]));
      MetadataIsWritten(m, keys[1..]);
      var before, after := MapOf(ms[1..]), MapOf(ms);
      assert MemberValue(ms[0]) == Text(m[keys[0]]) by { assert ms[0].1 == DText(m[keys[0]]); }
      assert after == before[ms[0].0 := MemberValue(ms[0])];
      forall x | x in keys ensures x in after && after[x] == Text(m[x]) {
        if x != keys[0] { assert x in keys[1..]; }
      }
    }
  }

  lemma {:induction false} MetadataInOrder(m: map<string, string>, keys: seq<string>)
    ensures |MetadataMembers(m, keys)| == |keys|
    ensures forall i :: 0 <= i < |keys| ==>
              MetadataMembers(m, keys)[i].0 == keys[i] && MetadataMembers(m, keys)[i].1.DText?
    decreases |keys|
  {
    if keys == [] {
    } else {
      MetadataInOrder(m, keys[1..]);
      assert forall i :: 0 < i < |keys| ==> MetadataMembers(m, keys)[i] == MetadataMembers(m, keys[1..])[i - 1];
    }
  }

  lemma MetadataSurvives(m: map<string, string>, keys: seq<string>)
    requires Lists(keys, m)
    ensures MetadataOf(Meaning(Some(DObject(MetadataMembers(m, keys))))) == Some(m)
  {
    hide MetadataMembers, MapOf;
    MetadataIsWritten(m, keys);
    ObjectValue(MetadataMembers(m, keys));
    var ms := MapOf(MetadataMembers(m, keys));
    assert ValueOf(DObject(MetadataMembers(m, keys))) == Object(ms);
    assert (map x | x in ms :: ms[x].text) == m;
  }

  function SignalFields(k: Doubles, e: SignalMessage, keys: seq<string>): (fields: seq<Field>)
    ensures |fields| == 11
  {
    [
      Field(W.Id, Some(IntDoc(e.id))),
      Field(W.StrategyId, Some(DText(e.strategyId))),
      Field(W.Symbol, Some(DText(e.symbol))),
      Field(W.Side, WordDoc(SideWord(e.side))),
      Field(W.CreatedAt, Some(DText(TimeText(e.createdAt)))),
      Field(W.RequestedQuantity, OptInt(e.requestedQuantity)),
      Field(W.TargetExposure, OptNumber(k, e.targetExposure)),
      Field(W.Confidence, OptNumber(k, e.confidence)),
      Field(W.Metadata, Some(DObject(MetadataMembers(e.metadata, keys)))),
      Field(W.OrderType, OptWord(e.orderType)),
      Field(W.LimitPrice, OptDec(e.limitPrice))
    ]
  }

  function SignalDoc(k: Doubles, e: SignalMessage, keys: seq<string>): Doc {
    DObject(Present(SignalFields(k, e, keys)))
  }

  function SignalFrom(k: Doubles, p: Value): Option<SignalMessage> {
    var id := ULongOf(Find(p, W.Id));
    var strategyId := TextOf(Find(p, W.StrategyId));
    var symbol := TextOf(Find(p, W.Symbol));
    var side := SignalSideOf(Find(p, W.Side));
    var createdAt := TimeOf(Find(p, W.CreatedAt));
    var requestedQuantity := Optionally(Find(p, W.RequestedQuantity), LongOf);
    var targetExposure := OptNumberOf(k, Find(p, W.TargetExposure));
    var confidence := OptNumberOf(k, Find(p, W.Confidence));
    var metadata := MetadataOf(Find(p, W.Metadata));
    var orderType := Optionally(Find(p, W.OrderType), OrderTypeOf);
    var limitPrice := Optionally(Find(p, W.LimitPrice), DecOf);
    if id.None? || strategyId.None? || symbol.None? || side.None? || createdAt.None? ||
       requestedQuantity.None? || targetExposure.None? || confidence.None? || metadata.None? || orderType.None? ||
       limitPrice.None?
    then None
    else
      Some(SignalMessage(id.value, strategyId.value, symbol.value, side.value,
                         createdAt.value, requestedQuantity.value, targetExposure.value, confidence.value,
                         metadata.value, orderType.value, limitPrice.value))
  }

  predicate SignalFits(e: SignalMessage) {
    OptAmountFits(e.limitPrice)
  }

  lemma SignalFieldsDiffer(k: Doubles, e: SignalMessage, keys: seq<string>)
    ensures NoRepeats(SignalFields(k, e, keys))
  {
    hide TimeText, DecDoc, IntDoc, OptDec, OptInt, OptText, WordDoc, OptNumber, OptWord, MetadataMembers;
  }

  lemma SignalHas(k: Doubles, e: SignalMessage, keys: seq<string>, i: nat)
    requires i < 11
    ensures Find(ValueOf(SignalDoc(k, e, keys)), SignalFields(k, e, keys)[i].word)
              == Meaning(SignalFields(k, e, keys)[i].doc)
  {
    hide ValueOf, Find, Present, Meaning, NoRepeats, SignalFields;
    SignalFieldsDiffer(k, e, keys);
    FieldIsFound(SignalFields(k, e, keys), i);
  }

  lemma SignalPart1(k: Doubles, e: SignalMessage, keys: seq<string>)
    requires DoubleSurvives(k, e.targetExposure) && DoubleSurvives(k, e.confidence) && Lists(keys, e.metadata)
    ensures var p := ValueOf(SignalDoc(k, e, keys));
            && ULongOf(Find(p, W.Id)) == Some(e.id)
            && TextOf(Find(p, W.StrategyId)) == Some(e.strategyId)
            && TextOf(Find(p, W.Symbol)) == Some(e.symbol)
            && SignalSideOf(Find(p, W.Side)) == Some(e.side)
            && TimeOf(Find(p, W.CreatedAt)) == Some(e.createdAt)
  {
    hide SignalDoc, Find, Meaning, ValueOf, TextOf, TimeOf, DecOf, IntOf, Optionally, Named, OptAmountFits, AmountFits;
    hide DecDoc, IntDoc, WordDoc, OptDec, OptInt, OptText, TimeText, OptNumber, OptNumberOf, OptWord,
         MetadataMembers, MetadataOf;
    SignalHas(k, e, keys, 0);
    IntDocSurvives(e.id, 0, UINT64_MAX);
    SignalHas(k, e, keys, 1);
    TextDocSurvives(e.strategyId);
    SignalHas(k, e, keys, 2);
    TextDocSurvives(e.symbol);
    SignalHas(k, e, keys, 3);
    SignalSideSurvives(e.side);
    SignalHas(k, e, keys, 4);
    TimeDocSurvives(e.createdAt);
  }

  lemma SignalPart2(k: Doubles, e: SignalMessage, keys: seq<string>)
    requires DoubleSurvives(k, e.targetExposure) && DoubleSurvives(k, e.confidence) && Lists(keys, e.metadata)
    ensures var p := ValueOf(SignalDoc(k, e, keys));
            && Optionally(Find(p, W.RequestedQuantity), LongOf) == Some(e.requestedQuantity)
            && OptNumberOf(k, Find(p, W.TargetExposure)) == Some(e.targetExposure)
            && OptNumberOf(k, Find(p, W.Confidence)) == Some(e.confidence)
            && MetadataOf(Find(p, W.Metadata)) == Some(e.metadata)
            && Optionally(Find(p, W.OrderType), OrderTypeOf) == Some(e.orderType)
  {
    hide SignalDoc, Find, Meaning, ValueOf, TextOf, TimeOf, DecOf, IntOf, Optionally, Named, OptAmountFits, AmountFits;
    hide DecDoc, IntDoc, WordDoc, OptDec, OptInt, OptText, TimeText, OptNumber, OptNumberOf, OptWord,
         MetadataMembers, MetadataOf;
    SignalHas(k, e, keys, 5);
    OptQuantitySurvives(e.requestedQuantity);
    SignalHas(k, e, keys, 6);
    OptNumberSurvives(k, e.targetExposure);
    SignalHas(k, e, keys, 7);
    OptNumberSurvives(k, e.confidence);
    SignalHas(k, e, keys, 8);
    MetadataSurvives(e.metadata, keys);
    SignalHas(k, e, keys, 9);
    OptOrderTypeSurvives(e.orderType);
  }

  lemma SignalPart3(k: Doubles, e: SignalMessage, keys: seq<string>)
    requires DoubleSurvives(k, e.targetExposure) && DoubleSurvives(k, e.confidence) && Lists(keys, e.metadata)
    ensures var p := ValueOf(SignalDoc(k, e, keys));
            && Optionally(Find(p, W.LimitPrice), DecOf)
              == (if OptAmountFits(e.limitPrice) then Some(e.limitPrice) else None)
  {
    hide SignalDoc, Find, Meaning, ValueOf, TextOf, TimeOf, DecOf, IntOf, Optionally, Named, OptAmountFits, AmountFits;
    hide DecDoc, IntDoc, WordDoc, OptDec, OptInt, OptText, TimeText, OptNumber, OptNumberOf, OptWord,
         MetadataMembers, MetadataOf;
    SignalHas(k, e, keys, 10);
    OptAmountSurvives(e.limitPrice);
  }

  lemma SignalSurvives(k: Doubles, e: SignalMessage, keys: seq<string>)
    requires DoubleSurvives(k, e.targetExposure) && DoubleSurvives(k, e.confidence) && Lists(keys, e.metadata)
    ensures SignalFrom(k, ValueOf(SignalDoc(k, e, keys))) == if SignalFits(e) then Some(e) else None
  {
    hide SignalDoc, ValueOf, Find, TextOf, TimeOf, DecOf, IntOf, LongOf, ULongOf, UIntOf, BoolOf, Optionally, Named;
    SignalPart1(k, e, keys);
    SignalPart2(k, e, keys);
    SignalPart3(k, e, keys);
  }

  // ----- orders -----------------------------------------------------------------------------

  function OrderFields(e: OrderMessage): (fields: seq<Field>)
    ensures |fields| == 15
  {
    [
      Field(W.Id, Some(IntDoc(e.id))),
      Field(W.RunId, Some(IntDoc(e.runId))),
      Field(W.OriginSignal, Some(IntDoc(e.originSignal))),
      Field(W.StrategyId, Some(DText(e.strategyId))),
      Field(W.Symbol, Some(DText(e.symbol))),
      Field(W.Side, WordDoc(OrderSideWord(e.side))),
      Field(W.Type, WordDoc(OrderTypeWord(e.kind))),
      Field(W.Quantity, Some(IntDoc(e.quantity))),
      Field(W.LimitPrice, OptDec(e.limitPrice)),
      Field(W.Status, WordDoc(OrderStatusWord(e.status))),
      Field(W.CreatedAt, Some(DText(TimeText(e.createdAt)))),
      Field(W.UpdatedAt, Some(DText(TimeText(e.updatedAt)))),
      Field(W.FilledQuantity, Some(IntDoc(e.filledQuantity))),
      Field(W.AverageFillPrice, OptDec(e.averageFillPrice)),
      Field(W.RejectReason, OptText(e.rejectReason))
    ]
  }

  function OrderDoc(e: OrderMessage): Doc {
    DObject(Present(OrderFields(e)))
  }

  function OrderFrom(p: Value): Option<OrderMessage> {
    var id := ULongOf(Find(p, W.Id));
    var runId := ULongOf(Find(p, W.RunId));
    var originSignal := ULongOf(Find(p, W.OriginSignal));
    var strategyId := TextOf(Find(p, W.StrategyId));
    var symbol := TextOf(Find(p, W.Symbol));
    var side := OrderSideOf(Find(p, W.Side));
    var kind := OrderTypeOf(Find(p, W.Type));
    var quantity := LongOf(Find(p, W.Quantity));
    var limitPrice := Optionally(Find(p, W.LimitPrice), DecOf);
    var status := OrderStatusOf(Find(p, W.Status));
    var createdAt := TimeOf(Find(p, W.CreatedAt));
    var updatedAt := TimeOf(Find(p, W.UpdatedAt));
    var filledQuantity := LongOf(Find(p, W.FilledQuantity));
    var averageFillPrice := Optionally(Find(p, W.AverageFillPrice), DecOf);
    var rejectReason := Optionally(Find(p, W.RejectReason), TextOf);
    if id.None? || runId.None? || originSignal.None? || strategyId.None? || symbol.None? || side.None? ||
       kind.None? || quantity.None? || limitPrice.None? || status.None? || createdAt.None? || updatedAt.None? ||
       filledQuantity.None? || averageFillPrice.None? || rejectReason.None?
    then None
    else
      Some(OrderMessage(id.value, runId.value, originSignal.value, strategyId.value,
                        symbol.value, side.value, kind.value, quantity.value, limitPrice.value, status.value,
                        createdAt.value, updatedAt.value, filledQuantity.value, averageFillPrice.value,
                        rejectReason.value))
  }

  predicate OrderFits(e: OrderMessage) {
    OptAmountFits(e.limitPrice) && OptAmountFits(e.averageFillPrice)
  }

  lemma OrderFieldsDiffer(e: OrderMessage)
    ensures NoRepeats(OrderFields(e))
  {
    hide TimeText, DecDoc, IntDoc, OptDec, OptInt, OptText, WordDoc;
  }

  lemma OrderHas(e: OrderMessage, i: nat)
    requires i < 15
    ensures Find(ValueOf(OrderDoc(e)), OrderFields(e)[i].word) == Meaning(OrderFields(e)[i].doc)
  {
    hide ValueOf, Find, Present, Meaning, NoRepeats, OrderFields;
    OrderFieldsDiffer(e);
    FieldIsFound(OrderFields(e), i);
  }

  lemma OrderPart1(e: OrderMessage)
    ensures var p := ValueOf(OrderDoc(e));
            && ULongOf(Find(p, W.Id)) == Some(e.id)
            && ULongOf(Find(p, W.RunId)) == Some(e.runId)
            && ULongOf(Find(p, W.OriginSignal)) == Some(e.originSignal)
            && TextOf(Find(p, W.StrategyId)) == Some(e.strategyId)
            && TextOf(Find(p, W.Symbol)) == Some(e.symbol)
  {
    hide OrderDoc, Find, Meaning, ValueOf, TextOf, TimeOf, DecOf, IntOf, Optionally, Named, OptAmountFits, AmountFits;
    hide DecDoc, IntDoc, WordDoc, OptDec, OptInt, OptText, TimeText;
    OrderHas(e, 0);
    IntDocSurvives(e.id, 0, UINT64_MAX);
    OrderHas(e, 1);
    IntDocSurvives(e.runId, 0, UINT64_MAX);
    OrderHas(e, 2);
    IntDocSurvives(e.originSignal, 0, UINT64_MAX);
    OrderHas(e, 3);
    TextDocSurvives(e.strategyId);
    OrderHas(e, 4);
    TextDocSurvives(e.symbol);
  }

  lemma OrderPart2(e: OrderMessage)
    ensures var p := ValueOf(OrderDoc(e));
            && OrderSideOf(Find(p, W.Side)) == Some(e.side)
            && OrderTypeOf(Find(p, W.Type)) == Some(e.kind)
            && LongOf(Find(p, W.Quantity)) == Some(e.quantity)
            && Optionally(Find(p, W.LimitPrice), DecOf)
              == (if OptAmountFits(e.limitPrice) then Some(e.limitPrice) else None)
            && OrderStatusOf(Find(p, W.Status)) == Some(e.status)
  {
    hide OrderDoc, Find, Meaning, ValueOf, TextOf, TimeOf, DecOf, IntOf, Optionally, Named, OptAmountFits, AmountFits;
    hide DecDoc, IntDoc, WordDoc, OptDec, OptInt, OptText, TimeText;
    OrderHas(e, 5);
    OrderSideSurvives(e.side);
    OrderHas(e, 6);
    OrderTypeSurvives(e.kind);
    OrderHas(e, 7);
    IntDocSurvives(e.quantity, -INT64_MAX - 1, INT64_MAX);
    OrderHas(e, 8);
    OptAmountSurvives(e.limitPrice);
    OrderHas(e, 9);
    OrderStatusSurvives(e.status);
  }

  lemma OrderPart3(e: OrderMessage)
    ensures var p := ValueOf(OrderDoc(e));
            && TimeOf(Find(p, W.CreatedAt)) == Some(e.createdAt)
            && TimeOf(Find(p, W.UpdatedAt)) == Some(e.updatedAt)
            && LongOf(Find(p, W.FilledQuantity)) == Some(e.filledQuantity)
            && Optionally(Find(p, W.AverageFillPrice), DecOf)
              == (if OptAmountFits(e.averageFillPrice) then Some(e.averageFillPrice) else None)
            && Optionally(Find(p, W.RejectReason), TextOf) == Some(e.rejectReason)
  {
    hide OrderDoc, Find, Meaning, ValueOf, TextOf, TimeOf, DecOf, IntOf, Optionally, Named, OptAmountFits, AmountFits;
    hide DecDoc, IntDoc, WordDoc, OptDec, OptInt, OptText, TimeText;
    OrderHas(e, 10);
    TimeDocSurvives(e.createdAt);
    OrderHas(e, 11);
    TimeDocSurvives(e.updatedAt);
    OrderHas(e, 12);
    IntDocSurvives(e.filledQuantity, -INT64_MAX - 1, INT64_MAX);
    OrderHas(e, 13);
    OptAmountSurvives(e.averageFillPrice);
    OrderHas(e, 14);
    OptTextSurvives(e.rejectReason);
  }

  lemma OrderSurvives(e: OrderMessage)
    ensures OrderFrom(ValueOf(OrderDoc(e))) == if OrderFits(e) then Some(e) else None
  {
    hide OrderDoc, ValueOf, Find, TextOf, TimeOf, DecOf, IntOf, LongOf, ULongOf, UIntOf, BoolOf, Optionally, Named;
    OrderPart1(e);
    OrderPart2(e);
    OrderPart3(e);
  }

  // ----- fills ------------------------------------------------------------------------------

  function FillFields(e: FillMessage): (fields: seq<Field>)
    ensures |fields| == 11
  {
    [
      Field(W.Id, Some(IntDoc(e.id))),
      Field(W.OrderId, Some(IntDoc(e.orderId))),
      Field(W.RunId, Some(IntDoc(e.runId))),
      Field(W.Symbol, Some(DText(e.symbol))),
      Field(W.FilledQuantity, Some(IntDoc(e.filledQuantity))),
      Field(W.FillPrice, Some(DecDoc(e.fillPrice))),
      Field(W.Fees, Some(DecDoc(e.fees))),
      Field(W.Slippage, Some(DecDoc(e.slippage))),
      Field(W.FilledAt, Some(DText(TimeText(e.filledAt)))),
      Field(W.Status, WordDoc(FillStatusWord(e.status))),
      Field(W.Sequence, Some(IntDoc(e.sequence)))
    ]
  }

  function FillDoc(e: FillMessage): Doc {
    DObject(Present(FillFields(e)))
  }

  function FillFrom(p: Value): Option<FillMessage> {
    var id := ULongOf(Find(p, W.Id));
    var orderId := ULongOf(Find(p, W.OrderId));
    var runId := ULongOf(Find(p, W.RunId));
    var symbol := TextOf(Find(p, W.Symbol));
    var filledQuantity := LongOf(Find(p, W.FilledQuantity));
    var fillPrice := DecOf(Find(p, W.FillPrice));
    var fees := DecOf(Find(p, W.Fees));
    var slippage := DecOf(Find(p, W.Slippage));
    var filledAt := TimeOf(Find(p, W.FilledAt));
    var status := FillStatusOf(Find(p, W.Status));
    var sequence := UIntOf(Find(p, W.Sequence));
    if id.None? || orderId.None? || runId.None? || symbol.None? || filledQuantity.None? || fillPrice.None? ||
       fees.None? || slippage.None? || filledAt.None? || status.None? || sequence.None?
    then None
    else
      Some(FillMessage(id.value, orderId.value, runId.value, symbol.value,
                       filledQuantity.value, fillPrice.value, fees.value, slippage.value, filledAt.value,
                       status.value, sequence.value))
  }

  predicate FillFits(e: FillMessage) {
    AmountFits(e.fillPrice) && AmountFits(e.fees) && AmountFits(e.slippage)
  }

  lemma FillFieldsDiffer(e: FillMessage)
    ensures NoRepeats(FillFields(e))
  {
    hide TimeText, DecDoc, IntDoc, OptDec, OptInt, OptText, WordDoc;
  }

  lemma FillHas(e: FillMessage, i: nat)
    requires i < 11
    ensures Find(ValueOf(FillDoc(e)), FillFields(e)[i].word) == Meaning(FillFields(e)[i].doc)
  {
    hide ValueOf, Find, Present, Meaning, NoRepeats, FillFields;
    FillFieldsDiffer(e);
    FieldIsFound(FillFields(e), i);
  }

  lemma FillPart1(e: FillMessage)
    ensures var p := ValueOf(FillDoc(e));
            && ULongOf(Find(p, W.Id)) == Some(e.id)
            && ULongOf(Find(p, W.OrderId)) == Some(e.orderId)
            && ULongOf(Find(p, W.RunId)) == Some(e.runId)
            && TextOf(Find(p, W.Symbol)) == Some(e.symbol)
            && LongOf(Find(p, W.FilledQuantity)) == Some(e.filledQuantity)
  {
    hide FillDoc, Find, Meaning, ValueOf, TextOf, TimeOf, DecOf, IntOf, Optionally, Named, OptAmountFits, AmountFits;
    hide DecDoc, IntDoc, WordDoc, OptDec, OptInt, OptText, TimeText;
    FillHas(e, 0);
    IntDocSurvives(e.id, 0, UINT64_MAX);
    FillHas(e, 1);
    IntDocSurvives(e.orderId, 0, UINT64_MAX);
    FillHas(e, 2);
    IntDocSurvives(e.runId, 0, UINT64_MAX);
    FillHas(e, 3);
    TextDocSurvives(e.symbol);
    FillHas(e, 4);
    IntDocSurvives(e.filledQuantity, -INT64_MAX - 1, INT64_MAX);
  }

  lemma FillPart2(e: FillMessage)
    ensures var p := ValueOf(FillDoc(e));
            && DecOf(Find(p, W.FillPrice)) == (if AmountFits(e.fillPrice) then Some(e.fillPrice) else None)
            && DecOf(Find(p, W.Fees)) == (if AmountFits(e.fees) then Some(e.fees) else None)
            && DecOf(Find(p, W.Slippage)) == (if AmountFits(e.slippage) then Some(e.slippage) else None)
            && TimeOf(Find(p, W.FilledAt)) == Some(e.filledAt)
            && FillStatusOf(Find(p, W.Status)) == Some(e.status)
  {
    hide FillDoc, Find, Meaning, ValueOf, TextOf, TimeOf, DecOf, IntOf, Optionally, Named, OptAmountFits, AmountFits;
    hide DecDoc, IntDoc, WordDoc, OptDec, OptInt, OptText, TimeText;
    FillHas(e, 5);
    AmountDocSurvives(e.fillPrice);
    FillHas(e, 6);
    AmountDocSurvives(e.fees);
    FillHas(e, 7);
    AmountDocSurvives(e.slippage);
    FillHas(e, 8);
    TimeDocSurvives(e.filledAt);
    FillHas(e, 9);
    FillStatusSurvives(e.status);
  }

  lemma FillPart3(e: FillMessage)
    ensures var p := ValueOf(FillDoc(e));
            && UIntOf(Find(p, W.Sequence)) == Some(e.sequence)
  {
    hide FillDoc, Find, Meaning, ValueOf, TextOf, TimeOf, DecOf, IntOf, Optionally, Named, OptAmountFits, AmountFits;
    hide DecDoc, IntDoc, WordDoc, OptDec, OptInt, OptText, TimeText;
    FillHas(e, 10);
    IntDocSurvives(e.sequence, 0, 0xFFFF_FFFF);
  }

  lemma FillSurvives(e: FillMessage)
    ensures FillFrom(ValueOf(FillDoc(e))) == if FillFits(e) then Some(e) else None
  {
    hide FillDoc, ValueOf, Find, TextOf, TimeOf, DecOf, IntOf, LongOf, ULongOf, UIntOf, BoolOf, Optionally, Named;
    FillPart1(e);
    FillPart2(e);
    FillPart3(e);
  }

  // ----- risk checks ------------------------------------------------------------------------

  function CheckFields(e: CheckMessage): (fields: seq<Field>)
    ensures |fields| == 5
  {
    [
      Field(W.Policy, Some(DText(e.policy))),
      Field(W.Passed, Some(DBool(e.passed))),
      Field(W.Detail, Some(DText(e.detail))),
      Field(W.Limit, OptText(e.limit)),
      Field(W.Observed, OptText(e.observed))
    ]
  }

  function CheckDoc(e: CheckMessage): Doc {
    DObject(Present(CheckFields(e)))
  }

  function CheckFrom(p: Value): Option<CheckMessage> {
    var policy := TextOf(Find(p, W.Policy));
    var passed := BoolOf(Find(p, W.Passed));
    var detail := TextOf(Find(p, W.Detail));
    var limit := Optionally(Find(p, W.Limit), TextOf);
    var observed := Optionally(Find(p, W.Observed), TextOf);
    if policy.None? || passed.None? || detail.None? || limit.None? || observed.None?
    then None
    else
      Some(CheckMessage(policy.value, passed.value, detail.value, limit.value,
                        observed.value))
  }

  lemma CheckFieldsDiffer(e: CheckMessage)
    ensures NoRepeats(CheckFields(e))
  {
    hide TimeText, DecDoc, IntDoc, OptDec, OptInt, OptText, WordDoc;
  }

  lemma CheckHas(e: CheckMessage, i: nat)
    requires i < 5
    ensures Find(ValueOf(CheckDoc(e)), CheckFields(e)[i].word) == Meaning(CheckFields(e)[i].doc)
  {
    hide ValueOf, Find, Present, Meaning, NoRepeats, CheckFields;
    CheckFieldsDiffer(e);
    FieldIsFound(CheckFields(e), i);
  }

  lemma CheckPart1(e: CheckMessage)
    ensures var p := ValueOf(CheckDoc(e));
            && TextOf(Find(p, W.Policy)) == Some(e.policy)
            && BoolOf(Find(p, W.Passed)) == Some(e.passed)
            && TextOf(Find(p, W.Detail)) == Some(e.detail)
            && Optionally(Find(p, W.Limit), TextOf) == Some(e.limit)
            && Optionally(Find(p, W.Observed), TextOf) == Some(e.observed)
  {
    hide CheckDoc, Find, TextOf, TimeOf, DecOf, IntOf, Optionally, Named, OptAmountFits, AmountFits;
    hide DecDoc, IntDoc, WordDoc, OptDec, OptInt, OptText, TimeText;
    CheckHas(e, 0);
    TextDocSurvives(e.policy);
    CheckHas(e, 1);
    CheckHas(e, 2);
    TextDocSurvives(e.detail);
    CheckHas(e, 3);
    OptTextSurvives(e.limit);
    CheckHas(e, 4);
    OptTextSurvives(e.observed);
  }

  lemma CheckSurvives(e: CheckMessage)
    ensures CheckFrom(ValueOf(CheckDoc(e))) == Some(e)
  {
    hide CheckDoc, ValueOf, Find, TextOf, TimeOf, DecOf, IntOf, LongOf, ULongOf, UIntOf, BoolOf, Optionally, Named;
    CheckPart1(e);
  }

  // ----- risk decisions ---------------------------------------------------------------------

  function CheckDocs(checks: seq<CheckMessage>): (r: seq<Doc>)
    ensures |r| == |checks|
  {
    if checks == [] then [] else [CheckDoc(checks[0])] + CheckDocs(checks[1..])
  }

  function ChecksFrom(items: seq<Value>): Option<seq<CheckMessage>> {
    if items == [] then Some([])
    else
      var first, rest := CheckFrom(items[0]), ChecksFrom(items[1..]);
      if first.None? || rest.None? then None else Some([first.value] + rest.value)
  }

  function ChecksOf(v: Option<Value>): Option<seq<CheckMessage>> {
    if v.Some? && v.value.Array? then ChecksFrom(v.value.items) else None
  }

  lemma {:induction false} EachCheckSurvives(checks: seq<CheckMessage>)
    ensures ChecksFrom(ValuesOf(CheckDocs(checks))) == Some(checks)
    decreases |checks|
  {
    hide CheckDoc, CheckFrom;
    if checks == [] {
    } else {
      CheckSurvives(checks[0]);
      EachCheckSurvives(checks[1..]);
      var docs := CheckDocs(checks);
      assert docs[0] == CheckDoc(checks[0]) && docs[1..] == CheckDocs(checks[1..]);
      assert ValuesOf(docs)[1..] == ValuesOf(docs[1..]);
      assert [checks[0]] + checks[1..] == checks;
    }
  }

  lemma ChecksSurvive(checks: seq<CheckMessage>)
    ensures ChecksOf(Meaning(Some(DArray(CheckDocs(checks))))) == Some(checks)
  {
    hide CheckDocs, ChecksFrom;
    EachCheckSurvives(checks);
  }

  lemma OptIdSurvives(v: Option<ULong>)
    ensures Optionally(Meaning(OptInt(v)), ULongOf) == Some(v)
  {
    hide IntText, IntegerOf;
    if v.Some? { IntegerSurvives(v.value, 0, UINT64_MAX); }
  }

  function DecisionFields(e: DecisionMessage): (fields: seq<Field>)
    ensures |fields| == 13
  {
    [
      Field(W.Id, Some(IntDoc(e.id))),
      Field(W.RunId, Some(IntDoc(e.runId))),
      Field(W.SignalId, Some(IntDoc(e.signalId))),
      Field(W.DecidedAt, Some(DText(TimeText(e.decidedAt)))),
      Field(W.Symbol, Some(DText(e.symbol))),
      Field(W.Side, WordDoc(SideWord(e.side))),
      Field(W.StrategyId, Some(DText(e.strategyId))),
      Field(W.Outcome, WordDoc(OutcomeWord(e.outcome))),
      Field(W.RequestedQuantity, Some(IntDoc(e.requestedQuantity))),
      Field(W.ApprovedQuantity, Some(IntDoc(e.approvedQuantity))),
      Field(W.Reason, OptText(e.reason)),
      Field(W.Checks, Some(DArray(CheckDocs(e.checks)))),
      Field(W.OrderId, OptInt(e.orderId))
    ]
  }

  function DecisionDoc(e: DecisionMessage): Doc {
    DObject(Present(DecisionFields(e)))
  }

  function DecisionFrom(p: Value): Option<DecisionMessage> {
    var id := ULongOf(Find(p, W.Id));
    var runId := ULongOf(Find(p, W.RunId));
    var signalId := ULongOf(Find(p, W.SignalId));
    var decidedAt := TimeOf(Find(p, W.DecidedAt));
    var symbol := TextOf(Find(p, W.Symbol));
    var side := SignalSideOf(Find(p, W.Side));
    var strategyId := TextOf(Find(p, W.StrategyId));
    var outcome := RiskOutcomeOf(Find(p, W.Outcome));
    var requestedQuantity := LongOf(Find(p, W.RequestedQuantity));
    var approvedQuantity := LongOf(Find(p, W.ApprovedQuantity));
    var reason := Optionally(Find(p, W.Reason), TextOf);
    var checks := ChecksOf(Find(p, W.Checks));
    var orderId := Optionally(Find(p, W.OrderId), ULongOf);
    if id.None? || runId.None? || signalId.None? || decidedAt.None? || symbol.None? || side.None? ||
       strategyId.None? || outcome.None? || requestedQuantity.None? || approvedQuantity.None? || reason.None? ||
       checks.None? || orderId.None?
    then None
    else
      Some(DecisionMessage(id.value, runId.value, signalId.value, decidedAt.value,
                           symbol.value, side.value, strategyId.value, outcome.value, requestedQuantity.value,
                           approvedQuantity.value, reason.value, checks.value, orderId.value))
  }

  lemma DecisionFieldsDiffer(e: DecisionMessage)
    ensures NoRepeats(DecisionFields(e))
  {
    hide TimeText, DecDoc, IntDoc, OptDec, OptInt, OptText, WordDoc, CheckDocs;
  }

  lemma DecisionHas(e: DecisionMessage, i: nat)
    requires i < 13
    ensures Find(ValueOf(DecisionDoc(e)), DecisionFields(e)[i].word) == Meaning(DecisionFields(e)[i].doc)
  {
    hide ValueOf, Find, Present, Meaning, NoRepeats, DecisionFields;
    DecisionFieldsDiffer(e);
    FieldIsFound(DecisionFields(e), i);
  }

  lemma DecisionPart1(e: DecisionMessage)
    ensures var p := ValueOf(DecisionDoc(e));
            && ULongOf(Find(p, W.Id)) == Some(e.id)
            && ULongOf(Find(p, W.RunId)) == Some(e.runId)
            && ULongOf(Find(p, W.SignalId)) == Some(e.signalId)
            && TimeOf(Find(p, W.DecidedAt)) == Some(e.decidedAt)
            && TextOf(Find(p, W.Symbol)) == Some(e.symbol)
  {
    hide DecisionDoc, Find, Meaning, ValueOf, TextOf, TimeOf, DecOf, IntOf, Optionally, Named, OptAmountFits,
         AmountFits;
    hide DecDoc, IntDoc, WordDoc, OptDec, OptInt, OptText, TimeText, CheckDocs, ChecksOf;
    DecisionHas(e, 0);
    IntDocSurvives(e.id, 0, UINT64_MAX);
    DecisionHas(e, 1);
    IntDocSurvives(e.runId, 0, UINT64_MAX);
    DecisionHas(e, 2);
    IntDocSurvives(e.signalId, 0, UINT64_MAX);
    DecisionHas(e, 3);
    TimeDocSurvives(e.decidedAt);
    DecisionHas(e, 4);
    TextDocSurvives(e.symbol);
  }

  lemma DecisionPart2(e: DecisionMessage)
    ensures var p := ValueOf(DecisionDoc(e));
            && SignalSideOf(Find(p, W.Side)) == Some(e.side)
            && TextOf(Find(p, W.StrategyId)) == Some(e.strategyId)
            && RiskOutcomeOf(Find(p, W.Outcome)) == Some(e.outcome)
            && LongOf(Find(p, W.RequestedQuantity)) == Some(e.requestedQuantity)
            && LongOf(Find(p, W.ApprovedQuantity)) == Some(e.approvedQuantity)
  {
    hide DecisionDoc, Find, Meaning, ValueOf, TextOf, TimeOf, DecOf, IntOf, Optionally, Named, OptAmountFits,
         AmountFits;
    hide DecDoc, IntDoc, WordDoc, OptDec, OptInt, OptText, TimeText, CheckDocs, ChecksOf;
    DecisionHas(e, 5);
    SignalSideSurvives(e.side);
    DecisionHas(e, 6);
    TextDocSurvives(e.strategyId);
    DecisionHas(e, 7);
    RiskOutcomeSurvives(e.outcome);
    DecisionHas(e, 8);
    IntDocSurvives(e.requestedQuantity, -INT64_MAX - 1, INT64_MAX);
    DecisionHas(e, 9);
    IntDocSurvives(e.approvedQuantity, -INT64_MAX - 1, INT64_MAX);
  }

  lemma DecisionPart3(e: DecisionMessage)
    ensures var p := ValueOf(DecisionDoc(e));
            && Optionally(Find(p, W.Reason), TextOf) == Some(e.reason)
            && ChecksOf(Find(p, W.Checks)) == Some(e.checks)
            && Optionally(Find(p, W.OrderId), ULongOf) == Some(e.orderId)
  {
    hide DecisionDoc, Find, Meaning, ValueOf, TextOf, TimeOf, DecOf, IntOf, Optionally, Named, OptAmountFits,
         AmountFits;
    hide DecDoc, IntDoc, WordDoc, OptDec, OptInt, OptText, TimeText, CheckDocs, ChecksOf;
    DecisionHas(e, 10);
    OptTextSurvives(e.reason);
    DecisionHas(e, 11);
    ChecksSurvive(e.checks);
    DecisionHas(e, 12);
    OptIdSurvives(e.orderId);
  }

  lemma DecisionSurvives(e: DecisionMessage)
    ensures DecisionFrom(ValueOf(DecisionDoc(e))) == Some(e)
  {
    hide DecisionDoc, ValueOf, Find, TextOf, TimeOf, DecOf, IntOf, LongOf, ULongOf, UIntOf, BoolOf, Optionally, Named;
    DecisionPart1(e);
    DecisionPart2(e);
    DecisionPart3(e);
  }
}
