/** Whole messages: the envelope around an event, written and read back. */
module WireProtocol {
  import opened DecimalText
  import opened Domain
  import opened Json
  import opened JsonWriting
  import opened MachineIntegers
  import opened WireCodec
  import opened WireMessages
  import opened WireWriting
  import W = WireWords

  function PayloadDoc(k: Doubles, p: Payload, keys: seq<string>): Doc {
    match p
    case MarketPayload(m) => MarketDoc(m)
    case SignalPayload(s) => SignalDoc(k, s, keys)
    case OrderPayload(o) => OrderDoc(o)
    case FillPayload(f) => FillDoc(f)
    case DecisionPayload(d) => DecisionDoc(d)
  }

  function EnvelopeFields(k: Doubles, e: Envelope, keys: seq<string>): (fields: seq<Field>)
    ensures |fields| == 6
  {
    [
      Field(W.Schema, Some(IntDoc(SCHEMA))),
      Field(W.Origin, Some(DText(e.origin))),
      Field(W.Sequence, Some(IntDoc(e.sequence))),
      Field(W.Type, WordDoc(EventTypeWord(e.kind))),
      Field(W.EnqueuedAt, Some(DText(TimeText(e.enqueuedAt)))),
      Field(W.Payload, Some(PayloadDoc(k, e.payload, keys)))
    ]
  }

  function EnvelopeDoc(k: Doubles, e: Envelope, keys: seq<string>): Doc {
    DObject(Present(EnvelopeFields(k, e, keys)))
  }

  /** The message of an event; None when its type and payload disagree. */
  function Encode(k: Doubles, e: Envelope, keys: seq<string>): Option<string> {
    if PayloadMatches(e) then Some(Render(EnvelopeDoc(k, e, keys))) else None
  }

  function Wrapped<T>(m: Option<T>, wrap: T -> Payload): Option<Payload> {
    if m.None? then None else Some(wrap(m.value))
  }

  function PayloadFrom(k: Doubles, kind: EventType, p: Value): Option<Payload> {
    match kind
    case MarketEvents => Wrapped(MarketFrom(p), m => MarketPayload(m))
    case SignalEvents => Wrapped(SignalFrom(k, p), s => SignalPayload(s))
    case OrderEvents => Wrapped(OrderFrom(p), o => OrderPayload(o))
    case FillEvents => Wrapped(FillFrom(p), f => FillPayload(f))
    case DecisionEvents => Wrapped(DecisionFrom(p), d => DecisionPayload(d))
  }

  function EnvelopeFrom(k: Doubles, root: Value): Option<Envelope> {
    var schema := IntOf(Find(root, W.Schema), -0x8000_0000, 0x7FFF_FFFF);
    var origin, sequence := TextOf(Find(root, W.Origin)), ULongOf(Find(root, W.Sequence));
    var kind, enqueuedAt := EventTypeOf(Find(root, W.Type)), TimeOf(Find(root, W.EnqueuedAt));
    var body := Find(root, W.Payload);
    if schema != Some(SCHEMA) || origin.None? || sequence.None? || kind.None? || enqueuedAt.None?
       || body.None? || !body.value.Object?
    then None
    else
      var payload := PayloadFrom(k, kind.value, body.value);
      if payload.None? then None
      else Some(Envelope(origin.value, sequence.value, kind.value, enqueuedAt.value, payload.value))
  }

  /** None stands for every DecodeError. */
  function Decode(k: Doubles, text: string): Option<Envelope> {
    match DocumentOf(text)
    case Fail => None
    case Got(root, _) => if root.Object? then EnvelopeFrom(k, root) else None
  }

  // ----- the documents are JSON ----------------------------------------------------------

  predicate AmountsFit(p: Payload) {
    match p
    case MarketPayload(m) => MarketFits(m)
    case SignalPayload(s) => SignalFits(s)
    case OrderPayload(o) => OrderFits(o)
    case FillPayload(f) => FillFits(f)
    case DecisionPayload(_) => true
  }

  /** What is assumed of a signal's doubles and of the order its metadata is written in. */
  ghost predicate Writable(k: Doubles, p: Payload, keys: seq<string>) {
    p.SignalPayload? ==>
      && DoubleSurvives(k, p.signal.targetExposure) && DoubleSurvives(k, p.signal.confidence)
      && Lists(keys, p.signal.metadata)
  }

  lemma TextFits(s: string, depth: nat)
    requires depth <= MAX_DEPTH
    ensures WellFormed(DText(s), depth)
  {
  }

  lemma NumberFits(n: int, depth: nat)
    requires depth <= MAX_DEPTH
    ensures WellFormed(IntDoc(n), depth)
  {
    IntTextIsANumber(n);
  }

  lemma OptNumberFits(n: Option<int>, depth: nat)
    requires depth <= MAX_DEPTH
    ensures OptInt(n).Some? ==> WellFormed(OptInt(n).value, depth)
  {
    if n.Some? { NumberFits(n.value, depth); }
  }

  lemma MarketIsJson(e: MarketMessage, depth: nat)
    requires depth < MAX_DEPTH
    ensures WellFormed(MarketDoc(e), depth)
  {
    MarketFieldsDiffer(e);
    hide Present, TimeText, FormatOf, W.Spelled, IntText, NoRepeats;
    NumberFits(e.sequence, depth + 1);
    OptNumberFits(e.size, depth + 1);
    OptNumberFits(e.volume, depth + 1);
    ObjectIsWellFormed(MarketFields(e), depth);
  }

  lemma SignalIsJson(k: Doubles, e: SignalMessage, keys: seq<string>, depth: nat)
    requires depth + 1 < MAX_DEPTH && Writable(k, SignalPayload(e), keys)
    ensures WellFormed(SignalDoc(k, e, keys), depth)
  {
    SignalFieldsDiffer(k, e, keys);
    hide Present, TimeText, FormatOf, W.Spelled, IntText, NoRepeats, MetadataMembers;
    NumberFits(e.id, depth + 1);
    OptNumberFits(e.requestedQuantity, depth + 1);
    MetadataIsJson(e.metadata, keys, depth + 1);
    ObjectIsWellFormed(SignalFields(k, e, keys), depth);
  }

  lemma MetadataIsJson(m: map<string, string>, keys: seq<string>, depth: nat)
    requires Lists(keys, m) && depth < MAX_DEPTH
    ensures WellFormed(DObject(MetadataMembers(m, keys)), depth)
  {
    hide MetadataMembers;
    MetadataInOrder(m, keys);
  }

  lemma OrderIsJson(e: OrderMessage, depth: nat)
    requires depth < MAX_DEPTH
    ensures WellFormed(OrderDoc(e), depth)
  {
    OrderFieldsDiffer(e);
    hide Present, TimeText, FormatOf, W.Spelled, IntText, NoRepeats;
    NumberFits(e.id, depth + 1);
    NumberFits(e.runId, depth + 1);
    NumberFits(e.originSignal, depth + 1);
    NumberFits(e.quantity, depth + 1);
    NumberFits(e.filledQuantity, depth + 1);
    ObjectIsWellFormed(OrderFields(e), depth);
  }

  lemma FillIsJson(e: FillMessage, depth: nat)
    requires depth < MAX_DEPTH
    ensures WellFormed(FillDoc(e), depth)
  {
    FillFieldsDiffer(e);
    hide Present, TimeText, FormatOf, W.Spelled, IntText, NoRepeats;
    NumberFits(e.id, depth + 1);
    NumberFits(e.orderId, depth + 1);
    NumberFits(e.runId, depth + 1);
    NumberFits(e.filledQuantity, depth + 1);
    NumberFits(e.sequence, depth + 1);
    ObjectIsWellFormed(FillFields(e), depth);
  }

  lemma CheckIsJson(e: CheckMessage, depth: nat)
    requires depth < MAX_DEPTH
    ensures WellFormed(CheckDoc(e), depth)
  {
    CheckFieldsDiffer(e);
    hide Present, TimeText, FormatOf, W.Spelled, IntText, NoRepeats;
    ObjectIsWellFormed(CheckFields(e), depth);
  }

  lemma {:induction false} ChecksAreJson(checks: seq<CheckMessage>, depth: nat)
    requires depth < MAX_DEPTH
    ensures forall i :: 0 <= i < |checks| ==> WellFormed(CheckDocs(checks)[i], depth)
    decreases |checks|
  {
    hide WellFormed, CheckDoc;
    if checks == [] {
    } else {
      CheckIsJson(checks[0], depth);
      ChecksAreJson(checks[1..], depth);
    }
  }

  lemma DecisionIsJson(e: DecisionMessage, depth: nat)
    requires depth + 2 < MAX_DEPTH
    ensures WellFormed(DecisionDoc(e), depth)
  {
    DecisionFieldsDiffer(e);
    hide Present, TimeText, FormatOf, W.Spelled, IntText, NoRepeats, CheckDocs;
    NumberFits(e.id, depth + 1);
    NumberFits(e.runId, depth + 1);
    NumberFits(e.signalId, depth + 1);
    NumberFits(e.requestedQuantity, depth + 1);
    NumberFits(e.approvedQuantity, depth + 1);
    OptNumberFits(e.orderId, depth + 1);
    ChecksAreJson(e.checks, depth + 2);
    ObjectIsWellFormed(DecisionFields(e), depth);
  }

  lemma PayloadIsJson(k: Doubles, p: Payload, keys: seq<string>)
    requires Writable(k, p, keys)
    ensures WellFormed(PayloadDoc(k, p, keys), 1)
  {
    hide WellFormed, MarketDoc, SignalDoc, OrderDoc, FillDoc, DecisionDoc;
    match p
    case MarketPayload(m) => MarketIsJson(m, 1);
    case SignalPayload(s) => SignalIsJson(k, s, keys, 1);
    case OrderPayload(o) => OrderIsJson(o, 1);
    case FillPayload(f) => FillIsJson(f, 1);
    case DecisionPayload(d) => DecisionIsJson(d, 1);
  }

  lemma EnvelopeFieldsDiffer(k: Doubles, e: Envelope, keys: seq<string>)
    ensures NoRepeats(EnvelopeFields(k, e, keys))
  {
    hide TimeText, IntDoc, WordDoc, PayloadDoc;
  }

  lemma EnvelopeIsJson(k: Doubles, e: Envelope, keys: seq<string>)
    requires Writable(k, e.payload, keys)
    ensures WellFormed(EnvelopeDoc(k, e, keys), 0)
  {
    hide Present, WellFormed, TimeText, W.Spelled, IntDoc, NoRepeats, PayloadDoc, EventTypeWord;
    EnvelopeFieldsDiffer(k, e, keys);
    NumberFits(SCHEMA, 1);
    TextFits(e.origin, 1);
    NumberFits(e.sequence, 1);
    TextFits(W.Spelled(EventTypeWord(e.kind)), 1);
    TextFits(TimeText(e.enqueuedAt), 1);
    PayloadIsJson(k, e.payload, keys);
    ObjectIsWellFormed(EnvelopeFields(k, e, keys), 0);
  }

  // ----- the round trip ------------------------------------------------------------------

  lemma PayloadSurvives(k: Doubles, e: Envelope, keys: seq<string>)
    requires PayloadMatches(e) && Writable(k, e.payload, keys)
    ensures PayloadFrom(k, e.kind, ValueOf(PayloadDoc(k, e.payload, keys)))
         == if AmountsFit(e.payload) then Some(e.payload) else None
  {
    hide ValueOf, MarketDoc, SignalDoc, OrderDoc, FillDoc, DecisionDoc;
    hide MarketFrom, SignalFrom, OrderFrom, FillFrom, DecisionFrom, MarketFits, SignalFits, OrderFits, FillFits;
    match e.payload
    case MarketPayload(m) => MarketSurvives(m);
    case SignalPayload(s) => SignalSurvives(k, s, keys);
    case OrderPayload(o) => OrderSurvives(o);
    case FillPayload(f) => FillSurvives(f);
    case DecisionPayload(d) => DecisionSurvives(d);
  }

  lemma EnvelopeHas(k: Doubles, e: Envelope, keys: seq<string>, i: nat)
    requires i < 6
    ensures Find(ValueOf(EnvelopeDoc(k, e, keys)), EnvelopeFields(k, e, keys)[i].word)
         == Meaning(EnvelopeFields(k, e, keys)[i].doc)
  {
    hide ValueOf, Find, Present, Meaning, NoRepeats, EnvelopeFields;
    EnvelopeFieldsDiffer(k, e, keys);
    FieldIsFound(EnvelopeFields(k, e, keys), i);
  }

  lemma PayloadIsAnObject(k: Doubles, p: Payload, keys: seq<string>)
    ensures ValueOf(PayloadDoc(k, p, keys)).Object?
  {
    hide Present, ValueOf, MarketFields, SignalFields, OrderFields, FillFields, DecisionFields;
    match p
    case MarketPayload(m) => ObjectValue(Present(MarketFields(m)));
    case SignalPayload(s) => ObjectValue(Present(SignalFields(k, s, keys)));
    case OrderPayload(o) => ObjectValue(Present(OrderFields(o)));
    case FillPayload(f) => ObjectValue(Present(FillFields(f)));
    case DecisionPayload(d) => ObjectValue(Present(DecisionFields(d)));
  }

  lemma EnvelopeNumbers(k: Doubles, e: Envelope, keys: seq<string>)
    ensures var root := ValueOf(EnvelopeDoc(k, e, keys));
            && IntOf(Find(root, W.Schema), -0x8000_0000, 0x7FFF_FFFF) == Some(SCHEMA)
            && ULongOf(Find(root, W.Sequence)) == Some(e.sequence)
  {
    hide EnvelopeDoc, Find, Meaning, ValueOf, IntOf, IntDoc, WordDoc, TimeText, PayloadDoc, EventTypeWord;
    EnvelopeHas(k, e, keys, 0);
    EnvelopeHas(k, e, keys, 2);
    IntDocSurvives(SCHEMA, -0x8000_0000, 0x7FFF_FFFF);
    IntDocSurvives(e.sequence, 0, UINT64_MAX);
  }

  lemma EnvelopeBody(k: Doubles, e: Envelope, keys: seq<string>)
    ensures Find(ValueOf(EnvelopeDoc(k, e, keys)), W.Payload) == Some(ValueOf(PayloadDoc(k, e.payload, keys)))
  {
    hide EnvelopeDoc, Find, ValueOf, IntDoc, WordDoc, TimeText, PayloadDoc, EventTypeWord;
    EnvelopeHas(k, e, keys, 5);
  }

  lemma EnvelopeTexts(k: Doubles, e: Envelope, keys: seq<string>)
    ensures var root := ValueOf(EnvelopeDoc(k, e, keys));
            && TextOf(Find(root, W.Origin)) == Some(e.origin)
            && EventTypeOf(Find(root, W.Type)) == Some(e.kind)
            && TimeOf(Find(root, W.EnqueuedAt)) == Some(e.enqueuedAt)
  {
    hide EnvelopeDoc, Find, Meaning, ValueOf, TextOf, TimeOf, Named, IntDoc, WordDoc, TimeText, PayloadDoc,
         EventTypeWord;
    EnvelopeHas(k, e, keys, 1);
    TextDocSurvives(e.origin);
    EnvelopeHas(k, e, keys, 3);
    EventTypeSurvives(e.kind);
    EnvelopeHas(k, e, keys, 4);
    TimeDocSurvives(e.enqueuedAt);
  }

  /** The parsed envelope gives back its fields, and its payload when its amounts fit. */
  lemma EnvelopeSurvives(k: Doubles, e: Envelope, keys: seq<string>)
    requires PayloadMatches(e) && Writable(k, e.payload, keys)
    ensures ValueOf(EnvelopeDoc(k, e, keys)).Object?
    ensures EnvelopeFrom(k, ValueOf(EnvelopeDoc(k, e, keys))) == if AmountsFit(e.payload) then Some(e) else None
  {
    hide EnvelopeDoc, ValueOf, Find, PayloadFrom, PayloadDoc, AmountsFit, IntOf, TextOf, TimeOf, EventTypeOf,
         PayloadMatches, Writable;
    EnvelopeIsAnObject(k, e, keys);
    EnvelopeNumbers(k, e, keys);
    EnvelopeBody(k, e, keys);
    EnvelopeTexts(k, e, keys);
    PayloadIsAnObject(k, e.payload, keys);
    PayloadSurvives(k, e, keys);
  }

  /**
   * decode(encode(e)) is e, for every envelope whose payload has the type it says; only an amount of
   * INT64_MIN millionths is refused, and only a mismatched payload is not written at all. (On the
   * first, partial day of the int64 range the source's own formatting of a timestamp overflows; the
   * model's does not, so for those timestamps this says more than the source does.)
   */
  lemma DecodeUndoesEncode(k: Doubles, e: Envelope, keys: seq<string>)
    requires Writable(k, e.payload, keys)
    ensures Encode(k, e, keys).Some? <==> PayloadMatches(e)
    ensures PayloadMatches(e) ==>
              Decode(k, Encode(k, e, keys).value) == if AmountsFit(e.payload) then Some(e) else None
  {
    hide EnvelopeDoc, Render, DocumentOf, ValueOf, EnvelopeFrom, AmountsFit, WellFormed, Writable, PayloadMatches;
    if PayloadMatches(e) {
      EnvelopeIsJson(k, e, keys);
      ParseUndoesRender(EnvelopeDoc(k, e, keys));
      EnvelopeSurvives(k, e, keys);
    }
  }

  lemma EnvelopeIsAnObject(k: Doubles, e: Envelope, keys: seq<string>)
    ensures ValueOf(EnvelopeDoc(k, e, keys)).Object?
  {
    hide Present, ValueOf, EnvelopeFields;
    ObjectValue(Present(EnvelopeFields(k, e, keys)));
  }

  // ----- the encoder as it runs ----------------------------------------------------------

  method PayloadJson(k: Doubles, p: Payload, keys: seq<string>) returns (text: string)
    requires Writable(k, p, keys)
    ensures text == Render(PayloadDoc(k, p, keys))
  {
    hide Render, MarketDoc, SignalDoc, OrderDoc, FillDoc, DecisionDoc, DoubleSurvives, Lists;
    match p
    case MarketPayload(m) => text := MarketJson(m);
    case SignalPayload(s) => text := SignalJson(k, s, keys);
    case OrderPayload(o) => text := OrderJson(o);
    case FillPayload(f) => text := FillJson(f);
    case DecisionPayload(d) => text := DecisionJson(d);
  }

  method EncodeEnvelope(k: Doubles, e: Envelope, keys: seq<string>) returns (message: Option<string>)
    requires Writable(k, e.payload, keys)
    ensures message == Encode(k, e, keys)
  {
    hide Progress, Render, W.Spelled, TimeText, IntDoc, PayloadDoc, Writable;
    if !PayloadMatches(e) { return None; }
    ghost var fields := EnvelopeFields(k, e, keys);
    var w := new ObjectWriter("");
    Begun(w, fields);
    PutInteger(w, fields, 0, W.Schema, SCHEMA);
    PutText(w, fields, 1, W.Origin, e.origin);
    PutInteger(w, fields, 2, W.Sequence, e.sequence);
    PutText(w, fields, 3, W.Type, W.Spelled(EventTypeWord(e.kind)));
    PutTime(w, fields, 4, W.EnqueuedAt, e.enqueuedAt);
    var payload := PayloadJson(k, e.payload, keys);
    PutRaw(w, fields, 5, W.Payload, payload, PayloadDoc(k, e.payload, keys));
    var text := Finish(w, fields, 6);
    assert "" + Render(EnvelopeDoc(k, e, keys)) == Render(EnvelopeDoc(k, e, keys));
    return Some(text);
  }
}
