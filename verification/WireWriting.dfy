/** How each event's text is built, member by member, and that it is the text of its document. */
module WireWriting {
  import opened DecimalText
  import opened Domain
  import opened Json
  import opened JsonWriting
  import opened MachineIntegers
  import opened WireCodec
  import opened WireMessages
  import W = WireWords

  lemma {:induction false} PresentGrows(fields: seq<Field>, k: nat)
    requires k < |fields|
    ensures var now := Present(fields[..k]);
            Present(fields[..k + 1])
            == match fields[k].doc case Some(d) => now + [(W.Spelled(fields[k].word), d)] case None => now
    decreases k
  {
    hide W.Spelled;
    if k == 0 {
      assert fields[..1] == [fields[0]] && fields[..1][1..] == [];
    } else {
      var rest := fields[1..];
      PresentGrows(rest, k - 1);
      assert fields[..k + 1][1..] == rest[..k] && fields[..k][1..] == rest[..k - 1];
    }
  }

  /** Everything listed so far, up to `k`, has been written. */
  ghost predicate Progress(w: ObjectWriter, fields: seq<Field>, k: nat)
    reads w
  {
    w.Valid() && k <= |fields| && w.members == Present(fields[..k])
  }

  method PutText(w: ObjectWriter, ghost fields: seq<Field>, ghost k: nat, name: W.Word, value: string)
    requires Progress(w, fields, k) && k < |fields| && fields[k] == Field(name, Some(DText(value)))
    modifies w
    ensures Progress(w, fields, k + 1)
  {
    hide Present, W.Spelled, ObjectWriter.Valid, Render;
    PresentGrows(fields, k);
    w.Text(W.Spelled(name), value);
  }

  method PutOptionalText(w: ObjectWriter, ghost fields: seq<Field>, ghost k: nat, name: W.Word, value: Option<string>)
    requires Progress(w, fields, k) && k < |fields| && fields[k] == Field(name, OptText(value))
    modifies w
    ensures Progress(w, fields, k + 1)
  {
    hide Present, W.Spelled, ObjectWriter.Valid, Render;
    PresentGrows(fields, k);
    if value.Some? { w.Text(W.Spelled(name), value.value); }
  }

  method PutInteger(w: ObjectWriter, ghost fields: seq<Field>, ghost k: nat, name: W.Word, value: int)
    requires Progress(w, fields, k) && k < |fields| && fields[k] == Field(name, Some(IntDoc(value)))
    modifies w
    ensures Progress(w, fields, k + 1)
  {
    hide Present, W.Spelled, ObjectWriter.Valid, Render;
    PresentGrows(fields, k);
    w.Integer(W.Spelled(name), value);
  }

  method PutOptionalInteger(w: ObjectWriter, ghost fields: seq<Field>, ghost k: nat, name: W.Word, value: Option<int>)
    requires Progress(w, fields, k) && k < |fields| && fields[k] == Field(name, OptInt(value))
    modifies w
    ensures Progress(w, fields, k + 1)
  {
    hide Present, W.Spelled, ObjectWriter.Valid, Render;
    PresentGrows(fields, k);
    if value.Some? { w.Integer(W.Spelled(name), value.value); }
  }

  method PutAmount(w: ObjectWriter, ghost fields: seq<Field>, ghost k: nat, name: W.Word, value: Long)
    requires Progress(w, fields, k) && k < |fields| && fields[k] == Field(name, Some(DecDoc(value)))
    modifies w
    ensures Progress(w, fields, k + 1)
  {
    hide Present, W.Spelled, ObjectWriter.Valid, Render;
    PresentGrows(fields, k);
    w.Text(W.Spelled(name), FormatOf(value, DECIMAL_PLACES));
  }

  method PutOptionalAmount(w: ObjectWriter, ghost fields: seq<Field>, ghost k: nat, name: W.Word, value: Option<Long>)
    requires Progress(w, fields, k) && k < |fields| && fields[k] == Field(name, OptDec(value))
    modifies w
    ensures Progress(w, fields, k + 1)
  {
    hide Present, W.Spelled, ObjectWriter.Valid, Render;
    PresentGrows(fields, k);
    if value.Some? { w.Text(W.Spelled(name), FormatOf(value.value, DECIMAL_PLACES)); }
  }

  method PutTime(w: ObjectWriter, ghost fields: seq<Field>, ghost k: nat, name: W.Word, value: Long)
    requires Progress(w, fields, k) && k < |fields| && fields[k] == Field(name, Some(DText(TimeText(value))))
    modifies w
    ensures Progress(w, fields, k + 1)
  {
    hide Present, W.Spelled, ObjectWriter.Valid, Render;
    PresentGrows(fields, k);
    w.Text(W.Spelled(name), TimeText(value));
  }

  method PutRaw(w: ObjectWriter, ghost fields: seq<Field>, ghost k: nat, name: W.Word, literal: string,
                ghost value: Doc)
    requires Progress(w, fields, k) && k < |fields| && fields[k] == Field(name, Some(value)) && literal == Render(value)
    modifies w
    ensures Progress(w, fields, k + 1)
  {
    hide Present, W.Spelled, ObjectWriter.Valid, Render;
    PresentGrows(fields, k);
    w.Raw(W.Spelled(name), literal, value);
  }

  method PutOptionalNumber(w: ObjectWriter, ghost fields: seq<Field>, ghost k: nat, name: W.Word, doubles: Doubles,
                           value: Option<real>)
    requires Progress(w, fields, k) && k < |fields| && fields[k] == Field(name, OptNumber(doubles, value))
    modifies w
    ensures Progress(w, fields, k + 1)
  {
    hide Present, W.Spelled, ObjectWriter.Valid;
    PresentGrows(fields, k);
    if value.Some? { w.Raw(W.Spelled(name), doubles.show(value.value), DNumber(doubles.show(value.value))); }
  }

  method MetadataJson(m: map<string, string>, keys: seq<string>) returns (text: string)
    requires Lists(keys, m)
    ensures text == Render(DObject(MetadataMembers(m, keys)))
  {
    hide RenderMembers;
    var w := new ObjectWriter("");
    for i := 0 to |keys|
      invariant w.Valid() && w.before == "" && w.members == MetadataMembers(m, keys[..i])
    {
      MetadataGrows(m, keys[..i], keys[i]);
      assert keys[..i + 1] == keys[..i] + [keys[i]];
      w.Text(keys[i], m[keys[i]]);
    }
    assert keys[..|keys|] == keys;
    text := w.Close();
    assert "" + text == text;
  }

  lemma {:induction false} MetadataGrows(m: map<string, string>, keys: seq<string>, key: string)
    requires key in m
    ensures MetadataMembers(m, keys + [key]) == MetadataMembers(m, keys) + [(key, DText(m[key]))]
    decreases |keys|
  {
    if keys == [] {
      assert [key][1..] == [];
    } else {
      assert (keys + [key])[1..] == keys[1..] + [key];
      MetadataGrows(m, keys[1..], key);
    }
  }

  lemma {:induction false} ItemsGrow(items: seq<Doc>, d: Doc)
    ensures RenderItems(items + [d]) == RenderItems(items) + (if items == [] then "" else ",") + Render(d)
    decreases |items|
  {
    hide Render;
    if items == [] {
      assert items + [d] == [d];
    } else {
      assert (items + [d])[1..] == items[1..] + [d];
      ItemsGrow(items[1..], d);
      if items[1..] == [] { assert items == [items[0]]; }
    }
  }

  lemma {:induction false} ChecksGrow(checks: seq<CheckMessage>, c: CheckMessage)
    ensures CheckDocs(checks + [c]) == CheckDocs(checks) + [CheckDoc(c)]
    decreases |checks|
  {
    hide CheckDoc;
    if checks == [] {
      assert [c][1..] == [];
    } else {
      assert (checks + [c])[1..] == checks[1..] + [c];
      ChecksGrow(checks[1..], c);
    }
  }

  /** The array around the checks: a comma before each but the first. */
  method ChecksJson(checks: seq<CheckMessage>) returns (text: string)
    ensures text == Render(DArray(CheckDocs(checks)))
  {
    hide RenderItems, CheckDocs, CheckDoc;
    text := "[";
    assert RenderItems(CheckDocs(checks[..0])) == "" by { NoItems(checks); }
    for i := 0 to |checks|
      invariant text == "[" + RenderItems(CheckDocs(checks[..i]))
      invariant i == 0 <==> |text| == 1
    {
      ChecksGrow(checks[..i], checks[i]);
      ItemsGrow(CheckDocs(checks[..i]), CheckDoc(checks[i]));
      assert checks[..i + 1] == checks[..i] + [checks[i]];
      if |text| > 1 { text := text + ","; }
      text := CheckJson(text, checks[i]);
    }
    assert checks[..|checks|] == checks;
    text := text + "]";
  }

  lemma NoItems(checks: seq<CheckMessage>)
    ensures RenderItems(CheckDocs(checks[..0])) == ""
  {
  }

  method MarketHead(w: ObjectWriter, e: MarketMessage)
    requires Progress(w, MarketFields(e), 0)
    modifies w
    ensures Progress(w, MarketFields(e), 7)
  {
    hide Progress, Render, Present, W.Spelled, TimeText, DecDoc, IntDoc, OptDec, OptInt, CheckDocs, MetadataMembers,
         OptText;
    ghost var fields := MarketFields(e);
    PutText(w, fields, 0, W.Symbol, e.symbol);
    PutTime(w, fields, 1, W.ExchangeTime, e.exchangeTime);
    PutTime(w, fields, 2, W.IngestTime, e.ingestTime);
    PutText(w, fields, 3, W.Type, W.Spelled(MarketEventWord(e.kind)));
    PutOptionalAmount(w, fields, 4, W.Price, e.price);
    PutOptionalAmount(w, fields, 5, W.Bid, e.bid);
    PutOptionalAmount(w, fields, 6, W.Ask, e.ask);
  }

  method MarketJson(e: MarketMessage) returns (text: string)
    ensures text == Render(MarketDoc(e))
  {
    hide Progress, Render, Present, W.Spelled, TimeText, DecDoc, IntDoc, OptDec, OptInt, CheckDocs, MetadataMembers,
         OptText;
    ghost var fields := MarketFields(e);
    var w := new ObjectWriter("");
    Begun(w, fields);
    MarketHead(w, e);
    PutOptionalAmount(w, fields, 7, W.Open, e.open);
    PutOptionalAmount(w, fields, 8, W.High, e.high);
    PutOptionalAmount(w, fields, 9, W.Low, e.low);
    PutOptionalInteger(w, fields, 10, W.Size, e.size);
    PutOptionalInteger(w, fields, 11, W.Volume, e.volume);
    PutInteger(w, fields, 12, W.Sequence, e.sequence);
    text := Finish(w, fields, 13);
    assert "" + Render(MarketDoc(e)) == Render(MarketDoc(e));
  }

  method SignalJson(k: Doubles, e: SignalMessage, keys: seq<string>) returns (text: string)
    requires Lists(keys, e.metadata)
    ensures text == Render(SignalDoc(k, e, keys))
  {
    hide Progress, Render, Present, W.Spelled, TimeText, DecDoc, IntDoc, OptDec, OptInt, CheckDocs, MetadataMembers;
    ghost var fields := SignalFields(k, e, keys);
    var w := new ObjectWriter("");
    Begun(w, fields);
    PutInteger(w, fields, 0, W.Id, e.id);
    PutText(w, fields, 1, W.StrategyId, e.strategyId);
    PutText(w, fields, 2, W.Symbol, e.symbol);
    PutText(w, fields, 3, W.Side, W.Spelled(SideWord(e.side)));
    PutTime(w, fields, 4, W.CreatedAt, e.createdAt);
    PutOptionalInteger(w, fields, 5, W.RequestedQuantity, e.requestedQuantity);
    PutOptionalNumber(w, fields, 6, W.TargetExposure, k, e.targetExposure);
    PutOptionalNumber(w, fields, 7, W.Confidence, k, e.confidence);
    var metadata := MetadataJson(e.metadata, keys);
    PutRaw(w, fields, 8, W.Metadata, metadata, DObject(MetadataMembers(e.metadata, keys)));
    PutOptionalText(w, fields, 9, W.OrderType,
                    if e.orderType.Some? then Some(W.Spelled(OrderTypeWord(e.orderType.value))) else None);
    PutOptionalAmount(w, fields, 10, W.LimitPrice, e.limitPrice);
    text := Finish(w, fields, 11);
    assert "" + Render(SignalDoc(k, e, keys)) == Render(SignalDoc(k, e, keys));
  }

  method OrderHead(w: ObjectWriter, e: OrderMessage)
    requires Progress(w, OrderFields(e), 0)
    modifies w
    ensures Progress(w, OrderFields(e), 8)
  {
    hide Progress, Render, Present, W.Spelled, TimeText, DecDoc, IntDoc, OptDec, OptInt, CheckDocs, MetadataMembers,
         OptText;
    ghost var fields := OrderFields(e);
    PutInteger(w, fields, 0, W.Id, e.id);
    PutInteger(w, fields, 1, W.RunId, e.runId);
    PutInteger(w, fields, 2, W.OriginSignal, e.originSignal);
    PutText(w, fields, 3, W.StrategyId, e.strategyId);
    PutText(w, fields, 4, W.Symbol, e.symbol);
    PutText(w, fields, 5, W.Side, W.Spelled(OrderSideWord(e.side)));
    PutText(w, fields, 6, W.Type, W.Spelled(OrderTypeWord(e.kind)));
    PutInteger(w, fields, 7, W.Quantity, e.quantity);
  }

  method OrderJson(e: OrderMessage) returns (text: string)
    ensures text == Render(OrderDoc(e))
  {
    hide Progress, Render, Present, W.Spelled, TimeText, DecDoc, IntDoc, OptDec, OptInt, CheckDocs, MetadataMembers,
         OptText;
    ghost var fields := OrderFields(e);
    var w := new ObjectWriter("");
    Begun(w, fields);
    OrderHead(w, e);
    PutOptionalAmount(w, fields, 8, W.LimitPrice, e.limitPrice);
    PutText(w, fields, 9, W.Status, W.Spelled(OrderStatusWord(e.status)));
    PutTime(w, fields, 10, W.CreatedAt, e.createdAt);
    PutTime(w, fields, 11, W.UpdatedAt, e.updatedAt);
    PutInteger(w, fields, 12, W.FilledQuantity, e.filledQuantity);
    PutOptionalAmount(w, fields, 13, W.AverageFillPrice, e.averageFillPrice);
    PutOptionalText(w, fields, 14, W.RejectReason, e.rejectReason);
    text := Finish(w, fields, 15);
    assert "" + Render(OrderDoc(e)) == Render(OrderDoc(e));
  }

  method FillJson(e: FillMessage) returns (text: string)
    ensures text == Render(FillDoc(e))
  {
    hide Progress, Render, Present, W.Spelled, TimeText, DecDoc, IntDoc, OptDec, OptInt, CheckDocs, MetadataMembers,
         OptText;
    ghost var fields := FillFields(e);
    var w := new ObjectWriter("");
    Begun(w, fields);
    PutInteger(w, fields, 0, W.Id, e.id);
    PutInteger(w, fields, 1, W.OrderId, e.orderId);
    PutInteger(w, fields, 2, W.RunId, e.runId);
    PutText(w, fields, 3, W.Symbol, e.symbol);
    PutInteger(w, fields, 4, W.FilledQuantity, e.filledQuantity);
    PutAmount(w, fields, 5, W.FillPrice, e.fillPrice);
    PutAmount(w, fields, 6, W.Fees, e.fees);
    PutAmount(w, fields, 7, W.Slippage, e.slippage);
    PutTime(w, fields, 8, W.FilledAt, e.filledAt);
    PutText(w, fields, 9, W.Status, W.Spelled(FillStatusWord(e.status)));
    PutInteger(w, fields, 10, W.Sequence, e.sequence);
    text := Finish(w, fields, 11);
    assert "" + Render(FillDoc(e)) == Render(FillDoc(e));
  }

  method CheckJson(before: string, e: CheckMessage) returns (text: string)
    ensures text == before + Render(CheckDoc(e))
    ensures |text| > |before|
  {
    hide Progress, Render, Present, W.Spelled, TimeText, DecDoc, IntDoc, OptDec, OptInt, CheckDocs, MetadataMembers,
         OptText;
    BoolText(e.passed);
    ghost var fields := CheckFields(e);
    var w := new ObjectWriter(before);
    Begun(w, fields);
    PutText(w, fields, 0, W.Policy, e.policy);
    PutRaw(w, fields, 1, W.Passed, if e.passed then "true" else "false", DBool(e.passed));
    PutText(w, fields, 2, W.Detail, e.detail);
    PutOptionalText(w, fields, 3, W.Limit, e.limit);
    PutOptionalText(w, fields, 4, W.Observed, e.observed);
    text := Finish(w, fields, 5);
  }

  method DecisionHead(w: ObjectWriter, e: DecisionMessage)
    requires Progress(w, DecisionFields(e), 0)
    modifies w
    ensures Progress(w, DecisionFields(e), 7)
  {
    hide Progress, Render, Present, W.Spelled, TimeText, DecDoc, IntDoc, OptDec, OptInt, CheckDocs, MetadataMembers,
         OptText;
    ghost var fields := DecisionFields(e);
    PutInteger(w, fields, 0, W.Id, e.id);
    PutInteger(w, fields, 1, W.RunId, e.runId);
    PutInteger(w, fields, 2, W.SignalId, e.signalId);
    PutTime(w, fields, 3, W.DecidedAt, e.decidedAt);
    PutText(w, fields, 4, W.Symbol, e.symbol);
    PutText(w, fields, 5, W.Side, W.Spelled(SideWord(e.side)));
    PutText(w, fields, 6, W.StrategyId, e.strategyId);
  }

  method DecisionJson(e: DecisionMessage) returns (text: string)
    ensures text == Render(DecisionDoc(e))
  {
    hide Progress, Render, Present, W.Spelled, TimeText, DecDoc, IntDoc, OptDec, OptInt, CheckDocs, MetadataMembers,
         OptText;
    ghost var fields := DecisionFields(e);
    var w := new ObjectWriter("");
    Begun(w, fields);
    DecisionHead(w, e);
    PutText(w, fields, 7, W.Outcome, W.Spelled(OutcomeWord(e.outcome)));
    PutInteger(w, fields, 8, W.RequestedQuantity, e.requestedQuantity);
    PutInteger(w, fields, 9, W.ApprovedQuantity, e.approvedQuantity);
    PutOptionalText(w, fields, 10, W.Reason, e.reason);
    var checks := ChecksJson(e.checks);
    PutRaw(w, fields, 11, W.Checks, checks, DArray(CheckDocs(e.checks)));
    PutOptionalInteger(w, fields, 12, W.OrderId, e.orderId);
    text := Finish(w, fields, 13);
    assert "" + Render(DecisionDoc(e)) == Render(DecisionDoc(e));
  }

  lemma BoolText(b: bool)
    ensures Render(DBool(b)) == if b then "true" else "false"
  {
  }

  lemma Begun(w: ObjectWriter, fields: seq<Field>)
    requires w.Valid() && w.members == []
    ensures Progress(w, fields, 0)
  {
  }

  method Finish(w: ObjectWriter, ghost fields: seq<Field>, ghost k: nat) returns (text: string)
    requires Progress(w, fields, k) && k == |fields|
    modifies w
    ensures text == w.before + Render(DObject(Present(fields)))
    ensures |text| > |w.before|
  {
    assert fields[..k] == fields;
    text := w.Close();
  }
}
