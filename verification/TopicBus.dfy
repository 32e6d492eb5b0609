/**
 * The topic event bus over a shared message log: publishers, the dispatcher, callers of
 * wait_until_drained() and other writers of the log, interleaved.
 *
 * A publish appends to the log and counts the message while holding the bus mutex; the dispatcher
 * polls the log without it, so a message can be read before it has been counted.
 */
module TopicBus {

  datatype Phase = NotStarted | Open | Draining | Stopped

  // `mine`: appended by this bus; `ours`: carries this bus's origin; `topic`: on a subscribed topic
  datatype Message = Message(payload: nat, mine: bool, ours: bool, topic: bool, decodable: bool)

  // What this bus publishes; `decodable`: its own decoder accepts what its encoder writes for it.
  datatype Publication = Publication(payload: nat, decodable: bool)

  datatype Publisher = NoPublisher | BeforeSend(publication: Publication) | BeforeCount

  datatype Worker =
    | NoWorker
    | Top                          // about to read stop_
    | Polling
    | Polled(message: Message)     // read from the log, not yet decoded under the mutex
    | Delivering(message: Message)
    | Exited

  datatype Outcome = AllDelivered | StopSeen | TimedOut

  datatype Caller = AwaitIdle | Finished(outcome: Outcome)

  datatype Bus = Bus(phase: Phase, stop: bool, busy: bool, publisher: Publisher, worker: Worker,
                     log: seq<Message>, start: nat, position: nat,
                     sequence: nat, sentOwn: nat, receivedOwn: nat, received: nat, decodeErrors: nat,
                     published: nat, rejected: nat,
                     callers: map<nat, Caller>,
                     delivered: seq<Message>, dropped: seq<Message>)

  datatype Step =
    | Start(fromBeginning: bool)
    | Shutdown
    | PublishBegin(publication: Publication, fromDispatcher: bool) // takes the bus mutex
    | Send(ok: bool)                                               // the transport appends, or refuses
    | Count                                  // sequence and counters; releases the mutex
    | ForeignAppend(message: Message)        // another writer of the shared log
    | CheckStop
    | Poll(found: bool)
    | Decode
    | Finish
    | WaitCall(thread: nat)
    | WaitEnd(thread: nat, timedOut: bool)

  const NEW := Bus(NotStarted, false, false, NoPublisher, NoWorker, [], 0, 0, 0, 0, 0, 0, 0, 0, 0, map[], [], [])

  predicate MutexFree(b: Bus) {
    b.publisher.NoPublisher?
  }

  predicate Accepting(b: Bus, fromDispatcher: bool) {
    b.phase == Open || (fromDispatcher && b.phase == Draining)
  }

  predicate Drained(b: Bus) {
    b.receivedOwn == b.sentOwn && !b.busy
  }

  /** The first message at or after `position` on a subscribed topic. */
  function NextIndex(log: seq<Message>, position: nat): (i: nat)
    requires position <= |log|
    ensures position <= i <= |log|
    ensures i < |log| ==> log[i].topic
    ensures forall k :: position <= k < i ==> !log[k].topic
    decreases |log| - position
  {
    if position == |log| || log[position].topic then position else NextIndex(log, position + 1)
  }

  ghost predicate Enabled(b: Bus, s: Step) {
    match s
    case Start(_) => MutexFree(b) && b.phase == NotStarted
    case Shutdown => MutexFree(b)
    case PublishBegin(_, fromDispatcher) => MutexFree(b) && (fromDispatcher ==> b.worker.Delivering?)
    case Send(_) => b.publisher.BeforeSend?
    case Count => b.publisher.BeforeCount?
    case ForeignAppend(m) => !m.mine
    case CheckStop => MutexFree(b) && b.worker.Top?
    case Poll(found) => b.worker.Polling? && b.position <= |b.log| && (found ==> NextIndex(b.log, b.position) < |b.log|)
    case Decode => MutexFree(b) && b.worker.Polled?
    case Finish => MutexFree(b) && b.worker.Delivering?
    case WaitCall(t) => MutexFree(b) && t !in b.callers && b.phase != NotStarted
    case WaitEnd(t, timedOut) =>
      MutexFree(b) && t in b.callers && b.callers[t].AwaitIdle? && (timedOut || Drained(b) || b.stop)
  }

  function OwnMessage(p: Publication): Message {
    Message(p.payload, true, true, true, p.decodable)
  }

  function Next(b: Bus, s: Step): Bus
    requires Enabled(b, s)
  {
    match s
    case Start(fromBeginning) =>
      var at := if fromBeginning then 0 else |b.log|;
      b.(phase := Open, worker := Top, start := at, position := at)
    case Shutdown =>
      if b.phase == Open then b.(phase := Draining)
      else if b.phase == NotStarted then b.(phase := Stopped)
      else b
    case PublishBegin(publication, fromDispatcher) =>
      if Accepting(b, fromDispatcher) then b.(publisher := BeforeSend(publication))
      else b.(rejected := b.rejected + 1)
    case Send(ok) =>
      if ok then b.(publisher := BeforeCount, log := b.log + [OwnMessage(b.publisher.publication)])
      else b.(publisher := NoPublisher, rejected := b.rejected + 1)
    case Count =>
      b.(publisher := NoPublisher, sequence := b.sequence + 1, sentOwn := b.sentOwn + 1,
         published := b.published + 1)
    case ForeignAppend(m) => b.(log := b.log + [m])
    case CheckStop => b.(worker := if b.stop then Exited else Polling)
    case Poll(found) =>
      if found then
        var i := NextIndex(b.log, b.position);
        b.(worker := Polled(b.log[i]), position := i + 1)
      else b.(worker := Top)
    case Decode =>
      var counted := b.(received := b.received + 1);
      if b.worker.message.decodable then counted.(worker := Delivering(b.worker.message), busy := true)
      else counted.(worker := Top, decodeErrors := b.decodeErrors + 1, dropped := b.dropped + [b.worker.message])
    case Finish =>
      b.(worker := Top, busy := false,
         receivedOwn := b.receivedOwn + (if b.worker.message.ours then 1 else 0),
         delivered := b.delivered + [b.worker.message])
    case WaitCall(t) => b.(callers := b.callers[t := AwaitIdle])
    case WaitEnd(t, timedOut) =>
      var outcome := if Drained(b) then AllDelivered else if b.stop then StopSeen else TimedOut;
      var ended := b.(callers := b.callers[t := Finished(outcome)]);
      if b.phase == Draining || b.phase == Stopped then ended.(stop := true, phase := Stopped) else ended
  }

  ghost predicate Run(b: Bus, steps: seq<Step>, b': Bus)
    decreases |steps|
  {
    if steps == [] then b == b' else Enabled(b, steps[0]) && Run(Next(b, steps[0]), steps[1..], b')
  }

  /** Delivering the message counts as receiving one of this bus's own. */
  predicate CountsAsOwn(m: Message) {
    m.ours && m.topic && m.decodable
  }

  /** What other writers append is in `foreign`. */
  ghost predicate Writes(steps: seq<Step>, foreign: iset<Message>) {
    forall s :: s in steps && s.ForeignAppend? ==> s.message in foreign
  }

  /** What this bus publishes is in `own`. */
  ghost predicate Publishes(steps: seq<Step>, own: iset<Publication>) {
    forall s :: s in steps && s.PublishBegin? ==> s.publication in own
  }

  ghost predicate AllDecode(own: iset<Publication>) {
    forall p :: p in own ==> p.decodable
  }

  /** No message of another writer passes for one of this bus's own. */
  ghost predicate NoneCounts(foreign: iset<Message>) {
    forall m :: m in foreign && !m.mine ==> !CountsAsOwn(m)
  }

  function Own(messages: seq<Message>): seq<Message> {
    if messages == [] then []
    else (if messages[0].mine then [messages[0]] else []) + Own(messages[1..])
  }

  function Readable(messages: seq<Message>): seq<Message> {
    if messages == [] then []
    else (if messages[0].topic && messages[0].decodable then [messages[0]] else []) + Readable(messages[1..])
  }

  /** On a topic, but refused by the decoder. */
  function Garbled(messages: seq<Message>): seq<Message> {
    if messages == [] then []
    else (if messages[0].topic && !messages[0].decodable then [messages[0]] else []) + Garbled(messages[1..])
  }

  lemma {:induction false} OwnOfConcat(a: seq<Message>, b: seq<Message>)
    ensures Own(a + b) == Own(a) + Own(b)
    decreases |a|
  {
    if a == [] {
      assert a + b == b;
    } else {
      assert (a + b)[1..] == a[1..] + b;
      OwnOfConcat(a[1..], b);
      var first := if a[0].mine then [a[0]] else [];
      assert first + (Own(a[1..]) + Own(b)) == (first + Own(a[1..])) + Own(b);
    }
  }

  lemma {:induction false} ReadableOfConcat(a: seq<Message>, b: seq<Message>)
    ensures Readable(a + b) == Readable(a) + Readable(b)
    decreases |a|
  {
    if a == [] {
      assert a + b == b;
    } else {
      assert (a + b)[1..] == a[1..] + b;
      ReadableOfConcat(a[1..], b);
    }
  }

  lemma {:induction false} GarbledOfConcat(a: seq<Message>, b: seq<Message>)
    ensures Garbled(a + b) == Garbled(a) + Garbled(b)
    decreases |a|
  {
    if a == [] {
      assert a + b == b;
    } else {
      assert (a + b)[1..] == a[1..] + b;
      GarbledOfConcat(a[1..], b);
    }
  }

  function InHand(w: Worker): seq<Message> {
    if w.Polled? || w.Delivering? then [w.message] else []
  }

  // ----- delivery order ------------------------------------------------------------------

  /** What the position has passed was delivered, dropped or is in hand, each in log order. */
  ghost predicate Sorted(seen: seq<Message>, delivered: seq<Message>, dropped: seq<Message>, hand: seq<Message>) {
    && Readable(seen) == delivered + Readable(hand)
    && Garbled(seen) == dropped + Garbled(hand)
  }

  ghost predicate WorkerOk(b: Bus) {
    && (b.worker.NoWorker? ==> b.delivered == b.dropped == [] && b.start == b.position == 0)
    && (b.phase == NotStarted ==> b.worker.NoWorker?)
    && (b.worker.Polled? ==> b.worker.message.topic)
    && (b.worker.Delivering? ==> b.worker.message.topic && b.worker.message.decodable)
    && (b.busy <==> b.worker.Delivering?)
  }

  ghost predicate InOrder(b: Bus) {
    && b.start <= b.position <= |b.log|
    && WorkerOk(b)
    && Sorted(b.log[b.start..b.position], b.delivered, b.dropped, InHand(b.worker))
  }

  lemma {:induction false} SkippedIsUnseen(skipped: seq<Message>)
    requires forall m :: m in skipped ==> !m.topic
    ensures Readable(skipped) == Garbled(skipped) == []
    decreases |skipped|
  {
    if skipped == [] {
    } else {
      SkippedIsUnseen(skipped[1..]);
    }
  }

  lemma SortedOne(m: Message)
    ensures Readable([m]) == if m.topic && m.decodable then [m] else []
    ensures Garbled([m]) == if m.topic && !m.decodable then [m] else []
    ensures Readable([]) == Garbled([]) == []
  {
    assert [m][1..] == [];
  }

  /** Passing over what is on no topic and taking the next message in hand. */
  lemma PassingKeepsSorted(seen: seq<Message>, skipped: seq<Message>, m: Message,
                           delivered: seq<Message>, dropped: seq<Message>)
    requires Sorted(seen, delivered, dropped, []) && forall x :: x in skipped ==> !x.topic
    ensures Sorted(seen + (skipped + [m]), delivered, dropped, [m])
  {
    hide Readable, Garbled;
    ReadableOfConcat(seen, skipped + [m]);
    ReadableOfConcat(skipped, [m]);
    GarbledOfConcat(seen, skipped + [m]);
    GarbledOfConcat(skipped, [m]);
    SkippedIsUnseen(skipped);
    SortedOne(m);
  }

  lemma PollKeepsOrder(b: Bus)
    requires InOrder(b) && Enabled(b, Poll(true))
    ensures InOrder(Next(b, Poll(true)))
  {
    hide Sorted;
    var i := NextIndex(b.log, b.position);
    var seen, skipped, m := b.log[b.start..b.position], b.log[b.position..i], b.log[i];
    assert b.log[b.start..i + 1] == seen + (skipped + [m]);
    PassingKeepsSorted(seen, skipped, m, b.delivered, b.dropped);
  }

  lemma ExtendedLogKeepsOrder(b: Bus, b': Bus)
    requires InOrder(b) && b.log <= b'.log
    requires b' == b.(log := b'.log, publisher := b'.publisher, rejected := b'.rejected)
    ensures InOrder(b')
  {
    hide Sorted;
    assert b'.log[b.start..b.position] == b.log[b.start..b.position];
  }

  /** What was in hand is delivered, dropped, or being delivered. */
  lemma HandingOnKeepsSorted(seen: seq<Message>, m: Message, delivered: seq<Message>, dropped: seq<Message>)
    requires Sorted(seen, delivered, dropped, [m]) && m.topic
    ensures m.decodable ==> Sorted(seen, delivered + [m], dropped, [])
    ensures !m.decodable ==> Sorted(seen, delivered, dropped + [m], [])
  {
    hide Readable, Garbled;
    SortedOne(m);
  }

  lemma HandoverKeepsOrder(b: Bus, s: Step)
    requires InOrder(b) && (s.Decode? || s.Finish?) && Enabled(b, s)
    ensures InOrder(Next(b, s))
  {
    hide Sorted;
    HandingOnKeepsSorted(b.log[b.start..b.position], b.worker.message, b.delivered, b.dropped);
  }

  lemma StartKeepsOrder(b: Bus, s: Step)
    requires InOrder(b) && s.Start? && Enabled(b, s)
    ensures InOrder(Next(b, s))
  {
    var b' := Next(b, s);
    assert b'.log[b'.start..b'.position] == [];
    SortedOne(Message(0, false, false, false, false));
  }

  lemma NextKeepsOrder(b: Bus, s: Step)
    requires InOrder(b) && Enabled(b, s)
    ensures InOrder(Next(b, s))
  {
    hide Sorted, NextIndex;
    match s
    case Start(_) => StartKeepsOrder(b, s);
    case Send(_) => ExtendedLogKeepsOrder(b, Next(b, s));
    case ForeignAppend(_) => ExtendedLogKeepsOrder(b, Next(b, s));
    case Poll(found) => if found { PollKeepsOrder(b); }
    case Decode => HandoverKeepsOrder(b, s);
    case Finish => HandoverKeepsOrder(b, s);
    case _ =>
  }

  lemma {:induction false} RunKeepsOrder(b: Bus, steps: seq<Step>, b': Bus)
    requires InOrder(b) && Run(b, steps, b')
    ensures InOrder(b')
    decreases |steps|
  {
    hide InOrder, Next;
    if steps == [] {
    } else {
      NextKeepsOrder(b, steps[0]);
      RunKeepsOrder(Next(b, steps[0]), steps[1..], b');
    }
  }

  lemma InitiallyInOrder()
    ensures InOrder(NEW)
  {
    assert NEW.log[0..0] == [];
    SortedOne(Message(0, false, false, false, false));
  }

  /** In log order, none skipped: what is on a topic and decodes is delivered, what does not decode is dropped. */
  lemma DeliveryFollowsTheLog(steps: seq<Step>, b: Bus)
    requires Run(NEW, steps, b)
    ensures b.start <= b.position <= |b.log|
    ensures b.delivered + Readable(InHand(b.worker)) == Readable(b.log[b.start..b.position])
    ensures b.dropped + Garbled(InHand(b.worker)) == Garbled(b.log[b.start..b.position])
  {
    hide Run, Readable, Garbled;
    InitiallyInOrder();
    RunKeepsOrder(NEW, steps, b);
  }

  // ----- the own-message counters --------------------------------------------------------

  function Counting(b: Bus): nat {
    if b.publisher.BeforeCount? then 1 else 0
  }

  /** Only this bus's own messages count as such: all that decode do. */
  ghost predicate Labelled(b: Bus) {
    && (forall m :: m in b.log + b.delivered + InHand(b.worker) ==> LabelOk(m))
    && WorkerOk(b)
    && (b.worker.NoWorker? ==>
          && b.phase in {NotStarted, Stopped} && b.publisher.NoPublisher?
          && Own(b.log) == [])
    && b.start <= |b.log| && Own(b.log[..b.start]) == []
  }

  predicate LabelOk(m: Message) {
    (m.mine ==> m.ours && m.topic) && (CountsAsOwn(m) ==> m.mine)
  }

  /** Every own message sent was delivered, or dropped undecoded, or is in hand, or is still to be read. */
  ghost predicate Counted(b: Bus) {
    && b.position <= |b.log|
    && b.sentOwn == b.published == b.sequence
    && b.sentOwn + Counting(b) == |Own(b.log)|
    && b.receivedOwn == |Own(b.delivered)| <= b.sentOwn
    && |Own(b.log)| ==
       |Own(b.delivered)| + |Own(b.dropped)| + |Own(InHand(b.worker))| + |Own(b.log[b.position..])|
  }

  lemma {:induction false} ForeignHasNoOwn(messages: seq<Message>)
    requires forall m :: m in messages ==> !m.mine
    ensures Own(messages) == []
    decreases |messages|
  {
    if messages == [] {
    } else {
      ForeignHasNoOwn(messages[1..]);
    }
  }

  lemma AppendCounts(b: Bus, m: Message)
    requires b.position <= |b.log|
    ensures Own(b.log + [m]) == Own(b.log) + Own([m])
    ensures Own((b.log + [m])[b.position..]) == Own(b.log[b.position..]) + Own([m])
    ensures Own([m]) == if m.mine then [m] else []
  {
    OwnOfConcat(b.log, [m]);
    OwnOfConcat(b.log[b.position..], [m]);
    assert (b.log + [m])[b.position..] == b.log[b.position..] + [m];
    assert [m][1..] == [];
  }

  lemma OwnOfOne(m: Message)
    ensures Own([m]) == if m.mine then [m] else []
  {
    assert [m][1..] == [];
  }

  lemma PollKeepsCount(b: Bus)
    requires Labelled(b) && Counted(b) && Enabled(b, Poll(true))
    ensures Counted(Next(b, Poll(true)))
  {
    hide Own;
    var i := NextIndex(b.log, b.position);
    var skipped := b.log[b.position..i];
    assert b.log[b.position..] == skipped + ([b.log[i]] + b.log[i + 1..]);
    OwnOfConcat(skipped, [b.log[i]] + b.log[i + 1..]);
    OwnOfConcat([b.log[i]], b.log[i + 1..]);
    forall m | m in skipped ensures !m.mine { assert m in b.log && LabelOk(m); }
    ForeignHasNoOwn(skipped);
    NothingOwn();
    assert InHand(b.worker) == [];
  }

  lemma NothingOwn()
    ensures Own([]) == []
  {
  }

  lemma AppendKeepsCount(b: Bus, m: Message)
    requires Counted(b) && (m.mine ==> b.publisher.BeforeSend?)
    ensures Counted(b.(log := b.log + [m], publisher := if m.mine then BeforeCount else b.publisher))
  {
    hide Own;
    AppendCounts(b, m);
  }

  lemma FinishKeepsCount(b: Bus)
    requires Labelled(b) && Counted(b) && Enabled(b, Finish)
    ensures Counted(Next(b, Finish))
  {
    hide Own;
    var m := b.worker.message;
    assert m in InHand(b.worker) && LabelOk(m);
    OwnOfConcat(b.delivered, [m]);
    OwnOfOne(m);
    NothingOwn();
  }

  lemma DecodeKeepsCount(b: Bus)
    requires Labelled(b) && Counted(b) && Enabled(b, Decode)
    ensures Counted(Next(b, Decode))
  {
    hide Own;
    var m := b.worker.message;
    assert m in InHand(b.worker);
    OwnOfConcat(b.dropped, [m]);
    OwnOfOne(m);
    NothingOwn();
  }

  lemma StartKeepsCount(b: Bus, fromBeginning: bool)
    requires Labelled(b) && Counted(b) && Enabled(b, Start(fromBeginning))
    ensures Counted(Next(b, Start(fromBeginning)))
  {
    hide Own;
    NothingOwn();
    assert b.log[|b.log|..] == [] && b.log[0..] == b.log;
  }

  /** A step that moves no message and counts none. */
  lemma UnmovedKeepsCount(b: Bus, b': Bus)
    requires Counted(b) && InHand(b'.worker) == InHand(b.worker) && Counting(b') == Counting(b)
    requires (b'.log, b'.delivered, b'.dropped, b'.position) == (b.log, b.delivered, b.dropped, b.position)
    requires (b'.sentOwn, b'.published) == (b.sentOwn, b.published)
    requires (b'.sequence, b'.receivedOwn) == (b.sequence, b.receivedOwn)
    ensures Counted(b')
  {
    hide Own;
  }

  lemma CountKeepsCount(b: Bus)
    requires Counted(b) && Enabled(b, Count)
    ensures Counted(Next(b, Count))
  {
    hide Own;
  }

  lemma NextKeepsCount(b: Bus, s: Step)
    requires Labelled(b) && Counted(b) && Enabled(b, s)
    ensures Counted(Next(b, s))
  {
    hide Labelled, Counted;
    match s
    case Start(fromBeginning) => StartKeepsCount(b, fromBeginning);
    case Send(ok) =>
      if ok {
        AppendKeepsCount(b, OwnMessage(b.publisher.publication));
      } else {
        UnmovedKeepsCount(b, Next(b, s));
      }
    case Count => CountKeepsCount(b);
    case ForeignAppend(m) => AppendKeepsCount(b, m);
    case Poll(found) =>
      if found {
        PollKeepsCount(b);
      } else {
        UnmovedKeepsCount(b, Next(b, s));
      }
    case Decode => DecodeKeepsCount(b);
    case Finish => FinishKeepsCount(b);
    case _ => UnmovedKeepsCount(b, Next(b, s));
  }

  /** A message put at the end of the log, labelled as it should be. */
  lemma AppendKeepsLabels(b: Bus, b': Bus, m: Message)
    requires Labelled(b) && LabelOk(m) && (m.mine ==> !b.worker.NoWorker?)
    requires b' == b.(log := b.log + [m], publisher := b'.publisher)
    requires m.mine || b'.publisher == b.publisher
    ensures Labelled(b')
  {
    hide Own;
    OwnOfConcat(b.log, [m]);
    OwnOfOne(m);
    assert forall x :: x in b.log + [m] ==> x in b.log || x == m;
    assert b'.log[..b.start] == b.log[..b.start];
  }

  lemma StartKeepsLabels(b: Bus, fromBeginning: bool)
    requires Labelled(b) && Enabled(b, Start(fromBeginning))
    ensures Labelled(Next(b, Start(fromBeginning)))
  {
    assert b.log[..|b.log|] == b.log && Own(b.log[..0]) == [];
  }

  lemma NextKeepsLabels(b: Bus, s: Step)
    requires Labelled(b) && Enabled(b, s)
    requires s.ForeignAppend? ==> !CountsAsOwn(s.message)
    ensures Labelled(Next(b, s))
  {
    hide Own, NextIndex;
    match s
    case Start(fromBeginning) => StartKeepsLabels(b, fromBeginning);
    case ForeignAppend(m) => AppendKeepsLabels(b, Next(b, s), m);
    case Send(ok) => if ok { AppendKeepsLabels(b, Next(b, s), OwnMessage(b.publisher.publication)); }
    case Poll(found) => if found { PollKeepsLabels(b); }
    case Decode => DecodeKeepsLabels(b);
    case Finish => FinishKeepsLabels(b);
    case _ =>
  }

  lemma DecodeKeepsLabels(b: Bus)
    requires Labelled(b) && Enabled(b, Decode)
    ensures Labelled(Next(b, Decode))
  {
    hide Own;
  }

  lemma FinishKeepsLabels(b: Bus)
    requires Labelled(b) && Enabled(b, Finish)
    ensures Labelled(Next(b, Finish))
  {
    hide Own;
    assert b.worker.message in InHand(b.worker);
  }

  lemma PollKeepsLabels(b: Bus)
    requires Labelled(b) && Enabled(b, Poll(true))
    ensures Labelled(Next(b, Poll(true)))
  {
    hide Own;
    assert b.log[NextIndex(b.log, b.position)] in b.log;
  }

  lemma {:induction false} RunKeepsCount(b: Bus, steps: seq<Step>, b': Bus, foreign: iset<Message>)
    requires Labelled(b) && Counted(b) && Run(b, steps, b') && Writes(steps, foreign) && NoneCounts(foreign)
    ensures Labelled(b') && Counted(b')
    decreases |steps|
  {
    hide Labelled, Counted, Next;
    if steps == [] {
    } else {
      assert steps[0] in steps;
      NextKeepsCount(b, steps[0]);
      NextKeepsLabels(b, steps[0]);
      RunKeepsCount(Next(b, steps[0]), steps[1..], b', foreign);
    }
  }

  lemma InitiallyCounted()
    ensures Labelled(NEW) && Counted(NEW)
  {
  }

  lemma ReachableIsCounted(steps: seq<Step>, b: Bus, foreign: iset<Message>)
    requires Run(NEW, steps, b) && Writes(steps, foreign) && NoneCounts(foreign)
    ensures Labelled(b) && Counted(b)
  {
    hide *;
    InitiallyCounted();
    RunKeepsCount(NEW, steps, b, foreign);
  }

  /**
   * Under every interleaving: no own message is received before it is counted, and what depth() counts
   * is the own messages still in the log or in hand, and those read that did not decode.
   */
  lemma CountersFollowTheLog(steps: seq<Step>, b: Bus, foreign: iset<Message>)
    requires Run(NEW, steps, b) && Writes(steps, foreign) && NoneCounts(foreign)
    ensures b.receivedOwn <= b.sentOwn
    ensures b.position <= |b.log|
    ensures b.sentOwn - b.receivedOwn + Counting(b) ==
            |Own(InHand(b.worker))| + |Own(b.log[b.position..])| + |Own(b.dropped)|
  {
    hide Run, Own;
    ReachableIsCounted(steps, b, foreign);
  }

  /**
   * depth() never underflows, in any run in which other writers append messages of `foreign` only, if
   * and only if none of those carries this bus's origin, on a subscribed topic, and decodes.
   */
  lemma DepthNeverUnderflows(foreign: iset<Message>)
    ensures (forall steps, b :: Run(NEW, steps, b) && Writes(steps, foreign) ==> b.receivedOwn <= b.sentOwn)
            <==> NoneCounts(foreign)
  {
    if NoneCounts(foreign) {
      forall steps, b | Run(NEW, steps, b) && Writes(steps, foreign)
        ensures b.receivedOwn <= b.sentOwn
      {
        CountersFollowTheLog(steps, b, foreign);
      }
    } else {
      var m :| m in foreign && !m.mine && CountsAsOwn(m);
      var b := SharedOriginUnderflows(m);
      assert Writes(ReadsForeign(m), foreign);
      assert Run(NEW, ReadsForeign(m), b);
    }
  }

  lemma {:induction false} OwnReadable(messages: seq<Message>)
    ensures |Own(Readable(messages))| <= |Own(messages)|
    ensures |Own(Readable(messages))| == |Own(messages)| ==> Own(Readable(messages)) == Own(messages)
    decreases |messages|
  {
    if messages == [] {
    } else {
      var first, rest := messages[0], messages[1..];
      OwnReadable(rest);
      OwnOfOne(first);
      OwnOfConcat([first], rest);
      assert messages == [first] + rest;
      if first.topic && first.decodable {
        OwnOfConcat([first], Readable(rest));
        assert Readable(messages) == [first] + Readable(rest);
      } else {
        assert Readable(messages) == Readable(rest);
      }
    }
  }

  /** The own messages the position has passed, when none was dropped and none is in hand: all delivered. */
  lemma AllSeenDelivered(seen: seq<Message>, delivered: seq<Message>, hand: seq<Message>)
    requires Readable(seen) == delivered + Readable(hand)
    requires Own(hand) == [] && |Own(delivered)| == |Own(seen)|
    ensures Own(delivered) == Own(seen)
  {
    hide Own, Readable;
    OwnOfConcat(delivered, Readable(hand));
    OwnReadable(hand);
    OwnReadable(seen);
  }

  lemma DrainedState(steps: seq<Step>, b: Bus, foreign: iset<Message>)
    requires Run(NEW, steps, b) && Writes(steps, foreign) && NoneCounts(foreign)
    requires MutexFree(b) && Drained(b)
    ensures Own(b.delivered) == Own(b.log) && Own(InHand(b.worker)) == Own(b.dropped) == []
  {
    hide Run, Own, Readable, Garbled, WorkerOk;
    ReachableIsCounted(steps, b, foreign);
    DeliveryFollowsTheLog(steps, b);
    var seen, rest := b.log[b.start..b.position], b.log[b.position..];
    assert b.log == b.log[..b.start] + (seen + rest);
    OwnOfConcat(b.log[..b.start], seen + rest);
    OwnOfConcat(seen, rest);
    AllSeenDelivered(seen, b.delivered, InHand(b.worker));
  }

  /** The wait of `thread` ends in b, and what it saw is that the bus is drained. */
  ghost predicate EndsDrained(b: Bus, thread: nat) {
    Enabled(b, WaitEnd(thread, false)) && Next(b, WaitEnd(thread, false)).callers[thread] == Finished(AllDelivered)
  }

  /**
   * A wait that ends because the bus is drained means that every message this bus ever logged was
   * delivered, under that same condition and no other.
   */
  lemma DrainedMeansDelivered(foreign: iset<Message>)
    ensures (forall steps, b, thread ::
               Run(NEW, steps, b) && Writes(steps, foreign) && EndsDrained(b, thread) ==>
                 Own(b.delivered) == Own(b.log))
            <==> NoneCounts(foreign)
  {
    if NoneCounts(foreign) {
      forall steps, b, thread | Run(NEW, steps, b) && Writes(steps, foreign) && EndsDrained(b, thread)
        ensures Own(b.delivered) == Own(b.log)
      {
        DrainedState(steps, b, foreign);
      }
    } else {
      var m :| m in foreign && !m.mine && CountsAsOwn(m);
      var p := Publication(0, true);
      var b := SharedOriginHidesOwn(m, p);
      assert Writes(ReadsForeign(m) + PublishesAndWaits(p), foreign);
      assert Run(NEW, ReadsForeign(m) + PublishesAndWaits(p), b) && EndsDrained(b, 0);
    }
  }

  // ----- own messages that do not decode -------------------------------------------------

  /** What depth() counts is exactly the own messages still in the log or in hand. */
  ghost predicate DepthIsOutstanding(b: Bus) {
    && b.position <= |b.log|
    && b.sentOwn - b.receivedOwn + Counting(b) == |Own(InHand(b.worker))| + |Own(b.log[b.position..])|
  }

  /** This bus publishes one message, and its dispatcher reads it back and cannot decode it. */
  function PublishesAndDrops(p: Publication): seq<Step> {
    [Start(false), PublishBegin(p, false), Send(true), Count, CheckStop, Poll(true), Decode]
  }

  lemma UndecodableIsNeverReceived(p: Publication) returns (b: Bus)
    requires !p.decodable
    ensures Run(NEW, PublishesAndDrops(p), b)
    ensures b.sentOwn - b.receivedOwn == 1 && b.publisher.NoPublisher?
    ensures InHand(b.worker) == [] && b.position == |b.log| == 1 && Own(b.dropped) == b.log
  {
    hide Run;
    var m, steps := OwnMessage(p), PublishesAndDrops(p);
    var counted := NEW.(phase := Open, worker := Top, log := [m], sequence := 1, sentOwn := 1, published := 1);
    b := counted.(worker := Top, position := 1, received := 1, decodeErrors := 1, dropped := [m]);
    OwnOfOne(m);
    DropsOne(counted.(worker := Polled(m), position := 1), m, steps, b);
    ReadsOne(counted, m, steps, 4, b);
    PublishesOne(p, counted, steps, b);
  }

  /** From the top, the one message of the log is read. */
  lemma ReadsOne(top: Bus, m: Message, steps: seq<Step>, i: nat, end: Bus)
    requires top.worker == Top && top.publisher.NoPublisher? && !top.stop
    requires top.log == [m] && top.position == 0 && m.topic
    requires i + 1 < |steps| && steps[i] == CheckStop && steps[i + 1] == Poll(true)
    requires Run(top.(worker := Polled(m), position := 1), steps[i + 2..], end)
    ensures Run(top, steps[i..], end)
  {
    hide Run;
    var polling := top.(worker := Polling);
    assert NextIndex(top.log, 0) == 0;
    StepBack(polling, top.(worker := Polled(m), position := 1), steps, i + 1, end);
    StepBack(top, polling, steps, i, end);
  }

  lemma DropsOne(polled: Bus, m: Message, steps: seq<Step>, b: Bus)
    requires polled.worker == Polled(m) && !m.decodable && polled.publisher.NoPublisher? && polled.dropped == []
    requires b == polled.(worker := Top, received := polled.received + 1, decodeErrors := polled.decodeErrors + 1,
                          dropped := [m])
    requires |steps| == 7 && steps[6] == Decode
    ensures Run(polled, steps[6..], b)
  {
    hide Run, NextIndex;
    assert [] + [m] == [m];
    RunNothing(b, steps[7..]);
    StepBack(polled, b, steps, 6, b);
  }

  lemma PublishesOne(p: Publication, counted: Bus, steps: seq<Step>, b: Bus)
    requires |steps| >= 4 && steps[..4] == [Start(false), PublishBegin(p, false), Send(true), Count]
    requires counted == NEW.(phase := Open, worker := Top, log := [OwnMessage(p)], sequence := 1, sentOwn := 1,
                             published := 1)
    requires Run(counted, steps[4..], b)
    ensures Run(NEW, steps, b)
  {
    hide Run, NextIndex;
    var started := NEW.(phase := Open, worker := Top);
    var begun := started.(publisher := BeforeSend(p));
    var sent := begun.(publisher := BeforeCount, log := [OwnMessage(p)]);
    assert [] + [OwnMessage(p)] == [OwnMessage(p)];
    assert forall i :: 0 <= i < 4 ==> steps[i] == steps[..4][i];
    StepBack(sent, counted, steps, 3, b);
    StepBack(begun, sent, steps, 2, b);
    StepBack(started, begun, steps, 1, b);
    StepBack(NEW, started, steps, 0, b);
    assert steps[0..] == steps;
  }

  lemma StepBack(b: Bus, b1: Bus, steps: seq<Step>, i: nat, end: Bus)
    requires i < |steps| && Enabled(b, steps[i]) && Next(b, steps[i]) == b1 && Run(b1, steps[i + 1..], end)
    ensures Run(b, steps[i..], end)
  {
    hide Next, Enabled, Run;
    assert steps[i..][0] == steps[i] && steps[i..][1..] == steps[i + 1..];
    RunCons(b, b1, steps[i..], end);
  }

  /**
   * depth() counts the own messages still in the log or in hand, in every run in which this bus
   * publishes what is in `own`, if and only if all of that decodes.
   */
  lemma DepthIsOutstandingExactly(own: iset<Publication>, foreign: iset<Message>)
    requires NoneCounts(foreign)
    ensures (forall steps, b ::
               Run(NEW, steps, b) && Writes(steps, foreign) && Publishes(steps, own) ==> DepthIsOutstanding(b))
            <==> AllDecode(own)
  {
    hide Run, Own;
    if AllDecode(own) {
      forall steps, b | Run(NEW, steps, b) && Writes(steps, foreign) && Publishes(steps, own)
        ensures DepthIsOutstanding(b)
      {
        CountersFollowTheLog(steps, b, foreign);
        InitiallyUndropped();
        NothingIsDropped(NEW, steps, b, own);
        ForeignHasNoOwn(b.dropped);
      }
    } else {
      var p :| p in own && !p.decodable;
      var b := UndecodableIsNeverReceived(p);
      NothingOwn();
      assert b.log[b.position..] == [];
      assert Writes(PublishesAndDrops(p), foreign) && Publishes(PublishesAndDrops(p), own);
      assert Run(NEW, PublishesAndDrops(p), b) && !DepthIsOutstanding(b);
    }
  }

  /** Own messages decode, wherever they are; so none is among those dropped. */
  ghost predicate OwnDecode(b: Bus) {
    && (forall m :: m in b.log + InHand(b.worker) ==> m.mine ==> m.decodable)
    && (forall m :: m in b.dropped ==> !m.mine)
    && (b.publisher.BeforeSend? ==> b.publisher.publication.decodable)
  }

  lemma InitiallyUndropped()
    ensures OwnDecode(NEW)
  {
  }

  lemma NextKeepsUndropped(b: Bus, s: Step)
    requires OwnDecode(b) && Enabled(b, s) && (s.PublishBegin? ==> s.publication.decodable)
    ensures OwnDecode(Next(b, s))
  {
    hide NextIndex;
    var b' := Next(b, s);
    if s.Poll? && s.found { assert b.log[NextIndex(b.log, b.position)] in b.log; }
    if s.Decode? { assert b.worker.message in InHand(b.worker); }
    forall m | m in b'.log && m.mine
      ensures m.decodable
    {
      if m !in b.log { assert s.Send? && m == OwnMessage(b.publisher.publication); }
    }
  }

  lemma {:induction false} NothingIsDropped(b: Bus, steps: seq<Step>, b': Bus, own: iset<Publication>)
    requires OwnDecode(b) && Run(b, steps, b') && Publishes(steps, own) && AllDecode(own)
    ensures OwnDecode(b')
    decreases |steps|
  {
    hide OwnDecode, Next;
    if steps == [] {
    } else {
      assert steps[0] in steps;
      NextKeepsUndropped(b, steps[0]);
      NothingIsDropped(Next(b, steps[0]), steps[1..], b', own);
    }
  }

  lemma {:induction false} DroppedStays(b: Bus, steps: seq<Step>, b': Bus)
    requires Run(b, steps, b')
    ensures b.dropped <= b'.dropped
    decreases |steps|
  {
    hide NextIndex;
    if steps == [] {
    } else {
      DroppedStays(Next(b, steps[0]), steps[1..], b');
    }
  }

  /** Once an own message has been dropped, no wait ends drained any more. */
  lemma DroppedIsNeverDrained(before: seq<Step>, b: Bus, more: seq<Step>, b': Bus, foreign: iset<Message>)
    requires Run(NEW, before, b) && Run(b, more, b') && Writes(before + more, foreign) && NoneCounts(foreign)
    requires Own(b.dropped) != []
    ensures forall thread :: !EndsDrained(b', thread)
  {
    hide Run, Own;
    RunConcat(NEW, before, b, more, b');
    CountersFollowTheLog(before + more, b', foreign);
    DroppedStays(b, more, b');
    assert b'.dropped == b.dropped + b'.dropped[|b.dropped|..];
    OwnOfConcat(b.dropped, b'.dropped[|b.dropped|..]);
  }

  // ----- the runs that show the conditions are needed ------------------------------------

  /** Another writer's message is appended, read and delivered. */
  function ReadsForeign(m: Message): seq<Step> {
    [Start(false), ForeignAppend(m), CheckStop, Poll(true), Decode, Finish]
  }

  /** One foreign message that counts as own makes depth() underflow. */
  lemma SharedOriginUnderflows(m: Message) returns (b: Bus)
    requires !m.mine && CountsAsOwn(m)
    ensures Run(NEW, ReadsForeign(m), b)
    ensures b == NEW.(phase := Open, worker := Top, log := [m], position := 1, received := 1, receivedOwn := 1,
                      delivered := [m])
    ensures b.receivedOwn > b.sentOwn
  {
    hide Run;
    var appended := NEW.(phase := Open, worker := Top, log := [m]);
    b := appended.(position := 1, received := 1, receivedOwn := 1, delivered := [m]);
    var steps := ReadsForeign(m);
    DeliversOne(appended.(worker := Polled(m), position := 1), m, steps, b);
    ReadsOne(appended, m, steps, 2, b);
    AppendForeign(m, appended, steps, b);
  }

  lemma AppendForeign(m: Message, appended: Bus, steps: seq<Step>, b: Bus)
    requires appended == NEW.(phase := Open, worker := Top, log := [m]) && !m.mine
    requires |steps| >= 2 && steps[0] == Start(false) && steps[1] == ForeignAppend(m)
    requires Run(appended, steps[2..], b)
    ensures Run(NEW, steps, b)
  {
    hide Run, NextIndex;
    var started := NEW.(phase := Open, worker := Top);
    assert [] + [m] == [m];
    StepBack(started, appended, steps, 1, b);
    StepBack(NEW, started, steps, 0, b);
    assert steps[0..] == steps;
  }

  lemma DeliversOne(polled: Bus, m: Message, steps: seq<Step>, b: Bus)
    requires polled == NEW.(phase := Open, worker := Polled(m), log := [m], position := 1) && m.decodable && m.ours
    requires b == polled.(worker := Top, received := 1, receivedOwn := 1, delivered := [m])
    requires |steps| == 6 && steps[4] == Decode && steps[5] == Finish
    ensures Run(polled, steps[4..], b)
  {
    hide Run, NextIndex;
    var inHand := polled.(worker := Delivering(m), busy := true, received := 1);
    assert [] + [m] == [m];
    RunNothing(b, steps[6..]);
    StepBack(inHand, b, steps, 5, b);
    StepBack(polled, inHand, steps, 4, b);
  }

  /** This bus publishes one message and then waits, while its dispatcher does nothing. */
  function PublishesAndWaits(p: Publication): seq<Step> {
    [PublishBegin(p, false), Send(true), Count, WaitCall(0)]
  }

  /** After it, the bus's own next message makes the counters equal: drained, and not delivered. */
  lemma SharedOriginHidesOwn(m: Message, p: Publication) returns (b: Bus)
    requires !m.mine && CountsAsOwn(m)
    ensures Run(NEW, ReadsForeign(m) + PublishesAndWaits(p), b)
    ensures EndsDrained(b, 0) && Own(b.delivered) != Own(b.log)
  {
    var read := SharedOriginUnderflows(m);
    b := OwnIsLeft(read, m, p);
    hide Run, Own;
    RunConcat(NEW, ReadsForeign(m), read, PublishesAndWaits(p), b);
  }

  lemma OwnIsLeft(read: Bus, m: Message, p: Publication) returns (b: Bus)
    requires !m.mine && read.log == read.delivered == [m] && read.worker == Top && !read.busy
    requires read.phase == Open && read.publisher.NoPublisher? && read.callers == map[]
    requires read.receivedOwn == 1 && read.sentOwn == 0
    ensures Run(read, PublishesAndWaits(p), b)
    ensures EndsDrained(b, 0) && Own(b.delivered) != Own(b.log)
  {
    hide Run, Own, Next, Enabled, EndsDrained;
    var sent := read.(publisher := BeforeCount, log := [m, OwnMessage(p)]);
    b := CountsAndWaits(sent, PublishesAndWaits(p));
    SendsOne(read, m, p, sent, PublishesAndWaits(p), b);
    OneIsLeft(read, m, p, b);
  }

  /** The counters are equal, so the wait ends drained, and the second message is not delivered. */
  lemma OneIsLeft(read: Bus, m: Message, p: Publication, b: Bus)
    requires !m.mine && read.delivered == [m] && read.publisher.NoPublisher?
    requires b == read.(log := [m, OwnMessage(p)], sequence := read.sequence + 1, sentOwn := read.sentOwn + 1,
                        published := read.published + 1, callers := map[0 := AwaitIdle])
    requires read.worker == Top && !read.busy && read.receivedOwn == 1 && read.sentOwn == 0
    ensures EndsDrained(b, 0) && Own(b.delivered) != Own(b.log)
  {
    hide Run, Own, NextIndex;
    OwnOfOne(m);
    AppendCounts(NEW.(log := [m]), OwnMessage(p));
    assert [m] + [OwnMessage(p)] == [m, OwnMessage(p)];
  }

  lemma CountsAndWaits(sent: Bus, steps: seq<Step>) returns (b: Bus)
    requires sent.phase == Open && sent.publisher.BeforeCount? && sent.callers == map[]
    requires |steps| == 4 && steps[2] == Count && steps[3] == WaitCall(0)
    ensures b == sent.(publisher := NoPublisher, sequence := sent.sequence + 1, sentOwn := sent.sentOwn + 1,
                       published := sent.published + 1, callers := map[0 := AwaitIdle])
    ensures Run(sent, steps[2..], b)
  {
    hide Run, Own, NextIndex;
    var counted := sent.(publisher := NoPublisher, sequence := sent.sequence + 1, sentOwn := sent.sentOwn + 1,
                         published := sent.published + 1);
    b := counted.(callers := map[0 := AwaitIdle]);
    RunNothing(b, steps[4..]);
    StepBack(counted, b, steps, 3, b);
    StepBack(sent, counted, steps, 2, b);
  }

  lemma SendsOne(read: Bus, m: Message, p: Publication, sent: Bus, steps: seq<Step>, b: Bus)
    requires read.log == [m] && read.phase == Open && read.publisher.NoPublisher?
    requires sent == read.(publisher := BeforeCount, log := [m, OwnMessage(p)])
    requires |steps| >= 2 && steps[0] == PublishBegin(p, false) && steps[1] == Send(true)
    requires Run(sent, steps[2..], b)
    ensures Run(read, steps, b)
  {
    hide Run, NextIndex;
    var begun := read.(publisher := BeforeSend(p));
    assert [m] + [OwnMessage(p)] == [m, OwnMessage(p)];
    StepBack(begun, sent, steps, 1, b);
    StepBack(read, begun, steps, 0, b);
    assert steps[0..] == steps;
  }

  lemma {:induction false} RunConcat(b: Bus, first: seq<Step>, b1: Bus, second: seq<Step>, b2: Bus)
    requires Run(b, first, b1) && Run(b1, second, b2)
    ensures Run(b, first + second, b2)
    decreases |first|
  {
    hide Next, Enabled;
    if first == [] {
      assert first + second == second;
    } else {
      assert (first + second)[1..] == first[1..] + second;
      RunConcat(Next(b, first[0]), first[1..], b1, second, b2);
    }
  }

  lemma RunNothing(b: Bus, steps: seq<Step>)
    requires steps == []
    ensures Run(b, steps, b)
  {
  }

  lemma RunCons(b: Bus, b1: Bus, steps: seq<Step>, b': Bus)
    requires steps != [] && Enabled(b, steps[0]) && Next(b, steps[0]) == b1 && Run(b1, steps[1..], b')
    ensures Run(b, steps, b')
  {
    hide Next, Enabled;
  }

  // ----- how a publish is answered -------------------------------------------------------

  lemma Steps2(b: Bus, s: Step, t: Step, b': Bus)
    requires Enabled(b, s) && Enabled(Next(b, s), t) && Next(Next(b, s), t) == b'
    ensures Run(b, [s, t], b')
  {
    hide Enabled, Next;
    RunNothing(b', []);
    RunCons(Next(b, s), b', [t], b');
    RunCons(b, Next(b, s), [s, t], b');
  }

  /**
   * A publish is taken exactly while the bus is open, or from a handler while it drains, and is refused
   * otherwise. Taken, and sent by the transport, it is the log's next message and is counted; a message the
   * transport does not send counts as refused and uses no sequence number.
   */
  lemma PublishIsAnsweredExactly(b: Bus, p: Publication, fromDispatcher: bool)
    requires Enabled(b, PublishBegin(p, fromDispatcher))
    ensures var begun := Next(b, PublishBegin(p, fromDispatcher));
            if b.phase == Open || (fromDispatcher && b.phase == Draining) then
              && Run(begun, [Send(true), Count],
                     b.(log := b.log + [Message(p.payload, true, true, true, p.decodable)],
                        sequence := b.sequence + 1, sentOwn := b.sentOwn + 1, published := b.published + 1))
              && Run(begun, [Send(false)], b.(rejected := b.rejected + 1))
            else begun == b.(rejected := b.rejected + 1)
  {
    hide Run, NextIndex;
    var begun := Next(b, PublishBegin(p, fromDispatcher));
    if b.phase == Open || (fromDispatcher && b.phase == Draining) {
      Steps2(begun, Send(true), Count,
             b.(log := b.log + [Message(p.payload, true, true, true, p.decodable)],
                sequence := b.sequence + 1, sentOwn := b.sentOwn + 1, published := b.published + 1));
      RunNothing(b.(rejected := b.rejected + 1), []);
      assert [Send(false)][1..] == [];
      RunCons(begun, b.(rejected := b.rejected + 1), [Send(false)], b.(rejected := b.rejected + 1));
    }
  }

  ghost predicate NoHandlerPublishes(steps: seq<Step>) {
    forall s :: s in steps && s.PublishBegin? ==> !s.fromDispatcher
  }

  /** Not open, and no message on its way but from a handler. */
  predicate Closed(b: Bus, sentOwn: nat) {
    b.phase in {Draining, Stopped} && b.publisher.NoPublisher? && b.sentOwn == sentOwn
  }

  lemma StepStaysClosed(b: Bus, s: Step, sentOwn: nat)
    requires Closed(b, sentOwn) && Enabled(b, s) && (s.PublishBegin? ==> !s.fromDispatcher)
    ensures Closed(Next(b, s), sentOwn)
  {
    hide NextIndex;
  }

  lemma {:induction false} ClosedToOutsiders(b: Bus, steps: seq<Step>, b': Bus, sentOwn: nat)
    requires Run(b, steps, b') && Closed(b, sentOwn) && NoHandlerPublishes(steps)
    ensures Closed(b', sentOwn)
    decreases |steps|
  {
    hide Next, Enabled, Closed;
    if steps == [] {
    } else {
      assert steps[0] in steps;
      StepStaysClosed(b, steps[0], sentOwn);
      ClosedToOutsiders(Next(b, steps[0]), steps[1..], b', sentOwn);
    }
  }

  /** From a shutdown on, only handlers publish, and the bus does not open again. */
  lemma ShutdownClosesTheBus(b: Bus, steps: seq<Step>, b': Bus)
    requires Enabled(b, Shutdown) && Run(Next(b, Shutdown), steps, b') && NoHandlerPublishes(steps)
    ensures b'.sentOwn == b.sentOwn && b'.phase in {Draining, Stopped}
  {
    hide Run;
    ClosedToOutsiders(Next(b, Shutdown), steps, b', b.sentOwn);
  }

  // ----- the dispatcher can always catch up ----------------------------------------------

  /** A dispatcher at work, with the mutex free, and not asked to stop. */
  ghost predicate AtWork(b: Bus) {
    && MutexFree(b) && !b.stop && b.position <= |b.log|
    && !b.worker.NoWorker? && !b.worker.Exited? && (b.busy <==> b.worker.Delivering?)
  }

  ghost predicate CaughtUp(b: Bus) {
    b.position <= |b.log| && NextIndex(b.log, b.position) == |b.log| && (b.worker.Top? || b.worker.Polling?)
  }

  ghost function Rank(b: Bus): nat
    requires b.position <= |b.log|
  {
    8 * (|b.log| - b.position) + match b.worker
                                 case Polled(_) => 4
                                 case Delivering(_) => 3
                                 case Top => 2
                                 case _ => 1
  }

  /** The dispatcher's next step when it has something left to do. */
  ghost function Turn(b: Bus): Step
    requires AtWork(b) && !CaughtUp(b)
  {
    match b.worker
    case Top => CheckStop
    case Polling => Poll(true)
    case Polled(_) => Decode
    case _ => Finish
  }

  lemma TurnIsPossible(b: Bus)
    requires AtWork(b) && !CaughtUp(b)
    ensures Enabled(b, Turn(b))
    ensures var b' := Next(b, Turn(b));
            AtWork(b') && Rank(b') < Rank(b) && b'.log == b.log && b'.callers == b.callers
  {
  }

  /** Its own steps until nothing readable is left. */
  lemma {:induction false} DispatcherCatchesUp(b: Bus) returns (steps: seq<Step>, b': Bus)
    requires AtWork(b)
    ensures Run(b, steps, b') && AtWork(b') && CaughtUp(b') && b'.log == b.log && b'.callers == b.callers
    ensures forall s :: s in steps ==> s in {CheckStop, Poll(true), Decode, Finish}
    decreases Rank(b)
  {
    hide Run, NextIndex, Next;
    if CaughtUp(b) {
      RunNothing(b, []);
      steps, b' := [], b;
    } else {
      TurnIsPossible(b);
      var rest;
      rest, b' := DispatcherCatchesUp(Next(b, Turn(b)));
      steps := [Turn(b)] + rest;
      assert steps[1..] == rest;
      RunCons(b, Next(b, Turn(b)), steps, b');
    }
  }

  lemma {:induction false} OwnHaveTopics(messages: seq<Message>)
    requires forall m :: m in messages ==> !m.topic && (m.mine ==> m.topic)
    ensures Own(messages) == []
    decreases |messages|
  {
    if messages == [] {
    } else {
      OwnHaveTopics(messages[1..]);
    }
  }

  lemma NothingOwnIsLeft(b: Bus)
    requires CaughtUp(b) && forall m :: m in b.log ==> LabelOk(m)
    ensures Own(b.log[b.position..]) == []
  {
    var rest := b.log[b.position..];
    forall m | m in rest ensures !m.topic && (m.mine ==> m.topic) {
      var i :| 0 <= i < |rest| && rest[i] == m;
      assert rest[i] == b.log[b.position + i] && m in b.log;
    }
    OwnHaveTopics(rest);
  }

  /**
   * From every reachable state with a dispatcher at work, its own steps alone read everything there is to
   * read; a wait begun before can then end drained, exactly when no own message was dropped undecoded.
   */
  lemma WaitCanEndDrained(steps: seq<Step>, b: Bus, foreign: iset<Message>, thread: nat)
    returns (more: seq<Step>, b': Bus)
    requires Run(NEW, steps, b) && Writes(steps, foreign) && NoneCounts(foreign)
    requires MutexFree(b) && !b.stop && !b.worker.NoWorker? && !b.worker.Exited?
    requires thread in b.callers && b.callers[thread].AwaitIdle?
    ensures Run(b, more, b') && CaughtUp(b') && forall s :: s in more ==> s in {CheckStop, Poll(true), Decode, Finish}
    ensures EndsDrained(b', thread) <==> Own(b'.dropped) == []
  {
    hide Run, NextIndex, Next, Own, LabelOk, Readable, Garbled;
    ReachableIsCounted(steps, b, foreign);
    more, b' := DispatcherCatchesUp(b);
    RunConcat(NEW, steps, b, more, b');
    assert Writes(steps + more, foreign);
    ReachableIsCounted(steps + more, b', foreign);
    NothingOwnIsLeft(b');
    NothingOwn();
    EndsWhenEqual(b', thread);
  }

  lemma EndsWhenEqual(b: Bus, thread: nat)
    requires AtWork(b) && CaughtUp(b) && thread in b.callers && b.callers[thread].AwaitIdle?
    ensures EndsDrained(b, thread) <==> b.receivedOwn == b.sentOwn
  {
    hide NextIndex;
  }

  // ----- the other counters --------------------------------------------------------------

  /** Every message read counts as received, and those that did not decode as errors as well. */
  ghost predicate ReadingsCounted(b: Bus) {
    && b.received == |b.delivered| + |b.dropped| + (if b.worker.Delivering? then 1 else 0)
    && b.decodeErrors == |b.dropped|
  }

  lemma NextCountsReadings(b: Bus, s: Step)
    requires ReadingsCounted(b) && Enabled(b, s) && (s.Start? ==> !b.worker.Delivering?)
    ensures ReadingsCounted(Next(b, s))
  {
    hide NextIndex;
  }

  lemma {:induction false} RunCountsReadings(b: Bus, steps: seq<Step>, b': Bus)
    requires InOrder(b) && ReadingsCounted(b) && Run(b, steps, b')
    ensures ReadingsCounted(b')
    decreases |steps|
  {
    hide Next, Enabled, ReadingsCounted, InOrder;
    if steps == [] {
    } else {
      NoWorkerBeforeStart(b, steps[0]);
      NextCountsReadings(b, steps[0]);
      NextKeepsOrder(b, steps[0]);
      RunCountsReadings(Next(b, steps[0]), steps[1..], b');
    }
  }

  lemma NoWorkerBeforeStart(b: Bus, s: Step)
    requires InOrder(b) && Enabled(b, s)
    ensures s.Start? ==> !b.worker.Delivering?
  {
  }

  /** In every reachable state. */
  lemma ReadingsAreCounted(steps: seq<Step>, b: Bus)
    requires Run(NEW, steps, b)
    ensures b.received == |b.delivered| + |b.dropped| + (if b.worker.Delivering? then 1 else 0)
    ensures b.decodeErrors == |b.dropped|
  {
    hide Run;
    InitiallyInOrder();
    RunCountsReadings(NEW, steps, b);
  }

  // ----- where reading begins ------------------------------------------------------------

  lemma StepKeepsStart(b: Bus, s: Step)
    requires Enabled(b, s) && b.phase != NotStarted
    ensures Next(b, s).start == b.start && Next(b, s).phase != NotStarted
  {
    hide NextIndex;
  }

  lemma {:induction false} StartIsKept(b: Bus, steps: seq<Step>, b': Bus)
    requires Run(b, steps, b') && b.phase != NotStarted
    ensures b'.start == b.start && b'.phase != NotStarted
    decreases |steps|
  {
    hide Next, Enabled;
    if steps == [] {
    } else {
      StepKeepsStart(b, steps[0]);
      StartIsKept(Next(b, steps[0]), steps[1..], b');
    }
  }

  /** A bus started from the beginning reads the whole log, any other what comes after its start; nothing else. */
  lemma ReadingBeginsWhereAsked(before: seq<Step>, b: Bus, fromBeginning: bool, after: seq<Step>, b': Bus)
    requires Run(NEW, before, b) && Enabled(b, Start(fromBeginning)) && Run(Next(b, Start(fromBeginning)), after, b')
    ensures var first := if fromBeginning then 0 else |b.log|;
            && first <= b'.position <= |b'.log|
            && b'.delivered + Readable(InHand(b'.worker)) == Readable(b'.log[first..b'.position])
            && b'.dropped + Garbled(InHand(b'.worker)) == Garbled(b'.log[first..b'.position])
  {
    hide Run, Readable, Garbled;
    StartIsKept(Next(b, Start(fromBeginning)), after, b');
    var all := [Start(fromBeginning)] + after;
    assert all[1..] == after;
    RunCons(b, Next(b, Start(fromBeginning)), all, b');
    RunConcat(NEW, before, b, all, b');
    DeliveryFollowsTheLog(before + all, b');
  }
}
