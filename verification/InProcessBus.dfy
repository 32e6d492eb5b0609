/**
 * The in-process event bus: publishers, one dispatcher and callers of wait_until_drained(),
 * interleaved. One step is one critical section of the bus mutex, or one wake-up from a wait.
 */
module InProcessBus {

  datatype Phase = NotStarted | Open | Draining | Stopped

  datatype Numbered = Numbered(sequence: nat, payload: nat)

  datatype Worker = NoWorker | Waiting | Delivering(event: Numbered) | Exited

  // `seen`: events accepted before the call began
  datatype Caller =
    | BlockedFull(payload: nat)
    | AwaitIdle(seen: nat)
    | AwaitStopped(seen: nat)
    | Joining(seen: nat)
    | Drained(seen: nat)

  datatype Policy = Block | Reject

  datatype Bus = Bus(phase: Phase, queue: seq<Numbered>, worker: Worker, sequence: nat,
                     published: nat, delivered: nat, rejected: nat, highWater: nat,
                     callers: map<nat, Caller>, capacity: nat, policy: Policy,
                     accepted: seq<Numbered>, log: seq<Numbered>)

  datatype Step =
    | Start
    | Shutdown
    | Publish(thread: nat, payload: nat)   // from outside
    | Unblock(thread: nat)                 // a publisher waiting for room wakes
    | HandlerPublish(payload: nat)         // from inside a handler
    | Take
    | Finish
    | Quit
    | WaitCall(thread: nat)
    | WakeIdle(thread: nat)
    | WakeStopped(thread: nat)
    | Join(thread: nat)

  function New(capacity: nat, policy: Policy): Bus {
    Bus(NotStarted, [], NoWorker, 0, 0, 0, 0, 0, map[], capacity, policy, [], [])
  }

  predicate Accepting(b: Bus, fromDispatcher: bool) {
    b.phase == Open || (fromDispatcher && b.phase == Draining)
  }

  function Accept(b: Bus, payload: nat): Bus {
    var e := Numbered(b.sequence + 1, payload);
    var queue := b.queue + [e];
    b.(sequence := b.sequence + 1, queue := queue, published := b.published + 1,
       highWater := if |queue| > b.highWater then |queue| else b.highWater,
       accepted := b.accepted + [e])
  }

  function Refuse(b: Bus): Bus {
    b.(rejected := b.rejected + 1)
  }

  predicate Enabled(b: Bus, s: Step) {
    match s
    case Start => b.phase == NotStarted || b.phase == Open   // throws otherwise
    case Shutdown => true
    case Publish(t, _) => t !in b.callers
    case Unblock(t) => t in b.callers && b.callers[t].BlockedFull? && (|b.queue| < b.capacity || !Accepting(b, false))
    case HandlerPublish(_) => b.worker.Delivering?
    case Take => b.worker.Waiting? && b.queue != []
    case Finish => b.worker.Delivering?
    case Quit => b.worker.Waiting? && b.queue == [] && b.phase != Open
    case WaitCall(t) => t !in b.callers
    case WakeIdle(t) =>
      t in b.callers && b.callers[t].AwaitIdle? && ((b.queue == [] && !b.worker.Delivering?) || b.phase != Open)
    case WakeStopped(t) => t in b.callers && b.callers[t].AwaitStopped? && b.phase == Stopped
    case Join(t) => t in b.callers && b.callers[t].Joining? && (b.worker.NoWorker? || b.worker.Exited?)
  }

  function Next(b: Bus, s: Step): Bus
    requires Enabled(b, s)
  {
    match s
    case Start => if b.phase == Open then b else b.(phase := Open, worker := Waiting)
    case Shutdown =>
      if b.phase == Open then b.(phase := Draining)
      else if b.phase == NotStarted then b.(phase := Stopped)
      else b
    case Publish(t, payload) =>
      if !Accepting(b, false) then Refuse(b)
      else if |b.queue| < b.capacity then Accept(b, payload)
      else if b.policy == Reject then Refuse(b)
      else b.(callers := b.callers[t := BlockedFull(payload)])
    case Unblock(t) =>
      var woken := b.(callers := b.callers - {t});
      if Accepting(b, false) then Accept(woken, b.callers[t].payload) else Refuse(woken)
    case HandlerPublish(payload) => if Accepting(b, true) then Accept(b, payload) else Refuse(b)
    case Take => b.(worker := Delivering(b.queue[0]), queue := b.queue[1..])
    case Finish =>
      b.(worker := Waiting, delivered := b.delivered + 1, log := b.log + [b.worker.event])
    case Quit => b.(phase := Stopped, worker := Exited)
    case WaitCall(t) =>
      var seen := |b.accepted|;
      b.(callers := b.callers[t := if b.phase == NotStarted then Drained(seen)
                                   else if b.phase == Open then AwaitIdle(seen)
                                   else AwaitStopped(seen)])
    case WakeIdle(t) =>
      var seen := b.callers[t].seen;
      b.(callers := b.callers[t := if b.phase == Draining || b.phase == Stopped then AwaitStopped(seen)
                                   else Drained(seen)])
    case WakeStopped(t) => b.(callers := b.callers[t := Joining(b.callers[t].seen)])
    case Join(t) => b.(callers := b.callers[t := Drained(b.callers[t].seen)])
  }

  ghost predicate Run(b: Bus, steps: seq<Step>, b': Bus)
    decreases |steps|
  {
    if steps == [] then b == b' else Enabled(b, steps[0]) && Run(Next(b, steps[0]), steps[1..], b')
  }

  function InDispatch(b: Bus): seq<Numbered> {
    if b.worker.Delivering? then [b.worker.event] else []
  }

  /** Nothing lost, duplicated or reordered. */
  predicate FirstInFirstOut(b: Bus) {
    && b.accepted == b.log + InDispatch(b) + b.queue
    && (forall i :: 0 <= i < |b.accepted| ==> b.accepted[i].sequence == i + 1)
    && b.sequence == b.published == |b.accepted|
    && b.delivered == |b.log|
  }

  predicate WorkerMatchesPhase(b: Bus) {
    && (b.worker.NoWorker? ==> b.phase == NotStarted || b.phase == Stopped)
    && (b.worker.NoWorker? ==> b.accepted == [])
    && (b.phase == NotStarted ==> b.worker.NoWorker?)
    && (b.worker.Exited? ==> b.phase == Stopped)
    && (b.phase == Stopped ==> b.queue == [] && (b.worker.Exited? || b.worker.NoWorker?))
  }

  predicate CallersOk(b: Bus) {
    forall t :: t in b.callers ==>
      match b.callers[t]
      case BlockedFull(_) => true
      case AwaitIdle(seen) => seen <= |b.accepted| && b.phase != NotStarted
      case AwaitStopped(seen) => seen <= |b.accepted| && b.phase != NotStarted && b.phase != Open
      case Joining(seen) => seen <= |b.log| && b.phase == Stopped
      case Drained(seen) => seen <= |b.log|
  }

  predicate Invariant(b: Bus) {
    FirstInFirstOut(b) && WorkerMatchesPhase(b) && CallersOk(b) && |b.queue| <= b.highWater
  }

  lemma AcceptKeepsOrder(b: Bus, payload: nat)
    requires FirstInFirstOut(b)
    ensures FirstInFirstOut(Accept(b, payload))
  {
    var b' := Accept(b, payload);
    var e := Numbered(b.sequence + 1, payload);
    assert b'.accepted == b.log + InDispatch(b) + (b.queue + [e]);
  }

  /** An event moves on, from the queue to the dispatcher or from there to the log. */
  lemma MovingOnKeepsOrder(b: Bus, s: Step)
    requires FirstInFirstOut(b) && WorkerMatchesPhase(b) && Enabled(b, s) && (s.Take? || s.Finish?)
    ensures FirstInFirstOut(Next(b, s))
  {
    if s.Take? {
      assert [b.queue[0]] + b.queue[1..] == b.queue;
    } else {
      assert b.log + [b.worker.event] + [] + b.queue == b.log + [b.worker.event] + b.queue;
    }
  }

  /** A step that moves no event. */
  lemma UnmovedKeepsOrder(b: Bus, b': Bus)
    requires FirstInFirstOut(b) && InDispatch(b') == InDispatch(b)
    requires (b'.accepted, b'.log, b'.queue) == (b.accepted, b.log, b.queue)
    requires (b'.sequence, b'.published, b'.delivered) == (b.sequence, b.published, b.delivered)
    ensures FirstInFirstOut(b')
  {
  }

  lemma NextKeepsOrder(b: Bus, s: Step)
    requires FirstInFirstOut(b) && WorkerMatchesPhase(b) && Enabled(b, s)
    ensures FirstInFirstOut(Next(b, s))
  {
    hide FirstInFirstOut;
    var b' := Next(b, s);
    if s.Take? || s.Finish? {
      MovingOnKeepsOrder(b, s);
    } else if s.Publish? && b' == Accept(b, s.payload) {
      AcceptKeepsOrder(b, s.payload);
    } else if s.HandlerPublish? && b' == Accept(b, s.payload) {
      AcceptKeepsOrder(b, s.payload);
    } else if s.Unblock? && b' == Accept(b.(callers := b.callers - {s.thread}), b.callers[s.thread].payload) {
      UnmovedKeepsOrder(b, b.(callers := b.callers - {s.thread}));
      AcceptKeepsOrder(b.(callers := b.callers - {s.thread}), b.callers[s.thread].payload);
    } else {
      UnmovedKeepsOrder(b, b');
    }
  }

  lemma NextKeepsCallers(b: Bus, s: Step)
    requires Invariant(b) && Enabled(b, s)
    ensures CallersOk(Next(b, s))
  {
    var b' := Next(b, s);
    assert |b.accepted| <= |b'.accepted| && |b.log| <= |b'.log|;
    assert b.phase == Stopped ==> |b.log| == |b.accepted|;
  }

  lemma NextKeepsInvariant(b: Bus, s: Step)
    requires Invariant(b) && Enabled(b, s)
    ensures Invariant(Next(b, s))
  {
    NextKeepsOrder(b, s);
    NextKeepsCallers(b, s);
  }

  lemma {:induction false} RunKeepsInvariant(b: Bus, steps: seq<Step>, b': Bus)
    requires Invariant(b) && Run(b, steps, b')
    ensures Invariant(b')
    decreases |steps|
  {
    if steps == [] {
    } else {
      NextKeepsInvariant(b, steps[0]);
      RunKeepsInvariant(Next(b, steps[0]), steps[1..], b');
    }
  }

  /** Every reachable state: delivered, in dispatch and queued are exactly the accepted events, in order. */
  lemma NoEventIsLostOrReordered(capacity: nat, policy: Policy, steps: seq<Step>, b: Bus)
    requires Run(New(capacity, policy), steps, b)
    ensures b.log + InDispatch(b) + b.queue == b.accepted
    ensures forall i :: 0 <= i < |b.accepted| ==> b.accepted[i].sequence == i + 1
    ensures b.published == b.delivered + |InDispatch(b)| + |b.queue|
  {
    RunKeepsInvariant(New(capacity, policy), steps, b);
  }

  /** Stopped means everything accepted was delivered, handlers' own events included. */
  lemma StoppedMeansDelivered(capacity: nat, policy: Policy, steps: seq<Step>, b: Bus)
    requires Run(New(capacity, policy), steps, b) && b.phase == Stopped
    ensures b.queue == [] && b.log == b.accepted && b.delivered == b.published
  {
    RunKeepsInvariant(New(capacity, policy), steps, b);
  }

  /** A wait_until_drained() that returned: every event accepted before the call was delivered. */
  lemma DrainedMeansDelivered(capacity: nat, policy: Policy, steps: seq<Step>, b: Bus, thread: nat,
                              more: seq<Step>, b': Bus)
    requires Run(New(capacity, policy), steps, b) && thread !in b.callers
    requires Run(Next(b, WaitCall(thread)), more, b')
    requires thread in b'.callers && b'.callers[thread] == Drained(|b.accepted|)
    ensures b.accepted <= b'.log
  {
    RunKeepsInvariant(New(capacity, policy), steps, b);
    NextKeepsInvariant(b, WaitCall(thread));
    RunKeepsInvariant(Next(b, WaitCall(thread)), more, b');
    AcceptedOnlyGrows(Next(b, WaitCall(thread)), more, b');
    assert b'.log <= b'.accepted;
  }

  lemma {:induction false} AcceptedOnlyGrows(b: Bus, steps: seq<Step>, b': Bus)
    requires Run(b, steps, b')
    ensures b.accepted <= b'.accepted
    decreases |steps|
  {
    if steps == [] {
    } else {
      AcceptedOnlyGrows(Next(b, steps[0]), steps[1..], b');
    }
  }

  /** Only a handler can push the queue past its capacity. */
  lemma OutsidersRespectCapacity(b: Bus, s: Step)
    requires Enabled(b, s) && !s.HandlerPublish? && |Next(b, s).queue| > |b.queue|
    ensures |Next(b, s).queue| <= b.capacity
  {
  }

  ghost predicate NoHandlerPublishes(steps: seq<Step>) {
    forall s :: s in steps ==> !s.HandlerPublish?
  }

  lemma {:induction false} CapacityHolds(b: Bus, steps: seq<Step>, b': Bus)
    requires Run(b, steps, b') && NoHandlerPublishes(steps) && |b.queue| <= b.capacity
    ensures |b'.queue| <= b'.capacity == b.capacity
    decreases |steps|
  {
    if steps == [] {
    } else {
      if |Next(b, steps[0]).queue| > |b.queue| {
        OutsidersRespectCapacity(b, steps[0]);
      }
      CapacityHolds(Next(b, steps[0]), steps[1..], b');
    }
  }

  /** Handlers are never refused while their own delivery is in progress, even during shutdown. */
  lemma HandlersAreNeverRefused(capacity: nat, policy: Policy, steps: seq<Step>, b: Bus, payload: nat)
    requires Run(New(capacity, policy), steps, b) && Enabled(b, HandlerPublish(payload))
    ensures Next(b, HandlerPublish(payload)).accepted == b.accepted + [Numbered(b.sequence + 1, payload)]
  {
    RunKeepsInvariant(New(capacity, policy), steps, b);
  }

  // ----- how a publish is answered -------------------------------------------------------

  lemma {:induction false} SettingsStay(b: Bus, steps: seq<Step>, b': Bus)
    requires Run(b, steps, b')
    ensures b'.capacity == b.capacity && b'.policy == b.policy
    decreases |steps|
  {
    if steps == [] {
    } else {
      SettingsStay(Next(b, steps[0]), steps[1..], b');
    }
  }

  lemma PublishAnswers(b: Bus, thread: nat, payload: nat)
    requires thread !in b.callers && b.sequence == |b.accepted|
    ensures var b' := Next(b, Publish(thread, payload));
            var e, open, full := Numbered(|b.accepted| + 1, payload), b.phase == Open, |b.queue| >= b.capacity;
            && (open && !full ==> b'.accepted == b.accepted + [e] && b'.queue == b.queue + [e]
                                  && b'.callers == b.callers && b'.rejected == b.rejected)
            && (!open || (full && b.policy == Reject) ==> b' == b.(rejected := b.rejected + 1))
            && (open && full && b.policy == Block ==> b' == b.(callers := b.callers[thread := BlockedFull(payload)]))
  {
  }

  lemma SequenceCountsAccepted(capacity: nat, policy: Policy, steps: seq<Step>, b: Bus)
    requires Run(New(capacity, policy), steps, b)
    ensures b.sequence == |b.accepted| && b.capacity == capacity && b.policy == policy
  {
    RunKeepsInvariant(New(capacity, policy), steps, b);
    SettingsStay(New(capacity, policy), steps, b);
  }

  /**
   * In every reachable state a publish from outside is accepted, numbered next, exactly when the bus is open
   * and has room; it is refused exactly when the bus is not open, or full under Reject; it waits exactly when
   * the bus is open and full under Block. Nothing else changes.
   */
  lemma PublishIsAnsweredExactly(capacity: nat, policy: Policy, steps: seq<Step>, b: Bus, thread: nat, payload: nat)
    requires Run(New(capacity, policy), steps, b) && Enabled(b, Publish(thread, payload))
    ensures var b' := Next(b, Publish(thread, payload));
            var e, open, full := Numbered(|b.accepted| + 1, payload), b.phase == Open, |b.queue| >= capacity;
            && (open && !full <==> b'.accepted == b.accepted + [e])
            && (open && !full ==> b'.queue == b.queue + [e] && b'.callers == b.callers && b'.rejected == b.rejected)
            && (!open || (full && policy == Reject) <==> b' == b.(rejected := b.rejected + 1))
            && (open && full && policy == Block <==> b' == b.(callers := b.callers[thread := BlockedFull(payload)]))
  {
    SequenceCountsAccepted(capacity, policy, steps, b);
    assert thread !in b.callers;
    hide Run, Next;
    PublishAnswers(b, thread, payload);
    assert thread in b.callers[thread := BlockedFull(payload)];
  }

  /** A waiting publisher, once it may go on: accepted when the bus is still open, and otherwise refused. */
  lemma UnblockIsAnsweredExactly(capacity: nat, policy: Policy, steps: seq<Step>, b: Bus, thread: nat)
    requires Run(New(capacity, policy), steps, b)
    ensures Enabled(b, Unblock(thread)) <==>
            thread in b.callers && b.callers[thread].BlockedFull? && (|b.queue| < capacity || b.phase != Open)
    ensures Enabled(b, Unblock(thread)) ==>
              var b', e := Next(b, Unblock(thread)), Numbered(|b.accepted| + 1, b.callers[thread].payload);
              && b'.callers == b.callers - {thread}
              && (b.phase == Open <==> b'.accepted == b.accepted + [e])
              && (b.phase == Open ==> b'.queue == b.queue + [e] && b'.rejected == b.rejected)
              && (b.phase != Open ==> b' == b.(callers := b'.callers, rejected := b.rejected + 1))
  {
    SequenceCountsAccepted(capacity, policy, steps, b);
    hide Run;
  }

  lemma {:induction false} ClosedToOutsiders(b: Bus, steps: seq<Step>, b': Bus)
    requires Run(b, steps, b') && b.phase in {Draining, Stopped} && NoHandlerPublishes(steps)
    ensures b'.accepted == b.accepted && b'.phase in {Draining, Stopped}
    decreases |steps|
  {
    if steps == [] {
    } else {
      assert steps[0] in steps;
      ClosedToOutsiders(Next(b, steps[0]), steps[1..], b');
    }
  }

  /** From a shutdown on, only handlers add events, and the bus does not open again. */
  lemma ShutdownClosesTheBus(b: Bus, steps: seq<Step>, b': Bus)
    requires Run(Next(b, Shutdown), steps, b') && NoHandlerPublishes(steps)
    ensures b'.accepted == b.accepted && b'.phase in {Draining, Stopped}
  {
    ClosedToOutsiders(Next(b, Shutdown), steps, b');
  }

  // ----- the dispatcher can always finish ------------------------------------------------

  /** The dispatcher's own steps until nothing is queued. */
  function Deliveries(b: Bus): seq<Step>
    decreases 2 * |b.queue| + (if b.worker.Delivering? then 1 else 0)
  {
    if b.worker.Delivering? then [Finish] + Deliveries(Next(b, Finish))
    else if b.worker.Waiting? && b.queue != [] then [Take] + Deliveries(Next(b, Take))
    else []
  }

  lemma {:induction false} DispatcherEmptiesTheQueue(b: Bus) returns (b': Bus)
    requires b.worker.Waiting? || b.worker.Delivering?
    ensures Run(b, Deliveries(b), b')
    ensures b'.queue == [] && b'.worker.Waiting? && b'.phase == b.phase && b'.callers == b.callers
    ensures b'.accepted == b.accepted && b'.capacity == b.capacity
    decreases 2 * |b.queue| + (if b.worker.Delivering? then 1 else 0)
  {
    if b.worker.Delivering? {
      b' := DispatcherEmptiesTheQueue(Next(b, Finish));
      RunFirst(b, Finish, Deliveries(Next(b, Finish)), b');
    } else if b.queue != [] {
      b' := DispatcherEmptiesTheQueue(Next(b, Take));
      RunFirst(b, Take, Deliveries(Next(b, Take)), b');
    } else {
      b' := b;
    }
  }

  lemma RunFirst(b: Bus, s: Step, rest: seq<Step>, b': Bus)
    requires Enabled(b, s) && Run(Next(b, s), rest, b')
    ensures Run(b, [s] + rest, b')
  {
    assert ([s] + rest)[1..] == rest;
  }

  /**
   * Nobody is stuck: from every reachable state with a dispatcher, its own steps alone deliver everything
   * accepted; then every wait for an idle bus can return, every waiting publisher goes on, and a bus that
   * is shutting down stops.
   */
  lemma EverythingCanBeDelivered(capacity: nat, policy: Policy, steps: seq<Step>, b: Bus) returns (b': Bus)
    requires Run(New(capacity, policy), steps, b) && (b.worker.Waiting? || b.worker.Delivering?)
    ensures Run(b, Deliveries(b), b') && b'.log == b.accepted && b'.queue == [] && b'.callers == b.callers
    ensures forall t :: t in b.callers && b.callers[t].AwaitIdle? ==> Enabled(b', WakeIdle(t))
    ensures forall t :: t in b.callers && b.callers[t].BlockedFull? && capacity > 0 ==> Enabled(b', Unblock(t))
    ensures b.phase == Draining ==> Enabled(b', Quit) && Next(b', Quit).phase == Stopped
  {
    hide Run;
    b' := DispatcherEmptiesTheQueue(b);
    RunKeepsInvariant(New(capacity, policy), steps, b);
    RunKeepsInvariant(b, Deliveries(b), b');
    SequenceCountsAccepted(capacity, policy, steps, b);
    assert b'.accepted == b'.log + [] + [];
  }

  /** The longest the queue is along a run. */
  function Longest(b: Bus, steps: seq<Step>): nat
    decreases |steps|
  {
    if steps == [] || !Enabled(b, steps[0]) then |b.queue|
    else
      var rest := Longest(Next(b, steps[0]), steps[1..]);
      if |b.queue| > rest then |b.queue| else rest
  }

  lemma {:induction false} MarkFollowsTheQueue(b: Bus, steps: seq<Step>, b': Bus)
    requires Run(b, steps, b') && |b.queue| <= b.highWater
    ensures b'.highWater == if Longest(b, steps) > b.highWater then Longest(b, steps) else b.highWater
    decreases |steps|
  {
    if steps == [] {
    } else {
      MarkFollowsTheQueue(Next(b, steps[0]), steps[1..], b');
    }
  }

  /** The high-water mark is the longest the queue has ever been. */
  lemma HighWaterIsTheLongestQueue(capacity: nat, policy: Policy, steps: seq<Step>, b: Bus)
    requires Run(New(capacity, policy), steps, b)
    ensures b.highWater == Longest(New(capacity, policy), steps)
  {
    MarkFollowsTheQueue(New(capacity, policy), steps, b);
  }
}
