/**
 * Subscribe, unsubscribe and deliver, interleaved step by step.
 *
 * One step is one critical section or one flag access: any number of threads call remove() while
 * the dispatcher walks the targets of a delivery, and handlers themselves may unsubscribe.
 */
module SubscriptionRegistry {

  datatype Entry = Entry(id: nat, kind: nat)

  // `rest`: targets of this delivery still to be visited
  datatype Dispatcher =
    | Idle
    | Between(rest: seq<nat>)              // no lock held
    | Locked(target: nat, rest: seq<nat>)  // delivery lock held, flag not read yet
    | Ready(target: nat, rest: seq<nat>)   // flag read true, handler about to start
    | Running(target: nat, rest: seq<nat>) // inside the handler

  datatype Remover =
    | Cleared(id: nat)               // entry erased and flag cleared; must still pass the barrier
    | AtBarrier(id: nat)             // holds the delivery lock
    | Returned(id: nat, found: bool) // remove() came back; `found`: the entry was still registered

  datatype Registry = Registry(entries: seq<Entry>, active: set<nat>, lastId: nat,
                               dispatcher: Dispatcher, removers: map<nat, Remover>,
                               visited: seq<(nat, bool)>)

  datatype Step =
    | Add(kind: nat)
    | RemoveCall(thread: nat, id: nat)   // remove() off the dispatcher, up to the barrier
    | RemoveLock(thread: nat)
    | RemoveReturn(thread: nat)
    | RemoveInHandler(id: nat)           // remove() from a handler: no barrier
    | Snapshot(kind: nat)                // deliver() copies its targets
    | Lock
    | ReadFlag
    | Start
    | Finish
    | Done

  predicate Registered(r: Registry, id: nat) {
    exists i :: 0 <= i < |r.entries| && r.entries[i].id == id
  }

  function Without(entries: seq<Entry>, id: nat): (rest: seq<Entry>)
    ensures forall e :: e in rest <==> e in entries && e.id != id
  {
    if entries == [] then []
    else (if entries[0].id == id then [] else [entries[0]]) + Without(entries[1..], id)
  }

  function TargetsOf(entries: seq<Entry>, kind: nat): (ids: seq<nat>)
    ensures forall id :: id in ids <==> exists i :: 0 <= i < |entries| && entries[i] == Entry(id, kind)
  {
    if entries == [] then []
    else
      var rest := TargetsOf(entries[1..], kind);
      assert forall i :: 0 < i < |entries| ==> entries[i] == entries[1..][i - 1];
      (if entries[0].kind == kind then [entries[0].id] else []) + rest
  }

  predicate DispatcherHoldsLock(r: Registry) {
    r.dispatcher.Locked? || r.dispatcher.Ready? || r.dispatcher.Running?
  }

  predicate LockFree(r: Registry) {
    !DispatcherHoldsLock(r) && forall t :: t in r.removers ==> !r.removers[t].AtBarrier?
  }

  predicate Enabled(r: Registry, s: Step) {
    match s
    case Add(_) => true
    case RemoveCall(t, _) => t !in r.removers
    case RemoveLock(t) => t in r.removers && r.removers[t].Cleared? && LockFree(r)
    case RemoveReturn(t) => t in r.removers && r.removers[t].AtBarrier?
    case RemoveInHandler(_) => r.dispatcher.Running?
    case Snapshot(_) => r.dispatcher.Idle?
    case Lock => r.dispatcher.Between? && r.dispatcher.rest != [] && LockFree(r)
    case ReadFlag => r.dispatcher.Locked?
    case Start => r.dispatcher.Ready?
    case Finish => r.dispatcher.Running?
    case Done => r.dispatcher.Between? && r.dispatcher.rest == []
  }

  function Erase(r: Registry, id: nat): Registry {
    r.(entries := Without(r.entries, id), active := r.active - {id})
  }

  function Next(r: Registry, s: Step): Registry
    requires Enabled(r, s)
  {
    match s
    case Add(kind) =>
      r.(entries := r.entries + [Entry(r.lastId + 1, kind)], active := r.active + {r.lastId + 1},
         lastId := r.lastId + 1)
    case RemoveCall(t, id) =>
      if Registered(r, id) then Erase(r, id).(removers := r.removers[t := Cleared(id)])
      else r.(removers := r.removers[t := Returned(id, false)])
    case RemoveLock(t) => r.(removers := r.removers[t := AtBarrier(r.removers[t].id)])
    case RemoveReturn(t) => r.(removers := r.removers[t := Returned(r.removers[t].id, true)])
    case RemoveInHandler(id) => if Registered(r, id) then Erase(r, id) else r
    case Snapshot(kind) => r.(dispatcher := Between(TargetsOf(r.entries, kind)), visited := [])
    case Lock => r.(dispatcher := Locked(r.dispatcher.rest[0], r.dispatcher.rest[1..]))
    case ReadFlag =>
      var target, rest := r.dispatcher.target, r.dispatcher.rest;
      if target in r.active then r.(dispatcher := Ready(target, rest))
      else r.(dispatcher := Between(rest), visited := r.visited + [(target, false)])
    case Start => r.(dispatcher := Running(r.dispatcher.target, r.dispatcher.rest))
    case Finish =>
      r.(dispatcher := Between(r.dispatcher.rest), visited := r.visited + [(r.dispatcher.target, true)])
    case Done => r.(dispatcher := Idle)
  }

  const EMPTY := Registry([], {}, 0, Idle, map[], [])

  ghost predicate Run(r: Registry, steps: seq<Step>, r': Registry)
    decreases |steps|
  {
    if steps == [] then r == r'
    else Enabled(r, steps[0]) && Run(Next(r, steps[0]), steps[1..], r')
  }

  predicate Engaged(r: Registry, id: nat) {
    (r.dispatcher.Ready? || r.dispatcher.Running?) && r.dispatcher.target == id
  }

  /** No invocation of `id` is in progress, and its flag can never read true again. */
  predicate Silenced(r: Registry, id: nat) {
    id <= r.lastId && id !in r.active && !Engaged(r, id)
  }

  ghost predicate EntriesOk(r: Registry) {
    && (forall e :: e in r.entries ==> e.id <= r.lastId)
    && (forall id :: id in r.active <==> Registered(r, id))
  }

  ghost predicate RemoversOk(r: Registry) {
    && (forall t :: t in r.removers && (r.removers[t].Returned? ==> r.removers[t].found) ==>
          r.removers[t].id <= r.lastId && r.removers[t].id !in r.active)
    && (forall t :: t in r.removers && r.removers[t].AtBarrier? ==> !DispatcherHoldsLock(r))
    && (forall t :: t in r.removers && r.removers[t].Returned? && r.removers[t].found ==> Silenced(r, r.removers[t].id))
  }

  ghost predicate Invariant(r: Registry) {
    EntriesOk(r) && RemoversOk(r)
  }

  lemma RegisteredInMembers(r: Registry, id: nat)
    ensures Registered(r, id) <==> exists e :: e in r.entries && e.id == id
  {
    if e :| e in r.entries && e.id == id {
      var i :| 0 <= i < |r.entries| && r.entries[i] == e;
    }
  }

  lemma EntriesAgree(r: Registry, r': Registry)
    requires EntriesOk(r) && r.lastId <= r'.lastId
    requires forall e :: e in r'.entries ==> e.id <= r'.lastId
    requires forall id: nat :: id in r'.active <==> exists e :: e in r'.entries && e.id == id
    ensures EntriesOk(r')
  {
    forall id { RegisteredInMembers(r', id); }
  }

  lemma AddKeepsEntries(r: Registry, kind: nat)
    requires EntriesOk(r)
    ensures EntriesOk(Next(r, Add(kind)))
  {
    var r' := Next(r, Add(kind));
    forall id
      ensures id in r'.active <==> exists e :: e in r'.entries && e.id == id
    {
      RegisteredInMembers(r, id);
      if id == r.lastId + 1 { assert Entry(id, kind) in r'.entries; }
    }
    EntriesAgree(r, r');
  }

  lemma EraseKeepsEntries(r: Registry, id: nat)
    requires EntriesOk(r)
    ensures EntriesOk(Erase(r, id))
  {
    var r' := Erase(r, id);
    forall other
      ensures other in r'.active <==> exists e :: e in r'.entries && e.id == other
    {
      RegisteredInMembers(r, other);
    }
    EntriesAgree(r, r');
  }

  lemma NextKeepsEntries(r: Registry, s: Step)
    requires EntriesOk(r) && Enabled(r, s)
    ensures EntriesOk(Next(r, s))
  {
    if s.Add? {
      AddKeepsEntries(r, s.kind);
    } else if s.RemoveCall? || s.RemoveInHandler? {
      EraseKeepsEntries(r, s.id);
    } else {
      EntriesAgreeTrivially(r, Next(r, s));
    }
  }

  lemma EntriesAgreeTrivially(r: Registry, r': Registry)
    requires EntriesOk(r) && r'.entries == r.entries && r'.active == r.active && r'.lastId == r.lastId
    ensures EntriesOk(r')
  {
    forall id ensures Registered(r', id) <==> Registered(r, id) {}
  }

  /** A remove() off the dispatcher: its own entry is new, and the others lose nothing. */
  lemma CallKeepsRemovers(r: Registry, thread: nat, id: nat)
    requires Invariant(r) && thread !in r.removers
    ensures RemoversOk(Next(r, RemoveCall(thread, id)))
  {
    hide Without, TargetsOf;
    if Registered(r, id) {
      RegisteredInMembers(r, id);
    }
  }

  /** A step that changes no remover, makes no flag true but a new one's, and engages no silenced handler. */
  lemma OthersKeepRemovers(r: Registry, r': Registry)
    requires Invariant(r) && r'.removers == r.removers && r.lastId <= r'.lastId
    requires forall id :: id in r'.active ==> id in r.active || id > r.lastId
    requires DispatcherHoldsLock(r') ==> DispatcherHoldsLock(r) || LockFree(r)
    requires forall id :: Engaged(r', id) ==> Engaged(r, id) || id in r.active
    ensures RemoversOk(r')
  {
  }

  lemma NextKeepsRemovers(r: Registry, s: Step)
    requires Invariant(r) && Enabled(r, s)
    ensures RemoversOk(Next(r, s))
  {
    hide Without, TargetsOf;
    match s
    case RemoveCall(t, id) => CallKeepsRemovers(r, t, id);
    case RemoveLock(_) =>
    case RemoveReturn(_) =>
    case _ =>
      hide Invariant, RemoversOk, Registered;
      OthersKeepRemovers(r, Next(r, s));
  }

  lemma NextKeepsInvariant(r: Registry, s: Step)
    requires Invariant(r) && Enabled(r, s)
    ensures Invariant(Next(r, s))
  {
    NextKeepsEntries(r, s);
    NextKeepsRemovers(r, s);
  }

  /** Once silenced, silenced for ever: no step of any thread starts the handler again. */
  lemma SilencedIsStable(r: Registry, s: Step, id: nat)
    requires Enabled(r, s) && Silenced(r, id)
    ensures Silenced(Next(r, s), id)
  {
  }

  lemma {:induction false} RunKeepsInvariant(r: Registry, steps: seq<Step>, r': Registry)
    requires Invariant(r) && Run(r, steps, r')
    ensures Invariant(r')
    decreases |steps|
  {
    if steps == [] {
    } else {
      NextKeepsInvariant(r, steps[0]);
      RunKeepsInvariant(Next(r, steps[0]), steps[1..], r');
    }
  }

  lemma {:induction false} RunKeepsSilence(r: Registry, steps: seq<Step>, r': Registry, id: nat)
    requires Run(r, steps, r') && Silenced(r, id)
    ensures Silenced(r', id)
    decreases |steps|
  {
    if steps == [] {
    } else {
      SilencedIsStable(r, steps[0], id);
      RunKeepsSilence(Next(r, steps[0]), steps[1..], r', id);
    }
  }

  predicate BackFrom(r: Registry, thread: nat) {
    thread in r.removers && r.removers[thread].Returned?
  }

  /** `thread` is in a remove() that found the entry of `id`, or has returned from it. */
  predicate RemovesFound(r: Registry, thread: nat, id: nat) {
    && thread in r.removers && r.removers[thread].id == id
    && (r.removers[thread].Returned? ==> r.removers[thread].found)
  }

  lemma {:induction false} RunKeepsRemover(r: Registry, steps: seq<Step>, r': Registry, thread: nat, id: nat)
    requires Run(r, steps, r') && RemovesFound(r, thread, id)
    ensures RemovesFound(r', thread, id)
    decreases |steps|
  {
    if steps == [] {
    } else {
      RunKeepsRemover(Next(r, steps[0]), steps[1..], r', thread, id);
    }
  }

  /** A remove() that finds its entry: once it has returned, the handler is silent for ever. */
  lemma FoundRemoveIsABarrier(r: Registry, thread: nat, id: nat, after: seq<Step>, r': Registry)
    requires Invariant(r) && thread !in r.removers && Registered(r, id)
    requires Run(Next(r, RemoveCall(thread, id)), after, r')
    ensures BackFrom(r', thread) ==> !Engaged(r', id)
  {
    NextKeepsInvariant(r, RemoveCall(thread, id));
    RunKeepsInvariant(Next(r, RemoveCall(thread, id)), after, r');
    RunKeepsRemover(Next(r, RemoveCall(thread, id)), after, r', thread, id);
  }

  /** After `thread` calls remove(id): in every later state in which it has returned, the handler is not running. */
  ghost predicate Barrier(r: Registry, thread: nat, id: nat)
    requires thread !in r.removers
  {
    forall after, r' :: Run(Next(r, RemoveCall(thread, id)), after, r') && BackFrom(r', thread) ==> !Engaged(r', id)
  }

  /**
   * When unsubscribe is a barrier: in every interleaving, a remove() of an issued id called off the
   * dispatcher is one if and only if it finds the entry or the handler is not running at the call.
   */
  lemma RemoveIsABarrier(before: seq<Step>, r: Registry, thread: nat, id: nat)
    requires Run(EMPTY, before, r) && thread !in r.removers && id <= r.lastId
    ensures Barrier(r, thread, id) <==> Registered(r, id) || !Engaged(r, id)
  {
    RunKeepsInvariant(EMPTY, before, r);
    var called := Next(r, RemoveCall(thread, id));
    if Registered(r, id) || !Engaged(r, id) {
      forall after, r' | Run(called, after, r') && BackFrom(r', thread)
        ensures !Engaged(r', id)
      {
        if Registered(r, id) {
          FoundRemoveIsABarrier(r, thread, id, after, r');
        } else {
          RunKeepsSilence(called, after, r', id);
        }
      }
    } else {
      assert Run(called, [], called) && called.removers[thread] == Returned(id, false) && Engaged(called, id);
    }
  }

  /**
   * A remove() that finds nothing returns at once, even while another thread's remove() of the same
   * id is still waiting: its handler can be running then.
   */
  lemma SecondRemoveReturnsEarly(r: Registry, first: nat, second: nat, id: nat)
    requires r.dispatcher.Running? && r.dispatcher.target == id && Registered(r, id)
    requires first != second && first !in r.removers && second !in r.removers
    ensures Enabled(r, RemoveCall(first, id)) && Enabled(Next(r, RemoveCall(first, id)), RemoveCall(second, id))
    ensures var r' := Next(Next(r, RemoveCall(first, id)), RemoveCall(second, id));
            r'.removers[second] == Returned(id, false) && Engaged(r', id)
  {
    var r1 := Next(r, RemoveCall(first, id));
    if Registered(r1, id) {
      RegisteredInMembers(r1, id);
    }
  }

  /**
   * A handler that unsubscribed itself is still running, and another thread's remove() of its id
   * returns at once.
   */
  lemma RemoveAfterSelfRemovalReturnsEarly(r: Registry, thread: nat, id: nat)
    requires r.dispatcher.Running? && r.dispatcher.target == id && Registered(r, id) && thread !in r.removers
    ensures var left := Next(r, RemoveInHandler(id));
            && Enabled(left, RemoveCall(thread, id))
            && var r' := Next(left, RemoveCall(thread, id));
               r'.removers[thread] == Returned(id, false) && Engaged(r', id)
  {
    var left := Next(r, RemoveInHandler(id));
    if Registered(left, id) {
      RegisteredInMembers(left, id);
    }
  }

  /** The state both need is reachable: subscribe one handler and deliver one event. */
  lemma HandlerCanRun()
    ensures exists steps, r :: Run(EMPTY, steps, r) && r.dispatcher == Running(1, []) && Registered(r, 1)
              && r.removers == map[]
  {
    var r0 := EMPTY.(entries := [Entry(1, 0)], active := {1}, lastId := 1);
    assert EMPTY.entries + [Entry(1, 0)] == r0.entries;
    assert r0.entries[0].id == 1;
    var r4 := r0.(dispatcher := Running(1, []));
    var delivery := [Snapshot(0), Lock, ReadFlag, Start];
    OneDelivery(r0, r4);
    RunCons(r4, delivery, r0, Add(0), EMPTY);
    assert Run(EMPTY, [Add(0)] + delivery, r4);
  }

  lemma OneDelivery(r0: Registry, r4: Registry)
    requires r0.entries == [Entry(1, 0)] && r0.active == {1} && r0.dispatcher.Idle? && r0.removers == map[]
    requires r0.visited == [] && r4 == r0.(dispatcher := Running(1, []))
    ensures Run(r0, [Snapshot(0), Lock, ReadFlag, Start], r4)
  {
    hide Run;
    assert TargetsOf(r0.entries, 0) == [1] by {
      assert r0.entries[1..] == [];
      assert TargetsOf(r0.entries, 0) == [1] + TargetsOf([], 0);
    }
    var r1 := r0.(dispatcher := Between([1]));
    var r2 := r0.(dispatcher := Locked(1, []));
    var r3 := r0.(dispatcher := Ready(1, []));
    RunNothing(r4);
    RunCons(r4, [], r4, Start, r3);
    assert [Start] + [] == [Start];
    RunCons(r4, [Start], r3, ReadFlag, r2);
    assert [ReadFlag] + [Start] == [ReadFlag, Start];
    RunCons(r4, [ReadFlag, Start], r2, Lock, r1);
    assert [Lock] + [ReadFlag, Start] == [Lock, ReadFlag, Start];
    RunCons(r4, [Lock, ReadFlag, Start], r1, Snapshot(0), r0);
    assert [Snapshot(0)] + [Lock, ReadFlag, Start] == [Snapshot(0), Lock, ReadFlag, Start];
  }

  lemma RunNothing(r: Registry)
    ensures Run(r, [], r)
  {
  }

  lemma RunCons(end: Registry, steps: seq<Step>, r: Registry, s: Step, before: Registry)
    requires Enabled(before, s) && Next(before, s) == r && Run(r, steps, end)
    ensures Run(before, [s] + steps, end)
  {
    assert ([s] + steps)[1..] == steps;
  }

  /** Unsubscribed from a handler: another target is skipped for the rest of this delivery and after. */
  lemma RemovedInHandlerIsSkipped(r: Registry, id: nat, after: seq<Step>, r': Registry)
    requires Invariant(r) && r.dispatcher.Running? && r.dispatcher.target != id && Registered(r, id)
    requires Run(Next(r, RemoveInHandler(id)), after, r')
    ensures !Engaged(r', id)
  {
    RegisteredInMembers(r, id);
    RunKeepsSilence(Next(r, RemoveInHandler(id)), after, r', id);
  }

  // ----- each delivery visits its targets once, in subscription order --------------------

  function Ids(visited: seq<(nat, bool)>): seq<nat> {
    seq(|visited|, i requires 0 <= i < |visited| => visited[i].0)
  }

  function Pending(d: Dispatcher): seq<nat> {
    match d
    case Idle => []
    case Between(rest) => rest
    case Locked(target, rest) => [target] + rest
    case Ready(target, rest) => [target] + rest
    case Running(target, rest) => [target] + rest
  }

  function Progress(r: Registry): seq<nat> {
    Ids(r.visited) + Pending(r.dispatcher)
  }

  lemma StepKeepsProgress(r: Registry, s: Step)
    requires Enabled(r, s) && !s.Snapshot?
    ensures Progress(Next(r, s)) == Progress(r)
  {
    var r' := Next(r, s);
    if s.ReadFlag? || s.Finish? {
      assert Ids(r.visited + [(r.dispatcher.target, s.Finish?)]) == Ids(r.visited) + [r.dispatcher.target];
    }
  }

  /** From its snapshot on, a delivery has visited plus still-to-visit targets equal to the snapshot. */
  lemma {:induction false} DeliveryVisitsEachTargetOnce(r: Registry, kind: nat, steps: seq<Step>, r': Registry)
    requires Enabled(r, Snapshot(kind)) && Run(Next(r, Snapshot(kind)), steps, r')
    requires forall s :: s in steps ==> !s.Snapshot?
    ensures Progress(r') == TargetsOf(r.entries, kind)
  {
    RunKeepsProgress(Next(r, Snapshot(kind)), steps, r');
  }

  lemma {:induction false} RunKeepsProgress(r: Registry, steps: seq<Step>, r': Registry)
    requires Run(r, steps, r') && forall s :: s in steps ==> !s.Snapshot?
    ensures Progress(r') == Progress(r)
    decreases |steps|
  {
    if steps == [] {
    } else {
      StepKeepsProgress(r, steps[0]);
      RunKeepsProgress(Next(r, steps[0]), steps[1..], r');
    }
  }

  // ----- and it reaches every subscriber, in the order they came -------------------------

  /** A target was passed over only when its flag was false for good. */
  ghost predicate PassedOverRightly(r: Registry) {
    forall i :: 0 <= i < |r.visited| && !r.visited[i].1 ==> r.visited[i].0 <= r.lastId && r.visited[i].0 !in r.active
  }

  ghost predicate TargetsIssued(r: Registry) {
    forall i :: 0 <= i < |Pending(r.dispatcher)| ==> Pending(r.dispatcher)[i] <= r.lastId
  }

  lemma StepKeepsPassing(r: Registry, s: Step)
    requires Enabled(r, s) && EntriesOk(r) && PassedOverRightly(r) && TargetsIssued(r)
    ensures PassedOverRightly(Next(r, s)) && TargetsIssued(Next(r, s))
  {
    hide Without, TargetsOf;
    var before, after := Pending(r.dispatcher), Pending(Next(r, s).dispatcher);
    if s.Snapshot? {
      SnapshotIsIssued(r, s.kind);
      forall i | 0 <= i < |after| ensures after[i] <= r.lastId { assert after[i] in TargetsOf(r.entries, s.kind); }
    } else if s.ReadFlag? || s.Finish? {
      assert before[0] == r.dispatcher.target && before[1..] == r.dispatcher.rest;
      assert after == before || after == before[1..];
    } else {
      assert after == before;
    }
  }

  lemma SnapshotIsIssued(r: Registry, kind: nat)
    requires EntriesOk(r)
    ensures forall id :: id in TargetsOf(r.entries, kind) ==> id <= r.lastId
  {
    forall id | id in TargetsOf(r.entries, kind) ensures id <= r.lastId {
      var i :| 0 <= i < |r.entries| && r.entries[i] == Entry(id, kind);
      assert r.entries[i] in r.entries;
    }
  }

  lemma {:induction false} RunKeepsPassing(r: Registry, steps: seq<Step>, r': Registry)
    requires Run(r, steps, r') && EntriesOk(r) && PassedOverRightly(r) && TargetsIssued(r)
    ensures PassedOverRightly(r') && TargetsIssued(r')
    decreases |steps|
  {
    hide EntriesOk, PassedOverRightly, TargetsIssued;
    if steps == [] {
    } else {
      StepKeepsPassing(r, steps[0]);
      NextKeepsEntries(r, steps[0]);
      RunKeepsPassing(Next(r, steps[0]), steps[1..], r');
    }
  }

  /**
   * A delivery that has come to its end ran the handler of every entry that was there when it began and is
   * still registered: whatever other threads and handlers added or removed meanwhile.
   */
  lemma EverySubscriberIsReached(before: seq<Step>, r: Registry, kind: nat, steps: seq<Step>, r': Registry, i: nat)
    requires Run(EMPTY, before, r) && Enabled(r, Snapshot(kind)) && Run(Next(r, Snapshot(kind)), steps, r')
    requires (forall s :: s in steps ==> !s.Snapshot?) && Pending(r'.dispatcher) == []
    requires i < |r.entries| && r.entries[i].kind == kind && Registered(r', r.entries[i].id)
    ensures (r.entries[i].id, true) in r'.visited
  {
    hide Run, Next, TargetsOf, RemoversOk;
    RunKeepsInvariant(EMPTY, before, r);
    RunKeepsPassing(EMPTY, before, r);
    StepKeepsPassing(r, Snapshot(kind));
    NextKeepsEntries(r, Snapshot(kind));
    RunKeepsPassing(Next(r, Snapshot(kind)), steps, r');
    RunKeepsEntries(Next(r, Snapshot(kind)), steps, r');
    DeliveryVisitsEachTargetOnce(r, kind, steps, r');
    var id := r.entries[i].id;
    assert id in TargetsOf(r.entries, kind) by { IsATarget(r.entries, kind, i); }
    assert Ids(r'.visited) + [] == Ids(r'.visited);
    var k :| 0 <= k < |Ids(r'.visited)| && Ids(r'.visited)[k] == id;
    assert r'.visited[k].0 == id && r'.visited[k].1;
  }

  lemma IsATarget(entries: seq<Entry>, kind: nat, i: nat)
    requires i < |entries| && entries[i].kind == kind
    ensures entries[i].id in TargetsOf(entries, kind)
  {
    assert entries[i] == Entry(entries[i].id, kind);
  }

  lemma {:induction false} RunKeepsEntries(r: Registry, steps: seq<Step>, r': Registry)
    requires Run(r, steps, r') && EntriesOk(r)
    ensures EntriesOk(r')
    decreases |steps|
  {
    hide EntriesOk;
    if steps == [] {
    } else {
      NextKeepsEntries(r, steps[0]);
      RunKeepsEntries(Next(r, steps[0]), steps[1..], r');
    }
  }

  ghost predicate Rising(ids: seq<nat>) {
    forall i, j :: 0 <= i < j < |ids| ==> ids[i] < ids[j]
  }

  function EntryIds(entries: seq<Entry>): seq<nat> {
    seq(|entries|, i requires 0 <= i < |entries| => entries[i].id)
  }

  lemma {:induction false} WithoutKeepsOrder(entries: seq<Entry>, id: nat)
    requires Rising(EntryIds(entries))
    ensures Rising(EntryIds(Without(entries, id)))
    decreases |entries|
  {
    if entries == [] {
    } else {
      var rest := Without(entries[1..], id);
      assert forall i :: 0 <= i < |entries| - 1 ==> EntryIds(entries[1..])[i] == EntryIds(entries)[i + 1];
      WithoutKeepsOrder(entries[1..], id);
      if entries[0].id != id { FirstIsLeast(entries, rest); } else { assert [] + rest == rest; }
    }
  }

  lemma FirstIsLeast(entries: seq<Entry>, rest: seq<Entry>)
    requires entries != [] && Rising(EntryIds(entries)) && Rising(EntryIds(rest))
    requires forall e :: e in rest ==> e in entries[1..]
    ensures Rising(EntryIds([entries[0]] + rest))
  {
    var all := [entries[0]] + rest;
    forall j | 0 < j < |all| ensures all[0].id < all[j].id {
      assert all[j] == rest[j - 1] && rest[j - 1] in entries[1..];
      var k :| 0 <= k < |entries| - 1 && entries[1..][k] == all[j];
      assert EntryIds(entries)[0] < EntryIds(entries)[k + 1];
    }
    forall i, j | 0 < i < j < |all| ensures all[i].id < all[j].id {
      assert EntryIds(rest)[i - 1] < EntryIds(rest)[j - 1];
    }
  }

  lemma StepKeepsIdOrder(r: Registry, s: Step)
    requires Enabled(r, s) && EntriesOk(r) && Rising(EntryIds(r.entries))
    ensures Rising(EntryIds(Next(r, s).entries))
  {
    hide Without, TargetsOf;
    if s.Add? {
      var all := r.entries + [Entry(r.lastId + 1, s.kind)];
      forall i, j | 0 <= i < j < |all| ensures all[i].id < all[j].id {
        assert r.entries[i] in r.entries && EntryIds(r.entries)[i] == r.entries[i].id;
        if j < |r.entries| { assert EntryIds(r.entries)[i] < EntryIds(r.entries)[j]; }
      }
    } else if s.RemoveCall? || s.RemoveInHandler? {
      WithoutKeepsOrder(r.entries, s.id);
    }
  }

  lemma {:induction false} RunKeepsIdOrder(r: Registry, steps: seq<Step>, r': Registry)
    requires Run(r, steps, r') && EntriesOk(r) && Rising(EntryIds(r.entries))
    ensures Rising(EntryIds(r'.entries))
    decreases |steps|
  {
    hide EntriesOk, Rising, EntryIds;
    if steps == [] {
    } else {
      StepKeepsIdOrder(r, steps[0]);
      NextKeepsEntries(r, steps[0]);
      RunKeepsIdOrder(Next(r, steps[0]), steps[1..], r');
    }
  }

  lemma {:induction false} TargetsKeepOrder(entries: seq<Entry>, kind: nat)
    requires Rising(EntryIds(entries))
    ensures Rising(TargetsOf(entries, kind))
    decreases |entries|
  {
    if entries == [] {
    } else {
      var rest := TargetsOf(entries[1..], kind);
      assert forall i :: 0 <= i < |entries| - 1 ==> EntryIds(entries[1..])[i] == EntryIds(entries)[i + 1];
      TargetsKeepOrder(entries[1..], kind);
      forall j | 0 <= j < |rest| ensures entries[0].id < rest[j] {
        assert rest[j] in rest;
        var i :| 0 <= i < |entries[1..]| && entries[1..][i] == Entry(rest[j], kind);
        assert EntryIds(entries)[0] < EntryIds(entries)[i + 1];
      }
    }
  }

  /** Targets are visited in the order they subscribed: ids are issued in that order and only grow. */
  lemma TargetsComeInSubscriptionOrder(steps: seq<Step>, r: Registry, kind: nat)
    requires Run(EMPTY, steps, r)
    ensures Rising(TargetsOf(r.entries, kind))
  {
    hide Run;
    RunKeepsIdOrder(EMPTY, steps, r);
    TargetsKeepOrder(r.entries, kind);
  }
}
