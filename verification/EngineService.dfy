/**
 * The engine service: a command reader and a worker share a queue of runs under one mutex.
 *
 * One step is one critical section, so every interleaving of the two threads is a list of steps.
 */
module EngineService {
  import opened Domain

  // Run ids, and the ids of the commands that start them, are only ever compared.
  type RunId = nat

  datatype RunState = Queued | Running | Completed | Failed | Stopped

  predicate Final(state: RunState) {
    state in {Completed, Failed, Stopped}
  }

  /** `risk` is the kill switch of the run's risk manager while it is lent; `ticket` numbers admissions. */
  datatype Run = Run(command: nat, state: RunState, killed: bool, stop: bool, risk: Option<bool>, ticket: Option<nat>)

  // Where the worker stands. `marked`: the run was marked Running on the way.
  datatype Worker =
    | Waiting
    | Popped(id: RunId)
    | Replaying(id: RunId)
    | Ended(id: RunId, outcome: RunState, marked: bool)
    | Recorded(id: RunId)
    | Exited

  datatype Stats = Stats(commands: nat, ignored: nat, refused: nat, completed: nat, stopped: nat, failed: nat)

  datatype Service = Service(maxQueued: nat, runs: map<RunId, Run>, queue: seq<RunId>, current: Option<RunId>,
                             worker: Worker, stopping: bool, closed: bool, stats: Stats,
                             admitted: seq<RunId>, begun: seq<RunId>)

  datatype Step =
    | StartRun(id: RunId, command: nat, topicOk: bool, settingsOk: bool)
    | StopRun(id: RunId)
    | SetKillSwitch(id: RunId, engaged: bool)
    | Pop
    | MarkRunning
    | FailBeforeStart                 // building the run threw
    | EndReplay(outcome: RunState)    // the replay returned or threw; the risk manager is taken back
    | Record                          // the final state is written
    | ClearCurrent
    | BeginStop
    | ExitWorker
    | CloseQueue

  function WorkerRun(w: Worker): Option<RunId> {
    match w
    case Waiting => None
    case Exited => None
    case Popped(id) => Some(id)
    case Replaying(id) => Some(id)
    case Ended(id, _, _) => Some(id)
    case Recorded(id) => Some(id)
  }

  function Occupied(s: Service): nat {
    |s.queue| + (if s.current.Some? then 1 else 0)
  }

  function Erase(queue: seq<RunId>, id: RunId): (rest: seq<RunId>)
    ensures forall x :: x in rest <==> x in queue && x != id
    ensures |rest| <= |queue|
  {
    if queue == [] then [] else (if queue[0] == id then [] else [queue[0]]) + Erase(queue[1..], id)
  }

  // ----- the steps -----------------------------------------------------------------------

  predicate Enabled(s: Service, step: Step) {
    match step
    case Pop => s.worker.Waiting? && !s.stopping && s.queue != []
    case MarkRunning => s.worker.Popped? && s.worker.id in s.runs
    case FailBeforeStart => s.worker.Popped? && s.worker.id in s.runs
    case EndReplay(outcome) =>
      && s.worker.Replaying? && s.worker.id in s.runs && Final(outcome)
      && (outcome == Stopped ==> s.runs[s.worker.id].stop || s.stopping)
    case Record => s.worker.Ended? && s.worker.id in s.runs
    case ClearCurrent => s.worker.Recorded?
    case ExitWorker => s.worker.Waiting? && s.stopping
    case CloseQueue => s.worker.Exited? && !s.closed && forall id :: id in s.queue ==> id in s.runs
    case _ => true
  }

  function Refuse(s: Service): Service {
    s.(stats := s.stats.(refused := s.stats.refused + 1))
  }

  function Admit(s: Service, id: RunId, command: nat, settingsOk: bool): Service {
    if !settingsOk || Occupied(s) >= s.maxQueued || s.stopping then
      s.(runs := s.runs[id := Run(command, Failed, false, false, None, None)],
         stats := s.stats.(refused := s.stats.refused + 1, failed := s.stats.failed + 1))
    else
      s.(runs := s.runs[id := Run(command, Queued, false, false, None, Some(|s.admitted|))],
         queue := s.queue + [id], admitted := s.admitted + [id])
  }

  function Halt(s: Service, id: RunId): Service
    requires id in s.runs
  {
    var run := s.runs[id];
    if run.state == Queued then
      s.(queue := Erase(s.queue, id), runs := s.runs[id := run.(state := Stopped)],
         stats := s.stats.(stopped := s.stats.stopped + 1))
    else s.(runs := s.runs[id := run.(stop := true)])
  }

  function Switch(s: Service, id: RunId, engaged: bool): Service
    requires id in s.runs
  {
    var run := s.runs[id];
    s.(runs := s.runs[id := run.(killed := engaged, risk := if run.risk.Some? then Some(engaged) else None)])
  }

  function Counted(s: Stats, outcome: RunState): Stats {
    match outcome
    case Failed => s.(failed := s.failed + 1)
    case Completed => s.(completed := s.completed + 1)
    case _ => s.(stopped := s.stopped + 1)
  }

  function Received(s: Service): Service {
    s.(stats := s.stats.(commands := s.stats.commands + 1))
  }

  // The reader's commands.

  function Started(s: Service, id: RunId, command: nat, topicOk: bool, settingsOk: bool): Service {
    if id in s.runs then (if s.runs[id].command != command then Refuse(s) else s)
    else if !topicOk then Refuse(s)
    else Admit(s, id, command, settingsOk)
  }

  function Unknown(s: Service): Service {
    s.(stats := s.stats.(ignored := s.stats.ignored + 1))
  }

  function Halted(s: Service, id: RunId): Service {
    if id !in s.runs then Unknown(s)
    else if Final(s.runs[id].state) then Refuse(s)
    else Halt(s, id)
  }

  function Switched(s: Service, id: RunId, engaged: bool): Service {
    if id !in s.runs then Unknown(s)
    else if Final(s.runs[id].state) then Refuse(s)
    else Switch(s, id, engaged)
  }

  // The worker.

  function Taken(s: Service): Service
    requires s.queue != []
  {
    s.(queue := s.queue[1..], current := Some(s.queue[0]), worker := Popped(s.queue[0]),
       begun := s.begun + [s.queue[0]])
  }

  function Marked(s: Service): Service
    requires s.worker.Popped? && s.worker.id in s.runs
  {
    var run := s.runs[s.worker.id];
    s.(runs := s.runs[s.worker.id := run.(state := Running, risk := Some(run.killed))],
       worker := Replaying(s.worker.id))
  }

  function Replayed(s: Service, outcome: RunState): Service
    requires s.worker.Replaying? && s.worker.id in s.runs
  {
    var run := s.runs[s.worker.id];
    s.(runs := s.runs[s.worker.id := run.(risk := None)], worker := Ended(s.worker.id, outcome, true))
  }

  function Written(s: Service): Service
    requires s.worker.Ended? && s.worker.id in s.runs
  {
    var run := s.runs[s.worker.id];
    s.(runs := s.runs[s.worker.id := run.(state := s.worker.outcome)],
       stats := Counted(s.stats, s.worker.outcome), worker := Recorded(s.worker.id))
  }

  // stop().

  function Stopping(s: Service): Service {
    if s.stopping then s
    else if s.current.Some? && s.current.value in s.runs then
      s.(stopping := true, runs := s.runs[s.current.value := s.runs[s.current.value].(stop := true)])
    else s.(stopping := true)
  }

  function Closed(s: Service): Service {
    s.(runs := StopAll(s.runs, s.queue), queue := [], closed := true)
  }

  function Next(s: Service, step: Step): Service
    requires Enabled(s, step)
  {
    match step
    case StartRun(id, command, topicOk, settingsOk) => Started(Received(s), id, command, topicOk, settingsOk)
    case StopRun(id) => Halted(Received(s), id)
    case SetKillSwitch(id, engaged) => Switched(Received(s), id, engaged)
    case Pop => Taken(s)
    case MarkRunning => Marked(s)
    case FailBeforeStart => s.(worker := Ended(s.worker.id, Failed, false))
    case EndReplay(outcome) => Replayed(s, outcome)
    case Record => Written(s)
    case ClearCurrent => s.(current := None, worker := Waiting)
    case BeginStop => Stopping(s)
    case ExitWorker => s.(worker := Exited)
    case CloseQueue => Closed(s)
  }

  function StopAll(runs: map<RunId, Run>, queue: seq<RunId>): map<RunId, Run> {
    map id | id in runs :: if id in queue then runs[id].(state := Stopped) else runs[id]
  }

  function Fresh(maxQueued: nat): Service {
    Service(maxQueued, map[], [], None, Waiting, false, false, Stats(0, 0, 0, 0, 0, 0), [], [])
  }

  // ----- the invariant -------------------------------------------------------------------

  /** The run was popped but the worker has not marked it: its state still reads Queued, or was set to Stopped. */
  predicate InWindow(s: Service, id: RunId) {
    PlaceOf(s.worker, id) == Window
  }

  datatype Place = Away | Window | Inside | Leaving

  /** Where the worker stands with a run. */
  function PlaceOf(w: Worker, id: RunId): Place {
    match w
    case Popped(r) => if r == id then Window else Away
    case Replaying(r) => if r == id then Inside else Away
    case Ended(r, _, marked) => if r == id then (if marked then Leaving else Window) else Away
    case _ => Away
  }

  /** What a run's record says, against whether it is queued and where the worker stands with it. */
  predicate RunAgrees(run: Run, queued: bool, place: Place) {
    && (queued ==> run.state == Queued && place == Away)
    && (run.state == Queued ==> queued || place == Window)
    && (place == Window ==> run.state in {Queued, Stopped})
    && (run.state == Running <==> place in {Inside, Leaving})
    && (run.risk.Some? <==> place == Inside)
    && (run.risk.Some? ==> run.risk.value == run.killed)
  }

  ghost predicate WorkerAgrees(s: Service) {
    && s.current == WorkerRun(s.worker)
    && (s.current.Some? ==> s.current.value in s.runs && s.current.value !in s.queue)
    && (s.worker.Ended? ==> Final(s.worker.outcome) && (!s.worker.marked ==> s.worker.outcome == Failed))
    && (s.worker.Exited? ==> s.stopping) && (s.closed ==> s.worker.Exited? && s.queue == [])
    && forall id :: id in s.queue ==> id in s.runs
  }

  ghost predicate StatesAgree(s: Service) {
    WorkerAgrees(s) && forall id :: id in s.runs ==> RunAgrees(s.runs[id], id in s.queue, PlaceOf(s.worker, id))
  }

  ghost predicate Ticketed(runs: map<RunId, Run>, admitted: seq<RunId>) {
    && (forall t :: 0 <= t < |admitted| ==> admitted[t] in runs && runs[admitted[t]].ticket == Some(t))
    && (forall id :: id in runs && runs[id].ticket.Some? ==>
          runs[id].ticket.value < |admitted| && admitted[runs[id].ticket.value] == id)
  }

  ghost predicate InOrder(ids: seq<RunId>, runs: map<RunId, Run>) {
    && (forall i :: 0 <= i < |ids| ==> ids[i] in runs && runs[ids[i]].ticket.Some?)
    && (forall i, j :: 0 <= i < j < |ids| ==> runs[ids[i]].ticket.value < runs[ids[j]].ticket.value)
  }

  ghost predicate OrderKept(s: Service) {
    Ticketed(s.runs, s.admitted) && InOrder(s.begun + s.queue, s.runs)
  }

  ghost predicate Invariant(s: Service) {
    StatesAgree(s) && OrderKept(s) && Occupied(s) <= s.maxQueued
  }

  // ----- each step keeps it --------------------------------------------------------------

  predicate FromReader(step: Step) {
    step.StartRun? || step.StopRun? || step.SetKillSwitch?
  }

  predicate FromStop(step: Step) {
    step.BeginStop? || step.ExitWorker? || step.CloseQueue?
  }

  /** What a command leaves alone, and what can become of the queue. */
  lemma CommandEffect(s: Service, step: Step)
    requires FromReader(step)
    ensures var t := Next(s, step);
            && (t.current, t.worker, t.stopping, t.closed) == (s.current, s.worker, s.stopping, s.closed)
            && s.runs.Keys <= t.runs.Keys
            && forall id :: id in t.queue ==> id in s.queue || (id !in s.runs && id in t.runs && !s.stopping)
    ensures s.closed && s.stopping && s.queue == [] ==> Next(s, step).queue == []
  {
    hide Taken, Marked, Replayed, Written, Stopping, Closed, Counted;
    if step.StartRun? {
      hide Halted, Switched;
      assert Next(s, step) == Started(Received(s), step.id, step.command, step.topicOk, step.settingsOk);
    } else if step.StopRun? {
      hide Started, Switched;
      assert Next(s, step) == Halted(Received(s), step.id);
    } else {
      hide Started, Halted;
      assert Next(s, step) == Switched(Received(s), step.id, step.engaged);
    }
  }

  lemma WorkerAfterCommand(s: Service, step: Step)
    requires WorkerAgrees(s) && FromReader(step)
    ensures WorkerAgrees(Next(s, step))
  {
    hide Next;
    CommandEffect(s, step);
  }

  lemma WorkerAfterItsOwn(s: Service, step: Step)
    requires WorkerAgrees(s) && Enabled(s, step) && !FromReader(step) && !FromStop(step)
    requires step.Pop? ==> forall i :: 0 < i < |s.queue| ==> s.queue[i] != s.queue[0]
    ensures WorkerAgrees(Next(s, step))
  {
    hide Started, Halted, Switched, Stopping, Closed, Counted;
  }

  lemma WorkerAfterStop(s: Service, step: Step)
    requires WorkerAgrees(s) && Enabled(s, step) && FromStop(step)
    ensures WorkerAgrees(Next(s, step))
  {
    hide Started, Halted, Switched, Taken, Marked, Replayed, Written;
  }

  lemma WorkerStaysInStep(s: Service, step: Step)
    requires WorkerAgrees(s) && Enabled(s, step)
    requires step.Pop? ==> forall i :: 0 < i < |s.queue| ==> s.queue[i] != s.queue[0]
    ensures WorkerAgrees(Next(s, step))
  {
    hide Next, Enabled, WorkerAgrees;
    if FromReader(step) {
      WorkerAfterCommand(s, step);
    } else if FromStop(step) {
      WorkerAfterStop(s, step);
    } else {
      WorkerAfterItsOwn(s, step);
    }
  }

  lemma RunAfterStart(s: Service, step: Step, id: RunId)
    requires WorkerAgrees(s) && Enabled(s, step) && id in Next(s, step).runs
    requires id in s.runs ==> RunAgrees(s.runs[id], id in s.queue, PlaceOf(s.worker, id))
    requires step.StartRun?
    ensures RunAgrees(Next(s, step).runs[id], id in Next(s, step).queue, PlaceOf(Next(s, step).worker, id))
  {
    hide Halted, Switched, Taken, Marked, Replayed, Written, Stopping, Closed;
  }

  lemma RunAfterCommand(s: Service, step: Step, id: RunId)
    requires WorkerAgrees(s) && Enabled(s, step) && id in Next(s, step).runs
    requires id in s.runs ==> RunAgrees(s.runs[id], id in s.queue, PlaceOf(s.worker, id))
    requires step.StopRun? || step.SetKillSwitch?
    ensures RunAgrees(Next(s, step).runs[id], id in Next(s, step).queue, PlaceOf(Next(s, step).worker, id))
  {
    hide Started, Taken, Marked, Replayed, Written, Stopping, Closed;
    if step.StopRun? {
      hide Switched;
      assert Next(s, step) == Halted(Received(s), step.id);
    } else {
      hide Halted;
      assert Next(s, step) == Switched(Received(s), step.id, step.engaged);
    }
  }

  lemma RunAfterPop(s: Service, step: Step, id: RunId)
    requires WorkerAgrees(s) && Enabled(s, step) && id in Next(s, step).runs
    requires id in s.runs ==> RunAgrees(s.runs[id], id in s.queue, PlaceOf(s.worker, id))
    requires step.Pop? && forall i :: 0 < i < |s.queue| ==> s.queue[i] != s.queue[0]
    ensures RunAgrees(Next(s, step).runs[id], id in Next(s, step).queue, PlaceOf(Next(s, step).worker, id))
  {
    hide Started, Halted, Switched, Marked, Replayed, Written, Stopping, Closed;
  }

  lemma RunAfterMark(s: Service, step: Step, id: RunId)
    requires WorkerAgrees(s) && Enabled(s, step) && id in Next(s, step).runs
    requires id in s.runs ==> RunAgrees(s.runs[id], id in s.queue, PlaceOf(s.worker, id))
    requires step.MarkRunning? || step.FailBeforeStart?
    ensures RunAgrees(Next(s, step).runs[id], id in Next(s, step).queue, PlaceOf(Next(s, step).worker, id))
  {
    hide Started, Halted, Switched, Taken, Replayed, Written, Stopping, Closed;
  }

  lemma RunAfterEnd(s: Service, step: Step, id: RunId)
    requires WorkerAgrees(s) && Enabled(s, step) && id in Next(s, step).runs
    requires id in s.runs ==> RunAgrees(s.runs[id], id in s.queue, PlaceOf(s.worker, id))
    requires step.EndReplay? || step.Record? || step.ClearCurrent?
    ensures RunAgrees(Next(s, step).runs[id], id in Next(s, step).queue, PlaceOf(Next(s, step).worker, id))
  {
    hide Started, Halted, Switched, Taken, Marked, Stopping, Closed, Counted;
  }

  lemma RunAfterShutdown(s: Service, step: Step, id: RunId)
    requires WorkerAgrees(s) && Enabled(s, step) && id in Next(s, step).runs
    requires id in s.runs ==> RunAgrees(s.runs[id], id in s.queue, PlaceOf(s.worker, id))
    requires step.BeginStop? || step.ExitWorker? || step.CloseQueue?
    ensures RunAgrees(Next(s, step).runs[id], id in Next(s, step).queue, PlaceOf(Next(s, step).worker, id))
  {
    hide Started, Halted, Switched, Taken, Marked, Replayed, Written;
  }

  lemma RunStaysInStep(s: Service, step: Step, id: RunId)
    requires WorkerAgrees(s) && Enabled(s, step) && id in Next(s, step).runs
    requires id in s.runs ==> RunAgrees(s.runs[id], id in s.queue, PlaceOf(s.worker, id))
    requires step.Pop? ==> forall i :: 0 < i < |s.queue| ==> s.queue[i] != s.queue[0]
    ensures RunAgrees(Next(s, step).runs[id], id in Next(s, step).queue, PlaceOf(Next(s, step).worker, id))
  {
    hide Next, Enabled, RunAgrees, WorkerAgrees, PlaceOf;
    match step
    case StartRun(_, _, _, _) => RunAfterStart(s, step, id);
    case StopRun(_) => RunAfterCommand(s, step, id);
    case SetKillSwitch(_, _) => RunAfterCommand(s, step, id);
    case Pop => RunAfterPop(s, step, id);
    case MarkRunning => RunAfterMark(s, step, id);
    case FailBeforeStart => RunAfterMark(s, step, id);
    case EndReplay(_) => RunAfterEnd(s, step, id);
    case Record => RunAfterEnd(s, step, id);
    case ClearCurrent => RunAfterEnd(s, step, id);
    case _ => RunAfterShutdown(s, step, id);
  }

  lemma StatesStayInStep(s: Service, step: Step)
    requires StatesAgree(s) && Enabled(s, step)
    requires step.Pop? ==> forall i :: 0 < i < |s.queue| ==> s.queue[i] != s.queue[0]
    ensures StatesAgree(Next(s, step))
  {
    hide Next, Enabled, RunAgrees, WorkerAgrees, PlaceOf;
    WorkerStaysInStep(s, step);
    forall id | id in Next(s, step).runs
      ensures RunAgrees(Next(s, step).runs[id], id in Next(s, step).queue, PlaceOf(Next(s, step).worker, id))
    {
      RunStaysInStep(s, step, id);
    }
  }

  lemma RoomIsKept(s: Service, step: Step)
    requires Occupied(s) <= s.maxQueued && WorkerAgrees(s) && Enabled(s, step)
    ensures Occupied(Next(s, step)) <= s.maxQueued == Next(s, step).maxQueued
  {
  }

  lemma SameTickets(ids: seq<RunId>, admitted: seq<RunId>, runs: map<RunId, Run>, runs': map<RunId, Run>)
    requires Ticketed(runs, admitted) && InOrder(ids, runs)
    requires runs'.Keys == runs.Keys && forall id :: id in runs ==> runs'[id].ticket == runs[id].ticket
    ensures Ticketed(runs', admitted) && InOrder(ids, runs')
  {
  }

  lemma DropOne(before: seq<RunId>, id: RunId, after: seq<RunId>, runs: map<RunId, Run>)
    requires InOrder((before + [id]) + after, runs)
    ensures InOrder(before + after, runs)
  {
    var ids, n := (before + [id]) + after, |before|;
    assert forall i :: 0 <= i < |before + after| ==> (before + after)[i] == ids[if i < n then i else i + 1];
  }

  lemma {:induction false} ErasedInOrder(begun: seq<RunId>, queue: seq<RunId>, id: RunId, runs: map<RunId, Run>)
    requires InOrder(begun + queue, runs)
    ensures InOrder(begun + Erase(queue, id), runs)
    decreases |queue|
  {
    hide InOrder, Erase;
    EraseOne(queue, id);
    if queue == [] {
    } else {
      assert begun + queue == (begun + [queue[0]]) + queue[1..];
      ErasedInOrder(begun + [queue[0]], queue[1..], id, runs);
      if queue[0] == id {
        DropOne(begun, queue[0], Erase(queue[1..], id), runs);
      } else {
        Reassociate(begun, queue[0], Erase(queue[1..], id));
      }
    }
  }

  lemma EraseOne(queue: seq<RunId>, id: RunId)
    ensures Erase(queue, id) ==
            if queue == [] then []
            else if queue[0] == id then Erase(queue[1..], id)
            else [queue[0]] + Erase(queue[1..], id)
  {
  }

  lemma Reassociate(a: seq<RunId>, x: RunId, b: seq<RunId>)
    ensures (a + [x]) + b == a + ([x] + b)
  {
  }

  lemma NewestIsLast(ids: seq<RunId>, admitted: seq<RunId>, runs: map<RunId, Run>, id: RunId, run: Run)
    requires Ticketed(runs, admitted) && InOrder(ids, runs) && id !in runs && run.ticket == Some(|admitted|)
    ensures Ticketed(runs[id := run], admitted + [id]) && InOrder(ids + [id], runs[id := run])
  {
  }

  lemma RefusedHasNoTicket(ids: seq<RunId>, admitted: seq<RunId>, runs: map<RunId, Run>, id: RunId, run: Run)
    requires Ticketed(runs, admitted) && InOrder(ids, runs) && id !in runs && run.ticket.None?
    ensures Ticketed(runs[id := run], admitted) && InOrder(ids, runs[id := run])
  {
  }

  lemma PrefixInOrder(ids: seq<RunId>, rest: seq<RunId>, runs: map<RunId, Run>)
    requires InOrder(ids + rest, runs)
    ensures InOrder(ids, runs)
  {
    assert forall i :: 0 <= i < |ids| ==> (ids + rest)[i] == ids[i];
  }

  lemma TicketsNeverChange(s: Service, step: Step, id: RunId)
    requires Enabled(s, step) && id in s.runs
    ensures id in Next(s, step).runs && Next(s, step).runs[id].ticket == s.runs[id].ticket
  {
    if FromReader(step) {
      hide Taken, Marked, Replayed, Written, Stopping, Closed;
    } else {
      hide Started, Halted, Switched, Counted;
    }
  }

  /** The line of runs, begun and still to begin, with the admissions: what each step does to it. */
  ghost predicate SameLine(s: Service, t: Service) {
    t.begun + t.queue == s.begun + s.queue && t.admitted == s.admitted && t.runs.Keys == s.runs.Keys
  }

  ghost predicate Joined(s: Service, t: Service, id: RunId) {
    && id !in s.runs && id in t.runs && t.begun == s.begun && t.runs == s.runs[id := t.runs[id]]
    && if t.runs[id].ticket.Some?
       then t.queue == s.queue + [id] && t.admitted == s.admitted + [id] && t.runs[id].ticket == Some(|s.admitted|)
       else t.queue == s.queue && t.admitted == s.admitted
  }

  lemma LineAfterStart(s: Service, step: Step)
    requires step.StartRun?
    ensures SameLine(s, Next(s, step)) || Joined(s, Next(s, step), step.id)
  {
    hide Halted, Switched, Taken, Marked, Replayed, Written, Stopping, Closed;
  }

  lemma LineAfterStop(s: Service, step: Step)
    requires step.StopRun?
    ensures SameLine(s, Next(s, step)) || SameLine(s.(queue := Erase(s.queue, step.id)), Next(s, step))
  {
    hide Started, Switched, Taken, Marked, Replayed, Written, Stopping, Closed;
    assert Next(s, step) == Halted(Received(s), step.id);
  }

  lemma LineMoves(s: Service, step: Step)
    requires Enabled(s, step) && !step.StartRun? && !step.StopRun? && !step.CloseQueue?
    ensures SameLine(s, Next(s, step))
  {
  }

  lemma OrderStaysKept(s: Service, step: Step)
    requires OrderKept(s) && Enabled(s, step)
    ensures OrderKept(Next(s, step))
  {
    var s' := Next(s, step);
    var line := s.begun + s.queue;
    forall id | id in s.runs ensures id in s'.runs && s'.runs[id].ticket == s.runs[id].ticket {
      TicketsNeverChange(s, step, id);
    }
    if step.StartRun? {
      LineAfterStart(s, step);
    } else if step.StopRun? {
      LineAfterStop(s, step);
    } else if step.CloseQueue? {
      assert s'.begun == s.begun && s'.queue == [] && s'.admitted == s.admitted && s'.runs.Keys == s.runs.Keys;
    } else {
      LineMoves(s, step);
    }
    hide Next, Enabled, InOrder, Ticketed;
    if step.StartRun? && Joined(s, s', step.id) {
      var run := s'.runs[step.id];
      if run.ticket.Some? {
        NewestIsLast(line, s.admitted, s.runs, step.id, run);
        assert s'.begun + s'.queue == line + [step.id];
      } else {
        RefusedHasNoTicket(line, s.admitted, s.runs, step.id, run);
      }
    } else {
      SameTickets(line, s.admitted, s.runs, s'.runs);
      if step.StopRun? { ErasedInOrder(s.begun, s.queue, step.id, s'.runs); }
      if step.CloseQueue? {
        PrefixInOrder(s.begun, s.queue, s'.runs);
        assert s.begun + [] == s.begun;
      }
    }
  }

  lemma QueueIsDistinct(s: Service)
    requires OrderKept(s)
    ensures forall i :: 0 < i < |s.queue| ==> s.queue[i] != s.queue[0]
  {
    forall i | 0 < i < |s.queue| ensures s.queue[i] != s.queue[0] {
      var n := |s.begun|;
      assert (s.begun + s.queue)[n] == s.queue[0] && (s.begun + s.queue)[n + i] == s.queue[i];
    }
  }

  lemma InvariantIsKept(s: Service, step: Step)
    requires Invariant(s) && Enabled(s, step)
    ensures Invariant(Next(s, step))
  {
    hide WorkerAgrees, RunAgrees, OrderKept, Next, Enabled, Occupied;
    QueueIsDistinct(s);
    StatesStayInStep(s, step);
    OrderStaysKept(s, step);
    RoomIsKept(s, step);
  }

  // ----- whole histories -----------------------------------------------------------------

  ghost predicate History(s: Service, steps: seq<Step>, s': Service)
    decreases |steps|
  {
    if steps == [] then s == s'
    else Enabled(s, steps[0]) && History(Next(s, steps[0]), steps[1..], s')
  }

  lemma {:induction false} HistoryKeepsInvariant(s: Service, steps: seq<Step>, s': Service)
    requires Invariant(s) && History(s, steps, s')
    ensures Invariant(s')
    decreases |steps|
  {
    if steps == [] {
    } else {
      hide Invariant, Enabled, Next;
      InvariantIsKept(s, steps[0]);
      HistoryKeepsInvariant(Next(s, steps[0]), steps[1..], s');
    }
  }

  /** At every interleaving: room is kept, ids are admitted once, runs begin in the order admitted. */
  lemma RunsBeginAsAdmitted(maxQueued: nat, steps: seq<Step>, s: Service)
    requires History(Fresh(maxQueued), steps, s)
    ensures Occupied(s) <= maxQueued
    ensures forall t, u :: 0 <= t < u < |s.admitted| ==> s.admitted[t] != s.admitted[u]
    ensures forall i :: 0 <= i < |s.begun| ==>
              s.begun[i] in s.runs && s.runs[s.begun[i]].ticket.Some?
              && s.runs[s.begun[i]].ticket.value < |s.admitted|
                && s.admitted[s.runs[s.begun[i]].ticket.value] == s.begun[i]
    ensures forall i, j :: 0 <= i < j < |s.begun| ==>
              s.runs[s.begun[i]].ticket.value < s.runs[s.begun[j]].ticket.value
  {
    HistoryKeepsInvariant(Fresh(maxQueued), steps, s);
    MaxIsFixed(Fresh(maxQueued), steps, s);
    PrefixInOrder(s.begun, s.queue, s.runs);
  }

  lemma {:induction false} MaxIsFixed(s: Service, steps: seq<Step>, s': Service)
    requires History(s, steps, s')
    ensures s'.maxQueued == s.maxQueued
    decreases |steps|
  {
    if steps == [] {
    } else {
      MaxIsFixed(Next(s, steps[0]), steps[1..], s');
    }
  }

  /** A replay goes on with its risk manager's kill switch where the run's record says it is. */
  lemma KillSwitchReachesTheRiskManager(maxQueued: nat, steps: seq<Step>, s: Service, id: RunId)
    requires History(Fresh(maxQueued), steps, s) && s.worker == Replaying(id)
    ensures id in s.runs && s.runs[id].state == Running && s.runs[id].risk == Some(s.runs[id].killed)
  {
    HistoryKeepsInvariant(Fresh(maxQueued), steps, s);
  }

  /** A switch set while the run was queued is the one its replay starts with. */
  lemma QueuedSwitchIsCarriedOver(s: Service, id: RunId, engaged: bool)
    requires Invariant(s) && id in s.runs && s.runs[id].state == Queued && s.worker == Popped(id)
    ensures var t := Next(Next(s, SetKillSwitch(id, engaged)), MarkRunning);
            t.worker == Replaying(id) && t.runs[id].risk == Some(engaged)
  {
  }

  /** After the service has stopped, every run it ever owned has ended. */
  lemma NothingIsLeftRunning(maxQueued: nat, steps: seq<Step>, s: Service)
    requires History(Fresh(maxQueued), steps, s) && s.closed
    ensures forall id :: id in s.runs ==> Final(s.runs[id].state)
  {
    HistoryKeepsInvariant(Fresh(maxQueued), steps, s);
    ClosedMeansFinal(s);
  }

  // ----- finished states -----------------------------------------------------------------

  lemma FinishedAfterCommand(s: Service, step: Step, id: RunId)
    requires FromReader(step) && id in s.runs && Final(s.runs[id].state)
    ensures id in Next(s, step).runs && Next(s, step).runs[id].state == s.runs[id].state
  {
    hide Taken, Marked, Replayed, Written, Stopping, Closed;
    if step.StartRun? {
      hide Halted, Switched;
    } else {
      hide Started, Erase;
    }
  }

  lemma FinishedAfterStop(s: Service, step: Step, id: RunId)
    requires FromStop(step) && Enabled(s, step) && id in s.runs && id !in s.queue
    ensures id in Next(s, step).runs && Next(s, step).runs[id].state == s.runs[id].state
  {
    hide Started, Halted, Switched, Taken, Marked, Replayed, Written;
  }

  /** The worker moves a finished run's state only by marking or recording a run it had popped. */
  lemma FinishedAfterWorker(s: Service, step: Step, id: RunId)
    requires !FromReader(step) && !FromStop(step) && Enabled(s, step) && id in s.runs && Final(s.runs[id].state)
    requires RunAgrees(s.runs[id], id in s.queue, PlaceOf(s.worker, id))
    requires step.Record? && s.worker.id == id && !s.worker.marked ==> s.worker.outcome == Failed
    ensures id in Next(s, step).runs
    ensures step.Record? && InWindow(s, id) ==> Next(s, step).runs[id].state == Failed
    ensures step.MarkRunning? && InWindow(s, id) ==> Next(s, step).runs[id].state == Running
    ensures !(InWindow(s, id) && (step.MarkRunning? || step.Record?)) ==>
              Next(s, step).runs[id].state == s.runs[id].state
  {
    hide Started, Halted, Switched, Stopping, Closed, Counted;
  }

  /** A step changes a finished run's state exactly when it marks or records a run stopped in the window. */
  lemma FinishedStaysFinished(s: Service, step: Step, id: RunId)
    requires Invariant(s) && Enabled(s, step) && id in s.runs && Final(s.runs[id].state)
    ensures id in Next(s, step).runs
    ensures Next(s, step).runs[id].state != s.runs[id].state
       <==> InWindow(s, id) && (step.MarkRunning? || step.Record?)
  {
    hide Next, OrderKept, Occupied;
    assert RunAgrees(s.runs[id], id in s.queue, PlaceOf(s.worker, id));
    if FromReader(step) {
      FinishedAfterCommand(s, step, id);
    } else if FromStop(step) {
      FinishedAfterStop(s, step, id);
    } else {
      FinishedAfterWorker(s, step, id);
    }
  }

  // Were popping and marking one step, finished states would be final.

  /** As before, but the worker pops a run and marks it in one hold of the mutex. */
  predicate AtomicEnabled(s: Service, step: Step) {
    Enabled(s, step) && (step.Pop? ==> Enabled(Next(s, Pop), MarkRunning))
  }

  function AtomicNext(s: Service, step: Step): Service
    requires AtomicEnabled(s, step)
  {
    if step.Pop? then Next(Next(s, Pop), MarkRunning) else Next(s, step)
  }

  ghost predicate AtomicHistory(s: Service, steps: seq<Step>, s': Service)
    decreases |steps|
  {
    if steps == [] then s == s'
    else AtomicEnabled(s, steps[0]) && AtomicHistory(AtomicNext(s, steps[0]), steps[1..], s')
  }

  /** The worker is never seen between the two. */
  predicate NoWindow(s: Service) {
    !s.worker.Popped? && (s.worker.Ended? ==> s.worker.marked)
  }

  lemma AtomicStepKeepsInvariant(s: Service, step: Step)
    requires Invariant(s) && NoWindow(s) && AtomicEnabled(s, step)
    ensures Invariant(AtomicNext(s, step)) && NoWindow(AtomicNext(s, step))
  {
    hide Invariant, Enabled;
    InvariantIsKept(s, step);
    if step.Pop? {
      InvariantIsKept(Next(s, Pop), MarkRunning);
      MarkingLeavesTheWindow(s);
    } else {
      NoWindowOpens(s, step);
    }
  }

  lemma MarkingLeavesTheWindow(s: Service)
    requires Enabled(s, Pop) && Enabled(Next(s, Pop), MarkRunning)
    ensures Next(Next(s, Pop), MarkRunning).worker.Replaying?
  {
    hide Started, Halted, Switched, Replayed, Written, Stopping, Closed;
  }

  lemma NoWindowOpens(s: Service, step: Step)
    requires NoWindow(s) && Enabled(s, step) && !step.Pop?
    ensures NoWindow(Next(s, step))
  {
    if FromReader(step) {
      hide Next;
      CommandEffect(s, step);
    } else {
      hide Started, Halted, Switched, Counted;
    }
  }

  /** One atomic step keeps every finished state. */
  lemma AtomicStepKeepsFinal(s: Service, step: Step, id: RunId)
    requires Invariant(s) && NoWindow(s) && AtomicEnabled(s, step) && id in s.runs && Final(s.runs[id].state)
    ensures id in AtomicNext(s, step).runs && AtomicNext(s, step).runs[id].state == s.runs[id].state
  {
    hide Next, Enabled, OrderKept, Occupied;
    FinishedStaysFinished(s, step, id);
    if step.Pop? {
      InvariantIsKept(s, Pop);
      PopTakesQueued(s, id);
      FinishedStaysFinished(Next(s, Pop), MarkRunning, id);
    }
  }

  lemma PopTakesQueued(s: Service, id: RunId)
    requires Enabled(s, Pop) && StatesAgree(s) && NoWindow(s) && id in s.runs && Final(s.runs[id].state)
    ensures !InWindow(Next(s, Pop), id)
  {
    assert RunAgrees(s.runs[id], id in s.queue, PlaceOf(s.worker, id));
  }

  lemma {:induction false} AtomicHistoryKeepsFinal(s: Service, steps: seq<Step>, s': Service, id: RunId)
    requires Invariant(s) && NoWindow(s) && AtomicHistory(s, steps, s') && id in s.runs && Final(s.runs[id].state)
    ensures id in s'.runs && s'.runs[id].state == s.runs[id].state
    decreases |steps|
  {
    hide Invariant, NoWindow, AtomicEnabled, AtomicNext;
    if steps == [] {
    } else {
      AtomicStepKeepsInvariant(s, steps[0]);
      AtomicStepKeepsFinal(s, steps[0], id);
      AtomicHistoryKeepsFinal(AtomicNext(s, steps[0]), steps[1..], s', id);
    }
  }

  lemma {:induction false} AtomicHistoryKeepsInvariant(s: Service, steps: seq<Step>, s': Service)
    requires Invariant(s) && NoWindow(s) && AtomicHistory(s, steps, s')
    ensures Invariant(s') && NoWindow(s')
    decreases |steps|
  {
    hide Invariant, NoWindow, AtomicEnabled, AtomicNext;
    if steps == [] {
    } else {
      AtomicStepKeepsInvariant(s, steps[0]);
      AtomicHistoryKeepsInvariant(AtomicNext(s, steps[0]), steps[1..], s');
    }
  }

  /** Over whole histories of atomic steps: a run that has finished keeps the state it finished in. */
  lemma AtomicMarkMakesStatesFinal(maxQueued: nat, before: seq<Step>, s: Service, after: seq<Step>, s': Service,
                                   id: RunId)
    requires AtomicHistory(Fresh(maxQueued), before, s) && AtomicHistory(s, after, s')
    requires id in s.runs && Final(s.runs[id].state)
    ensures id in s'.runs && s'.runs[id].state == s.runs[id].state
  {
    hide AtomicHistory;
    AtomicHistoryKeepsInvariant(Fresh(maxQueued), before, s);
    AtomicHistoryKeepsFinal(s, after, s', id);
  }

  /** As it is, a run stopped between the two is reported stopped, then runs to completion. */
  lemma StoppedRunStillRuns(id: RunId, command: nat) returns (stopped: Service, completed: Service)
    ensures History(Fresh(8), [StartRun(id, command, true, true), Pop, StopRun(id)], stopped)
    ensures id in stopped.runs && stopped.runs[id].state == Stopped && stopped.stats.stopped == 1
    ensures History(stopped, [MarkRunning, EndReplay(Completed), Record], completed)
    ensures id in completed.runs && completed.runs[id].state == Completed && completed.stats.completed == 1
  {
    stopped := StoppedInWindow(id, command);
    completed := MarkedAfterStop(stopped, id);
  }

  lemma StoppedInWindow(id: RunId, command: nat) returns (stopped: Service)
    ensures History(Fresh(8), [StartRun(id, command, true, true), Pop, StopRun(id)], stopped)
    ensures id in stopped.runs && stopped.runs[id].state == Stopped
    ensures stopped.stats.stopped == 1 && stopped.stats.completed == 0 && stopped.worker == Popped(id)
  {
    hide Marked, Replayed, Written, Stopping, Closed, Switched;
    var s := Fresh(8);
    var a := Next(s, StartRun(id, command, true, true));
    assert a.queue == [id] && a.worker.Waiting? && !a.stopping && a.runs[id].state == Queued;
    var b := Next(a, Pop);
    assert b.worker == Popped(id);
    stopped := Next(b, StopRun(id));
    ThreeSteps(s, StartRun(id, command, true, true), Pop, StopRun(id));
  }

  lemma MarkedAfterStop(stopped: Service, id: RunId) returns (completed: Service)
    requires stopped.worker == Popped(id) && id in stopped.runs && stopped.stats.completed == 0
    ensures History(stopped, [MarkRunning, EndReplay(Completed), Record], completed)
    ensures id in completed.runs && completed.runs[id].state == Completed && completed.stats.completed == 1
  {
    hide Started, Halted, Switched, Taken, Stopping, Closed;
    var c := Next(stopped, MarkRunning);
    var d := Next(c, EndReplay(Completed));
    completed := Next(d, Record);
    ThreeSteps(stopped, MarkRunning, EndReplay(Completed), Record);
  }

  lemma ThreeSteps(s: Service, x: Step, y: Step, z: Step)
    requires Enabled(s, x) && Enabled(Next(s, x), y) && Enabled(Next(Next(s, x), y), z)
    ensures History(s, [x, y, z], Next(Next(Next(s, x), y), z))
  {
    hide Next, Enabled;
    var a := Next(s, x);
    var b := Next(a, y);
    assert [x, y, z][1..] == [y, z] && [y, z][1..] == [z] && [z][1..] == [];
    assert History(b, [z], Next(b, z));
    assert History(a, [y, z], Next(b, z));
  }

  // ----- the service's own fields, changed in place --------------------------------------

  /** What each thread does inside one hold of the mutex; every method is one step above. */
  class Engine {
    const maxQueued: nat
    var runs: map<RunId, Run>
    var queue: seq<RunId>
    var current: Option<RunId>
    var stopping: bool
    var stats: Stats
    ghost var worker: Worker
    ghost var closed: bool
    var admitted: seq<RunId>   // every admission in order; a ticket is a position in it
    ghost var begun: seq<RunId>

    ghost function State(): Service
      reads this
    {
      Service(maxQueued, runs, queue, current, worker, stopping, closed, stats, admitted, begun)
    }

    constructor (maxQueued: nat)
      ensures State() == Fresh(maxQueued) && Invariant(State())
    {
      this.maxQueued := maxQueued;
      runs, queue, current, stopping, stats := map[], [], None, false, Stats(0, 0, 0, 0, 0, 0);
      worker, closed, admitted, begun := Waiting, false, [], [];
    }

    method Handle(command: Step)
      requires command.StartRun? || command.StopRun? || command.SetKillSwitch?
      requires Invariant(State())
      modifies this
      ensures State() == Next(old(State()), command) && Invariant(State())
    {
      hide Invariant, Admit, Halt, Switch;
      InvariantIsKept(State(), command);
      stats := stats.(commands := stats.commands + 1);
      match command
      case StartRun(id, start, topicOk, settingsOk) =>
        if id in runs {
          if runs[id].command != start { stats := stats.(refused := stats.refused + 1); }
        } else if !topicOk {
          stats := stats.(refused := stats.refused + 1);
        } else {
          Register(id, start, settingsOk);
        }
      case StopRun(id) =>
        if id !in runs {
          stats := stats.(ignored := stats.ignored + 1);
        } else if Final(runs[id].state) {
          stats := stats.(refused := stats.refused + 1);
        } else {
          HaltRun(id);
        }
      case SetKillSwitch(id, engaged) =>
        if id !in runs {
          stats := stats.(ignored := stats.ignored + 1);
        } else if Final(runs[id].state) {
          stats := stats.(refused := stats.refused + 1);
        } else {
          SwitchRun(id, engaged);
        }
    }

    method Register(id: RunId, start: nat, settingsOk: bool)
      requires id !in runs
      modifies this`runs, this`queue, this`admitted, this`stats
      ensures State() == Admit(old(State()), id, start, settingsOk)
    {
      var run := Run(start, Failed, false, false, None, None);
      var problem := !settingsOk;
      if !problem && |queue| + (if current.Some? then 1 else 0) >= maxQueued { problem := true; }
      if stopping { problem := true; }
      if problem {
        runs := runs[id := run];
        stats := stats.(refused := stats.refused + 1, failed := stats.failed + 1);
        return;
      }
      runs := runs[id := run.(state := Queued, ticket := Some(|admitted|))];
      queue := queue + [id];
      admitted := admitted + [id];
    }

    method HaltRun(id: RunId)
      requires id in runs
      modifies this`runs, this`queue, this`stats
      ensures State() == Halt(old(State()), id)
    {
      if runs[id].state == Queued {
        queue := Erase(queue, id);
        runs := runs[id := runs[id].(state := Stopped)];
        stats := stats.(stopped := stats.stopped + 1);
      } else {
        runs := runs[id := runs[id].(stop := true)];
      }
    }

    method SwitchRun(id: RunId, engaged: bool)
      requires id in runs
      modifies this`runs
      ensures State() == Switch(old(State()), id, engaged)
    {
      if runs[id].risk.Some? { runs := runs[id := runs[id].(risk := Some(engaged))]; }
      runs := runs[id := runs[id].(killed := engaged)];
    }

    /** The worker wakes: the oldest queued run becomes the current one; None when it must return. */
    method TakeNext() returns (run: Option<RunId>)
      requires Invariant(State()) && worker.Waiting? && (stopping || queue != [])
      modifies this
      ensures Invariant(State())
      ensures run == if old(stopping) then None else Some(old(queue)[0])
      ensures State() == Next(old(State()), if old(stopping) then ExitWorker else Pop)
    {
      hide Invariant;
      InvariantIsKept(State(), if stopping then ExitWorker else Pop);
      if stopping {
        worker := Exited;
        return None;
      }
      run := Some(queue[0]);
      queue := queue[1..];
      current := run;
      begun := begun + [run.value];
      worker := Popped(run.value);
    }

    /** The risk manager is lent and takes over a switch engaged before the start. */
    method MarkAsRunning(id: RunId)
      requires Invariant(State()) && worker == Popped(id) && id in runs
      modifies this
      ensures Invariant(State()) && State() == Next(old(State()), MarkRunning)
    {
      hide Invariant;
      InvariantIsKept(State(), MarkRunning);
      var lent := false;
      var run := runs[id].(state := Running);
      if run.killed { lent := true; }
      runs := runs[id := run.(risk := Some(lent))];
      worker := Replaying(id);
    }

    method RecordOutcome(id: RunId, failed: bool, complete: bool)
      requires Invariant(State()) && worker.Ended? && worker.id == id && id in runs
      requires worker.outcome == if failed then Failed else if complete then Completed else Stopped
      modifies this
      ensures Invariant(State()) && State() == Next(old(State()), Record)
    {
      hide Invariant;
      InvariantIsKept(State(), Record);
      if failed {
        runs := runs[id := runs[id].(state := Failed)];
        stats := stats.(failed := stats.failed + 1);
      } else if complete {
        runs := runs[id := runs[id].(state := Completed)];
        stats := stats.(completed := stats.completed + 1);
      } else {
        runs := runs[id := runs[id].(state := Stopped)];
        stats := stats.(stopped := stats.stopped + 1);
      }
      worker := Recorded(id);
    }

    /** After both threads have ended: what was never started ends stopped. */
    method DropQueue()
      requires Invariant(State()) && Enabled(State(), CloseQueue)
      modifies this
      ensures Invariant(State()) && State() == Next(old(State()), CloseQueue)
      ensures forall id :: id in runs ==> Final(runs[id].state)
    {
      hide Invariant, StopAll;
      InvariantIsKept(State(), CloseQueue);
      ghost var before := runs;
      StopNone(runs);
      for i := 0 to |queue|
        invariant State() == old(State()).(runs := runs) && i <= |queue|
        invariant runs == StopAll(before, queue[..i])
      {
        StopOneMore(before, queue[..i], queue[i]);
        runs := runs[queue[i] := runs[queue[i]].(state := Stopped)];
        assert queue[..i + 1] == queue[..i] + [queue[i]];
      }
      assert queue[..|queue|] == queue;
      queue := [];
      closed := true;
      ClosedMeansFinal(State());
    }
  }

  lemma StopNone(runs: map<RunId, Run>)
    ensures StopAll(runs, []) == runs
  {
  }

  lemma StopOneMore(runs: map<RunId, Run>, queue: seq<RunId>, id: RunId)
    requires id in runs
    ensures var stopped := StopAll(runs, queue);
            id in stopped && StopAll(runs, queue + [id]) == stopped[id := stopped[id].(state := Stopped)]
  {
  }

  lemma ClosedMeansFinal(s: Service)
    requires Invariant(s) && s.closed
    ensures forall id :: id in s.runs ==> Final(s.runs[id].state)
  {
  }

  // ----- how commands are answered -------------------------------------------------------

  /** Runs waiting, and the one the worker has. */
  ghost function Load(s: Service): nat {
    |s.queue| + if WorkerRun(s.worker).Some? then 1 else 0
  }

  /**
   * A start is admitted exactly when the id is new, has a topic and valid settings, there is room, and the
   * service is not stopping; it then waits last. A new run with a topic that is not admitted is recorded as
   * failed. A repeated command changes nothing, and a second one for the id is refused.
   */
  lemma StartIsAnsweredExactly(maxQueued: nat, steps: seq<Step>, s: Service, id: RunId, command: nat,
                               topicOk: bool, settingsOk: bool)
    requires History(Fresh(maxQueued), steps, s)
    ensures var s' := Next(s, StartRun(id, command, topicOk, settingsOk));
            var admits := id !in s.runs && topicOk && settingsOk && Load(s) < maxQueued && !s.stopping;
            && s'.stats.commands == s.stats.commands + 1
            && (if admits then
                  && s'.queue == s.queue + [id] && s'.admitted == s.admitted + [id]
                  && s'.runs == s.runs[id := Run(command, Queued, false, false, None, Some(|s.admitted|))]
                  && s'.stats.refused == s.stats.refused
                else s'.queue == s.queue && s'.admitted == s.admitted)
            && (id in s.runs || !topicOk ==> s'.runs == s.runs)
            && (id !in s.runs && topicOk && !admits ==>
                  && s'.runs == s.runs[id := Run(command, Failed, false, false, None, None)]
                  && s'.stats.failed == s.stats.failed + 1)
            && (s'.stats.refused == s.stats.refused <==> admits || (id in s.runs && s.runs[id].command == command))
  {
    hide Invariant;
    FreshIsInvariant(maxQueued);
    HistoryKeepsInvariant(Fresh(maxQueued), steps, s);
    MaxIsFixed(Fresh(maxQueued), steps, s);
    CurrentIsTheWorkers(s);
  }

  lemma FreshIsInvariant(maxQueued: nat)
    ensures Invariant(Fresh(maxQueued))
  {
  }

  lemma CurrentIsTheWorkers(s: Service)
    requires Invariant(s)
    ensures s.current == WorkerRun(s.worker)
  {
  }

  /**
   * A stop takes a run that waits, or was popped and is not yet marked, out at once; a run that replays is
   * only asked to stop; a finished run refuses, an unknown id is ignored.
   */
  lemma StopIsAnsweredExactly(maxQueued: nat, steps: seq<Step>, s: Service, id: RunId)
    requires History(Fresh(maxQueued), steps, s)
    ensures var s' := Next(s, StopRun(id));
            && s'.worker == s.worker && s'.stopping == s.stopping
            && (id !in s.runs ==> s'.runs == s.runs && s'.queue == s.queue && s'.stats.ignored == s.stats.ignored + 1)
            && (id in s.runs ==>
                  if Final(s.runs[id].state) then
                    s'.runs == s.runs && s'.queue == s.queue && s'.stats.refused == s.stats.refused + 1
                  else if PlaceOf(s.worker, id) in {Inside, Leaving} then
                    s'.runs == s.runs[id := s.runs[id].(stop := true)] && s'.queue == s.queue
                  else
                    && s'.runs == s.runs[id := s.runs[id].(state := Stopped)] && id !in s'.queue
                    && s'.stats.stopped == s.stats.stopped + 1
                    && forall other :: other != id ==> (other in s'.queue <==> other in s.queue))
  {
    hide Ticketed, InOrder;
    FreshIsInvariant(maxQueued);
    HistoryKeepsInvariant(Fresh(maxQueued), steps, s);
    if id in s.runs { assert RunAgrees(s.runs[id], id in s.queue, PlaceOf(s.worker, id)); }
  }

  /** The kill switch of any run that has not finished is set, on its record and in its risk manager. */
  lemma SwitchIsAnsweredExactly(s: Service, id: RunId, engaged: bool)
    ensures var s' := Next(s, SetKillSwitch(id, engaged));
            && s'.queue == s.queue && s'.worker == s.worker
            && (if id in s.runs && !Final(s.runs[id].state) then
                  && s'.runs == s.runs[id := s'.runs[id]] && s'.runs[id].killed == engaged
                  && s'.runs[id].risk == (if s.runs[id].risk.Some? then Some(engaged) else None)
                  && (s'.runs[id].state, s'.runs[id].stop) == (s.runs[id].state, s.runs[id].stop)
                else s'.runs == s.runs)
  {
  }

  // ----- the service can always go on ----------------------------------------------------

  /** The worker's own steps back to waiting, a replay ending as `outcome`. */
  function WorkOff(w: Worker, outcome: RunState): seq<Step> {
    match w
    case Popped(_) => [MarkRunning, EndReplay(outcome), Record, ClearCurrent]
    case Replaying(_) => [EndReplay(outcome), Record, ClearCurrent]
    case Ended(_, _, _) => [Record, ClearCurrent]
    case Recorded(_) => [ClearCurrent]
    case _ => []
  }

  lemma HistoryFirst(s: Service, step: Step, rest: seq<Step>, s': Service)
    requires Enabled(s, step) && History(Next(s, step), rest, s')
    ensures History(s, [step] + rest, s')
  {
    assert ([step] + rest)[1..] == rest;
  }

  lemma HistoryNone(s: Service)
    ensures History(s, [], s)
  {
  }

  lemma ClearedWorks(s: Service) returns (s': Service)
    requires s.worker.Recorded?
    ensures History(s, [ClearCurrent], s') && s' == s.(current := None, worker := Waiting)
  {
    hide History;
    s' := Next(s, ClearCurrent);
    HistoryNone(s');
    HistoryFirst(s, ClearCurrent, [], s');
    assert [ClearCurrent] + [] == [ClearCurrent];
  }

  /** What working off leaves: the worker waits, the queue and the request to stop are as they were. */
  predicate WorkedOff(s: Service, s': Service) {
    s'.worker.Waiting? && s'.queue == s.queue && s'.stopping == s.stopping && s'.closed == s.closed
    && s'.runs.Keys == s.runs.Keys
  }

  lemma EndedWorks(s: Service, outcome: RunState) returns (s': Service)
    requires s.worker.Ended? && s.worker.id in s.runs
    ensures History(s, WorkOff(s.worker, outcome), s') && WorkedOff(s, s')
  {
    hide History;
    s' := ClearedWorks(Next(s, Record));
    HistoryFirst(s, Record, [ClearCurrent], s');
    assert [Record] + [ClearCurrent] == [Record, ClearCurrent];
  }

  lemma ReplayWorks(s: Service, outcome: RunState) returns (s': Service)
    requires s.worker.Replaying? && s.worker.id in s.runs && outcome in {Completed, Failed}
    ensures History(s, WorkOff(s.worker, outcome), s') && WorkedOff(s, s')
  {
    hide History;
    s' := EndedWorks(Next(s, EndReplay(outcome)), outcome);
    HistoryFirst(s, EndReplay(outcome), [Record, ClearCurrent], s');
    assert [EndReplay(outcome)] + [Record, ClearCurrent] == [EndReplay(outcome), Record, ClearCurrent];
  }

  lemma PoppedWorks(s: Service, outcome: RunState) returns (s': Service)
    requires s.worker.Popped? && s.worker.id in s.runs && outcome in {Completed, Failed}
    ensures History(s, WorkOff(s.worker, outcome), s') && WorkedOff(s, s')
  {
    hide History;
    s' := ReplayWorks(Next(s, MarkRunning), outcome);
    HistoryFirst(s, MarkRunning, [EndReplay(outcome), Record, ClearCurrent], s');
    assert [MarkRunning] + [EndReplay(outcome), Record, ClearCurrent]
        == [MarkRunning, EndReplay(outcome), Record, ClearCurrent];
  }

  /** From every reachable state whose worker has not left, its own steps bring it back to waiting. */
  lemma WorkerComesBack(maxQueued: nat, steps: seq<Step>, s: Service, outcome: RunState) returns (s': Service)
    requires History(Fresh(maxQueued), steps, s) && !s.worker.Exited? && outcome in {Completed, Failed}
    ensures History(s, WorkOff(s.worker, outcome), s') && WorkedOff(s, s')
  {
    hide History;
    FreshIsInvariant(maxQueued);
    HistoryKeepsInvariant(Fresh(maxQueued), steps, s);
    WorkersRunIsKnown(s);
    match s.worker
    case Popped(_) => s' := PoppedWorks(s, outcome);
    case Replaying(_) => s' := ReplayWorks(s, outcome);
    case Ended(_, _, _) => s' := EndedWorks(s, outcome);
    case Recorded(_) => s' := ClearedWorks(s);
    case Waiting =>
      s' := s;
      HistoryNone(s);
  }

  lemma WorkersRunIsKnown(s: Service)
    requires Invariant(s)
    ensures WorkerRun(s.worker).Some? ==> WorkerRun(s.worker).value in s.runs
  {
  }

  /** So the oldest waiting run can always begin next, and a service asked to stop can always close. */
  lemma ServiceCanGoOn(maxQueued: nat, steps: seq<Step>, s: Service, outcome: RunState) returns (s': Service)
    requires History(Fresh(maxQueued), steps, s) && !s.worker.Exited? && outcome in {Completed, Failed}
    ensures History(s, WorkOff(s.worker, outcome), s')
    ensures s.queue != [] && !s.stopping ==>
              Enabled(s', Pop) && Next(s', Pop).worker == Popped(s.queue[0]) && Next(s', Pop).queue == s.queue[1..]
    ensures s.stopping ==> Enabled(s', ExitWorker) && Next(s', ExitWorker).worker.Exited?
  {
    hide History;
    s' := WorkerComesBack(maxQueued, steps, s, outcome);
  }

  /** Asking the service to stop asks the run it has to stop, and touches no other. */
  lemma StoppingAsksTheRun(maxQueued: nat, steps: seq<Step>, s: Service)
    requires History(Fresh(maxQueued), steps, s) && !s.stopping
    ensures var s' := Next(s, BeginStop);
            && s'.stopping && s'.queue == s.queue && s'.worker == s.worker
            && match WorkerRun(s.worker)
               case None => s'.runs == s.runs
               case Some(id) => id in s.runs && s'.runs == s.runs[id := s.runs[id].(stop := true)]
  {
    hide Ticketed, InOrder, RunAgrees;
    FreshIsInvariant(maxQueued);
    HistoryKeepsInvariant(Fresh(maxQueued), steps, s);
  }

  /** How a run ended is what is recorded of it, and counted, once. */
  lemma OutcomeIsRecorded(s: Service)
    requires Enabled(s, Record)
    ensures var s', id := Next(s, Record), s.worker.id;
            var outcome := s.worker.outcome;
            && s'.runs == s.runs[id := s.runs[id].(state := outcome)]
            && s'.stats == s.stats.(completed := s'.stats.completed, failed := s'.stats.failed,
                                    stopped := s'.stats.stopped)
            && s'.stats.completed == s.stats.completed + (if outcome == Completed then 1 else 0)
            && s'.stats.failed == s.stats.failed + (if outcome == Failed then 1 else 0)
            && s'.stats.stopped == s.stats.stopped + (if outcome in {Completed, Failed} then 0 else 1)
  {
  }
}
