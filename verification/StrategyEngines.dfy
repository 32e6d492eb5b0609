/** The strategy engine: who may emit, which ids signals get, and how starts and stops pair up. */
module StrategyEngines {
  import opened Domain

  datatype State = Stopped | Starting | Running | Stopping

  // What happened to strategy `i`, in order. A start that throws is not a start.
  datatype Callback = Started(i: nat) | Ended(i: nat) | Delivered(i: nat)

  /** The strategies started and not yet ended, in the order they started; None once the order was broken. */
  function Open(log: seq<Callback>): Option<seq<nat>> {
    if log == [] then Some([])
    else
      var before := Open(log[..|log| - 1]);
      if before.None? then None
      else
        var open := before.value;
        match log[|log| - 1]
        case Started(i) => if i in open then None else Some(open + [i])
        case Ended(i) => if open != [] && open[|open| - 1] == i then Some(open[..|open| - 1]) else None
        case Delivered(i) => if i in open then Some(open) else None
  }

  lemma OpenGrows(log: seq<Callback>, c: Callback)
    requires Open(log).Some?
    ensures var open := Open(log).value;
            Open(log + [c]) == match c
                               case Started(i) => (if i in open then None else Some(open + [i]))
                               case Ended(i) =>
                                 (if open != [] && open[|open| - 1] == i then Some(open[..|open| - 1]) else None)
                               case Delivered(i) => (if i in open then Some(open) else None)
  {
    assert (log + [c])[..|log|] == log;
  }

  function UpTo(n: nat): (s: seq<nat>)
    ensures |s| == n && forall i :: 0 <= i < n ==> s[i] == i
  {
    seq(n, i => i)
  }

  /** Strategies 0 to n - 1 started, in order. */
  function Starts(n: nat): seq<Callback> {
    seq(n, i requires i >= 0 => Started(i))
  }

  /** Strategies n - 1 to 0 ended, last first. */
  function Ends(n: nat): seq<Callback> {
    if n == 0 then [] else [Ended(n - 1)] + Ends(n - 1)
  }

  /** How many starts return before one throws. */
  function StartedBefore(throwsAt: Option<nat>, n: nat): nat {
    if throwsAt.Some? && throwsAt.value < n then throwsAt.value else n
  }

  lemma DeliveryKeepsOpen(log: seq<Callback>, n: nat, i: nat)
    requires i < n && Open(log) == Some(UpTo(n))
    ensures Open(log + [Delivered(i)]) == Some(UpTo(n))
  {
    hide Open;
    assert UpTo(n)[i] == i;
    OpenGrows(log, Delivered(i));
  }

  datatype Stamped = Stamped(id: nat, strategy: string)

  // How one offer to the bus ended.
  datatype Offer = Accepted | Rejected | Threw

  datatype Counters = Counters(routed: nat, dropped: nat, published: nat, rejected: nat, failed: nat, late: nat)

  class StrategyEngine {
    var state: State
    var ids: seq<string>
    var active: Option<nat>
    var lastId: nat
    var counters: Counters
    ghost var log: seq<Callback>
    ghost var offered: seq<Stamped>

    /** Every signal ever offered carries an id above all earlier ones, and its own strategy's name. */
    ghost predicate IdsFresh()
      reads this`lastId, this`offered
    {
      && (forall i :: 0 <= i < |offered| ==> 1 <= offered[i].id <= lastId)
      && (forall i, j :: 0 <= i < j < |offered| ==> offered[i].id < offered[j].id)
    }

    ghost predicate NamesOk()
      reads this`ids, this`offered
    {
      && (forall i, j :: 0 <= i < j < |ids| ==> ids[i] != ids[j])
      && (forall i :: 0 <= i < |ids| ==> ids[i] != "")
      && (forall i :: 0 <= i < |offered| ==> offered[i].strategy in ids)
    }

    /** All strategies are started while the engine runs, none while it is stopped. */
    ghost predicate Paired()
      reads this`state, this`ids, this`log
    {
      match state
      case Running => Open(log) == Some(UpTo(|ids|))
      case Stopped => Open(log) == Some([])
      case _ => false
    }

    ghost predicate Valid()
      reads this
    {
      IdsFresh() && NamesOk() && Paired() && (active.Some? ==> active.value < |ids| && state == Running)
    }

    constructor ()
      ensures Valid() && state == Stopped && offered == [] && log == [] && active.None?
    {
      state, ids, active, lastId := Stopped, [], None, 0;
      counters, log, offered := Counters(0, 0, 0, 0, 0, 0), [], [];
    }

    /** Refused while not stopped, and for a null strategy, an empty id or one already taken. */
    method Register(present: bool, id: string) returns (ok: bool)
      requires Valid()
      modifies this`ids
      ensures Valid()
      ensures ok == (state == Stopped && present && id != "" && id !in old(ids))
      ensures ids == if ok then old(ids) + [id] else old(ids)
    {
      if state != Stopped || !present || id == "" { return false; }
      for k := 0 to |ids|
        invariant forall j :: 0 <= j < k ==> ids[j] != id
      {
        if ids[k] == id { return false; }
      }
      ids := ids + [id];
      return true;
    }

    /**
     * Starts every strategy in order, then subscribes. `throwsAt` is the strategy whose start throws;
     * on any failure the strategies that did start are ended again, last first.
     */
    method Start(throwsAt: Option<nat>, subscribeThrows: bool) returns (ok: bool)
      requires Valid() && active.None?
      modifies this`state, this`log
      ensures Valid()
      ensures old(state) != Stopped ==> ok && log == old(log) && state == old(state)
      ensures old(state) == Stopped ==>
                var n := StartedBefore(throwsAt, |ids|);
                && ok == (n == |ids| && !subscribeThrows)
                && state == (if ok then Running else Stopped)
                && log == old(log) + Starts(n) + (if ok then [] else Ends(n))
    {
      hide Open, Ends;
      if state != Stopped { return true; }
      state := Starting;
      var started := 0;
      while started < |ids| && throwsAt != Some(started)
        invariant started <= |ids| && Open(log) == Some(UpTo(started)) && state == Starting
        invariant log == old(log) + Starts(started)
        invariant throwsAt.Some? ==> started <= throwsAt.value || throwsAt.value >= |ids|
      {
        Begin(started);
        assert Starts(started + 1) == Starts(started) + [Started(started)];
        started := started + 1;
      }
      if started < |ids| || subscribeThrows {
        EndStrategies(started);
        state := Stopped;
        return false;
      }
      state := Running;
      return true;
    }

    method Begin(i: nat)
      requires Open(log) == Some(UpTo(i))
      modifies this`log
      ensures Open(log) == Some(UpTo(i + 1)) && log == old(log) + [Started(i)]
    {
      OpenGrows(log, Started(i));
      log := log + [Started(i)];
      assert UpTo(i + 1) == UpTo(i) + [i];
    }

    /** Idempotent; ends every strategy, last first. */
    method Stop()
      requires Valid() && active.None?
      modifies this`state, this`log
      ensures Valid() && state == Stopped
      ensures log == old(log) + (if old(state) == Running then Ends(|ids|) else [])
    {
      if state != Running { return; }
      state := Stopping;
      EndStrategies(|ids|);
      state := Stopped;
    }

    method EndStrategies(count: nat)
      requires Open(log) == Some(UpTo(count))
      modifies this`log
      ensures Open(log) == Some([]) && log == old(log) + Ends(count)
    {
      hide Open, UpTo, Ends;
      var i := count;
      while i > 0
        invariant 0 <= i <= count && Open(log) == Some(UpTo(i))
        invariant log + Ends(i) == old(log) + Ends(count)
      {
        OneMoreEnd(log, i);
        i := i - 1;
        log := log + [Ended(i)];
      }
      NoEnds(log);
    }

    static lemma OneMoreEnd(log: seq<Callback>, i: nat)
      requires i > 0 && Open(log) == Some(UpTo(i))
      ensures Open(log + [Ended(i - 1)]) == Some(UpTo(i - 1))
      ensures (log + [Ended(i - 1)]) + Ends(i - 1) == log + Ends(i)
    {
      hide Open;
      OpenGrows(log, Ended(i - 1));
      assert UpTo(i)[..i - 1] == UpTo(i - 1);
    }

    static lemma NoEnds(log: seq<Callback>)
      ensures log + Ends(0) == log && UpTo(0) == []
    {
    }

    /**
     * A strategy emits through its own sink; only the one whose callback is running is heard. An id
     * is used up even when the bus refuses the signal.
     */
    method Emit(sender: nat, offer: Offer) returns (signal: Option<Stamped>)
      requires Valid() && sender < |ids|
      modifies this`lastId, this`offered, this`counters
      ensures Valid() && (signal.Some? <==> active == Some(sender))
      ensures signal.None? ==> offered == old(offered) && lastId == old(lastId)
      ensures signal.Some? ==>
                && signal.value == Stamped(old(lastId) + 1, ids[sender])
                && offered == old(offered) + [signal.value]
                && (forall s :: s in old(offered) ==> s.id < signal.value.id)
    {
      hide Open;
      if active != Some(sender) {
        counters := counters.(late := counters.late + 1);
        return None;
      }
      lastId := lastId + 1;
      var stamped := Stamped(lastId, ids[sender]);
      offered := offered + [stamped];
      match offer {
        case Accepted => counters := counters.(published := counters.published + 1);
        case Rejected => counters := counters.(rejected := counters.rejected + 1);
        case Threw => counters := counters.(failed := counters.failed + 1);
      }
      return Some(stamped);
    }

    /** One event to every strategy in order; `emits[i]` are the offers strategy i makes meanwhile. */
    method OnMarketEvent(emits: seq<seq<Offer>>)
      requires Valid() && |emits| == |ids|
      modifies this`active, this`lastId, this`offered, this`counters, this`log
      ensures Valid() && active == old(active) && old(offered) <= offered && old(log) <= log
      ensures old(state != Running || active.Some?) ==> offered == old(offered) && log == old(log)
      ensures old(state == Running && active.None?) ==>
                |log| == |old(log)| + |ids| && forall i :: 0 <= i < |ids| ==> log[|old(log)| + i] == Delivered(i)
    {
      hide Open, UpTo, IdsFresh, NamesOk;
      if state != Running || active.Some? {
        counters := counters.(dropped := counters.dropped + 1);
        return;
      }
      counters := counters.(routed := counters.routed + 1);
      for i := 0 to |ids|
        invariant Valid() && active.None? && state == Running && old(offered) <= offered && old(log) <= log
        invariant |log| == |old(log)| + i
        invariant forall j :: 0 <= j < i ==> log[|old(log)| + j] == Delivered(j)
      {
        DeliveryKeepsOpen(log, |ids|, i);
        log := log + [Delivered(i)];
        active := Some(i);
        ghost var seen := log;
        for k := 0 to |emits[i]|
          invariant Valid() && active == Some(i) && old(offered) <= offered && log == seen
        {
          var _ := Emit(i, emits[i][k]);
        }
        active := None;
      }
    }
  }

  /** Strategy i was started at position s and has not been ended since. */
  ghost predicate OpenSince(log: seq<Callback>, s: int, i: nat) {
    0 <= s < |log| && log[s] == Started(i) && forall e :: s < e < |log| ==> log[e] != Ended(i)
  }

  /** A history whose order was never broken: each start is ended at most once, and events come between. */
  lemma {:induction false} NothingBeforeItsStart(log: seq<Callback>, k: nat)
    requires Open(log).Some? && k < |log| && !log[k].Started?
    ensures exists s :: OpenSince(log[..k], s, log[k].i)
    decreases |log|
  {
    hide OpenSince;
    var init := log[..|log| - 1];
    if k == |init| {
      StillOpenSinceStart(init, log[k].i);
    } else {
      assert init[..k] == log[..k] && init[k] == log[k];
      NothingBeforeItsStart(init, k);
    }
  }

  lemma {:induction false} StillOpenSinceStart(log: seq<Callback>, i: nat)
    requires Open(log).Some? && i in Open(log).value
    ensures exists s :: OpenSince(log, s, i)
    decreases |log|
  {
    hide Open;
    NotEmpty(log);
    var init := log[..|log| - 1];
    if log[|log| - 1] == Started(i) {
      assert OpenSince(log, |log| - 1, i);
    } else {
      OpenBefore(log, i);
      StillOpenSinceStart(init, i);
      var s :| OpenSince(init, s, i);
      assert OpenSince(log, s, i);
    }
  }

  lemma NotEmpty(log: seq<Callback>)
    requires Open(log).Some? && Open(log).value != []
    ensures log != []
  {
  }

  /** What is open and was not started last was open before, and was not ended last. */
  lemma OpenBefore(log: seq<Callback>, i: nat)
    requires Open(log).Some? && i in Open(log).value && log != [] && log[|log| - 1] != Started(i)
    ensures var before := Open(log[..|log| - 1]);
            before.Some? && i in before.value && log[|log| - 1] != Ended(i)
  {
    var last := log[|log| - 1];
    if last.Ended? {
      OpenIsDistinct(log[..|log| - 1]);
    }
  }

  lemma {:induction false} OpenIsDistinct(log: seq<Callback>)
    requires Open(log).Some?
    ensures forall a, b :: 0 <= a < b < |Open(log).value| ==> Open(log).value[a] != Open(log).value[b]
    decreases |log|
  {
    if log == [] {
    } else {
      OpenIsDistinct(log[..|log| - 1]);
    }
  }
}
