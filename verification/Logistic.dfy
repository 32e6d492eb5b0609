/** Walk-forward learning: delayed labels, a rolling hit record and running feature statistics. */
module Logistic {
  import opened Domain
  import opened MeanReversion
  import opened Rings

  const FEATURES: nat := 6
  const FEATURE_WINDOW: nat := 21
  const ACCURACY_WINDOW: nat := 100

  type Vector = seq<real>

  // ----- running statistics --------------------------------------------------------------

  function Column(rows: seq<Vector>, i: nat): (xs: seq<real>)
    requires forall r :: r in rows ==> i < |r|
    ensures |xs| == |rows|
  {
    if rows == [] then [] else Column(rows[..|rows| - 1], i) + [rows[|rows| - 1][i]]
  }

  lemma ColumnGrows(rows: seq<Vector>, raw: Vector, i: nat)
    requires i < |raw| && forall r :: r in rows ==> i < |r|
    ensures Column(rows + [raw], i) == Column(rows, i) + [raw[i]]
  {
    assert (rows + [raw])[..|rows|] == rows;
  }

  function Shifted(qd: real, sum: real, n: real, c: real, d: real): real {
    qd + 2.0 * (d - c) * (sum - n * d) + n * ((d - c) * (d - c))
  }

  lemma Snoc(xs: seq<real>, x: real, m: real)
    ensures SumOf(xs + [x]) == SumOf(xs) + x
    ensures Scatter(xs + [x], m) == Scatter(xs, m) + (x - m) * (x - m)
  {
    assert (xs + [x])[..|xs|] == xs;
  }

  /** Moving the centre from d to c: for d the mean, n times the squared distance moved is added. */
  lemma {:induction false} ScatterShifts(xs: seq<real>, c: real, d: real)
    ensures Scatter(xs, c) == Shifted(Scatter(xs, d), SumOf(xs), |xs| as real, c, d)
    decreases |xs|
  {
    if xs == [] {
    } else {
      hide Shifted, Scatter, SumOf;
      var rest, x := xs[..|xs| - 1], xs[|xs| - 1];
      assert xs == rest + [x];
      Snoc(rest, x, c);
      Snoc(rest, x, d);
      ScatterShifts(rest, c, d);
      ShiftStep(Scatter(rest, c), Scatter(rest, d), SumOf(rest), |rest| as real, x, c, d);
    }
  }

  lemma ShiftStep(qc: real, qd: real, sum: real, n: real, x: real, c: real, d: real)
    requires qc == Shifted(qd, sum, n, c, d)
    ensures qc + (x - c) * (x - c) == Shifted(qd + (x - d) * (x - d), sum + x, n + 1.0, c, d)
  {
    var g := d - c;
    assert (x - c) * (x - c) == (x - d) * (x - d) + 2.0 * g * (x - d) + g * g;
    assert (sum + x) - (n + 1.0) * d == (sum - n * d) + (x - d);
    assert 2.0 * g * ((sum - n * d) + (x - d)) == 2.0 * g * (sum - n * d) + 2.0 * g * (x - d);
    assert (n + 1.0) * (g * g) == n * (g * g) + g * g;
  }

  /** The batch mean and sum of squared deviations of everything seen; zero before anything is. */
  ghost predicate IsBatch(xs: seq<real>, mean: real, m2: real) {
    if xs == [] then mean == 0.0 && m2 == 0.0 else mean == Mean(xs) && m2 == Scatter(xs, Mean(xs))
  }

  function NextMean(mean: real, x: real, n: real): real
    requires n > 0.0
  {
    mean + (x - mean) / n
  }

  function NextScatter(m2: real, x: real, mean: real, mean': real): real {
    m2 + (x - mean) * (x - mean')
  }

  /** Welford's update keeps the batch mean and the batch sum of squared deviations. */
  lemma WelfordStep(xs: seq<real>, x: real, mean: real, m2: real, n: real)
    requires IsBatch(xs, mean, m2) && n == |xs| as real + 1.0
    ensures var mean' := NextMean(mean, x, n);
            IsBatch(xs + [x], mean', NextScatter(m2, x, mean, mean'))
  {
    hide SumOf, Scatter;
    var mean' := NextMean(mean, x, n);
    var k := |xs| as real;
    Snoc(xs, x, mean');
    assert |xs + [x]| as real == k + 1.0;
    if xs == [] {
      SumOfPrefix(xs);
      assert xs[..0] == xs;
    } else {
      assert SumOf(xs) == k * mean;
    }
    WelfordMean(k, mean, x);
    ScatterShifts(xs, mean', mean);
    WelfordScatter(k, mean, mean', x);
  }

  lemma WelfordMean(k: real, mean: real, x: real)
    requires k >= 0.0
    ensures mean + (x - mean) / (k + 1.0) == (k * mean + x) / (k + 1.0)
  {
  }

  lemma WelfordScatter(k: real, mean: real, mean': real, x: real)
    requires k >= 0.0 && mean' == mean + (x - mean) / (k + 1.0)
    ensures k * ((mean - mean') * (mean - mean')) + (x - mean') * (x - mean') == (x - mean) * (x - mean')
  {
    var g := mean' - mean;
    assert g * (k + 1.0) == x - mean;
    assert x - mean' == g * k;
    assert (x - mean) * (x - mean') == (g * (k + 1.0)) * (g * k);
    assert k * (g * g) + (g * k) * (g * k) == (g * (k + 1.0)) * (g * k);
    assert (mean - mean') * (mean - mean') == g * g;
  }

  class RunningStandardizer {
    var count: nat
    var mean: Vector
    var m2: Vector
    ghost var observed: seq<Vector>

    ghost predicate Valid()
      reads this
    {
      && |mean| == |m2| == FEATURES && count == |observed|
      && (forall r :: r in observed ==> |r| == FEATURES)
      && forall i :: 0 <= i < FEATURES ==>
           IsBatch(Column(observed, i), mean[i], m2[i])
    }

    constructor ()
      ensures Valid() && observed == []
    {
      count, mean, m2, observed := 0, seq(FEATURES, _ => 0.0), seq(FEATURES, _ => 0.0), [];
    }

    /** After any observations, mean_ and m2_ are the batch statistics of every vector observed. */
    method Observe(raw: Vector)
      requires Valid() && |raw| == FEATURES
      modifies this
      ensures Valid() && observed == old(observed) + [raw]
    {
      hide IsBatch, Column, NextMean, NextScatter;
      ghost var rows := observed;
      count := count + 1;
      var n := count as real;
      observed := rows + [raw];
      for i := 0 to FEATURES
        invariant |mean| == |m2| == FEATURES && observed == rows + [raw] && count == |rows| + 1
        invariant forall j :: i <= j < FEATURES ==> IsBatch(Column(rows, j), mean[j], m2[j])
        invariant forall j :: 0 <= j < i ==> IsBatch(Column(observed, j), mean[j], m2[j])
      {
        WelfordColumn(rows, raw, i, mean[i], m2[i], n);
        var mean' := NextMean(mean[i], raw[i], n);
        m2 := m2[i := NextScatter(m2[i], raw[i], mean[i], mean')];
        mean := mean[i := mean'];
      }
    }
  }

  lemma WelfordColumn(rows: seq<Vector>, raw: Vector, i: nat, mean: real, m2: real, n: real)
    requires i < |raw| && forall r :: r in rows ==> i < |r|
    requires IsBatch(Column(rows, i), mean, m2) && n == |rows| as real + 1.0
    ensures var mean' := NextMean(mean, raw[i], n);
            IsBatch(Column(rows + [raw], i), mean', NextScatter(m2, raw[i], mean, mean'))
  {
    hide IsBatch, Column, NextMean, NextScatter;
    ColumnGrows(rows, raw, i);
    WelfordStep(Column(rows, i), raw[i], mean, m2, n);
  }

  // ----- delayed labels ------------------------------------------------------------------

  datatype Sample = Sample(bar: nat, close: int, probability: real, features: Vector)

  // A sample leaving the queue at bar `at`; `rose` is None inside the dead band.
  datatype Release = Release(sample: Sample, at: nat, rose: Option<bool>)

  /** What the strategy takes from elsewhere: features, scaling, the model and the logarithm of a move. */
  datatype Kit = Kit(deadBand: real,
                     features: seq<int> -> Option<Vector>,
                     scale: (nat, Vector, Vector, Vector) -> Vector,
                     predict: (Vector, Vector) -> real,
                     learn: (Vector, Vector, bool) -> Vector,
                     move: (int, int) -> real)

  ghost predicate KitOk(kit: Kit) {
    forall window :: kit.features(window).Some? ==> |kit.features(window).value| == FEATURES
  }

  /** Whether the close rose since the sample was taken; None for a move too small to call. */
  function LabelOf(kit: Kit, close: int, sample: Sample): Option<bool> {
    var move := kit.move(close, sample.close);
    if -kit.deadBand <= move <= kit.deadBand then None else Some(move > 0.0)
  }

  function Right(sample: Sample, up: bool): bool {
    (sample.probability >= 0.5) == up
  }

  /** For every labelled release, oldest first, whether its prediction was right. */
  function Outcomes(releases: seq<Release>): seq<bool> {
    if releases == [] then []
    else
      var last := releases[|releases| - 1];
      Outcomes(releases[..|releases| - 1]) + (if last.rose.Some? then [Right(last.sample, last.rose.value)] else [])
  }

  /** The parameters after one training step per labelled release. */
  function Trained(kit: Kit, initial: Vector, releases: seq<Release>): Vector {
    if releases == [] then initial
    else
      var last := releases[|releases| - 1];
      var before := Trained(kit, initial, releases[..|releases| - 1]);
      if last.rose.Some? then kit.learn(before, last.sample.features, last.rose.value) else before
  }

  lemma OneMoreRelease(kit: Kit, initial: Vector, releases: seq<Release>, r: Release)
    ensures Outcomes(releases + [r])
         == if r.rose.Some? then Outcomes(releases) + [Right(r.sample, r.rose.value)] else Outcomes(releases)
    ensures var before := Trained(kit, initial, releases);
            Trained(kit, initial, releases + [r])
            == if r.rose.Some? then kit.learn(before, r.sample.features, r.rose.value) else before
  {
    assert (releases + [r])[..|releases|] == releases;
  }

  /** Each sample is a bar of the history, in order, and only earlier bars are in it. */
  ghost predicate SamplesOk(taken: seq<Sample>, history: seq<int>) {
    && (forall i :: 0 <= i < |taken| ==> taken[i].bar < |history| && taken[i].close == history[taken[i].bar])
    && (forall i, j :: 0 <= i < j < |taken| ==> taken[i].bar < taken[j].bar)
  }

  /** The released samples are the oldest ones, once each; the pending ones are the rest. */
  ghost predicate QueueSplits(taken: seq<Sample>, releases: seq<Release>, pending: seq<Sample>) {
    && |taken| == |releases| + |pending|
    && pending == taken[|releases|..]
    && forall i :: 0 <= i < |releases| ==> releases[i].sample == taken[i]
  }

  /** Every release came exactly `horizon` bars after its sample, labelled by the close of that bar. */
  ghost predicate LabelsOk(kit: Kit, releases: seq<Release>, history: seq<int>, horizon: nat) {
    forall i :: 0 <= i < |releases| ==>
      && releases[i].at == releases[i].sample.bar + horizon < |history|
      && releases[i].rose == LabelOf(kit, history[releases[i].at], releases[i].sample)
  }

  /** No pending sample is as old as the horizon at bar `now`. */
  ghost predicate NoneOverdue(pending: seq<Sample>, now: nat, horizon: nat) {
    forall i :: 0 <= i < |pending| ==> now < pending[i].bar + horizon
  }

  lemma ReleaseKeepsQueue(taken: seq<Sample>, releases: seq<Release>, pending: seq<Sample>, r: Release)
    requires QueueSplits(taken, releases, pending) && pending != [] && r.sample == pending[0]
    ensures QueueSplits(taken, releases + [r], pending[1..])
  {
  }

  lemma TakeKeepsQueue(taken: seq<Sample>, releases: seq<Release>, pending: seq<Sample>, s: Sample)
    requires QueueSplits(taken, releases, pending)
    ensures QueueSplits(taken + [s], releases, pending + [s])
  {
  }

  /** Pending bars are distinct and lie within the last `horizon` bars: the queue never exceeds the horizon. */
  lemma QueueNeverExceedsHorizon(taken: seq<Sample>, releases: seq<Release>, pending: seq<Sample>,
                                 history: seq<int>, horizon: nat)
    requires SamplesOk(taken, history) && QueueSplits(taken, releases, pending)
    requires history != [] && NoneOverdue(pending, |history| - 1, horizon)
    ensures |pending| <= horizon
  {
    if pending != [] {
      var n := |pending| - 1;
      PendingSpread(pending, n);
      assert pending[n] == taken[|releases| + n];
    }
  }

  lemma {:induction false} PendingSpread(pending: seq<Sample>, i: nat)
    requires i < |pending| && forall i, j :: 0 <= i < j < |pending| ==> pending[i].bar < pending[j].bar
    ensures pending[i].bar >= pending[0].bar + i
  {
    if i == 0 {
    } else {
      PendingSpread(pending, i - 1);
    }
  }

  // ----- the rolling record of hits ------------------------------------------------------

  /** A ring of at most n hits, whose oldest sits at `next` once it is full, holds the last n outcomes. */
  ghost predicate HitsAre(hits: seq<bool>, next: nat, outcomes: seq<bool>, n: nat) {
    && |hits| <= n && (if |hits| == n then next < n || n == 0 else next == 0)
    && next <= |hits|
    && hits[next..] + hits[..next] == Last(outcomes, n)
  }

  lemma RingFills(hits: seq<bool>, outcomes: seq<bool>, right: bool, n: nat)
    requires HitsAre(hits, 0, outcomes, n) && |hits| < n
    ensures HitsAre(hits + [right], 0, outcomes + [right], n)
  {
    assert hits[0..] + hits[..0] == hits;
    assert (hits + [right])[0..] + (hits + [right])[..0] == hits + [right];
  }

  lemma RingTurns(hits: seq<bool>, next: nat, outcomes: seq<bool>, right: bool, n: nat)
    requires HitsAre(hits, next, outcomes, n) && |hits| == n > 0
    ensures HitsAre(hits[next := right], (next + 1) % n, outcomes + [right], n)
  {
    NextSlot(next, n);
    var g := hits[next := right];
    assert Last(outcomes + [right], n) == Last(outcomes, n)[1..] + [right];
    if next + 1 == n {
      assert g[0..] + g[..0] == hits[..next] + [right];
    } else {
      assert g[next + 1..] + g[..next + 1] == hits[next + 1..] + hits[..next] + [right];
    }
  }

  // ----- the strategy --------------------------------------------------------------------

  class Learner {
    const kit: Kit
    const horizon: nat
    const minTraining: nat
    const entry: real
    const rearm: real
    const initial: Vector
    var closes: seq<int>
    var lastTime: Option<int>
    var accepted: nat
    var pending: seq<Sample>
    var standardizer: RunningStandardizer
    var parameters: Vector
    var trained: nat
    var scored: nat
    var hits: seq<bool>
    var nextHit: nat
    var latch: Option<Side>
    ghost var history: seq<int>
    ghost var taken: seq<Sample>
    ghost var releases: seq<Release>

    /** The counters, the hit ring and the parameters are those of the labelled releases. */
    ghost predicate LearningOk()
      reads this`releases, this`trained, this`scored, this`hits, this`nextHit, this`parameters
    {
      && scored == trained == |Outcomes(releases)|
      && HitsAre(hits, nextHit, Outcomes(releases), ACCURACY_WINDOW)
      && parameters == Trained(kit, initial, releases)
    }

    ghost predicate QueueOk()
      reads this`history, this`taken, this`releases, this`pending
    {
      && SamplesOk(taken, history) && QueueSplits(taken, releases, pending) && LabelsOk(kit, releases, history, horizon)
    }

    ghost predicate Valid()
      reads this`history, this`taken, this`releases, this`pending, this`closes, this`accepted
      reads this`trained, this`scored, this`hits, this`nextHit, this`parameters, this`standardizer, standardizer
    {
      && horizon >= 1 && KitOk(kit) && standardizer.Valid()
      && accepted == |history| && closes == Last(history, FEATURE_WINDOW)
      && QueueOk() && (history != [] ==> NoneOverdue(pending, |history| - 1, horizon)) && LearningOk()
      && (history == [] ==> taken == [])
    }

    constructor (kit: Kit, horizon: nat, minTraining: nat, entry: real, rearm: real, initial: Vector)
      requires horizon >= 1 && KitOk(kit)
      ensures Valid() && history == [] && taken == [] && releases == [] && fresh(standardizer)
    {
      this.kit, this.horizon, this.initial := kit, horizon, initial;
      this.minTraining, this.entry, this.rearm := minTraining, entry, rearm;
      closes, lastTime, accepted, pending := [], None, 0, [];
      standardizer := new RunningStandardizer();
      parameters, trained, scored, hits, nextHit, latch := initial, 0, 0, [], 0, None;
      history, taken, releases := [], [], [];
    }

    predicate Acceptable(isBar: bool, price: Option<int>, time: int)
      reads this`lastTime
    {
      isBar && price.Some? && price.value > 0 && (lastTime.Some? ==> time > lastTime.value)
    }

    /** The sample a bar adds: scaled with statistics of earlier bars, predicted by what is already labelled. */
    ghost predicate WalksForward(s: Sample, count: nat, mean: Vector, m2: Vector)
      reads this`history, this`releases
    {
      history != [] && s.bar == |history| - 1
      && var raw := kit.features(Last(history, FEATURE_WINDOW));
      && raw.Some?
      && s.features == kit.scale(count, mean, m2, raw.value)
      && s.probability == kit.predict(Trained(kit, initial, releases), s.features)
    }

    /** The window is full and its features exist: then, and only then, a bar is sampled. */
    predicate Ready()
      reads this`closes
    {
      |closes| == FEATURE_WINDOW && kit.features(closes).Some?
    }

    /** What a prediction calls for: a signal beyond a threshold not yet answered, else a rearm near one half. */
    ghost predicate Decides(before: Option<Side>, p: real, signal: Option<Side>, after: Option<Side>) {
      && (signal == Some(BuySide) <==> p >= entry && before != Some(BuySide))
      && (signal == Some(SellSide) <==>
            p <= 1.0 - entry && before != Some(SellSide) && !(p >= entry && before != Some(BuySide)))
      && after == (if signal.Some? then signal else if -rearm <= p - 0.5 <= rearm then None else before)
    }

    /** One bar: label what is due, then take at most one sample. */
    method OnMarketEvent(isBar: bool, price: Option<int>, time: int) returns (signal: Option<Side>)
      requires Valid()
      modifies this, standardizer
      ensures Valid() && standardizer == old(standardizer)
      ensures !old(Acceptable(isBar, price, time)) ==>
                && signal.None? && history == old(history) && taken == old(taken) && releases == old(releases)
                && lastTime == old(lastTime) && latch == old(latch) && pending == old(pending)
                && parameters == old(parameters) && standardizer.observed == old(standardizer.observed)
      ensures old(Acceptable(isBar, price, time)) ==> history == old(history) + [price.value] && lastTime == Some(time)
      ensures old(releases) <= releases
      ensures old(Acceptable(isBar, price, time)) && !Ready() ==>
                && signal.None? && latch == old(latch) && taken == old(taken)
                && standardizer.observed == old(standardizer.observed)
      ensures old(Acceptable(isBar, price, time)) && Ready() ==>
                && |taken| == |old(taken)| + 1 && old(taken) <= taken
                && WalksForward(taken[|old(taken)|], old(standardizer.count), old(standardizer.mean),
                                old(standardizer.m2))
                && standardizer.observed == old(standardizer.observed) + [kit.features(closes).value]
                && if trained < minTraining then signal.None? && latch == old(latch)
                   else Decides(old(latch), taken[|old(taken)|].probability, signal, latch)
    {
      hide Valid, WalksForward;
      if !isBar || price.None? { return None; }
      var close := price.value;
      if close <= 0 { return None; }
      if lastTime.Some? && time <= lastTime.value { return None; }
      lastTime := Some(time);
      var probability := OnBar(close);
      if probability.None? || trained < minTraining { return None; }
      signal := Decide(probability.value);
    }

    /** The part of an accepted bar before the decision; no prediction while the window fills. */
    method OnBar(close: int) returns (probability: Option<real>)
      requires Valid()
      modifies this`closes, this`accepted, this`history, this`pending, this`taken, this`releases
      modifies this`trained, this`scored, this`hits, this`nextHit, this`parameters, standardizer
      ensures Valid() && history == old(history) + [close] && old(releases) <= releases
      ensures probability.None? ==> taken == old(taken) && standardizer.observed == old(standardizer.observed)
      ensures probability.Some? <==> Ready()
      ensures probability.Some? ==>
                && |taken| == |old(taken)| + 1 && old(taken) <= taken
                && taken[|old(taken)|].probability == probability.value
                && WalksForward(taken[|old(taken)|], old(standardizer.count),
                                old(standardizer.mean), old(standardizer.m2))
                && standardizer.observed == old(standardizer.observed) + [kit.features(closes).value]
    {
      hide QueueOk, LearningOk, NoneOverdue, SamplesOk, RunningStandardizer.Valid, WalksForward, KitOk;
      var index := Accept(close);
      TrainDue(close);
      if |closes| < FEATURE_WINDOW { return None; }
      assert parameters == Trained(kit, initial, releases) by { TrainedParameters(); }
      probability := Predict(index, close);
    }

    lemma TrainedParameters()
      requires LearningOk()
      ensures parameters == Trained(kit, initial, releases)
    {
    }

    /** Features, scaled with the statistics of earlier bars only; the prediction, queued. */
    method Predict(index: nat, close: int) returns (probability: Option<real>)
      requires KitOk(kit) && standardizer.Valid() && closes == Last(history, FEATURE_WINDOW)
      requires QueueOk() && history != [] && index == |history| - 1 && close == history[index]
      requires forall s :: s in taken ==> s.bar < index
      requires horizon >= 1 && NoneOverdue(pending, index, horizon)
      requires parameters == Trained(kit, initial, releases)
      modifies this`pending, this`taken, standardizer
      ensures standardizer.Valid() && QueueOk() && NoneOverdue(pending, index, horizon)
      ensures probability.None? ==> taken == old(taken) && standardizer.observed == old(standardizer.observed)
      ensures probability.Some? <==> kit.features(closes).Some?
      ensures probability.Some? ==>
                && |taken| == |old(taken)| + 1 && old(taken) <= taken
                && taken[|old(taken)|].probability == probability.value
                && WalksForward(taken[|old(taken)|], old(standardizer.count),
                                old(standardizer.mean), old(standardizer.m2))
                && standardizer.observed == old(standardizer.observed) + [kit.features(closes).value]
    {
      hide QueueOk, NoneOverdue, SamplesOk, RunningStandardizer.Valid, Trained, Last;
      var raw := kit.features(closes);
      if raw.None? { return None; }
      var scaled := kit.scale(standardizer.count, standardizer.mean, standardizer.m2, raw.value);
      standardizer.Observe(raw.value);
      var p := kit.predict(parameters, scaled);
      Take(Sample(index, close, p, scaled));
      probability := Some(p);
    }

    method Accept(close: int) returns (index: nat)
      requires accepted == |history| && closes == Last(history, FEATURE_WINDOW) && QueueOk()
      requires history != [] ==> NoneOverdue(pending, |history| - 1, horizon)
      requires history == [] ==> taken == []
      modifies this`closes, this`accepted, this`history
      ensures accepted == |history| && closes == Last(history, FEATURE_WINDOW) && QueueOk()
      ensures history == old(history) + [close] && index == |old(history)|
      ensures NoneOverdue(pending, |history| - 1, horizon + 1)
      ensures forall s :: s in taken ==> s.bar < index
    {
      if |closes| == FEATURE_WINDOW { closes := closes[1..]; }
      closes := closes + [close];
      index := accepted;
      accepted := accepted + 1;
      history := history + [close];
    }

    method Take(sample: Sample)
      requires QueueOk() && history != [] && sample.bar == |history| - 1 && sample.close == history[sample.bar]
      requires forall s :: s in taken ==> s.bar < sample.bar
      requires horizon >= 1 && NoneOverdue(pending, |history| - 1, horizon)
      modifies this`pending, this`taken
      ensures QueueOk() && NoneOverdue(pending, |history| - 1, horizon)
      ensures taken == old(taken) + [sample]
    {
      TakeKeepsQueue(taken, releases, pending, sample);
      pending := pending + [sample];
      taken := taken + [sample];
    }

    method Decide(probability: real) returns (signal: Option<Side>)
      modifies this`latch
      ensures Decides(old(latch), probability, signal, latch)
    {
      var buyEntry := probability >= entry;
      var sellEntry := probability <= 1.0 - entry;
      var buyDue := buyEntry && latch != Some(BuySide);
      var sellDue := sellEntry && latch != Some(SellSide);
      if !buyDue && !sellDue {
        if -rearm <= probability - 0.5 <= rearm { latch := None; }
        return None;
      }
      signal := Some(if buyDue then BuySide else SellSide);
      latch := signal;
    }

    /** Labels every sample whose outcome is now known; `close` is the close of the newest bar. */
    method TrainDue(close: int)
      requires accepted == |history| && history != [] && close == history[|history| - 1]
      requires QueueOk() && LearningOk() && NoneOverdue(pending, |history| - 1, horizon + 1)
      modifies this`pending, this`releases, this`trained, this`scored, this`hits, this`nextHit, this`parameters
      ensures QueueOk() && LearningOk() && NoneOverdue(pending, |history| - 1, horizon)
      ensures old(releases) <= releases
    {
      var now := accepted - 1;
      while pending != [] && now - pending[0].bar >= horizon
        invariant QueueOk() && LearningOk() && NoneOverdue(pending, now, horizon + 1)
        invariant old(releases) <= releases
        decreases |pending|
      {
        hide LearningOk, SamplesOk;
        TrainOne(close);
      }
      PendingIsSorted();
    }

    lemma PendingIsSorted()
      requires QueueOk()
      ensures forall i, j :: 0 <= i < j < |pending| ==> pending[i].bar < pending[j].bar
    {
      forall i, j | 0 <= i < j < |pending| ensures pending[i].bar < pending[j].bar {
        assert pending[i] == taken[|releases| + i] && pending[j] == taken[|releases| + j];
      }
    }

    /** The oldest sample leaves the queue and, outside the dead band, is scored and trained on. */
    method TrainOne(close: int)
      requires accepted == |history| && history != [] && close == history[|history| - 1]
      requires pending != [] && pending[0].bar + horizon == |history| - 1
      requires QueueOk() && LearningOk()
      modifies this`pending, this`releases, this`trained, this`scored, this`hits, this`nextHit, this`parameters
      ensures QueueOk() && LearningOk()
      ensures pending == old(pending)[1..]
      ensures releases == old(releases) + [Release(old(pending)[0], |history| - 1,
                                                   LabelOf(kit, close, old(pending)[0]))]
    {
      hide Outcomes, Trained, HitsAre, SamplesOk, Right;
      var sample := pending[0];
      ghost var before := Outcomes(releases);
      ghost var release := Release(sample, |history| - 1, LabelOf(kit, close, sample));
      OneMoreRelease(kit, initial, releases, release);
      ReleaseKeepsQueue(taken, releases, pending, release);
      releases := releases + [release];
      pending := pending[1..];
      var move := kit.move(close, sample.close);
      if -kit.deadBand <= move <= kit.deadBand { return; }
      var up := move > 0.0;
      var right := Right(sample, up);
      Score(right, before);
      scored := scored + 1;
      parameters := kit.learn(parameters, sample.features, up);
      trained := trained + 1;
    }

    /** The newest outcome replaces the oldest once a hundred are held. */
    method Score(right: bool, ghost before: seq<bool>)
      requires HitsAre(hits, nextHit, before, ACCURACY_WINDOW)
      modifies this`hits, this`nextHit
      ensures HitsAre(hits, nextHit, before + [right], ACCURACY_WINDOW)
    {
      if |hits| < ACCURACY_WINDOW {
        RingFills(hits, before, right, ACCURACY_WINDOW);
        hits := hits + [right];
      } else {
        RingTurns(hits, nextHit, before, right, ACCURACY_WINDOW);
        hits := hits[nextHit := right];
        nextHit := (nextHit + 1) % ACCURACY_WINDOW;
      }
    }
  }

  /** The move between two closes has the direction of their difference, as a logarithm's does. */
  ghost predicate MovesWithThePrice(kit: Kit) {
    && kit.deadBand >= 0.0
    && forall later: int, earlier: int :: later > 0 && earlier > 0 ==>
         (kit.move(later, earlier) > 0.0 <==> later > earlier) && (kit.move(later, earlier) < 0.0 <==> later < earlier)
  }

  /** A sample is labelled as risen when the later close is higher by more than the dead band, as fallen likewise. */
  lemma LabelIsTheDirection(kit: Kit, close: int, sample: Sample)
    requires MovesWithThePrice(kit) && close > 0 && sample.close > 0
    ensures LabelOf(kit, close, sample) == Some(true) <==>
            close > sample.close && kit.move(close, sample.close) > kit.deadBand
    ensures LabelOf(kit, close, sample) == Some(false) <==>
            close < sample.close && kit.move(close, sample.close) < -kit.deadBand
  {
  }

  /** A scored prediction counts as right exactly when it was at least even and the close rose, or below and it fell. */
  lemma HitIsARightCall(sample: Sample, rose: bool)
    ensures Right(sample, rose) <==> (rose && sample.probability >= 0.5) || (!rose && sample.probability < 0.5)
  {
  }
}
