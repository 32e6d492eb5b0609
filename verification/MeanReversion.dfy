/** Mean reversion: a corrected two-pass z-score over a ring of closes, and a latch on requests. */
module MeanReversion {
  import opened Domain
  import opened MachineIntegers
  import opened Products
  import opened Rings

  // ----- statistics over reals -----------------------------------------------------------

  function SumOf(xs: seq<real>): real {
    if xs == [] then 0.0 else SumOf(xs[..|xs| - 1]) + xs[|xs| - 1]
  }

  /** Sum of squared distances from `m`. */
  function Scatter(xs: seq<real>, m: real): real {
    if xs == [] then 0.0
    else Scatter(xs[..|xs| - 1], m) + (xs[|xs| - 1] - m) * (xs[|xs| - 1] - m)
  }

  function Mean(xs: seq<real>): real
    requires xs != []
  {
    SumOf(xs) / |xs| as real
  }

  function Variance(xs: seq<real>): real
    requires xs != []
  {
    Scatter(xs, Mean(xs)) / |xs| as real
  }

  lemma {:induction false} ScatterNotNegative(xs: seq<real>, m: real)
    ensures Scatter(xs, m) >= 0.0
    decreases |xs|
  {
    if xs == [] {
    } else {
      ScatterNotNegative(xs[..|xs| - 1], m);
      SquareNotNegative(xs[|xs| - 1] - m);
    }
  }

  lemma SquareNotNegative(x: real)
    ensures x * x >= 0.0
  {
  }

  lemma {:induction false} SumOfConcat(a: seq<real>, b: seq<real>)
    ensures SumOf(a + b) == SumOf(a) + SumOf(b)
    decreases |b|
  {
    if b == [] {
      assert a + b == a;
    } else {
      assert (a + b)[..|a + b| - 1] == a + b[..|b| - 1];
      SumOfConcat(a, b[..|b| - 1]);
    }
  }

  lemma {:induction false} ScatterOfConcat(a: seq<real>, b: seq<real>, m: real)
    ensures Scatter(a + b, m) == Scatter(a, m) + Scatter(b, m)
    decreases |b|
  {
    if b == [] {
      assert a + b == a;
    } else {
      assert (a + b)[..|a + b| - 1] == a + b[..|b| - 1];
      ScatterOfConcat(a, b[..|b| - 1], m);
    }
  }

  /** Mean and variance do not depend on where the ring starts. */
  lemma RotationKeepsStatistics(a: seq<real>, b: seq<real>)
    requires a + b != []
    ensures Mean(a + b) == Mean(b + a) && Variance(a + b) == Variance(b + a)
  {
    SumOfConcat(a, b);
    SumOfConcat(b, a);
    ScatterOfConcat(a, b, Mean(a + b));
    ScatterOfConcat(b, a, Mean(a + b));
  }

  // ----- Samuelson's inequality ----------------------------------------------------------

  /** (sum - n * m)^2 <= n * q */
  predicate WithinBound(sum: real, n: real, m: real, q: real) {
    (sum - n * m) * (sum - n * m) <= n * q
  }

  /** (sum of distances)^2 <= n * (sum of squared distances). */
  lemma {:induction false} CauchySchwarz(xs: seq<real>, m: real)
    ensures WithinBound(SumOf(xs), |xs| as real, m, Scatter(xs, m))
    decreases |xs|
  {
    if xs == [] {
    } else {
      CauchySchwarz(xs[..|xs| - 1], m);
      CauchyOneMore(xs, m);
    }
  }

  lemma CauchyOneMore(xs: seq<real>, m: real)
    requires xs != []
    requires var rest := xs[..|xs| - 1]; WithinBound(SumOf(rest), |rest| as real, m, Scatter(rest, m))
    ensures WithinBound(SumOf(xs), |xs| as real, m, Scatter(xs, m))
  {
    var rest, x := xs[..|xs| - 1], xs[|xs| - 1] - m;
    LastTerms(xs, m);
    hide SumOf, Scatter, WithinBound;
    ScatterNotNegative(rest, m);
    CauchyJoin(SumOf(rest), |rest| as real, m, Scatter(rest, m), x, SumOf(xs), |xs| as real, Scatter(xs, m));
  }

  lemma LastTerms(xs: seq<real>, m: real)
    requires xs != []
    ensures var rest, x := xs[..|xs| - 1], xs[|xs| - 1] - m;
            && SumOf(xs) == SumOf(rest) + x + m && Scatter(xs, m) == Scatter(rest, m) + x * x
            && (|rest| as real == 0.0 ==> SumOf(rest) == 0.0) && |xs| as real == |rest| as real + 1.0
  {
  }

  lemma CauchyJoin(sum: real, n: real, m: real, q: real, x: real, sum': real, n': real, q': real)
    requires n >= 0.0 && q >= 0.0 && WithinBound(sum, n, m, q)
    requires n == 0.0 ==> sum == 0.0
    requires sum' == sum + x + m && n' == n + 1.0 && q' == q + x * x
    ensures WithinBound(sum', n', m, q')
  {
    var s := sum - n * m;
    assert sum' - n' * m == s + x;
    CauchyStep(n, s, q, x);
  }

  lemma CauchyStep(n: real, s: real, q: real, x: real)
    requires n >= 0.0 && q >= 0.0 && s * s <= n * q
    requires n == 0.0 ==> s == 0.0
    ensures (s + x) * (s + x) <= (n + 1.0) * (q + x * x)
  {
    assert (s + x) * (s + x) == s * s + 2.0 * s * x + x * x;
    assert (n + 1.0) * (q + x * x) == n * q + q + n * (x * x) + x * x;
    if n == 0.0 {
      assert 2.0 * s * x == 0.0;
    } else {
      var d := s - n * x;
      SquareNotNegative(d);
      assert d * d == s * s - 2.0 * n * (s * x) + n * n * (x * x);
      assert n * q * n >= s * s * n by { RealProductMonotone(s * s, n * q, n); }
      assert n * (q + n * (x * x) - 2.0 * s * x) >= d * d by {
        assert n * (q + n * (x * x) - 2.0 * s * x) == n * q + n * n * (x * x) - 2.0 * n * (s * x);
      }
      RealFactorNotNegative(n, q + n * (x * x) - 2.0 * s * x);
    }
  }

  lemma TakeOneOut(xs: seq<real>, i: nat, m: real)
    requires i < |xs|
    ensures var others := xs[..i] + xs[i + 1..];
            && SumOf(xs) == xs[i] + SumOf(others)
            && Scatter(xs, m) == (xs[i] - m) * (xs[i] - m) + Scatter(others, m)
  {
    hide SumOf, Scatter;
    assert xs == xs[..i] + ([xs[i]] + xs[i + 1..]);
    SumOfConcat(xs[..i], [xs[i]] + xs[i + 1..]);
    SumOfConcat([xs[i]], xs[i + 1..]);
    SumOfConcat(xs[..i], xs[i + 1..]);
    ScatterOfConcat(xs[..i], [xs[i]] + xs[i + 1..], m);
    ScatterOfConcat([xs[i]], xs[i + 1..], m);
    ScatterOfConcat(xs[..i], xs[i + 1..], m);
    Singleton(xs[i], m);
  }

  /** No member of a sample is farther from its mean than sqrt(n - 1) standard deviations. */
  lemma Samuelson(xs: seq<real>, i: nat)
    requires i < |xs|
    ensures var d := xs[i] - Mean(xs);
            d * d <= (|xs| as real - 1.0) * Variance(xs)
  {
    hide SumOf, Scatter, WithinBound;
    var m, n := Mean(xs), |xs| as real;
    var others := xs[..i] + xs[i + 1..];
    var d := xs[i] - m;
    TakeOneOut(xs, i, m);
    CauchySchwarz(others, m);
    DistanceOfOthers(SumOf(xs), xs[i], SumOf(others), n, m);
    assert |others| as real == n - 1.0;
    BoundOn(SumOf(others), n - 1.0, m, Scatter(others, m), -d);
    SamuelsonArithmetic(n, d, Scatter(others, m), Variance(xs));
  }

  lemma BoundOn(sum: real, n: real, m: real, q: real, d: real)
    requires WithinBound(sum, n, m, q) && sum - n * m == d
    ensures d * d <= n * q
  {
  }

  lemma DistanceOfOthers(sum: real, x: real, rest: real, n: real, m: real)
    requires n >= 1.0 && m == sum / n && sum == x + rest
    ensures rest - (n - 1.0) * m == -(x - m)
  {
    assert n * m == sum;
    assert (n - 1.0) * m == n * m - m;
  }

  lemma Singleton(x: real, m: real)
    ensures SumOf([x]) == x && Scatter([x], m) == (x - m) * (x - m)
  {
    assert [x][..0] == [];
  }

  lemma SamuelsonArithmetic(n: real, d: real, q: real, v: real)
    requires n >= 1.0 && (-d) * (-d) <= (n - 1.0) * q && v == (q + d * d) / n
    ensures d * d <= (n - 1.0) * v
  {
    assert v * n == q + d * d;
    assert (-d) * (-d) == d * d;
    assert n * (d * d) == (n - 1.0) * (d * d) + d * d;
    assert n * ((n - 1.0) * v) == (n - 1.0) * (v * n);
    assert (n - 1.0) * (q + d * d) == (n - 1.0) * q + (n - 1.0) * (d * d);
    assert n * ((n - 1.0) * v - d * d) >= 0.0 by {
      assert n * ((n - 1.0) * v - d * d) == n * ((n - 1.0) * v) - n * (d * d);
    }
    RealFactorNotNegative(n, (n - 1.0) * v - d * d);
  }

  /** The bound is attained: one close apart from n - 1 equal ones. */
  lemma SamuelsonIsAttained(n: nat, x: real, y: real)
    requires n >= 1
    ensures var xs := seq(n - 1, _ => x) + [y];
            var d := y - Mean(xs);
            d * d == (n as real - 1.0) * Variance(xs)
  {
    hide SumOf, Scatter;
    var same := seq(n - 1, _ => x);
    var xs := same + [y];
    var k := n as real - 1.0;
    SumOfConcat(same, [y]);
    ScatterOfConcat(same, [y], Mean(xs));
    Singleton(y, Mean(xs));
    ConstantSample(n - 1, x, Mean(xs));
    assert |xs| as real == k + 1.0;
    AttainedMean(k, x, y, Mean(xs));
    AttainedArithmetic(k, y - Mean(xs), x - Mean(xs), Variance(xs), y - x);
  }

  lemma AttainedMean(k: real, x: real, y: real, m: real)
    requires k >= 0.0 && m == (k * x + y) / (k + 1.0)
    ensures (y - m) * (k + 1.0) == k * (y - x) && (x - m) * (k + 1.0) == -(y - x)
  {
    assert m * (k + 1.0) == k * x + y;
    assert (y - m) * (k + 1.0) == y * (k + 1.0) - m * (k + 1.0);
    assert (x - m) * (k + 1.0) == x * (k + 1.0) - m * (k + 1.0);
  }

  lemma {:induction false} ConstantSample(n: nat, x: real, m: real)
    ensures SumOf(seq(n, _ => x)) == n as real * x
    ensures Scatter(seq(n, _ => x), m) == n as real * ((x - m) * (x - m))
    decreases n
  {
    if n == 0 {
    } else {
      ConstantSample(n - 1, x, m);
      assert seq(n, _ => x)[..n - 1] == seq(n - 1, _ => x);
      assert (n - 1) as real == n as real - 1.0;
    }
  }

  lemma AttainedArithmetic(k: real, far: real, near: real, v: real, g: real)
    requires k >= 0.0 && far * (k + 1.0) == k * g && near * (k + 1.0) == -g
    requires v == (k * (near * near) + far * far) / (k + 1.0)
    ensures far * far == k * v
  {
    assert (far + k * near) * (k + 1.0) == 0.0;
    assert far == -k * near;
    assert far * far == k * k * (near * near);
    assert v * (k + 1.0) == k * (near * near) + far * far;
    assert v * (k + 1.0) == (k * (near * near)) * (k + 1.0);
    assert v == k * (near * near);
  }

  // ----- the measurement -----------------------------------------------------------------

  function Reals(closes: seq<Int64>): (xs: seq<real>)
    ensures |xs| == |closes| && forall i :: 0 <= i < |xs| ==> xs[i] == closes[i] as real
  {
    seq(|closes|, i requires 0 <= i < |closes| => closes[i] as real)
  }

  /** What std::sqrt does on the values it is given here. */
  ghost predicate IsRoot(root: real -> real) {
    forall v :: v >= 0.0 ==> root(v) >= 0.0 && root(v) * root(v) == v
  }

  const NEGLIGIBLE_VARIATION: real := 0.000000000001

  datatype Measurement = Constant(mean: real, spread: real) | Scored(mean: real, spread: real, z: real)

  /** The textbook definition: population mean, deviation, and the score of `current`. */
  function MeasurementOf(xs: seq<real>, current: real, root: real -> real): Measurement
    requires xs != []
  {
    var mean, spread := Mean(xs), root(Variance(xs));
    if spread <= NEGLIGIBLE_VARIATION * mean || spread == 0.0 then Constant(mean, spread)
    else Scored(mean, spread, (current - mean) / spread)
  }

  /** A price k deviations above the mean scores k, below it minus k; a constant sample has no score. */
  lemma ScoreIsTheDistance(xs: seq<real>, current: real, root: real -> real)
    requires xs != [] && IsRoot(root)
    ensures var m, deviation := MeasurementOf(xs, current, root), root(Variance(xs));
            && m.mean == Mean(xs) && m.spread == deviation
            && (m.Scored? ==> deviation > 0.0 && current == Mean(xs) + m.z * deviation)
            && (Mean(xs) > 0.0 ==> (m.Constant? <==> deviation <= 0.000000000001 * Mean(xs)))
  {
    hide Mean, Variance;
    VarianceNotNegative(xs);
    var m := MeasurementOf(xs, current, root);
    if m.Scored? { assert m.z * m.spread == current - Mean(xs); }
  }

  ghost predicate Positive(closes: seq<Int64>) {
    forall i :: 0 <= i < |closes| ==> closes[i] > 0
  }

  /** The origin-shifted, corrected two-pass computation gives exactly the textbook result. */
  method Measure(closes: seq<Int64>, current: Int64, root: real -> real) returns (r: Measurement)
    requires closes != [] && Positive(closes) && current > 0 && IsRoot(root)
    ensures r == MeasurementOf(Reals(closes), current as real, root)
  {
    hide SumOf, Scatter;
    ghost var xs := Reals(closes);
    var count := |closes| as real;
    var origin := current;
    var sum := 0.0;
    SumOfPrefix(xs);
    for i := 0 to |closes|
      invariant sum == SumOf(xs[..i]) - i as real * origin as real
    {
      PrefixGrows(xs, i, 0.0);
      OneTermMore(SumOf(xs[..i]), i, xs[i], origin as real);
      sum := sum + (closes[i] - origin) as real;
    }
    assert xs[..|closes|] == xs;
    var firstMean := sum / count;
    ghost var mean := Mean(xs);
    assert sum == SumOf(xs) - count * origin as real;
    ShiftedMean(SumOf(xs), count, origin as real);
    assert firstMean == mean - origin as real;

    var deviationSum, squaredSum := 0.0, 0.0;
    for i := 0 to |closes|
      invariant deviationSum == SumOf(xs[..i]) - i as real * mean
      invariant squaredSum == Scatter(xs[..i], mean)
    {
      PrefixGrows(xs, i, mean);
      OneTermMore(SumOf(xs[..i]), i, xs[i], mean);
      var deviation := (closes[i] - origin) as real - firstMean;
      assert deviation == xs[i] - mean;
      deviationSum := deviationSum + deviation;
      squaredSum := squaredSum + deviation * deviation;
    }
    assert xs[..|closes|] == xs && mean * count == SumOf(xs);
    assert deviationSum == 0.0;
    var correction := deviationSum / count;
    var meanOffset := firstMean + correction;
    var variance := (squaredSum - deviationSum * correction) / count;
    ScatterNotNegative(xs, mean);
    assert variance == Variance(xs) && meanOffset == mean - origin as real;
    hide Mean, Variance;
    VarianceNotNegative(xs);
    if variance < 0.0 { variance := 0.0; }
    var spread := root(variance);
    var average := origin as real + meanOffset;
    MeanIsPositive(xs);
    if spread <= NEGLIGIBLE_VARIATION * average {
      r := Constant(average, spread);
    } else {
      r := Scored(average, spread, (0.0 - meanOffset) / spread);
    }
  }

  lemma OneTermMore(sum: real, i: nat, x: real, m: real)
    ensures (sum - i as real * m) + (x - m) == (sum + x) - (i + 1) as real * m
  {
    assert (i + 1) as real == i as real + 1.0;
  }

  lemma SumOfPrefix(xs: seq<real>)
    ensures SumOf(xs[..0]) == 0.0 && forall m :: Scatter(xs[..0], m) == 0.0
  {
  }

  lemma PrefixGrows(xs: seq<real>, i: nat, m: real)
    requires i < |xs|
    ensures SumOf(xs[..i + 1]) == SumOf(xs[..i]) + xs[i]
    ensures Scatter(xs[..i + 1], m) == Scatter(xs[..i], m) + (xs[i] - m) * (xs[i] - m)
  {
    assert xs[..i + 1][..i] == xs[..i];
  }

  lemma ShiftedMean(sum: real, n: real, origin: real)
    requires n > 0.0
    ensures (sum - n * origin) / n == sum / n - origin
  {
  }

  lemma VarianceNotNegative(xs: seq<real>)
    requires xs != []
    ensures Variance(xs) >= 0.0
  {
    ScatterNotNegative(xs, Mean(xs));
  }

  lemma {:induction false} PositiveSum(xs: seq<real>)
    requires forall i :: 0 <= i < |xs| ==> xs[i] > 0.0
    ensures SumOf(xs) >= 0.0 && (xs != [] ==> SumOf(xs) > 0.0)
    decreases |xs|
  {
    if xs == [] {
    } else {
      PositiveSum(xs[..|xs| - 1]);
    }
  }

  lemma MeanIsPositive(xs: seq<real>)
    requires xs != [] && forall i :: 0 <= i < |xs| ==> xs[i] > 0.0
    ensures Mean(xs) > 0.0
  {
    PositiveSum(xs);
  }

  /** |z| <= sqrt(n - 1) for a close of the window: a threshold above that can never be reached. */
  lemma ScoreIsBounded(xs: seq<real>, i: nat, root: real -> real)
    requires i < |xs| && IsRoot(root)
    ensures var r := MeasurementOf(xs, xs[i], root);
            r.Scored? ==> r.z * r.z <= |xs| as real - 1.0
  {
    var r := MeasurementOf(xs, xs[i], root);
    if r.Scored? {
      VarianceNotNegative(xs);
      Samuelson(xs, i);
      ScaledScore(xs[i] - Mean(xs), r.spread, r.z, |xs| as real - 1.0, Variance(xs));
    }
  }

  lemma ScaledScore(d: real, spread: real, z: real, bound: real, v: real)
    requires spread > 0.0 && spread * spread == v && z == d / spread && d * d <= bound * v
    ensures z * z <= bound
  {
    RealProductPositive(spread, spread, v);
    assert z * spread == d;
    assert (z * z) * v == d * d;
    assert v * (bound - z * z) == bound * v - (z * z) * v;
    RealFactorNotNegative(v, bound - z * z);
  }

  // ----- the strategy --------------------------------------------------------------------

  datatype Latch = Neutral | LowerExtreme | UpperExtreme

  /** What the latch has been through. */
  datatype Mark = Requested(side: Side) | Rearmed

  function LatchAfter(marks: seq<Mark>): Latch {
    if marks == [] || marks[|marks| - 1].Rearmed? then Neutral
    else if marks[|marks| - 1].side == BuySide then LowerExtreme
    else UpperExtreme
  }

  /** Between two requests on one side there is a rearm or a request on the other side. */
  ghost predicate NoRepeats(marks: seq<Mark>) {
    forall i :: 0 < i < |marks| && marks[i].Requested? ==> marks[i] != marks[i - 1]
  }

  class Reverter {
    const lookback: nat
    const entry: real
    const rearm: real
    const root: real -> real
    var closes: seq<Int64>
    var next: nat
    var lastTime: Option<int>
    var latch: Latch
    ghost var history: seq<int>
    ghost var marks: seq<Mark>

    ghost predicate ConfigOk() {
      lookback >= 2 && 0.0 <= rearm < entry && IsRoot(root)
    }

    ghost predicate WindowOk()
      reads this`closes, this`next, this`history
    {
      && next <= |closes| <= lookback
      && (next != 0 ==> next < |closes| == lookback)
      && Positive(closes)
      && Ints(closes[next..] + closes[..next]) == Last(history, lookback)
    }

    ghost predicate Unreachable() {
      entry * entry > lookback as real - 1.0
    }

    ghost predicate Valid()
      reads this
    {
      && ConfigOk() && WindowOk()
      && latch == LatchAfter(marks) && NoRepeats(marks)
      && (Unreachable() ==> forall m :: m in marks ==> m.Rearmed?)
    }

    /** What a measurement calls for: a request beyond a threshold not yet answered, else a rearm near the mean. */
    ghost predicate Answers(before: Latch, measured: Measurement, signal: Option<Side>, after: Latch) {
      && (signal == Some(BuySide) <==> measured.Scored? && measured.z <= -entry && before != LowerExtreme)
      && (signal == Some(SellSide) <==> measured.Scored? && measured.z >= entry && before != UpperExtreme)
      && after == match signal
                  case Some(BuySide) => LowerExtreme
                  case Some(SellSide) => UpperExtreme
                  case None => if measured.Constant? || -rearm <= measured.z <= rearm then Neutral else before
    }

    constructor (lookback: nat, entry: real, rearm: real, root: real -> real)
      requires lookback >= 2 && 0.0 <= rearm < entry && IsRoot(root)
      ensures Valid() && history == [] && marks == []
    {
      this.lookback, this.entry, this.rearm, this.root := lookback, entry, rearm, root;
      closes, next, lastTime, latch := [], 0, None, Neutral;
      history, marks := [], [];
    }

    predicate Acceptable(isBar: bool, price: Option<Int64>, time: int)
      reads this
    {
      isBar && price.Some? && price.value > 0 && (lastTime.Some? ==> time > lastTime.value)
    }

    /**
     * An acceptable bar joins the window; a full window is scored and may move the latch.
     * With an unreachable threshold no bar of any run is ever answered with a signal.
     */
    method OnMarketEvent(isBar: bool, price: Option<Int64>, time: int) returns (signal: Option<Side>)
      requires Valid()
      modifies this
      ensures Valid()
      ensures if old(Acceptable(isBar, price, time)) then
                history == old(history) + [price.value as int] && lastTime == Some(time)
              else
                && signal.None? && history == old(history) && marks == old(marks)
                && closes == old(closes) && next == old(next) && lastTime == old(lastTime) && latch == old(latch)
      ensures signal.Some? ==> marks == old(marks) + [Requested(signal.value)]
      ensures signal.None? ==> marks == old(marks) || marks == old(marks) + [Rearmed]
      ensures Unreachable() ==> signal.None?
      ensures old(Acceptable(isBar, price, time)) && |history| < lookback ==> signal.None? && latch == old(latch)
      ensures old(Acceptable(isBar, price, time)) && |history| >= lookback ==>
                && |closes| == lookback
                && Answers(old(latch), MeasurementOf(Reals(closes), price.value as real, root), signal, latch)
    {
      hide SumOf, Scatter, MeasurementOf, Last, WindowOk, NoRepeats, LatchAfter, IsRoot, Answers;
      if !isBar || price.None? { return None; }
      var close := price.value;
      if close <= 0 { return None; }
      if lastTime.Some? && time <= lastTime.value { return None; }

      var at := AcceptClose(close);
      lastTime := Some(time);
      if |closes| < lookback { return None; }
      var measured := Measure(closes, close, root);
      ScoreIsBounded(Reals(closes), at, root);
      signal := Respond(measured);
    }

    /** The latch: a request once per excursion, a rearm near the mean or in a constant window. */
    method Respond(measured: Measurement) returns (signal: Option<Side>)
      requires ConfigOk() && latch == LatchAfter(marks) && NoRepeats(marks)
      requires measured.Scored? ==> measured.z * measured.z <= lookback as real - 1.0
      modifies this`latch, this`marks
      ensures latch == LatchAfter(marks) && NoRepeats(marks)
      ensures signal.Some? ==> marks == old(marks) + [Requested(signal.value)]
      ensures signal.None? ==> marks == old(marks) || marks == old(marks) + [Rearmed]
      ensures Unreachable() ==> signal.None?
      ensures Answers(old(latch), measured, signal, latch)
    {
      if measured.Constant? {
        Rearm();
        return None;
      }
      var z := measured.z;
      var buyDue := z <= -entry && latch != LowerExtreme;
      var sellDue := z >= entry && latch != UpperExtreme;
      if !buyDue && !sellDue {
        if -rearm <= z <= rearm { Rearm(); }
        return None;
      }
      BeyondThreshold(z, entry, lookback as real - 1.0);
      signal := Some(if buyDue then BuySide else SellSide);
      latch := if buyDue then LowerExtreme else UpperExtreme;
      marks := marks + [Requested(signal.value)];
    }

    method Rearm()
      requires NoRepeats(marks)
      modifies this`latch, this`marks
      ensures latch == LatchAfter(marks) && NoRepeats(marks) && marks == old(marks) + [Rearmed]
    {
      latch := Neutral;
      marks := marks + [Rearmed];
    }

    /** Returns the slot the close went to. */
    method AcceptClose(close: Int64) returns (at: nat)
      requires ConfigOk() && WindowOk() && close > 0
      modifies this`closes, this`next, this`history
      ensures WindowOk() && history == old(history) + [close as int]
      ensures at < |closes| && closes[at] == close
      ensures |closes| == if |history| <= lookback then |history| else lookback
    {
      RingHolds(closes, next, history, lookback);
      if |closes| < lookback {
        at := |closes|;
        closes := closes + [close];
        history := history + [close as int];
        assert closes[0..] + closes[..0] == closes;
        assert Ints(closes) == history;
      } else {
        at := next;
        Overwrite(close);
      }
    }

    method Overwrite(close: Int64)
      requires ConfigOk() && WindowOk() && close > 0 && |closes| == lookback
      modifies this`closes, this`next, this`history
      ensures WindowOk() && history == old(history) + [close as int]
      ensures closes == old(closes)[old(next) := close]
    {
      hide Last, Ints;
      NextSlot(next, lookback);
      RingAdvances(closes, next, close, history);
      closes := closes[next := close];
      next := (next + 1) % lookback;
      history := history + [close as int];
    }

    /** What is measured is the last `lookback` closes, wherever the ring starts. */
    lemma WindowStatistics()
      requires WindowOk() && |closes| == lookback > 0
      ensures var window := closes[next..] + closes[..next];
              && Ints(window) == Last(history, lookback)
              && Mean(Reals(closes)) == Mean(Reals(window))
              && Variance(Reals(closes)) == Variance(Reals(window))
    {
      var a, b := Reals(closes[..next]), Reals(closes[next..]);
      assert Reals(closes) == a + b;
      assert Reals(closes[next..] + closes[..next]) == b + a;
      RotationKeepsStatistics(a, b);
    }
  }

  lemma BeyondThreshold(z: real, entry: real, bound: real)
    requires z * z <= bound && entry > 0.0 && (z <= -entry || z >= entry)
    ensures entry * entry <= bound
  {
    if z >= entry {
      SquareMono(entry, z);
    } else {
      SquareMono(entry, -z);
      assert (-z) * (-z) == z * z;
    }
  }

  lemma SquareMono(a: real, b: real)
    requires 0.0 <= a <= b
    ensures a * a <= b * b
  {
    RealProductMonotone(a, b, a);
    RealProductMonotone(a, b, b);
    assert b * a == a * b;
  }
}
