/** Moving-average crossover: a ring of closes, rolling sums in 64 bits, and the crossing rule. */
module MovingAverage {
  import opened Domain
  import opened MachineIntegers
  import opened Products
  import opened Rings

  const MICROS_PER_UNIT: int := 1_000_000

  datatype Relation = ShortAboveLong | ShortBelowLong

  // ----- windows -------------------------------------------------------------------------

  function Total(s: seq<int>): int {
    if s == [] then 0 else Total(s[..|s| - 1]) + s[|s| - 1]
  }

  lemma {:induction false} TotalOfCons(x: int, s: seq<int>)
    ensures Total([x] + s) == x + Total(s)
    decreases |s|
  {
    if s == [] {
      assert [x] + s == [x];
      assert [x][..0] == [];
    } else {
      assert ([x] + s)[..|s|] == [x] + s[..|s| - 1];
      TotalOfCons(x, s[..|s| - 1]);
    }
  }

  /** Sliding a window by one close: the newest enters, the one k back leaves. */
  lemma WindowSlides(h: seq<int>, close: int, k: nat)
    requires k > 0
    ensures Total(Last(h + [close], k)) == Total(Last(h, k)) + close - (if |h| >= k then h[|h| - k] else 0)
  {
    var g := h + [close];
    if |h| >= k {
      var kept := h[|h| - k + 1..];
      assert Last(h, k) == [h[|h| - k]] + kept;
      TotalOfCons(h[|h| - k], kept);
      assert Last(g, k) == kept + [close];
      assert (kept + [close])[..|kept|] == kept;
    } else {
      assert Last(g, k) == g && Last(h, k) == h;
      assert g[..|h|] == h;
    }
  }

  ghost predicate Bounded(s: seq<int>, max: int) {
    forall i :: 0 <= i < |s| ==> 0 < s[i] <= max
  }

  lemma {:induction false} TotalIsBounded(s: seq<int>, max: int)
    requires Bounded(s, max)
    ensures 0 <= Total(s) <= |s| * max
    decreases |s|
  {
    if s == [] {
    } else {
      TotalIsBounded(s[..|s| - 1], max);
      assert |s| * max == (|s| - 1) * max + max;
    }
  }

  // ----- the crossing rule on whole histories --------------------------------------------

  /** The sign of (short average - long average), without dividing. */
  function Relate(shortTotal: int, longTotal: int, short: nat, long: nat): Option<Relation> {
    if shortTotal * long == longTotal * short then None
    else if shortTotal * long > longTotal * short then Some(ShortAboveLong)
    else Some(ShortBelowLong)
  }

  lemma RelateIsTheSignOfTheDifference(shortTotal: int, longTotal: int, short: nat, long: nat)
    requires short > 0 && long > 0
    ensures var d := shortTotal as real / short as real - longTotal as real / long as real;
            match Relate(shortTotal, longTotal, short, long)
            case None => d == 0.0
            case Some(ShortAboveLong) => d > 0.0
            case Some(ShortBelowLong) => d < 0.0
  {
    var a, b := shortTotal as real / short as real, longTotal as real / long as real;
    var s, l := short as real, long as real;
    assert a * s == shortTotal as real && b * l == longTotal as real;
    assert (shortTotal * long) as real == a * s * l;
    assert (longTotal * short) as real == b * l * s;
    assert a * s * l - b * l * s == (a - b) * (s * l);
    assert s * l > 0.0;
    if a - b > 0.0 { assert (a - b) * (s * l) > 0.0; }
    if a - b < 0.0 { assert (b - a) * (s * l) > 0.0; }
  }

  function RelationAt(h: seq<int>, short: nat, long: nat): Option<Relation> {
    if |h| < long then None else Relate(Total(Last(h, short)), Total(Last(h, long)), short, long)
  }

  /** The nonzero relations after each accepted bar, oldest first. */
  function Relations(h: seq<int>, short: nat, long: nat): seq<Relation> {
    if h == [] then []
    else
      var now := RelationAt(h, short, long);
      Relations(h[..|h| - 1], short, long) + (if now.Some? then [now.value] else [])
  }

  function SideOf(r: Relation): Side {
    if r == ShortAboveLong then BuySide else SellSide
  }

  /** A signal for each change among consecutive nonzero relations; the first relation is silent. */
  function Crossings(rs: seq<Relation>): seq<Side> {
    if |rs| < 2 then []
    else
      Crossings(rs[..|rs| - 1])
      + (if rs[|rs| - 1] != rs[|rs| - 2] then [SideOf(rs[|rs| - 1])] else [])
  }

  lemma RelationsGrow(h: seq<int>, close: int, short: nat, long: nat)
    ensures var now := RelationAt(h + [close], short, long);
            Relations(h + [close], short, long)
            == if now.Some? then Relations(h, short, long) + [now.value] else Relations(h, short, long)
  {
    assert (h + [close])[..|h|] == h;
  }

  lemma NoRelationYet(h: seq<int>, short: nat, long: nat)
    requires |h| < long
    ensures RelationAt(h, short, long).None?
  {
  }

  lemma CrossingsGrow(rs: seq<Relation>, r: Relation)
    ensures Crossings(rs + [r])
         == Crossings(rs) + (if rs != [] && rs[|rs| - 1] != r then [SideOf(r)] else [])
  {
    assert (rs + [r])[..|rs|] == rs;
  }

  ghost predicate Alternates(sides: seq<Side>) {
    forall i :: 0 < i < |sides| ==> sides[i] != sides[i - 1]
  }

  /** Signals alternate, the last names the current relation, and the first is the opposite of the first relation. */
  ghost predicate FollowsTheCrossings(rs: seq<Relation>, sides: seq<Side>) {
    && Alternates(sides)
    && (sides != [] ==> rs != [] && sides[|sides| - 1] == SideOf(rs[|rs| - 1]) && sides[0] != SideOf(rs[0]))
    && (sides == [] ==> forall i :: 0 <= i < |rs| ==> rs[i] == rs[0])
  }

  lemma CrossingIsFollowed(rs: seq<Relation>, sides: seq<Side>, r: Relation)
    requires rs != [] && FollowsTheCrossings(rs, sides)
    ensures FollowsTheCrossings(rs + [r], sides + (if rs[|rs| - 1] != r then [SideOf(r)] else []))
  {
    var all := rs + [r];
    assert all[0] == rs[0] && all[|rs|] == r;
    if rs[|rs| - 1] == r {
      assert sides + [] == sides;
    }
  }

  /** Buy and Sell strictly alternate in any run, and the last signal names the current relation. */
  lemma {:induction false} SignalsAlternate(rs: seq<Relation>)
    ensures FollowsTheCrossings(rs, Crossings(rs))
    decreases |rs|
  {
    hide Crossings, FollowsTheCrossings, SideOf;
    if rs == [] {
      NoCrossing(rs);
    } else {
      var before, last := rs[..|rs| - 1], rs[|rs| - 1];
      assert rs == before + [last];
      SignalsAlternate(before);
      CrossingsGrow(before, last);
      if before == [] {
        NoCrossing(before);
        NoCrossing(rs);
      } else {
        CrossingIsFollowed(before, Crossings(before), last);
      }
    }
  }

  lemma NoCrossing(rs: seq<Relation>)
    requires |rs| < 2
    ensures Crossings(rs) == [] && FollowsTheCrossings(rs, [])
  {
  }

  /** The mean of the last n closes. */
  function Average(h: seq<int>, n: nat): real
    requires n > 0
  {
    Total(Last(h, n)) as real / n as real
  }

  /**
   * After a bar whose averages differ, the latest signal, if there has been one, is a buy when the short
   * average is above the long one and a sell when it is below.
   */
  lemma LatestSignalIsTheTrend(h: seq<int>, short: nat, long: nat)
    requires 0 < short < long <= |h| && Average(h, short) != Average(h, long)
    ensures var signals := Crossings(Relations(h, short, long));
            signals != [] ==>
              signals[|signals| - 1] == if Average(h, short) > Average(h, long) then BuySide else SellSide
  {
    hide Crossings, RelationAt, Average;
    TrendAt(h, short, long);
    var before := h[..|h| - 1];
    RelationsGrow(before, h[|h| - 1], short, long);
    assert before + [h[|h| - 1]] == h;
    SignalsAlternate(Relations(h, short, long));
  }

  lemma TrendAt(h: seq<int>, short: nat, long: nat)
    requires 0 < short < long <= |h| && Average(h, short) != Average(h, long)
    ensures RelationAt(h, short, long)
         == Some(if Average(h, short) > Average(h, long) then ShortAboveLong else ShortBelowLong)
  {
    hide Relate, Total, Last;
    RelateIsTheSignOfTheDifference(Total(Last(h, short)), Total(Last(h, long)), short, long);
  }

  // ----- the strategy --------------------------------------------------------------------

  /** The largest close for which every product fits: INT64_MAX divided twice by the long window. */
  function MaxCloseFor(longWindow: nat): (max: int)
    requires longWindow > 0
  {
    Quotient(Quotient(INT64_MAX, longWindow), longWindow)
  }

  /** The bound is exact: one more would not fit. */
  lemma MaxCloseIsLargest(longWindow: nat)
    requires longWindow > 0
    ensures var max := MaxCloseFor(longWindow);
            && 0 <= max
            && max * longWindow * longWindow <= INT64_MAX
            && (max + 1) * longWindow * longWindow > INT64_MAX
  {
    hide Quotient;
    var once := Quotient(INT64_MAX, longWindow);
    TwoQuotients(INT64_MAX, longWindow, once, Quotient(once, longWindow));
  }

  lemma TwoQuotients(limit: int, n: nat, once: int, twice: int)
    requires once * n <= limit < (once + 1) * n && twice * n <= once < (twice + 1) * n
    ensures twice * n * n <= limit < (twice + 1) * n * n
  {
    ProductMonotone(twice * n, once, n);
    ProductMonotone(once + 1, (twice + 1) * n, n);
  }

  /** State of one allow-listed symbol. */
  class Crossover {
    const shortWindow: nat
    const longWindow: nat
    const maxClose: Int64
    var closes: seq<Int64>
    var next: nat
    var shortSum: Int64
    var longSum: Int64
    var lastTime: Option<int>
    var relation: Option<Relation>
    ghost var history: seq<int>
    ghost var emitted: seq<Side>

    ghost function Ring(): seq<int>
      requires next <= |closes|
      reads this`closes, this`next
    {
      Ints(closes[next..] + closes[..next])
    }

    ghost predicate ConfigOk() {
      && 0 < shortWindow < longWindow
      && maxClose as int == MaxCloseFor(longWindow)
      && maxClose as int >= MICROS_PER_UNIT
    }

    ghost predicate WindowsOk()
      reads this`closes, this`next, this`shortSum, this`longSum, this`history
    {
      && next <= |closes| <= longWindow
      && (next != 0 ==> next < |closes| == longWindow)
      && Ring() == Last(history, longWindow)
      && Bounded(history, maxClose as int)
      && shortSum as int == Total(Last(history, shortWindow))
      && longSum as int == Total(Last(history, longWindow))
    }

    ghost predicate Valid()
      reads this
    {
      && ConfigOk()
      && WindowsOk()
      && var rs := Relations(history, shortWindow, longWindow);
         && emitted == Crossings(rs)
         && relation == (if rs == [] then None else Some(rs[|rs| - 1]))
    }

    constructor (shortWindow: nat, longWindow: nat)
      requires 0 < shortWindow < longWindow && MaxCloseFor(longWindow) >= MICROS_PER_UNIT
      ensures Valid() && history == [] && emitted == []
    {
      this.shortWindow, this.longWindow := shortWindow, longWindow;
      MaxCloseIsLargest(longWindow);
      MaxCloseFits(MaxCloseFor(longWindow), longWindow);
      maxClose := MaxCloseFor(longWindow) as Int64;
      closes, next, shortSum, longSum, lastTime, relation := [], 0, 0, 0, None, None;
      history, emitted := [], [];
    }

    method Reset()
      requires Valid()
      modifies this
      ensures Valid() && history == [] && emitted == []
    {
      hide ConfigOk;
      closes, next, shortSum, longSum, lastTime, relation := [], 0, 0, 0, None, None;
      history, emitted := [], [];
      EmptyWindows();
      assert Relations([], shortWindow, longWindow) == [] && Crossings([]) == [];
    }

    lemma EmptyWindows()
      requires closes == [] && next == 0 && history == [] && shortSum == 0 && longSum == 0
      ensures WindowsOk()
    {
      hide ConfigOk;
      assert Total([]) == 0;
    }

    predicate Acceptable(isBar: bool, price: Option<Int64>, time: int)
      reads this
    {
      && isBar && price.Some? && 0 < price.value <= maxClose
      && (lastTime.Some? ==> time > lastTime.value)
    }

    /** An acceptable bar joins the history and may emit its crossing; any other bar changes nothing. */
    method OnMarketEvent(isBar: bool, price: Option<Int64>, time: int) returns (signal: Option<Side>)
      requires Valid()
      modifies this
      ensures Valid()
      ensures if old(Acceptable(isBar, price, time)) then
                && history == old(history) + [price.value as int] && lastTime == Some(time)
                && emitted == old(emitted) + (if signal.Some? then [signal.value] else [])
              else signal.None? && history == old(history) && emitted == old(emitted) && lastTime == old(lastTime)
    {
      hide Total, Last, MaxCloseFor, WindowsOk, Relations, Crossings, RelationAt, ConfigOk;
      if !isBar || price.None? { return None; }
      var close := price.value;
      if close <= 0 || close > maxClose { return None; }
      if lastTime.Some? && time <= lastTime.value { return None; }

      ghost var rs := Relations(history, shortWindow, longWindow);
      RelationsGrow(history, close as int, shortWindow, longWindow);
      AcceptClose(close);
      WindowFill();
      lastTime := Some(time);
      if |closes| < longWindow {
        NoRelationYet(history, shortWindow, longWindow);
        return None;
      }
      var now := RelateSums();
      if now.None? { return None; }
      CrossingsGrow(rs, now.value);
      signal := None;
      if relation.Some? && relation != now {
        signal := Some(if now.value == ShortAboveLong then BuySide else SellSide);
        emitted := emitted + [signal.value];
      }
      relation := now;
    }

    method AcceptClose(close: Int64)
      requires ConfigOk() && WindowsOk() && 0 < close <= maxClose
      modifies this`closes, this`next, this`shortSum, this`longSum, this`history
      ensures WindowsOk() && history == old(history) + [close as int]
    {
      RingHolds(closes, next, history, longWindow);
      if |closes| < longWindow {
        Append(close);
      } else {
        Replace(close);
      }
    }

    /** Warming up: the history is a plain list. */
    method Append(close: Int64)
      requires ConfigOk() && WindowsOk() && 0 < close <= maxClose
      requires |closes| < longWindow && next == 0 && Ints(closes) == history
      modifies this`closes, this`shortSum, this`longSum, this`history
      ensures WindowsOk() && history == old(history) + [close as int]
    {
      hide Total, MaxCloseFor;
      ghost var h := history;
      WindowSlides(h, close as int, shortWindow);
      WindowSlides(h, close as int, longWindow);
      MaxCloseIsLargest(longWindow);
      SumsFit(h, close as int, shortWindow, longWindow, maxClose as int);
      closes := closes + [close];
      var count := |closes|;
      longSum := longSum + close;
      shortSum := shortSum + close;
      if count > shortWindow {
        shortSum := shortSum - closes[count - 1 - shortWindow];
      }
      history := h + [close as int];
      assert closes[0..] + closes[..0] == closes;
      assert Ints(closes) == history;
    }

    /** Full: the newest close overwrites the oldest. */
    method Replace(close: Int64)
      requires ConfigOk() && WindowsOk() && 0 < close <= maxClose
      requires |closes| == longWindow
      modifies this`closes, this`next, this`shortSum, this`longSum, this`history
      ensures WindowsOk() && history == old(history) + [close as int]
    {
      hide Total, MaxCloseFor;
      ghost var h := history;
      WindowSlides(h, close as int, shortWindow);
      WindowSlides(h, close as int, longWindow);
      MaxCloseIsLargest(longWindow);
      SumsFit(h, close as int, shortWindow, longWindow, maxClose as int);
      var leavesLong := closes[next];
      var leavesShort := closes[(next + longWindow - shortWindow) % longWindow];
      Leaving(closes, next, h, shortWindow);
      RingAdvances(closes, next, close, h);
      closes := closes[next := close];
      next := (next + 1) % longWindow;
      longSum := longSum + (close - leavesLong);
      shortSum := shortSum + (close - leavesShort);
      history := h + [close as int];
    }

    lemma WindowFill()
      requires WindowsOk()
      ensures |closes| == if |history| <= longWindow then |history| else longWindow
    {
      RingHolds(closes, next, history, longWindow);
    }

    method RelateSums() returns (r: Option<Relation>)
      requires ConfigOk() && WindowsOk() && |closes| == longWindow
      ensures r == RelationAt(history, shortWindow, longWindow)
    {
      hide Total, MaxCloseFor;
      WindowFill();
      MaxCloseIsLargest(longWindow);
      ProductsFit(history, shortWindow, longWindow, maxClose as int);
      var above := shortSum * (longWindow as Int64);
      var below := longSum * (shortWindow as Int64);
      if above == below { return None; }
      return Some(if above > below then ShortAboveLong else ShortBelowLong);
    }
  }

  // ----- range lemmas --------------------------------------------------------------------

  lemma MaxCloseFits(max: int, long: nat)
    requires long > 0 && max >= 0 && max * long * long <= INT64_MAX
    ensures max * long <= INT64_MAX && max <= INT64_MAX
    ensures max >= 1 ==> long <= INT64_MAX
  {
    ProductNotNegative(max, long);
    ProductBounds(max * long, 1, long);
    ProductBounds(max, 1, long);
    if max >= 1 { ProductMonotone(1, max, long); }
  }

  /** The closes the ring gives up are the ones leaving the two windows. */
  lemma Leaving(closes: seq<Int64>, next: nat, h: seq<int>, short: nat)
    requires 0 < short < |closes| && next < |closes|
    requires Ints(closes[next..] + closes[..next]) == Last(h, |closes|)
    ensures |h| >= |closes|
    ensures closes[next] as int == h[|h| - |closes|]
    ensures closes[(next + |closes| - short) % |closes|] as int == h[|h| - short]
  {
    var ring := closes[next..] + closes[..next];
    RingElement(closes, next, |closes| - short);
    assert ring[0] == closes[next];
    assert Ints(ring)[0] == Last(h, |closes|)[0];
    assert Ints(ring)[|closes| - short] == Last(h, |closes|)[|closes| - short];
  }

  lemma LastIsBounded(h: seq<int>, k: nat, max: int)
    requires Bounded(h, max) && max >= 0
    ensures 0 <= Total(Last(h, k)) <= k * max
  {
    hide Total;
    TotalIsBounded(Last(h, k), max);
    ProductMonotone(|Last(h, k)|, k, max);
  }

  /** Both running sums, before and after the incoming close, stay within long * max. */
  lemma SumsFit(h: seq<int>, close: int, short: nat, long: nat, max: int)
    requires Bounded(h, max) && 0 < close <= max && 0 < short < long
    requires max * long * long <= INT64_MAX
    ensures 0 <= Total(Last(h, short)) && Total(Last(h, short)) + close <= INT64_MAX
    ensures 0 <= Total(Last(h, long)) <= INT64_MAX
    ensures 0 <= Total(Last(h + [close], short)) <= INT64_MAX
    ensures 0 <= Total(Last(h + [close], long)) <= INT64_MAX
  {
    hide Total;
    MaxCloseFits(max, long);
    assert Bounded(h + [close], max);
    LastIsBounded(h, short, max);
    LastIsBounded(h, long, max);
    LastIsBounded(h + [close], short, max);
    LastIsBounded(h + [close], long, max);
    ProductMonotone(short + 1, long, max);
    ProductMonotone(short, long, max);
    assert (short + 1) * max == short * max + max;
  }

  /** Both cross-products fit int64. */
  lemma ProductsFit(h: seq<int>, short: nat, long: nat, max: int)
    requires Bounded(h, max) && 1 <= max && 0 < short < long
    requires max * long * long <= INT64_MAX
    ensures long <= INT64_MAX
    ensures 0 <= Total(Last(h, short)) * long <= INT64_MAX
    ensures 0 <= Total(Last(h, long)) * short <= INT64_MAX
  {
    hide Total;
    MaxCloseFits(max, long);
    LastIsBounded(h, short, max);
    LastIsBounded(h, long, max);
    var s, l := Total(Last(h, short)), Total(Last(h, long));
    var most := max * long;
    ProductMonotone(short, long, max);
    ProductMonotone(s, most, long);
    ProductMonotone(l, most, short);
    ProductMonotone(short, long, most);
    assert most * short == short * most && most * long == long * most;
    ProductMonotone(0, s, long);
    ProductMonotone(0, l, short);
  }
}
