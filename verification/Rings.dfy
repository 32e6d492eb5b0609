/** A ring of the most recent closes, and what it holds of the whole history. */
module Rings {
  import opened MachineIntegers
  import opened Products

  /** The last k elements, or all of them while there are fewer. */
  function Last<T>(h: seq<T>, k: nat): seq<T> {
    if |h| <= k then h else h[|h| - k..]
  }

  function Ints(s: seq<Int64>): (r: seq<int>)
    ensures |r| == |s| && forall i :: 0 <= i < |s| ==> r[i] == s[i] as int
  {
    seq(|s|, i requires 0 <= i < |s| => s[i] as int)
  }

  lemma RingHolds(closes: seq<Int64>, next: nat, h: seq<int>, long: nat)
    requires next <= |closes| <= long && (next != 0 ==> next < |closes| == long)
    requires Ints(closes[next..] + closes[..next]) == Last(h, long)
    ensures |closes| == if |h| <= long then |h| else long
    ensures |closes| < long ==> next == 0 && Ints(closes) == h
  {
    if |closes| < long {
      assert closes[0..] + closes[..0] == closes;
    }
  }

  lemma RingElement(closes: seq<Int64>, next: nat, j: nat)
    requires next < |closes| && j < |closes|
    ensures (closes[next..] + closes[..next])[j] == closes[(next + j) % |closes|]
  {
    WrapAround(next + j, |closes|);
  }

  lemma NextSlot(next: nat, n: nat)
    requires next < n
    ensures (next + 1) % n == if next + 1 == n then 0 else next + 1
  {
  }

  lemma RingAdvances(closes: seq<Int64>, next: nat, close: Int64, h: seq<int>)
    requires next < |closes|
    requires Ints(closes[next..] + closes[..next]) == Last(h, |closes|)
    ensures var after := (next + 1) % |closes|;
            var moved := closes[next := close];
            Ints(moved[after..] + moved[..after]) == Last(h + [close as int], |closes|)
  {
    var n := |closes|;
    NextSlot(next, n);
    var after := (next + 1) % n;
    var moved := closes[next := close];
    assert |h| >= n;
    if next + 1 == n {
      assert after == 0;
      assert moved[after..] + moved[..after] == closes[..next] + [close];
    } else {
      assert after == next + 1;
      assert moved[after..] + moved[..after] == closes[next + 1..] + closes[..next] + [close];
    }
    assert (closes[next..] + closes[..next])[1..] + [close] == moved[after..] + moved[..after];
    assert Last(h + [close as int], n) == Last(h, n)[1..] + [close as int];
  }
}
