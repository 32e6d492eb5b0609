/** Trade metrics replayed from fills, and their agreement with the portfolio's own accounting. */
module PerformanceAnalysis {
  import opened Domain
  import opened Decimals
  import opened MapSums
  import opened Portfolio
  import opened Products
  import opened Accounting

  // `openFees`: fees paid opening the shares still held
  datatype Lot = Lot(quantity: int, averageCost: int, openFees: int)

  datatype Replay = Replay(lots: map<Symbol, Lot>, fillCount: nat, feesPaid: int, tradeCount: nat,
                           winners: nat, losers: nat, grossProfit: int, grossLoss: int)

  const NOTHING := Replay(map[], 0, 0, 0, 0, 0, 0, 0)
  const NO_LOT := Lot(0, 0, 0)

  function LotOf(r: Replay, symbol: Symbol): Lot {
    if symbol in r.lots then r.lots[symbol] else NO_LOT
  }

  predicate Closes(lot: Lot, q: int) {
    lot.quantity != 0 && ((lot.quantity > 0) != (q > 0))
  }

  function GrownLot(lot: Lot, f: Fill): Lot
    requires f.quantity != 0 && !Closes(lot, f.quantity)
  {
    var total := lot.quantity + f.quantity;
    Lot(total, DivRound(lot.averageCost * lot.quantity + f.price * f.quantity, total), lot.openFees + f.fees)
  }

  function ClosedShares(lot: Lot, q: int): nat {
    Min(Abs(lot.quantity), Abs(q))
  }

  /** The opening fees carried by the shares a closing fill takes off. */
  function OpeningFees(lot: Lot, q: int): int
    requires Closes(lot, q)
  {
    DivRound(lot.openFees * ClosedShares(lot, q), Abs(lot.quantity))
  }

  function TradeProfit(lot: Lot, f: Fill): int
    requires Closes(lot, f.quantity)
  {
    (f.price - lot.averageCost) * (ClosedShares(lot, f.quantity) * (if lot.quantity > 0 then 1 else -1))
    - f.fees - OpeningFees(lot, f.quantity)
  }

  function ShrunkLot(lot: Lot, f: Fill): Lot
    requires Closes(lot, f.quantity)
  {
    var rest := lot.quantity + f.quantity;
    if Abs(f.quantity) > Abs(lot.quantity) then Lot(rest, f.price, 0)
    else if rest == 0 then NO_LOT
    else Lot(rest, lot.averageCost, lot.openFees - OpeningFees(lot, f.quantity))
  }

  function Observe(r: Replay, f: Fill): Replay {
    var lot := LotOf(r, f.symbol);
    var s := r.(fillCount := r.fillCount + 1, feesPaid := r.feesPaid + f.fees);
    if f.quantity == 0 then s.(lots := s.lots[f.symbol := lot])
    else if !Closes(lot, f.quantity) then s.(lots := s.lots[f.symbol := GrownLot(lot, f)])
    else
      var pnl := TradeProfit(lot, f);
      s.(lots := s.lots[f.symbol := ShrunkLot(lot, f)],
         tradeCount := s.tradeCount + 1,
         winners := s.winners + if pnl > 0 then 1 else 0,
         losers := s.losers + if pnl < 0 then 1 else 0,
         grossProfit := s.grossProfit + Max(pnl, 0),
         grossLoss := s.grossLoss + Max(-pnl, 0))
  }

  function ReplayFrom(r: Replay, fills: seq<Fill>): Replay
    decreases |fills|
  {
    if fills == [] then r else ReplayFrom(Observe(r, fills[0]), fills[1..])
  }

  method Analyze(fills: seq<Fill>) returns (r: Replay)
    ensures r == ReplayFrom(NOTHING, fills)
  {
    r := NOTHING;
    for i := 0 to |fills|
      invariant ReplayFrom(r, fills[i..]) == ReplayFrom(NOTHING, fills)
    {
      var f := fills[i];
      ghost var before := r;
      assert fills[i..][0] == f && fills[i..][1..] == fills[i + 1..];
      r := r.(fillCount := r.fillCount + 1, feesPaid := r.feesPaid + f.fees);
      var lot := LotOf(r, f.symbol);
      if f.quantity == 0 {
        r := r.(lots := r.lots[f.symbol := lot]);
      } else if !Closes(lot, f.quantity) {
        r := r.(lots := r.lots[f.symbol := GrownLot(lot, f)]);
      } else {
        var pnl := TradeProfit(lot, f);
        r := r.(tradeCount := r.tradeCount + 1);
        if pnl > 0 {
          r := r.(winners := r.winners + 1, grossProfit := r.grossProfit + pnl);
        } else if pnl < 0 {
          r := r.(losers := r.losers + 1, grossLoss := r.grossLoss - pnl);
        }
        r := r.(lots := r.lots[f.symbol := ShrunkLot(lot, f)]);
      }
      assert r == Observe(before, f);
    }
  }

  // ----- reconciliation ------------------------------------------------------------------

  function OpenFees(r: Replay): map<Symbol, int> {
    map s | s in r.lots :: r.lots[s].openFees
  }

  /** Both accountings tell the same story. */
  ghost predicate Reconciled(p: Account, r: Replay) {
    && r.lots.Keys == p.positions.Keys
    && (forall s :: s in r.lots ==>
          && r.lots[s].quantity == p.positions[s].quantity
          && r.lots[s].averageCost == p.positions[s].averageCost
          && (r.lots[s].quantity == 0 ==> r.lots[s].openFees == 0))
    && r.grossProfit - r.grossLoss == Sum(RealizedPnls(p)) + Sum(OpenFees(r))
  }

  /** The analyzer divides signed totals, the portfolio divides magnitudes: same average cost. */
  lemma SameAverageCost(pos: Position, lot: Lot, f: Fill)
    requires f.quantity != 0 && Blends(pos, f.quantity)
    requires lot.quantity == pos.quantity && lot.averageCost == pos.averageCost
    ensures GrownLot(lot, f).averageCost == NextPosition(pos, f).averageCost
  {
    SignedAverage(pos.averageCost, pos.quantity, f.price, f.quantity);
  }

  lemma SignedAverage(c: int, x: int, price: int, q: int)
    requires q != 0 && (x == 0 || ((x > 0) == (q > 0)))
    ensures DivRound(c * x + price * q, x + q) == DivRound(c * Abs(x) + price * Abs(q), Abs(x + q))
  {
    hide DivRound;
    if q < 0 {
      assert c * Abs(x) == -(c * x) && price * Abs(q) == -(price * q);
      DivRoundNegate(c * x + price * q, x + q);
    }
  }

  lemma FillStaysReconciled(p: Account, r: Replay, f: Fill)
    requires Reconciled(p, r) && f.quantity != 0
    ensures Reconciled(SettleFill(p, f), Observe(r, f))
  {
    hide DivRound, NextPosition, GrownLot, ShrunkLot, TradeProfit, ReleaseForFill;
    var pos, lot := PositionOf(p, f.symbol), LotOf(r, f.symbol);
    var next := NextPosition(pos, f);
    if Closes(lot, f.quantity) {
      CloseBalances(pos, lot, f);
      UpdateStaysReconciled(p, r, SettleFill(p, f), Observe(r, f), f.symbol, next, ShrunkLot(lot, f));
    } else {
      GrowthBalances(pos, lot, f);
      UpdateStaysReconciled(p, r, SettleFill(p, f), Observe(r, f), f.symbol, next, GrownLot(lot, f));
    }
  }

  lemma UpdateStaysReconciled(p: Account, r: Replay, p': Account, r': Replay, symbol: Symbol,
                              next: Position, lot: Lot)
    requires Reconciled(p, r)
    requires p'.positions == p.positions[symbol := next] && r'.lots == r.lots[symbol := lot]
    requires lot.quantity == next.quantity && lot.averageCost == next.averageCost
    requires lot.quantity == 0 ==> lot.openFees == 0
    requires (r'.grossProfit - r'.grossLoss) - (r.grossProfit - r.grossLoss)
          == next.realizedPnl - PositionOf(p, symbol).realizedPnl + (lot.openFees - LotOf(r, symbol).openFees)
    ensures Reconciled(p', r')
  {
    hide Sum;
    SumUpdate(RealizedPnls(p), symbol, next.realizedPnl);
    assert RealizedPnls(p') == RealizedPnls(p)[symbol := next.realizedPnl];
    SumUpdate(OpenFees(r), symbol, lot.openFees);
    assert OpenFees(r') == OpenFees(r)[symbol := lot.openFees];
  }

  lemma GrowthBalances(pos: Position, lot: Lot, f: Fill)
    requires f.quantity != 0 && Blends(pos, f.quantity)
    requires lot.quantity == pos.quantity && lot.averageCost == pos.averageCost
    ensures var next, grown := NextPosition(pos, f), GrownLot(lot, f);
            && next.quantity == grown.quantity != 0 && next.averageCost == grown.averageCost
            && 0 == next.realizedPnl - pos.realizedPnl + (grown.openFees - lot.openFees)
  {
    hide DivRound;
    SameAverageCost(pos, lot, f);
  }

  /** A closing fill: the profit reported plus the change in carried fees is the profit realised. */
  lemma CloseBalances(pos: Position, lot: Lot, f: Fill)
    requires f.quantity != 0 && Closes(lot, f.quantity)
    requires lot.quantity == pos.quantity && lot.averageCost == pos.averageCost
    ensures var next, shrunk := NextPosition(pos, f), ShrunkLot(lot, f);
            && next.quantity == shrunk.quantity && next.averageCost == shrunk.averageCost
            && (shrunk.quantity == 0 ==> shrunk.openFees == 0)
            && TradeProfit(lot, f) == next.realizedPnl - pos.realizedPnl + (shrunk.openFees - lot.openFees)
  {
    if Abs(f.quantity) >= Abs(lot.quantity) {
      DivRoundExact(lot.openFees, Abs(lot.quantity));
    }
  }

  ghost function Accepted(p: Account, ops: seq<Op>): seq<Fill>
    decreases |ops|
  {
    if ops == [] then []
    else
      (if ops[0].FillOp? && ApplyFill(p, ops[0].fill).Applied? then [ops[0].fill] else [])
      + Accepted(Step(p, ops[0]), ops[1..])
  }

  predicate Settles(p: Account, op: Op) {
    op.FillOp? && ApplyFill(p, op.fill).Applied?
  }

  lemma AcceptedFirst(p: Account, ops: seq<Op>)
    requires ops != []
    ensures Accepted(p, ops) ==
            (if Settles(p, ops[0]) then [ops[0].fill] else []) + Accepted(Step(p, ops[0]), ops[1..])
  {
    hide Step, ApplyFill;
  }

  /** An accepted fill reaches both accountings. */
  lemma SettlingStaysReconciled(p: Account, r: Replay, op: Op)
    requires Reconciled(p, r) && Settles(p, op)
    ensures Reconciled(Step(p, op), Observe(r, op.fill))
  {
    hide Reconciled, SettleFill, Observe;
    FillStaysReconciled(p, r, op.fill);
  }

  /** Anything else leaves the positions alone. */
  lemma OtherStepsStayReconciled(p: Account, r: Replay, op: Op)
    requires Reconciled(p, r) && !Settles(p, op)
    ensures Reconciled(Step(p, op), r)
  {
    hide Step, Sum;
    OtherStepsKeepPositions(p, op);
    assert RealizedPnls(Step(p, op)) == RealizedPnls(p);
  }

  lemma ReplayFirst(r: Replay, f: Fill, rest: seq<Fill>)
    ensures ReplayFrom(r, [f] + rest) == ReplayFrom(Observe(r, f), rest)
  {
    hide Observe;
    assert ([f] + rest)[1..] == rest;
  }

  lemma {:induction false} RunStaysReconciled(p: Account, r: Replay, ops: seq<Op>)
    requires Reconciled(p, r)
    ensures Reconciled(Run(p, ops), ReplayFrom(r, Accepted(p, ops)))
    decreases |ops|
  {
    hide Reconciled, Observe, Step, Settles;
    if ops == [] {
    } else {
      var rest := Accepted(Step(p, ops[0]), ops[1..]);
      AcceptedFirst(p, ops);
      if Settles(p, ops[0]) {
        SettlingStaysReconciled(p, r, ops[0]);
        RunStaysReconciled(Step(p, ops[0]), Observe(r, ops[0].fill), ops[1..]);
        ReplayFirst(r, ops[0].fill, rest);
      } else {
        OtherStepsStayReconciled(p, r, ops[0]);
        RunStaysReconciled(Step(p, ops[0]), r, ops[1..]);
        assert [] + rest == rest;
      }
    }
  }

  /** Any history from opening cash: lots match positions, and profit differs only by carried fees. */
  lemma AccountingsReconcile(runId: nat, startingCash: int, fees: FeeModel, ops: seq<Op>)
    ensures var p0 := Initial(runId, startingCash, fees);
            Reconciled(Run(p0, ops), ReplayFrom(NOTHING, Accepted(p0, ops)))
  {
    var p0 := Initial(runId, startingCash, fees);
    assert RealizedPnls(p0) == map[] && OpenFees(NOTHING) == map[];
    RunStaysReconciled(p0, NOTHING, ops);
  }

  predicate Flat(p: Account) {
    forall s :: s in p.positions ==> p.positions[s].quantity == 0
  }

  /** With every position flat, reported profit is exactly realised profit. */
  lemma FlatProfitsAgree(p: Account, r: Replay)
    requires Reconciled(p, r) && Flat(p)
    ensures r.grossProfit - r.grossLoss == Sum(RealizedPnls(p))
  {
    SumZero(OpenFees(r));
  }

  predicate FeesCarried(r: Replay) {
    forall s :: s in r.lots ==> r.lots[s].openFees >= 0
  }

  lemma OpeningFeesAreAShare(lot: Lot, q: int)
    requires Closes(lot, q) && lot.openFees >= 0
    ensures 0 <= OpeningFees(lot, q) <= lot.openFees
  {
    var closed, held := ClosedShares(lot, q), Abs(lot.quantity);
    ProductBounds(lot.openFees, closed, held);
    DivRoundBetween(lot.openFees * closed, held, 0, lot.openFees);
  }

  lemma ObserveCarriesFees(r: Replay, f: Fill)
    requires FeesCarried(r) && f.fees >= 0
    ensures FeesCarried(Observe(r, f))
  {
    hide DivRound, TradeProfit, OpeningFees;
    var lot := LotOf(r, f.symbol);
    if Closes(lot, f.quantity) {
      OpeningFeesAreAShare(lot, f.quantity);
    }
  }

  lemma {:induction false} ReplayCarriesFees(r: Replay, fills: seq<Fill>)
    requires FeesCarried(r) && forall f :: f in fills ==> f.fees >= 0
    ensures FeesCarried(ReplayFrom(r, fills))
    decreases |fills|
  {
    hide Observe;
    if fills == [] {
    } else {
      ObserveCarriesFees(r, fills[0]);
      ReplayCarriesFees(Observe(r, fills[0]), fills[1..]);
    }
  }

  lemma {:induction false} AcceptedFeesNotNegative(p: Account, ops: seq<Op>)
    ensures forall f :: f in Accepted(p, ops) ==> f.fees >= 0
    decreases |ops|
  {
    hide SettleFill;
    if ops == [] {
    } else {
      AcceptedFeesNotNegative(Step(p, ops[0]), ops[1..]);
    }
  }

  /** No held lot carries fees paid to open it. */
  predicate NothingCarried(r: Replay) {
    forall s :: s in r.lots ==> r.lots[s].openFees == 0
  }

  /**
   * Any history from opening cash: the profit reported is at least the profit realised, and the two
   * are equal if and only if no lot still held carries opening fees; so they are once all is sold.
   */
  lemma ProfitsAgreeExactly(runId: nat, startingCash: int, fees: FeeModel, ops: seq<Op>)
    ensures var p0 := Initial(runId, startingCash, fees);
            var p, r := Run(p0, ops), ReplayFrom(NOTHING, Accepted(p0, ops));
            && r.grossProfit - r.grossLoss >= Sum(RealizedPnls(p))
            && (r.grossProfit - r.grossLoss == Sum(RealizedPnls(p)) <==> NothingCarried(r))
            && (Flat(p) ==> r.grossProfit - r.grossLoss == Sum(RealizedPnls(p)))
  {
    hide Observe, ReplayFrom, Run, Step, Accepted;
    var p0 := Initial(runId, startingCash, fees);
    AccountingsReconcile(runId, startingCash, fees, ops);
    AcceptedFeesNotNegative(p0, ops);
    ReplayCarriesFees(NOTHING, Accepted(p0, ops));
    var r := ReplayFrom(NOTHING, Accepted(p0, ops));
    SumNonNegative(OpenFees(r));
    if Sum(OpenFees(r)) == 0 {
      assert forall s :: s in r.lots ==> OpenFees(r)[s] == r.lots[s].openFees;
    }
    if NothingCarried(r) { SumZero(OpenFees(r)); }
    if Flat(Run(p0, ops)) { FlatProfitsAgree(Run(p0, ops), r); }
  }

  /** The profits do come apart: after one buy with fees, nothing is reported and the fees are realised. */
  lemma OneBuySplitsProfits(startingCash: int, fees: FeeModel, f: Fill)
    requires f.quantity > 0 && f.price > 0 && f.fees > 0 && f.sequence == 1
    ensures var p0 := Initial(f.runId, startingCash, fees);
            var p, r := Run(p0, [FillOp(f)]), ReplayFrom(NOTHING, Accepted(p0, [FillOp(f)]));
            && r.grossProfit - r.grossLoss == 0
            && Sum(RealizedPnls(p)) == -f.fees
  {
    hide DivRound;
    var p0 := Initial(f.runId, startingCash, fees);
    var ops := [FillOp(f)];
    var p := Step(p0, ops[0]);
    assert ops[1..] == [] && Run(p0, ops) == p;
    assert Accepted(p, []) == [] && Accepted(p0, ops) == [f];
    assert [f][1..] == [] && ReplayFrom(NOTHING, [f]) == Observe(NOTHING, f);
    SumUpdate(map[], f.symbol, -f.fees);
    assert RealizedPnls(p) == map[f.symbol := -f.fees];
  }

  // ----- drawdown ------------------------------------------------------------------------

  /** The return from `peak` to `e`. */
  function Return(peak: real, e: real): real
    requires peak > 0.0
  {
    e / peak - 1.0
  }

  /** The highest of the first n values, or zero when none is positive. */
  function RunningPeak(curve: seq<real>, n: nat): (peak: real)
    requires n <= |curve|
    ensures peak >= 0.0 && forall k :: 0 <= k < n ==> curve[k] <= peak
    ensures peak > 0.0 ==> exists k :: 0 <= k < n && curve[k] == peak
  {
    if n == 0 then 0.0
    else
      var before := RunningPeak(curve, n - 1);
      if curve[n - 1] > before then curve[n - 1] else before
  }

  /** Position j is no deeper than `worst` below the running peak. */
  ghost predicate Within(curve: seq<real>, worst: real, j: nat)
    requires j < |curve|
  {
    var peak := RunningPeak(curve, j + 1);
    peak > 0.0 ==> worst <= Return(peak, curve[j])
  }

  ghost predicate SeenAt(curve: seq<real>, worst: real, j: nat)
    requires j < |curve|
  {
    var peak := RunningPeak(curve, j + 1);
    peak > 0.0 && worst == Return(peak, curve[j])
  }

  /** Zero, or lower and attained, with no lower return from the running peak anywhere. */
  ghost predicate DeepestDrawdown(curve: seq<real>, worst: real) {
    && worst <= 0.0
    && (forall j :: 0 <= j < |curve| ==> Within(curve, worst, j))
    && (worst < 0.0 ==> exists j :: 0 <= j < |curve| && SeenAt(curve, worst, j))
  }

  /** The most negative return of the curve from its running peak; values may be negative. */
  method MaxDrawdown(curve: seq<real>) returns (worst: real)
    ensures DeepestDrawdown(curve, worst)
  {
    hide Return, Within;
    var peak := 0.0;
    worst := 0.0;
    for n := 0 to |curve|
      invariant worst <= 0.0 && peak == RunningPeak(curve, n)
      invariant forall j :: 0 <= j < n ==> Within(curve, worst, j)
      invariant worst < 0.0 ==> exists j :: 0 <= j < n && SeenAt(curve, worst, j)
    {
      var e := curve[n];
      ghost var before := worst;
      if e > peak { peak := e; }
      if peak > 0.0 && Return(peak, e) < worst {
        worst := Return(peak, e);
        assert SeenAt(curve, worst, n);
      }
      assert Within(curve, worst, n) by { NowWithin(curve, worst, n); }
      forall j | 0 <= j < n ensures Within(curve, worst, j) { StillWithin(curve, before, worst, j); }
    }
  }

  lemma NowWithin(curve: seq<real>, worst: real, j: nat)
    requires j < |curve|
    requires var peak := RunningPeak(curve, j + 1); peak > 0.0 ==> worst <= Return(peak, curve[j])
    ensures Within(curve, worst, j)
  {
  }

  lemma StillWithin(curve: seq<real>, before: real, worst: real, j: nat)
    requires j < |curve| && worst <= before && Within(curve, before, j)
    ensures Within(curve, worst, j)
  {
    hide Return;
  }

  /** The contract leaves one value. */
  lemma DrawdownIsUnique(curve: seq<real>, a: real, b: real)
    requires DeepestDrawdown(curve, a) && DeepestDrawdown(curve, b)
    ensures a == b
  {
    NoneDeeper(curve, a, b);
    NoneDeeper(curve, b, a);
  }

  lemma NoneDeeper(curve: seq<real>, a: real, b: real)
    requires DeepestDrawdown(curve, a) && DeepestDrawdown(curve, b)
    ensures b <= a
  {
    hide Return;
    if a < 0.0 {
      var j :| 0 <= j < |curve| && SeenAt(curve, a, j);
      assert Within(curve, b, j);
    }
  }

  /** A fall from `from` to `to` is no deeper than `worst`, while `to` is not negative. */
  ghost predicate NotBelow(worst: real, from: real, to: real) {
    from > 0.0 && to >= 0.0 ==> worst * from <= to - from
  }

  ghost predicate NoDeeperFall(curve: seq<real>, worst: real) {
    forall i, j :: 0 <= i <= j < |curve| ==> NotBelow(worst, curve[i], curve[j])
  }

  /** While values are not negative, the drawdown bounds the fall from any earlier value, peak or not. */
  lemma NoFallIsDeeper(curve: seq<real>, worst: real)
    requires DeepestDrawdown(curve, worst)
    ensures NoDeeperFall(curve, worst)
  {
    forall i, j | 0 <= i <= j < |curve|
      ensures NotBelow(worst, curve[i], curve[j])
    {
      assert Within(curve, worst, j);
      if curve[i] > 0.0 {
        FallFromPeak(worst, curve[j], RunningPeak(curve, j + 1), curve[i]);
      }
    }
  }

  /** Below zero it does not: from 10 over 5 to -5 the drawdown is -1.5, yet from 5 to -5 the fall is -2. */
  lemma LowerStartFallsDeeperBelowZero()
    ensures var curve := [10.0, 5.0, -5.0];
            DeepestDrawdown(curve, -1.5) && Return(curve[1], curve[2]) < -1.5
  {
    var curve := [10.0, 5.0, -5.0];
    assert RunningPeak(curve, 1) == 10.0;
    assert RunningPeak(curve, 2) == 10.0;
    assert RunningPeak(curve, 3) == 10.0;
    assert SeenAt(curve, -1.5, 2);
  }

  lemma FallFromPeak(w: real, e: real, peak: real, x: real)
    requires 0.0 < x <= peak && w <= Return(peak, e)
    ensures NotBelow(w, x, e)
  {
    var share := e / peak;
    assert share * peak == e;
    if e >= 0.0 {
      assert share >= 0.0;
      assert share * (peak - x) >= 0.0;
      assert (share - 1.0 - w) * x >= 0.0;
    }
  }
}
