/** What the fills a portfolio accepted over a history add up to, and which fills those can be. */
module FillHistory {
  import opened Domain
  import opened Decimals
  import opened Portfolio
  import opened Accounting
  import opened PerformanceAnalysis

  function Spent(fills: seq<Fill>): int {
    if fills == [] then 0 else fills[0].price * fills[0].quantity + fills[0].fees + Spent(fills[1..])
  }

  function NetShares(fills: seq<Fill>, symbol: Symbol): int {
    if fills == [] then 0
    else (if fills[0].symbol == symbol then fills[0].quantity else 0) + NetShares(fills[1..], symbol)
  }

  /** Over any history: cash is what was there less what the accepted fills cost, shares are their net. */
  lemma {:induction false} CashAndSharesAreTheFills(p: Account, ops: seq<Op>, symbol: Symbol)
    ensures Run(p, ops).cash == p.cash - Spent(Accepted(p, ops))
    ensures Held(Run(p, ops), symbol) == Held(p, symbol) + NetShares(Accepted(p, ops), symbol)
    decreases |ops|
  {
    hide Step, SettleFill, ApplyFill, Held, Accepted;
    if ops == [] {
      assert Accepted(p, ops) == [] by { NoneAccepted(p, ops); }
    } else {
      var next, rest := Step(p, ops[0]), Accepted(Step(p, ops[0]), ops[1..]);
      CashAndSharesAreTheFills(next, ops[1..], symbol);
      AcceptedFirst(p, ops);
      if Settles(p, ops[0]) {
        SettlementPays(p, ops[0], symbol);
        assert ([ops[0].fill] + rest)[1..] == rest;
      } else {
        OtherStepsKeepPositions(p, ops[0]);
        assert Held(next, symbol) == Held(p, symbol) by { SamePositions(p, next, symbol); }
        assert [] + rest == rest;
      }
    }
  }

  lemma NoneAccepted(p: Account, ops: seq<Op>)
    requires ops == []
    ensures Accepted(p, ops) == []
  {
  }

  lemma SamePositions(p: Account, q: Account, symbol: Symbol)
    requires p.positions == q.positions
    ensures Held(p, symbol) == Held(q, symbol)
  {
  }

  lemma SettlementPays(p: Account, op: Op, symbol: Symbol)
    requires Settles(p, op)
    ensures var after, f := Step(p, op), op.fill;
            && after.cash == p.cash - (f.price * f.quantity + f.fees)
            && Held(after, symbol) == Held(p, symbol) + if f.symbol == symbol then f.quantity else 0
  {
    hide DivRound, ReleaseForFill;
  }

  // ----- which fills are accepted --------------------------------------------------------

  function FillsOf(fills: seq<Fill>, orderId: nat): nat {
    if fills == [] then 0
    else FillsOf(fills[..|fills| - 1], orderId) + if fills[|fills| - 1].orderId == orderId then 1 else 0
  }

  /** Well formed, each id once, the fills of an order numbered from one without a gap, none after its last. */
  ghost predicate Orderly(runId: nat, fills: seq<Fill>) {
    && (forall i :: 0 <= i < |fills| ==>
          && fills[i].runId == runId && fills[i].quantity != 0 && fills[i].price > 0 && fills[i].fees >= 0
          && fills[i].sequence == 1 + FillsOf(fills[..i], fills[i].orderId))
    && (forall i, j :: 0 <= i < j < |fills| ==> fills[i].id != fills[j].id)
    && (forall i, j :: 0 <= i < j < |fills| && fills[i].orderId == fills[j].orderId ==> fills[i].status == Partial)
  }

  /** What the portfolio remembers of the fills it accepted. */
  ghost predicate Remembers(p: Account, fills: seq<Fill>) {
    && (forall id :: id in p.appliedFills <==> exists i :: 0 <= i < |fills| && fills[i].id == id)
    && (forall i :: 0 <= i < |fills| && fills[i].status == Complete ==> fills[i].orderId in p.closedOrders)
    && (forall o: nat :: o !in p.closedOrders ==> ExpectedSequence(p, o) == 1 + FillsOf(fills, o))
  }

  /** A fill is settled exactly when it is this run's, new, well formed, next in sequence, and its order not closed. */
  lemma FillIsSettledExactly(p: Account, fills: seq<Fill>, f: Fill)
    requires Remembers(p, fills)
    ensures ApplyFill(p, f).Applied? <==>
            && f.runId == p.runId && f.quantity != 0 && f.price > 0 && f.fees >= 0
            && (forall i :: 0 <= i < |fills| ==> fills[i].id != f.id)
            && f.orderId !in p.closedOrders && f.sequence == 1 + FillsOf(fills, f.orderId)
  {
    hide SettleFill, ExpectedSequence, FillsOf;
  }

  lemma SettledFillIsOrderly(p: Account, fills: seq<Fill>, f: Fill)
    requires Remembers(p, fills) && Orderly(p.runId, fills) && ApplyFill(p, f).Applied?
    ensures Orderly(p.runId, fills + [f])
  {
    hide SettleFill, ExpectedSequence, FillsOf;
    FillIsSettledExactly(p, fills, f);
    var all := fills + [f];
    forall i | 0 <= i < |all|
      ensures all[..i] == if i < |fills| then fills[..i] else fills
    {
    }
  }

  lemma OneMoreFill(fills: seq<Fill>, f: Fill, orderId: nat)
    ensures FillsOf(fills + [f], orderId) == FillsOf(fills, orderId) + if f.orderId == orderId then 1 else 0
  {
    assert (fills + [f])[..|fills|] == fills;
  }

  lemma SettledFillIsRemembered(p: Account, fills: seq<Fill>, f: Fill)
    requires Remembers(p, fills) && ApplyFill(p, f).Applied?
    ensures Remembers(SettleFill(p, f), fills + [f])
  {
    hide NextPosition, ReservedAfter, FillsOf;
    var after, all := SettleFill(p, f), fills + [f];
    assert all[|fills|] == f;
    forall id ensures id in after.appliedFills <==> exists i :: 0 <= i < |all| && all[i].id == id {
      if i :| 0 <= i < |fills| && fills[i].id == id { assert all[i].id == id; }
    }
    forall o: nat | o !in after.closedOrders ensures ExpectedSequence(after, o) == 1 + FillsOf(all, o) {
      OneMoreFill(fills, f, o);
    }
  }

  lemma OthersKeepFills(p: Account, op: Op)
    requires !Settles(p, op)
    ensures var q := Step(p, op);
            && q.appliedFills == p.appliedFills && q.lastSequence == p.lastSequence
            && p.closedOrders <= q.closedOrders && q.runId == p.runId
  {
    hide SettleFill, BuyCost, MarkPriceOf, BuyingPower, CommittedToSell;
  }

  /** Any other operation forgets nothing, and may close orders. */
  lemma OthersAreRemembered(p: Account, op: Op, fills: seq<Fill>)
    requires Remembers(p, fills) && !Settles(p, op)
    ensures Remembers(Step(p, op), fills) && Step(p, op).runId == p.runId
  {
    hide Step, FillsOf;
    OthersKeepFills(p, op);
  }

  lemma {:induction false} RunIsRemembered(p: Account, ops: seq<Op>, fills: seq<Fill>)
    requires Remembers(p, fills) && Orderly(p.runId, fills)
    ensures Remembers(Run(p, ops), fills + Accepted(p, ops)) && Orderly(p.runId, fills + Accepted(p, ops))
    decreases |ops|
  {
    hide Remembers, Orderly, Step, Accepted, ApplyFill;
    if ops == [] {
      NoneAccepted(p, ops);
      assert fills + [] == fills;
    } else {
      var rest := Accepted(Step(p, ops[0]), ops[1..]);
      AcceptedFirst(p, ops);
      if Settles(p, ops[0]) {
        FillIsTaken(p, ops[0], fills);
        RunIsRemembered(Step(p, ops[0]), ops[1..], fills + [ops[0].fill]);
        assert fills + ([ops[0].fill] + rest) == fills + [ops[0].fill] + rest;
      } else {
        OthersAreRemembered(p, ops[0], fills);
        RunIsRemembered(Step(p, ops[0]), ops[1..], fills);
        assert [] + rest == rest;
      }
    }
  }

  lemma FillIsTaken(p: Account, op: Op, fills: seq<Fill>)
    requires Settles(p, op) && Remembers(p, fills) && Orderly(p.runId, fills)
    ensures Remembers(Step(p, op), fills + [op.fill]) && Orderly(Step(p, op).runId, fills + [op.fill])
    ensures Step(p, op).runId == p.runId
  {
    hide Remembers, Orderly, NextPosition, ReservedAfter;
    SettledFillIsOrderly(p, fills, op.fill);
    SettledFillIsRemembered(p, fills, op.fill);
  }

  /** From opening cash, in any history: no fill counts twice, and those that count are in order. */
  lemma AcceptedFillsAreOrderly(runId: nat, startingCash: int, fees: FeeModel, ops: seq<Op>)
    ensures var p0 := Initial(runId, startingCash, fees);
            Orderly(runId, Accepted(p0, ops)) && Remembers(Run(p0, ops), Accepted(p0, ops))
  {
    hide Run, Accepted;
    var p0 := Initial(runId, startingCash, fees);
    RunIsRemembered(p0, ops, []);
    assert [] + Accepted(p0, ops) == Accepted(p0, ops);
  }

  // ----- what one fill does to a position ------------------------------------------------

  /**
   * Adding realises nothing but the fees and blends the average to the nearest millionth; reducing leaves
   * the average alone and realises the difference on each share closed; the rest of a flip opens at the fill.
   */
  lemma PositionMoves(pos: Position, f: Fill)
    requires f.quantity != 0
    ensures var next, x, q := NextPosition(pos, f), pos.quantity, f.quantity;
            && next.quantity == x + q
            && (x * q >= 0 ==>
                  && next.realizedPnl == pos.realizedPnl - f.fees
                  && 2 * Abs(next.averageCost * Abs(x + q) - (pos.averageCost * Abs(x) + f.price * Abs(q)))
                     <= Abs(x + q))
            && (x < 0 < q || q < 0 < x ==>
                  && next.realizedPnl == pos.realizedPnl - f.fees
                     + (if x > 0 then f.price - pos.averageCost else pos.averageCost - f.price) * Min(Abs(x), Abs(q))
                  && next.averageCost == if Abs(q) < Abs(x) then pos.averageCost
                                         else if Abs(q) == Abs(x) then 0 else f.price)
  {
    var x, q := pos.quantity, f.quantity;
    SameSign(x, q);
    if Blends(pos, q) {
      DivRoundNearest(pos.averageCost * Abs(x) + f.price * Abs(q), Abs(x + q));
      hide DivRound;
    } else {
      var n := Min(Abs(q), Abs(x));
      assert (f.price - pos.averageCost) * (n * -1) == (pos.averageCost - f.price) * n;
      assert n * 1 == n;
    }
  }

  lemma SameSign(x: int, q: int)
    requires q != 0
    ensures x * q >= 0 <==> x == 0 || (x > 0) == (q > 0)
  {
  }

  // ----- the trades of a replay ----------------------------------------------------------

  /** What each trade earned: a trade is a fill against the net of the symbol's fills before it. */
  function Trades(fills: seq<Fill>): seq<int> {
    if fills == [] then []
    else
      var before, f := fills[..|fills| - 1], fills[|fills| - 1];
      var lot := LotOf(ReplayFrom(NOTHING, before), f.symbol);
      LotsAreNet(before, f.symbol);
      Trades(before) + if Against(NetShares(before, f.symbol), f.quantity) then [TradeProfit(lot, f)] else []
  }

  predicate Against(net: int, q: int) {
    net < 0 < q || q < 0 < net
  }

  function Gains(trades: seq<int>): (nat, int) {
    if trades == [] then (0, 0)
    else
      var (n, total) := Gains(trades[..|trades| - 1]);
      var x := trades[|trades| - 1];
      if x > 0 then (n + 1, total + x) else (n, total)
  }

  function Losses(trades: seq<int>): (nat, int) {
    if trades == [] then (0, 0)
    else
      var (n, total) := Losses(trades[..|trades| - 1]);
      var x := trades[|trades| - 1];
      if x < 0 then (n + 1, total - x) else (n, total)
  }

  function FeesOf(fills: seq<Fill>): int {
    if fills == [] then 0 else FeesOf(fills[..|fills| - 1]) + fills[|fills| - 1].fees
  }

  lemma {:induction false} ReplayOneMore(r: Replay, fills: seq<Fill>, f: Fill)
    ensures ReplayFrom(r, fills + [f]) == Observe(ReplayFrom(r, fills), f)
    decreases |fills|
  {
    hide Observe;
    if fills == [] {
      assert [f][1..] == [] && fills + [f] == [f];
    } else {
      assert (fills + [f])[1..] == fills[1..] + [f];
      ReplayOneMore(Observe(r, fills[0]), fills[1..], f);
    }
  }

  lemma {:induction false} NetOneMore(fills: seq<Fill>, f: Fill, symbol: Symbol)
    ensures NetShares(fills + [f], symbol) == NetShares(fills, symbol) + if f.symbol == symbol then f.quantity else 0
    decreases |fills|
  {
    if fills == [] {
      assert [f][1..] == [] && fills + [f] == [f];
    } else {
      assert (fills + [f])[1..] == fills[1..] + [f];
      NetOneMore(fills[1..], f, symbol);
    }
  }

  lemma ObserveMovesLot(r: Replay, f: Fill, symbol: Symbol)
    ensures LotOf(Observe(r, f), symbol).quantity ==
            LotOf(r, symbol).quantity + if f.symbol == symbol then f.quantity else 0
  {
    hide DivRound, TradeProfit;
  }

  /** A lot is the net of its symbol's fills. */
  lemma {:induction false} LotsAreNet(fills: seq<Fill>, symbol: Symbol)
    ensures LotOf(ReplayFrom(NOTHING, fills), symbol).quantity == NetShares(fills, symbol)
    decreases |fills|
  {
    hide Observe;
    if fills == [] {
    } else {
      var before, f := fills[..|fills| - 1], fills[|fills| - 1];
      assert fills == before + [f];
      LotsAreNet(before, symbol);
      ReplayOneMore(NOTHING, before, f);
      NetOneMore(before, f, symbol);
      ObserveMovesLot(ReplayFrom(NOTHING, before), f, symbol);
    }
  }

  lemma OneMoreTrade(trades: seq<int>, x: int)
    ensures var (n, total) := Gains(trades); Gains(trades + [x]) == if x > 0 then (n + 1, total + x) else (n, total)
    ensures var (n, total) := Losses(trades); Losses(trades + [x]) == if x < 0 then (n + 1, total - x) else (n, total)
  {
    assert (trades + [x])[..|trades|] == trades;
  }

  lemma TradesOneMore(before: seq<Fill>, f: Fill)
    ensures !Against(NetShares(before, f.symbol), f.quantity) ==> Trades(before + [f]) == Trades(before)
    ensures LotOf(ReplayFrom(NOTHING, before), f.symbol).quantity == NetShares(before, f.symbol)
    ensures Against(NetShares(before, f.symbol), f.quantity) ==>
              Trades(before + [f]) == Trades(before) + [TradeProfit(LotOf(ReplayFrom(NOTHING, before), f.symbol), f)]
  {
    hide TradeProfit, ReplayFrom, NetShares;
    assert (before + [f])[..|before|] == before;
    LotsAreNet(before, f.symbol);
  }

  /** What is reported of the fills: each with its fees, each trade, and what winners and losers earned. */
  ghost predicate Reports(r: Replay, fills: seq<Fill>) {
    var trades := Trades(fills);
    && r.fillCount == |fills| && r.feesPaid == FeesOf(fills) && r.tradeCount == |trades|
    && (r.winners, r.grossProfit) == Gains(trades) && (r.losers, r.grossLoss) == Losses(trades)
  }

  lemma {:induction false} ReportCountsTrades(fills: seq<Fill>)
    ensures Reports(ReplayFrom(NOTHING, fills), fills)
    decreases |fills|
  {
    hide Observe, TradeProfit;
    if fills == [] {
    } else {
      var before, f := fills[..|fills| - 1], fills[|fills| - 1];
      assert fills == before + [f];
      ReportCountsTrades(before);
      ReplayOneMore(NOTHING, before, f);
      ReportOneMore(ReplayFrom(NOTHING, before), before, f);
    }
  }

  lemma ReportOneMore(r: Replay, before: seq<Fill>, f: Fill)
    requires r == ReplayFrom(NOTHING, before) && Reports(r, before)
    ensures Reports(Observe(r, f), before + [f])
  {
    hide Observe, TradeProfit, Gains, Losses, ReplayFrom, Trades, NetShares;
    TradesOneMore(before, f);
    ObserveCounts(r, f);
    assert (before + [f])[..|before|] == before;
    if Against(NetShares(before, f.symbol), f.quantity) {
      OneMoreTrade(Trades(before), TradeProfit(LotOf(r, f.symbol), f));
    }
  }

  lemma ObserveCounts(r: Replay, f: Fill)
    ensures Observe(r, f).fillCount == r.fillCount + 1 && Observe(r, f).feesPaid == r.feesPaid + f.fees
    ensures !Against(LotOf(r, f.symbol).quantity, f.quantity) ==>
              var s := Observe(r, f);
              && (s.tradeCount, s.winners, s.losers) == (r.tradeCount, r.winners, r.losers)
              && (s.grossProfit, s.grossLoss) == (r.grossProfit, r.grossLoss)
    ensures Against(LotOf(r, f.symbol).quantity, f.quantity) ==>
              var s, x := Observe(r, f), TradeProfit(LotOf(r, f.symbol), f);
              && s.tradeCount == r.tradeCount + 1
              && (s.winners, s.grossProfit) ==
                 (if x > 0 then (r.winners + 1, r.grossProfit + x) else (r.winners, r.grossProfit))
              && (s.losers, s.grossLoss) ==
                 (if x < 0 then (r.losers + 1, r.grossLoss - x) else (r.losers, r.grossLoss))
  {
    hide DivRound, TradeProfit, GrownLot, ShrunkLot;
  }

  /**
   * A trade is charged its own fees and, of the fees that opened the lot, the nearest to the share of the
   * shares it closes: all of them when it closes the lot. What is not charged stays with the shares kept.
   */
  lemma TradeIsChargedItsShare(lot: Lot, f: Fill)
    requires Against(lot.quantity, f.quantity)
    ensures var n, held := Min(Abs(lot.quantity), Abs(f.quantity)), Abs(lot.quantity);
            var gain := (if lot.quantity > 0 then f.price - lot.averageCost else lot.averageCost - f.price) * n;
            var charged := gain - f.fees - TradeProfit(lot, f);
            && 2 * Abs(charged * held - lot.openFees * n) <= held
            && (n == held ==> charged == lot.openFees)
            && (n < held ==> ShrunkLot(lot, f).openFees == lot.openFees - charged)
            && (n == held ==> ShrunkLot(lot, f).openFees == 0)
  {
    hide TradeProfit, OpeningFees, ShrunkLot, Abs, Min;
    GainIsPerShare(lot, f);
    ShareIsNearest(lot, f.quantity);
    FeesStayWithTheRest(lot, f);
  }

  lemma GainIsPerShare(lot: Lot, f: Fill)
    requires Against(lot.quantity, f.quantity)
    ensures var n := Min(Abs(lot.quantity), Abs(f.quantity));
            TradeProfit(lot, f) ==
            (if lot.quantity > 0 then f.price - lot.averageCost else lot.averageCost - f.price) * n
            - f.fees - OpeningFees(lot, f.quantity)
  {
    hide OpeningFees;
    var n := Min(Abs(lot.quantity), Abs(f.quantity));
    assert (f.price - lot.averageCost) * (n * -1) == (lot.averageCost - f.price) * n;
    assert n * 1 == n;
  }

  lemma ShareIsNearest(lot: Lot, q: int)
    requires Against(lot.quantity, q)
    ensures var n, held := Min(Abs(lot.quantity), Abs(q)), Abs(lot.quantity);
            && 2 * Abs(OpeningFees(lot, q) * held - lot.openFees * n) <= held
            && (n == held ==> OpeningFees(lot, q) == lot.openFees)
  {
    hide DivRound;
    var n, held := Min(Abs(lot.quantity), Abs(q)), Abs(lot.quantity);
    DivRoundNearest(lot.openFees * n, held);
    if n == held { DivRoundExact(lot.openFees, held); }
  }

  lemma FeesStayWithTheRest(lot: Lot, f: Fill)
    requires Against(lot.quantity, f.quantity)
    ensures var n, held := Min(Abs(lot.quantity), Abs(f.quantity)), Abs(lot.quantity);
            && (n < held ==> ShrunkLot(lot, f).openFees == lot.openFees - OpeningFees(lot, f.quantity))
            && (n == held ==> ShrunkLot(lot, f).openFees == 0)
            && n <= held
  {
    hide OpeningFees;
  }
}
