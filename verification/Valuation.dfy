/** What a mark does to the value of a portfolio, and how its exposures, equity and power hang together. */
module Valuation {
  import opened Domain
  import opened Decimals
  import opened MapSums
  import opened Portfolio
  import opened Accounting

  predicate Marks(e: MarketEvent) {
    && e.symbol != ""
    && if e.price.Some? then e.price.value > 0 else e.bid.Some? && e.ask.Some? && e.bid.value + e.ask.value > 0
  }

  /** A market event marks its symbol at its trade price, else at the midpoint of its quote, if that is positive. */
  lemma MarketMarks(p: Account, e: MarketEvent)
    ensures var after := ApplyMark(p, e);
            && after == p.(marks := after.marks)
            && (Marks(e) && e.price.Some? ==> after.marks == p.marks[e.symbol := e.price.value])
            && (Marks(e) && e.price.None? ==>
                  exists mid :: 0 <= 2 * mid - (e.bid.value + e.ask.value) <= 1
                                && after.marks == p.marks[e.symbol := mid])
            && (!Marks(e) ==> after == p)
  {
    if e.price.None? && e.bid.Some? && e.ask.Some? {
      var sum, mid := e.bid.value + e.ask.value, DivRound(e.bid.value + e.ask.value, 2);
      DivRoundNearest(sum, 2);
      hide DivRound;
      if sum > 0 && e.symbol != "" {
        assert 2 * mid - sum in {0, 1} && ApplyMark(p, e).marks == p.marks[e.symbol := mid];
      }
    }
  }

  function MarkIn(p: Account, symbol: Symbol): int
    requires symbol in p.positions
  {
    if symbol in p.marks then p.marks[symbol] else p.positions[symbol].averageCost
  }

  /** A new mark revalues the position in its symbol and no other, and equity moves by that. */
  lemma MarkRevalues(p: Account, symbol: Symbol, mark: int, asOf: int)
    requires symbol in p.positions
    ensures var before, after := SnapshotOf(p, asOf), SnapshotOf(p.(marks := p.marks[symbol := mark]), asOf);
            var pos := p.positions[symbol];
            && after.positions == before.positions[symbol := Valued(pos, (mark - pos.averageCost) * pos.quantity)]
            && after.totalEquity - before.totalEquity == (mark - MarkIn(p, symbol)) * pos.quantity
            && after.cash == before.cash && after.buyingPower == before.buyingPower
  {
    var q := p.(marks := p.marks[symbol := mark]);
    var pos := p.positions[symbol];
    MarkMovesValues(p, symbol, mark);
    MarkMovesPnl(p, symbol, mark);
    hide Sum, MarketValues, ValuedPositions;
    SumUpdate(MarketValues(p), symbol, mark * pos.quantity);
    assert mark * pos.quantity - MarkIn(p, symbol) * pos.quantity == (mark - MarkIn(p, symbol)) * pos.quantity;
  }

  lemma MarkMovesValues(p: Account, symbol: Symbol, mark: int)
    requires symbol in p.positions
    ensures var q := p.(marks := p.marks[symbol := mark]);
            && MarketValues(p)[symbol] == MarkIn(p, symbol) * p.positions[symbol].quantity
            && MarketValues(q) == MarketValues(p)[symbol := mark * p.positions[symbol].quantity]
  {
    OthersKeepTheirMark(p, symbol, mark);
    hide MarkPrice, MarkIn;
  }

  lemma MarkMovesPnl(p: Account, symbol: Symbol, mark: int)
    requires symbol in p.positions
    ensures ValuedPositions(p.(marks := p.marks[symbol := mark])) ==
            ValuedPositions(p)[symbol := Valued(p.positions[symbol],
              (mark - p.positions[symbol].averageCost) * p.positions[symbol].quantity)]
  {
    OthersKeepTheirMark(p, symbol, mark);
    hide MarkPrice, MarkIn;
  }

  lemma OthersKeepTheirMark(p: Account, symbol: Symbol, mark: int)
    requires symbol in p.positions
    ensures var q := p.(marks := p.marks[symbol := mark]);
            && MarkPrice(p, symbol) == MarkIn(p, symbol) && MarkPrice(q, symbol) == mark
            && forall s :: s in p.positions && s != symbol ==> MarkPrice(q, s) == MarkPrice(p, s)
  {
  }

  /** A fill marks its symbol: right after it, the position is worth what it would sell for at that price. */
  lemma FillMarksItsSymbol(p: Account, f: Fill, asOf: int)
    requires f.quantity != 0
    ensures var after := SettleFill(p, f);
            && f.symbol in after.positions
            && SnapshotOf(after, asOf).positions[f.symbol].unrealizedPnl
               == (f.price - after.positions[f.symbol].averageCost) * (Held(p, f.symbol) + f.quantity)
  {
    hide DivRound, ReleaseForFill;
  }

  // ----- exposures -----------------------------------------------------------------------

  function Longs(p: Account): map<Symbol, int> {
    map s | s in p.positions :: Max(MarkIn(p, s) * p.positions[s].quantity, 0)
  }

  function Shorts(p: Account): map<Symbol, int> {
    map s | s in p.positions :: Max(-(MarkIn(p, s) * p.positions[s].quantity), 0)
  }

  function Negated(m: map<Symbol, int>): map<Symbol, int> {
    map s | s in m :: -m[s]
  }

  lemma {:induction false} SumNegated(m: map<Symbol, int>)
    ensures Sum(Negated(m)) == -Sum(m)
    decreases |m|
  {
    if m == map[] {
    } else {
      var s :| s in m;
      SumRemove(m, s);
      SumRemove(Negated(m), s);
      assert Negated(m) - {s} == Negated(m - {s});
      SumNegated(m - {s});
    }
  }

  /** Net is long less short, gross is long plus short; equity is cash and net, power is cash less reserved. */
  lemma ExposuresAreLongAndShort(p: Account, asOf: int)
    ensures var s := SnapshotOf(p, asOf);
            && s.netExposure == Sum(Longs(p)) - Sum(Shorts(p))
            && s.grossExposure == Sum(Longs(p)) + Sum(Shorts(p))
            && Sum(Longs(p)) >= 0 && Sum(Shorts(p)) >= 0
            && s.totalEquity == p.cash + s.netExposure
            && s.buyingPower == p.cash - s.reserved
            && s.reserved == Sum(HoldAmounts(p.holds)) + Sum(OrderReserves(p.openOrders))
  {
    hide Sum, HoldAmounts, OrderReserves;
    SumOfSums(Longs(p), Shorts(p), GrossValues(p));
    SumOfSums(Longs(p), Negated(Shorts(p)), MarketValues(p));
    SumNegated(Shorts(p));
    SumNonNegative(Longs(p));
    SumNonNegative(Shorts(p));
  }
}
