/** The portfolio manager: the mutable object, proved against the transitions of `Portfolio`. */
module PortfolioManagement {
  import opened Domain
  import opened Decimals
  import opened MapSums
  import opened Portfolio

  function Among<K>(m: map<K, int>, keys: set<K>): map<K, int> {
    map s | s in m && s in keys :: m[s]
  }

  lemma AmongAll<K>(m: map<K, int>)
    ensures Among(m, m.Keys) == m
  {
  }

  lemma AmongNone<K>(m: map<K, int>)
    ensures Sum(Among(m, {})) == 0
  {
    assert Among(m, {}) == map[];
  }

  lemma AmongFewer<K>(m: map<K, int>, keys: set<K>, k: K)
    requires k in keys && k in m
    ensures Sum(Among(m, keys)) == m[k] + Sum(Among(m, keys - {k}))
  {
    SumRemove(Among(m, keys), k);
    assert Among(m, keys) - {k} == Among(m, keys - {k});
  }

  lemma Tables(p: Account)
    ensures MarketValues(p).Keys == GrossValues(p).Keys == p.positions.Keys
  {
  }

  lemma TableEntries(p: Account, s: Symbol)
    requires s in p.positions
    ensures MarketValues(p)[s] == MarkPrice(p, s) * p.positions[s].quantity
    ensures GrossValues(p)[s] == Abs(MarkPrice(p, s) * p.positions[s].quantity)
  {
  }

  class PortfolioManager {
    const runId: nat
    const fees: FeeModel
    var cash: int
    var positions: map<Symbol, Position>
    var marks: map<Symbol, int>
    var openOrders: map<nat, PendingOrder>
    var holds: map<nat, Hold>
    var closedOrders: set<nat>
    var appliedFills: set<nat>
    var lastSequence: map<nat, nat>

    ghost function State(): Account
      reads this
    {
      Account(runId, fees, cash, positions, marks, openOrders, holds, closedOrders, appliedFills, lastSequence)
    }

    constructor (runId: nat, startingCash: int, fees: FeeModel)
      ensures State() == Initial(runId, startingCash, fees)
    {
      this.runId, this.fees := runId, fees;
      cash, positions, marks, openOrders, holds := startingCash, map[], map[], map[], map[];
      closedOrders, appliedFills, lastSequence := {}, {}, map[];
    }

    /** Ok(false): ignored, nothing changed. Err: the fill breaks the contract, nothing changed. */
    method Apply(f: Fill) returns (result: Result<bool, FillError>)
      modifies this
      ensures match ApplyFill(old(State()), f)
        case Ignored => result == Ok(false) && State() == old(State())
        case Refused(error) => result == Err(error) && State() == old(State())
        case Applied(after) => result == Ok(true) && State() == after
    {
      if f.runId != runId || f.id in appliedFills { return Ok(false); }
      if f.quantity == 0 { return Err(ZeroQuantity); }
      if f.price <= 0 { return Err(PriceNotPositive); }
      if f.fees < 0 { return Err(NegativeFees); }
      if f.orderId in closedOrders { return Err(OrderClosed); }
      var last := 0;
      if f.orderId in lastSequence { last := lastSequence[f.orderId]; }
      if f.sequence != last + 1 { return Err(SequenceGap); }

      Settle(f);
      return Ok(true);
    }

    /** An accepted fill: reservation, cash, position, mark and sequence. */
    method Settle(f: Fill)
      requires f.quantity != 0
      modifies this
      ensures State() == SettleFill(old(State()), f)
    {
      hide NextPosition, ReleaseForFill;
      Release(f);
      cash := cash - (f.price * f.quantity + f.fees);

      var pos := FLAT;
      if f.symbol in positions { pos := positions[f.symbol]; }
      pos := Trade(pos, f);
      positions := positions[f.symbol := pos];

      marks := marks[f.symbol := f.price];
      appliedFills := appliedFills + {f.id};
      if f.status == Complete {
        lastSequence := lastSequence - {f.orderId};
        closedOrders := closedOrders + {f.orderId};
      } else {
        lastSequence := lastSequence[f.orderId := f.sequence];
      }
    }

    /** The position arithmetic of Apply: fees, then blend, or realise on the closed shares. */
    static method Trade(start: Position, f: Fill) returns (pos: Position)
      requires f.quantity != 0
      ensures pos == NextPosition(start, f)
    {
      pos := start.(realizedPnl := start.realizedPnl - f.fees);
      var oldQty := pos.quantity;
      var newQty := oldQty + f.quantity;
      if oldQty == 0 || ((oldQty > 0) == (f.quantity > 0)) {
        pos := pos.(averageCost :=
          DivRound(pos.averageCost * Abs(oldQty) + f.price * Abs(f.quantity), Abs(newQty)));
      } else {
        var closed := Min(Abs(f.quantity), Abs(oldQty));
        var direction := if oldQty > 0 then 1 else -1;
        pos := pos.(realizedPnl := pos.realizedPnl + (f.price - pos.averageCost) * (closed * direction));
        if newQty == 0 {
          pos := pos.(averageCost := 0);
        } else if (newQty > 0) != (oldQty > 0) {
          pos := pos.(averageCost := f.price);
        }
      }
      pos := pos.(quantity := newQty);
    }

    method Release(f: Fill)
      modifies this`openOrders, this`closedOrders
      ensures State() == ReleaseForFill(old(State()), f)
    {
      if f.orderId !in openOrders { return; }
      var order := openOrders[f.orderId];
      var filled := Abs(f.quantity);
      if f.status == Complete || filled >= order.remaining {
        openOrders := openOrders - {f.orderId};
        closedOrders := closedOrders + {f.orderId};
        return;
      }
      order := order.(reserved := order.reserved - DivRound(order.reserved * filled, order.remaining));
      order := order.(remaining := order.remaining - filled);
      openOrders := openOrders[f.orderId := order];
    }

    /** True when open orders or reservations changed. */
    method ApplyOrder(o: Order) returns (changed: bool)
      modifies this
      ensures State() == ApplyOrderUpdate(old(State()), o)
      ensures !changed ==> openOrders == old(openOrders) && holds == old(holds)
      ensures changed ==> openOrders != old(openOrders) || holds != old(holds)
    {
      if o.runId != runId { return false; }
      match o.status {
        case Working =>
          if o.id in openOrders || o.id in closedOrders { return false; }
          var pending := PendingOrder(o.originSignal, o.symbol, o.side, o.quantity - o.filledQuantity, 0);
          if pending.remaining <= 0 { return false; }
          if o.originSignal in holds {
            pending := pending.(reserved := holds[o.originSignal].amount);
            holds := holds - {o.originSignal};
          } else if o.side == Buy {
            var cost := Cost(o.symbol, pending.remaining, o.limitPrice);
            pending := pending.(reserved := cost.ValueOr(0));
          }
          openOrders := openOrders[o.id := pending];
          assert holds == old(holds) - {o.originSignal};
          return true;
        case Rejected =>
          changed := Close(o);
        case Cancelled =>
          changed := Close(o);
        case Expired =>
          changed := Close(o);
        case _ =>
          return false;
      }
    }

    method Close(o: Order) returns (changed: bool)
      modifies this`holds, this`openOrders, this`closedOrders
      ensures State() == CloseOrder(old(State()), o)
      ensures changed <==> o.originSignal in old(holds) || o.id in old(openOrders)
      ensures !changed ==> openOrders == old(openOrders) && holds == old(holds)
    {
      changed := o.originSignal in holds || o.id in openOrders;
      holds := holds - {o.originSignal};
      openOrders := openOrders - {o.id};
      closedOrders := closedOrders + {o.id};
    }

    method Mark(e: MarketEvent)
      modifies this`marks
      ensures State() == ApplyMark(old(State()), e)
    {
      var price := e.price;
      if price.None? && e.bid.Some? && e.ask.Some? {
        price := Some(DivRound(e.bid.value + e.ask.value, 2));
      }
      if price.None? || price.value <= 0 || e.symbol == "" { return; }
      marks := marks[e.symbol := price.value];
    }

    method Cost(symbol: Symbol, quantity: int, limitPrice: Option<int>) returns (cost: Option<int>)
      ensures cost == BuyCost(State(), symbol, quantity, limitPrice)
    {
      var notional := 0;
      if limitPrice.Some? {
        notional := limitPrice.value * quantity;
      } else {
        if symbol !in marks { return None; }
        notional := fees.hold(marks[symbol] * quantity);
      }
      var charged := fees.perShare * quantity + fees.perTrade + fees.rate(notional);
      return Some(notional + charged);
    }

    method Reserved() returns (total: int)
      ensures total == ReservedTotal(State())
    {
      var held := Total(HoldAmounts(holds));
      var ordered := Total(OrderReserves(openOrders));
      total := held + ordered;
    }

    method Committed(symbol: Symbol) returns (total: int)
      ensures total == CommittedToSell(State(), symbol)
    {
      var held := Total(SellHolds(holds, symbol));
      var ordered := Total(SellOrders(openOrders, symbol));
      total := held + ordered;
    }

    /** The risk manager's atomic check-and-hold. */
    method Reserve(signal: nat, symbol: Symbol, side: OrderSide, quantity: int, limitPrice: Option<int>)
      returns (r: Reservation)
      modifies this`holds
      ensures (State(), r) == HoldForSignal(old(State()), signal, symbol, side, quantity, limitPrice)
    {
      var reserved := Reserved();
      var power := cash - reserved;
      if signal in holds { return Reservation(true, holds[signal].amount, power); }
      if signal == 0 || quantity <= 0 { return Reservation(false, 0, power); }
      if side == Sell {
        var held := if symbol in positions then positions[symbol].quantity else 0;
        var committed := Committed(symbol);
        if quantity > held - committed { return Reservation(false, 0, power); }
        holds := holds[signal := Hold(symbol, side, quantity, 0)];
        return Reservation(true, 0, power);
      }
      var cost := Cost(symbol, quantity, limitPrice);
      if cost.None? || cost.value > power { return Reservation(false, 0, power); }
      holds := holds[signal := Hold(symbol, side, quantity, cost.value)];
      return Reservation(true, cost.value, power - cost.value);
    }

    /** The loop over the positions: each one's value, signed and unsigned. */
    method Exposures() returns (net: int, gross: int)
      ensures net == Sum(MarketValues(State())) && gross == Sum(GrossValues(State()))
    {
      hide Sum, MarketValues, GrossValues, Among;
      ghost var p := State();
      ghost var values, sizes := MarketValues(p), GrossValues(p);
      net, gross := 0, 0;
      var left := positions.Keys;
      Tables(p);
      AmongAll(values);
      AmongAll(sizes);
      while left != {}
        invariant left <= positions.Keys
        invariant net + Sum(Among(values, left)) == Sum(values)
        invariant gross + Sum(Among(sizes, left)) == Sum(sizes)
        decreases |left|
      {
        var s :| s in left;
        var mark := if s in marks then marks[s] else positions[s].averageCost;
        var value := mark * positions[s].quantity;
        TableEntries(p, s);
        AmongFewer(values, left, s);
        AmongFewer(sizes, left, s);
        net := net + value;
        gross := gross + if value < 0 then -value else value;
        left := left - {s};
      }
      AmongNone(values);
      AmongNone(sizes);
    }

    method TakeSnapshot(now: int) returns (s: Snapshot)
      ensures s == SnapshotOf(State(), now)
    {
      var reserved := Reserved();
      var net, gross := Exposures();
      var valued := map s | s in positions ::
        var mark := if s in marks then marks[s] else positions[s].averageCost;
        Valued(positions[s], (mark - positions[s].averageCost) * positions[s].quantity);
      assert valued == ValuedPositions(State());
      s := Snapshot(runId, now, cash, reserved, cash - reserved, openOrders, valued, net, gross, cash + net);
    }
  }
}
