/**
 * One call of `ImprovedElderStrategy.next`: the decision step as a function
 * of its inputs (`Step`), the properties of that step, and the strategy
 * object whose `Next` method updates its fields exactly as `Step` says.
 */
module Strategy {
  import opened Orders
  import opened Signals
  import opened Sizing
  import opened Exits

  /** The Python exceptions `next` can raise; either one ends the backtest. */
  datatype PyError =
    | ZeroDivisionError  // sizing divides by an ATR of zero
    | AttributeError     // a position is open but `order_target_price` was never set

  /**
   * What a bar produces: the orders placed, in order, and the new value of
   * `order_target_price` (`None` while the attribute does not exist); or the
   * exception raised, which happens before any order is placed.
   */
  datatype Outcome = Emitted(orders: seq<Order>, target: Option<real>) | Raised(error: PyError)

  /**
   * The decision step for one bar, given the parameters, the indicator
   * snapshot, the broker's total value, the signed position size and the
   * remembered entry price. It never fails during the warm-up, places at most
   * three orders, and rewrites the remembered price only on a flat bar, to
   * that bar's close.
   */
  function Step(p: Params, s: Snapshot, equity: real, position: int, target: Option<real>): (r: Outcome)
    ensures r.Raised? ==> s.weeklyBars >= 2
    ensures r.Emitted? ==> |r.orders| <= 3
    ensures r.Emitted? && r.target != target ==> position == 0 && r.target == Some(s.close)
  {
    if s.weeklyBars < 2 then Emitted([], target)
    else if position == 0 then
      if s.atr == 0.0 then Raised(ZeroDivisionError)
      else
        var size := PositionSize(equity, p.riskPercent, s.atr);
        if LongEntry(p, s) then Emitted([Order(Buy, size, Market)], Some(s.close))
        else if ShortEntry(p, s) then Emitted([Order(Sell, size, Market)], Some(s.close))
        else Emitted([], target)
    else
      match target
      case None => Raised(AttributeError)
      case Some(ref) => Emitted(ExitOrders(p, s.atr, position, ref, Curr(s)), target)
  }

  /** An order that opens a position rather than working one off. */
  predicate IsEntry(o: Order)
  {
    o.exec == Market
  }

  /** Until two weekly EMA values exist the step does nothing at all. */
  lemma WarmupDoesNothing(p: Params, s: Snapshot, equity: real, position: int, target: Option<real>)
    requires s.weeklyBars < 2
    ensures Step(p, s, equity, position, target) == Emitted([], target)
  {
  }

  /**
   * While a position is open no entry is placed and the remembered price
   * stays as it was; the only error is a price that was never remembered.
   */
  lemma NoEntryWhileOpen(p: Params, s: Snapshot, equity: real, position: int, target: Option<real>)
    requires position != 0
    ensures Step(p, s, equity, position, target).Raised? <==> s.weeklyBars >= 2 && target == None
    ensures Step(p, s, equity, position, target).Raised? ==> Step(p, s, equity, position, target).error == AttributeError
    ensures var r := Step(p, s, equity, position, target);
      r.Emitted? ==> r.target == target && forall i :: 0 <= i < |r.orders| ==> !IsEntry(r.orders[i])
  {
  }

  /**
   * A flat bar raises exactly when ATR is zero, even if no gate passes:
   * the size is computed before the gates are looked at.
   */
  lemma FlatRaisesOnZeroAtr(p: Params, s: Snapshot, equity: real, target: Option<real>)
    ensures Step(p, s, equity, 0, target).Raised? <==> s.weeklyBars >= 2 && s.atr == 0.0
    ensures Step(p, s, equity, 0, target).Raised? ==> Step(p, s, equity, 0, target).error == ZeroDivisionError
  {
  }

  /**
   * A long entry is placed exactly when the position is flat, the warm-up is
   * over, ATR is non-zero and the long gate passes; it is a market buy of the
   * risk-based size and remembers the bar's close.
   */
  lemma LongEntryIff(p: Params, s: Snapshot, equity: real, position: int, target: Option<real>)
    ensures var r := Step(p, s, equity, position, target);
      (r.Emitted? && exists i :: 0 <= i < |r.orders| && IsEntry(r.orders[i]) && r.orders[i].side == Buy)
      <==> position == 0 && s.weeklyBars >= 2 && s.atr != 0.0 && LongEntry(p, s)
    ensures var r := Step(p, s, equity, position, target);
      position == 0 && s.weeklyBars >= 2 && s.atr != 0.0 && LongEntry(p, s) ==>
      r == Emitted([Order(Buy, PositionSize(equity, p.riskPercent, s.atr), Market)], Some(s.close))
  {
    var r := Step(p, s, equity, position, target);
    if position != 0 {
      NoEntryWhileOpen(p, s, equity, position, target);
    } else if s.weeklyBars >= 2 && s.atr != 0.0 && LongEntry(p, s) {
      assert IsEntry(r.orders[0]) && r.orders[0].side == Buy;
    }
  }

  /** The same for a short entry, a market sell. */
  lemma ShortEntryIff(p: Params, s: Snapshot, equity: real, position: int, target: Option<real>)
    ensures var r := Step(p, s, equity, position, target);
      (r.Emitted? && exists i :: 0 <= i < |r.orders| && IsEntry(r.orders[i]) && r.orders[i].side == Sell)
      <==> position == 0 && s.weeklyBars >= 2 && s.atr != 0.0 && ShortEntry(p, s)
    ensures var r := Step(p, s, equity, position, target);
      position == 0 && s.weeklyBars >= 2 && s.atr != 0.0 && ShortEntry(p, s) ==>
      r == Emitted([Order(Sell, PositionSize(equity, p.riskPercent, s.atr), Market)], Some(s.close))
  {
    var r := Step(p, s, equity, position, target);
    EntriesExclusive(p, s);
    if position != 0 {
      NoEntryWhileOpen(p, s, equity, position, target);
    } else if s.weeklyBars >= 2 && s.atr != 0.0 && ShortEntry(p, s) {
      assert IsEntry(r.orders[0]) && r.orders[0].side == Sell;
    }
  }

  /**
   * A flat bar places at most one order, and it changes the remembered price
   * only by placing an entry, to that bar's close.
   */
  lemma FlatBarAtMostOneEntry(p: Params, s: Snapshot, equity: real, target: Option<real>)
    ensures var r := Step(p, s, equity, 0, target);
      r.Emitted? ==> (
        && |r.orders| <= 1
        && (|r.orders| == 1 <==> s.weeklyBars >= 2 && (LongEntry(p, s) || ShortEntry(p, s)))
        && (|r.orders| == 1 ==> IsEntry(r.orders[0]) && r.target == Some(s.close))
        && (|r.orders| == 0 ==> r.target == target))
  {
  }

  /**
   * While a position is open and its entry price is known, every bar after
   * the warm-up places a take-profit limit and a stop-loss stop order for the
   * whole position in the closing direction, on the correct sides of the entry
   * price, and a close exactly when the weekly state has flipped against it.
   */
  lemma OpenBarBrackets(p: Params, s: Snapshot, equity: real, position: int, ref: real)
    requires position != 0 && s.weeklyBars >= 2
    requires s.atr > 0.0 && p.tpMult > 0.0 && p.slMult > 0.0
    ensures var r := Step(p, s, equity, position, Some(ref));
      && r.Emitted? && r.target == Some(ref)
      && |r.orders| == (if Flipped(position, Curr(s)) then 3 else 2)
      && r.orders[0].exec.Limit? && r.orders[1].exec.Stop?
      && (position > 0 ==> r.orders[1].exec.price < ref < r.orders[0].exec.price)
      && (position < 0 ==> r.orders[0].exec.price < ref < r.orders[1].exec.price)
      && (|r.orders| == 3 ==> r.orders[2].exec == Close)
      && forall i :: 0 <= i < |r.orders| ==> r.orders[i].size == Abs(position) && position + Signed(r.orders[i]) == 0
  {
  }

  /** A fresh flat: prior state directional, current state flat. */
  lemma EntryNeedsFreshFlat(p: Params, s: Snapshot, equity: real, target: Option<real>)
    ensures var r := Step(p, s, equity, 0, target);
      r.Emitted? && |r.orders| > 0 ==> Prev(s) != 0 && Curr(s) == 0
  {
  }

  /**
   * A previous weekly rise that fades to flat, with ADX 20, RSI 45 and the
   * close above EMA200, places no order: a long entry follows a fall, not a rise.
   */
  lemma RiseThenFlatAboveTrendStaysOut(target: Option<real>)
    ensures var s := Snapshot(weeklyBars := 30,
                              ema := 101.0, emaLag1 := 101.0, emaLag2 := 100.0,
                              hist := 0.5, histLag1 := 0.5, histLag2 := 0.2,
                              adx := 20.0, atr := 2.0, rsi := 45.0, close := 110.0, ema200 := 100.0);
      Prev(s) == 1 && Curr(s) == 0 && Step(Defaults(), s, 100000.0, 0, target) == Emitted([], target)
  {
  }

  /** The same bar after a weekly fall enters long with 500 shares at the close. */
  lemma FallThenFlatAboveTrendEntersLong(target: Option<real>)
    ensures var s := Snapshot(weeklyBars := 30,
                              ema := 99.0, emaLag1 := 99.0, emaLag2 := 100.0,
                              hist := -0.5, histLag1 := -0.5, histLag2 := -0.2,
                              adx := 20.0, atr := 2.0, rsi := 45.0, close := 110.0, ema200 := 100.0);
      Step(Defaults(), s, 100000.0, 0, target) == Emitted([Order(Buy, 500, Market)], Some(110.0))
  {
    PositionSizeExample();
  }

  /** `ImprovedElderStrategy`: its parameters, its one field, and the orders it has placed. */
  class ImprovedElderStrategy {
    const params: Params
    /** `self.order_target_price`; `None` until the first entry sets it. */
    var orderTargetPrice: Option<real>
    /** Every order intent handed to the engine so far, oldest first. */
    var orders: seq<Order>

    constructor (p: Params)
      ensures params == p && orderTargetPrice == None && orders == []
    {
      params := p;
      orderTargetPrice := None;
      orders := [];
    }

    /**
     * `next()` on one bar. Appends the bar's orders and updates the
     * remembered price as `Step` says, or returns the exception and changes
     * nothing.
     */
    method Next(s: Snapshot, brokerValue: real, positionSize: int) returns (raised: Option<PyError>)
      modifies this
      ensures match Step(params, s, brokerValue, positionSize, old(orderTargetPrice))
        case Emitted(placed, target) =>
          raised == None && orders == old(orders) + placed && orderTargetPrice == target
        case Raised(e) =>
          raised == Some(e) && orders == old(orders) && orderTargetPrice == old(orderTargetPrice)
    {
      raised := None;
      ghost var before := orders;
      if s.weeklyBars < 2 {
        return;
      }
      var curr := Classify(s.ema, s.emaLag1, s.hist, s.histLag1);
      var prev := Classify(s.emaLag1, s.emaLag2, s.histLag1, s.histLag2);

      if positionSize == 0 {
        if s.atr == 0.0 {
          raised := Some(ZeroDivisionError);
          return;
        }
        var size := Truncate(brokerValue * params.riskPercent / 100.0 / s.atr);
        assert brokerValue * params.riskPercent / 100.0 == RiskBudget(brokerValue, params.riskPercent);
        assert size == PositionSize(brokerValue, params.riskPercent, s.atr);
        assert curr == Curr(s) && prev == Prev(s);
        if prev == -1 && curr == 0 && s.adx > params.adxThreshold && s.rsi > params.rsiLow && s.close > s.ema200 {
          orders := orders + [Order(Buy, size, Market)];
          orderTargetPrice := Some(s.close);
        } else if prev == 1 && curr == 0 && s.adx > params.adxThreshold && s.rsi < params.rsiHigh && s.close < s.ema200 {
          orders := orders + [Order(Sell, size, Market)];
          orderTargetPrice := Some(s.close);
        }
      } else {
        if orderTargetPrice == None {
          raised := Some(AttributeError);
          return;
        }
        var ref := orderTargetPrice.value;
        if positionSize > 0 {
          var tp := ref + s.atr * params.tpMult;
          var sl := ref - s.atr * params.slMult;
          orders := orders + [Order(Sell, positionSize, Limit(tp))];
          orders := orders + [Order(Sell, positionSize, Stop(sl))];
          assert orders == before + [Order(Sell, positionSize, Limit(tp)), Order(Sell, positionSize, Stop(sl))];
          if curr == -1 {
            orders := orders + [Order(Sell, positionSize, Close)];
          }
          assert BracketFor(true, ref, s.atr, params.tpMult, params.slMult) == Bracket(tp, sl);
          assert orders == before + ExitOrders(params, s.atr, positionSize, ref, curr);
        } else {
          var tp := ref - s.atr * params.tpMult;
          var sl := ref + s.atr * params.slMult;
          orders := orders + [Order(Buy, -positionSize, Limit(tp))];
          orders := orders + [Order(Buy, -positionSize, Stop(sl))];
          assert orders == before + [Order(Buy, -positionSize, Limit(tp)), Order(Buy, -positionSize, Stop(sl))];
          if curr == 1 {
            orders := orders + [Order(Buy, -positionSize, Close)];
          }
          assert BracketFor(false, ref, s.atr, params.tpMult, params.slMult) == Bracket(tp, sl);
          assert orders == before + ExitOrders(params, s.atr, positionSize, ref, curr);
        }
      }
    }
  }
}
