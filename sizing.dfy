/**
 * Entry sizing: a fixed fraction of equity, divided by ATR, truncated to an
 * integer the way Python's `int()` truncates a float (toward zero).
 */
module Sizing {

  /** Python `int(x)` for a finite float: drops the fraction toward zero. */
  function Truncate(x: real): (n: int)
    ensures 0.0 <= x ==> 0 <= n && n as real <= x < n as real + 1.0
    ensures x < 0.0 ==> n <= 0 && n as real - 1.0 < x <= n as real
  {
    if x >= 0.0 then x.Floor else -((-x).Floor)
  }

  /** Truncation is odd: it treats a loss exactly like the matching gain. */
  lemma TruncateNegate(x: real)
    ensures Truncate(-x) == -Truncate(x)
  {
  }

  /** The amount of equity put at risk on one trade. */
  function RiskBudget(equity: real, riskPercent: real): (budget: real)
    ensures equity >= 0.0 && 0.0 <= riskPercent <= 100.0 ==> 0.0 <= budget <= equity
  {
    equity * riskPercent / 100.0
  }

  /**
   * Number of shares for an entry. Python raises on a zero ATR; the caller
   * models that error, so here ATR is non-zero. The size is zero exactly when
   * the budget covers less than one ATR move.
   */
  function PositionSize(equity: real, riskPercent: real, atr: real): (size: int)
    requires atr != 0.0
    ensures size == 0 <==> -1.0 < RiskBudget(equity, riskPercent) / atr < 1.0
  {
    Truncate(RiskBudget(equity, riskPercent) / atr)
  }

  /**
   * With a positive ATR the size is the largest whole number of shares whose
   * ATR-move stays within the risk budget (toward zero for a negative budget),
   * and it has the budget's sign.
   */
  lemma {:induction false} PositionSizeBounds(equity: real, riskPercent: real, atr: real)
    requires atr > 0.0
    ensures var size, budget := PositionSize(equity, riskPercent, atr), RiskBudget(equity, riskPercent);
      && (budget >= 0.0 ==> 0 <= size && size as real * atr <= budget < (size + 1) as real * atr)
      && (budget < 0.0 ==> size <= 0 && (size - 1) as real * atr < budget <= size as real * atr)
  {
    var size, budget := PositionSize(equity, riskPercent, atr), RiskBudget(equity, riskPercent);
    var x := budget / atr;
    assert x * atr == budget;
    assert size == Truncate(x);
    TruncateScaled(x, atr);
    if budget >= 0.0 {
      calc { size as real * atr; <= x * atr; == budget; }
      calc { budget; == x * atr; < (size + 1) as real * atr; }
    } else {
      calc { (size - 1) as real * atr; < x * atr; == budget; }
      calc { budget; == x * atr; <= size as real * atr; }
    }
  }

  /** Scaling the truncation bounds of `x` by a positive factor `c`. */
  lemma {:induction false} TruncateScaled(x: real, c: real)
    requires c > 0.0
    ensures var n := Truncate(x);
      && (0.0 <= x ==> n as real * c <= x * c < (n + 1) as real * c)
      && (x < 0.0 ==> (n - 1) as real * c < x * c <= n as real * c)
  {
    var n := Truncate(x);
    if 0.0 <= x {
      MulMonotone(n as real, x, c);
      MulMonotone(x, (n + 1) as real, c);
    } else {
      MulMonotone((n - 1) as real, x, c);
      MulMonotone(x, n as real, c);
    }
  }

  lemma MulMonotone(a: real, b: real, c: real)
    requires c > 0.0
    ensures a <= b ==> a * c <= b * c
    ensures a < b ==> a * c < b * c
  {
  }

  /** With non-negative equity and risk, a positive ATR never gives a negative size. */
  lemma PositionSizeNonNegative(equity: real, riskPercent: real, atr: real)
    requires atr > 0.0 && equity >= 0.0 && riskPercent >= 0.0
    ensures PositionSize(equity, riskPercent, atr) >= 0
  {
    PositionSizeBounds(equity, riskPercent, atr);
  }

  /** 100000 of equity at 1 percent risk with an ATR of 2 buys 500 shares. */
  lemma PositionSizeExample()
    ensures PositionSize(100000.0, 1.0, 2.0) == 500
    ensures PositionSize(100000.0, 1.0, 3.0) == 333
  {
    assert RiskBudget(100000.0, 1.0) == 1000.0;
    assert 1000.0 / 3.0 == 333.0 + 1.0 / 3.0;
  }
}
