/**
 * Long/short symmetry of the decision step. Reflecting the market (every
 * price and weekly line negated, RSI read as 100 - RSI) and the position
 * turns every long decision into the matching short one and back, provided
 * the two RSI thresholds are symmetric about 50 (30 and 70 by default).
 */
module Symmetry {
  import opened Orders
  import opened Signals
  import opened Exits
  import opened Strategy

  function MirrorSnapshot(s: Snapshot): Snapshot
  {
    s.(ema := -s.ema, emaLag1 := -s.emaLag1, emaLag2 := -s.emaLag2,
       hist := -s.hist, histLag1 := -s.histLag1, histLag2 := -s.histLag2,
       rsi := 100.0 - s.rsi, close := -s.close, ema200 := -s.ema200)
  }

  function MirrorExec(e: ExecType): ExecType
  {
    match e
    case Market => Market
    case Limit(price) => Limit(-price)
    case Stop(price) => Stop(-price)
    case Close => Close
  }

  function MirrorOrder(o: Order): Order
  {
    Order(Opposite(o.side), o.size, MirrorExec(o.exec))
  }

  function MirrorOrders(os: seq<Order>): seq<Order>
  {
    seq(|os|, i requires 0 <= i < |os| => MirrorOrder(os[i]))
  }

  /** Reflected orders, filled in full, move the position by exactly the opposite amount. */
  lemma {:induction false} MirrorOrdersNet(os: seq<Order>)
    ensures SumSigned(MirrorOrders(os)) == -SumSigned(os)
  {
    if os != [] {
      var n := |os| - 1;
      assert MirrorOrders(os)[..n] == MirrorOrders(os[..n]);
      MirrorOrdersNet(os[..n]);
    }
  }

  /** Reflecting twice gives back the original orders. */
  lemma MirrorOrdersInvolution(os: seq<Order>)
    ensures MirrorOrders(MirrorOrders(os)) == os
  {
    var back := MirrorOrders(MirrorOrders(os));
    forall i | 0 <= i < |os| ensures back[i] == os[i] {
      match os[i].exec
      case Market =>
      case Limit(price) =>
      case Stop(price) =>
      case Close =>
    }
  }

  function MirrorTarget(t: Option<real>): Option<real>
  {
    match t
    case None => None
    case Some(price) => Some(-price)
  }

  function MirrorOutcome(r: Outcome): Outcome
  {
    match r
    case Emitted(orders, target) => Emitted(MirrorOrders(orders), MirrorTarget(target))
    case Raised(e) => Raised(e)
  }

  /** Reflection swaps the two weekly states' signs and the two entry gates. */
  lemma {:induction false} GatesMirror(p: Params, s: Snapshot)
    requires p.rsiLow + p.rsiHigh == 100.0
    ensures Curr(MirrorSnapshot(s)) == -Curr(s) && Prev(MirrorSnapshot(s)) == -Prev(s)
    ensures LongEntry(p, MirrorSnapshot(s)) <==> ShortEntry(p, s)
    ensures ShortEntry(p, MirrorSnapshot(s)) <==> LongEntry(p, s)
  {
    ClassifyNegate(s.ema, s.emaLag1, s.hist, s.histLag1);
    ClassifyNegate(s.emaLag1, s.emaLag2, s.histLag1, s.histLag2);
  }

  /** The exit orders of the reflected position are the reflected exit orders. */
  lemma {:induction false} ExitOrdersMirror(p: Params, atr: real, position: int, ref: real, curr: int)
    requires position != 0
    ensures ExitOrders(p, atr, -position, -ref, -curr) == MirrorOrders(ExitOrders(p, atr, position, ref, curr))
  {
    var a, b := ExitOrders(p, atr, -position, -ref, -curr), MirrorOrders(ExitOrders(p, atr, position, ref, curr));
    assert |a| == |b|;
    forall i | 0 <= i < |a| ensures a[i] == b[i] {
    }
  }

  /** The decision step treats long and short alike. */
  lemma {:induction false} StepMirror(p: Params, s: Snapshot, equity: real, position: int, target: Option<real>)
    requires p.rsiLow + p.rsiHigh == 100.0
    ensures Step(p, MirrorSnapshot(s), equity, -position, MirrorTarget(target))
         == MirrorOutcome(Step(p, s, equity, position, target))
  {
    GatesMirror(p, s);
    EntriesExclusive(p, s);
    if s.weeklyBars >= 2 && position != 0 && target.Some? {
      ExitOrdersMirror(p, s.atr, position, target.value, Curr(s));
    }
  }

  /** The default parameters are symmetric, so the shipped strategy has no long or short bias. */
  lemma DefaultsSymmetric(s: Snapshot, equity: real, position: int, target: Option<real>)
    ensures Step(Defaults(), MirrorSnapshot(s), equity, -position, MirrorTarget(target))
         == MirrorOutcome(Step(Defaults(), s, equity, position, target))
  {
    StepMirror(Defaults(), s, equity, position, target);
  }
}
