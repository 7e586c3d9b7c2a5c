/**
 * What `next` does while a position is open: a take-profit limit order and
 * a stop-loss stop order around the remembered entry price, re-sent on every
 * bar, and a full close when the weekly state turns against the position.
 */
module Exits {
  import opened Orders
  import opened Signals

  /** Take-profit and stop-loss prices. */
  datatype Bracket = Bracket(takeProfit: real, stopLoss: real)

  /**
   * Bracket around the reference price `ref` for a long (`long`) or short
   * position: the profit side lies `tpMult` ATRs away in the position's favour
   * and the loss side `slMult` ATRs away against it.
   */
  function BracketFor(long: bool, ref: real, atr: real, tpMult: real, slMult: real): (b: Bracket)
    ensures atr > 0.0 && tpMult > 0.0 && slMult > 0.0 ==>
      if long then b.stopLoss < ref < b.takeProfit else b.takeProfit < ref < b.stopLoss
    ensures (if long then b.takeProfit - ref else ref - b.takeProfit) == atr * tpMult
    ensures (if long then ref - b.stopLoss else b.stopLoss - ref) == atr * slMult
  {
    if long then Bracket(ref + atr * tpMult, ref - atr * slMult)
    else Bracket(ref - atr * tpMult, ref + atr * slMult)
  }

  /** The short bracket is the long bracket reflected about the reference price. */
  lemma BracketMirror(ref: real, atr: real, tpMult: real, slMult: real)
    ensures BracketFor(false, ref, atr, tpMult, slMult).takeProfit == 2.0 * ref - BracketFor(true, ref, atr, tpMult, slMult).takeProfit
    ensures BracketFor(false, ref, atr, tpMult, slMult).stopLoss == 2.0 * ref - BracketFor(true, ref, atr, tpMult, slMult).stopLoss
  {
  }

  /**
   * Reward against risk: the distance to the target is `tpMult / slMult`
   * times the distance to the stop (1.5 with the default parameters).
   */
  lemma RewardToRisk(long: bool, ref: real, atr: real)
    requires atr > 0.0
    ensures var p := Defaults(); var b := BracketFor(long, ref, atr, p.tpMult, p.slMult);
      (if long then b.takeProfit - ref else ref - b.takeProfit) == 1.5 * (if long then ref - b.stopLoss else b.stopLoss - ref)
  {
  }

  /** The weekly state has turned against the open position. */
  predicate Flipped(position: int, curr: int)
    ensures Flipped(position, curr) ==> position * curr < 0
    ensures (curr == 1 || curr == -1) && position * curr < 0 ==> Flipped(position, curr)
  {
    (position > 0 && curr == -1) || (position < 0 && curr == 1)
  }

  /** The orders `next` places on a bar while `position` is open. */
  function ExitOrders(p: Params, atr: real, position: int, ref: real, curr: int): (r: seq<Order>)
    requires position != 0
    ensures |r| == if Flipped(position, curr) then 3 else 2
    ensures forall i :: 0 <= i < |r| ==> r[i].side == ClosingSide(position) && r[i].size == Abs(position)
    ensures forall i :: 0 <= i < |r| ==> position + Signed(r[i]) == 0
    ensures var b := BracketFor(position > 0, ref, atr, p.tpMult, p.slMult);
      r[0].exec == Limit(b.takeProfit) && r[1].exec == Stop(b.stopLoss)
    ensures |r| == 3 ==> r[2].exec == Close
  {
    var side, size := ClosingSide(position), Abs(position);
    var b := BracketFor(position > 0, ref, atr, p.tpMult, p.slMult);
    [Order(side, size, Limit(b.takeProfit)), Order(side, size, Stop(b.stopLoss))]
      + (if Flipped(position, curr) then [Order(side, size, Close)] else [])
  }

  /** The net change of position if every order in `os` were filled in full. */
  function SumSigned(os: seq<Order>): int
  {
    if os == [] then 0 else SumSigned(os[..|os| - 1]) + Signed(os[|os| - 1])
  }

  /**
   * The bracket legs are independent orders, each for the whole position, not
   * one-cancels-other: if every order of one bar were filled the position
   * would not end flat but reversed (twice over when the close is added).
   */
  lemma {:induction false} ExitOrdersAllFilled(p: Params, atr: real, position: int, ref: real, curr: int)
    requires position != 0
    ensures var os := ExitOrders(p, atr, position, ref, curr);
      position + SumSigned(os) == (1 - |os|) * position
  {
    var os := ExitOrders(p, atr, position, ref, curr);
    assert os[..1][..0] == [];
    assert SumSigned(os[..1]) == Signed(os[0]) == -position;
    assert os[..2][..1] == os[..1];
    assert SumSigned(os[..2]) == SumSigned(os[..1]) + Signed(os[1]) == -2 * position;
    if |os| == 3 {
      assert os[..3] == os;
      assert os[..2] == os[..|os| - 1];
    } else {
      assert os[..2] == os;
    }
  }
}
