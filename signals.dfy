/**
 * The inputs of one decision step (strategy parameters and the indicator
 * values of the current bar) and the weekly trend classifier with the two
 * entry gates built on it.
 */
module Signals {

  /** `ImprovedElderStrategy.params`. The periods only configure indicators. */
  datatype Params = Params(
    emaLen: nat, macdFast: nat, macdSlow: nat, macdSignal: nat,
    adxLen: nat, adxThreshold: real,
    atrLen: nat, riskPercent: real,
    tpMult: real, slMult: real,
    rsiPeriod: nat, rsiLow: real, rsiHigh: real,
    emaTrend: nat)

  function Defaults(): (p: Params)
    ensures p.tpMult > p.slMult > 0.0
    ensures p.rsiLow < p.rsiHigh && p.rsiLow + p.rsiHigh == 100.0
    ensures p.macdFast < p.macdSlow
  {
    Params(
      emaLen := 13, macdFast := 12, macdSlow := 26, macdSignal := 9,
      adxLen := 14, adxThreshold := 15.0,
      atrLen := 14, riskPercent := 1.0,
      tpMult := 1.5, slMult := 1.0,
      rsiPeriod := 14, rsiLow := 30.0, rsiHigh := 70.0,
      emaTrend := 200)
  }

  /**
   * The indicator values `next` reads on one bar, as the engine supplies
   * them. `weeklyBars` is `len(self.emaW)`; the `Lag1`/`Lag2` fields are the
   * values at index -1 and -2 of the weekly lines. Daily values are at index 0.
   */
  datatype Snapshot = Snapshot(
    weeklyBars: nat,
    ema: real, emaLag1: real, emaLag2: real,
    hist: real, histLag1: real, histLag2: real,
    adx: real,
    atr: real, rsi: real, close: real, ema200: real)

  /**
   * Ternary weekly state from two consecutive weekly EMA values and two
   * consecutive MACD-histogram values: 1 when both rose strictly, -1 when both
   * fell strictly, 0 for any mixed move or tie.
   */
  function Classify(ema: real, emaBefore: real, hist: real, histBefore: real): (r: int)
    ensures r == 1 || r == 0 || r == -1
    ensures r == 1 <==> ema > emaBefore && hist > histBefore
    ensures r == -1 <==> ema < emaBefore && hist < histBefore
    ensures r == 0 <==> !(ema > emaBefore && hist > histBefore) && !(ema < emaBefore && hist < histBefore)
  {
    if ema > emaBefore && hist > histBefore then 1
    else if ema < emaBefore && hist < histBefore then -1
    else 0
  }

  /** A tie in either line can never give a directional state. */
  lemma ClassifyTieIsFlat(ema: real, emaBefore: real, hist: real, histBefore: real)
    requires ema == emaBefore || hist == histBefore
    ensures Classify(ema, emaBefore, hist, histBefore) == 0
  {
  }

  /** Reflecting both lines reverses the state: the classifier has no long bias. */
  lemma ClassifyNegate(ema: real, emaBefore: real, hist: real, histBefore: real)
    ensures Classify(-ema, -emaBefore, -hist, -histBefore) == -Classify(ema, emaBefore, hist, histBefore)
  {
  }

  /**
   * The state of the current weekly bar; it is directional only when both
   * weekly lines moved strictly since the previous weekly bar.
   */
  function Curr(s: Snapshot): (r: int)
    ensures r == 1 || r == 0 || r == -1
    ensures r != 0 ==> s.ema != s.emaLag1 && s.hist != s.histLag1
  {
    Classify(s.ema, s.emaLag1, s.hist, s.histLag1)
  }

  /** The snapshot as it was one weekly bar earlier, as far as the weekly lines go. */
  function ShiftBack(s: Snapshot): Snapshot
  {
    s.(ema := s.emaLag1, emaLag1 := s.emaLag2, hist := s.histLag1, histLag1 := s.histLag2)
  }

  /** The state of the previous weekly bar: the current-bar rule shifted back one bar. */
  function Prev(s: Snapshot): (r: int)
    ensures r == Curr(ShiftBack(s))
  {
    Classify(s.emaLag1, s.emaLag2, s.histLag1, s.histLag2)
  }

  /** Long entry: a weekly fall faded to flat, in a strong trend, not oversold, above EMA200. */
  predicate LongEntry(p: Params, s: Snapshot)
    ensures LongEntry(p, s) ==> s.emaLag1 < s.emaLag2 && s.histLag1 < s.histLag2 && s.close > s.ema200
  {
    Prev(s) == -1 && Curr(s) == 0 && s.adx > p.adxThreshold && s.rsi > p.rsiLow && s.close > s.ema200
  }

  /** Short entry: a weekly rise faded to flat, in a strong trend, not overbought, below EMA200. */
  predicate ShortEntry(p: Params, s: Snapshot)
    ensures ShortEntry(p, s) ==> s.emaLag1 > s.emaLag2 && s.histLag1 > s.histLag2 && s.close < s.ema200
  {
    Prev(s) == 1 && Curr(s) == 0 && s.adx > p.adxThreshold && s.rsi < p.rsiHigh && s.close < s.ema200
  }

  /**
   * The long gate spelled out in the raw indicator values: the previous
   * weekly bar fell in both lines, the current one moved neither strictly up
   * in both nor strictly down in both, and the three filters pass.
   */
  lemma LongEntryMeans(p: Params, s: Snapshot)
    ensures LongEntry(p, s) <==>
      && s.emaLag1 < s.emaLag2 && s.histLag1 < s.histLag2
      && !(s.ema > s.emaLag1 && s.hist > s.histLag1)
      && !(s.ema < s.emaLag1 && s.hist < s.histLag1)
      && s.adx > p.adxThreshold && s.rsi > p.rsiLow && s.close > s.ema200
  {
  }

  lemma ShortEntryMeans(p: Params, s: Snapshot)
    ensures ShortEntry(p, s) <==>
      && s.emaLag1 > s.emaLag2 && s.histLag1 > s.histLag2
      && !(s.ema > s.emaLag1 && s.hist > s.histLag1)
      && !(s.ema < s.emaLag1 && s.hist < s.histLag1)
      && s.adx > p.adxThreshold && s.rsi < p.rsiHigh && s.close < s.ema200
  {
  }

  /** The two gates never pass on the same bar. */
  lemma EntriesExclusive(p: Params, s: Snapshot)
    ensures !(LongEntry(p, s) && ShortEntry(p, s))
  {
  }
}
