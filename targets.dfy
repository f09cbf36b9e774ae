/**
 * Take-profit and stop-loss levels for a signal (scanner.py:259-282).
 * Prices are exact reals; IEEE rounding is not modelled.
 */
module Targets {
  import opened Wrappers
  import opened Market

  /** The pip value assumed when a signal carries none (a forex pip). */
  const DefaultPipValue: real := 10000.0
  const BaseTakeProfitPips: real := 20.0
  const StopLossPips: real := 15.0
  const HighVolatilityPips: real := 25.0
  const LowVolatilityPips: real := 15.0
  /** Volatility in pips above which the target widens, and below which it narrows. */
  const HighVolatility: real := 15.0
  const LowVolatility: real := 8.0

  datatype Levels = Levels(tp: real, sl: real, pips: real)

  function PipValueOf(s: Signal): real
  {
    match s.pipValue
    case Some(p) => p
    case None => DefaultPipValue
  }

  /** Take-profit distance in pips: 20, or 25 / 15 when the signal's ATR shows high / low volatility. */
  function TakeProfitPips(s: Signal): (pips: real)
    ensures pips == LowVolatilityPips || pips == BaseTakeProfitPips || pips == HighVolatilityPips
    ensures s.atr.None? ==> pips == BaseTakeProfitPips
  {
    match s.atr
    case None => BaseTakeProfitPips
    case Some(atr) =>
      var volatility := atr * PipValueOf(s);
      if volatility > HighVolatility then HighVolatilityPips
      else if volatility < LowVolatility then LowVolatilityPips
      else BaseTakeProfitPips
  }

  /**
   * `calculate_targets`: the stop is always 15 pips from the entry and the
   * target 15, 20 or 25 pips, on the side the direction calls for; the third
   * component is the target distance expressed in pips.
   */
  function CalculateTargets(s: Signal, price: real): (t: Levels)
    requires PipValueOf(s) != 0.0
    ensures t.pips == TakeProfitPips(s)
    ensures t.pips == 15.0 || t.pips == 20.0 || t.pips == 25.0
    ensures s.atr.None? ==> t.pips == 20.0
    ensures PipValueOf(s) > 0.0 && s.direction == Buy ==> t.sl < price < t.tp
    ensures PipValueOf(s) > 0.0 && s.direction == Sell ==> t.tp < price < t.sl
    ensures (if s.direction == Buy then price - t.sl else t.sl - price) == 15.0 / PipValueOf(s)
    ensures (if s.direction == Buy then t.tp - price else price - t.tp) == t.pips / PipValueOf(s)
  {
    var pipValue := PipValueOf(s);
    var baseTp := TakeProfitPips(s) / pipValue;
    var baseSl := StopLossPips / pipValue;
    assert baseTp * pipValue == TakeProfitPips(s);
    if s.direction == Buy then Levels(price + baseTp, price - baseSl, baseTp * pipValue)
    else Levels(price - baseTp, price + baseSl, baseTp * pipValue)
  }

  /** The volatility adjustment, case by case. */
  lemma VolatilityAdjustment(s: Signal, price: real, atr: real)
    requires PipValueOf(s) != 0.0 && s.atr == Some(atr)
    ensures atr * PipValueOf(s) > 15.0 ==> CalculateTargets(s, price).pips == 25.0
    ensures atr * PipValueOf(s) < 8.0 ==> CalculateTargets(s, price).pips == 15.0
    ensures 8.0 <= atr * PipValueOf(s) <= 15.0 ==> CalculateTargets(s, price).pips == 20.0
  {
    var volatility := atr * PipValueOf(s);
    assert CalculateTargets(s, price).pips == TakeProfitPips(s);
    if volatility > 15.0 {
      assert TakeProfitPips(s) == HighVolatilityPips;
    } else if volatility < 8.0 {
      assert TakeProfitPips(s) == LowVolatilityPips;
    } else {
      assert TakeProfitPips(s) == BaseTakeProfitPips;
    }
  }

  /** A forex breakout signal (pip value 10000, no ATR key) gets a 20-pip target and a 15-pip stop. */
  lemma ForexBreakoutLevels(s: Signal, price: real)
    requires s.pipValue == Some(10000.0) && s.atr.None? && s.direction == Buy
    ensures CalculateTargets(s, price) == Levels(price + 0.002, price - 0.0015, 20.0)
  {
  }
}
