/**
 * The decision logic of the two strategies: the Asian range breakout
 * (scanner.py:163-210) and the thresholding tail of the gold strategy
 * (scanner.py:212-256).  Indicators computed by foreign libraries (ATR,
 * cointegration, the regression prediction) arrive as fields of the frame.
 */
module Strategies {
  import opened Wrappers
  import opened Market

  /** The Asian session, [00:30, 06:00) local time. */
  const SessionStart: TimeOfDay := 30 * 60
  const SessionEnd: TimeOfDay := 6 * 3600
  const MinBars := 20
  const MinSessionBars := 4
  /** Share of the latest ATR added to the range as a breakout buffer. */
  const AtrBufferShare: real := 0.3
  const FallbackBuffer: real := 0.001
  const ForexPipValue: real := 10000.0

  const GoldMinBars := 50
  const GoldTargetPips: real := 20.0
  const GoldPipValue: real := 10.0

  predicate InSession(b: Bar)
  {
    SessionStart <= b.time < SessionEnd
  }

  /** The bars of the Asian session, in frame order. */
  function SessionBars(bars: seq<Bar>): (session: seq<Bar>)
    ensures |session| <= |bars|
    ensures forall b :: b in session <==> b in bars && InSession(b)
    ensures forall b {:trigger multiset(session)[b]} :: multiset(session)[b] == if InSession(b) then multiset(bars)[b] else 0
  {
    if |bars| == 0 then []
    else
      assert bars == [bars[0]] + bars[1..];
      (if InSession(bars[0]) then [bars[0]] else []) + SessionBars(bars[1..])
  }

  /** The index of the frame's first bar in the session window, which is the session's first bar. */
  lemma {:induction false} FirstSessionIndex(bars: seq<Bar>) returns (k: nat)
    requires |SessionBars(bars)| > 0
    ensures k < |bars| && bars[k] == SessionBars(bars)[0] && InSession(bars[k])
    ensures forall j :: 0 <= j < k ==> !InSession(bars[j])
  {
    if InSession(bars[0]) {
      k := 0;
    } else {
      var rest := bars[1..];
      assert SessionBars(bars) == SessionBars(rest) by {
        assert SessionBars(bars) == [] + SessionBars(rest);
      }
      var k' := FirstSessionIndex(rest);
      k := k' + 1;
      assert bars[k] == rest[k'];
      assert forall j :: 1 <= j < k ==> bars[j] == rest[j - 1];
    }
  }

  /** The session opens with the frame's first bar that lies in the session window. */
  lemma SessionStartsAtFirstSessionBar(bars: seq<Bar>)
    requires |SessionBars(bars)| > 0
    ensures exists k :: 0 <= k < |bars| && bars[k] == SessionBars(bars)[0] && InSession(bars[k]) &&
                        forall j :: 0 <= j < k ==> !InSession(bars[j])
  {
    var k := FirstSessionIndex(bars);
  }

  /** The highest high of a non-empty run of bars. */
  function SessionHigh(bars: seq<Bar>): (high: real)
    requires |bars| > 0
    ensures forall b :: b in bars ==> b.high <= high
    ensures exists b :: b in bars && b.high == high
  {
    if |bars| == 1 then bars[0].high
    else
      var rest := SessionHigh(bars[1..]);
      assert forall b :: b in bars[1..] ==> b in bars;
      if bars[0].high >= rest then bars[0].high else rest
  }

  /** The lowest low of a non-empty run of bars. */
  function SessionLow(bars: seq<Bar>): (low: real)
    requires |bars| > 0
    ensures forall b :: b in bars ==> low <= b.low
    ensures exists b :: b in bars && b.low == low
  {
    if |bars| == 1 then bars[0].low
    else
      var rest := SessionLow(bars[1..]);
      assert forall b :: b in bars[1..] ==> b in bars;
      if bars[0].low <= rest then bars[0].low else rest
  }

  /** 30% of the latest ATR, or a fixed 0.001 when the ATR is missing. */
  function Buffer(latest: Bar): (buffer: real)
    ensures latest.atr.None? ==> buffer == FallbackBuffer
    ensures latest.atr.Some? ==> buffer * 10.0 == latest.atr.value * 3.0
    ensures latest.atr.Some? && latest.atr.value >= 0.0 ==> 0.0 <= buffer <= latest.atr.value
  {
    match latest.atr
    case Some(atr) => atr * AtrBufferShare
    case None => FallbackBuffer
  }

  /** Enough history for the breakout to decide anything. */
  predicate EnoughData(bars: seq<Bar>)
  {
    |bars| >= MinBars && |SessionBars(bars)| >= MinSessionBars
  }

  /** `asian_range_breakout_strategy` on an OHLC frame and the live price. */
  function AsianBreakout(bars: seq<Bar>, price: real): (r: Option<Signal>)
    ensures !EnoughData(bars) ==> r.None?
    ensures r.Some? ==> r.value.pipValue == Some(ForexPipValue) && r.value.atr.None? && r.value.detail.Range?
  {
    if |bars| < MinBars then None
    else
      var session := SessionBars(bars);
      if |session| < MinSessionBars then None
      else
        var high := SessionHigh(session);
        var low := SessionLow(session);
        var open := session[0].open;
        var latest := bars[|bars| - 1];
        var buffer := Buffer(latest);
        if price > high + buffer && price > open && latest.close > latest.open then
          Some(Signal(Buy, Range(high, low), Some(ForexPipValue), None))
        else if price < low - buffer && price < open && latest.close < latest.open then
          Some(Signal(Sell, Range(high, low), Some(ForexPipValue), None))
        else None
  }

  /**
   * Reference statement of a bullish breakout, with no maximum: the price
   * clears every session high by the buffer, is above the session open, and
   * the latest bar closed up.
   */
  predicate BullishBreakout(bars: seq<Bar>, price: real)
  {
    EnoughData(bars) &&
    var session := SessionBars(bars);
    var latest := bars[|bars| - 1];
    (forall b :: b in session ==> price > b.high + Buffer(latest)) &&
    price > session[0].open &&
    latest.close > latest.open
  }

  /** The mirror image: below every session low by the buffer, below the open, latest bar closed down. */
  predicate BearishBreakout(bars: seq<Bar>, price: real)
  {
    EnoughData(bars) &&
    var session := SessionBars(bars);
    var latest := bars[|bars| - 1];
    (forall b :: b in session ==> price < b.low - Buffer(latest)) &&
    price < session[0].open &&
    latest.close < latest.open
  }

  /** A bullish and a bearish breakout never hold together: the latest bar cannot close both up and down. */
  lemma BreakoutsExclusive(bars: seq<Bar>, price: real)
    ensures !(BullishBreakout(bars, price) && BearishBreakout(bars, price))
  {
  }

  /** BUY is returned exactly on a bullish breakout. */
  lemma {:induction false} BuyExactlyOnBullishBreakout(bars: seq<Bar>, price: real)
    ensures (AsianBreakout(bars, price).Some? && AsianBreakout(bars, price).value.direction == Buy)
            <==> BullishBreakout(bars, price)
  {
    if EnoughData(bars) {
      var session := SessionBars(bars);
      var high := SessionHigh(session);
      var b :| b in session && b.high == high;
    }
  }

  /** SELL is returned exactly on a bearish breakout; the `elif` never hides one. */
  lemma {:induction false} SellExactlyOnBearishBreakout(bars: seq<Bar>, price: real)
    ensures (AsianBreakout(bars, price).Some? && AsianBreakout(bars, price).value.direction == Sell)
            <==> BearishBreakout(bars, price)
  {
    if EnoughData(bars) {
      var session := SessionBars(bars);
      var low := SessionLow(session);
      var b :| b in session && b.low == low;
    }
  }

  /** A breakout signal reports the highest high and the lowest low of the session bars. */
  lemma BreakoutReportsSessionRange(bars: seq<Bar>, price: real)
    requires AsianBreakout(bars, price).Some?
    ensures var d := AsianBreakout(bars, price).value.detail;
            var session := SessionBars(bars);
            (forall b :: b in session ==> d.sessionLow <= b.low && b.high <= d.sessionHigh) &&
            (exists b :: b in session && b.high == d.sessionHigh) &&
            (exists b :: b in session && b.low == d.sessionLow)
  {
  }

  /** The gold decision tail: a BUY or SELL when the prediction leaves the 20-pip band around the price. */
  function GoldDecision(prediction: real, price: real): (r: Option<Signal>)
    ensures r.Some? ==> r.value.pipValue == Some(GoldPipValue) && r.value.atr.None? &&
                        r.value.detail == Forecast(prediction)
  {
    if prediction > price + GoldTargetPips / GoldPipValue then
      Some(Signal(Buy, Forecast(prediction), Some(GoldPipValue), None))
    else if prediction < price - GoldTargetPips / GoldPipValue then
      Some(Signal(Sell, Forecast(prediction), Some(GoldPipValue), None))
    else None
  }

  /** The band is ±2.0 around the price: BUY above it, SELL below it, nothing inside it. */
  lemma GoldDecisionThresholds(prediction: real, price: real)
    ensures GoldDecision(prediction, price).Some? <==> (prediction > price + 2.0 || prediction < price - 2.0)
    ensures GoldDecision(prediction, price).Some? ==>
              (GoldDecision(prediction, price).value.direction == Buy <==> prediction > price + 2.0)
  {
  }

  /** Rows used to train the regression: the rows flagged cointegrated, and the flag is the same on every row. */
  function TrainingRows(frame: Frame): nat
  {
    if frame.cointegrated then |frame.bars| else 0
  }

  /**
   * `gold_strategy` with the regression fitted on matched samples: at least
   * 50 bars, a cointegrated latest row and at least 50 training rows, then
   * the decision tail on the given prediction.
   */
  function GoldStrategy(frame: Frame, price: real): (r: Option<Signal>)
    ensures r.Some? ==> |frame.bars| >= GoldMinBars && frame.cointegrated
    ensures r.Some? ==> r.value.pipValue == Some(GoldPipValue) && r.value.atr.None?
  {
    if |frame.bars| < GoldMinBars then None
    else if !frame.cointegrated then None
    else if TrainingRows(frame) < GoldMinBars then None
    else GoldDecision(frame.prediction, price)
  }

  /** With enough cointegrated history the corrected strategy signals exactly outside the band. */
  lemma GoldSignalsOutsideBand(frame: Frame, price: real)
    requires |frame.bars| >= GoldMinBars && frame.cointegrated
    ensures GoldStrategy(frame, price).Some? <==> (frame.prediction > price + 2.0 || frame.prediction < price - 2.0)
    ensures GoldStrategy(frame, price) == GoldDecision(frame.prediction, price)
    ensures GoldStrategy(frame, price).Some? ==>
              (GoldStrategy(frame, price).value.direction == Buy <==> frame.prediction > price + 2.0) &&
              GoldStrategy(frame, price).value.detail == Forecast(frame.prediction)
  {
  }

  /**
   * Sample counts handed to the regression fit as the code is written: the
   * features are every training row, the targets are the next closes with the
   * last (undefined) one dropped.
   */
  function FeatureRows(frame: Frame): nat
  {
    TrainingRows(frame)
  }

  function TargetRows(frame: Frame): nat
  {
    if TrainingRows(frame) == 0 then 0 else TrainingRows(frame) - 1
  }

  /**
   * `gold_strategy` as written: a fit whose feature and target counts differ
   * raises, and the catch-all turns that into "no signal".
   */
  function GoldStrategyAsWritten(frame: Frame, price: real): (r: Option<Signal>)
    ensures r.Some? ==> FeatureRows(frame) == TargetRows(frame)
  {
    if |frame.bars| < GoldMinBars then None
    else if !frame.cointegrated then None
    else if TrainingRows(frame) < GoldMinBars then None
    else if FeatureRows(frame) != TargetRows(frame) then None
    else GoldDecision(frame.prediction, price)
  }

  /** As written, the gold strategy never produces a signal: every fit it reaches has one target too few. */
  lemma GoldAsWrittenNeverSignals(frame: Frame, price: real)
    ensures GoldStrategyAsWritten(frame, price).None?
  {
  }

  /** A concrete frame on which the written code stays silent while the corrected strategy buys. */
  lemma GoldFitMismatchExample()
    ensures var frame := Frame(seq(50, _ => Bar(600, 2000.0, 2001.0, 1999.0, 2000.0, Some(1.0))), true, 2010.0);
            GoldStrategyAsWritten(frame, 2000.0).None? &&
            GoldStrategy(frame, 2000.0) == Some(Signal(Buy, Forecast(2010.0), Some(GoldPipValue), None))
  {
  }

  /** Runs the strategy a table entry is bound to. */
  function Evaluate(kind: StrategyKind, frame: Frame, price: real): (r: Option<Signal>)
    ensures r.Some? ==> r.value.pipValue.Some? && r.value.pipValue.value > 0.0 && r.value.atr.None?
  {
    match kind
    case AsianRangeBreakout => AsianBreakout(frame.bars, price)
    case GoldCmar => GoldStrategy(frame, price)
  }
}
