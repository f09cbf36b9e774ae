# Enhanced forex/gold signal scanner — a Dafny model

This project models the decision core of `scanner.py`. That file holds the `EnhancedScanner`
class, which scans forex pairs and gold for trading signals on a schedule and reports them to
Telegram. The model covers:

- **Schedule** (`schedule.dfy`): `is_strategy_active`, a weekday-list test plus a half-open
  time-of-day window. Also the global gate of `scan`, which skips weekends and Friday after hour
  18. Times are whole seconds since local midnight and weekdays are numbered 0..6 (Monday = 0).
- **Strategies** (`strategies.dfy`): the Asian range breakout over a sequence of OHLC bars, and
  the gold strategy's threshold tail over a given regression prediction.
- **Targets** (`targets.dfy`): `calculate_targets`, the take-profit and stop-loss levels and
  the target size in pips.
- **Report** (`report.dfy`): the summary title, "NO SIGNALS", "1 SIGNAL FOUND" or
  "n SIGNALS FOUND". A decimal round trip shows that the title carries the exact count.
- **Scanner** (`scanner.dfy`): the strategy table, and the `Scanner` class with its `signals`
  field. Its `Scan` method runs the nested strategy/pair loops. Loop invariants prove it
  against `ScanSpec`, a functional statement of what a scan reports, appends and sends. Price
  fetches, OHLC fetches and Telegram delivery come in as oracle functions in a `Feed`.
- `market.dfy` holds the shared data types and `wrappers.dfy` holds `Option`.

Prices are `real`. Every indicator computed by a foreign library arrives as a field of the
data, not computed: the ATR, the cointegration flag and the regression prediction.

## Model

| member | source | states |
|---|---|---|
| `Schedule.HourOf` | scanner.py:303 | the hour of a time of day is the whole hours since midnight, in 0..23 |
| `Schedule.IsStrategyActive` | scanner.py:55-66 | a strategy is active exactly when the day is in its day list (or it has none) and the time lies in its window, start inclusive, end exclusive |
| `Schedule.ScanAllowed` | scanner.py:305-313 | the gate never passes Saturday or Sunday, always passes Monday–Thursday, and passes Friday exactly up to hour 18 |
| `Schedule.OffDayInactive` | scanner.py:61-62 | a strategy with a day list is inactive on any day outside it, whatever the time |
| `Schedule.WindowHalfOpen` | scanner.py:65-66 | on an allowed day a strategy is active at exactly the window start and inactive at exactly the window end |
| `Schedule.ScanAllowedAt` | scanner.py:305-313 | the gate lets a scan through exactly Monday–Thursday, and Friday strictly before 19:00 (so Friday 18:xx scans) |
| `Schedule.WeekendSkipped` | scanner.py:306-308 | Saturday and Sunday never pass the gate |
| `Strategies.SessionBars` | scanner.py:169-172 | the session bars are exactly the frame's bars whose time lies in [00:30, 06:00), with their multiplicities: each session bar occurs as often as in the frame and no other bar occurs |
| `Strategies.SessionStartsAtFirstSessionBar` | scanner.py:179 | the session's first bar is the frame's earliest bar inside the window, so `session_open` is that bar's open |
| `Strategies.SessionHigh` | scanner.py:177 | the session high is at least every session bar's high and equals one of them |
| `Strategies.SessionLow` | scanner.py:178 | the session low is at most every session bar's low and equals one of them |
| `Strategies.Buffer` | scanner.py:183 | the breakout buffer is three tenths of the latest bar's ATR, so no more than a non-negative ATR, and 0.001 without an ATR |
| `Strategies.AsianBreakout` | scanner.py:163-210 | no signal with fewer than 20 bars or fewer than 4 session bars; any signal carries pip value 10000, no ATR key and the session range |
| `Strategies.BreakoutsExclusive` | scanner.py:185-205 | the bullish and the bearish breakout conditions never hold together |
| `Strategies.BuyExactlyOnBullishBreakout` | scanner.py:182-194 | BUY is returned if and only if the price clears every session high plus the buffer (30% of ATR, else 0.001), exceeds the session open, and the latest bar closed up |
| `Strategies.SellExactlyOnBearishBreakout` | scanner.py:196-205 | SELL is returned if and only if the mirror-image conditions hold; the `elif` never hides one |
| `Strategies.BreakoutReportsSessionRange` | scanner.py:177-205 | a returned signal's session high and low are the maximum high and minimum low of the session bars |
| `Strategies.GoldDecision` | scanner.py:240-253 | a gold signal carries pip value 10, no ATR key and the prediction it was made from |
| `Strategies.GoldDecisionThresholds` | scanner.py:240-253 | a gold signal is produced if and only if the prediction is more than 2.0 from the price; it is BUY if and only if the prediction is above the price |
| `Strategies.GoldStrategy` | scanner.py:212-237 | with the fit corrected, a gold signal needs at least 50 bars and a cointegrated frame, and carries pip value 10 and no ATR key |
| `Strategies.GoldSignalsOutsideBand` | scanner.py:214-253 | with the fit corrected, enough cointegrated history gives exactly the threshold decision on the prediction: a signal exactly when the prediction leaves the ±2.0 band, BUY exactly when it is above, with the prediction as its forecast |
| `Strategies.GoldStrategyAsWritten` | scanner.py:229-237 | as written, a signal can only follow a fit whose feature and target sample counts agree |
| `Strategies.GoldAsWrittenNeverSignals` | scanner.py:229-256 | as written, the gold strategy returns no signal for any input |
| `Strategies.GoldFitMismatchExample` | scanner.py:234 | on 50 cointegrated bars with a prediction 10 above the price, the written code returns nothing while the corrected strategy returns BUY |
| `Strategies.Evaluate` | scanner.py:352 | every strategy signal has a positive pip value and no ATR key |
| `Targets.TakeProfitPips` | scanner.py:264-273 | the target is 15, 20 or 25 pips, and 20 when the signal has no ATR key |
| `Targets.CalculateTargets` | scanner.py:259-282 | with a positive pip value, BUY gives sl < entry < tp and SELL gives tp < entry < sl; the stop is 15/pip_value from the entry; the target is pips/pip_value from the entry; pips is 15, 20 or 25, and 20 without an ATR key |
| `Targets.VolatilityAdjustment` | scanner.py:267-273 | volatility (ATR × pip value) above 15 widens the target to 25 pips, below 8 narrows it to 15, and otherwise it stays 20 |
| `Targets.ForexBreakoutLevels` | scanner.py:259-282 | a forex BUY signal without ATR gets tp = entry + 0.002, sl = entry − 0.0015 and 20 pips |
| `Report.Decimal` | scanner.py:410 | a count is written as a non-empty run of digits without a leading zero |
| `Report.DecimalRoundTrip` | scanner.py:410 | reading the written count back gives the count |
| `Report.SummaryTitle` | scanner.py:410 | the title is "NO SIGNALS" exactly when the count is 0; otherwise it starts with the check mark |
| `Report.SummaryTitleShapes` | scanner.py:410 | the title is "NO SIGNALS" for 0, singular "1 SIGNAL FOUND" for 1, and plural "n SIGNALS FOUND" otherwise |
| `Report.SummaryTitleRoundTrip` | scanner.py:410 | the count read back out of the title is the count it was made from |
| `Scanner.RunPair` | scanner.py:330-407 | a pair's run has a status line for that strategy and pair; "price fetch failed" exactly when there is no price, "data fetch failed" exactly when there is a price but no frame or fewer than 20 bars; a record exactly when the strategy fires, holding the fetched price as entry, the strategy's own signal, and the take-profit, stop-loss and pips that `calculate_targets` gives for them (scanner.py:356), on the correct sides of the entry; "sent" exactly when delivery succeeded |
| `Scanner.RunPairs` | scanner.py:328 | a strategy's pair loop produces one run per pair, in table order |
| `Scanner.ScanPair` | scanner.py:333-407 | the pair loop body yields the status and record that `RunPair` specifies |
| `Scanner.RunStrategies` | scanner.py:320-328 | the strategy loop produces exactly one run per pair of every active strategy |
| `Scanner.PairRecordCount` | scanner.py:328-370 | a strategy's pair loop records one signal per pair on which the strategy fires |
| `Scanner.RecordCountIsFiredCount` | scanner.py:320-370 | the strategy loop records one signal per pair of an active strategy on which that strategy fires |
| `Scanner.ScanSpec` | scanner.py:299-420 | a scan is skipped exactly when the gate fails, as a weekend skip exactly on Saturday or Sunday; a completed scan's last message is the summary of its status lines |
| `Scanner.NewSignalsAreFiredPairs` | scanner.py:299-370 | a scan records exactly as many signals as there are pairs of active strategies on which their strategy fires, and none when skipped |
| `Scanner.AlertsOnePerRecord` | scanner.py:396-401 | one alert per record, the k-th alert carrying the k-th record |
| `Scanner.Scanner.constructor` | scanner.py:25-50 | a new scanner has no signals and the two-entry strategy table |
| `Scanner.Scanner.ScanPairs` | scanner.py:328-407 | the pair loop appends exactly the strategy's records to `signals` and returns its status lines |
| `Scanner.Scanner.ScanStrategies` | scanner.py:320-407 | the strategy loop visits only active strategies, in order; it appends their records to `signals`; the count equals the number of records |
| `Scanner.Scanner.Scan` | scanner.py:299-420 | the result is `ScanSpec`, and `signals` grows by exactly the scan's new records |
| `Scanner.StrategyRunsSound` | scanner.py:354-407 | every run has a record exactly when its status reports a signal, and that record matches the status's strategy and pair |
| `Scanner.RecordCountMatchesStatuses` | scanner.py:396-407 | the number of records equals the number of status lines that report a signal, sent or not |
| `Scanner.RecordedLevelsSound` | scanner.py:355-370 | every record's take-profit, stop-loss and pips are those `calculate_targets` gives for its signal and entry, on the correct sides of the entry, with a 20-pip target |
| `Scanner.PairRecordsIgnoreDelivery` | scanner.py:396-401 | delivery success does not change the records of a pair loop |
| `Scanner.RecordsIgnoreDelivery` | scanner.py:396-401 | delivery success does not change the records of a scan |
| `Scanner.PairRecordsOrigin` | scanner.py:336-370 | every record of a pair loop names its strategy and one of its pairs on which the strategy fires, with the fetched price as entry |
| `Scanner.RecordsFromActiveStrategies` | scanner.py:320-370 | every record comes from an active strategy and one of its pairs on which that strategy fires |
| `Scanner.ClosedMarketSkipped` | scanner.py:305-313 | on Saturday, Sunday or Friday from 19:00, the scan is skipped and records nothing |
| `Scanner.OpenMarketScanned` | scanner.py:305-313 | Monday–Thursday, and Friday before 19:00, the scan completes |
| `Scanner.ScanBookkeeping` | scanner.py:317-420 | a completed scan has one status line per active pair; the count equals the new records, the signal status lines and the number of fired pairs of active strategies; the k-th message is the alert for the k-th new record, and the summary follows the last alert; the title carries the count |
| `Scanner.ScanRecordsSound` | scanner.py:320-370 | every recorded signal comes from an active strategy and one of its pairs on which that strategy fires, with the levels `calculate_targets` gives for it |
| `Scanner.DeliveryIndependentCount` | scanner.py:396-401 | a failed Telegram send changes neither the recorded signals nor the count |
| `Scanner.AsianEntrySchedule` | scanner.py:32-40 | the Asian entry is active exactly Monday–Friday, 00:30 inclusive to 06:00 exclusive |
| `Scanner.GoldEntrySchedule` | scanner.py:41-49 | the gold entry is active exactly Tuesday–Thursday, 09:00 inclusive to 17:00 exclusive |
| `Scanner.DefaultTableOneStrategyAtATime` | scanner.py:31-50 | the two table entries are never active together, so a scan covers 3, 1 or 0 pairs |
| `Scanner.ScanAsWritten` | scanner.py:299-329 | as written, the scan raises exactly when the gate passes and some active strategy has a pair; otherwise it returns what the corrected scan returns, so a completed scan never has a status line or a signal |
| `Scanner.SleepShadowingExample` | scanner.py:329 | on Monday 01:00 the written scan raises, while the corrected scan reports three pairs |

## Left out

- HTTP price and OHLC fetching and the DataFrame construction (scanner.py:68-160) are left out. Their results are the oracles `Feed.price` and `Feed.ohlc`. A failed fetch is `None`.
- The ATR, the rolling means, the cointegration test and the linear-regression fit and predict (scanner.py:121, 146-153, 229-237) come from foreign numeric libraries. Their values are given fields of `Bar` and `Frame`. The cointegration flag is a single value because the fetch assigns one flag to every row.
- Telegram sending (scanner.py:284-297) is the oracle `Feed.delivered`, keyed by pair. The summary send's result is ignored, as in the source. Sends appear as the `messages` of a completed scan.
- Clock reads (scanner.py:27, 52-53, 56-58, 301-303) are replaced by the `day` and `now` parameters. The `scan_time` string is not modelled.
- The pause between API calls (scanner.py:329) is a no-op in the corrected scan; see Findings.
- Message text and f-string formatting (scanner.py:373-394, 412-417) are not modelled. Status lines are values. Only the summary title is modelled as text.
- `print` logging and the `try/except` catch-alls are not modelled. Their only effect is "no value", which the model returns directly.
- The `df is None` guards inside the strategies are not modelled, because `scan` never passes a missing frame.
- Times are whole seconds. Every window boundary is a whole second, so the sub-second part of the clock never changes a comparison.
- Targets.CalculateTargets: prices and levels are exact reals, not IEEE floats. The pip count is exactly 15, 20 or 25, where float rounding could be off by one ulp.
- Strategies.Evaluate: the gold entry is dispatched to the corrected `GoldStrategy`, so `ScanSpec` and `Scanner.Scan` can record gold signals that the written code never produces (its fit raises and the catch-all at scanner.py:254 returns nothing); the written behaviour is `GoldStrategyAsWritten`, see Findings.
- One reading of the clock (`day`, `now`) serves the gate (scanner.py:301-303) and every `is_strategy_active` call, while the source reads the clock again for each strategy (scanner.py:56). A window boundary that falls between the gate and a strategy's own activity test is not modelled. With the default table, the Asian entry's whole pair loop comes before the gold entry's test: the pauses, the price and OHLC fetches, and the alert sends. The two windows are three hours apart.

## Findings

| source | as written | input that shows it | evidently intended | confidence | as-written member | corrected member |
|---|---|---|---|---|---|---|
| scanner.py:329 | `time.sleep(API_CALL_DELAY)`, but scanner.py:7 rebinds `time` to the time-of-day class, which has no `sleep` | any scan on Monday 01:00 (the Asian entry is active with three pairs) | an 8-second pause between pairs | high, not executed | `Scanner.ScanAsWritten` (exhibited by `Scanner.SleepShadowingExample`) | `Scanner.ScanBookkeeping` (about `Scanner.Scanner.Scan` with the pause as a no-op) |
| scanner.py:234 | the fit uses every training row as features, but the targets are `close.shift(-1).dropna()`, one row fewer; the length mismatch raises and the catch-all returns no signal | 50 cointegrated bars, price 2000, prediction 2010 | features aligned with the next closes, so that the prediction is thresholded | high, not executed | `Strategies.GoldStrategyAsWritten` (exhibited by `Strategies.GoldFitMismatchExample`) | `Strategies.GoldSignalsOutsideBand` (about `Strategies.GoldStrategy`) |
