/**
 * The values the scanner works on: clock readings, OHLC bars and frames,
 * trading signals and the entries of the strategy table (scanner.py:31-50).
 */
module Market {
  import opened Wrappers

  /** Local (Europe/London) time of day in whole seconds since midnight. */
  type TimeOfDay = t: int | 0 <= t < 86400

  /** Day of the week as Python's `weekday()` numbers it: Monday = 0, ..., Sunday = 6. */
  type Weekday = d: int | 0 <= d < 7

  datatype Direction = Buy | Sell

  /** The two price providers a strategy can name as its `data_source`. */
  datatype DataSource = TwelveData | GoldApi

  /** Which strategy function a table entry is bound to. */
  datatype StrategyKind = AsianRangeBreakout | GoldCmar

  /**
   * One row of an OHLC frame after `dropna()`: the bar's local time of day,
   * its prices and its 14-period ATR (absent when the indicator is null).
   */
  datatype Bar = Bar(time: TimeOfDay, open: real, high: real, low: real, close: real, atr: Option<real>)

  /**
   * An OHLC frame as the fetch returns it, oldest bar first.  `cointegrated`
   * is the single flag the gold fetch broadcasts to every row, and
   * `prediction` is what the regression fitted on this frame predicts for the
   * next close; both are computed by foreign numeric libraries and are given.
   */
  datatype Frame = Frame(bars: seq<Bar>, cointegrated: bool, prediction: real)

  /** The strategy-specific part of a signal dictionary. */
  datatype Detail =
    | Range(sessionHigh: real, sessionLow: real)
    | Forecast(predictedPrice: real)

  /**
   * A signal dictionary as a strategy returns it.  `pipValue` and `atr` are
   * optional keys: `calculate_targets` reads them with a default and an
   * `in` test.
   */
  datatype Signal = Signal(direction: Direction, detail: Detail, pipValue: Option<real>, atr: Option<real>)

  /**
   * An entry of the strategy table: its active window is the half-open
   * interval [start, end) of local time, and `activeDays` lists the weekdays
   * on which it may run (None: every day).
   */
  datatype Strategy = Strategy(
    name: string,
    pairs: seq<string>,
    timeframe: string,
    start: TimeOfDay,
    end: TimeOfDay,
    activeDays: Option<seq<Weekday>>,
    kind: StrategyKind,
    source: DataSource)
}
