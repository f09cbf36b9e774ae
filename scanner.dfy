/**
 * The scanner object and its `scan` run (scanner.py:24-50, 299-420): the
 * strategy table, the global gate, the loop over active strategies and their
 * pairs with its status lines, signal counter and `signals` list, and the
 * summary.  Price fetches, OHLC fetches and Telegram delivery are oracles
 * given in a `Feed`; the pause between API calls is a no-op.
 */
module Scanner {
  import opened Wrappers
  import opened Market
  import opened Schedule
  import opened Strategies
  import opened Targets
  import opened Report

  /**
   * The outside world during one scan: the live price per pair and data
   * source, the OHLC frame per pair, timeframe and source, and whether the
   * alert for a pair reached Telegram.
   */
  datatype Feed = Feed(
    price: (string, DataSource) -> Option<real>,
    ohlc: (string, string, DataSource) -> Option<Frame>,
    delivered: string -> bool)

  /** The five endings of a pair's status line. */
  datatype PairOutcome = PriceFetchFailed | DataFetchFailed | SignalSent | SignalTelegramFailed | NoSignal

  /** One entry of `scan_results`: "<strategy> - <pair>: <outcome>". */
  datatype StatusLine = StatusLine(strategy: string, pair: string, outcome: PairOutcome)

  /** A signal merged with its entry, levels, strategy and pair, as appended to `signals`. */
  datatype SignalRecord = SignalRecord(signal: Signal, entry: real, tp: real, sl: real, pips: real, strategy: string, pair: string)

  /** What one pass of the pair loop leaves behind. */
  datatype PairRun = PairRun(status: StatusLine, record: Option<SignalRecord>)

  /** The messages handed to Telegram, in order. */
  datatype Message = Alert(record: SignalRecord) | Summary(title: string, results: seq<StatusLine>)

  datatype SkipReason = Weekend | FridayEvening

  datatype ScanOutcome =
    | Skipped(reason: SkipReason)
    | Completed(results: seq<StatusLine>, signalCount: nat, title: string, messages: seq<Message>)

  /** Frames with fewer bars count as a failed data fetch. */
  const MinFrameBars := 20

  const AsianEntry := Strategy("Asian Range Breakout", ["AUD/USD", "NZD/USD", "USD/JPY"], "15min",
                               30 * 60, 6 * 3600, Some([0, 1, 2, 3, 4]), AsianRangeBreakout, TwelveData)
  const GoldEntry := Strategy("Gold CMAR Strategy", ["XAU/USD"], "1h",
                              9 * 3600, 17 * 3600, Some([1, 2, 3]), GoldCmar, GoldApi)
  const DefaultStrategies := [AsianEntry, GoldEntry]

  predicate Signalled(outcome: PairOutcome)
  {
    outcome == SignalSent || outcome == SignalTelegramFailed
  }

  /**
   * A record whose levels are the ones `calculate_targets` gives for its
   * signal and entry: on the right sides of the entry, with the 20-pip target
   * the strategies get.
   */
  predicate LevelsSound(r: SignalRecord)
  {
    PipValueOf(r.signal) != 0.0 &&
    r.tp == CalculateTargets(r.signal, r.entry).tp &&
    r.sl == CalculateTargets(r.signal, r.entry).sl &&
    r.pips == CalculateTargets(r.signal, r.entry).pips &&
    (r.signal.direction == Buy ==> r.sl < r.entry < r.tp) &&
    (r.signal.direction == Sell ==> r.tp < r.entry < r.sl) &&
    r.pips == 20.0
  }

  /** A run whose record, when present, matches its status line and has sound levels. */
  predicate RunConsistent(run: PairRun)
  {
    (run.record.Some? <==> Signalled(run.status.outcome)) &&
    (run.record.Some? ==> run.record.value.strategy == run.status.strategy &&
                          run.record.value.pair == run.status.pair &&
                          LevelsSound(run.record.value))
  }

  /** A pair run of strategy `s` over `pair`: a record exactly when the status says a signal was found. */
  predicate RunSound(run: PairRun, s: Strategy, pair: string)
  {
    run.status.strategy == s.name && run.status.pair == pair && RunConsistent(run)
  }

  /**
   * Strategy `s` fires on `pair`: the price and the frame arrive, the frame
   * has enough bars, and the strategy returns a signal.
   */
  predicate Fired(s: Strategy, pair: string, feed: Feed)
  {
    feed.price(pair, s.source).Some? &&
    feed.ohlc(pair, s.timeframe, s.source).Some? &&
    |feed.ohlc(pair, s.timeframe, s.source).value.bars| >= MinFrameBars &&
    Evaluate(s.kind, feed.ohlc(pair, s.timeframe, s.source).value, feed.price(pair, s.source).value).Some?
  }

  /**
   * One pass of the pair loop: fetch the price, then the frame, run the
   * strategy, and on a signal compute its levels and try to deliver it.
   */
  function RunPair(s: Strategy, pair: string, feed: Feed): (run: PairRun)
    ensures RunSound(run, s, pair)
    ensures run.status.outcome == PriceFetchFailed <==> feed.price(pair, s.source).None?
    ensures run.status.outcome == DataFetchFailed <==>
              feed.price(pair, s.source).Some? &&
              (feed.ohlc(pair, s.timeframe, s.source).None? ||
               |feed.ohlc(pair, s.timeframe, s.source).value.bars| < MinFrameBars)
    ensures run.record.Some? <==> Fired(s, pair, feed)
    ensures Fired(s, pair, feed) ==>
              run.record.value.entry == feed.price(pair, s.source).value &&
              run.record.value.signal ==
                Evaluate(s.kind, feed.ohlc(pair, s.timeframe, s.source).value, feed.price(pair, s.source).value).value
    ensures run.record.Some? ==> (run.status.outcome == SignalSent <==> feed.delivered(pair))
  {
    match feed.price(pair, s.source)
    case None => PairRun(StatusLine(s.name, pair, PriceFetchFailed), None)
    case Some(price) =>
      match feed.ohlc(pair, s.timeframe, s.source)
      case None => PairRun(StatusLine(s.name, pair, DataFetchFailed), None)
      case Some(frame) =>
        if |frame.bars| < MinFrameBars then PairRun(StatusLine(s.name, pair, DataFetchFailed), None)
        else
          match Evaluate(s.kind, frame, price)
          case None => PairRun(StatusLine(s.name, pair, NoSignal), None)
          case Some(signal) =>
            var levels := CalculateTargets(signal, price);
            var record := SignalRecord(signal, price, levels.tp, levels.sl, levels.pips, s.name, pair);
            PairRun(StatusLine(s.name, pair, if feed.delivered(pair) then SignalSent else SignalTelegramFailed),
                    Some(record))
  }

  /** The pair loop of one strategy: one run per pair, in the table's order. */
  function RunPairs(s: Strategy, pairs: seq<string>, feed: Feed): (runs: seq<PairRun>)
    ensures |runs| == |pairs|
    ensures forall k :: 0 <= k < |pairs| ==> runs[k] == RunPair(s, pairs[k], feed)
  {
    if |pairs| == 0 then []
    else RunPairs(s, pairs[..|pairs| - 1], feed) + [RunPair(s, pairs[|pairs| - 1], feed)]
  }

  /** The strategy loop: the pair runs of every active strategy, in table order. */
  function RunStrategies(ss: seq<Strategy>, day: Weekday, now: TimeOfDay, feed: Feed): (runs: seq<PairRun>)
    ensures |runs| == ActivePairCount(ss, day, now)
  {
    if |ss| == 0 then []
    else
      var s := ss[|ss| - 1];
      RunStrategies(ss[..|ss| - 1], day, now, feed) +
      (if IsStrategyActive(s, day, now) then RunPairs(s, s.pairs, feed) else [])
  }

  /** Number of pairs the active strategies name. */
  function ActivePairCount(ss: seq<Strategy>, day: Weekday, now: TimeOfDay): nat
  {
    if |ss| == 0 then 0
    else
      var s := ss[|ss| - 1];
      ActivePairCount(ss[..|ss| - 1], day, now) + (if IsStrategyActive(s, day, now) then |s.pairs| else 0)
  }

  function Statuses(runs: seq<PairRun>): seq<StatusLine>
  {
    if |runs| == 0 then [] else Statuses(runs[..|runs| - 1]) + [runs[|runs| - 1].status]
  }

  function Records(runs: seq<PairRun>): seq<SignalRecord>
  {
    if |runs| == 0 then []
    else
      Records(runs[..|runs| - 1]) +
      match runs[|runs| - 1].record
      case Some(r) => [r]
      case None => []
  }

  function Alerts(records: seq<SignalRecord>): seq<Message>
  {
    if |records| == 0 then [] else Alerts(records[..|records| - 1]) + [Alert(records[|records| - 1])]
  }

  /** Number of status lines that report a found signal, delivered or not. */
  function CountSignalled(lines: seq<StatusLine>): nat
  {
    if |lines| == 0 then 0
    else CountSignalled(lines[..|lines| - 1]) + (if Signalled(lines[|lines| - 1].outcome) then 1 else 0)
  }

  lemma RunPairsSnoc(s: Strategy, pairs: seq<string>, j: nat, feed: Feed)
    requires j < |pairs|
    ensures RunPairs(s, pairs[..j + 1], feed) == RunPairs(s, pairs[..j], feed) + [RunPair(s, pairs[j], feed)]
  {
    assert pairs[..j + 1][..j] == pairs[..j];
  }

  lemma RunStrategiesSnoc(ss: seq<Strategy>, i: nat, day: Weekday, now: TimeOfDay, feed: Feed)
    requires i < |ss|
    ensures RunStrategies(ss[..i + 1], day, now, feed) ==
            RunStrategies(ss[..i], day, now, feed) +
            (if IsStrategyActive(ss[i], day, now) then RunPairs(ss[i], ss[i].pairs, feed) else [])
  {
    assert ss[..i + 1][..i] == ss[..i];
  }

  lemma RunsSnoc(runs: seq<PairRun>, run: PairRun)
    ensures Statuses(runs + [run]) == Statuses(runs) + [run.status]
    ensures Records(runs + [run]) == Records(runs) + (if run.record.Some? then [run.record.value] else [])
  {
    assert (runs + [run])[..|runs|] == runs;
  }

  /** The status lines of consecutive runs are the lines of each part, in order. */
  lemma {:induction false} StatusesAppend(a: seq<PairRun>, b: seq<PairRun>)
    ensures Statuses(a + b) == Statuses(a) + Statuses(b)
  {
    if |b| > 0 {
      var b' := b[..|b| - 1];
      assert (a + b)[..|a + b| - 1] == a + b';
      assert (a + b)[|a + b| - 1] == b[|b| - 1];
      StatusesAppend(a, b');
    } else {
      assert a + b == a;
    }
  }

  /** The records of consecutive runs are the records of each part, in order. */
  lemma {:induction false} RecordsAppend(a: seq<PairRun>, b: seq<PairRun>)
    ensures Records(a + b) == Records(a) + Records(b)
  {
    if |b| > 0 {
      var b' := b[..|b| - 1];
      assert (a + b)[..|a + b| - 1] == a + b';
      assert (a + b)[|a + b| - 1] == b[|b| - 1];
      RecordsAppend(a, b');
    } else {
      assert a + b == a;
    }
  }

  lemma {:induction false} AlertsAppend(a: seq<SignalRecord>, b: seq<SignalRecord>)
    ensures Alerts(a + b) == Alerts(a) + Alerts(b)
  {
    if |b| > 0 {
      var b' := b[..|b| - 1];
      assert (a + b)[..|a + b| - 1] == a + b';
      assert (a + b)[|a + b| - 1] == b[|b| - 1];
      AlertsAppend(a, b');
    } else {
      assert a + b == a;
    }
  }

  /** Every run of the strategy loop carries a record exactly when its status line reports a signal. */
  lemma {:induction false} StrategyRunsSound(ss: seq<Strategy>, day: Weekday, now: TimeOfDay, feed: Feed)
    ensures forall k :: 0 <= k < |RunStrategies(ss, day, now, feed)| ==>
              RunConsistent(RunStrategies(ss, day, now, feed)[k])
  {
    if |ss| > 0 {
      var s := ss[|ss| - 1];
      StrategyRunsSound(ss[..|ss| - 1], day, now, feed);
      var done := RunStrategies(ss[..|ss| - 1], day, now, feed);
      var runs := if IsStrategyActive(s, day, now) then RunPairs(s, s.pairs, feed) else [];
      assert RunStrategies(ss, day, now, feed) == done + runs;
      forall k | 0 <= k < |done + runs|
        ensures RunConsistent((done + runs)[k])
      {
        if k >= |done| {
          var run := RunPair(s, s.pairs[k - |done|], feed);
          assert (done + runs)[k] == run;
        }
      }
    }
  }

  /** The number of records equals the number of status lines that report a signal, delivered or not. */
  lemma {:induction false} RecordCountMatchesStatuses(runs: seq<PairRun>)
    requires forall k :: 0 <= k < |runs| ==> RunConsistent(runs[k])
    ensures |Records(runs)| == CountSignalled(Statuses(runs))
  {
    if |runs| > 0 {
      var init := runs[..|runs| - 1];
      RecordCountMatchesStatuses(init);
      assert Statuses(runs)[..|Statuses(runs)| - 1] == Statuses(init);
      assert RunConsistent(runs[|runs| - 1]);
    }
  }

  /** Every record holds levels on the correct sides of its entry and a 20-pip target. */
  lemma {:induction false} RecordedLevelsSound(runs: seq<PairRun>)
    requires forall k :: 0 <= k < |runs| ==> RunConsistent(runs[k])
    ensures forall r :: r in Records(runs) ==> LevelsSound(r)
  {
    if |runs| > 0 {
      RecordedLevelsSound(runs[..|runs| - 1]);
      assert RunConsistent(runs[|runs| - 1]);
    }
  }

  /** Whether Telegram accepts an alert does not change which records a strategy's pair loop produces. */
  lemma {:induction false} PairRecordsIgnoreDelivery(s: Strategy, pairs: seq<string>, feed: Feed, delivered: string -> bool)
    ensures Records(RunPairs(s, pairs, feed)) == Records(RunPairs(s, pairs, feed.(delivered := delivered)))
  {
    if |pairs| > 0 {
      var init := pairs[..|pairs| - 1];
      var last := pairs[|pairs| - 1];
      PairRecordsIgnoreDelivery(s, init, feed, delivered);
      RunsSnoc(RunPairs(s, init, feed), RunPair(s, last, feed));
      RunsSnoc(RunPairs(s, init, feed.(delivered := delivered)), RunPair(s, last, feed.(delivered := delivered)));
      RunPairRecordIgnoresDelivery(s, last, feed, delivered);
    }
  }

  /** The record of one pair does not depend on delivery: only its status line does. */
  lemma RunPairRecordIgnoresDelivery(s: Strategy, pair: string, feed: Feed, delivered: string -> bool)
    ensures RunPair(s, pair, feed).record == RunPair(s, pair, feed.(delivered := delivered)).record
  {
    var other := feed.(delivered := delivered);
    assert other.price == feed.price && other.ohlc == feed.ohlc;
  }

  /** Whether Telegram accepts the alerts does not change the records of a scan. */
  lemma {:induction false} RecordsIgnoreDelivery(ss: seq<Strategy>, day: Weekday, now: TimeOfDay, feed: Feed,
                                                 delivered: string -> bool)
    ensures Records(RunStrategies(ss, day, now, feed)) ==
            Records(RunStrategies(ss, day, now, feed.(delivered := delivered)))
  {
    if |ss| > 0 {
      var s := ss[|ss| - 1];
      var other := feed.(delivered := delivered);
      RecordsIgnoreDelivery(ss[..|ss| - 1], day, now, feed, delivered);
      var runs := if IsStrategyActive(s, day, now) then RunPairs(s, s.pairs, feed) else [];
      var runs' := if IsStrategyActive(s, day, now) then RunPairs(s, s.pairs, other) else [];
      RecordsAppend(RunStrategies(ss[..|ss| - 1], day, now, feed), runs);
      RecordsAppend(RunStrategies(ss[..|ss| - 1], day, now, other), runs');
      PairRecordsIgnoreDelivery(s, s.pairs, feed, delivered);
    }
  }

  /** A record of a strategy's pair loop names that strategy and one of its pairs. */
  lemma {:induction false} PairRecordsOrigin(s: Strategy, pairs: seq<string>, feed: Feed)
    ensures forall r :: r in Records(RunPairs(s, pairs, feed)) ==>
              r.strategy == s.name && r.pair in pairs && Fired(s, r.pair, feed) &&
              r.entry == feed.price(r.pair, s.source).value
  {
    if |pairs| > 0 {
      var init := pairs[..|pairs| - 1];
      var last := pairs[|pairs| - 1];
      PairRecordsOrigin(s, init, feed);
      RunsSnoc(RunPairs(s, init, feed), RunPair(s, last, feed));
      assert forall p :: p in init ==> p in pairs;
    }
  }

  /** Only active strategies produce records, and only for their own pairs. */
  lemma {:induction false} RecordsFromActiveStrategies(ss: seq<Strategy>, day: Weekday, now: TimeOfDay, feed: Feed)
    ensures forall r :: r in Records(RunStrategies(ss, day, now, feed)) ==>
              exists s :: s in ss && IsStrategyActive(s, day, now) && r.strategy == s.name && r.pair in s.pairs &&
                          Fired(s, r.pair, feed)
  {
    if |ss| > 0 {
      var init := ss[..|ss| - 1];
      var s := ss[|ss| - 1];
      RecordsFromActiveStrategies(init, day, now, feed);
      var runs := if IsStrategyActive(s, day, now) then RunPairs(s, s.pairs, feed) else [];
      RecordsAppend(RunStrategies(init, day, now, feed), runs);
      PairRecordsOrigin(s, s.pairs, feed);
      assert forall t :: t in init ==> t in ss;
    }
  }

  /** Number of `pairs` on which `s` fires. */
  function FiredPairCount(s: Strategy, pairs: seq<string>, feed: Feed): nat
  {
    if |pairs| == 0 then 0
    else FiredPairCount(s, pairs[..|pairs| - 1], feed) + (if Fired(s, pairs[|pairs| - 1], feed) then 1 else 0)
  }

  /** Number of pairs of active strategies on which their strategy fires. */
  function FiredCount(ss: seq<Strategy>, day: Weekday, now: TimeOfDay, feed: Feed): nat
  {
    if |ss| == 0 then 0
    else
      var s := ss[|ss| - 1];
      FiredCount(ss[..|ss| - 1], day, now, feed) + (if IsStrategyActive(s, day, now) then FiredPairCount(s, s.pairs, feed) else 0)
  }

  /** A strategy's pair loop records one signal per pair on which the strategy fires. */
  lemma {:induction false} PairRecordCount(s: Strategy, pairs: seq<string>, feed: Feed)
    ensures |Records(RunPairs(s, pairs, feed))| == FiredPairCount(s, pairs, feed)
  {
    if |pairs| > 0 {
      var init := pairs[..|pairs| - 1];
      PairRecordCount(s, init, feed);
      RunsSnoc(RunPairs(s, init, feed), RunPair(s, pairs[|pairs| - 1], feed));
    }
  }

  /** The strategy loop records one signal per pair of an active strategy that fires. */
  lemma {:induction false} RecordCountIsFiredCount(ss: seq<Strategy>, day: Weekday, now: TimeOfDay, feed: Feed)
    ensures |Records(RunStrategies(ss, day, now, feed))| == FiredCount(ss, day, now, feed)
  {
    if |ss| > 0 {
      var init := ss[..|ss| - 1];
      var s := ss[|ss| - 1];
      RecordCountIsFiredCount(init, day, now, feed);
      var runs := if IsStrategyActive(s, day, now) then RunPairs(s, s.pairs, feed) else [];
      RecordsAppend(RunStrategies(init, day, now, feed), runs);
      PairRecordCount(s, s.pairs, feed);
    }
  }

  lemma AppendAssociates<T>(a: seq<T>, b: seq<T>, c: seq<T>)
    ensures (a + b) + c == a + (b + c)
  {
  }

  /** One step of the strategy loop appends the active strategy's lines, records and alerts. */
  lemma StrategyLoopStep(ss: seq<Strategy>, i: nat, day: Weekday, now: TimeOfDay, feed: Feed)
    requires i < |ss|
    ensures var done := RunStrategies(ss[..i], day, now, feed);
            var next := RunStrategies(ss[..i + 1], day, now, feed);
            var runs := if IsStrategyActive(ss[i], day, now) then RunPairs(ss[i], ss[i].pairs, feed) else [];
            Statuses(next) == Statuses(done) + Statuses(runs) &&
            Records(next) == Records(done) + Records(runs) &&
            Alerts(Records(next)) == Alerts(Records(done)) + Alerts(Records(runs))
  {
    var done := RunStrategies(ss[..i], day, now, feed);
    var runs := if IsStrategyActive(ss[i], day, now) then RunPairs(ss[i], ss[i].pairs, feed) else [];
    RunStrategiesSnoc(ss, i, day, now, feed);
    StatusesAppend(done, runs);
    RecordsAppend(done, runs);
    AlertsAppend(Records(done), Records(runs));
  }

  /** What a scan at `day`, `now` reports and sends. */
  function ScanSpec(ss: seq<Strategy>, day: Weekday, now: TimeOfDay, feed: Feed): (out: ScanOutcome)
    ensures out.Skipped? <==> !ScanAllowed(day, HourOf(now))
    ensures out.Skipped? ==> (out.reason == Weekend <==> day >= Saturday)
    ensures out.Completed? ==> |out.messages| > 0 && out.messages[|out.messages| - 1] == Summary(out.title, out.results)
  {
    if !ScanAllowed(day, HourOf(now)) then Skipped(if day >= Saturday then Weekend else FridayEvening)
    else
      var runs := RunStrategies(ss, day, now, feed);
      var records := Records(runs);
      var title := SummaryTitle(|records|);
      Completed(Statuses(runs), |records|, title, Alerts(records) + [Summary(title, Statuses(runs))])
  }

  /** The records a scan appends to `signals`. */
  function NewSignals(ss: seq<Strategy>, day: Weekday, now: TimeOfDay, feed: Feed): seq<SignalRecord>
  {
    if !ScanAllowed(day, HourOf(now)) then [] else Records(RunStrategies(ss, day, now, feed))
  }

  /**
   * The body of the pair loop: the status line ending and, when the strategy
   * signalled, the merged record.  This is the imperative counterpart of
   * `RunPair`, which specifies it.
   */
  method ScanPair(strategy: Strategy, pair: string, feed: Feed) returns (status: PairOutcome, record: Option<SignalRecord>)
    ensures PairRun(StatusLine(strategy.name, pair, status), record) == RunPair(strategy, pair, feed)
  {
    record := None;
    var price := feed.price(pair, strategy.source);
    if price.None? {
      status := PriceFetchFailed;
      return;
    }
    var frame := feed.ohlc(pair, strategy.timeframe, strategy.source);
    if frame.None? || |frame.value.bars| < MinFrameBars {
      status := DataFetchFailed;
      return;
    }
    var signal := Evaluate(strategy.kind, frame.value, price.value);
    if signal.None? {
      status := NoSignal;
      return;
    }
    var levels := CalculateTargets(signal.value, price.value);
    record := Some(SignalRecord(signal.value, price.value, levels.tp, levels.sl, levels.pips, strategy.name, pair));
    status := if feed.delivered(pair) then SignalSent else SignalTelegramFailed;
  }

  /** Saturday, Sunday and Friday from 19:00 on: the scan is skipped, sends nothing and records nothing. */
  lemma ClosedMarketSkipped(ss: seq<Strategy>, day: Weekday, now: TimeOfDay, feed: Feed)
    requires day >= Saturday || (day == Friday && now >= 19 * 3600)
    ensures ScanSpec(ss, day, now, feed).Skipped?
    ensures NewSignals(ss, day, now, feed) == []
  {
    ScanAllowedAt(day, now);
  }

  /** Monday to Thursday, and Friday up to 18:59:59, the scan runs to its summary. */
  lemma OpenMarketScanned(ss: seq<Strategy>, day: Weekday, now: TimeOfDay, feed: Feed)
    requires day <= 3 || (day == Friday && now < 19 * 3600)
    ensures ScanSpec(ss, day, now, feed).Completed?
  {
    ScanAllowedAt(day, now);
  }

  /**
   * The bookkeeping of a completed scan: one status line per active pair,
   * the count equals both the number of new records and the number of status
   * lines reporting a signal, one alert per record then the summary, and a
   * title that carries the count.
   */
  lemma {:induction false} ScanBookkeeping(ss: seq<Strategy>, day: Weekday, now: TimeOfDay, feed: Feed)
    requires ScanSpec(ss, day, now, feed).Completed?
    ensures var out := ScanSpec(ss, day, now, feed);
            |out.results| == ActivePairCount(ss, day, now) &&
            out.signalCount == |NewSignals(ss, day, now, feed)| &&
            out.signalCount == CountSignalled(out.results) &&
            |out.messages| == out.signalCount + 1 &&
            out.messages[out.signalCount] == Summary(out.title, out.results) &&
            CountFromTitle(out.title) == out.signalCount
    ensures var out := ScanSpec(ss, day, now, feed);
            forall k :: 0 <= k < out.signalCount ==> out.messages[k] == Alert(NewSignals(ss, day, now, feed)[k])
    ensures ScanSpec(ss, day, now, feed).signalCount == FiredCount(ss, day, now, feed)
  {
    var runs := RunStrategies(ss, day, now, feed);
    StatusesLength(runs);
    StrategyRunsSound(ss, day, now, feed);
    RecordCountMatchesStatuses(runs);
    AlertsOnePerRecord(Records(runs));
    SummaryTitleRoundTrip(|Records(runs)|);
    RecordCountIsFiredCount(ss, day, now, feed);
  }

  /**
   * A scan records exactly one signal per pair of an active strategy on which
   * that strategy fires, and nothing when the gate skips it.
   */
  lemma NewSignalsAreFiredPairs(ss: seq<Strategy>, day: Weekday, now: TimeOfDay, feed: Feed)
    ensures |NewSignals(ss, day, now, feed)| == if ScanAllowed(day, HourOf(now)) then FiredCount(ss, day, now, feed) else 0
  {
    RecordCountIsFiredCount(ss, day, now, feed);
  }

  /** Every signal a scan records comes from an active strategy, for one of its pairs, with sound levels. */
  lemma ScanRecordsSound(ss: seq<Strategy>, day: Weekday, now: TimeOfDay, feed: Feed)
    ensures forall r :: r in NewSignals(ss, day, now, feed) ==>
              LevelsSound(r) &&
              exists s :: s in ss && IsStrategyActive(s, day, now) && r.strategy == s.name && r.pair in s.pairs &&
                          Fired(s, r.pair, feed)
  {
    StrategyRunsSound(ss, day, now, feed);
    RecordedLevelsSound(RunStrategies(ss, day, now, feed));
    RecordsFromActiveStrategies(ss, day, now, feed);
  }

  /** A failed Telegram delivery changes a status line, never the count or the recorded signals. */
  lemma DeliveryIndependentCount(ss: seq<Strategy>, day: Weekday, now: TimeOfDay, feed: Feed, delivered: string -> bool)
    ensures NewSignals(ss, day, now, feed) == NewSignals(ss, day, now, feed.(delivered := delivered))
    ensures ScanSpec(ss, day, now, feed).Completed? ==>
              ScanSpec(ss, day, now, feed).signalCount == ScanSpec(ss, day, now, feed.(delivered := delivered)).signalCount
  {
    RecordsIgnoreDelivery(ss, day, now, feed, delivered);
  }

  lemma {:induction false} StatusesLength(runs: seq<PairRun>)
    ensures |Statuses(runs)| == |runs|
  {
    if |runs| > 0 {
      StatusesLength(runs[..|runs| - 1]);
    }
  }

  /** One alert per record, in the records' order. */
  lemma {:induction false} AlertsOnePerRecord(records: seq<SignalRecord>)
    ensures |Alerts(records)| == |records|
    ensures forall k :: 0 <= k < |records| ==> Alerts(records)[k] == Alert(records[k])
  {
    if |records| > 0 {
      var init := records[..|records| - 1];
      AlertsOnePerRecord(init);
      forall k | 0 <= k < |records|
        ensures Alerts(records)[k] == Alert(records[k])
      {
        if k < |init| {
          assert records[k] == init[k];
        }
      }
    }
  }

  /** The Asian breakout entry runs Monday to Friday, 00:30 inclusive to 06:00 exclusive. */
  lemma AsianEntrySchedule(day: Weekday, now: TimeOfDay)
    ensures IsStrategyActive(AsianEntry, day, now) <==> day <= 4 && 30 * 60 <= now < 6 * 3600
  {
    assert day <= 4 <==> day in [0, 1, 2, 3, 4];
  }

  /** The gold entry runs Tuesday to Thursday, 09:00 inclusive to 17:00 exclusive. */
  lemma GoldEntrySchedule(day: Weekday, now: TimeOfDay)
    ensures IsStrategyActive(GoldEntry, day, now) <==> 1 <= day <= 3 && 9 * 3600 <= now < 17 * 3600
  {
    assert 1 <= day <= 3 <==> day in [1, 2, 3];
  }

  /**
   * The two windows of the table never overlap, so a scan runs at most one
   * strategy: three forex pairs, the gold pair, or nothing.
   */
  lemma DefaultTableOneStrategyAtATime(day: Weekday, now: TimeOfDay)
    ensures !(IsStrategyActive(AsianEntry, day, now) && IsStrategyActive(GoldEntry, day, now))
    ensures ActivePairCount(DefaultStrategies, day, now) ==
            if IsStrategyActive(AsianEntry, day, now) then 3
            else if IsStrategyActive(GoldEntry, day, now) then 1
            else 0
  {
    AsianEntrySchedule(day, now);
    GoldEntrySchedule(day, now);
    assert DefaultStrategies[..1] == [AsianEntry];
    assert [AsianEntry][..0] == [];
    assert |AsianEntry.pairs| == 3 && |GoldEntry.pairs| == 1;
    assert ActivePairCount([AsianEntry], day, now) == if IsStrategyActive(AsianEntry, day, now) then 3 else 0;
  }

  /** Outcome of `scan` exactly as written, where a run may end in an uncaught exception. */
  datatype WrittenRun = Raised | Returned(outcome: ScanOutcome)

  /**
   * `scan` as written: the name `time` is bound to the time-of-day class
   * (scanner.py:7 shadows the module imported at scanner.py:6), so the pause
   * at the top of the pair loop raises before the first pair of an active
   * strategy is scanned; no status line, signal or summary follows.
   */
  function ScanAsWritten(ss: seq<Strategy>, day: Weekday, now: TimeOfDay, feed: Feed): (r: WrittenRun)
    ensures r.Raised? <==> ScanAllowed(day, HourOf(now)) && ActivePairCount(ss, day, now) > 0
    ensures r.Returned? ==> r.outcome == ScanSpec(ss, day, now, feed)
    ensures r.Returned? && r.outcome.Completed? ==> r.outcome.results == [] && r.outcome.signalCount == 0
  {
    if !ScanAllowed(day, HourOf(now)) then Returned(ScanSpec(ss, day, now, feed))
    else if ActivePairCount(ss, day, now) > 0 then Raised
    else
      Returned(ScanSpec(ss, day, now, feed))
  }

  /**
   * Monday 01:00: the written code raises at the first forex pair and sends
   * nothing, while the scan with the pause as a no-op reports three pairs.
   */
  lemma SleepShadowingExample(feed: Feed)
    ensures ScanAsWritten(DefaultStrategies, 0, 3600, feed) == Raised
    ensures ScanSpec(DefaultStrategies, 0, 3600, feed).Completed?
    ensures |ScanSpec(DefaultStrategies, 0, 3600, feed).results| == 3
  {
    DefaultTableOneStrategyAtATime(0, 3600);
    AsianEntrySchedule(0, 3600);
    StatusesLength(RunStrategies(DefaultStrategies, 0, 3600, feed));
  }

  class Scanner {
    /** Every signal found since the scanner was created. */
    var signals: seq<SignalRecord>
    const strategies: seq<Strategy>

    constructor ()
      ensures signals == [] && strategies == DefaultStrategies
    {
      signals := [];
      strategies := DefaultStrategies;
    }

    /**
     * The pair loop of one active strategy: one status line per pair, and
     * every record found appended to `signals`.  The pause between API calls
     * is a no-op here.
     */
    method ScanPairs(strategy: Strategy, feed: Feed) returns (lines: seq<StatusLine>, found: seq<SignalRecord>)
      modifies this
      ensures lines == Statuses(RunPairs(strategy, strategy.pairs, feed))
      ensures found == Records(RunPairs(strategy, strategy.pairs, feed))
      ensures signals == old(signals) + found
    {
      lines, found := [], [];
      for j := 0 to |strategy.pairs|
        invariant lines == Statuses(RunPairs(strategy, strategy.pairs[..j], feed))
        invariant found == Records(RunPairs(strategy, strategy.pairs[..j], feed))
        invariant signals == old(signals) + found
      {
        var pair := strategy.pairs[j];
        var status, record := ScanPair(strategy, pair, feed);
        ghost var run := RunPair(strategy, pair, feed);
        RunPairsSnoc(strategy, strategy.pairs, j, feed);
        RunsSnoc(RunPairs(strategy, strategy.pairs[..j], feed), run);
        if record.Some? {
          signals := signals + [record.value];
          found := found + [record.value];
        }
        lines := lines + [StatusLine(strategy.name, pair, status)];
      }
      assert strategy.pairs[..|strategy.pairs|] == strategy.pairs;
    }

    /**
     * The strategy loop of `scan`: the pair loop of every active strategy,
     * in table order, with the status lines, the signal count and the alerts
     * it produces.
     */
    method ScanStrategies(day: Weekday, now: TimeOfDay, feed: Feed)
      returns (scanResults: seq<StatusLine>, signalCount: nat, alerts: seq<Message>)
      modifies this
      ensures scanResults == Statuses(RunStrategies(strategies, day, now, feed))
      ensures signals == old(signals) + Records(RunStrategies(strategies, day, now, feed))
      ensures signalCount == |Records(RunStrategies(strategies, day, now, feed))|
      ensures alerts == Alerts(Records(RunStrategies(strategies, day, now, feed)))
    {
      scanResults, signalCount, alerts := [], 0, [];
      ghost var runs: seq<PairRun> := [];
      for i := 0 to |strategies|
        invariant runs == RunStrategies(strategies[..i], day, now, feed)
        invariant scanResults == Statuses(runs)
        invariant signals == old(signals) + Records(runs)
        invariant signalCount == |Records(runs)|
        invariant alerts == Alerts(Records(runs))
      {
        var strategy := strategies[i];
        ghost var next := RunStrategies(strategies[..i + 1], day, now, feed);
        StrategyLoopStep(strategies, i, day, now, feed);
        if IsStrategyActive(strategy, day, now) {
          var lines, found := ScanPairs(strategy, feed);
          assert signals == old(signals) + Records(next) by {
            AppendAssociates(old(signals), Records(runs), found);
          }
          scanResults := scanResults + lines;
          signalCount := signalCount + |found|;
          alerts := alerts + Alerts(found);
        } else {
          assert Records(next) == Records(runs) by {
            assert Records(runs) + [] == Records(runs);
          }
          assert Statuses(next) == Statuses(runs) by {
            assert Statuses(runs) + [] == Statuses(runs);
          }
          assert Alerts(Records(next)) == Alerts(Records(runs));
        }
        runs := next;
      }
      assert strategies[..|strategies|] == strategies;
    }

    /**
     * `scan`: skips weekends and Friday evenings; otherwise runs every pair of
     * every active strategy, appends each found signal to `signals`, and ends
     * with the summary message.
     */
    method Scan(day: Weekday, now: TimeOfDay, feed: Feed) returns (outcome: ScanOutcome)
      modifies this
      ensures outcome == ScanSpec(strategies, day, now, feed)
      ensures signals == old(signals) + NewSignals(strategies, day, now, feed)
    {
      var hour := HourOf(now);
      if day >= Saturday {
        return Skipped(Weekend);
      }
      if day == Friday && hour > FridayLastHour {
        return Skipped(FridayEvening);
      }
      var scanResults, signalCount, alerts := ScanStrategies(day, now, feed);
      var title := SummaryTitle(signalCount);
      outcome := Completed(scanResults, signalCount, title, alerts + [Summary(title, scanResults)]);
    }
  }
}
