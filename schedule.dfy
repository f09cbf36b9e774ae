/**
 * When the scanner runs: the per-strategy activity test (scanner.py:55-66)
 * and the global weekend / Friday-evening gate at the top of `scan`
 * (scanner.py:300-313).  The clock is read by the caller and passed in.
 */
module Schedule {
  import opened Market

  const Saturday: Weekday := 5
  const Friday: Weekday := 4
  /** The last Friday hour on which a scan still runs. */
  const FridayLastHour := 18

  /** The hour field of a local time: the whole hours elapsed since midnight. */
  function HourOf(now: TimeOfDay): (h: int)
    ensures 0 <= h < 24
    ensures h * 3600 <= now < (h + 1) * 3600
  {
    now / 3600
  }

  /**
   * `is_strategy_active`: a strategy with a day list is inactive on any other
   * day; otherwise it is active from the start of its window inclusive to the
   * end exclusive.
   */
  predicate IsStrategyActive(s: Strategy, day: Weekday, now: TimeOfDay)
    ensures IsStrategyActive(s, day, now) <==>
              (s.activeDays.None? || day in s.activeDays.value) && s.start <= now < s.end
  {
    if s.activeDays.Some? && day !in s.activeDays.value then false
    else s.start <= now < s.end
  }

  /** A day outside the list switches a strategy off, whatever the time. */
  lemma OffDayInactive(s: Strategy, day: Weekday, now: TimeOfDay)
    requires s.activeDays.Some? && day !in s.activeDays.value
    ensures !IsStrategyActive(s, day, now)
  {
  }

  /**
   * The window is half-open: on an allowed day a strategy is active at the
   * exact start of a non-empty window and inactive at its exact end.
   */
  lemma WindowHalfOpen(s: Strategy, day: Weekday)
    requires s.activeDays.None? || day in s.activeDays.value
    requires s.start < s.end
    ensures IsStrategyActive(s, day, s.start)
    ensures !IsStrategyActive(s, day, s.end)
  {
  }

  /** The global gate of `scan`: no weekend scans and none on Friday after hour 18. */
  predicate ScanAllowed(day: Weekday, hour: int)
    ensures ScanAllowed(day, hour) ==> day < Saturday
    ensures day < Friday ==> ScanAllowed(day, hour)
    ensures day == Friday ==> (ScanAllowed(day, hour) <==> hour <= FridayLastHour)
  {
    if day >= Saturday then false
    else !(day == Friday && hour > FridayLastHour)
  }

  /**
   * Stated on the clock instead of the hour field: a scan runs Monday to
   * Thursday at any time and on Friday strictly before 19:00, so Friday 18:xx
   * still scans.
   */
  lemma {:induction false} ScanAllowedAt(day: Weekday, now: TimeOfDay)
    ensures ScanAllowed(day, HourOf(now)) <==> day <= 3 || (day == Friday && now < 19 * 3600)
  {
    var h := HourOf(now);
    if day == Friday {
      if now < 19 * 3600 {
        assert h <= 18;
      } else {
        assert h >= 19;
      }
    }
  }

  /** Saturday and Sunday never pass the gate. */
  lemma WeekendSkipped(day: Weekday, hour: int)
    requires day >= Saturday
    ensures !ScanAllowed(day, hour)
  {
  }
}
