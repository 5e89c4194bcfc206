/**
 * The delay arithmetic of `setAlarmWithWorkManager`. Instants are integer
 * milliseconds since the epoch. Parsing the "HH:mm" text is done by a date
 * formatter this model does not contain, so the parsed instant arrives as an
 * input (None when parsing throws), and the clock reading arrives as `now`.
 */
module AlarmScheduling {
  import opened Wrappers

  const MillisPerSecond: int := 1000
  const MillisPerDay: int := 86_400_000

  /** The fixed offset added after the extracted time: 5 seconds. */
  const OffsetSeconds: int := 5
  const OffsetMillis: int := OffsetSeconds * MillisPerSecond

  /** The part of a calendar object the computation uses: its instant, updated in place. */
  class Calendar {
    var timeInMillis: int

    /** `Calendar.getInstance()`: a calendar set to the clock reading `clock`. */
    constructor (clock: int)
      ensures timeInMillis == clock
    {
      timeInMillis := clock;
    }

    /** `calendar.time = date`. */
    method SetTime(instant: int)
      modifies this
      ensures timeInMillis == instant
    {
      timeInMillis := instant;
    }

    /** `calendar.add(Calendar.SECOND, seconds)`. */
    method AddSeconds(seconds: int)
      modifies this
      ensures timeInMillis == old(timeInMillis) + seconds * MillisPerSecond
    {
      timeInMillis := timeInMillis + seconds * MillisPerSecond;
    }

    /**
     * Moves the instant by whole days, taking every day to be 24 hours long.
     * The code never does this; only the corrected computation
     * `SetAlarmNextOccurrence` uses it.
     */
    method AddDays(days: int)
      modifies this
      ensures timeInMillis == old(timeInMillis) + days * MillisPerDay
    {
      timeInMillis := timeInMillis + days * MillisPerDay;
    }
  }

  /** What reaches the scheduler: the trigger instant and the initial delay, or the caught failure. */
  datatype AlarmResult = Scheduled(triggerMillis: int, delayMillis: int) | ScheduleFailed

  /**
   * `setAlarmWithWorkManager` as written: the trigger is the parsed instant
   * plus the 5-second offset, and the delay handed to the work request is the
   * trigger minus `now`, neither clamped at zero nor rolled to a later day.
   */
  method SetAlarm(parsed: Option<int>, now: int) returns (r: AlarmResult)
    ensures parsed.None? <==> r.ScheduleFailed?
    ensures parsed.Some? ==> r.triggerMillis == parsed.value + OffsetMillis
    ensures parsed.Some? ==> now + r.delayMillis == r.triggerMillis
    ensures parsed.Some? ==> (r.delayMillis < 0 <==> r.triggerMillis < now)
  {
    var calendar := new Calendar(now);
    if parsed.None? {
      return ScheduleFailed;
    }
    calendar.SetTime(parsed.value);
    calendar.AddSeconds(OffsetSeconds);
    var delay := calendar.timeInMillis - now;
    return Scheduled(calendar.timeInMillis, delay);
  }

  /**
   * A time that has already passed gives a negative delay. Here the clock
   * reads 10:00 on the parsed instant's own day (which, for an "HH:mm" parse,
   * can only be 1970-01-01), and "09:00" is scheduled 3595 seconds in the past.
   */
  method PassedTimeExample() returns (r: AlarmResult)
    ensures r.Scheduled? && r.delayMillis == -3_595_000
  {
    var nineOClock := 9 * 3_600_000;
    var tenOClock := 10 * 3_600_000;
    r := SetAlarm(Some(nineOClock), tenOClock);
  }

  /**
   * The realistic case: "HH:mm" parses to an instant on 1970-01-01, so with
   * the clock at any later date (here October 2025) the delay is negative by
   * decades, and the work does not wait for the extracted time at all.
   */
  method EpochParsedTimeExample() returns (r: AlarmResult)
    ensures r.Scheduled? && r.delayMillis < -1_000_000_000_000
  {
    var nineOClockOnEpochDay := 9 * 3_600_000;
    var october2025 := 1_760_000_000_000;
    r := SetAlarm(Some(nineOClockOnEpochDay), october2025);
  }

  /**
   * The intended behaviour: after adding the offset, move the trigger forward
   * by whole days until it is no longer before `now`. The trigger is then the
   * first instant at or after `now` that lies a whole number of days after
   * the parsed instant plus the offset, and the delay is never negative.
   */
  method SetAlarmNextOccurrence(parsed: Option<int>, now: int) returns (r: AlarmResult)
    ensures parsed.None? <==> r.ScheduleFailed?
    ensures parsed.Some? ==> now + r.delayMillis == r.triggerMillis && r.delayMillis >= 0
    ensures parsed.Some? ==> r.triggerMillis >= parsed.value + OffsetMillis
    ensures parsed.Some? ==> (r.triggerMillis - (parsed.value + OffsetMillis)) % MillisPerDay == 0
    ensures parsed.Some? ==> r.triggerMillis == parsed.value + OffsetMillis || r.triggerMillis - MillisPerDay < now
  {
    var calendar := new Calendar(now);
    if parsed.None? {
      return ScheduleFailed;
    }
    calendar.SetTime(parsed.value);
    calendar.AddSeconds(OffsetSeconds);
    var base := calendar.timeInMillis;
    while calendar.timeInMillis < now
      invariant calendar.timeInMillis >= base
      invariant (calendar.timeInMillis - base) % MillisPerDay == 0
      invariant calendar.timeInMillis == base || calendar.timeInMillis - MillisPerDay < now
      decreases now - calendar.timeInMillis
    {
      calendar.AddDays(1);
    }
    var delay := calendar.timeInMillis - now;
    return Scheduled(calendar.timeInMillis, delay);
  }

  /** The same passed time under the corrected computation fires 23 hours and 5 seconds later. */
  method PassedTimeRolledForwardExample() returns (r: AlarmResult)
    ensures r.Scheduled? && r.delayMillis == 82_805_000
  {
    var nineOClock := 9 * 3_600_000;
    var tenOClock := 10 * 3_600_000;
    r := SetAlarmNextOccurrence(Some(nineOClock), tenOClock);
    assert r.triggerMillis == nineOClock + OffsetMillis + MillisPerDay by {
      var k := (r.triggerMillis - (nineOClock + OffsetMillis)) / MillisPerDay;
      assert r.triggerMillis == nineOClock + OffsetMillis + k * MillisPerDay;
    }
  }

  /** Under the corrected computation the epoch-day instant is moved to its next occurrence, less than a day ahead. */
  method EpochParsedTimeRolledForwardExample() returns (r: AlarmResult)
    ensures r.Scheduled? && 0 <= r.delayMillis < MillisPerDay
  {
    var nineOClockOnEpochDay := 9 * 3_600_000;
    var october2025 := 1_760_000_000_000;
    r := SetAlarmNextOccurrence(Some(nineOClockOnEpochDay), october2025);
  }
}
