/**
 * Instants and spans of UTC time. An instant is a count of nanoseconds since
 * the Unix epoch (chrono's `DateTime<Utc>` resolution); a span is a count of
 * nanoseconds (chrono's `Duration`). Leap seconds are not represented.
 */
module Clock {

  type Instant = int
  type Span = int

  const NanosPerSecond: int := 1_000_000_000
  const SecondsPerHour: int := 3600
  const Hour: Span := 3_600_000_000_000
  const Day: Span := 24 * Hour
  const Week: Span := 7 * Day

  /** The instant with minute, second and nanosecond set to zero. */
  function HourFloor(t: Instant): (h: Instant)
    ensures h % Hour == 0
    ensures h <= t < h + Hour
  {
    t - t % Hour
  }

  /** The hour start is the only hour-aligned instant at most one hour below `t`. */
  lemma HourFloorUnique(t: Instant, h: Instant)
    requires h % Hour == 0 && h <= t < h + Hour
    ensures HourFloor(t) == h
  {
    var f := HourFloor(t);
    assert (f - h) % Hour == 0 by {
      assert f == (f / Hour) * Hour;
      assert h == (h / Hour) * Hour;
      assert f - h == (f / Hour - h / Hour) * Hour;
    }
    assert -Hour < f - h < Hour;
  }

  /** Truncating to the hour is idempotent, and shifting by whole hours commutes with it. */
  lemma HourFloorShift(t: Instant, k: int)
    ensures HourFloor(HourFloor(t)) == HourFloor(t)
    ensures HourFloor(t + k * Hour) == HourFloor(t) + k * Hour
  {
    HourFloorUnique(HourFloor(t), HourFloor(t));
    var h := HourFloor(t) + k * Hour;
    assert h % Hour == 0 by {
      assert HourFloor(t) == (HourFloor(t) / Hour) * Hour;
      assert h == (HourFloor(t) / Hour + k) * Hour;
    }
    HourFloorUnique(t + k * Hour, h);
  }

  /** Whole seconds since the epoch, rounded down (chrono's `timestamp()`, arrow's `timestamp`). */
  function Timestamp(t: Instant): (s: int)
    ensures s * NanosPerSecond <= t < (s + 1) * NanosPerSecond
  {
    t / NanosPerSecond
  }
}
