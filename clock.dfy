/**
 * Instants and local date-times, the part of `java.time` the activity uses:
 * an instant is a count of nanoseconds since the epoch, a zone offset a count
 * of seconds, and a local date-time splits the shifted instant into a day
 * number and the hour, minute, second and nanosecond within that day.
 */
module Clock {
  /** Nanoseconds since 1970-01-01T00:00:00Z. */
  type Instant = int

  const NANOS_PER_SECOND: int := 1_000_000_000
  const NANOS_PER_MINUTE: int := 60 * NANOS_PER_SECOND
  const NANOS_PER_HOUR: int := 60 * NANOS_PER_MINUTE
  const NANOS_PER_DAY: int := 24 * NANOS_PER_HOUR

  datatype LocalDateTime = LocalDateTime(epochDay: int, hour: int, minute: int, second: int, nano: int) {
    ghost predicate Valid() {
      0 <= hour < 24 && 0 <= minute < 60 && 0 <= second < 60 && 0 <= nano < NANOS_PER_SECOND
    }
  }

  /** The local date-time that `instant` shows in a zone with the given offset. */
  function ToLocal(instant: Instant, offsetSeconds: int): (ldt: LocalDateTime)
    ensures ldt.Valid()
  {
    var local := instant + offsetSeconds * NANOS_PER_SECOND;
    var ofDay := local % NANOS_PER_DAY;
    var ofHour := ofDay % NANOS_PER_HOUR;
    var ofMinute := ofHour % NANOS_PER_MINUTE;
    LocalDateTime(local / NANOS_PER_DAY, ofDay / NANOS_PER_HOUR, ofHour / NANOS_PER_MINUTE,
                  ofMinute / NANOS_PER_SECOND, ofMinute % NANOS_PER_SECOND)
  }

  /** `toInstant()`: the instant a local date-time denotes at the given offset. */
  function ToInstant(ldt: LocalDateTime, offsetSeconds: int): Instant {
    ldt.epochDay * NANOS_PER_DAY + ldt.hour * NANOS_PER_HOUR + ldt.minute * NANOS_PER_MINUTE
      + ldt.second * NANOS_PER_SECOND + ldt.nano - offsetSeconds * NANOS_PER_SECOND
  }

  /** Converting to local time and back loses nothing. */
  lemma ToInstantOfLocal(instant: Instant, offsetSeconds: int)
    ensures ToInstant(ToLocal(instant, offsetSeconds), offsetSeconds) == instant
  {
  }

  /** Every valid local date-time is shown by exactly the instant it denotes. */
  lemma {:induction false} ToLocalOfInstant(ldt: LocalDateTime, offsetSeconds: int)
    requires ldt.Valid()
    ensures ToLocal(ToInstant(ldt, offsetSeconds), offsetSeconds) == ldt
  {
    var ofMinute := ldt.second * NANOS_PER_SECOND + ldt.nano;
    var ofHour := ldt.minute * NANOS_PER_MINUTE + ofMinute;
    var ofDay := ldt.hour * NANOS_PER_HOUR + ofHour;
    var local := ldt.epochDay * NANOS_PER_DAY + ofDay;
    assert local == ToInstant(ldt, offsetSeconds) + offsetSeconds * NANOS_PER_SECOND;
    UniqueDivMod(ldt.epochDay, ofDay, NANOS_PER_DAY);
    UniqueDivMod(ldt.hour, ofHour, NANOS_PER_HOUR);
    UniqueDivMod(ldt.minute, ofMinute, NANOS_PER_MINUTE);
    UniqueDivMod(ldt.second, ldt.nano, NANOS_PER_SECOND);
  }

  lemma DivMod(x: int, d: int)
    requires d > 0
    ensures x == (x / d) * d + x % d && 0 <= x % d < d
  {
  }

  lemma UniqueDivMod(q: int, r: int, d: int)
    requires d > 0 && 0 <= r < d
    ensures (q * d + r) / d == q && (q * d + r) % d == r
  {
    var x := q * d + r;
    DivMod(x, d);
    var q', r' := x / d, x % d;
    if q' < q {
      assert (q - q') * d >= d by { MulAtLeast(q - q', d); }
    } else if q' > q {
      assert (q' - q) * d >= d by { MulAtLeast(q' - q, d); }
    }
  }

  lemma MulAtLeast(k: int, d: int)
    requires k >= 1 && d > 0
    ensures k * d >= d
  {
  }

  /**
   * `now.withHour(0).withMinute(0).withSecond(0).toInstant()`: the instant at
   * which the local day of `now` began, keeping the nanosecond-of-second of
   * `now`, computed at one fixed offset.
   */
  function StartOfDay(now: Instant, offsetSeconds: int): (start: Instant)
    ensures start <= now < start + NANOS_PER_DAY
    ensures ToLocal(start, offsetSeconds) == ToLocal(now, offsetSeconds).(hour := 0, minute := 0, second := 0)
  {
    var ldt := ToLocal(now, offsetSeconds);
    var midnight := ldt.(hour := 0).(minute := 0).(second := 0);
    ToInstantOfLocal(now, offsetSeconds);
    ToLocalOfInstant(midnight, offsetSeconds);
    ToInstant(midnight, offsetSeconds)
  }
}
