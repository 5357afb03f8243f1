/**
 * Step records and the two pieces of time arithmetic the activity performs:
 * the aggregation window for today and the sample payload it inserts.
 */
module Steps {
  import opened Clock

  /** `StepsRecord`: a count over [startTime, endTime) with the zone offsets at both ends. */
  datatype StepsRecord = StepsRecord(count: int, startTime: Instant, endTime: Instant,
                                     startZoneOffset: int, endZoneOffset: int)

  /** `TimeRangeFilter.between(startTime, endTime)`. */
  datatype TimeRange = Between(start: Instant, end: Instant)

  const ONE_MINUTE: int := 60 * NANOS_PER_SECOND
  const HALF_MINUTE: int := 30 * NANOS_PER_SECOND

  /**
   * The window `aggregateSteps` queries: from the start of the local day of
   * `now` up to `now`, with `zoneOffsetAt` giving the system zone's offset in
   * seconds at an instant.
   */
  function TodayRange(now: Instant, zoneOffsetAt: Instant -> int): (r: TimeRange)
    ensures r.end == now
    ensures r.start <= r.end < r.start + NANOS_PER_DAY
    ensures ToLocal(r.start, zoneOffsetAt(now)) == ToLocal(now, zoneOffsetAt(now)).(hour := 0, minute := 0, second := 0)
  {
    Between(StartOfDay(now, zoneOffsetAt(now)), now)
  }

  /** A record whose zone offsets are looked up independently at its own two instants. */
  function RecordOver(count: int, start: Instant, end: Instant, zoneOffsetAt: Instant -> int): StepsRecord {
    StepsRecord(count, start, end, zoneOffsetAt(start), zoneOffsetAt(end))
  }

  predicate Covers(r: StepsRecord, t: Instant) {
    r.startTime <= t < r.endTime
  }

  /** The payload `insertSteps` submits: 2300 steps, then 1000 steps, over the last minute. */
  function SampleRecords(now: Instant, zoneOffsetAt: Instant -> int): (records: seq<StepsRecord>)
    ensures |records| == 2
    ensures records[0].count == 2300 && records[1].count == 1000
    ensures records[0].endTime == records[1].startTime
    ensures records[0].startTime == now - ONE_MINUTE && records[1].endTime == now
    ensures forall r <- records ::
              r.endTime - r.startTime == HALF_MINUTE
              && r.startZoneOffset == zoneOffsetAt(r.startTime)
              && r.endZoneOffset == zoneOffsetAt(r.endTime)
  {
    var startTime1 := now - ONE_MINUTE;
    var endTime1 := now - HALF_MINUTE;
    var startTime2 := endTime1;
    var endTime2 := now;
    [RecordOver(2300, startTime1, endTime1, zoneOffsetAt), RecordOver(1000, startTime2, endTime2, zoneOffsetAt)]
  }

  /**
   * The two sample records partition the minute that ends at `now`: every
   * instant of it lies in exactly one record, and no other instant in either.
   */
  lemma SampleRecordsPartitionLastMinute(now: Instant, zoneOffsetAt: Instant -> int, t: Instant)
    ensures var records := SampleRecords(now, zoneOffsetAt);
            && (now - ONE_MINUTE <= t < now <==> Covers(records[0], t) || Covers(records[1], t))
            && !(Covers(records[0], t) && Covers(records[1], t))
  {
  }
}
