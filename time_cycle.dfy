/** The logical-day rule: a timestamp before the configured start hour
    belongs to the previous calendar day. */
module TimeCycle {

  type Hour = h: int | 0 <= h < 24

  /** A wall-clock moment: a calendar day number and the clock hour. */
  datatype Timestamp = Timestamp(day: int, hour: Hour)

  /** `get_logical_date(start_hour)` evaluated at `now`. */
  function LogicalDate(now: Timestamp, startHour: int): (d: int)
    ensures d == now.day || d == now.day - 1
    ensures d == now.day - 1 <==> now.hour < startHour
  {
    if now.hour < startHour then now.day - 1 else now.day
  }

  /** `t1` is no later than `t2`. */
  predicate NoLaterThan(t1: Timestamp, t2: Timestamp) {
    t1.day < t2.day || (t1.day == t2.day && t1.hour <= t2.hour)
  }

  /** With start hour 0 the logical date is the calendar date. */
  lemma MidnightStartNeverRollsBack(t: Timestamp)
    ensures LogicalDate(t, 0) == t.day
  {
  }

  /** With start hour 23 every hour but the last belongs to the previous day. */
  lemma LateStartRollsBackAllButLastHour(t: Timestamp)
    ensures LogicalDate(t, 23) == t.day <==> t.hour == 23
  {
  }

  /** The logical date never goes backwards as time advances. */
  lemma Monotone(t1: Timestamp, t2: Timestamp, startHour: int)
    requires NoLaterThan(t1, t2)
    ensures LogicalDate(t1, startHour) <= LogicalDate(t2, startHour)
  {
  }

  /** Twenty-four hours later the logical date is exactly one day later. */
  lemma NextDay(t: Timestamp, startHour: int)
    ensures LogicalDate(Timestamp(t.day + 1, t.hour), startHour) == LogicalDate(t, startHour) + 1
  {
  }

  /** The logical day `d` runs from hour `startHour` of day `d` up to hour
      `startHour - 1` of day `d + 1`. */
  lemma LogicalDayWindow(t: Timestamp, startHour: Hour, d: int)
    ensures LogicalDate(t, startHour) == d <==>
      (t.day == d && t.hour >= startHour) || (t.day == d + 1 && t.hour < startHour)
  {
  }
}
