/** The weekly statement window: Monday to Sunday in India Standard Time, in epoch milliseconds. */
module StatementPeriod {
  import opened Numbers

  const WEEK_MS := 7 * DAY_MS
  const IST_OFFSET_MS := 330 * 60_000

  datatype Period = Period(start: int, end: int)

  /** Whole days since the epoch; division floors, as the calendar does for earlier dates. */
  function UtcDay(t: int): int { t / DAY_MS }

  /** 0 = Sunday; the epoch was a Thursday. */
  function UtcWeekday(t: int): int { (UtcDay(t) + 4) % 7 }

  function LastCompletedWeek(now: int): Period {
    var local := now + IST_OFFSET_MS;
    var daysSinceMonday := (UtcWeekday(local) + 6) % 7;
    var currentMonday := (UtcDay(local) - daysSinceMonday) * DAY_MS - IST_OFFSET_MS;
    Period(currentMonday - 7 * DAY_MS, currentMonday)
  }

  predicate IsIstMondayMidnight(t: int) {
    (t + IST_OFFSET_MS) % DAY_MS == 0 && UtcWeekday(t + IST_OFFSET_MS) == 1
  }

  lemma WeekNumber(t: int)
    ensures IsIstMondayMidnight(t) <==> exists w: int :: t == (7 * w + 4) * DAY_MS - IST_OFFSET_MS
  {
    if IsIstMondayMidnight(t) {
      var d := UtcDay(t + IST_OFFSET_MS);
      var w := (d - 4) / 7;
      assert d == 7 * w + 4;
      assert t == (7 * w + 4) * DAY_MS - IST_OFFSET_MS;
    }
  }

  /** The window ends at the only IST Monday midnight within the last week, and spans exactly one week. */
  lemma WindowEndsThisMonday(now: int, t: int)
    ensures var p := LastCompletedWeek(now);
      && p.end <= now < p.end + WEEK_MS && p.end - p.start == WEEK_MS
      && (IsIstMondayMidnight(t) && t <= now < t + WEEK_MS <==> t == p.end)
  {
    var p := LastCompletedWeek(now);
    var local := now + IST_OFFSET_MS;
    var d := UtcDay(local);
    var k := (UtcWeekday(local) + 6) % 7;
    assert UtcDay((d - k) * DAY_MS) == d - k;
    assert IsIstMondayMidnight(p.end);
    WeekNumber(p.end);
    WeekNumber(t);
    if IsIstMondayMidnight(t) && t <= now < t + WEEK_MS {
      var w: int :| t == (7 * w + 4) * DAY_MS - IST_OFFSET_MS;
      var v: int :| p.end == (7 * v + 4) * DAY_MS - IST_OFFSET_MS;
      assert w == v;
    }
  }

  /** Successive windows coincide or follow one another; a week later the next one abuts. */
  lemma WindowsAbut(now: int, later: int)
    requires now <= later
    ensures var p, q := LastCompletedWeek(now), LastCompletedWeek(later);
      && (p == q || p.end <= q.start)
      && (later == now + WEEK_MS ==> q.start == p.end)
  {
    var p, q := LastCompletedWeek(now), LastCompletedWeek(later);
    WindowEndsThisMonday(now, p.end);
    WindowEndsThisMonday(later, q.end);
    WeekNumber(p.end);
    WeekNumber(q.end);
    var v: int :| p.end == (7 * v + 4) * DAY_MS - IST_OFFSET_MS;
    var w: int :| q.end == (7 * w + 4) * DAY_MS - IST_OFFSET_MS;
    assert v > w ==> p.end >= q.end + WEEK_MS;
    if v < w { assert q.end >= p.end + WEEK_MS; }
  }
}
