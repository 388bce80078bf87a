/** The day boundaries of the backfill window: daysAgoMidnightTimestamp. */
module Window {
  import opened Calendar

  /** The instant of local midnight starting the local date that lies `daysAgo`
      days before the local date of `now` in `loc`. The local day number
      `daysAgo` runs from DaysAgoMidnight(now, loc, daysAgo) to
      DaysAgoMidnight(now, loc, daysAgo - 1); its length is whatever the zone
      makes it (23, 24 or 25 hours, or a half-hour off across some transitions). */
  function DaysAgoMidnight(now: int, loc: Location, daysAgo: int): (t: int)
    ensures RoundTrips(loc) ==> loc.localDate(t) == ShiftDays(loc.localDate(now), daysAgo)
  {
    loc.midnight(ShiftDays(loc.localDate(now), daysAgo))
  }

  /** The local date a day boundary falls on, as `start.Format("2006-01-02")`
      names it. */
  function BoundaryDate(now: int, loc: Location, daysAgo: int): string {
    FormatDate(loc.localDate(DaysAgoMidnight(now, loc, daysAgo)))
  }

  /** In a zone where local midnight falls on its own date, the boundary for
      `daysAgo` is named after the date `daysAgo` days before today, and the day
      it starts ends at the midnight of the following date. */
  lemma BoundaryIsThatDay(now: int, loc: Location, daysAgo: int)
    requires RoundTrips(loc)
    ensures BoundaryDate(now, loc, daysAgo) == FormatDate(ShiftDays(loc.localDate(now), daysAgo))
    ensures DaysAgoMidnight(now, loc, daysAgo - 1)
         == loc.midnight(NextDay(ShiftDays(loc.localDate(now), daysAgo)))
  {
    ShiftDaysStep(loc.localDate(now), daysAgo - 1);
  }

  /** In a zone where later dates start later, every backfilled day is a
      non-empty interval: its start lies strictly before its end. */
  lemma DayHasPositiveLength(now: int, loc: Location, daysAgo: int)
    requires Monotone(loc)
    ensures DaysAgoMidnight(now, loc, daysAgo) < DaysAgoMidnight(now, loc, daysAgo - 1)
  {
    ShiftDaysStep(loc.localDate(now), daysAgo - 1);
    var d := ShiftDays(loc.localDate(now), daysAgo);
    assert Before(d, NextDay(d));
  }

  /** In such a zone, distinct offsets name distinct dates: no two backfilled
      days share a date string. */
  lemma BoundaryDatesDistinct(now: int, loc: Location, i: int, j: int)
    requires RoundTrips(loc)
    requires i != j
    ensures BoundaryDate(now, loc, i) != BoundaryDate(now, loc, j)
  {
    var today := loc.localDate(now);
    BoundaryIsThatDay(now, loc, i);
    BoundaryIsThatDay(now, loc, j);
    if i < j {
      ShiftDaysOrdered(today, i, j);
    } else {
      ShiftDaysOrdered(today, j, i);
    }
    if BoundaryDate(now, loc, i) == BoundaryDate(now, loc, j) {
      FormatDateInjective(ShiftDays(today, i), ShiftDays(today, j));
    }
  }

  /** The backfill window as seen at one instant in one zone: the day `d`
      days back starts at start(d), ends at start(d - 1), and is named
      name(d). */
  datatype DayGrid = DayGrid(start: int -> int, name: int -> string)

  function GridAt(now: int, loc: Location): DayGrid {
    DayGrid(d => DaysAgoMidnight(now, loc, d), d => BoundaryDate(now, loc, d))
  }

  /** No two days of the grid share a name. */
  ghost predicate DistinctNames(g: DayGrid) {
    forall i, j :: i != j ==> g.name(i) != g.name(j)
  }

  /** In a zone where local midnight falls on its own date, every day of the
      grid has a name of its own. */
  lemma GridNamesDistinct(now: int, loc: Location)
    requires RoundTrips(loc)
    ensures DistinctNames(GridAt(now, loc))
  {
    var g := GridAt(now, loc);
    forall i, j | i != j
      ensures g.name(i) != g.name(j)
    {
      BoundaryDatesDistinct(now, loc, i, j);
    }
  }
}
