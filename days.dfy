/** The days of one SLO still to be written: newRecords walks the backfill
    window from yesterday backwards, skips every day the index already holds,
    and reads the good/total counts of the others. */
module Days {
  import opened Outcomes
  import opened Calendar
  import opened Window
  import opened SloClient
  import opened Monitoring
  import opened BigQuery
  import opened Setup
  import opened BqMap
  import opened Sli

  /** What one run sees: its configuration and tuning, the clock reading, the
      zone database and the metrics backend. */
  datatype Env = Env(cfg: Config, tuning: Tuning, now: int, zones: Zones, metrics: MetricClient)

  /** The key of the day `daysAgo` days back for this SLO. */
  function DayKey(env: Env, grid: DayGrid, svc: Service, slo: Slo, daysAgo: int): Key
    requires svc.Named() && slo.Named()
  {
    Key(svc.HumanName(), slo.HumanName(), grid.name(daysAgo))
  }

  /** One day of the walk, `daysAgo` days back, after the rows and requests
      of the days before it: a failure or an indexed day leaves them as they
      are; otherwise the day's counts are read and its row appended. */
  function DayStep(env: Env, grid: DayGrid, svc: Service, slo: Slo, existing: set<Key>, daysAgo: int,
                   prev: Traced<seq<BQRow>>): Traced<seq<BQRow>>
    requires svc.Named() && slo.Named() && slo.HasRatio()
  {
    if prev.result.Err? || DayKey(env, grid, svc, slo, daysAgo) in existing then prev
    else
      var counts := GetGoodTotal(env.cfg.project, slo.Ratio(),
                                 grid.start(daysAgo), grid.start(daysAgo - 1),
                                 env.metrics);
      var queries := prev.queries + counts.queries;
      if counts.result.Err? then Traced(Err(counts.result.error), queries)
      else
        var row := BQRow(svc.HumanName(), slo.HumanName(), grid.name(daysAgo),
                         counts.result.value.1, counts.result.value.0, slo.goal);
        Traced(Ok(prev.result.value + [row]), queries)
  }

  /** The rows for days 1..n of the window (n days back being the oldest),
      in the order they are produced, and the metric requests issued; the first
      failing day ends the walk with its error. */
  function Backfill(env: Env, grid: DayGrid, svc: Service, slo: Slo, existing: set<Key>, n: int)
    : (r: Traced<seq<BQRow>>)
    requires svc.Named() && slo.Named() && slo.HasRatio()
    ensures r.result.Ok? ==> |r.result.value| <= if n < 0 then 0 else n
    decreases n
  {
    if n <= 0 then Traced(Ok([]), [])
    else DayStep(env, grid, svc, slo, existing, n, Backfill(env, grid, svc, slo, existing, n - 1))
  }

  /** Every row produced belongs to this SLO, is not indexed yet, and is dated
      on one of the days walked. */
  lemma {:induction false} BackfillRows(env: Env, grid: DayGrid, svc: Service, slo: Slo,
                                        existing: set<Key>, n: int, i: int)
    requires svc.Named() && slo.Named() && slo.HasRatio()
    requires Backfill(env, grid, svc, slo, existing, n).result.Ok?
    requires 0 <= i < |Backfill(env, grid, svc, slo, existing, n).result.value|
    ensures var row := Backfill(env, grid, svc, slo, existing, n).result.value[i];
            && row.service == svc.HumanName() && row.slo == slo.HumanName() && row.target == slo.goal
            && KeyOf(row) !in existing
            && exists d :: 1 <= d <= n && row.date == grid.name(d)
    decreases n
  {
    var prev := Backfill(env, grid, svc, slo, existing, n - 1);
    var rows := Backfill(env, grid, svc, slo, existing, n).result.value;
    if rows != prev.result.value {
      if i < |prev.result.value| {
        BackfillRows(env, grid, svc, slo, existing, n - 1, i);
        assert rows[i] == prev.result.value[i];
      } else {
        assert rows[i].date == grid.name(n);
      }
    } else {
      BackfillRows(env, grid, svc, slo, existing, n - 1, i);
    }
  }

  /** Every row carries the good and total counts getGoodTotal reads over
      the day it is dated on. */
  lemma {:induction false} BackfillRowCounts(env: Env, grid: DayGrid, svc: Service, slo: Slo,
                                             existing: set<Key>, n: int, i: int)
    requires svc.Named() && slo.Named() && slo.HasRatio()
    requires Backfill(env, grid, svc, slo, existing, n).result.Ok?
    requires 0 <= i < |Backfill(env, grid, svc, slo, existing, n).result.value|
    ensures var row := Backfill(env, grid, svc, slo, existing, n).result.value[i];
            exists d :: 1 <= d <= n && row.date == grid.name(d)
                        && GetGoodTotal(env.cfg.project, slo.Ratio(), grid.start(d), grid.start(d - 1), env.metrics).result
                           == Ok((row.good, row.total))
    decreases n
  {
    var prev := Backfill(env, grid, svc, slo, existing, n - 1);
    var rows := Backfill(env, grid, svc, slo, existing, n).result.value;
    if rows != prev.result.value {
      if i < |prev.result.value| {
        BackfillRowCounts(env, grid, svc, slo, existing, n - 1, i);
        assert rows[i] == prev.result.value[i];
      } else {
        assert rows[i].date == grid.name(n);
      }
    } else {
      BackfillRowCounts(env, grid, svc, slo, existing, n - 1, i);
    }
  }

  /** Once a day fails, the walk's outcome is settled: later days change
      nothing. */
  lemma {:induction false} FailureSticks(env: Env, grid: DayGrid, svc: Service, slo: Slo,
                                         existing: set<Key>, m: int, n: int)
    requires svc.Named() && slo.Named() && slo.HasRatio()
    requires m <= n
    requires Backfill(env, grid, svc, slo, existing, m).result.Err?
    ensures Backfill(env, grid, svc, slo, existing, n) == Backfill(env, grid, svc, slo, existing, m)
    decreases n - m
  {
    if m < n {
      FailureSticks(env, grid, svc, slo, existing, m, n - 1);
    }
  }

  /** What newRecords yields: the zone is loaded, then the whole window is
      walked. */
  function Records(env: Env, svc: Service, slo: Slo, existing: set<Key>): Traced<seq<BQRow>>
    requires svc.Named() && slo.Named() && slo.HasRatio()
  {
    match env.zones(env.cfg.timeZone)
    case Err(e) => Traced(Err(e), [])
    case Ok(loc) => Backfill(env, GridAt(env.now, loc), svc, slo, existing, env.tuning.backfillDays)
  }

  /** A day whose key is indexed costs nothing: when every day of the window
      is indexed, no row is produced and the backend is never asked. */
  lemma {:induction false} NothingPending(env: Env, grid: DayGrid, svc: Service, slo: Slo,
                                          existing: set<Key>, n: int)
    requires svc.Named() && slo.Named() && slo.HasRatio()
    requires forall d :: 1 <= d <= n ==> DayKey(env, grid, svc, slo, d) in existing
    ensures Backfill(env, grid, svc, slo, existing, n) == Traced(Ok([]), [])
    decreases n
  {
    if n > 0 {
      NothingPending(env, grid, svc, slo, existing, n - 1);
    }
  }

  /** A successful walk covers the window: every day is either indexed or
      produced as a row. */
  lemma {:induction false} BackfillComplete(env: Env, grid: DayGrid, svc: Service, slo: Slo,
                                            existing: set<Key>, n: int, d: int)
    requires svc.Named() && slo.Named() && slo.HasRatio()
    requires Backfill(env, grid, svc, slo, existing, n).result.Ok?
    requires 1 <= d <= n
    ensures var rows := Backfill(env, grid, svc, slo, existing, n).result.value;
            DayKey(env, grid, svc, slo, d) in existing
            || exists i :: 0 <= i < |rows| && KeyOf(rows[i]) == DayKey(env, grid, svc, slo, d)
    decreases n
  {
    var prev := Backfill(env, grid, svc, slo, existing, n - 1);
    var rows := Backfill(env, grid, svc, slo, existing, n).result.value;
    if d < n {
      BackfillComplete(env, grid, svc, slo, existing, n - 1, d);
      var old_rows := prev.result.value;
      assert rows[..|old_rows|] == old_rows;
      if DayKey(env, grid, svc, slo, d) !in existing {
        var i :| 0 <= i < |old_rows| && KeyOf(old_rows[i]) == DayKey(env, grid, svc, slo, d);
        assert KeyOf(rows[i]) == DayKey(env, grid, svc, slo, d);
      }
    } else if DayKey(env, grid, svc, slo, d) !in existing {
      assert KeyOf(rows[|rows| - 1]) == DayKey(env, grid, svc, slo, d);
    }
  }

  /** Running the walk again with the produced rows added to the index
      produces nothing and asks the backend nothing: a day is never written
      twice. */
  lemma RerunWritesNothing(env: Env, grid: DayGrid, svc: Service, slo: Slo, existing: set<Key>, n: int)
    requires svc.Named() && slo.Named() && slo.HasRatio()
    requires Backfill(env, grid, svc, slo, existing, n).result.Ok?
    ensures var rows := Backfill(env, grid, svc, slo, existing, n).result.value;
            Backfill(env, grid, svc, slo, existing + KeysOf(rows), n) == Traced(Ok([]), [])
  {
    var rows := Backfill(env, grid, svc, slo, existing, n).result.value;
    forall d | 1 <= d <= n
      ensures DayKey(env, grid, svc, slo, d) in existing + KeysOf(rows)
    {
      BackfillComplete(env, grid, svc, slo, existing, n, d);
      KeysOfMembers(rows, DayKey(env, grid, svc, slo, d));
    }
    NothingPending(env, grid, svc, slo, existing + KeysOf(rows), n);
  }

  /** Each day adds at most one row, dated on that day. */
  lemma NewestRow(env: Env, grid: DayGrid, svc: Service, slo: Slo, existing: set<Key>, n: int)
    requires svc.Named() && slo.Named() && slo.HasRatio()
    requires n > 0
    requires Backfill(env, grid, svc, slo, existing, n).result.Ok?
    ensures var prev := Backfill(env, grid, svc, slo, existing, n - 1).result;
            var rows := Backfill(env, grid, svc, slo, existing, n).result.value;
            && prev.Ok?
            && (rows == prev.value
                || (|rows| == |prev.value| + 1 && rows[..|prev.value|] == prev.value
                    && rows[|prev.value|].date == grid.name(n)))
  {
  }

  /** When the grid names every day differently, no row of days 1..n-1 is
      dated on day n. */
  lemma OlderRowsElsewhere(env: Env, grid: DayGrid, svc: Service, slo: Slo, existing: set<Key>, n: int, i: int)
    requires svc.Named() && slo.Named() && slo.HasRatio()
    requires DistinctNames(grid)
    requires Backfill(env, grid, svc, slo, existing, n - 1).result.Ok?
    requires 0 <= i < |Backfill(env, grid, svc, slo, existing, n - 1).result.value|
    ensures Backfill(env, grid, svc, slo, existing, n - 1).result.value[i].date != grid.name(n)
  {
    var olds := Backfill(env, grid, svc, slo, existing, n - 1).result.value;
    BackfillRows(env, grid, svc, slo, existing, n - 1, i);
    var d :| 1 <= d <= n - 1 && olds[i].date == grid.name(d);
    assert grid.name(d) != grid.name(n);
  }

  /** When the grid names every day differently, the rows of one walk carry
      pairwise distinct dates. */
  lemma {:induction false} BackfillDatesDistinct(env: Env, grid: DayGrid, svc: Service, slo: Slo,
                                                 existing: set<Key>, n: int)
    requires svc.Named() && slo.Named() && slo.HasRatio()
    requires DistinctNames(grid)
    requires Backfill(env, grid, svc, slo, existing, n).result.Ok?
    ensures var rows := Backfill(env, grid, svc, slo, existing, n).result.value;
            forall i, j :: 0 <= i < j < |rows| ==> rows[i].date != rows[j].date
    decreases n
  {
    if n > 0 {
      NewestRow(env, grid, svc, slo, existing, n);
      var olds := Backfill(env, grid, svc, slo, existing, n - 1).result.value;
      var rows := Backfill(env, grid, svc, slo, existing, n).result.value;
      BackfillDatesDistinct(env, grid, svc, slo, existing, n - 1);
      if rows != olds {
        forall i, j | 0 <= i < j < |rows|
          ensures rows[i].date != rows[j].date
        {
          assert rows[i] == olds[i];
          if j < |olds| {
            assert rows[j] == olds[j];
          } else {
            OlderRowsElsewhere(env, grid, svc, slo, existing, n, i);
          }
        }
      }
    }
  }

  /** newRecords: loads the zone and walks the window it defines. */
  method NewRecords(env: Env, svc: Service, slo: Slo, existing: Index) returns (r: Traced<seq<BQRow>>)
    requires svc.Named() && slo.Named() && slo.HasRatio()
    ensures r == Records(env, svc, slo, existing.keys)
  {
    var zone := env.zones(env.cfg.timeZone);
    if zone.Err? {
      return Traced(Err(zone.error), []);
    }
    r := Walk(env, GridAt(env.now, zone.value), svc, slo, existing);
  }

  /** The loop of newRecords: days 1..backfillDays, skipping the indexed
      ones, stopping at the first day whose counts cannot be read. */
  method Walk(env: Env, grid: DayGrid, svc: Service, slo: Slo, existing: Index) returns (r: Traced<seq<BQRow>>)
    requires svc.Named() && slo.Named() && slo.HasRatio()
    ensures r == Backfill(env, grid, svc, slo, existing.keys, env.tuning.backfillDays)
  {
    var rows: seq<BQRow> := [];
    var queries: seq<Request> := [];
    var daysAgo := 1;
    while daysAgo <= env.tuning.backfillDays
      invariant 1 <= daysAgo <= if env.tuning.backfillDays < 1 then 1 else env.tuning.backfillDays + 1
      invariant Backfill(env, grid, svc, slo, existing.keys, daysAgo - 1) == Traced(Ok(rows), queries)
    {
      var start := grid.start(daysAgo);
      var end := grid.start(daysAgo - 1);
      var row := BQRow(svc.HumanName(), slo.HumanName(), grid.name(daysAgo), 0, 0, slo.goal);
      if !existing.Check(row.service, row.slo, row.date) {
        var counts := GetGoodTotal(env.cfg.project, slo.Ratio(), start, end, env.metrics);
        queries := queries + counts.queries;
        if counts.result.Err? {
          FailureSticks(env, grid, svc, slo, existing.keys, daysAgo, env.tuning.backfillDays);
          return Traced(Err(counts.result.error), queries);
        }
        rows := rows + [row.(good := counts.result.value.0, total := counts.result.value.1)];
      }
      daysAgo := daysAgo + 1;
    }
    r := Traced(Ok(rows), queries);
  }

  /** In a zone where local midnight falls on its own date, the rows
      newRecords produces for one SLO carry pairwise distinct dates. */
  lemma RecordsDatesDistinct(env: Env, svc: Service, slo: Slo, existing: set<Key>)
    requires svc.Named() && slo.Named() && slo.HasRatio()
    requires env.zones(env.cfg.timeZone).Ok? && RoundTrips(env.zones(env.cfg.timeZone).value)
    requires Records(env, svc, slo, existing).result.Ok?
    ensures var rows := Records(env, svc, slo, existing).result.value;
            forall i, j :: 0 <= i < j < |rows| ==> rows[i].date != rows[j].date
  {
    var loc := env.zones(env.cfg.timeZone).value;
    GridNamesDistinct(env.now, loc);
    BackfillDatesDistinct(env, GridAt(env.now, loc), svc, slo, existing, env.tuning.backfillDays);
  }

  /** What newRecords promises: a zone that cannot be loaded fails the SLO
      before any metric request; otherwise at most backfillDays rows, each
      for this service and SLO with its goal as target, and none of them
      already indexed. */
  lemma RecordsRows(env: Env, svc: Service, slo: Slo, existing: set<Key>)
    requires svc.Named() && slo.Named() && slo.HasRatio()
    ensures var zone := env.zones(env.cfg.timeZone);
            zone.Err? ==> Records(env, svc, slo, existing) == Traced(Err(zone.error), [])
    ensures var r := Records(env, svc, slo, existing).result;
            r.Ok? ==>
              && |r.value| <= (if env.tuning.backfillDays < 0 then 0 else env.tuning.backfillDays)
              && forall i :: 0 <= i < |r.value| ==>
                   && r.value[i].service == svc.HumanName() && r.value[i].slo == slo.HumanName()
                   && r.value[i].target == slo.goal && KeyOf(r.value[i]) !in existing
  {
    var zone := env.zones(env.cfg.timeZone);
    if zone.Ok? {
      var grid := GridAt(env.now, zone.value);
      var r := Backfill(env, grid, svc, slo, existing, env.tuning.backfillDays).result;
      if r.Ok? {
        forall i | 0 <= i < |r.value|
          ensures && r.value[i].service == svc.HumanName() && r.value[i].slo == slo.HumanName()
                  && r.value[i].target == slo.goal && KeyOf(r.value[i]) !in existing
        {
          BackfillRows(env, grid, svc, slo, existing, env.tuning.backfillDays, i);
        }
      }
    }
  }

  /** The counts of every row newRecords produces are those getGoodTotal
      reads over the window day the row is dated on; the zone's grid gives
      that day's name and its [start, end) as daysAgoMidnightTimestamp does
      (GridAt). */
  lemma RecordsCounts(env: Env, svc: Service, slo: Slo, existing: set<Key>)
    requires svc.Named() && slo.Named() && slo.HasRatio()
    ensures var zone := env.zones(env.cfg.timeZone);
            var r := Records(env, svc, slo, existing).result;
            zone.Ok? && r.Ok? ==>
              var grid := GridAt(env.now, zone.value);
              forall i :: 0 <= i < |r.value| ==>
                exists d :: 1 <= d <= env.tuning.backfillDays
                  && r.value[i].date == grid.name(d)
                  && GetGoodTotal(env.cfg.project, slo.Ratio(), grid.start(d), grid.start(d - 1), env.metrics).result
                     == Ok((r.value[i].good, r.value[i].total))
  {
    var zone := env.zones(env.cfg.timeZone);
    if zone.Ok? {
      var grid := GridAt(env.now, zone.value);
      var r := Records(env, svc, slo, existing).result;
      assert r == Backfill(env, grid, svc, slo, existing, env.tuning.backfillDays).result;
      if r.Ok? {
        forall i | 0 <= i < |r.value|
          ensures exists d :: 1 <= d <= env.tuning.backfillDays
                    && r.value[i].date == grid.name(d)
                    && GetGoodTotal(env.cfg.project, slo.Ratio(), grid.start(d), grid.start(d - 1), env.metrics).result
                       == Ok((r.value[i].good, r.value[i].total))
        {
          BackfillRowCounts(env, grid, svc, slo, existing, env.tuning.backfillDays, i);
        }
      }
    }
  }

  /** An indexed day costs no request: every metric request of the walk is
      for a day of the window whose key is not indexed, over that day's
      interval. */
  lemma {:induction false} BackfillQueries(env: Env, grid: DayGrid, svc: Service, slo: Slo,
                                           existing: set<Key>, n: int, k: int)
    requires svc.Named() && slo.Named() && slo.HasRatio()
    requires 0 <= k < |Backfill(env, grid, svc, slo, existing, n).queries|
    ensures var q := Backfill(env, grid, svc, slo, existing, n).queries[k];
            exists d :: 1 <= d <= n && DayKey(env, grid, svc, slo, d) !in existing
                        && q.startSeconds == grid.start(d) && q.endSeconds == grid.start(d - 1)
    decreases n
  {
    var prev := Backfill(env, grid, svc, slo, existing, n - 1);
    var cur := Backfill(env, grid, svc, slo, existing, n);
    if cur == prev {
      BackfillQueries(env, grid, svc, slo, existing, n - 1, k);
    } else {
      var counts := GetGoodTotal(env.cfg.project, slo.Ratio(), grid.start(n), grid.start(n - 1), env.metrics);
      assert cur.queries == prev.queries + counts.queries;
      if k < |prev.queries| {
        BackfillQueries(env, grid, svc, slo, existing, n - 1, k);
        assert cur.queries[k] == prev.queries[k];
      } else {
        assert cur.queries[k] == counts.queries[k - |prev.queries|];
        assert DayKey(env, grid, svc, slo, n) !in existing;
      }
    }
  }
}
