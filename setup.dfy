/** What a run is configured with: the Config message naming the project,
    the destination dataset and the time zone, and the package-level knobs
    that tests override (the backfill depth and the Put batch size). */
module Setup {
  import opened Outcomes
  import opened Calendar

  /** Config: the Cloud project, the BigQuery dataset, and the IANA time zone
      whose local days the rows are keyed by. */
  datatype Config = Config(project: string, dataset: string, timeZone: string)

  /** backfillDays and bqBatchSize. Both are plain ints: a non-positive backfill
      depth means no day is looked at, a non-positive batch size flushes after
      every SLO. */
  datatype Tuning = Tuning(backfillDays: int, batchSize: int)

  /** Metric retention is 42 days, so 40 days are backfilled; rows are written
      100 at a time. */
  const Defaults: Tuning := Tuning(40, 100)

  /** time.LoadLocation: the zone database, by name. */
  type Zones = string -> Result<Location>
}
