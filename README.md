# slo2bq sync core, modelled in Dafny

slo2bq copies the daily performance of every Stackdriver SLO into a
BigQuery table. Each row holds one (service, SLO, date) and carries the good
and total event counts of that local day and the SLO's goal. A run does the following:

- takes a lease stored as a dataset metadata label, so that only one run
  works at a time;
- reads the keys of the rows already in the table for the last 40 days;
- walks every service and every SLO of the catalog;
- for each SLO measured by a good/total ratio, reads the counters of every
  day that is not in the table yet;
- writes the new rows in batches of at least 100 rows, then makes one
  final write of whatever is left.

The model covers these parts of the program:

| module (file) | what it models |
|---|---|
| `Outcomes` (outcomes.dfy) | `Option`, `Result` and the error cases the sync can return |
| `Decimal` (decimal.dfy) | `strconv.FormatInt` / `strconv.ParseInt` in base 10 for int64, with both round trips |
| `Calendar` (calendar.dfy) | proleptic Gregorian dates, `AddDate(0, 0, -n)` as `ShiftDays`, the `2006-01-02` layout and its parser, and a time zone as an uninterpreted `Location` |
| `Window` (window.dfy) | `daysAgoMidnightTimestamp` and the date each day boundary is named after |
| `SloClient` (slo_client.dfy) | the `Service` and `SLO` records and their `HumanName`s, including `strings.Split` |
| `Monitoring` (monitoring.dfy) | the ListTimeSeries request and the time series it answers with |
| `Sli` (sli.dfy) | `getCounter` and `getGoodTotal` |
| `BigQuery` (bigquery.dfy) | the warehouse client as a class: a query log, a Put history, and dataset labels guarded by etags |
| `Setup` (setup.dfy) | `Config`, `backfillDays`, `bqBatchSize`, and `time.LoadLocation` as a function |
| `BqMap` (bqmap.dfy) | `bqMap` as a class over a set of keys, and `readBQMap` |
| `Lease` (bqlease.dfy) | `newBqLease` and `bqLease.Close` |
| `Days` (days.dfy) | `newRecords` |
| `Sync` (sync.dfy) | `syncAllServices` |

Functions that never change during a run are modelled as function-typed
values:

- the metrics backend, from request to answer;
- the zone database, from name to zone;
- the SLO catalog.

Each loop of the source is a method with a `while` loop. Its invariant ties
the loop's state to a recursive specification function:

- `Backfill` for newRecords;
- `KeysOf` and `FirstUnkeyed` for readBQMap;
- `SlosFold` and `ServicesFold` for syncAllServices.

The properties the program promises are proved as lemmas about those
functions, including:

- every missing row is written exactly once;
- batches are full;
- a rerun writes nothing;
- rows carry distinct dates;
- only one run holds the lease.

Where a helper method holds part of a Go function's loop (`Walk`,
`Collect`, `SyncSlo`, `SyncSlos`, `SyncServices`), it holds the part of
the Go code cited in its row.

## Model

| member | source | states |
|---|---|---|
| `Decimal.FormatInt` | slo2bq/bqlease.go:56 | the text starts with '-' exactly for negative values, and the magnitude is written in canonical decimal digits spelling its value: no '+' and no leading zero except in "0" |
| `Decimal.ParseIntRejects` | slo2bq/bqlease.go:47-50 | the empty string, a lone sign, a first character that is neither a sign nor a digit, and any later non-digit are all rejected |
| `Decimal.ParseInt` | slo2bq/bqlease.go:47-50 | a value comes only from non-empty text, and the empty label value is an error |
| `Decimal.ParseIntDigits` | slo2bq/bqlease.go:47-50 | a non-empty digit string, leading zeros included, reads as the number it spells exactly when that number is at most 2^63-1, and is an error otherwise |
| `Decimal.ParseIntPlus` | slo2bq/bqlease.go:47-50 | a leading '+' before the digits is accepted and changes nothing |
| `Decimal.ParseIntMinus` | slo2bq/bqlease.go:47-50 | a leading '-' negates the digits' value, accepted down to -2^63 and an error below it |
| `Decimal.ParseFormatInt` | slo2bq/bqlease.go:47-56 | parsing the value a lease writes gives back exactly the expiration, for every int64 |
| `Decimal.FormatValueOf` | slo2bq/bqlease.go:47-56 | a digit string without a leading zero is exactly the text of the number it spells |
| `Decimal.FormatNat` | slo2bq/bqlease.go:56 | the text is all digits, and has a leading '0' only for zero |
| `Decimal.ValueOfFormatNat` | slo2bq/bqlease.go:47-56 | the digits written for n spell n |
| `Decimal.FormatNatInjective` | slo2bq/bqlease.go:56 | distinct numbers get distinct texts |
| `Decimal.PadLeftValue` | slo2bq/sd.go:98 | zero-padding a year or day number never changes its value |
| `Calendar.DaysIn` | slo2bq/sd.go:42 | every month has 28 to 31 days, and February has 29 exactly in leap years |
| `Calendar.PrevDay` | slo2bq/sd.go:42 | the previous day is earlier in calendar order (and, with PrevDayAdjacent, immediately before) |
| `Calendar.NextDay` | slo2bq/sd.go:42 | the next day is later in calendar order (and, with NextDayAdjacent, immediately after) |
| `Calendar.NextOfPrev` | slo2bq/sd.go:42 | one day back and one day forward is the same date |
| `Calendar.PrevOfNext` | slo2bq/sd.go:42 | one day forward and one day back is the same date |
| `Calendar.PrevDayAdjacent` | slo2bq/sd.go:42 | no date lies strictly between PrevDay(d) and d, so PrevDay is the day before |
| `Calendar.NextDayAdjacent` | slo2bq/sd.go:42 | no date lies strictly between d and NextDay(d), so NextDay is the day after |
| `Calendar.ShiftDays` | slo2bq/sd.go:42 | a positive shift gives an earlier date, a negative one a later date, and zero the same date |
| `Calendar.ShiftDaysStep` | slo2bq/sd.go:42 | shifting back one more day is one PrevDay step |
| `Calendar.ShiftDaysOrdered` | slo2bq/sd.go:42 | a larger shift back gives a strictly earlier date |
| `Calendar.ParseFormatDate` | slo2bq/sd.go:98 | the `2006-01-02` text of a date reads back as that date |
| `Calendar.FormatDateInjective` | slo2bq/sd.go:98 | distinct dates get distinct date texts |
| `Window.BoundaryIsThatDay` | slo2bq/sd.go:41-44 | in a zone where local midnight falls on its own date, the boundary daysAgo back is named after the date daysAgo days before today, and its day ends at the next date's midnight |
| `Window.DaysAgoMidnight` | slo2bq/sd.go:41-44 | in a zone where local midnight falls on its own date, the returned timestamp lies on the local date daysAgo days before the local date of now |
| `Window.DayHasPositiveLength` | slo2bq/sd.go:96-97 | in a zone where later dates start later, each backfilled day starts strictly before it ends; the premise (Calendar.Monotone) is itself close to this conclusion, so the lemma mostly records that the window's days are consecutive dates |
| `Window.BoundaryDatesDistinct` | slo2bq/sd.go:96-98 | in such a zone, distinct day offsets give distinct date names |
| `Window.GridNamesDistinct` | slo2bq/sd.go:95-98 | no two days of the window share a date name |
| `SloClient.Split` | slo2bq/clients/sd_slo_client.go:54 | there is always at least one piece, and no piece contains the separator |
| `SloClient.JoinSplit` | slo2bq/clients/sd_slo_client.go:54 | joining the pieces back gives the original name |
| `SloClient.SplitJoin` | slo2bq/clients/sd_slo_client.go:54 | splitting a join of separator-free segments gives back the segments |
| `SloClient.Service.HumanName` | slo2bq/clients/sd_slo_client.go:49-56 | the display name when it is set, else element 3 of the name split on '/', a separator-free segment; a name with fewer than 4 segments is excluded, since Go panics on it |
| `SloClient.Slo.HumanName` | slo2bq/clients/sd_slo_client.go:71-78 | the display name when it is set, else element 5 of the name split on '/', a separator-free segment; a name with fewer than 6 segments is excluded |
| `SloClient.ServiceNameFromResource` | slo2bq/clients/sd_slo_client.go:53-55 | for `projects/$project/services/$service` without a display name, the name is `$service` |
| `SloClient.SloNameFromResource` | slo2bq/clients/sd_slo_client.go:75-77 | for `projects/$p/services/$s/serviceLevelObjectives/$slo` without a display name, the name is `$slo` |
| `Sli.TruncateToInt` | slo2bq/sd.go:201 | int64(x) drops the fraction towards zero, from either sign |
| `Sli.ReadCounter` | slo2bq/sd.go:182-205 | a backend error is passed on; no series reads as 0; more than one series, a point count other than 1, or a type other than INT64 or DOUBLE is an error; INT64 is read exactly and DOUBLE truncated towards zero |
| `Sli.GetCounter` | slo2bq/sd.go:161-206 | exactly one request: name `projects/<project>`, the filter, interval [start, end], alignment period end - start, REDUCE_SUM and ALIGN_DELTA; its answer is read as ReadCounter says |
| `Sli.FormulaOf` | slo2bq/sd.go:125-156 | a formula is chosen exactly when at least two filters are set, and it reads only filters that are set; Good+Total exactly when Good and Total are both set, Good+Bad only when Total is empty, Bad+Total only when Good is empty |
| `Sli.GetGoodTotal` | slo2bq/sd.go:122-157 | fewer than two filters give the two-of-three error with no query; otherwise the chosen formula's two counters are queried in order, a failing first counter stopping there; a successful result comes after exactly two queries |
| `Sli.GoodAndTotalRead` | slo2bq/sd.go:125-134 | with Good and Total set, the day reads as (counter(Good), counter(Total)) after exactly those two queries, whatever Bad is |
| `Sli.GoodAndBadSum` | slo2bq/sd.go:135-144 | with Good and Bad set and Total empty, the day reads as (good, good + bad) after querying Good then Bad |
| `Sli.BadAndTotalDifference` | slo2bq/sd.go:145-154 | with Bad and Total set and Good empty, the day reads as (total - bad, total) after querying Bad then Total, with no sign check |
| `Sli.FormulasAgree` | slo2bq/sd.go:125-154 | when the counters are consistent (good + bad = total), every formula gives the same (good, total) |
| `Sli.SecondFailureReported` | slo2bq/sd.go:130-153 | a failing second counter fails the day with its error, after both queries |
| `BigQuery.Client.ETag` | slo2bq/clients/bq_client.go:113-120 | an etag is never empty |
| `BigQuery.Client.Query` | slo2bq/clients/bq_client.go:49 | the query is logged and answered |
| `BigQuery.Client.Put` | slo2bq/clients/bq_client.go:107-109 | the call is appended to the Put history, and its outcome is that of the k-th call |
| `BigQuery.Client.ReadDatasetMetadataLabel` | slo2bq/clients/bq_client.go:113-120 | the label's value ("" when it is missing) and the current etag, or the outage's error |
| `BigQuery.Client.WriteDatasetMetadataLabel` | slo2bq/clients/bq_client.go:124-134 | a non-empty etag that does not match is refused with nothing changed; otherwise an empty value deletes the label and any other value sets it, and the dataset moves to a new revision |
| `BigQuery.NewRevisionNewETag` | slo2bq/clients/bq_client.go:132 | distinct revisions have distinct etags, so an accepted update invalidates every earlier etag |
| `Lease.ExistingLeaseCheck` | slo2bq/bqlease.go:44-54 | the lease may be taken exactly when the label is empty or parses to a time not after now; an unparsable value gives the parse error and a later time gives "still valid" |
| `Lease.HeldLeaseBlocks` | slo2bq/bqlease.go:47-56 | a written lease blocks every acquisition strictly before its expiration and none at or after it |
| `Lease.BqLease.Close` | slo2bq/bqlease.go:65-67 | writes "" with no etag, so the label is deleted whatever was written since, and the dataset moves to its next revision (so earlier etags go stale); a write error changes nothing |
| `Lease.NewBqLease` | slo2bq/bqlease.go:38-62 | on a read error, a held lease or an unparsable lease, the error and no write; on a free lease, the expiration written under the etag just read and the dataset moved to its next revision; a concurrent update in between moves the revision on, so the write fails with "could not update" and only that update remains; a write error is wrapped the same way; no other dataset is touched |
| `Lease.LeaseExcludesUntilClosed` | slo2bq/bqlease.go:38-67 | once a run holds the lease, a second run before the expiration is turned away with "still valid", and after Close the second run gets the lease |
| `BqMap.Index.constructor` | slo2bq/bqmap.go:54 | a new map is empty |
| `BqMap.Index.Add` | slo2bq/bqmap.go:29-31 | the key is added and Check holds for it; other keys stay; adding a present key changes nothing |
| `BqMap.KeysOfMembers` | slo2bq/bqmap.go:54-61 | a key is collected exactly when some row carries it, and there are no more keys than rows |
| `BqMap.FirstUnkeyed` | slo2bq/bqmap.go:55-58 | every row before the first invalid one has service, SLO and date set, and that row lacks one |
| `BqMap.ExistingKeysSound` | slo2bq/bqmap.go:46-61 | every key of a successful index has all three fields set and comes from a returned row |
| `BqMap.Collect` | slo2bq/bqmap.go:54-61 | the first row lacking a field fails the read with that row; otherwise the new map holds exactly the rows' keys |
| `BqMap.ReadBQMap` | slo2bq/bqmap.go:39-62 | a zone error comes before any query; otherwise exactly one query, on `<dataset>.data` from the local date backfillDays back; the result is ExistingKeys: the error, or exactly the keys of the rows |
| `Days.Backfill` | slo2bq/sd.go:95-116 | the walk over days 1..n yields at most n rows |
| `Days.BackfillRows` | slo2bq/sd.go:100-115 | every row has this SLO's service name, SLO name and goal, has a key not yet indexed, and is dated on one of the days walked |
| `Days.BackfillRowCounts` | slo2bq/sd.go:96-115 | every row's good and total counts are exactly those getGoodTotal returns over [start, end] of the window day the row is dated on |
| `Days.FailureSticks` | slo2bq/sd.go:110-113 | once a day fails, later days change nothing: the SLO fails with that error |
| `Days.NothingPending` | slo2bq/sd.go:106-108 | when every day is indexed, no row is produced and the backend is never asked |
| `Days.BackfillComplete` | slo2bq/sd.go:95-116 | every day of a successful walk is either indexed or produced as a row |
| `Days.RerunWritesNothing` | slo2bq/sd.go:95-116 | walking again with the produced rows indexed produces nothing and asks nothing |
| `Days.NewestRow` | slo2bq/sd.go:95-116 | each day adds at most one row, appended after the rows of smaller daysAgo and named after that day, so rows come in increasing daysAgo order |
| `Days.OlderRowsElsewhere` | slo2bq/sd.go:95-116 | with distinct day names, no newer row is dated on the day being walked |
| `Days.BackfillDatesDistinct` | slo2bq/sd.go:95-116 | with distinct day names, the rows of one walk have pairwise distinct dates |
| `Days.RecordsDatesDistinct` | slo2bq/sd.go:88-118 | in a zone where local midnight falls on its own date, newRecords' rows have pairwise distinct dates |
| `Days.RecordsRows` | slo2bq/sd.go:88-118 | a zone that fails to load fails the SLO with no row and no request; otherwise at most backfillDays rows, each with this SLO's names and goal and none already indexed |
| `Days.RecordsCounts` | slo2bq/sd.go:88-118 | every row newRecords returns is dated on some day 1..backfillDays back of the loaded zone's grid (GridAt: the day starts at daysAgoMidnightTimestamp of daysAgo, ends at that of daysAgo-1, and is named by its formatted start), and carries the good and total counts getGoodTotal reads over that day |
| `Days.BackfillQueries` | slo2bq/sd.go:106-110 | every metric request of the walk is for a day of the window whose key is not indexed, over that day's [start, end]: an indexed day costs no request |
| `Days.NewRecords` | slo2bq/sd.go:88-118 | loads the zone and yields the Records specification |
| `Days.Walk` | slo2bq/sd.go:94-117 | the loop over days 1..backfillDays yields exactly Backfill over the whole window |
| `Sync.SlosFoldSticks` | slo2bq/sd.go:64-81 | after a failure, the remaining SLOs change nothing |
| `Sync.ServicesFoldSticks` | slo2bq/sd.go:59-83 | after a failure, the remaining services change nothing |
| `Sync.FlushKeepsRows` | slo2bq/sd.go:75-81 | a successful flush loses no pending row and duplicates none |
| `Sync.SlosFoldWrites` | slo2bq/sd.go:64-82 | the SLO loop moves exactly the SLOs' new rows, in order, into the Puts plus the buffer |
| `Sync.ServicesFoldWrites` | slo2bq/sd.go:59-83 | the service loop moves exactly every service's new rows, in order, into the Puts plus the buffer |
| `Sync.SyncWritesAllRows` | slo2bq/sd.go:47-85 | a run that returns no error has written every missing row of the catalog exactly once, in service and SLO order: the concatenated Puts equal the concatenated newRecords results |
| `Sync.RunWritesAllRows` | slo2bq/sd.go:53-84 | the same from the index read on, whatever the index: Puts without error concatenate to exactly RowsFrom |
| `Sync.SloStepBatched` | slo2bq/sd.go:75-81 | one SLO step keeps the Puts well batched |
| `Sync.SlosFoldBatched` | slo2bq/sd.go:64-82 | the SLO loop keeps the Puts well batched |
| `Sync.ServicesFoldBatched` | slo2bq/sd.go:59-83 | the service loop keeps the Puts well batched |
| `Sync.SyncBatches` | slo2bq/sd.go:75-84 | every Put goes to `<dataset>.data`; every Put but the last carries at least bqBatchSize rows; only the last Put can have failed; a run without error made at least one Put and saw every Put succeed |
| `Sync.RunBatches` | slo2bq/sd.go:75-84 | the same batching from the index read on |
| `Sync.SloStepBelow` | slo2bq/sd.go:75-81 | after the batch check of a run still going, the buffer is empty or holds fewer than bqBatchSize rows |
| `Sync.SlosFoldBelow` | slo2bq/sd.go:64-82 | the SLO loop keeps the buffer below a batch |
| `Sync.ServicesFoldBelow` | slo2bq/sd.go:59-83 | the service loop keeps the buffer below a batch |
| `Sync.SyncFinalPut` | slo2bq/sd.go:75-84 | a run without error ends with one Put to `<dataset>.data` of the leftover rows, which are fewer than bqBatchSize and possibly none: every full batch was flushed in the loop |
| `Sync.RunFinalPut` | slo2bq/sd.go:75-84 | the same last write from the index read on |
| `Sync.SlosFoldSucceeds` | slo2bq/sd.go:64-82 | when no Put fails, the SLO loop fails exactly when some SLO's new rows fail, with the first such error |
| `Sync.ServicesFoldSucceeds` | slo2bq/sd.go:59-83 | when no Put fails, the service loop fails exactly when listing some service's SLOs or computing some SLO's rows fails, with the first such error |
| `Sync.SyncSucceedsWhenNothingFails` | slo2bq/sd.go:47-85 | when every Put goes through, the run returns no error exactly when every missing row can be computed, and otherwise the first error of the index read, the catalog or newRecords; with SyncWritesAllRows, the two directions |
| `Sync.RunSucceedsWhenNothingFails` | slo2bq/sd.go:53-84 | from the index read on, with every Put going through, the run's error is exactly RowsFrom's error |
| `Sync.SlosFoldFails` | slo2bq/sd.go:64-82 | a failed SLO loop failed either on its last Put, with that Put's error, or on the first SLO whose rows failed, with its error |
| `Sync.ServicesFoldFails` | slo2bq/sd.go:59-83 | a failed service loop failed either on its last Put or on the first failing catalog or newRecords call, with that error |
| `Sync.SyncErrorSource` | slo2bq/sd.go:47-85 | a run's error is either the error of the last Put it made or the first error of the index read, the catalog or newRecords |
| `Sync.RunErrorSource` | slo2bq/sd.go:53-84 | from the index read on, the error is the last Put's or RowsFrom's first error |
| `Sync.SyncSlo` | slo2bq/sd.go:65-81 | one SLO as one step of SlosFold: new rows appended, then a full batch flushed |
| `Sync.SyncSlos` | slo2bq/sd.go:64-82 | the SLO loop of one service, as SlosFold; the first error ends it |
| `Sync.SyncServices` | slo2bq/sd.go:58-83 | the service loop, as ServicesFold; a catalog or SLO error ends it |
| `Sync.WriteAll` | slo2bq/sd.go:58-84 | the service loop as ServicesFold, then, unless it failed, the final Put of the leftover rows, whose error is returned |
| `Sync.SyncWithIndex` | slo2bq/sd.go:48-84 | given what the index read returned, the Puts and error are RunFrom's: the read's or the catalog's error without a Put, else WriteAll |
| `Sync.SyncAllServices` | slo2bq/sd.go:47-85 | the Puts and error of the run are those of SyncOutcome: an index or catalog error first, then the batched Puts and the final Put, whose error is the run's; the query log gains nothing when the zone fails to load, else exactly the one index query |

## Left out

- HTTP pagination, URL building and JSON decoding of the SLO catalog
  (clients/sd_slo_client.go:86-173) are not modelled. They are network I/O.
  The catalog is a function-typed value.
- The BigQuery and Stackdriver library calls behind the clients are not
  modelled. Query answers, Put outcomes and metadata outages are oracles
  fixed when the client is made.
- The generated mocks, function.go's PubSub/JSON plumbing, and cmd/main.go
  are not modelled.
- The run's 10-minute lease and deferred `Close` (function.go:57-63) are
  covered only through `NewBqLease`, `Close` and the
  `LeaseExcludesUntilClosed` scenario.
- The metric client's and BigQuery client's `Close` are not modelled.
- Logging and `context` cancellation are not modelled.
- An interleaved writer in `NewBqLease` is a parameter: at most one
  unconditional metadata update, made between the read and the write.
  Real concurrency is not modelled.
- IANA time-zone rules are left uninterpreted.
  - `Location` is an abstract local-date and local-midnight pair.
  - Day lengths of 23, 25 or non-whole hours are not derived.
  - Properties that need well-behaved zones state this as a requirement:
    `RoundTrips` (local midnight falls on its own date) or `Monotone`
    (later dates start later).
- `SLO` in clients/sd_slo_client.go:64-68 has no `SLI` field, but sd.go:65
  and sd.go:123 read one. The model gives `Slo` an `sli` field: an optional
  request-based SLI holding an optional good/total ratio of three filter
  strings, where "" means not set.
- The two-labelled-series scenario of sd_test.go:60-106 is not modelled.
  getCounter rejects that answer shape.
- `Sli.TruncateToInt`: float64 rounding, NaN and infinities are not
  modelled. Doubles are exact reals, and the conversion of a double outside
  the int64 range (undefined in Go) is not modelled.
- `Sli.GetGoodTotal`: the int64 wrap-around of `good + bad` and
  `total - bad` is not modelled. Counters are mathematical integers, so the
  contract holds for in-range sums.
- `Days.Walk`: sd.go:96-97 reads `timeNow()` twice per day. The model reads
  the clock once per run (`env.now`), so the day's start and end come from
  one reading.
- `BqMap.ReadBQMap`: bqmap.go:44 reads `time.Now()` directly. The model
  gives it its own clock reading, `wallNow`.
- `BqMap.Index.Check` is a plain lookup. Its meaning is stated through
  `Add`'s contract and through the Backfill lemmas that use the keys.
- `SloClient.Service.HumanName` and `SloClient.Slo.HumanName` panic in Go
  on too short a resource name. The model excludes those inputs with a
  precondition (`Named`), and syncAllServices requires every name of the
  catalog to be computable (`WellNamed`).
- `Calendar.FormatDate` is specified only through `ParseFormatDate` and
  `FormatDateInjective`. Years outside 0..9999 are written zero-padded to
  at least four digits, with a '-' sign before negative years. Go's exact
  spelling of such years is not modelled.
- `Window.DayGrid`, the window of day starts and day names, is a datatype
  with no contract of its own. It is what `GridAt` builds from
  `DaysAgoMidnight` and `BoundaryDate`.
