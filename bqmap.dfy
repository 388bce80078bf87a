/** The index of what the warehouse already holds: the (service, SLO, date)
    triples of the recent rows, read once per run so that no day is fetched
    and written twice. */
module BqMap {
  import opened Outcomes
  import opened Calendar
  import opened Window
  import opened BigQuery
  import opened Setup

  /** bqMapKey: the identity of a data row. */
  datatype Key = Key(service: string, slo: string, date: string)

  function KeyOf(row: BQRow): Key {
    Key(row.service, row.slo, row.date)
  }

  /** bqMap: a set of keys that only grows. */
  class Index {
    var keys: set<Key>

    constructor ()
      ensures keys == {}
    {
      keys := {};
    }

    /** Whether a row for this service, SLO and date is recorded. */
    function Check(service: string, slo: string, date: string): (b: bool)
      reads this
    {
      Key(service, slo, date) in keys
    }

    /** Records a row's key; recording it again changes nothing. */
    method Add(service: string, slo: string, date: string)
      modifies this
      ensures keys == old(keys) + {Key(service, slo, date)}
      ensures Check(service, slo, date)
      ensures forall k :: k in old(keys) ==> k in keys
      ensures old(Check(service, slo, date)) ==> keys == old(keys)
    {
      keys := keys + {Key(service, slo, date)};
    }
  }

  /** A warehouse row can be indexed: service, SLO and date are all set. */
  predicate Keyed(row: BQRow) {
    row.service != "" && row.slo != "" && row.date != ""
  }

  /** The keys of a sequence of rows, collected front to back. */
  function KeysOf(rows: seq<BQRow>): set<Key>
  {
    if rows == [] then {} else KeysOf(rows[..|rows| - 1]) + {KeyOf(rows[|rows| - 1])}
  }

  /** A key is collected exactly when some row carries it, and there are never
      more keys than rows. */
  lemma {:induction false} KeysOfMembers(rows: seq<BQRow>, k: Key)
    ensures k in KeysOf(rows) <==> exists i :: 0 <= i < |rows| && KeyOf(rows[i]) == k
    ensures |KeysOf(rows)| <= |rows|
    decreases |rows|
  {
    if rows != [] {
      var init := rows[..|rows| - 1];
      KeysOfMembers(init, k);
      if k in KeysOf(init) {
        var i :| 0 <= i < |init| && KeyOf(init[i]) == k;
        assert KeyOf(rows[i]) == k;
      }
      if exists i :: 0 <= i < |rows| && KeyOf(rows[i]) == k {
        var i :| 0 <= i < |rows| && KeyOf(rows[i]) == k;
        if i < |init| {
          assert KeyOf(init[i]) == k;
        }
      }
    }
  }

  /** The position of the first row that cannot be indexed, or |rows| when
      every row can. */
  function FirstUnkeyed(rows: seq<BQRow>): (i: nat)
    ensures i <= |rows|
    ensures forall j :: 0 <= j < i ==> Keyed(rows[j])
    ensures i < |rows| ==> !Keyed(rows[i])
    decreases |rows|
  {
    if rows == [] then 0
    else if !Keyed(rows[0]) then 0
    else 1 + FirstUnkeyed(rows[1..])
  }

  /** The query reading the keys of every row dated on or after startDate. */
  function IndexQuery(dataset: string, startDate: string): string {
    "SELECT service, slo, FORMAT_DATE('%F', `date`) as date FROM `" + dataset + "." + TableName
      + "` WHERE date >= '" + startDate + "';"
  }

  /** The first date of the index window: local midnight backfillDays days
      before today, as a date string. */
  function StartDate(loc: Location, wallNow: int, backfillDays: int): string {
    BoundaryDate(wallNow, loc, backfillDays)
  }

  /** What readBQMap yields, given what the warehouse answers: the zone is
      loaded, the query is answered, and every row must be fully keyed; the
      first failure in that order is the result. */
  function ExistingKeys(answer: string -> Result<seq<BQRow>>, cfg: Config, zones: Zones,
                        backfillDays: int, wallNow: int): Result<set<Key>>
  {
    match zones(cfg.timeZone)
    case Err(e) => Err(e)
    case Ok(loc) =>
      match answer(IndexQuery(cfg.dataset, StartDate(loc, wallNow, backfillDays)))
      case Err(e) => Err(e)
      case Ok(rows) =>
        var i := FirstUnkeyed(rows);
        if i < |rows| then Err(MissingKeyField(rows[i].service, rows[i].slo, rows[i].date))
        else Ok(KeysOf(rows))
  }

  /** Every key of a successful index is fully set and comes from a row the
      warehouse returned; a row missing a field makes the whole read fail with
      that row. */
  lemma ExistingKeysSound(answer: string -> Result<seq<BQRow>>, cfg: Config, zones: Zones,
                          backfillDays: int, wallNow: int, k: Key)
    requires zones(cfg.timeZone).Ok?
    requires answer(IndexQuery(cfg.dataset, StartDate(zones(cfg.timeZone).value, wallNow, backfillDays))).Ok?
    ensures var rows := answer(IndexQuery(cfg.dataset, StartDate(zones(cfg.timeZone).value, wallNow, backfillDays))).value;
            var r := ExistingKeys(answer, cfg, zones, backfillDays, wallNow);
            && (r.Ok? <==> forall i :: 0 <= i < |rows| ==> Keyed(rows[i]))
            && (r.Ok? ==> (k in r.value <==> exists i :: 0 <= i < |rows| && KeyOf(rows[i]) == k))
            && (r.Ok? && k in r.value ==> k.service != "" && k.slo != "" && k.date != "")
            && (r.Err? ==> exists i :: 0 <= i < |rows| && !Keyed(rows[i])
                             && r.error == MissingKeyField(rows[i].service, rows[i].slo, rows[i].date))
  {
    var rows := answer(IndexQuery(cfg.dataset, StartDate(zones(cfg.timeZone).value, wallNow, backfillDays))).value;
    KeysOfMembers(rows, k);
  }

  /** The loop of readBQMap: adds every row's key to a new index, stopping at
      the first row with an empty key field. */
  method Collect(rows: seq<BQRow>) returns (r: Result<Index>)
    ensures FirstUnkeyed(rows) < |rows| ==>
      r == Err(MissingKeyField(rows[FirstUnkeyed(rows)].service, rows[FirstUnkeyed(rows)].slo,
                               rows[FirstUnkeyed(rows)].date))
    ensures FirstUnkeyed(rows) == |rows| ==> r.Ok? && fresh(r.value) && r.value.keys == KeysOf(rows)
  {
    var result := new Index();
    var i := 0;
    while i < |rows|
      invariant 0 <= i <= |rows|
      invariant forall j :: 0 <= j < i ==> Keyed(rows[j])
      invariant result.keys == KeysOf(rows[..i])
    {
      var row := rows[i];
      if !Keyed(row) {
        assert FirstUnkeyed(rows) == i;
        return Err(MissingKeyField(row.service, row.slo, row.date));
      }
      result.Add(row.service, row.slo, row.date);
      assert rows[..i + 1][..i] == rows[..i];
      i := i + 1;
    }
    assert rows[..i] == rows;
    r := Ok(result);
  }

  /** readBQMap: loads the zone, reads the keys of the rows dated within the
      backfill window, and collects them, refusing a row with an empty key
      field. `wallNow` is the wall clock read at this point. */
  method ReadBQMap(bq: Client, cfg: Config, zones: Zones, backfillDays: int, wallNow: int)
    returns (r: Result<Index>)
    modifies bq`queries
    ensures zones(cfg.timeZone).Err? ==> bq.queries == old(bq.queries)
    ensures zones(cfg.timeZone).Ok? ==>
      bq.queries == old(bq.queries) + [IndexQuery(cfg.dataset, StartDate(zones(cfg.timeZone).value, wallNow, backfillDays))]
    ensures var spec := ExistingKeys(bq.answer, cfg, zones, backfillDays, wallNow);
            && (r.Err? <==> spec.Err?)
            && (r.Err? ==> r.error == spec.error)
            && (r.Ok? ==> fresh(r.value) && r.value.keys == spec.value)
  {
    var zone := zones(cfg.timeZone);
    if zone.Err? {
      return Err(zone.error);
    }
    var q := IndexQuery(cfg.dataset, StartDate(zone.value, wallNow, backfillDays));
    var answered := bq.Query(q);
    if answered.Err? {
      return Err(answered.error);
    }
    r := Collect(answered.value);
  }
}
