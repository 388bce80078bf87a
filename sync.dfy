/** syncAllServices: builds the index of what the warehouse holds, walks
    every service and every SLO of the catalog, collects the new rows of the
    SLOs measured by a good/total ratio, and writes them in batches of at
    least batchSize rows, with one final write of whatever is left. The first
    failure ends the run. */
module Sync {
  import opened Outcomes
  import opened SloClient
  import opened BigQuery
  import opened Setup
  import opened BqMap
  import opened Days

  /** The SLO catalog: the list of services, and each service's SLOs. */
  datatype Catalog = Catalog(services: Result<seq<Service>>, slos: Service -> Result<seq<Slo>>)

  /** The names of a service and its SLOs can be computed (the source indexes
      the resource name and panics otherwise). */
  predicate SlosNamed(svc: Service, slos: seq<Slo>) {
    forall i :: 0 <= i < |slos| ==> svc.Named() && slos[i].Named()
  }

  predicate ServiceNamed(catalog: Catalog, svc: Service) {
    catalog.slos(svc).Ok? ==> SlosNamed(svc, catalog.slos(svc).value)
  }

  predicate ServicesNamed(catalog: Catalog, svcs: seq<Service>) {
    forall i :: 0 <= i < |svcs| ==> ServiceNamed(catalog, svcs[i])
  }

  predicate WellNamed(catalog: Catalog) {
    catalog.services.Ok? ==> ServicesNamed(catalog, catalog.services.value)
  }

  /** The new rows of each SLO against an index: what newRecords yields when
      the SLO is measured by a good/total ratio, and none otherwise. */
  function NewRows(env: Env, existing: set<Key>): (Service, Slo) -> Result<seq<BQRow>> {
    (svc: Service, slo: Slo) =>
      if svc.Named() && slo.Named() && slo.HasRatio() then Records(env, svc, slo, existing).result else Ok([])
  }

  /** What stays fixed during one run: the environment, the new rows of each
      SLO against the index read at its start, the outcome of each Put call,
      and how many Put calls came before. */
  datatype Run = Run(env: Env, rowsOf: (Service, Slo) -> Result<seq<BQRow>>, putFault: nat -> Option<Error>, base: nat)

  /** The state between two SLOs: the rows not yet written, the Put calls
      made, and the failure that ended the run, if any. */
  datatype Progress = Progress(pending: seq<BQRow>, calls: seq<PutCall>, failure: Option<Error>)

  /** The check after each SLO: a full batch is written and, if the write
      goes through, the buffer starts over. */
  function Flush(run: Run, p: Progress): Progress {
    if |p.pending| >= run.env.tuning.batchSize then
      var call := PutCall(run.env.cfg.dataset, TableName, p.pending);
      var fault := run.putFault(run.base + |p.calls|);
      if fault.Some? then Progress(p.pending, p.calls + [call], fault)
      else Progress([], p.calls + [call], None)
    else p
  }

  /** One SLO: its new rows are collected when it is measured by a
      good/total ratio, then the batch check runs. */
  function SloStep(run: Run, svc: Service, slo: Slo, p: Progress): Progress {
    if p.failure.Some? then p
    else
      var rows := run.rowsOf(svc, slo);
      if rows.Err? then p.(failure := Some(rows.error))
      else Flush(run, p.(pending := p.pending + rows.value))
  }

  /** The SLOs of one service, in catalog order. */
  function SlosFold(run: Run, svc: Service, slos: seq<Slo>, p: Progress): Progress
    decreases |slos|
  {
    if slos == [] then p else SlosFold(run, svc, slos[1..], SloStep(run, svc, slos[0], p))
  }

  /** One service: its SLOs are listed, then walked. */
  function ServiceStep(run: Run, catalog: Catalog, svc: Service, p: Progress): Progress
  {
    if p.failure.Some? then p
    else match catalog.slos(svc)
      case Err(e) => p.(failure := Some(e))
      case Ok(slos) => SlosFold(run, svc, slos, p)
  }

  /** The services, in catalog order. */
  function ServicesFold(run: Run, catalog: Catalog, svcs: seq<Service>, p: Progress): Progress
    decreases |svcs|
  {
    if svcs == [] then p else ServicesFold(run, catalog, svcs[1..], ServiceStep(run, catalog, svcs[0], p))
  }

  /** The Put calls of a run and the error it returns. */
  datatype Outcome = Outcome(calls: seq<PutCall>, err: Option<Error>)

  /** The run once the index read is over: its error ends the run, else the
      services are listed and walked, and the remaining rows written by a
      last Put, whose error is the run's. */
  function RunFrom(env: Env, catalog: Catalog, keys: Result<set<Key>>, putFault: nat -> Option<Error>, base: nat)
    : Outcome
  {
    match keys
    case Err(e) => Outcome([], Some(e))
    case Ok(existing) =>
      match catalog.services
      case Err(e) => Outcome([], Some(e))
      case Ok(svcs) =>
        var p := ServicesFold(Run(env, NewRows(env, existing), putFault, base), catalog, svcs, Progress([], [], None));
        if p.failure.Some? then Outcome(p.calls, p.failure)
        else Outcome(p.calls + [PutCall(env.cfg.dataset, TableName, p.pending)], putFault(base + |p.calls|))
  }

  /** What syncAllServices does, given what the warehouse answers and which
      of its Put calls fail (`base` Put calls having come before): the index
      is read, then the run goes on from there. */
  function SyncOutcome(env: Env, catalog: Catalog, answer: string -> Result<seq<BQRow>>,
                       putFault: nat -> Option<Error>, base: nat, wallNow: int): Outcome
  {
    RunFrom(env, catalog, ExistingKeys(answer, env.cfg, env.zones, env.tuning.backfillDays, wallNow), putFault, base)
  }

  // ---------------------------------------------------------------------
  // The reference: every row the run must write, regardless of batching.

  /** The new rows of the SLOs of one service, in order; the first failing
      SLO's error otherwise. */
  function SlosRows(rowsOf: (Service, Slo) -> Result<seq<BQRow>>, svc: Service, slos: seq<Slo>): Result<seq<BQRow>>
    decreases |slos|
  {
    if slos == [] then Ok([])
    else match rowsOf(svc, slos[0])
      case Err(e) => Err(e)
      case Ok(head) =>
        match SlosRows(rowsOf, svc, slos[1..])
        case Err(e) => Err(e)
        case Ok(rest) => Ok(head + rest)
  }

  /** The new rows of every service, in order. */
  function ServicesRows(rowsOf: (Service, Slo) -> Result<seq<BQRow>>, catalog: Catalog, svcs: seq<Service>)
    : Result<seq<BQRow>>
    decreases |svcs|
  {
    if svcs == [] then Ok([])
    else
      var head := match catalog.slos(svcs[0])
        case Err(e) => Err(e)
        case Ok(slos) => SlosRows(rowsOf, svcs[0], slos);
      if head.Err? then Err(head.error)
      else match ServicesRows(rowsOf, catalog, svcs[1..])
        case Err(e) => Err(e)
        case Ok(rest) => Ok(head.value + rest)
  }

  /** Every row the run must write once the index read is over: none if the
      read failed, else the new rows of every service. */
  function RowsFrom(env: Env, catalog: Catalog, keys: Result<set<Key>>): Result<seq<BQRow>> {
    match keys
    case Err(e) => Err(e)
    case Ok(existing) =>
      match catalog.services
      case Err(e) => Err(e)
      case Ok(svcs) => ServicesRows(NewRows(env, existing), catalog, svcs)
  }

  /** Every row missing from the warehouse, over the whole catalog. */
  function AllRows(env: Env, catalog: Catalog, answer: string -> Result<seq<BQRow>>, wallNow: int)
    : Result<seq<BQRow>>
  {
    RowsFrom(env, catalog, ExistingKeys(answer, env.cfg, env.zones, env.tuning.backfillDays, wallNow))
  }

  /** The rows of a sequence of Put calls, in order. */
  function Flat(calls: seq<PutCall>): seq<BQRow> {
    if calls == [] then [] else Flat(calls[..|calls| - 1]) + calls[|calls| - 1].rows
  }

  // ---------------------------------------------------------------------
  // Properties of the run.

  lemma {:induction false} SlosFoldSticks(run: Run, svc: Service, slos: seq<Slo>, p: Progress)
    requires p.failure.Some?
    ensures SlosFold(run, svc, slos, p) == p
    decreases |slos|
  {
    if slos != [] {
      SlosFoldSticks(run, svc, slos[1..], p);
    }
  }

  /** After a failure nothing more happens: no further Put, no further
      catalog or metric request changes the outcome. */
  lemma {:induction false} ServicesFoldSticks(run: Run, catalog: Catalog, svcs: seq<Service>, p: Progress)
    requires p.failure.Some?
    ensures ServicesFold(run, catalog, svcs, p) == p
    decreases |svcs|
  {
    if svcs != [] {
      ServicesFoldSticks(run, catalog, svcs[1..], p);
    }
  }

  /** A successful batch check loses no row and duplicates none. */
  lemma FlushKeepsRows(run: Run, p: Progress)
    requires Flush(run, p).failure.None?
    ensures Flat(Flush(run, p).calls) + Flush(run, p).pending == Flat(p.calls) + p.pending
  {
    var q := Flush(run, p);
    if q != p {
      assert q.calls[..|q.calls| - 1] == p.calls;
    }
  }

  lemma {:induction false} SlosFoldWrites(run: Run, svc: Service, slos: seq<Slo>, p: Progress)
    requires p.failure.None?
    requires SlosFold(run, svc, slos, p).failure.None?
    ensures SlosRows(run.rowsOf, svc, slos).Ok?
    ensures var q := SlosFold(run, svc, slos, p);
            Flat(q.calls) + q.pending == Flat(p.calls) + p.pending + SlosRows(run.rowsOf, svc, slos).value
    decreases |slos|
  {
    if slos != [] {
      var p1 := SloStep(run, svc, slos[0], p);
      if p1.failure.Some? {
        SlosFoldSticks(run, svc, slos[1..], p1);
      } else {
        SlosFoldWrites(run, svc, slos[1..], p1);
        var head := run.rowsOf(svc, slos[0]).value;
        FlushKeepsRows(run, p.(pending := p.pending + head));
        assert Flat(p1.calls) + p1.pending == Flat(p.calls) + p.pending + head;
      }
    }
  }

  lemma {:induction false} ServicesFoldWrites(run: Run, catalog: Catalog, svcs: seq<Service>, p: Progress)
    requires p.failure.None?
    requires ServicesFold(run, catalog, svcs, p).failure.None?
    ensures ServicesRows(run.rowsOf, catalog, svcs).Ok?
    ensures var q := ServicesFold(run, catalog, svcs, p);
            Flat(q.calls) + q.pending == Flat(p.calls) + p.pending + ServicesRows(run.rowsOf, catalog, svcs).value
    decreases |svcs|
  {
    if svcs != [] {
      var p1 := ServiceStep(run, catalog, svcs[0], p);
      if p1.failure.Some? {
        ServicesFoldSticks(run, catalog, svcs[1..], p1);
      } else {
        ServicesFoldWrites(run, catalog, svcs[1..], p1);
        SlosFoldWrites(run, svcs[0], catalog.slos(svcs[0]).value, p);
      }
    }
  }

  /** From the index read on: a run that returns no error has written
      every row RowsFrom computes, in order. */
  lemma RunWritesAllRows(env: Env, catalog: Catalog, keys: Result<set<Key>>,
                         putFault: nat -> Option<Error>, base: nat)
    ensures var o := RunFrom(env, catalog, keys, putFault, base);
            o.err.None? ==> RowsFrom(env, catalog, keys).Ok?
                            && Flat(o.calls) == RowsFrom(env, catalog, keys).value
  {
    var o := RunFrom(env, catalog, keys, putFault, base);
    if o.err.None? && keys.Ok? && catalog.services.Ok? {
      var run := Run(env, NewRows(env, keys.value), putFault, base);
      var p0 := Progress([], [], None);
      var p := ServicesFold(run, catalog, catalog.services.value, p0);
      ServicesFoldWrites(run, catalog, catalog.services.value, p0);
      var last := PutCall(env.cfg.dataset, TableName, p.pending);
      assert (p.calls + [last])[..|p.calls|] == p.calls;
    }
  }

  /** A run that returns no error has written every missing row of the
      catalog exactly once, in catalog order, batching aside. */
  lemma SyncWritesAllRows(env: Env, catalog: Catalog, answer: string -> Result<seq<BQRow>>,
                          putFault: nat -> Option<Error>, base: nat, wallNow: int)
    ensures var o := SyncOutcome(env, catalog, answer, putFault, base, wallNow);
            o.err.None? ==> AllRows(env, catalog, answer, wallNow).Ok?
                            && Flat(o.calls) == AllRows(env, catalog, answer, wallNow).value
  {
    RunWritesAllRows(env, catalog, ExistingKeys(answer, env.cfg, env.zones, env.tuning.backfillDays, wallNow),
                     putFault, base);
  }

  /** Every Put call goes to the data table of the configured dataset and,
      apart from the last one, carries a full batch; the calls before the
      last one all succeeded. */
  predicate WellBatched(run: Run, p: Progress) {
    && (forall k :: 0 <= k < |p.calls| ==>
          p.calls[k].dataset == run.env.cfg.dataset && p.calls[k].table == TableName
          && |p.calls[k].rows| >= run.env.tuning.batchSize)
    && (forall k :: run.base <= k < run.base + |p.calls| - 1 ==> run.putFault(k).None?)
    && (p.failure.None? ==> forall k :: run.base <= k < run.base + |p.calls| ==> run.putFault(k).None?)
  }

  lemma SloStepBatched(run: Run, svc: Service, slo: Slo, p: Progress)
    requires WellBatched(run, p)
    ensures WellBatched(run, SloStep(run, svc, slo, p))
  {
  }

  lemma {:induction false} SlosFoldBatched(run: Run, svc: Service, slos: seq<Slo>, p: Progress)
    requires WellBatched(run, p)
    ensures WellBatched(run, SlosFold(run, svc, slos, p))
    decreases |slos|
  {
    if slos != [] {
      SloStepBatched(run, svc, slos[0], p);
      SlosFoldBatched(run, svc, slos[1..], SloStep(run, svc, slos[0], p));
    }
  }

  lemma {:induction false} ServicesFoldBatched(run: Run, catalog: Catalog, svcs: seq<Service>, p: Progress)
    requires WellBatched(run, p)
    ensures WellBatched(run, ServicesFold(run, catalog, svcs, p))
    decreases |svcs|
  {
    if svcs != [] {
      var p1 := ServiceStep(run, catalog, svcs[0], p);
      if p.failure.None? && catalog.slos(svcs[0]).Ok? {
        SlosFoldBatched(run, svcs[0], catalog.slos(svcs[0]).value, p);
      }
      ServicesFoldBatched(run, catalog, svcs[1..], p1);
    }
  }

  /** From the index read on: the batching of the Put calls. */
  lemma RunBatches(env: Env, catalog: Catalog, keys: Result<set<Key>>,
                   putFault: nat -> Option<Error>, base: nat)
    ensures var o := RunFrom(env, catalog, keys, putFault, base);
            && (forall k :: 0 <= k < |o.calls| ==> o.calls[k].dataset == env.cfg.dataset && o.calls[k].table == TableName)
            && (forall k :: 0 <= k < |o.calls| - 1 ==> |o.calls[k].rows| >= env.tuning.batchSize)
            && (forall k :: base <= k < base + |o.calls| - 1 ==> putFault(k).None?)
            && (o.err.None? ==> forall k :: base <= k < base + |o.calls| ==> putFault(k).None?)
            && (o.err.None? ==> |o.calls| >= 1)
  {
    if keys.Ok? && catalog.services.Ok? {
      var run := Run(env, NewRows(env, keys.value), putFault, base);
      ServicesFoldBatched(run, catalog, catalog.services.value, Progress([], [], None));
    }
  }

  /** The batching of a run: every Put goes to the data table of the
      configured dataset; every Put but the last carries at least batchSize
      rows; only the last Put can have failed; and a run without error saw
      every Put succeed. */
  lemma SyncBatches(env: Env, catalog: Catalog, answer: string -> Result<seq<BQRow>>,
                    putFault: nat -> Option<Error>, base: nat, wallNow: int)
    ensures var o := SyncOutcome(env, catalog, answer, putFault, base, wallNow);
            && (forall k :: 0 <= k < |o.calls| ==> o.calls[k].dataset == env.cfg.dataset && o.calls[k].table == TableName)
            && (forall k :: 0 <= k < |o.calls| - 1 ==> |o.calls[k].rows| >= env.tuning.batchSize)
            && (forall k :: base <= k < base + |o.calls| - 1 ==> putFault(k).None?)
            && (o.err.None? ==> forall k :: base <= k < base + |o.calls| ==> putFault(k).None?)
            && (o.err.None? ==> |o.calls| >= 1)
  {
    RunBatches(env, catalog, ExistingKeys(answer, env.cfg, env.zones, env.tuning.backfillDays, wallNow),
               putFault, base);
  }

  /** Between two SLOs of a run still going, the buffer holds less than a
      batch: it is either empty or below batchSize (a full batch having just
      been written). */
  predicate BelowBatch(run: Run, p: Progress) {
    p.failure.None? ==> p.pending == [] || |p.pending| < run.env.tuning.batchSize
  }

  lemma SloStepBelow(run: Run, svc: Service, slo: Slo, p: Progress)
    requires BelowBatch(run, p)
    ensures BelowBatch(run, SloStep(run, svc, slo, p))
  {
  }

  lemma {:induction false} SlosFoldBelow(run: Run, svc: Service, slos: seq<Slo>, p: Progress)
    requires BelowBatch(run, p)
    ensures BelowBatch(run, SlosFold(run, svc, slos, p))
    decreases |slos|
  {
    if slos != [] {
      SloStepBelow(run, svc, slos[0], p);
      SlosFoldBelow(run, svc, slos[1..], SloStep(run, svc, slos[0], p));
    }
  }

  lemma {:induction false} ServicesFoldBelow(run: Run, catalog: Catalog, svcs: seq<Service>, p: Progress)
    requires BelowBatch(run, p)
    ensures BelowBatch(run, ServicesFold(run, catalog, svcs, p))
    decreases |svcs|
  {
    if svcs != [] {
      if p.failure.None? && catalog.slos(svcs[0]).Ok? {
        SlosFoldBelow(run, svcs[0], catalog.slos(svcs[0]).value, p);
      }
      ServicesFoldBelow(run, catalog, svcs[1..], ServiceStep(run, catalog, svcs[0], p));
    }
  }

  /** From the index read on: the last write of a run without error. */
  lemma RunFinalPut(env: Env, catalog: Catalog, keys: Result<set<Key>>,
                    putFault: nat -> Option<Error>, base: nat)
    ensures var o := RunFrom(env, catalog, keys, putFault, base);
            o.err.None? ==>
              && |o.calls| >= 1
              && o.calls[|o.calls| - 1].dataset == env.cfg.dataset
              && o.calls[|o.calls| - 1].table == TableName
              && (o.calls[|o.calls| - 1].rows == [] || |o.calls[|o.calls| - 1].rows| < env.tuning.batchSize)
  {
    if keys.Ok? && catalog.services.Ok? {
      var run := Run(env, NewRows(env, keys.value), putFault, base);
      ServicesFoldBelow(run, catalog, catalog.services.value, Progress([], [], None));
    }
  }

  /** The last write of a run that returns no error: one Put to the data
      table of the configured dataset with what is left over, which is
      less than a batch (possibly nothing). */
  lemma SyncFinalPut(env: Env, catalog: Catalog, answer: string -> Result<seq<BQRow>>,
                     putFault: nat -> Option<Error>, base: nat, wallNow: int)
    ensures var o := SyncOutcome(env, catalog, answer, putFault, base, wallNow);
            o.err.None? ==>
              && |o.calls| >= 1
              && o.calls[|o.calls| - 1].dataset == env.cfg.dataset
              && o.calls[|o.calls| - 1].table == TableName
              && (o.calls[|o.calls| - 1].rows == [] || |o.calls[|o.calls| - 1].rows| < env.tuning.batchSize)
  {
    RunFinalPut(env, catalog, ExistingKeys(answer, env.cfg, env.zones, env.tuning.backfillDays, wallNow),
                putFault, base);
  }

  lemma {:induction false} SlosFoldSucceeds(run: Run, svc: Service, slos: seq<Slo>, p: Progress)
    requires p.failure.None?
    requires forall k :: run.base <= k ==> run.putFault(k).None?
    ensures SlosFold(run, svc, slos, p).failure
            == (if SlosRows(run.rowsOf, svc, slos).Err? then Some(SlosRows(run.rowsOf, svc, slos).error) else None)
    decreases |slos|
  {
    if slos != [] {
      var p1 := SloStep(run, svc, slos[0], p);
      if p1.failure.Some? {
        SlosFoldSticks(run, svc, slos[1..], p1);
      } else {
        SlosFoldSucceeds(run, svc, slos[1..], p1);
      }
    }
  }

  lemma {:induction false} ServicesFoldSucceeds(run: Run, catalog: Catalog, svcs: seq<Service>, p: Progress)
    requires p.failure.None?
    requires forall k :: run.base <= k ==> run.putFault(k).None?
    ensures ServicesFold(run, catalog, svcs, p).failure
            == (if ServicesRows(run.rowsOf, catalog, svcs).Err? then Some(ServicesRows(run.rowsOf, catalog, svcs).error) else None)
    decreases |svcs|
  {
    if svcs != [] {
      var p1 := ServiceStep(run, catalog, svcs[0], p);
      if catalog.slos(svcs[0]).Ok? {
        SlosFoldSucceeds(run, svcs[0], catalog.slos(svcs[0]).value, p);
      }
      if p1.failure.Some? {
        ServicesFoldSticks(run, catalog, svcs[1..], p1);
      } else {
        ServicesFoldSucceeds(run, catalog, svcs[1..], p1);
      }
    }
  }

  /** From the index read on: with every Put going through, the run fails
      exactly when RowsFrom does, with its error. */
  lemma RunSucceedsWhenNothingFails(env: Env, catalog: Catalog, keys: Result<set<Key>>,
                                    putFault: nat -> Option<Error>, base: nat)
    requires forall k :: base <= k ==> putFault(k).None?
    ensures var o := RunFrom(env, catalog, keys, putFault, base);
            var all := RowsFrom(env, catalog, keys);
            o.err == (if all.Err? then Some(all.error) else None)
  {
    if keys.Ok? && catalog.services.Ok? {
      var run := Run(env, NewRows(env, keys.value), putFault, base);
      ServicesFoldSucceeds(run, catalog, catalog.services.value, Progress([], [], None));
    }
  }

  /** When every Put goes through, the run fails exactly when reading the
      index, listing the services or SLOs, or computing some SLO's new rows
      fails, and then with the first such error. */
  lemma SyncSucceedsWhenNothingFails(env: Env, catalog: Catalog, answer: string -> Result<seq<BQRow>>,
                                     putFault: nat -> Option<Error>, base: nat, wallNow: int)
    requires forall k :: base <= k ==> putFault(k).None?
    ensures var o := SyncOutcome(env, catalog, answer, putFault, base, wallNow);
            var all := AllRows(env, catalog, answer, wallNow);
            o.err == (if all.Err? then Some(all.error) else None)
  {
    RunSucceedsWhenNothingFails(env, catalog, ExistingKeys(answer, env.cfg, env.zones, env.tuning.backfillDays, wallNow),
                                putFault, base);
  }

  lemma {:induction false} SlosFoldFails(run: Run, svc: Service, slos: seq<Slo>, p: Progress)
    requires p.failure.None?
    ensures var q := SlosFold(run, svc, slos, p);
            var rows := SlosRows(run.rowsOf, svc, slos);
            q.failure.Some? ==>
              || (|q.calls| >= 1 && q.failure == run.putFault(run.base + |q.calls| - 1))
              || (rows.Err? && q.failure == Some(rows.error))
    decreases |slos|
  {
    if slos != [] {
      var p1 := SloStep(run, svc, slos[0], p);
      if p1.failure.Some? {
        SlosFoldSticks(run, svc, slos[1..], p1);
      } else {
        SlosFoldFails(run, svc, slos[1..], p1);
      }
    }
  }

  lemma {:induction false} ServicesFoldFails(run: Run, catalog: Catalog, svcs: seq<Service>, p: Progress)
    requires p.failure.None?
    ensures var q := ServicesFold(run, catalog, svcs, p);
            var rows := ServicesRows(run.rowsOf, catalog, svcs);
            q.failure.Some? ==>
              || (|q.calls| >= 1 && q.failure == run.putFault(run.base + |q.calls| - 1))
              || (rows.Err? && q.failure == Some(rows.error))
    decreases |svcs|
  {
    if svcs != [] {
      var p1 := ServiceStep(run, catalog, svcs[0], p);
      if catalog.slos(svcs[0]).Ok? {
        SlosFoldFails(run, svcs[0], catalog.slos(svcs[0]).value, p);
      }
      if p1.failure.Some? {
        ServicesFoldSticks(run, catalog, svcs[1..], p1);
      } else {
        SlosFoldWrites(run, svcs[0], catalog.slos(svcs[0]).value, p);
        ServicesFoldFails(run, catalog, svcs[1..], p1);
      }
    }
  }

  /** From the index read on: the error is the last Put's or RowsFrom's. */
  lemma RunErrorSource(env: Env, catalog: Catalog, keys: Result<set<Key>>,
                       putFault: nat -> Option<Error>, base: nat)
    ensures var o := RunFrom(env, catalog, keys, putFault, base);
            var all := RowsFrom(env, catalog, keys);
            o.err.Some? ==>
              || (|o.calls| >= 1 && o.err == putFault(base + |o.calls| - 1))
              || (all.Err? && o.err == Some(all.error))
  {
    var o := RunFrom(env, catalog, keys, putFault, base);
    var all := RowsFrom(env, catalog, keys);
    if keys.Err? {
      assert o.err == Some(keys.error) && all == Err(keys.error);
    } else if catalog.services.Err? {
      assert o.err == Some(catalog.services.error) && all == Err(catalog.services.error);
    } else {
      var run := Run(env, NewRows(env, keys.value), putFault, base);
      var p := ServicesFold(run, catalog, catalog.services.value, Progress([], [], None));
      ServicesFoldFails(run, catalog, catalog.services.value, Progress([], [], None));
      assert all == ServicesRows(run.rowsOf, catalog, catalog.services.value);
      if p.failure.Some? {
        assert o == Outcome(p.calls, p.failure);
      } else {
        assert o == Outcome(p.calls + [PutCall(env.cfg.dataset, TableName, p.pending)], putFault(base + |p.calls|));
      }
    }
  }

  /** Where a run's error comes from: either the last Put it made failed, or
      reading the index, listing the services or SLOs, or computing some
      SLO's new rows failed, and the error is the first such one. */
  lemma SyncErrorSource(env: Env, catalog: Catalog, answer: string -> Result<seq<BQRow>>,
                        putFault: nat -> Option<Error>, base: nat, wallNow: int)
    ensures var o := SyncOutcome(env, catalog, answer, putFault, base, wallNow);
            var all := AllRows(env, catalog, answer, wallNow);
            o.err.Some? ==>
              || (|o.calls| >= 1 && o.err == putFault(base + |o.calls| - 1))
              || (all.Err? && o.err == Some(all.error))
  {
    RunErrorSource(env, catalog, ExistingKeys(answer, env.cfg, env.zones, env.tuning.backfillDays, wallNow),
                   putFault, base);
  }

  // ---------------------------------------------------------------------
  // The run itself.

  /** The body of the SLO loop of syncAllServices: one SLO's new rows are
      added to the pending ones, and a full batch is written. */
  method SyncSlo(env: Env, svc: Service, slo: Slo, index: Index, bq: Client,
                 pending: seq<BQRow>, ghost base: nat)
    returns (rows: seq<BQRow>, err: Option<Error>)
    requires svc.Named() && slo.Named()
    requires base <= |bq.puts|
    modifies bq`puts
    ensures var q := SloStep(Run(env, NewRows(env, index.keys), bq.putFault, base), svc, slo,
                             Progress(pending, old(bq.puts)[base..], None));
            bq.puts == old(bq.puts)[..base] + q.calls && rows == q.pending && err == q.failure
  {
    ghost var run := Run(env, NewRows(env, index.keys), bq.putFault, base);
    rows := pending;
    if !slo.HasRatio() {
      assert run.rowsOf(svc, slo) == Ok([]);
      assert rows + [] == rows;
    } else {
      var res := NewRecords(env, svc, slo, index);
      assert run.rowsOf(svc, slo) == res.result;
      if res.result.Err? {
        return rows, Some(res.result.error);
      }
      rows := rows + res.result.value;
    }
    err := None;
    if |rows| >= env.tuning.batchSize {
      ghost var before := bq.puts;
      err := bq.Put(env.cfg.dataset, TableName, rows);
      assert bq.puts[base..] == before[base..] + [PutCall(env.cfg.dataset, TableName, rows)];
      if err.None? {
        rows := [];
      }
    }
    assert bq.puts == old(bq.puts)[..base] + bq.puts[base..];
  }

  /** The SLO loop of syncAllServices for one service, from the rows pending
      so far (`base` Put calls having come before the run). */
  method SyncSlos(env: Env, svc: Service, slos: seq<Slo>, index: Index, bq: Client,
                  pending: seq<BQRow>, ghost base: nat)
    returns (rows: seq<BQRow>, err: Option<Error>)
    requires SlosNamed(svc, slos)
    requires base <= |bq.puts|
    modifies bq`puts
    ensures var q := SlosFold(Run(env, NewRows(env, index.keys), bq.putFault, base), svc, slos,
                              Progress(pending, old(bq.puts)[base..], None));
            bq.puts == old(bq.puts)[..base] + q.calls && rows == q.pending && err == q.failure
  {
    ghost var run := Run(env, NewRows(env, index.keys), bq.putFault, base);
    ghost var goal := SlosFold(run, svc, slos, Progress(pending, bq.puts[base..], None));
    rows := pending;
    var j := 0;
    while j < |slos|
      invariant 0 <= j <= |slos|
      invariant base <= |bq.puts| && bq.puts[..base] == old(bq.puts)[..base]
      invariant goal == SlosFold(run, svc, slos[j..], Progress(rows, bq.puts[base..], None))
    {
      assert slos[j..][1..] == slos[j + 1..];
      ghost var p := Progress(rows, bq.puts[base..], None);
      rows, err := SyncSlo(env, svc, slos[j], index, bq, rows, base);
      assert bq.puts[base..] == SloStep(run, svc, slos[j], p).calls;
      if err.Some? {
        SlosFoldSticks(run, svc, slos[j + 1..], SloStep(run, svc, slos[j], p));
        return;
      }
      j := j + 1;
    }
    assert bq.puts == old(bq.puts)[..base] + bq.puts[base..];
    err := None;
  }

  /** The service loop of syncAllServices, against the index read at the
      start of the run. */
  method SyncServices(env: Env, catalog: Catalog, svcs: seq<Service>, index: Index, bq: Client)
    returns (rows: seq<BQRow>, err: Option<Error>)
    requires ServicesNamed(catalog, svcs)
    modifies bq`puts
    ensures var q := ServicesFold(Run(env, NewRows(env, index.keys), bq.putFault, |old(bq.puts)|), catalog, svcs,
                                  Progress([], [], None));
            bq.puts == old(bq.puts) + q.calls && rows == q.pending && err == q.failure
  {
    ghost var base := |bq.puts|;
    ghost var run := Run(env, NewRows(env, index.keys), bq.putFault, base);
    ghost var goal := ServicesFold(run, catalog, svcs, Progress([], [], None));
    assert bq.puts[base..] == [];
    rows := [];
    var i := 0;
    while i < |svcs|
      invariant 0 <= i <= |svcs|
      invariant base <= |bq.puts| && bq.puts[..base] == old(bq.puts)
      invariant goal == ServicesFold(run, catalog, svcs[i..], Progress(rows, bq.puts[base..], None))
    {
      var svc := svcs[i];
      assert svcs[i..][1..] == svcs[i + 1..];
      ghost var p := Progress(rows, bq.puts[base..], None);
      var slos := catalog.slos(svc);
      if slos.Err? {
        ServicesFoldSticks(run, catalog, svcs[i + 1..], p.(failure := Some(slos.error)));
        return rows, Some(slos.error);
      }
      assert ServiceNamed(catalog, svcs[i]);
      rows, err := SyncSlos(env, svc, slos.value, index, bq, rows, base);
      if err.Some? {
        ServicesFoldSticks(run, catalog, svcs[i + 1..], ServiceStep(run, catalog, svc, p));
        return;
      }
      i := i + 1;
    }
    assert bq.puts == old(bq.puts) + bq.puts[base..];
    err := None;
  }

  /** The service loop followed by the final Put of what is left, unless the
      loop failed. */
  method WriteAll(env: Env, catalog: Catalog, svcs: seq<Service>, index: Index, bq: Client)
    returns (err: Option<Error>)
    requires ServicesNamed(catalog, svcs)
    modifies bq`puts
    ensures var p := ServicesFold(Run(env, NewRows(env, index.keys), bq.putFault, |old(bq.puts)|), catalog, svcs,
                                  Progress([], [], None));
            && (p.failure.Some? ==> bq.puts == old(bq.puts) + p.calls && err == p.failure)
            && (p.failure.None? ==>
                  && bq.puts == old(bq.puts) + (p.calls + [PutCall(env.cfg.dataset, TableName, p.pending)])
                  && err == bq.putFault(|old(bq.puts)| + |p.calls|))
  {
    var rows, e := SyncServices(env, catalog, svcs, index, bq);
    if e.Some? {
      return e;
    }
    err := bq.Put(env.cfg.dataset, TableName, rows);
  }

  /** The run once the index is read: `existing` is what ReadBQMap returned,
      the index itself or the error of the read. */
  method SyncWithIndex(env: Env, catalog: Catalog, bq: Client, existing: Result<Index>)
    returns (err: Option<Error>)
    requires WellNamed(catalog)
    modifies bq`puts
    ensures var keys := if existing.Ok? then Ok(existing.value.keys) else Err(existing.error);
            var o := RunFrom(env, catalog, keys, bq.putFault, |old(bq.puts)|);
            bq.puts == old(bq.puts) + o.calls && err == o.err
  {
    if existing.Err? {
      return Some(existing.error);
    }
    if catalog.services.Err? {
      return Some(catalog.services.error);
    }
    err := WriteAll(env, catalog, catalog.services.value, existing.value, bq);
  }

  /** syncAllServices. `wallNow` is the clock reading of the index query; the
      days themselves are those of env.now. */
  method SyncAllServices(env: Env, catalog: Catalog, bq: Client, wallNow: int) returns (err: Option<Error>)
    requires WellNamed(catalog)
    modifies bq`queries, bq`puts
    ensures var o := SyncOutcome(env, catalog, bq.answer, bq.putFault, |old(bq.puts)|, wallNow);
            bq.puts == old(bq.puts) + o.calls && err == o.err
    // The only query is the index read, made once the zone is loaded.
    ensures var zone := env.zones(env.cfg.timeZone);
            && (zone.Err? ==> bq.queries == old(bq.queries))
            && (zone.Ok? ==>
                  bq.queries == old(bq.queries) + [IndexQuery(env.cfg.dataset,
                                                              StartDate(zone.value, wallNow, env.tuning.backfillDays))])
  {
    var existing := ReadBQMap(bq, env.cfg, env.zones, env.tuning.backfillDays, wallNow);
    err := SyncWithIndex(env, catalog, bq, existing);
  }
}
