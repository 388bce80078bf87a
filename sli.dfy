/** Reading a request-based SLI for one day: each filter expression is summed
    over the day by one ListTimeSeries call (getCounter), and two of the three
    counters good, bad and total give the day's good and total counts
    (getGoodTotal). The backend is a function from request to answer; every
    result comes with the requests issued to obtain it. */
module Sli {
  import opened Outcomes
  import opened Monitoring
  import opened SloClient

  /** A result together with the metric requests issued, in order. */
  datatype Traced<+T> = Traced(result: Result<T>, queries: seq<Request>)

  /** The request summing `filter` over [start, end]: one DELTA bucket as wide
      as the interval, summed across series. */
  function CounterRequest(project: string, filter: string, start: int, end: int): Request {
    Request("projects/" + project, filter, start, end, end - start, ReduceSum, AlignDelta)
  }

  /** int64(x) for a double x in range: the fraction is dropped, towards zero. */
  function TruncateToInt(x: real): (r: int)
    ensures 0.0 <= x ==> 0 <= r && r as real <= x < r as real + 1.0
    ensures x < 0.0 ==> r <= 0 && r as real - 1.0 < x <= r as real
  {
    if x >= 0.0 then x.Floor else -((-x).Floor)
  }

  /** The value of a counter from the backend's answer: no series reads as 0;
      otherwise there must be exactly one series with exactly one point whose
      type is DOUBLE (truncated) or INT64. */
  function ReadCounter(filter: string, answer: Result<seq<TimeSeries>>): (r: Result<int>)
    ensures answer.Err? ==> r == Err(answer.error)
    ensures answer == Ok([]) ==> r == Ok(0)
    ensures answer.Ok? && |answer.value| > 1 ==> r == Err(UnexpectedSeriesCount(filter, |answer.value|))
    ensures answer.Ok? && |answer.value| == 1 && |answer.value[0].points| != 1 ==>
      r == Err(UnexpectedPointCount(filter, |answer.value[0].points|))
    ensures answer.Ok? && |answer.value| == 1 ==>
      (r.Ok? <==> |answer.value[0].points| == 1 && answer.value[0].valueType in {DoubleType, Int64Type})
    ensures answer.Ok? && |answer.value| == 1 && |answer.value[0].points| == 1
            && answer.value[0].valueType !in {DoubleType, Int64Type} ==>
      r == Err(UnexpectedValueType(filter))
    // An INT64 point is read exactly.
    ensures r.Ok? && answer.Ok? && |answer.value| == 1 && answer.value[0].valueType == Int64Type ==>
      r.value == GetInt64Value(answer.value[0].points[0].value)
    // A DOUBLE point is read to within one, rounded towards zero.
    ensures r.Ok? && answer.Ok? && |answer.value| == 1 && answer.value[0].valueType == DoubleType ==>
      var x := GetDoubleValue(answer.value[0].points[0].value);
      && -1.0 < x - r.value as real < 1.0
      && (0.0 <= x ==> 0.0 <= r.value as real <= x)
      && (x < 0.0 ==> x <= r.value as real <= 0.0)
  {
    match answer
    case Err(e) => Err(e)
    case Ok(series) =>
      if |series| == 0 then Ok(0)
      else if |series| != 1 then Err(UnexpectedSeriesCount(filter, |series|))
      else if |series[0].points| != 1 then Err(UnexpectedPointCount(filter, |series[0].points|))
      else if series[0].valueType == DoubleType then Ok(TruncateToInt(GetDoubleValue(series[0].points[0].value)))
      else if series[0].valueType == Int64Type then Ok(GetInt64Value(series[0].points[0].value) as int)
      else Err(UnexpectedValueType(filter))
  }

  /** getCounter: one request for the whole interval, and its answer read as
      a counter. */
  function GetCounter(project: string, filter: string, start: int, end: int, metrics: MetricClient)
    : (r: Traced<int>)
    ensures |r.queries| == 1
    ensures r.queries[0].name == "projects/" + project && r.queries[0].filter == filter
    ensures r.queries[0].startSeconds == start && r.queries[0].endSeconds == end
    ensures r.queries[0].alignmentPeriod == end - start
    ensures r.queries[0].reducer == ReduceSum && r.queries[0].aligner == AlignDelta
    ensures r.result == ReadCounter(filter, metrics(r.queries[0]))
  {
    var req := CounterRequest(project, filter, start, end);
    Traced(ReadCounter(filter, metrics(req)), [req])
  }

  /** The counter a filter yields over [start, end]. */
  function Counter(project: string, filter: string, start: int, end: int, metrics: MetricClient): Result<int> {
    GetCounter(project, filter, start, end, metrics).result
  }

  /** Which two of the three counters are read, in the order the source
      tries them. */
  datatype Formula = GoodAndTotal | GoodAndBad | BadAndTotal

  /** The number of filter expressions that are set. */
  function SetFilters(sli: GoodTotalRatio): nat {
    (if sli.good != "" then 1 else 0) + (if sli.bad != "" then 1 else 0) + (if sli.total != "" then 1 else 0)
  }

  /** The first applicable formula; there is one exactly when two of the three
      filters are set. */
  function FormulaOf(sli: GoodTotalRatio): (f: Option<Formula>)
    ensures f.Some? <==> SetFilters(sli) >= 2
    ensures f.Some? ==> Operands(sli, f.value).0 != "" && Operands(sli, f.value).1 != ""
    ensures f == Some(GoodAndTotal) <==> sli.good != "" && sli.total != ""
    ensures f == Some(GoodAndBad) ==> sli.total == ""
    ensures f == Some(BadAndTotal) ==> sli.good == ""
  {
    if sli.good != "" && sli.total != "" then Some(GoodAndTotal)
    else if sli.good != "" && sli.bad != "" then Some(GoodAndBad)
    else if sli.bad != "" && sli.total != "" then Some(BadAndTotal)
    else None
  }

  /** The two filters a formula reads, in query order. */
  function Operands(sli: GoodTotalRatio, f: Formula): (string, string) {
    match f
    case GoodAndTotal => (sli.good, sli.total)
    case GoodAndBad => (sli.good, sli.bad)
    case BadAndTotal => (sli.bad, sli.total)
  }

  /** (good, total) from the two counters read. */
  function Combine(f: Formula, first: int, second: int): (int, int) {
    match f
    case GoodAndTotal => (first, second)
    case GoodAndBad => (first, first + second)
    case BadAndTotal => (second - first, second)
  }

  /** getGoodTotal: reads the two counters of the first applicable formula,
      stopping at the first failure. */
  function GetGoodTotal(project: string, sli: GoodTotalRatio, start: int, end: int, metrics: MetricClient)
    : (r: Traced<(int, int)>)
    ensures FormulaOf(sli).None? <==> r.queries == []
    ensures FormulaOf(sli).None? ==> r.result == Err(ExpectedTwoOfThree)
    ensures FormulaOf(sli).Some? ==>
      var (a, b) := Operands(sli, FormulaOf(sli).value);
      && 1 <= |r.queries| <= 2
      && r.queries[0] == CounterRequest(project, a, start, end)
      && (|r.queries| == 2 ==> r.queries[1] == CounterRequest(project, b, start, end))
      && (|r.queries| == 1 <==> Counter(project, a, start, end, metrics).Err?)
      && (|r.queries| == 1 ==> r.result == Err(Counter(project, a, start, end, metrics).error))
    ensures r.result.Ok? ==> |r.queries| == 2
  {
    match FormulaOf(sli)
    case None => Traced(Err(ExpectedTwoOfThree), [])
    case Some(f) =>
      var (a, b) := Operands(sli, f);
      var first := GetCounter(project, a, start, end, metrics);
      if first.result.Err? then Traced(Err(first.result.error), first.queries)
      else
        var second := GetCounter(project, b, start, end, metrics);
        var queries := first.queries + second.queries;
        if second.result.Err? then Traced(Err(second.result.error), queries)
        else Traced(Ok(Combine(f, first.result.value, second.result.value)), queries)
  }

  /** The three formulas agree: when the backend's counters are consistent
      (good + bad = total) and readable, whichever two filters are set, the
      day reads as (good, total). */
  lemma FormulasAgree(project: string, sli: GoodTotalRatio, start: int, end: int, metrics: MetricClient,
                      good: int, bad: int, total: int)
    requires SetFilters(sli) >= 2
    requires sli.good != "" ==> Counter(project, sli.good, start, end, metrics) == Ok(good)
    requires sli.bad != "" ==> Counter(project, sli.bad, start, end, metrics) == Ok(bad)
    requires sli.total != "" ==> Counter(project, sli.total, start, end, metrics) == Ok(total)
    requires good + bad == total
    ensures GetGoodTotal(project, sli, start, end, metrics).result == Ok((good, total))
  {
  }

  /** A failing second counter fails the day with its error, after both
      requests were issued. */
  lemma SecondFailureReported(project: string, sli: GoodTotalRatio, start: int, end: int, metrics: MetricClient)
    requires FormulaOf(sli).Some?
    requires Counter(project, Operands(sli, FormulaOf(sli).value).0, start, end, metrics).Ok?
    requires Counter(project, Operands(sli, FormulaOf(sli).value).1, start, end, metrics).Err?
    ensures var r := GetGoodTotal(project, sli, start, end, metrics);
            && |r.queries| == 2
            && r.result == Err(Counter(project, Operands(sli, FormulaOf(sli).value).1, start, end, metrics).error)
  {
  }

  /** Good and Total both set: they are read as they are, whatever Bad is
      and whether or not it could be read. */
  lemma GoodAndTotalRead(project: string, sli: GoodTotalRatio, start: int, end: int, metrics: MetricClient,
                         good: int, total: int)
    requires sli.good != "" && sli.total != ""
    requires Counter(project, sli.good, start, end, metrics) == Ok(good)
    requires Counter(project, sli.total, start, end, metrics) == Ok(total)
    ensures var r := GetGoodTotal(project, sli, start, end, metrics);
            && r.result == Ok((good, total))
            && r.queries == [CounterRequest(project, sli.good, start, end), CounterRequest(project, sli.total, start, end)]
  {
  }

  /** Good and Bad set, Total not: the total is the sum of the two. */
  lemma GoodAndBadSum(project: string, sli: GoodTotalRatio, start: int, end: int, metrics: MetricClient,
                      good: int, bad: int)
    requires sli.good != "" && sli.bad != "" && sli.total == ""
    requires Counter(project, sli.good, start, end, metrics) == Ok(good)
    requires Counter(project, sli.bad, start, end, metrics) == Ok(bad)
    ensures var r := GetGoodTotal(project, sli, start, end, metrics);
            && r.result == Ok((good, good + bad))
            && r.queries == [CounterRequest(project, sli.good, start, end), CounterRequest(project, sli.bad, start, end)]
  {
  }

  /** Bad and Total set, Good not: good is the difference, which may be
      negative. */
  lemma BadAndTotalDifference(project: string, sli: GoodTotalRatio, start: int, end: int, metrics: MetricClient,
                              bad: int, total: int)
    requires sli.good == "" && sli.bad != "" && sli.total != ""
    requires Counter(project, sli.bad, start, end, metrics) == Ok(bad)
    requires Counter(project, sli.total, start, end, metrics) == Ok(total)
    ensures var r := GetGoodTotal(project, sli, start, end, metrics);
            && r.result == Ok((total - bad, total))
            && r.queries == [CounterRequest(project, sli.bad, start, end), CounterRequest(project, sli.total, start, end)]
  {
  }
}
