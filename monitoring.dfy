/** The shapes the metrics backend speaks: a ListTimeSeries request and the time
    series it answers with. The backend itself is a function from request to
    answer (MetricClient), since a query does not change what it stores. */
module Monitoring {
  import opened Outcomes
  import Decimal

  datatype Reducer = ReduceNone | ReduceSum

  datatype Aligner = AlignNone | AlignDelta

  /** A ListTimeSeries request: the project resource, a filter expression, the
      interval [startSeconds, endSeconds] in Unix seconds, and the aggregation. */
  datatype Request = Request(
    name: string,
    filter: string,
    startSeconds: int,
    endSeconds: int,
    alignmentPeriod: int,
    reducer: Reducer,
    aligner: Aligner)

  /** The metric descriptor's value type of a series. */
  datatype ValueType =
    | Unspecified | BoolType | Int64Type | DoubleType | StringType | DistributionType | MoneyType

  /** A point's value. Doubles are kept as exact reals (NaN and infinities are
      not represented); NoValue stands for a point whose value is unset. */
  datatype TypedValue =
    | BoolValue(b: bool)
    | Int64Value(i: Decimal.Int64)
    | DoubleValue(x: real)
    | StringValue(s: string)
    | NoValue

  datatype Point = Point(value: TypedValue)

  datatype TimeSeries = TimeSeries(valueType: ValueType, points: seq<Point>)

  /** The protobuf getter: the double, or 0 when the value holds something else. */
  function GetDoubleValue(v: TypedValue): real {
    if v.DoubleValue? then v.x else 0.0
  }

  /** The protobuf getter: the int64, or 0 when the value holds something else. */
  function GetInt64Value(v: TypedValue): Decimal.Int64 {
    if v.Int64Value? then v.i else 0
  }

  /** The metrics backend: what ListTimeSeries answers to each request. */
  type MetricClient = Request -> Result<seq<TimeSeries>>
}
