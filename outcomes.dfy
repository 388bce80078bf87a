/** Results and errors shared by every part of the sync job. Collaborator errors
    travel through the core unchanged; the core's own errors get constructors of
    their own so that contracts can say which one is returned. */
module Outcomes {

  datatype Option<+T> = None | Some(value: T)

  datatype Result<+T> = Ok(value: T) | Err(error: Error)

  datatype Error =
    /** An error reported by a collaborator (time-zone database, catalog,
        metrics backend, warehouse), passed through verbatim. */
    | External(message: string)
    /** The warehouse refused a metadata update whose etag no longer matched. */
    | PreconditionFailed
    /** getGoodTotal: fewer than two of the good/bad/total filters are set. */
    | ExpectedTwoOfThree
    /** getCounter: the backend returned more than one time series. */
    | UnexpectedSeriesCount(filter: string, count: nat)
    /** getCounter: the single time series did not hold exactly one point. */
    | UnexpectedPointCount(filter: string, count: nat)
    /** getCounter: the point is neither DOUBLE nor INT64. */
    | UnexpectedValueType(filter: string)
    /** readBQMap: an existing row lacks its service, SLO or date. */
    | MissingKeyField(service: string, slo: string, date: string)
    /** newBqLease: the stored lease expiration is not a base-10 int64. */
    | CouldNotParseLease(value: string)
    /** newBqLease: the stored lease expires strictly after now. */
    | LeaseStillValid(until: int)
    /** newBqLease: the conditional label write was rejected. */
    | CouldNotUpdateLease(cause: Error)
}
