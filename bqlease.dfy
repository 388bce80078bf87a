/** The run lease: one label on the destination dataset holding the Unix
    seconds at which the current holder's lease expires, taken by an
    etag-guarded compare-and-swap and released by an unconditional delete. */
module Lease {
  import opened Outcomes
  import opened Decimal
  import opened BigQuery

  const LeaseLabel: string := "slo2bq_lease_expiration"

  /** The check made on the label value just read: an empty value means no
      lease; otherwise it must be a base-10 int64 (else the lease cannot be
      parsed) and must not lie strictly after `now` (else another run holds
      it). None means the lease may be taken. */
  function ExistingLeaseCheck(value: string, now: int): (r: Option<Error>)
    ensures r.None? <==> value == "" || (ParseInt(value).Some? && ParseInt(value).value <= now)
    ensures r.Some? && ParseInt(value).None? ==> r.value == CouldNotParseLease(value)
    ensures r.Some? && ParseInt(value).Some? ==> r.value == LeaseStillValid(ParseInt(value).value)
  {
    if value == "" then None
    else match ParseInt(value)
      case None => Some(CouldNotParseLease(value))
      case Some(ts) => if ts > now then Some(LeaseStillValid(ts)) else None
  }

  /** A lease written for `expiration` blocks every acquisition attempted
      strictly before it, and no acquisition at or after it. */
  lemma HeldLeaseBlocks(expiration: Int64, now: int)
    ensures ExistingLeaseCheck(FormatInt(expiration), now)
         == if expiration > now then Some(LeaseStillValid(expiration)) else None
  {
    ParseFormatInt(expiration);
  }

  /** A held lease: the client and dataset it was taken on. */
  class BqLease {
    const bq: Client
    const dataset: string

    constructor (bq: Client, dataset: string)
      ensures this.bq == bq && this.dataset == dataset
    {
      this.bq := bq;
      this.dataset := dataset;
    }

    /** Releases the lease: deletes the label, without an etag, so the delete
        happens whatever was written since. */
    method Close() returns (err: Option<Error>)
      modifies bq`labels, bq`revisions
      ensures err == bq.writeFault
      ensures err.Some? ==> bq.labels == old(bq.labels) && bq.revisions == old(bq.revisions)
      ensures err.None? ==> bq.labels == old(bq.labels) - {(dataset, LeaseLabel)}
      ensures err.None? ==> bq.revisions == old(bq.revisions)[dataset := old(bq.Revision(dataset)) + 1]
      ensures err.None? ==> bq.Label(dataset, LeaseLabel) == ""
    {
      err := bq.WriteDatasetMetadataLabel(dataset, LeaseLabel, "", "");
    }
  }

  /** newBqLease: tries to take the lease until `expiration` at time `now`
      (whole Unix seconds; a lease expiring exactly now is free).
      `interleaved` is the metadata update, if any, that another process
      commits on the same dataset between this read and this write: a label
      name and value, written unconditionally. */
  method NewBqLease(bq: Client, dataset: string, expiration: Int64, now: int,
                    interleaved: Option<(string, string)>)
    returns (r: Result<BqLease>)
    modifies bq`labels, bq`revisions
    // The read failed: its error, and nothing is written.
    ensures bq.readFault.Some? ==>
      r == Err(bq.readFault.value) && bq.labels == old(bq.labels) && bq.revisions == old(bq.revisions)
    // A lease is held or unreadable: that error, and nothing is written.
    ensures bq.readFault.None? && ExistingLeaseCheck(old(bq.Label(dataset, LeaseLabel)), now).Some? ==>
      r == Err(ExistingLeaseCheck(old(bq.Label(dataset, LeaseLabel)), now).value)
      && bq.labels == old(bq.labels) && bq.revisions == old(bq.revisions)
    // The lease is free and the write goes through: the label holds the new expiration.
    ensures bq.readFault.None? && ExistingLeaseCheck(old(bq.Label(dataset, LeaseLabel)), now).None?
            && bq.writeFault.None? && interleaved.None? ==>
      r.Ok? && fresh(r.value) && r.value.bq == bq && r.value.dataset == dataset
      && bq.labels == old(bq.labels)[(dataset, LeaseLabel) := FormatInt(expiration)]
      && bq.revisions == old(bq.revisions)[dataset := old(bq.Revision(dataset)) + 1]
      && bq.Label(dataset, LeaseLabel) == FormatInt(expiration)
    // Someone else updated the metadata since the read: the etag no longer
    // matches and the write is refused; only the other update took effect.
    ensures bq.readFault.None? && ExistingLeaseCheck(old(bq.Label(dataset, LeaseLabel)), now).None?
            && bq.writeFault.None? && interleaved.Some? ==>
      r == Err(CouldNotUpdateLease(PreconditionFailed))
      && bq.labels == (if interleaved.value.1 == "" then old(bq.labels) - {(dataset, interleaved.value.0)}
                       else old(bq.labels)[(dataset, interleaved.value.0) := interleaved.value.1])
      && bq.revisions == old(bq.revisions)[dataset := old(bq.Revision(dataset)) + 1]
    // The write failed: wrapped in CouldNotUpdateLease, and nothing is written.
    ensures bq.readFault.None? && ExistingLeaseCheck(old(bq.Label(dataset, LeaseLabel)), now).None?
            && bq.writeFault.Some? ==>
      r == Err(CouldNotUpdateLease(bq.writeFault.value))
      && bq.labels == old(bq.labels) && bq.revisions == old(bq.revisions)
    // Only this dataset's metadata is ever touched.
    ensures forall ds :: ds != dataset ==> bq.Revision(ds) == old(bq.Revision(ds))
  {
    var read := bq.ReadDatasetMetadataLabel(dataset, LeaseLabel);
    if read.Err? {
      return Err(read.error);
    }
    var (exp, etag) := read.value;
    var held := ExistingLeaseCheck(exp, now);
    if held.Some? {
      return Err(held.value);
    }
    if interleaved.Some? {
      var rival := bq.WriteDatasetMetadataLabel(dataset, interleaved.value.0, interleaved.value.1, "");
      if rival.None? {
        NewRevisionNewETag(old(bq.Revision(dataset)), bq.Revision(dataset));
      }
    }
    var value := FormatInt(expiration);
    var err := bq.WriteDatasetMetadataLabel(dataset, LeaseLabel, value, etag);
    if err.Some? {
      return Err(CouldNotUpdateLease(err.value));
    }
    var lease := new BqLease(bq, dataset);
    r := Ok(lease);
  }

  /** Mutual exclusion, end to end: once a run holds the lease until
      `expiration`, a second run starting before then is turned away, and after
      the first run closes its lease the second run gets it. */
  method LeaseExcludesUntilClosed(bq: Client, dataset: string, expiration: Int64, later: Int64,
                                  now: int, secondNow: int)
    returns (first: Result<BqLease>, second: Result<BqLease>, third: Result<BqLease>)
    requires bq.readFault.None? && bq.writeFault.None?
    requires bq.Label(dataset, LeaseLabel) == ""
    requires secondNow < expiration
    modifies bq`labels, bq`revisions
    ensures first.Ok?
    ensures second == Err(LeaseStillValid(expiration))
    ensures third.Ok? && bq.Label(dataset, LeaseLabel) == FormatInt(later)
  {
    first := NewBqLease(bq, dataset, expiration, now, None);
    HeldLeaseBlocks(expiration, secondNow);
    second := NewBqLease(bq, dataset, later, secondNow, None);
    var closed := first.value.Close();
    third := NewBqLease(bq, dataset, later, secondNow, None);
  }
}
