/** The warehouse as the sync sees it: SQL queries returning rows, batch inserts,
    and dataset metadata labels guarded by an etag. */
module BigQuery {
  import opened Outcomes
  import opened Decimal

  /** The table every sync writes to and reads the existing keys from. */
  const TableName: string := "data"

  /** One row of the data table: good and total events of one SLO on one date. */
  datatype BQRow = BQRow(service: string, slo: string, date: string, total: int, good: int, target: real)

  /** One Put call as the warehouse received it. */
  datatype PutCall = PutCall(dataset: string, table: string, rows: seq<BQRow>)

  /** The warehouse client. What the warehouse answers, and which calls fail,
      are fixed when the client is made: `answer` gives each query's result,
      `putFault` the outcome of the k-th Put call (counting from 0), and
      `readFault` / `writeFault` an outage of the metadata endpoint. The
      mutable part records every query and Put issued, and holds the dataset
      labels together with each dataset's metadata revision, from which its
      etag is derived. */
  class Client {
    const answer: string -> Result<seq<BQRow>>
    const putFault: nat -> Option<Error>
    const readFault: Option<Error>
    const writeFault: Option<Error>

    var queries: seq<string>
    var puts: seq<PutCall>
    var labels: map<(string, string), string>
    var revisions: map<string, nat>

    constructor (answer: string -> Result<seq<BQRow>>, putFault: nat -> Option<Error>,
                 readFault: Option<Error>, writeFault: Option<Error>,
                 labels: map<(string, string), string>)
      ensures this.answer == answer && this.putFault == putFault
      ensures this.readFault == readFault && this.writeFault == writeFault
      ensures queries == [] && puts == [] && this.labels == labels && revisions == map[]
    {
      this.answer := answer;
      this.putFault := putFault;
      this.readFault := readFault;
      this.writeFault := writeFault;
      this.queries := [];
      this.puts := [];
      this.labels := labels;
      this.revisions := map[];
    }

    /** The value of a label; a missing label reads as "". */
    function Label(dataset: string, labelName: string): string
      reads this
    {
      if (dataset, labelName) in labels then labels[(dataset, labelName)] else ""
    }

    function Revision(dataset: string): nat
      reads this
    {
      if dataset in revisions then revisions[dataset] else 0
    }

    /** The etag of a dataset's metadata: never empty, and different for every
        revision. */
    function ETag(dataset: string): (e: string)
      reads this
      ensures e != ""
    {
      "r" + FormatNat(Revision(dataset))
    }

    method Query(q: string) returns (r: Result<seq<BQRow>>)
      modifies this`queries
      ensures queries == old(queries) + [q]
      ensures r == answer(q)
    {
      queries := queries + [q];
      r := answer(q);
    }

    method Put(dataset: string, table: string, rows: seq<BQRow>) returns (err: Option<Error>)
      modifies this`puts
      ensures puts == old(puts) + [PutCall(dataset, table, rows)]
      ensures err == putFault(|old(puts)|)
    {
      err := putFault(|puts|);
      puts := puts + [PutCall(dataset, table, rows)];
    }

    /** ReadDatasetMetadataLabel: the label's value and the metadata etag. */
    method ReadDatasetMetadataLabel(dataset: string, labelName: string) returns (r: Result<(string, string)>)
      ensures readFault.Some? ==> r == Err(readFault.value)
      ensures readFault.None? ==> r == Ok((Label(dataset, labelName), ETag(dataset)))
    {
      if readFault.Some? {
        return Err(readFault.value);
      }
      r := Ok((Label(dataset, labelName), ETag(dataset)));
    }

    /** WriteDatasetMetadataLabel: sets the label, or deletes it when `value` is
        empty. A non-empty `etag` makes the update conditional: it is refused
        unless it matches the dataset's current etag. Every accepted update
        moves the dataset to a new revision, so earlier etags stop matching. */
    method WriteDatasetMetadataLabel(dataset: string, labelName: string, value: string, etag: string)
      returns (err: Option<Error>)
      modifies this`labels, this`revisions
      ensures writeFault.Some? ==> err == writeFault
      ensures writeFault.None? ==> (err.Some? <==> etag != "" && etag != old(ETag(dataset)))
      ensures err.Some? ==> err.value == PreconditionFailed || writeFault.Some?
      ensures err.Some? ==> labels == old(labels) && revisions == old(revisions)
      ensures err.None? ==> labels == (if value == "" then old(labels) - {(dataset, labelName)}
                                       else old(labels)[(dataset, labelName) := value])
      ensures err.None? ==> revisions == old(revisions)[dataset := old(Revision(dataset)) + 1]
      ensures err.None? ==> Label(dataset, labelName) == value
    {
      if writeFault.Some? {
        return writeFault;
      }
      if etag != "" && etag != ETag(dataset) {
        return Some(PreconditionFailed);
      }
      var next := Revision(dataset) + 1;
      if value == "" {
        labels := labels - {(dataset, labelName)};
      } else {
        labels := labels[(dataset, labelName) := value];
      }
      revisions := revisions[dataset := next];
      err := None;
    }
  }

  /** Every accepted metadata update gives the dataset a fresh etag. */
  lemma NewRevisionNewETag(a: nat, b: nat)
    requires a != b
    ensures "r" + FormatNat(a) != "r" + FormatNat(b)
  {
    if "r" + FormatNat(a) == "r" + FormatNat(b) {
      assert FormatNat(a) == ("r" + FormatNat(a))[1..];
      FormatNatInjective(a, b);
    }
  }
}
