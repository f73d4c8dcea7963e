/**
  The per-item driver both nodes wrap around their work: items are processed in
  order, each item's response is appended to the output, and an error thrown by
  an item is either recorded as an error record (continue-on-fail) or rethrown,
  which ends the run.
 */
module Batch {
  import opened Json

  /** How one item's work ended: it produced a response, or it threw. */
  datatype Outcome = Produced(response: Response) | Raised(message: string)

  /** The requests one item issued, in order, and how it ended. */
  datatype ItemRun = ItemRun(requests: seq<Request>, outcome: Outcome)

  /** The node's verdict: the output records, or the error it rethrows. */
  datatype Verdict = Returned(records: seq<Json>) | Rethrown(message: string)

  /** Every request issued during the run, and the verdict. */
  datatype BatchResult = BatchResult(requests: seq<Request>, verdict: Verdict)

  /** The records an item contributes when the run goes on past it. */
  function Records(o: Outcome, errorRecord: string -> Json): seq<Json>
  {
    match o
    case Produced(r) => Flatten(r)
    case Raised(m) => [errorRecord(m)]
  }

  /**
    The state of the driver after the items `runs` (a prefix of the batch):
    a rethrow stops everything that follows it.
   */
  function Collect(runs: seq<ItemRun>, continueOnFail: bool, errorRecord: string -> Json): BatchResult
    decreases |runs|
  {
    if runs == [] then BatchResult([], Returned([]))
    else
      var prev := Collect(runs[..|runs| - 1], continueOnFail, errorRecord);
      var last := runs[|runs| - 1];
      if prev.verdict.Rethrown? then prev
      else if last.outcome.Raised? && !continueOnFail then
        BatchResult(prev.requests + last.requests, Rethrown(last.outcome.message))
      else
        BatchResult(prev.requests + last.requests, Returned(prev.verdict.records + Records(last.outcome, errorRecord)))
  }

  /** All requests of the items, in order. */
  function AllRequests(runs: seq<ItemRun>): seq<Request>
    decreases |runs|
  {
    if runs == [] then [] else AllRequests(runs[..|runs| - 1]) + runs[|runs| - 1].requests
  }

  /** All records of the items, in order. */
  function AllRecords(runs: seq<ItemRun>, errorRecord: string -> Json): seq<Json>
    decreases |runs|
  {
    if runs == [] then [] else AllRecords(runs[..|runs| - 1], errorRecord) + Records(runs[|runs| - 1].outcome, errorRecord)
  }

  /** One more step of the driver, as the loop of each node's `execute` takes it. */
  lemma CollectStep(runs: seq<ItemRun>, i: nat, continueOnFail: bool, errorRecord: string -> Json)
    requires i < |runs|
    ensures Collect(runs[..i + 1], continueOnFail, errorRecord) ==
      var prev := Collect(runs[..i], continueOnFail, errorRecord);
      if prev.verdict.Rethrown? then prev
      else if runs[i].outcome.Raised? && !continueOnFail then
        BatchResult(prev.requests + runs[i].requests, Rethrown(runs[i].outcome.message))
      else
        BatchResult(prev.requests + runs[i].requests, Returned(prev.verdict.records + Records(runs[i].outcome, errorRecord)))
  {
    assert runs[..i + 1][..i] == runs[..i];
  }

  /** Once rethrown, the verdict and the requests stay as they are for the rest of the batch. */
  lemma {:induction false} RethrownIsFinal(runs: seq<ItemRun>, i: nat, j: nat, continueOnFail: bool, errorRecord: string -> Json)
    requires i <= j <= |runs|
    requires Collect(runs[..i], continueOnFail, errorRecord).verdict.Rethrown?
    ensures Collect(runs[..j], continueOnFail, errorRecord) == Collect(runs[..i], continueOnFail, errorRecord)
    decreases j - i
  {
    if i < j {
      CollectStep(runs, i, continueOnFail, errorRecord);
      RethrownIsFinal(runs, i + 1, j, continueOnFail, errorRecord);
    }
  }

  /**
    With continue-on-fail every item is processed: nothing is rethrown, every
    item's requests are issued, and each failing item leaves one error record in
    its place among the records.
   */
  lemma {:induction false} ContinueOnFailProcessesAll(runs: seq<ItemRun>, errorRecord: string -> Json)
    ensures Collect(runs, true, errorRecord) == BatchResult(AllRequests(runs), Returned(AllRecords(runs, errorRecord)))
    decreases |runs|
  {
    if runs != [] {
      ContinueOnFailProcessesAll(runs[..|runs| - 1], errorRecord);
    }
  }

  /** A batch in which no item throws returns every item's records, whatever the policy. */
  lemma {:induction false} NoFailureReturnsAll(runs: seq<ItemRun>, continueOnFail: bool, errorRecord: string -> Json)
    requires forall k :: 0 <= k < |runs| ==> runs[k].outcome.Produced?
    ensures Collect(runs, continueOnFail, errorRecord) == BatchResult(AllRequests(runs), Returned(AllRecords(runs, errorRecord)))
    decreases |runs|
  {
    if runs != [] {
      NoFailureReturnsAll(runs[..|runs| - 1], continueOnFail, errorRecord);
    }
  }

  /**
    Without continue-on-fail the first item that throws ends the run: its error
    is rethrown, and no request of a later item is issued.
   */
  lemma FirstFailureIsRethrown(runs: seq<ItemRun>, k: nat, errorRecord: string -> Json)
    requires k < |runs| && runs[k].outcome.Raised?
    requires forall j :: 0 <= j < k ==> runs[j].outcome.Produced?
    ensures Collect(runs, false, errorRecord) == BatchResult(AllRequests(runs[..k + 1]), Rethrown(runs[k].outcome.message))
  {
    var before := runs[..k];
    assert forall j :: 0 <= j < |before| ==> before[j].outcome.Produced?;
    NoFailureReturnsAll(before, false, errorRecord);
    CollectStep(runs, k, false, errorRecord);
    assert runs[..k + 1][..k] == before;
    RethrownIsFinal(runs, k + 1, |runs|, false, errorRecord);
    assert runs[..|runs|] == runs;
  }
}
