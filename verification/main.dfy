/**
 * The copy job (`run_copy_job` and the `__main__` block in app/main.py):
 * one copy per destination, the split of their outcomes into operations and
 * error messages, the total-failure rule and the process exit code.
 *
 * The per-destination copies share no state, so the concurrent gather is
 * modelled as a map over the destination list; `scenario(i)` is the network
 * seen by the copy to the i-th destination.
 */
module Main {
  import opened Results
  import opened Json
  import opened Config
  import opened Client

  const AllFailedMessage := "All copy operations failed"
  const TriggeredMessage := "Copy operations triggered"
  const AllFailedStatus := 500

  /** The response of a job that did not fail outright. */
  datatype CopyResponse = CopyResponse(message: string, operations: seq<Value>, errors: seq<string>)

  /**
   * How a job ends: the HTTP 500 exception raised when every copy failed,
   * a response, or no end at all because some copy is still polling.
   */
  datatype JobOutcome =
    | AllFailed(statusCode: int, message: string, errors: seq<string>)
    | Triggered(response: CopyResponse)
    | NeverReturns

  /** A destination paired with what its copy returned or raised. */
  type Pair = (string, Result<Value, Exc>)

  /** The error message recorded for a destination whose copy raised. */
  function ErrorMessage(source: string, destination: string, e: Exc): string {
    "Error triggering copy from " + source + " to " + destination + ": " + e.text
  }

  /** Python's non-strict `zip`: pairs up to the shorter of the two lists. */
  function Zip(destinations: seq<string>, results: seq<Result<Value, Exc>>): (pairs: seq<Pair>)
    ensures |pairs| == if |destinations| <= |results| then |destinations| else |results|
    ensures forall i :: 0 <= i < |pairs| ==> pairs[i] == (destinations[i], results[i])
  {
    var n := if |destinations| <= |results| then |destinations| else |results|;
    seq(n, i requires 0 <= i < n => (destinations[i], results[i]))
  }

  /** The operations collected from `pairs`, in order. */
  function Operations(pairs: seq<Pair>): seq<Value>
    decreases |pairs|
  {
    if pairs == [] then []
    else
      var last := pairs[|pairs| - 1];
      Operations(pairs[..|pairs| - 1]) + (if last.1.Success? then [last.1.value] else [])
  }

  /** The error messages collected from `pairs`, in order. */
  function ErrorMessages(source: string, pairs: seq<Pair>): seq<string>
    decreases |pairs|
  {
    if pairs == [] then []
    else
      var last := pairs[|pairs| - 1];
      ErrorMessages(source, pairs[..|pairs| - 1])
        + (if last.1.Failure? then [ErrorMessage(source, last.0, last.1.error)] else [])
  }

  /** The positions at which `flags` holds, in increasing order. */
  function Where(flags: seq<bool>): (p: seq<int>)
    ensures forall j :: 0 <= j < |p| ==> 0 <= p[j] < |flags| && flags[p[j]]
    ensures forall j, k :: 0 <= j < k < |p| ==> p[j] < p[k]
    ensures forall i :: 0 <= i < |flags| && flags[i] ==> i in p
    decreases |flags|
  {
    if flags == [] then []
    else
      var n := |flags| - 1;
      assert forall i :: 0 <= i < n ==> flags[..n][i] == flags[i];
      Where(flags[..n]) + (if flags[n] then [n] else [])
  }

  function SucceededFlags(pairs: seq<Pair>): (f: seq<bool>)
    ensures |f| == |pairs|
  {
    seq(|pairs|, i requires 0 <= i < |pairs| => pairs[i].1.Success?)
  }

  function FailedFlags(pairs: seq<Pair>): (f: seq<bool>)
    ensures |f| == |pairs|
  {
    seq(|pairs|, i requires 0 <= i < |pairs| => pairs[i].1.Failure?)
  }

  /** Every result lands in exactly one of the two lists. */
  lemma {:induction false} PartitionCounts(source: string, pairs: seq<Pair>)
    ensures |Operations(pairs)| + |ErrorMessages(source, pairs)| == |pairs|
    decreases |pairs|
  {
    if pairs != [] {
      PartitionCounts(source, pairs[..|pairs| - 1]);
    }
  }

  /** No operation is collected exactly when every result is a failure. */
  lemma {:induction false} NoOperationsIffAllFailed(pairs: seq<Pair>)
    ensures |Operations(pairs)| == 0 <==> forall i :: 0 <= i < |pairs| ==> pairs[i].1.Failure?
    decreases |pairs|
  {
    if pairs != [] {
      var n := |pairs| - 1;
      NoOperationsIffAllFailed(pairs[..n]);
      assert forall i :: 0 <= i < n ==> pairs[..n][i] == pairs[i];
    }
  }

  /** The operations are the successful results' values, in destination order. */
  lemma {:induction false} OperationsAreSuccessesInOrder(pairs: seq<Pair>)
    ensures |Operations(pairs)| == |Where(SucceededFlags(pairs))|
    ensures forall j :: 0 <= j < |Operations(pairs)| ==>
      Operations(pairs)[j] == pairs[Where(SucceededFlags(pairs))[j]].1.value
    decreases |pairs|
  {
    if pairs != [] {
      var n := |pairs| - 1;
      OperationsAreSuccessesInOrder(pairs[..n]);
      assert SucceededFlags(pairs)[..n] == SucceededFlags(pairs[..n]);
    }
  }

  /**
   * The error messages are one per failed result, in destination order, each
   * naming the source, the destination and the exception text.
   */
  lemma {:induction false} ErrorMessagesAreFailuresInOrder(source: string, pairs: seq<Pair>)
    ensures |ErrorMessages(source, pairs)| == |Where(FailedFlags(pairs))|
    ensures forall j :: 0 <= j < |ErrorMessages(source, pairs)| ==>
      var i := Where(FailedFlags(pairs))[j];
      ErrorMessages(source, pairs)[j]
        == "Error triggering copy from " + source + " to " + pairs[i].0 + ": " + pairs[i].1.error.text
    decreases |pairs|
  {
    if pairs != [] {
      var n := |pairs| - 1;
      ErrorMessagesAreFailuresInOrder(source, pairs[..n]);
      assert FailedFlags(pairs)[..n] == FailedFlags(pairs[..n]);
    }
  }

  /** The collection loop over the zipped destinations and results. */
  method CollectResults(source: string, destinations: seq<string>, results: seq<Result<Value, Exc>>)
    returns (operations: seq<Value>, errors: seq<string>)
    ensures operations == Operations(Zip(destinations, results))
    ensures errors == ErrorMessages(source, Zip(destinations, results))
    ensures |destinations| == |results| ==> |operations| + |errors| == |destinations|
  {
    var pairs := Zip(destinations, results);
    operations := [];
    errors := [];
    var i := 0;
    while i < |pairs|
      invariant 0 <= i <= |pairs|
      invariant operations == Operations(pairs[..i])
      invariant errors == ErrorMessages(source, pairs[..i])
    {
      var (destination, result) := pairs[i];
      assert pairs[..i + 1][..i] == pairs[..i];
      if result.Failure? {
        errors := errors + [ErrorMessage(source, destination, result.error)];
      } else {
        operations := operations + [result.value];
      }
      i := i + 1;
    }
    assert pairs[..|pairs|] == pairs;
    PartitionCounts(source, pairs);
  }

  /** The total-failure rule: some error and no operation. */
  function Decide(operations: seq<Value>, errors: seq<string>): JobOutcome {
    if |errors| > 0 && |operations| == 0 then AllFailed(AllFailedStatus, AllFailedMessage, errors)
    else Triggered(CopyResponse(TriggeredMessage, operations, errors))
  }

  /** One copy per destination, in list order. */
  function Tasks(s: Settings, scenario: nat -> Network): (runs: seq<Run>)
    ensures |runs| == |s.destinationRepositories|
  {
    seq(|s.destinationRepositories|, i requires 0 <= i < |s.destinationRepositories| =>
      CopyRepository(s, s.destinationRepositories[i], scenario(i)))
  }

  /** What the gather hands back: every copy's value or exception, once all have ended. */
  function Gather(runs: seq<Run>): Option<seq<Result<Value, Exc>>> {
    if forall i :: 0 <= i < |runs| ==> !runs[i].outcome.Polling? then
      Some(seq(|runs|, i requires 0 <= i < |runs| =>
        match runs[i].outcome
        case Returned(op) => Success(op)
        case Raised(e) => Failure(e)
        case Polling(_) => assert false; Failure(RequestError(""))))
    else None
  }

  /**
   * `run_copy_job` under the given settings and per-destination networks.
   * It never ends while a copy polls; an outright failure is status 500 with
   * one message per destination; a response accounts for every destination
   * and always has an operation unless it has no error either.
   */
  function RunCopyJob(s: Settings, scenario: nat -> Network): (r: JobOutcome)
    ensures r.NeverReturns? <==>
      exists i :: 0 <= i < |s.destinationRepositories| && Tasks(s, scenario)[i].outcome.Polling?
    ensures r.AllFailed? ==>
      && r.statusCode == 500
      && r.message == "All copy operations failed"
      && |r.errors| == |s.destinationRepositories| > 0
    ensures r.Triggered? ==>
      && r.response.message == "Copy operations triggered"
      && |r.response.operations| + |r.response.errors| == |s.destinationRepositories|
      && (|r.response.operations| > 0 || |r.response.errors| == 0)
  {
    match Gather(Tasks(s, scenario))
    case None => NeverReturns
    case Some(results) =>
      var pairs := Zip(s.destinationRepositories, results);
      PartitionCounts(s.sourceRepository, pairs);
      Decide(Operations(pairs), ErrorMessages(s.sourceRepository, pairs))
  }

  /**
   * The process exit code of the `__main__` block; `None` while the job
   * has not ended. Invalid settings and the all-failed exception both reach
   * the generic exception handler.
   */
  function ExitCode(input: SettingsInput, scenario: nat -> Network): (code: Option<int>)
    ensures code == Some(1) <==>
      Build(input).Failure? || RunCopyJob(Build(input).value, scenario).AllFailed?
    ensures code == Some(0) <==>
      Build(input).Success? && RunCopyJob(Build(input).value, scenario).Triggered?
    ensures code.None? <==>
      Build(input).Success? && RunCopyJob(Build(input).value, scenario).NeverReturns?
  {
    match Build(input)
    case Failure(_) => Some(1)
    case Success(s) =>
      match RunCopyJob(s, scenario)
      case NeverReturns => None
      case AllFailed(_, _, _) => Some(1)
      case Triggered(response) =>
        if |response.errors| > 0 && |response.operations| == 0 then Some(1) else Some(0)
  }
}
