/** Properties of a whole copy job and of the process exit code. */
module JobFacts {
  import opened Results
  import opened Json
  import opened Config
  import opened Client
  import opened Main

  /** The operations a job reports (none when it failed outright). */
  function JobOperations(r: JobOutcome): seq<Value> {
    if r.Triggered? then r.response.operations else []
  }

  /** The error messages a job reports, in the exception or in the response. */
  function JobErrors(r: JobOutcome): seq<string> {
    match r
    case AllFailed(_, _, errors) => errors
    case Triggered(response) => response.errors
    case NeverReturns => []
  }

  function ReturnedFlags(runs: seq<Run>): (f: seq<bool>)
    ensures |f| == |runs|
  {
    seq(|runs|, i requires 0 <= i < |runs| => runs[i].outcome.Returned?)
  }

  function RaisedFlags(runs: seq<Run>): (f: seq<bool>)
    ensures |f| == |runs|
  {
    seq(|runs|, i requires 0 <= i < |runs| => runs[i].outcome.Raised?)
  }

  /** No copy of the job is left polling. */
  predicate AllEnded(runs: seq<Run>) {
    forall i :: 0 <= i < |runs| ==> !runs[i].outcome.Polling?
  }

  /** Once every copy has ended, the zipped pairs mirror the copies one to one. */
  lemma PairsMirrorRuns(s: Settings, scenario: nat -> Network)
    requires AllEnded(Tasks(s, scenario))
    ensures var runs := Tasks(s, scenario);
      var pairs := Zip(s.destinationRepositories, Gather(runs).value);
      && |pairs| == |runs|
      && SucceededFlags(pairs) == ReturnedFlags(runs)
      && FailedFlags(pairs) == RaisedFlags(runs)
      && forall i :: 0 <= i < |pairs| ==>
        && pairs[i].0 == s.destinationRepositories[i]
        && (runs[i].outcome.Returned? ==> pairs[i].1 == Success(runs[i].outcome.op))
        && (runs[i].outcome.Raised? ==> pairs[i].1 == Failure(runs[i].outcome.exc))
  {
  }

  /** The job never ends exactly when some copy never stops polling. */
  lemma NeverReturnsIffSomeCopyPolls(s: Settings, scenario: nat -> Network)
    ensures RunCopyJob(s, scenario).NeverReturns? <==>
      exists i :: 0 <= i < |s.destinationRepositories| && Tasks(s, scenario)[i].outcome.Polling?
  {
  }

  /** `pairs` holds, position by position, the destination and the ending of each of `runs`. */
  predicate Mirrors(pairs: seq<Pair>, destinations: seq<string>, runs: seq<Run>) {
    && |pairs| == |runs| == |destinations|
    && forall i :: 0 <= i < |pairs| ==>
      && pairs[i].0 == destinations[i]
      && (runs[i].outcome.Returned? ==> pairs[i].1 == Success(runs[i].outcome.op))
      && (runs[i].outcome.Raised? ==> pairs[i].1 == Failure(runs[i].outcome.exc))
  }

  lemma OperationsMatchRuns(pairs: seq<Pair>, destinations: seq<string>, runs: seq<Run>)
    requires Mirrors(pairs, destinations, runs) && SucceededFlags(pairs) == ReturnedFlags(runs)
    ensures var ok := Where(ReturnedFlags(runs));
      && |Operations(pairs)| == |ok|
      && forall j :: 0 <= j < |ok| ==> Operations(pairs)[j] == runs[ok[j]].outcome.op
  {
    OperationsAreSuccessesInOrder(pairs);
  }

  lemma ErrorsMatchRuns(source: string, pairs: seq<Pair>, destinations: seq<string>, runs: seq<Run>)
    requires Mirrors(pairs, destinations, runs) && FailedFlags(pairs) == RaisedFlags(runs)
    ensures var bad := Where(RaisedFlags(runs));
      && |ErrorMessages(source, pairs)| == |bad|
      && forall j :: 0 <= j < |bad| ==>
        ErrorMessages(source, pairs)[j] == "Error triggering copy from " + source + " to "
          + destinations[bad[j]] + ": " + runs[bad[j]].outcome.exc.text
  {
    ErrorMessagesAreFailuresInOrder(source, pairs);
  }

  /**
   * Once every copy has ended, each one lands in exactly one list: the
   * returned operations in destination order, and one message per raised
   * exception in destination order, naming source, destination and the
   * exception text.
   */
  lemma JobCollectsEveryOutcomeInOrder(s: Settings, scenario: nat -> Network)
    requires AllEnded(Tasks(s, scenario))
    ensures var runs := Tasks(s, scenario);
      var r := RunCopyJob(s, scenario);
      var ok := Where(ReturnedFlags(runs));
      var bad := Where(RaisedFlags(runs));
      && !r.NeverReturns?
      && |JobOperations(r)| + |JobErrors(r)| == |s.destinationRepositories|
      && |JobOperations(r)| == |ok|
      && (forall j :: 0 <= j < |ok| ==> JobOperations(r)[j] == runs[ok[j]].outcome.op)
      && |JobErrors(r)| == |bad|
      && (forall j :: 0 <= j < |bad| ==>
        JobErrors(r)[j] == "Error triggering copy from " + s.sourceRepository + " to "
          + s.destinationRepositories[bad[j]] + ": " + runs[bad[j]].outcome.exc.text)
  {
    var runs := Tasks(s, scenario);
    var pairs := Zip(s.destinationRepositories, Gather(runs).value);
    var r := RunCopyJob(s, scenario);
    JobDecides(s, scenario);
    assert JobOperations(r) == Operations(pairs);
    assert JobErrors(r) == ErrorMessages(s.sourceRepository, pairs);
    PairsMirrorRuns(s, scenario);
    assert Mirrors(pairs, s.destinationRepositories, runs);
    PartitionCounts(s.sourceRepository, pairs);
    OperationsMatchRuns(pairs, s.destinationRepositories, runs);
    ErrorsMatchRuns(s.sourceRepository, pairs, s.destinationRepositories, runs);
  }

  /** Once every copy has ended, the job applies the total-failure rule to the collected lists. */
  lemma JobDecides(s: Settings, scenario: nat -> Network)
    requires AllEnded(Tasks(s, scenario))
    ensures var pairs := Zip(s.destinationRepositories, Gather(Tasks(s, scenario)).value);
      RunCopyJob(s, scenario) == Decide(Operations(pairs), ErrorMessages(s.sourceRepository, pairs))
  {
  }

  /**
   * The job fails outright (HTTP 500, "All copy operations failed") exactly
   * when there is at least one destination and every copy raised.
   */
  lemma AllFailedIffEveryCopyRaised(s: Settings, scenario: nat -> Network)
    requires AllEnded(Tasks(s, scenario))
    ensures RunCopyJob(s, scenario).AllFailed? <==>
      && |s.destinationRepositories| > 0
      && forall i :: 0 <= i < |s.destinationRepositories| ==> Tasks(s, scenario)[i].outcome.Raised?
    ensures RunCopyJob(s, scenario).AllFailed? ==>
      && RunCopyJob(s, scenario).statusCode == 500
      && RunCopyJob(s, scenario).message == "All copy operations failed"
      && |RunCopyJob(s, scenario).errors| == |s.destinationRepositories|
    ensures RunCopyJob(s, scenario).Triggered? ==>
      RunCopyJob(s, scenario).response.message == "Copy operations triggered"
  {
    var runs := Tasks(s, scenario);
    var pairs := Zip(s.destinationRepositories, Gather(runs).value);
    var ops := Operations(pairs);
    var errs := ErrorMessages(s.sourceRepository, pairs);
    JobDecides(s, scenario);
    PairsMirrorRuns(s, scenario);
    PartitionCounts(s.sourceRepository, pairs);
    NoOperationsIffAllFailed(pairs);
    assert (forall i :: 0 <= i < |pairs| ==> pairs[i].1.Failure?)
      <==> (forall i :: 0 <= i < |runs| ==> runs[i].outcome.Raised?) by {
      assert forall i :: 0 <= i < |pairs| ==> (pairs[i].1.Failure? <==> FailedFlags(pairs)[i]);
      assert forall i :: 0 <= i < |runs| ==> (runs[i].outcome.Raised? <==> RaisedFlags(runs)[i]);
    }
  }

  /** With no destinations the job succeeds with two empty lists. */
  lemma EmptyDestinationsTriggerNothing(s: Settings, scenario: nat -> Network)
    requires s.destinationRepositories == []
    ensures RunCopyJob(s, scenario) == Triggered(CopyResponse("Copy operations triggered", [], []))
  {
  }

  /** All the effects of a job, copy after copy. */
  function JobEffects(runs: seq<Run>): seq<Effect>
    decreases |runs|
  {
    if runs == [] then [] else JobEffects(runs[..|runs| - 1]) + runs[|runs| - 1].effects
  }

  /** The POST requests among `effects`, in order. */
  function Posts(effects: seq<Effect>): seq<Effect>
    decreases |effects|
  {
    if effects == [] then []
    else
      var last := effects[|effects| - 1];
      Posts(effects[..|effects| - 1]) + (if last.Post? then [last] else [])
  }

  lemma {:induction false} PostsAppend(a: seq<Effect>, b: seq<Effect>)
    ensures Posts(a + b) == Posts(a) + Posts(b)
    decreases |b|
  {
    if b == [] {
      assert a + b == a;
    } else {
      assert (a + b)[..|a + b| - 1] == a + b[..|b| - 1];
      PostsAppend(a, b[..|b| - 1]);
    }
  }

  lemma {:induction false} NoPosts(effects: seq<Effect>)
    requires forall i :: 0 <= i < |effects| ==> !effects[i].Post?
    ensures Posts(effects) == []
    decreases |effects|
  {
    if effects != [] {
      NoPosts(effects[..|effects| - 1]);
    }
  }

  /**
   * Outside dry-run mode, with credentials granted everywhere, the job sends
   * exactly one POST per destination, in list order, each to that
   * destination's copy URL; in dry-run mode it sends none.
   */
  lemma OnePostPerDestination(s: Settings, scenario: nat -> Network)
    requires forall i :: 0 <= i < |s.destinationRepositories| ==> scenario(i).credentials.Granted?
    ensures var posts := Posts(JobEffects(Tasks(s, scenario)));
      if s.dryRun then posts == []
      else
        && |posts| == |s.destinationRepositories|
        && forall i :: 0 <= i < |posts| ==>
          posts[i] == Post(CopyUrl(s.destinationRepositories[i]),
                           EncodePayload(BuildPayload(s, s.destinationRepositories[i])))
  {
    var ds := s.destinationRepositories;
    var runs := Tasks(s, scenario);
    forall i | 0 <= i < |runs|
      ensures Posts(runs[i].effects) == if s.dryRun then [] else [PostOf(s, ds[i])]
    {
      CopyPosts(s, ds[i], scenario(i));
    }
    if s.dryRun {
      NoPostsOfRuns(runs);
    } else {
      var expected := LivePosts(s, ds);
      assert forall i :: 0 <= i < |runs| ==> Posts(runs[i].effects) == [expected[i]];
      PostsOfRuns(runs, expected);
    }
  }

  /** A single copy sends one POST, to its destination, unless it is a dry run. */
  lemma CopyPosts(s: Settings, destination: string, net: Network)
    requires net.credentials.Granted?
    ensures Posts(CopyRepository(s, destination, net).effects)
      == if s.dryRun then [] else [PostOf(s, destination)]
  {
    var e := CopyRepository(s, destination, net).effects;
    if !s.dryRun {
      assert e == [e[0]] + e[1..];
      PostsAppend([e[0]], e[1..]);
      NoPosts(e[1..]);
      assert Posts([e[0]]) == [e[0]] by {
        assert [e[0]][..0] == [];
      }
    }
  }

  /** The POSTs a live job sends to `destinations`, one each, in order. */
  function LivePosts(s: Settings, destinations: seq<string>): (posts: seq<Effect>)
    ensures |posts| == |destinations|
    ensures forall i :: 0 <= i < |posts| ==>
      posts[i] == Post(CopyUrl(destinations[i]), EncodePayload(BuildPayload(s, destinations[i])))
    decreases |destinations|
  {
    if destinations == [] then []
    else
      var n := |destinations| - 1;
      assert forall i :: 0 <= i < n ==> destinations[..n][i] == destinations[i];
      LivePosts(s, destinations[..n]) + [PostOf(s, destinations[n])]
  }

  /** Adding one copy to a job adds that copy's POSTs at the end. */
  lemma JobPostsStep(runs: seq<Run>, run: Run)
    ensures Posts(JobEffects(runs + [run])) == Posts(JobEffects(runs)) + Posts(run.effects)
  {
    assert (runs + [run])[..|runs|] == runs;
    PostsAppend(JobEffects(runs), run.effects);
  }

  /** A job whose copies each send exactly one POST sends those POSTs, in copy order. */
  lemma {:induction false} PostsOfRuns(runs: seq<Run>, posts: seq<Effect>)
    requires |runs| == |posts|
    requires forall i :: 0 <= i < |runs| ==> Posts(runs[i].effects) == [posts[i]]
    ensures Posts(JobEffects(runs)) == posts
    decreases |runs|
  {
    if runs != [] {
      var n := |runs| - 1;
      var rs := runs[..n];
      var ps := posts[..n];
      forall i | 0 <= i < |rs|
        ensures Posts(rs[i].effects) == [ps[i]]
      {
        assert rs[i] == runs[i] && ps[i] == posts[i];
      }
      PostsOfRuns(rs, ps);
      assert runs == rs + [runs[n]];
      JobPostsStep(rs, runs[n]);
      assert posts == ps + [posts[n]];
    }
  }

  /** A job whose copies send no POST sends none. */
  lemma {:induction false} NoPostsOfRuns(runs: seq<Run>)
    requires forall i :: 0 <= i < |runs| ==> Posts(runs[i].effects) == []
    ensures Posts(JobEffects(runs)) == []
    decreases |runs|
  {
    if runs != [] {
      var n := |runs| - 1;
      var rs := runs[..n];
      assert forall i :: 0 <= i < |rs| ==> rs[i] == runs[i];
      NoPostsOfRuns(rs);
      assert runs == rs + [runs[n]];
      JobPostsStep(rs, runs[n]);
    }
  }

  /**
   * The exit code is 1 exactly when the settings are invalid or every copy
   * failed, 0 when the job returned a response, and absent while a copy is
   * still polling.
   */
  lemma ExitCodeRule(input: SettingsInput, scenario: nat -> Network)
    ensures Build(input).Failure? ==> ExitCode(input, scenario) == Some(1)
    ensures Build(input).Success? ==>
      var r := RunCopyJob(Build(input).value, scenario);
      && (ExitCode(input, scenario) == Some(1) <==> r.AllFailed?)
      && (ExitCode(input, scenario) == Some(0) <==> r.Triggered?)
      && (ExitCode(input, scenario).None? <==> r.NeverReturns?)
  {
  }

  /**
   * A response the job returns never has errors without operations, so the
   * `__main__` check on the response is never what yields exit code 1.
   */
  lemma ResponseIsNeverTotalFailure(s: Settings, scenario: nat -> Network)
    requires RunCopyJob(s, scenario).Triggered?
    ensures var response := RunCopyJob(s, scenario).response;
      !(|response.errors| > 0 && |response.operations| == 0)
  {
  }
}
