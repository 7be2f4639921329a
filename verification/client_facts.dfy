/** Properties of one repository copy, stated over all inputs. */
module ClientFacts {
  import opened Results
  import opened Json
  import opened Config
  import opened Client

  /** The request body decodes back to exactly the payload it encodes. */
  lemma PayloadRoundTrip(p: Payload)
    ensures DecodePayload(EncodePayload(p)) == Some(p)
  {
  }

  /**
   * The body sent for a destination names the configured source, that
   * destination, and the four configured behaviour flags.
   */
  lemma PayloadCarriesSettings(s: Settings, destination: string)
    ensures DecodePayload(EncodePayload(BuildPayload(s, destination))) == Some(Payload(
      s.sourceRepository,
      destination,
      Behavior(s.copyContinueOnSkipped, s.copyMaxVersionAgeDays, s.copyAllAttachments, s.copyAllTagsExcluded)))
  {
  }

  /** The copy URL determines its destination. */
  lemma CopyUrlRoundTrip(destination: string)
    ensures DestinationOf(CopyUrl(destination)) == Some(destination)
  {
  }

  /** A string operation name is recovered from its poll URL. */
  lemma PollUrlRoundTrip(name: string)
    ensures OperationOf(PollUrl(Str(name))) == Some(name)
  {
  }

  /** A non-2xx status raises the status error whatever the body holds. */
  lemma StatusCheckedBeforeBody(status: int, text: string, b1: Body, b2: Body)
    requires !(200 <= status < 300)
    ensures Receive(Reply(status, text, b1)) == Receive(Reply(status, text, b2))
    ensures Receive(Reply(status, text, b1)) == Failure(HttpStatusError(status, text))
  {
  }

  /** A failed POST raises its error after that one request, and nothing is polled. */
  lemma FailedPostRaises(s: Settings, destination: string, net: Network)
    requires net.credentials.Granted? && !s.dryRun
    requires Receive(net.post).Failure?
    ensures CopyRepository(s, destination, net)
      == Run(Raised(Receive(net.post).error), [PostOf(s, destination)])
  {
  }

  /** A POST body that is not a JSON object raises AttributeError, polling or not. */
  lemma NonObjectResponseRaises(s: Settings, destination: string, net: Network)
    requires net.credentials.Granted? && !s.dryRun
    requires Receive(net.post).Success? && !Receive(net.post).value.Obj?
    ensures CopyRepository(s, destination, net).outcome.Raised?
    ensures CopyRepository(s, destination, net).outcome.exc.AttributeError?
    ensures CopyRepository(s, destination, net).effects == [PostOf(s, destination)]
  {
  }

  /** Without polling the parsed POST response is returned as is, done or not. */
  lemma NoPollingReturnsPostResponse(s: Settings, destination: string, net: Network)
    requires net.credentials.Granted? && !s.dryRun && !s.pollOperation
    requires Receive(net.post).Success? && Receive(net.post).value.Obj?
    ensures CopyRepository(s, destination, net)
      == Run(Returned(Receive(net.post).value), [PostOf(s, destination)])
  {
  }

  /** With polling on, an empty or missing operation name means no GET at all. */
  lemma NamelessOperationIsNotPolled(s: Settings, destination: string, net: Network)
    requires net.credentials.Granted? && !s.dryRun && s.pollOperation
    requires Receive(net.post).Success? && Receive(net.post).value.Obj?
    requires !Truthy(Lookup(Receive(net.post).value, "name").value)
    ensures CopyRepository(s, destination, net)
      == Run(Returned(Receive(net.post).value), [PostOf(s, destination)])
  {
  }

  /** The first GET responses deliver the snapshots `snaps`, in order. */
  predicate Delivers(gets: seq<Exchange>, snaps: seq<Value>) {
    |gets| >= |snaps| && forall i :: 0 <= i < |snaps| ==> Receive(gets[i]) == Success(snaps[i])
  }

  /** Every snapshot in `chain` is a dictionary that is not done. */
  predicate AllPending(chain: seq<Value>) {
    forall j :: 0 <= j < |chain| ==> chain[j].Obj? && !IsDone(chain[j])
  }

  /**
   * The poll loop returns the first done snapshot of the chain `op`,
   * `snaps[0]`, ..., after one sleep and one GET per snapshot before it.
   */
  lemma {:induction false} PollReturnsFirstDone(url: string, op: Value, gets: seq<Exchange>, snaps: seq<Value>)
    requires Delivers(gets, snaps)
    requires AllPending(([op] + snaps)[..|snaps|])
    requires IsDone(([op] + snaps)[|snaps|])
    ensures PollFrom(url, op, gets) == Run(Returned(([op] + snaps)[|snaps|]), Rounds(url, |snaps|))
    decreases |snaps|
  {
    if |snaps| > 0 {
      var chain := [op] + snaps;
      var rest := [snaps[0]] + snaps[1..];
      var pending := chain[..|snaps|];
      var restPending := rest[..|snaps| - 1];
      assert pending[0] == op;
      forall j | 0 <= j < |restPending|
        ensures restPending[j].Obj? && !IsDone(restPending[j])
      {
        assert restPending[j] == pending[j + 1];
      }
      assert rest[|snaps| - 1] == chain[|snaps|];
      forall i | 0 <= i < |snaps| - 1
        ensures Receive(gets[1..][i]) == Success(snaps[1..][i])
      {
        assert gets[1..][i] == gets[i + 1];
      }
      PollReturnsFirstDone(url, snaps[0], gets[1..], snaps[1..]);
    }
  }

  /**
   * A GET that fails (no response, non-2xx, undecodable) while the operation
   * is still pending raises that error; no later GET is issued.
   */
  lemma {:induction false} PollStopsAtFailedGet(url: string, op: Value, gets: seq<Exchange>, snaps: seq<Value>)
    requires |gets| > |snaps| && Delivers(gets, snaps)
    requires AllPending([op] + snaps)
    requires Receive(gets[|snaps|]).Failure?
    ensures PollFrom(url, op, gets)
      == Run(Raised(Receive(gets[|snaps|]).error), Rounds(url, |snaps| + 1))
    decreases |snaps|
  {
    assert ([op] + snaps)[0] == op;
    if |snaps| > 0 {
      forall j | 0 <= j <= |snaps| - 1
        ensures ([snaps[0]] + snaps[1..])[j].Obj? && !IsDone(([snaps[0]] + snaps[1..])[j])
      {
        assert ([snaps[0]] + snaps[1..])[j] == ([op] + snaps)[j + 1];
      }
      forall i | 0 <= i < |snaps| - 1
        ensures Receive(gets[1..][i]) == Success(snaps[1..][i])
      {
        assert gets[1..][i] == gets[i + 1];
      }
      PollStopsAtFailedGet(url, snaps[0], gets[1..], snaps[1..]);
    }
  }

  /** A live copy of a named operation with polling on hands the POST response to the poll loop. */
  lemma PollingCopyRunsPollLoop(s: Settings, destination: string, net: Network, op: Value)
    requires net.credentials.Granted? && !s.dryRun && s.pollOperation
    requires Receive(net.post) == Success(op) && op.Obj?
    requires Truthy(Lookup(op, "name").value)
    ensures var polled := PollFrom(PollUrl(Lookup(op, "name").value), op, net.gets);
      CopyRepository(s, destination, net) == Run(polled.outcome, [PostOf(s, destination)] + polled.effects)
  {
  }

  /**
   * A live, polling copy of a named operation returns the first done
   * snapshot after the POST and one sleep-then-GET round per pending
   * snapshot; an operation already done on the POST is returned with no GET.
   */
  lemma CopyPollsUntilDone(s: Settings, destination: string, net: Network, op: Value, snaps: seq<Value>)
    requires net.credentials.Granted? && !s.dryRun && s.pollOperation
    requires Receive(net.post) == Success(op) && op.Obj?
    requires Truthy(Lookup(op, "name").value)
    requires Delivers(net.gets, snaps)
    requires AllPending(([op] + snaps)[..|snaps|])
    requires IsDone(([op] + snaps)[|snaps|])
    ensures CopyRepository(s, destination, net) == Run(
      Returned(([op] + snaps)[|snaps|]),
      [PostOf(s, destination)] + Rounds(PollUrl(Lookup(op, "name").value), |snaps|))
  {
    PollingCopyRunsPollLoop(s, destination, net, op);
    PollReturnsFirstDone(PollUrl(Lookup(op, "name").value), op, net.gets, snaps);
  }

  /**
   * Settings given only the required fields make a live, non-polling copy
   * whose request carries all-false flags and a zero maximum age.
   */
  lemma DefaultSettingsCopyOnce(source: string, destinations: seq<string>, destination: string, net: Network)
    requires net.credentials.Granted?
    requires Receive(net.post).Success? && Receive(net.post).value.Obj?
    ensures Build(RequiredOnly(source, destinations)).Success?
    ensures CopyRepository(Build(RequiredOnly(source, destinations)).value, destination, net) == Run(
      Returned(Receive(net.post).value),
      [Post(CopyUrl(destination), EncodePayload(Payload(source, destination, Behavior(false, 0, false, false))))])
  {
    RequiredOnlyUsesDefaults(source, destinations);
  }
}
