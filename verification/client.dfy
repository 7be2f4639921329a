/**
 * One repository copy (`CopyRepositoryClient.copy_repository` in
 * app/client.py): the request it builds, the dry-run short-circuit, the
 * POST and the optional poll-until-done loop.
 *
 * The network is an input. A `Network` says how credential acquisition
 * ends, what the POST yields and what each successive GET yields; the model
 * answers with the outcome and the trace of requests and sleeps issued.
 */
module Client {
  import opened Results
  import opened Json
  import opened Config

  const ApiBase := "https://artifactregistry.googleapis.com/v1/"
  const CopySuffix := ":copyRepository"
  const PollIntervalSeconds := 15
  const DryRunName := "operations/dry-run"

  /** The `behavior` object of a copy request. */
  datatype Behavior = Behavior(
    continueOnSkippedVersion: bool,
    maxVersionAgeDays: int,
    allAttachmentsIncluded: bool,
    allTagsExcluded: bool)

  /** The body of a copy request. */
  datatype Payload = Payload(sourceRepository: string, destinationRepository: string, behavior: Behavior)

  /** How obtaining and refreshing the default credentials ends. */
  datatype Credentials = Granted | Denied(reason: string)

  /** A response body: decoded JSON, or text that does not decode. */
  datatype Body = Parsed(value: Value) | Undecodable(reason: string)

  /**
   * One HTTP exchange: no response at all (connection or timeout error), or
   * a response with its status code, the text of the status error that
   * would be raised for it, and its body.
   */
  datatype Exchange = NoResponse(reason: string) | Reply(status: int, statusErrorText: string, body: Body)

  /** Everything the network contributes to one copy. */
  datatype Network = Network(credentials: Credentials, post: Exchange, gets: seq<Exchange>)

  /** The exceptions one copy can raise; `text` is what `str()` gives. */
  datatype Exc =
    | AuthError(text: string)
    | RequestError(text: string)
    | HttpStatusError(status: int, text: string)
    | JsonDecodeError(text: string)
    | AttributeError(text: string)

  /** An externally visible step: a request sent or a sleep taken. */
  datatype Effect = Post(url: string, body: Value) | Sleep(seconds: int) | Get(url: string)

  /**
   * How a copy ends: it returns an operation, it raises, or it is still
   * polling when the supplied GET responses run out (the source keeps going).
   */
  datatype Outcome = Returned(op: Value) | Raised(exc: Exc) | Polling(op: Value)

  datatype Run = Run(outcome: Outcome, effects: seq<Effect>)

  /**
   * The request body for one destination: on the wire it names the
   * configured source, the destination, and the four `copy_*` settings.
   */
  function BuildPayload(s: Settings, destination: string): (p: Payload)
    ensures var body := EncodePayload(p).fields;
      && body["sourceRepository"] == Str(s.sourceRepository)
      && body["destinationRepository"] == Str(destination)
      && body["behavior"].fields["continueOnSkippedVersion"] == Bool(s.copyContinueOnSkipped)
      && body["behavior"].fields["maxVersionAgeDays"] == Num(s.copyMaxVersionAgeDays)
      && body["behavior"].fields["allAttachmentsIncluded"] == Bool(s.copyAllAttachments)
      && body["behavior"].fields["allTagsExcluded"] == Bool(s.copyAllTagsExcluded)
  {
    Payload(
      s.sourceRepository,
      destination,
      Behavior(s.copyContinueOnSkipped, s.copyMaxVersionAgeDays, s.copyAllAttachments, s.copyAllTagsExcluded))
  }

  /** The JSON object a payload is sent as. */
  function EncodePayload(p: Payload): (v: Value)
    ensures v.Obj? && v.fields.Keys == {"sourceRepository", "destinationRepository", "behavior"}
    ensures v.fields["behavior"].Obj?
    ensures v.fields["behavior"].fields.Keys
      == {"continueOnSkippedVersion", "maxVersionAgeDays", "allAttachmentsIncluded", "allTagsExcluded"}
  {
    Obj(map[
      "sourceRepository" := Str(p.sourceRepository),
      "destinationRepository" := Str(p.destinationRepository),
      "behavior" := Obj(map[
        "continueOnSkippedVersion" := Bool(p.behavior.continueOnSkippedVersion),
        "maxVersionAgeDays" := Num(p.behavior.maxVersionAgeDays),
        "allAttachmentsIncluded" := Bool(p.behavior.allAttachmentsIncluded),
        "allTagsExcluded" := Bool(p.behavior.allTagsExcluded)])])
  }

  /** Reads a copy request body back; `None` for anything not of that shape. */
  function DecodePayload(v: Value): Option<Payload> {
    if && v.Obj?
       && "sourceRepository" in v.fields && v.fields["sourceRepository"].Str?
       && "destinationRepository" in v.fields && v.fields["destinationRepository"].Str?
       && "behavior" in v.fields && v.fields["behavior"].Obj?
    then
      var b := v.fields["behavior"].fields;
      if && "continueOnSkippedVersion" in b && b["continueOnSkippedVersion"].Bool?
         && "maxVersionAgeDays" in b && b["maxVersionAgeDays"].Num?
         && "allAttachmentsIncluded" in b && b["allAttachmentsIncluded"].Bool?
         && "allTagsExcluded" in b && b["allTagsExcluded"].Bool?
      then Some(Payload(
        v.fields["sourceRepository"].s,
        v.fields["destinationRepository"].s,
        Behavior(
          b["continueOnSkippedVersion"].b,
          b["maxVersionAgeDays"].n,
          b["allAttachmentsIncluded"].b,
          b["allTagsExcluded"].b)))
      else None
    else None
  }

  /** The URL a copy request is posted to: base, destination, action suffix. */
  function CopyUrl(destination: string): (url: string)
    ensures |url| == |ApiBase| + |destination| + |CopySuffix|
    ensures url[..|ApiBase|] == ApiBase
    ensures url[|ApiBase|..|url| - |CopySuffix|] == destination
    ensures url[|url| - |CopySuffix|..] == CopySuffix
  {
    ApiBase + destination + CopySuffix
  }

  /** The destination a copy URL names, if it is one. */
  function DestinationOf(url: string): Option<string> {
    if |url| >= |ApiBase| + |CopySuffix|
       && url[..|ApiBase|] == ApiBase
       && url[|url| - |CopySuffix|..] == CopySuffix
    then Some(url[|ApiBase|..|url| - |CopySuffix|])
    else None
  }

  /** The URL an operation is polled at: base, then the operation name as text. */
  function PollUrl(name: Value): (url: string)
    ensures |url| == |ApiBase| + |PyStr(name)|
    ensures url[..|ApiBase|] == ApiBase
    ensures url[|ApiBase|..] == PyStr(name)
  {
    ApiBase + PyStr(name)
  }

  /** The operation name a poll URL names, if it is one. */
  function OperationOf(url: string): Option<string> {
    if |url| >= |ApiBase| && url[..|ApiBase|] == ApiBase then Some(url[|ApiBase|..]) else None
  }

  /** The one POST a live copy sends: the destination's payload to its copy URL. */
  function PostOf(s: Settings, destination: string): Effect {
    Post(CopyUrl(destination), EncodePayload(BuildPayload(s, destination)))
  }

  /** The synthetic operation a dry run returns. */
  const DryRunOperation: Value := Obj(map["name" := Str(DryRunName), "done" := Bool(true)])

  /**
   * Receiving a response: a missing response raises, a non-2xx status raises
   * before the body is looked at, and a body that does not decode raises.
   */
  function Receive(x: Exchange): (r: Result<Value, Exc>)
    ensures x.NoResponse? ==> r == Failure(RequestError(x.reason))
    ensures x.Reply? && !(200 <= x.status < 300) ==> r == Failure(HttpStatusError(x.status, x.statusErrorText))
    ensures x.Reply? && 200 <= x.status < 300 && x.body.Undecodable? ==> r == Failure(JsonDecodeError(x.body.reason))
    ensures r.Success? <==> x.Reply? && 200 <= x.status < 300 && x.body.Parsed?
    ensures r.Success? ==> r.value == x.body.value
  {
    match x
    case NoResponse(reason) => Failure(RequestError(reason))
    case Reply(status, statusErrorText, body) =>
      if !(200 <= status < 300) then Failure(HttpStatusError(status, statusErrorText))
      else match body
        case Undecodable(reason) => Failure(JsonDecodeError(reason))
        case Parsed(v) => Success(v)
  }

  /** `n` polling rounds against `url`: each one sleep followed by one GET. */
  function Rounds(url: string, n: nat): (t: seq<Effect>)
    ensures |t| == 2 * n
    ensures forall i :: 0 <= i < |t| ==> t[i] == (if i % 2 == 0 then Sleep(PollIntervalSeconds) else Get(url))
  {
    if n == 0 then [] else Rounds(url, n - 1) + [Sleep(PollIntervalSeconds), Get(url)]
  }

  /** The operation reports completion: its `done` member is truthy. */
  predicate IsDone(op: Value) {
    Lookup(op, "done").Success? && Truthy(Lookup(op, "done").value)
  }

  /**
   * The poll loop from snapshot `op` on: while `op.get("done")` is falsy,
   * sleep, GET the next snapshot and check its status.
   */
  function PollFrom(url: string, op: Value, gets: seq<Exchange>): (r: Run)
    ensures r.effects == Rounds(url, |r.effects| / 2)
    ensures |r.effects| / 2 <= |gets|
    ensures r.outcome.Returned? ==> IsDone(r.outcome.op)
    ensures r.outcome.Polling? ==> |r.effects| / 2 == |gets| && !IsDone(r.outcome.op)
    decreases |gets|
  {
    match Lookup(op, "done")
    case Failure(msg) => Run(Raised(AttributeError(msg)), [])
    case Success(done) =>
      if Truthy(done) then Run(Returned(op), [])
      else if |gets| == 0 then Run(Polling(op), [])
      else
        var round := Rounds(url, 1);
        match Receive(gets[0])
        case Failure(e) => Run(Raised(e), round)
        case Success(next) =>
          var rest := PollFrom(url, next, gets[1..]);
          Run(rest.outcome, round + rest.effects)
  }

  /** `copy_repository(destination)` against the given network. */
  function CopyRepository(s: Settings, destination: string, net: Network): (r: Run)
    ensures net.credentials.Denied? ==> r == Run(Raised(AuthError(net.credentials.reason)), [])
    ensures net.credentials.Granted? && s.dryRun ==> r == Run(Returned(DryRunOperation), [])
    ensures net.credentials.Granted? && !s.dryRun ==>
      && |r.effects| >= 1
      && r.effects[0] == Post(CopyUrl(destination), EncodePayload(BuildPayload(s, destination)))
      && forall i :: 1 <= i < |r.effects| ==> !r.effects[i].Post?
    ensures r.outcome.Polling? ==> s.pollOperation && !IsDone(r.outcome.op)
  {
    match net.credentials
    case Denied(reason) => Run(Raised(AuthError(reason)), [])
    case Granted =>
      if s.dryRun then Run(Returned(DryRunOperation), [])
      else
        var posted := [PostOf(s, destination)];
        match Receive(net.post)
        case Failure(e) => Run(Raised(e), posted)
        case Success(op) =>
          match Lookup(op, "name")
          case Failure(msg) => Run(Raised(AttributeError(msg)), posted)
          case Success(name) =>
            if !s.pollOperation || !Truthy(name) then Run(Returned(op), posted)
            else
              var polled := PollFrom(PollUrl(name), op, net.gets);
              Run(polled.outcome, posted + polled.effects)
  }
}
