# Artifact Registry cron replicator — Dafny model

This project models the core of a small service that copies one Artifact
Registry repository to a list of destination repositories. For each
destination it builds a `copyRepository` request, posts it (or, in dry-run
mode, fabricates a finished operation), optionally polls the returned
long-running operation until it reports `done`, and then aggregates the
per-destination outcomes into a list of operations and a list of error
messages, failing the whole job only when every destination failed.

Modules:

- `Results` (`results.dfy`): `Option` and `Result`.
- `Json` (`json.dfy`): decoded response bodies (`Value`) with the Python
  semantics the client relies on — truthiness, `dict.get` (AttributeError on
  a non-dictionary) and `str()`.
- `Config` (`config.dfy`): the `Settings` record, the supplied values
  (`SettingsInput`) and validation with defaults (`Build`).
- `Client` (`client.dfy`): `copy_repository` as `CopyRepository`. The network
  is an input (`Network`): how credential acquisition ends, what the POST
  yields, and what each successive GET yields. The result is the outcome
  (returned operation, raised exception, or still polling when the supplied
  GET responses run out) and the trace of POSTs, sleeps and GETs.
- `ClientFacts` (`client_facts.dfy`): properties of one copy.
- `Main` (`main.dfy`): `run_copy_job` as `RunCopyJob`, the collection loop
  (`CollectResults`), the total-failure rule and the exit code.
- `JobFacts` (`job_facts.dfy`): properties of a whole job and of the exit code.

Behaviour of the code that the model follows:

- Polling sleeps a fixed 15 seconds before every GET; there is no backoff, no
  cap, no retry limit, and the `error` field of a finished operation is never
  looked at. A finished operation with an error is returned like any other.
- Exceptions are not classified: every per-destination exception becomes one
  error message, and total failure is always status 500.
- `copy_max_version_age_days` is any integer, and the destination list may
  be empty (the job then succeeds with two empty lists).
- Credentials are obtained and refreshed before the dry-run check, so a
  credential failure raises even in dry-run mode; a dry run sends no POST
  and no GET.
- The POST response's `name` is read (for a log line) even when polling is
  off, so a POST body that is valid JSON but not an object raises
  AttributeError whatever `poll_operation` says.
- When every copy fails, `run_copy_job` raises the HTTP 500 exception; in the
  `__main__` block that exception reaches the generic handler, which exits
  with 1. The check of the returned response for "errors and no
  operations" can never succeed (`JobFacts.ResponseIsNeverTotalFailure`).

## Model

| member | source | states |
|---|---|---|
| Config.Build | app/config.py:4-15 | Validation succeeds exactly when both `source_repository` and `destination_repositories` are supplied; otherwise it fails naming each missing one; the two required values are kept as given |
| Config.RequiredOnlyUsesDefaults | app/config.py:10-15 | With only the required fields supplied, the flags default to false, false, false, max age 0, no polling, no dry run |
| Config.SuppliedValuesOverrideDefaults | app/config.py:10-15 | Each optional field is resolved on its own: a supplied value is kept, and an unset field takes its own default (false, 0, false, false, false, false) whatever the other fields hold |
| Json.Lookup | app/client.py:57 | `op.get(key)` succeeds exactly on a dictionary, yields the member for a present key and None for an absent one, and otherwise raises a non-empty AttributeError |
| Client.EncodePayload | app/client.py:27-36 | The request body has exactly the keys `sourceRepository`, `destinationRepository`, `behavior`, and `behavior` has exactly the four flag keys |
| Client.BuildPayload | app/client.py:27-36 | On the wire the body names the configured source, the destination, and in `behavior` the four `copy_*` settings; ClientFacts.PayloadRoundTrip and ClientFacts.PayloadCarriesSettings show nothing else is lost or altered |
| ClientFacts.PayloadRoundTrip | app/client.py:27-36 | The request body decodes back to the payload it was built from, so no field is lost or altered |
| ClientFacts.PayloadCarriesSettings | app/client.py:27-36 | The body sent for a destination carries the configured source, that destination, and the four configured `copy_*` values in their four behaviour fields |
| Client.CopyUrl | app/client.py:23-25 | The POST URL is the v1 base, then the destination, then `:copyRepository` |
| ClientFacts.CopyUrlRoundTrip | app/client.py:23-25 | The destination is recovered from its POST URL, so distinct destinations get distinct URLs |
| Client.PollUrl | app/client.py:59 | The poll URL is the v1 base followed by the operation name as text |
| ClientFacts.PollUrlRoundTrip | app/client.py:59 | A string operation name is recovered from its poll URL |
| Client.Receive | app/client.py:48-50 | A missing response raises a request error; a non-2xx status raises the status error; a 2xx body that does not decode raises JSONDecodeError with its reason; a value is returned only for a 2xx response whose body decodes, and it is that body |
| ClientFacts.StatusCheckedBeforeBody | app/client.py:49-50 | For a non-2xx status the raised error is the same whatever the body holds: the body is never parsed |
| Client.Rounds | app/client.py:61-64 | n polling rounds are 2n steps alternating a 15-second sleep and a GET of the poll URL; the trace has no POST in it |
| Client.PollFrom | app/client.py:61-66 | The poll loop's trace is whole rounds, at most one per supplied GET response; it returns only a done snapshot, and is left polling only after using every response on a snapshot that is not done |
| ClientFacts.PollReturnsFirstDone | app/client.py:61-66 | When every pending snapshot is a dictionary, the loop returns the first done snapshot after exactly one sleep and one GET per earlier snapshot, and none if the first is done |
| ClientFacts.PollStopsAtFailedGet | app/client.py:61-66 | A GET that fails while the operation is pending raises that error, and no later GET is issued |
| Client.CopyRepository | app/client.py:17-68 | Denied credentials raise with no request; a dry run returns exactly `{name: "operations/dry-run", done: true}` with no request; otherwise the first step is the POST of the payload to the copy URL and no other POST follows; a copy still polling has polling enabled and a pending operation |
| ClientFacts.FailedPostRaises | app/client.py:47-49 | A POST that fails raises its error after that one request, with no poll |
| ClientFacts.NonObjectResponseRaises | app/client.py:50-54 | A POST body that decodes to anything but an object raises AttributeError after the POST alone, whether or not polling is on |
| ClientFacts.NoPollingReturnsPostResponse | app/client.py:50-68 | With polling off the parsed POST response is returned unchanged, even when it is not done, after exactly one POST |
| ClientFacts.NamelessOperationIsNotPolled | app/client.py:56-68 | With polling on but an empty or missing name, no GET is issued and the POST response is returned unchanged |
| ClientFacts.CopyPollsUntilDone | app/client.py:47-68 | A live polling copy of a named operation returns the first done snapshot after the POST and one sleep-then-GET round per pending snapshot, against the poll URL of the returned name; with the POST response already done, no GET |
| ClientFacts.DefaultSettingsCopyOnce | app/config.py:10-15 | Settings given only the required fields make one live POST, no poll, with behaviour all false and maximum age 0, and return the POST response |
| Main.Zip | app/main.py:36 | Pairs destinations with results position by position, up to the shorter list |
| Main.PartitionCounts | app/main.py:36-45 | Every result lands in exactly one of the two lists: their lengths add up to the number of pairs |
| Main.NoOperationsIffAllFailed | app/main.py:36-45 | No operation is collected exactly when every result is an exception |
| Main.OperationsAreSuccessesInOrder | app/main.py:36-45 | The operations are the values of the successful results, one each, in destination order |
| Main.ErrorMessagesAreFailuresInOrder | app/main.py:36-43 | The error messages are one per exception, in destination order, each "Error triggering copy from <source> to <destination>: <exception text>" |
| Main.Where | app/main.py:36-45 | The positions selected from a list of flags are increasing and are exactly those where the flag holds |
| Main.CollectResults | app/main.py:36-45 | The collection loop yields the operations and messages described above, and for equal-length inputs one entry per destination |
| JobFacts.PairsMirrorRuns | app/main.py:33-36 | Once all copies end, the gathered pairs are one per destination, in list order, holding that destination's returned operation or raised exception |
| Main.RunCopyJob | app/main.py:27-55 | The job never ends while a copy polls; an outright failure is status 500, "All copy operations failed", one message per destination; a response says "Copy operations triggered", accounts for every destination, and has an operation unless it has no error; JobFacts.AllFailedIffEveryCopyRaised and JobFacts.JobCollectsEveryOutcomeInOrder give the rest |
| JobFacts.NeverReturnsIffSomeCopyPolls | app/main.py:33-34 | The job never ends exactly when some destination's copy never stops polling |
| JobFacts.JobCollectsEveryOutcomeInOrder | app/main.py:27-55 | Operations plus errors number the destinations; operations are the returned operations in destination order; errors are the formatted messages of the raised exceptions in destination order |
| JobFacts.AllFailedIffEveryCopyRaised | app/main.py:47-55 | The job fails with status 500 and "All copy operations failed" exactly when there is a destination and every copy raised, carrying one error per destination; otherwise the message is "Copy operations triggered" |
| JobFacts.EmptyDestinationsTriggerNothing | app/main.py:47-55 | With no destinations the job succeeds with two empty lists |
| JobFacts.CopyPosts | app/client.py:38-48 | One copy with credentials sends no POST in dry-run mode and exactly one POST to its destination otherwise |
| JobFacts.PostsOfRuns | app/main.py:33-34 | When each copy sends exactly one POST, the job's POSTs are those, in copy order |
| JobFacts.LivePosts | app/main.py:33 | The expected POSTs are one per destination, in list order, each to that destination's URL with that destination's payload |
| JobFacts.OnePostPerDestination | app/main.py:33-34 | When credentials are granted for every destination, a live job sends exactly one POST per destination, in list order, each to that destination's URL with its payload; a dry run sends none |
| Main.ExitCode | app/main.py:58-66 | The exit code is 1 exactly when settings are invalid or the job fails outright, 0 exactly when it returns a response, and absent while a copy polls; JobFacts.ExitCodeRule restates it per case |
| JobFacts.ExitCodeRule | app/main.py:58-66 | The exit code is 1 exactly when settings are invalid or every copy failed, 0 when a response is returned, and there is none while a copy still polls |
| JobFacts.ResponseIsNeverTotalFailure | app/main.py:62-63 | A returned response never has errors without operations, so this check never fires |

## Left out

- Credential acquisition and refresh: only their outcome (granted or denied with a reason) is an input; scopes and the project id are not modelled.
- The request headers (bearer token, content type): opaque external state.
- The HTTP transport and JSON decoding: each exchange is an input (no response, or a status code with a decoded or undecodable body). The text of each exception is carried by the input rather than computed, except AttributeError, whose text is computed.
- Floating-point JSON numbers: `Json.Value` has integers only.
- `Json.PyStr`: a list or dictionary used as an operation name is rendered as a fixed placeholder in the poll URL, not as Python's repr; scalars are rendered as Python does.
- Wall-clock time: each sleep is a trace step of 15 seconds; nothing is timed.
- Unbounded polling: the GET responses are a finite sequence; when they run out on a pending operation the copy ends as still polling and the job as never returning.
- Concurrency of the gather: the copies share no state, so they are mapped over the destinations in order.
- The FastAPI route and the response serialisation, logging (including the dry-run log lines some tests look for), and loading settings from the environment or `.env` in `get_settings`: plumbing.
- Exceptions other than those listed in `Client.Exc`, and `BaseException`s that the gather does not capture.
