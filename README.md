# aurelio-sdk request lifecycle, in Dafny

This project models the part of the aurelio-sdk Python clients that decides
how a request to the document-processing API ends. Both clients are covered:
the synchronous `AurelioClient` and the asynchronous `AsyncAurelioClient`.
The model covers:

- the attempt loop every endpoint method wraps around its HTTP call, with
  retries, the rate-limit error, timeouts and the generic exception handler;
- the decision an extract call makes once its submission succeeded: return at
  once or poll the status with `wait_for`;
- the `wait_for` polling loop with its deadline;
- configuration in `__init__`;
- the upload step of the async `extract_file`, which reads a file-like object
  and puts its position back, unless the read fails after the object was
  rewound;
- `_file_stream_generator`;
- the pydantic records of `aurelio_sdk/schema.py`, with their defaults and
  literal checks.

The network, the clock and the file system are oracles passed in as values:
- `net` lists what each attempt of a loop runs into.
- `polls[i]` does the same for the i-th status fetch.
- `clock` holds the readings of `time.time()`.
- `disk` maps the existing paths to their contents.

A call whose oracle runs out before it finishes ends in `Stalled`. No
requirement is placed on the length of a trace.

Modules:
- `Wrappers`, `Errors`, `Consts`, `Schema`: the value types.
- `Retry`: one generic attempt loop. Each endpoint method's variant is a
  `Policy` value, which says how timeouts are handled, whether the generic
  handler retries, the wording of its final message, and what is raised after
  the loop.
- `Polling`: the submission form, `wait_for`, and the post-submission decision.
- `Files`: upload arguments, file objects and the chunked stream.
- `Client` and `AsyncClient`: the two client classes and the policy of each of
  their methods.

Behaviours of the code that the model follows, where comments or docstrings
in the source say otherwise:
- **The status code is lost.** A final 5xx or a 4xx response raises an
  `ApiError` with a status code inside the `try`. The generic
  `except Exception` handler catches it and re-raises `ApiError(str(e))`
  without the code, in both clients. `Retry.NoStatusEscapes` proves this.
- **The async client retries client errors.** Its generic handler retries
  whatever it catches on any attempt but the last, 4xx responses included,
  despite the "do not retry" comment.
- **The sync `chunk` does not retry timeouts.** It has no timeout handler, so
  a timeout becomes an `ApiError` at once.
- **The sync extract methods can fail on an unassigned variable.** With a
  budget below one they read `extract_response` before it was ever assigned,
  which raises an `UnboundLocalError`. The model raises `UnboundLocal` there.
- **The async `extract_url` reads the polling interval its own way.** It asks
  for the short server-side wait only when the polling interval is negative.
  It skips polling only when the interval is zero, not when it is below one.
- **`wait_for` does not raise on timeout.** Its docstring promises a timeout
  error. The code returns the last response it fetched, still pending.
  `Polling.PendingPastDeadline` proves this.
- **The sync `wait_for` rejects a negative polling interval.** It sleeps with
  `time.sleep`, which raises `ValueError` for a negative length, so a first
  pending response is followed by that error. The async client's
  `asyncio.sleep` accepts any length. The extract calls of the sync client
  never reach it, since they poll only with a positive interval.
- **Async `get_document` and connection timeouts.** It raises
  `ApiTimeoutError` at once on a connection timeout. Any other timeout reaches
  the generic handler.

## Model

| member | source | states |
|---|---|---|
| Schema.ParseChunkerType | aurelio_sdk/schema.py:11-14 | exactly "regex" and "semantic" are chunker types, and parsing inverts naming |
| Schema.NewChunkingOptions | aurelio_sdk/schema.py:7-21 | fails exactly for a chunker type other than regex/semantic; given fields kept, omitted ones default to 400, "regex", 1, [] |
| Schema.ChunkingDefaults | aurelio_sdk/schema.py:8-21 | `ChunkingOptions()` is (400, regex, 1, []) |
| Schema.NewChunkRequestPayload | aurelio_sdk/schema.py:24-29 | content is required; processing options default to none |
| Schema.ParseTaskStatus | aurelio_sdk/schema.py:32-35 | exactly the three names are statuses; completed and failed are the final ones |
| Schema.NewUsage | aurelio_sdk/schema.py:38-41 | every usage field defaults to none and keeps a given value |
| Schema.NewResponseDocument | aurelio_sdk/schema.py:63-76 | required fields kept; metadata and chunks default to empty |
| Schema.ParseQuality | aurelio_sdk/schema.py:89-91 | exactly "low" and "high" are qualities, and parsing inverts naming |
| Schema.NewExtractProcessingOptions | aurelio_sdk/schema.py:94-98 | succeeds iff chunk and quality are given and quality is low/high |
| Schema.NewEmbeddingDataObject | aurelio_sdk/schema.py:127-130 | object type defaults to "embedding" |
| Schema.NewEmbeddingResponse | aurelio_sdk/schema.py:133-140 | message defaults to none, object type to "list" |
| Schema.NewChunkResponse | aurelio_sdk/schema.py:79-85 | the message defaults to none; the other fields are required and kept |
| Schema.NewExtractResponse | aurelio_sdk/schema.py:101-107 | the message defaults to none; the other fields are required and kept |
| Schema.LoadChunkingOptions | aurelio_sdk/schema.py:7-21 | a non-object is refused; a present integer field keeps its exact value and a missing one its default; a `max_chunk_length` that is neither an integer nor null is refused |
| Schema.DumpChunkingOptions | aurelio_sdk/client.py:112 | the dumped options are an object with exactly the four field names |
| Schema.StringsRoundTrip | aurelio_sdk/schema.py:18-21 | loading dumped delimiters gives them back |
| Schema.ChunkingOptionsRoundTrip | aurelio_sdk/schema.py:83-85 | options sent and echoed back in a response come back unchanged |
| Retry.Handle | aurelio_sdk/client.py:116-149 | an attempt succeeds iff 200 with a decodable body; 429 iff the rate-limit error; never retries the last attempt; an escaping ApiError has no status; a timeout error only comes from a timeout |
| Retry.Run | aurelio_sdk/client_async.py:117-171 | at most `retries` attempts; every attempt before the deciding one was retried; the deciding attempt's step is the exit; out of attempts iff the budget is below the first attempt |
| Retry.Conclude | aurelio_sdk/client.py:150-153 | a result only from a success; the loop's error is raised; after the loop, the policy's own error |
| Retry.RunAttempts | aurelio_sdk/client.py:108-153 | the loop ends exactly as `Run` from attempt 1 |
| Retry.RetriedPrefix | aurelio_sdk/client.py:130-135 | retried attempts do not change where the loop ends |
| Retry.ReachedAttemptDecides | aurelio_sdk/client.py:108-149 | once reached, an attempt that succeeds or fails decides the whole loop |
| Retry.RateLimitStopsAtOnce | aurelio_sdk/client.py:118-122 | a 429 ends the loop with the rate-limit error whatever budget is left |
| Retry.FirstSuccessReturned | aurelio_sdk/client.py:116-117 | the first decodable 200 reached is the result |
| Retry.ServerErrorsThenSuccess | aurelio_sdk/client.py:123-135 | server errors on all but the last attempt, then a success, returns it |
| Retry.ServerErrorsExhaustBudget | aurelio_sdk/client.py:123-129 | server errors on every attempt end with the policy's final ApiError quoting the last body, after exactly `retries` attempts |
| Retry.LoopAlwaysDecides | aurelio_sdk/client.py:108-153 | with a positive budget covered by the trace, the loop always returns or raises inside the loop |
| Retry.NoStatusEscapes | aurelio_sdk/client.py:148-149 | no ApiError leaving a loop carries a status code |
| Polling.InitialWait | aurelio_sdk/client.py:198-199 | the short wait when polling is on (interval > 0), the whole wait otherwise |
| Polling.SessionTimeout | aurelio_sdk/client.py:201 | a timeout exists iff wait > 0, and it exceeds the wait by one second |
| Polling.PollFrom | aurelio_sdk/client.py:523-538 | the loop after k fetches: stops on a final status, on the deadline (returning the last response) or on an error; every fetch it made happened before the deadline, and the earlier ones were pending; it stalls only when the clock or fetch traces run out or a fetch stalled |
| Polling.Poll | aurelio_sdk/client.py:497-538 | `wait_for` fetches at least once; returns only a final document or one fetched last before the clock passed start + wait; errors propagate; it stalls only when the clock or fetch traces run out or a fetch stalled |
| Polling.WaitFor | aurelio_sdk/client_async.py:592-615 | the polling loop ends exactly as `WaitedFor` over the `get_document` outcomes, for either kind of sleep |
| Polling.PollAfterFirst | aurelio_sdk/client.py:523-538 | after a final first response nothing more is fetched; after a pending one, a raising sleep gives ValueError, and otherwise the loop ends as `PollFrom` |
| Polling.WaitedFor | aurelio_sdk/client.py:523-524 | a sleep that raises on a negative interval turns a first pending response into ValueError: at most one fetch, and only a final document returned; a first fetch that is final, raised or missing ends as `Poll` says; any other sleep polls as `Poll` |
| Polling.Deadline | aurelio_sdk/client.py:521 | a deadline exists iff wait >= 0, and lies `wait` seconds after the start |
| Polling.NoDeadlineMeansFinal | aurelio_sdk/client.py:521-523 | with a negative wait only a final document is returned |
| Polling.NoDeadlineReturnsFirstFinal | aurelio_sdk/client.py:521-538 | with a negative wait, pending responses followed by a final one end in that final one, after exactly that many fetches |
| Polling.PollFromEnds | aurelio_sdk/client.py:523-532 | with an advancing clock, polling past k ends within wait + 1 fetches |
| Polling.DeadlineEndsPolling | aurelio_sdk/client.py:521-532 | with an advancing clock, `wait_for` ends within wait + 1 status fetches whatever the server answers |
| Polling.PendingPastDeadline | aurelio_sdk/client.py:526-538 | a document that stays pending is returned, still pending and without an error, once the deadline passes |
| Polling.Submit | aurelio_sdk/client.py:203-284 | at most `retries` attempts, none iff the budget is below one or the network gives nothing; a budget below one raises the policy's error after the loop; a returned response is the decoded 200 of the last attempt |
| Polling.Settle | aurelio_sdk/client.py:286-299 | the attempts are the submission's; a failed submission, or one the rule does not poll, is the result with no status fetch; otherwise the result is `wait_for`'s |
| Polling.SettleSubmission | aurelio_sdk/client.py:286-299 | the post-submission decision ends exactly as `Settle` |
| Polling.WaitZeroSkipsPolling | aurelio_sdk/client.py:286-287 | wait == 0 returns the submission response with no status fetch |
| Polling.FinalSubmissionSkipsPolling | aurelio_sdk/client.py:289-292 | a completed or failed submission is returned unpolled |
| Polling.PollingNeedsPendingSubmission | aurelio_sdk/client.py:286-299 | status fetches happen only after a successful pending submission the rule lets through, and then at least one |
| Polling.LongPollWithoutPolling | aurelio_sdk/client.py:198-201 | with polling off and wait > 0: the whole wait is asked for, the session timeout is wait + 1, and nothing is polled |
| Polling.PositiveRuleSleepsSafely | aurelio_sdk/client.py:289-299 | under the positive-interval rule, `time.sleep` and `asyncio.sleep` give the same result |
| Polling.RulesDifferOnNegativeInterval | aurelio_sdk/client_async.py:473 | the two polling rules differ exactly on a pending submission with a negative interval |
| Files.FileObject.Tell | aurelio_sdk/client_async.py:263 | `tell()` gives the position, and raises exactly for a closed or unseekable object |
| Files.FileObject.Seek | aurelio_sdk/client_async.py:264 | `seek(n)` moves to n and raises exactly for a closed or unseekable object, which it leaves unmoved |
| Files.FileObject.Read | aurelio_sdk/client_async.py:265 | `read()` returns the rest from the position and moves to the end; raises exactly for a closed or unreadable object |
| Files.Prepare | aurelio_sdk/client_async.py:236-272 | a missing path is FileNotFoundError; an existing one is streamed; bytes are sent as given; a file object that fails `tell`, `seek` or `read` is the "failed to read" ApiError, otherwise it is sent whole from its first byte; any other value adds no file part |
| Files.PrepareUpload | aurelio_sdk/client_async.py:258-272 | the upload step ends as `Prepare`; the file object's content is unchanged, and its position is as before except after a failed `read` that followed `seek(0)`, which leaves it at 0 |
| Files.ReadAt | aurelio_sdk/client_async.py:716 | a read returns the next bytes, at most the size asked for, and is empty only at the end or for size 0 |
| Files.FileStream | aurelio_sdk/client_async.py:707-730 | the chunks concatenate to the file and are non-empty and full but the last; the size assertion fails iff the size is 0 and the file is not empty |
| Client.ChooseBaseUrl | aurelio_sdk/client.py:60-63 | an empty base URL becomes the default one |
| Client.ResolveApiKey | aurelio_sdk/client.py:65 | a non-empty argument wins over the environment variable |
| Client.Configure | aurelio_sdk/client.py:60-76 | ValueError iff no key is found; otherwise the bearer header carries the key |
| Client.ArgumentKeyWins | aurelio_sdk/client.py:65-70 | a key given as an argument builds a client with that key |
| Client.ChunkPolicy | aurelio_sdk/client.py:146-153 | sync `chunk`: no timeout handler, nothing caught is retried, and after the loop "Failed to get response after {retries} retries" |
| Client.ExtractPolicy | aurelio_sdk/client.py:266-284 | sync extract loops: timeouts retried under the wait + 1 session limit, caught errors re-raised, and after an empty loop the unassigned-variable error |
| Client.GetDocumentPolicy | aurelio_sdk/client.py:477-494 | sync `get_document`: timeouts retried under its timeout, caught errors re-raised, after the loop "Failed to get response from document endpoint" |
| Client.EmbeddingPolicy | aurelio_sdk/client.py:604-623 | sync `embedding`: timeouts retried under its timeout, caught errors re-raised, after the loop "Failed to get response from embedding endpoint" |
| Client.UploadTrace | aurelio_sdk/client.py:205-206 | opening a missing path raises inside the `try` before any request; otherwise the network is unchanged |
| Client.ChunkRetriesOnlyServerErrors | aurelio_sdk/client.py:123-149 | sync `chunk` retries exactly a 5xx on a non-final attempt |
| Client.ChunkTimeoutIsApiError | aurelio_sdk/client.py:146-149 | a timeout in sync `chunk` becomes an ApiError at once |
| Client.OtherLoopsRetryServerErrorsAndTimeouts | aurelio_sdk/client.py:266-278 | the other sync loops retry exactly 5xx and timeouts on a non-final attempt; on the last, a timeout raises ApiTimeoutError with the limit |
| Client.ClientErrorEndsSyncLoop | aurelio_sdk/client.py:256-278 | a 4xx ends a sync loop at once with an ApiError that quotes the body and has no status |
| Client.ExtractLoopAlwaysAssigns | aurelio_sdk/client.py:203-284 | with a budget of at least one, the unassigned-variable error is never raised |
| Client.AurelioClient.Create | aurelio_sdk/client.py:53-76 | fails with ValueError iff `Configure` does; otherwise a fresh client holding the configuration |
| Client.AurelioClient.Chunk | aurelio_sdk/client.py:78-153 | sends the payload built from the arguments; ends as the chunk policy's loop |
| Client.AurelioClient.GetDocument | aurelio_sdk/client.py:423-495 | ends as the get-document policy's loop |
| Client.AurelioClient.WaitFor | aurelio_sdk/client.py:497-538 | ends as `WaitedFor` with `time.sleep` over `get_document` calls with timeout 30 and 3 retries: a negative interval raises ValueError after a first pending response |
| Client.AurelioClient.ExtractFile | aurelio_sdk/client.py:155-299 | ValueError without a path or file; otherwise sends the form, runs the loop (a missing path fails its first attempt) and then the decision with the positive-interval rule |
| Client.AurelioClient.ExtractUrl | aurelio_sdk/client.py:301-421 | sends the form, runs the loop, then the decision with the positive-interval rule |
| Client.AurelioClient.Embedding | aurelio_sdk/client.py:540-624 | ends as the embedding policy's loop |
| Client.MissingPathFailsAtOnce | aurelio_sdk/client.py:205-206 | a missing path raises ApiError(str(e)) on the first attempt |
| Client.FailedSubmissionRaised | aurelio_sdk/client.py:277-299 | a failed submission is raised and never polled |
| Client.PendingSubmissionIsPolled | aurelio_sdk/client.py:291-299 | a pending submission with wait and interval positive returns the result of `wait_for` |
| AsyncClient.Strip | aurelio_sdk/client_async.py:74 | `strip()` is the slice of `s` between its leading and trailing whitespace, and starts and ends with a character that is not whitespace |
| AsyncClient.IsBlank | aurelio_sdk/client_async.py:74 | `not s or not s.strip()` holds exactly when every character is whitespace |
| AsyncClient.Configure | aurelio_sdk/client_async.py:67-83 | ValueError iff the key is empty or whitespace only; otherwise the bearer header carries the key |
| AsyncClient.AsyncRejectsMoreKeys | aurelio_sdk/client_async.py:74-78 | the async client accepts exactly the sync client's keys minus the blank ones; a key of one space shows the difference |
| AsyncClient.ChunkPolicy | aurelio_sdk/client_async.py:152-174 | async `chunk`: timeouts retried, caught errors retried until the last attempt, after the loop "Failed to get response after {retries} retries" |
| AsyncClient.ExtractFilePolicy | aurelio_sdk/client_async.py:310-336 | async `extract_file`: timeouts retried under the wait + 1 limit, caught errors retried, after the loop "Failed to receive a valid response after {retries} retries" |
| AsyncClient.ExtractUrlPolicy | aurelio_sdk/client_async.py:440-466 | async `extract_url`: as `extract_file`, but the final generic error quotes the retry count |
| AsyncClient.GetDocumentPolicy | aurelio_sdk/client_async.py:546-571 | async `get_document`: a connection timeout raises at once, caught errors retried, after the loop "Failed to get response after {retries} retries" |
| AsyncClient.EmbeddingPolicy | aurelio_sdk/client_async.py:682-703 | async `embedding`: timeouts retried, caught errors retried, after the loop "Failed to get response after {retries} retries" |
| AsyncClient.AsyncLoopsRetryAlmostEverything | aurelio_sdk/client_async.py:145-171 | async loops retry everything but a decoded 200 and a 429 on a non-final attempt |
| AsyncClient.GetDocumentTimeouts | aurelio_sdk/client_async.py:546-568 | async `get_document` also does not retry connection timeouts, which raise ApiTimeoutError on any attempt; a read timeout on the last attempt is an ApiError |
| AsyncClient.ClientErrorThenSuccess | aurelio_sdk/client_async.py:145-171 | a 4xx followed by a success returns the success after two attempts |
| AsyncClient.UrlFinalErrorQuotesRetries | aurelio_sdk/client_async.py:450-455 | `extract_url`'s final generic error quotes the retry count and the cause |
| AsyncClient.InitialUrlWait | aurelio_sdk/client_async.py:402-405 | the short wait only for a negative interval |
| AsyncClient.UrlPollingDeparts | aurelio_sdk/client_async.py:399-405 | `extract_url` asks for the whole wait and still polls for a positive interval, and polls after the short wait for a negative one; its wait field equals the other calls' iff the interval is 0 or the wait is the short one |
| AsyncClient.MissingPathRaisedBeforeSending | aurelio_sdk/client_async.py:237-240 | a missing path raises FileNotFoundError on the first attempt, before any request |
| AsyncClient.NoBudgetNoFileCheck | aurelio_sdk/client_async.py:332-336 | with a budget below one nothing is checked and the "no valid response" ApiError is raised |
| AsyncClient.SubmitUpload | aurelio_sdk/client_async.py:226-336 | an upload that cannot be prepared ends the first attempt with its error; a prepared upload, or none checked for lack of budget, runs the ordinary loop `Submit`; a returned response needs a budget and a prepared upload; at most `retries` attempts |
| AsyncClient.SubmitFile | aurelio_sdk/client_async.py:226-331 | the loop ends as `SubmitUpload`; one request per attempt, each carrying the same whole file; the file object is left where it was, or at 0 when its read failed after the rewind |
| AsyncClient.AsyncAurelioClient.Create | aurelio_sdk/client_async.py:61-83 | fails with ValueError iff `Configure` does; otherwise a fresh client holding the settings |
| AsyncClient.AsyncAurelioClient.Chunk | aurelio_sdk/client_async.py:85-175 | sends the payload built from the arguments; ends as the async chunk policy's loop |
| AsyncClient.AsyncAurelioClient.GetDocument | aurelio_sdk/client_async.py:483-572 | ends as the async get-document policy's loop |
| AsyncClient.AsyncAurelioClient.WaitFor | aurelio_sdk/client_async.py:574-615 | ends as `Poll` over async `get_document` calls with timeout 30 and 3 retries |
| AsyncClient.AsyncAurelioClient.ExtractFile | aurelio_sdk/client_async.py:177-350 | ValueError without a path or file, and no form; otherwise sends the form, runs `SubmitFile` (one upload per attempt) and the decision with the positive-interval rule; the file object is left where it was, or at 0 when its read failed after the rewind |
| AsyncClient.AsyncAurelioClient.ExtractUrl | aurelio_sdk/client_async.py:352-481 | sends the form with `InitialUrlWait`, runs the loop, then the decision with the non-zero-interval rule |
| AsyncClient.AsyncAurelioClient.Embedding | aurelio_sdk/client_async.py:617-704 | ends as the async embedding policy's loop |

## Left out

- HTTP transport: only the outcome of each attempt is modelled. Left out are
  request URLs, document ids, headers other than the authorisation header,
  multipart encoding, and aiohttp session lifetimes.
- The `base_url` that `ApiError`, `ApiRateLimitError` and `ApiTimeoutError`
  carry; `ValueError`, `FileNotFoundError` and `UnboundLocalError` carry none.
- The message of the rate-limit error. It differs by method: the async
  `chunk` says "Rate limit exceeded of 100 requests per minute", the async
  `get_document` says "Rate limit exceeded", and the others use the default.
- The 4xx error content; the model keeps the body as one string. Most loops
  try `response.json()` before falling back to text. The async `chunk` and
  the async `extract_file` read only the text.
- Response decoding. Whether a 200 body decodes into the endpoint's record
  is part of the oracle (`record: None` means decoding raised). Only the
  chunking options are read back from JSON, and only in strict form: the
  model refuses a value of the wrong JSON type, such as `"400"` or `400.0` for
  `max_chunk_length`, which pydantic's lax mode would coerce.
- Default argument values of the endpoint methods. Every model method takes
  all its arguments. The source defaults are:
  - `retries=3` everywhere;
  - `timeout=60` for the sync `chunk` and 30 for the other timeouts;
  - `wait=30` for the extract calls and 300 for `wait_for`;
  - `polling_interval=POLLING_INTERVAL`;
  - `quality="low"` and `chunk=True` for the sync `extract_file`.
- The `timeout` argument of the sync `chunk`. Whether a request times out is
  part of the network oracle, and no error of that loop carries the limit.
- Logging and the `debug` flag, which only affect log output.
- Reading the environment. The value of `AURELIO_API_KEY` is a parameter.
- Time. `time.time()` is a float; the model uses integer clock readings.
  `sleep` is modelled by the time the next reading shows and, for
  `time.sleep`, by the ValueError it raises for a negative length.
- File objects fail by kind, and the kind holds for the whole
  call: closed, unseekable or unreadable. An object whose second `seek`
  fails after its first one succeeded is not modelled.
- Upload file names: `Path(file_path).name` and `getattr(file, "name", ...)`
  only label the upload.
- The content of the sync upload. `MultipartEncoder` reads a file object from
  its current position, so a retry may send less. The sync request bodies are
  not modelled.
- Client.AurelioClient.ExtractFile: a sync upload from an existing path is
  modelled on the same network trace as any other upload. Per-attempt file
  reads that fail after `open` succeeds are not modelled.
- The values of `WAIT_TIME_BEFORE_POLLING`, `POLLING_INTERVAL` and
  `UPLOAD_CHUNK_SIZE`: `aurelio_sdk/const` is not part of this model, so they
  are left open as positive integers.
- `aurelio_sdk/async_client.py`, the older async client, is not part of this
  model.
- BM25 embedding values are Python floats, modelled as `real`.
- Concurrency between async calls.
