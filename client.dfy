/** The synchronous client, `AurelioClient`: its configuration and its five
    endpoint methods, each an attempt loop (module Retry) with its own policy,
    the extract methods followed by the post-submission decision (module
    Polling).

    The network of each call is an oracle: `net` holds what each attempt of the
    submission loop runs into, `polls[i]` what each attempt of the i-th status
    fetch runs into, and `clock` the readings of `time.time()`. Request URLs,
    document ids and the request bodies other than the extract form are not
    modelled (they do not influence the outcome). */
module Client {

  import opened Wrappers
  import opened Errors
  import opened Schema
  import opened Retry
  import opened Polling
  import opened Files

  // ---------------------------------------------------------------------------
  // Configuration
  // ---------------------------------------------------------------------------

  const DEFAULT_BASE_URL: string := "https://api.aurelio.ai"

  /** An empty base URL falls back to the default one. */
  function ChooseBaseUrl(baseUrl: string): (u: string)
    ensures u != []
    ensures baseUrl != [] ==> u == baseUrl
    ensures baseUrl == [] ==> u == DEFAULT_BASE_URL
  {
    if baseUrl == [] then DEFAULT_BASE_URL else baseUrl
  }

  /** `api_key or os.environ.get("AURELIO_API_KEY", "")`: a non-empty argument
      wins, then the environment variable, then the empty string. */
  function ResolveApiKey(apiKey: Option<string>, env: Option<string>): (k: string)
    ensures apiKey.Some? && apiKey.value != [] ==> k == apiKey.value
    ensures !(apiKey.Some? && apiKey.value != []) ==> k == env.GetOr("")
  {
    if apiKey.Some? && apiKey.value != [] then apiKey.value else env.GetOr("")
  }

  function AuthHeaders(apiKey: string): map<string, string> {
    map["Authorization" := "Bearer " + apiKey]
  }

  /** The settings a constructed client holds. */
  datatype Config = Config(baseUrl: string, apiKey: string, headers: map<string, string>, source: string)

  /** `__init__`: raises ValueError when no key is found; otherwise every
      request is authorised with the key as a bearer token. */
  function Configure(apiKey: Option<string>, env: Option<string>, baseUrl: string, source: string)
    : (r: Result<Config, Error>)
    ensures r.Err? <==> ResolveApiKey(apiKey, env) == []
    ensures r.Err? ==> r.error == Value
    ensures r.Ok? ==> r.value.apiKey == ResolveApiKey(apiKey, env) && r.value.apiKey != []
    ensures r.Ok? ==> r.value.baseUrl == ChooseBaseUrl(baseUrl) && r.value.source == source
    ensures r.Ok? ==> r.value.headers.Keys == {"Authorization"}
                      && r.value.headers["Authorization"] == "Bearer " + r.value.apiKey
  {
    var key := ResolveApiKey(apiKey, env);
    if key == [] then Err(Value)
    else Ok(Config(ChooseBaseUrl(baseUrl), key, AuthHeaders(key), source))
  }

  /** A key given as an argument is used even when the environment holds one;
      the environment is consulted only for a missing or empty argument. */
  lemma ArgumentKeyWins(apiKey: string, env: Option<string>, baseUrl: string, source: string)
    requires apiKey != []
    ensures Configure(Some(apiKey), env, baseUrl, source).Ok?
    ensures Configure(Some(apiKey), env, baseUrl, source).value.apiKey == apiKey
  {
  }

  // ---------------------------------------------------------------------------
  // Loop policies
  // ---------------------------------------------------------------------------

  /** `chunk` has no timeout handler: a timeout is re-raised as an ApiError at
      once. Nothing the generic handler catches is retried. */
  function ChunkPolicy(retries: int): (p: Policy)
    ensures p.timeouts.Unhandled? && !p.retryCaught && !p.quoteRetries
    ensures p.exhausted == Api(NoResponseAfter(retries), None)
  {
    Policy(Unhandled, false, false, Api(NoResponseAfter(retries), None))
  }

  /** The extract loops retry timeouts of the session (`wait + 1`). When the
      budget is below one no attempt runs and the response variable is read
      before it was ever assigned. */
  function ExtractPolicy(wait: int): (p: Policy)
    ensures p.timeouts == RetriedUntilLast(SessionTimeout(wait)) && !p.retryCaught && !p.quoteRetries
    ensures p.exhausted == UnboundLocal
  {
    Policy(RetriedUntilLast(SessionTimeout(wait)), false, false, UnboundLocal)
  }

  function GetDocumentPolicy(timeout: int): (p: Policy)
    ensures p.timeouts == RetriedUntilLast(Some(timeout)) && !p.retryCaught && !p.quoteRetries
    ensures p.exhausted == Api(NoDocumentResponse, None)
  {
    Policy(RetriedUntilLast(Some(timeout)), false, false, Api(NoDocumentResponse, None))
  }

  function EmbeddingPolicy(timeout: int): (p: Policy)
    ensures p.timeouts == RetriedUntilLast(Some(timeout)) && !p.retryCaught && !p.quoteRetries
    ensures p.exhausted == Api(NoEmbeddingResponse, None)
  {
    Policy(RetriedUntilLast(Some(timeout)), false, false, Api(NoEmbeddingResponse, None))
  }

  /** `wait_for` fetches the status with `get_document`'s defaults. */
  const STATUS_TIMEOUT := 30
  const STATUS_RETRIES := 3

  /** `chunk` retries a response of status 500 or more, and only that, and
      never on the last attempt. */
  lemma ChunkRetriesOnlyServerErrors<T>(retries: int, attempt: int, a: Attempt<T>)
    ensures Handle(ChunkPolicy(retries), retries, attempt, a).Retry?
            <==> attempt != retries && a.Reply? && a.code >= 500
  {
  }

  /** A timeout in `chunk` is never retried and never reported as a timeout. */
  lemma ChunkTimeoutIsApiError<T>(retries: int, attempt: int)
    ensures Handle<T>(ChunkPolicy(retries), retries, attempt, TimedOut)
            == Fail(Api(Caught(Expired), None))
  {
  }

  /** The other sync loops retry a server error or a timeout, and only those,
      on any attempt but the last; on the last, a timeout raises
      ApiTimeoutError with the limit in force. */
  lemma OtherLoopsRetryServerErrorsAndTimeouts<T>(p: Policy, retries: int, attempt: int, a: Attempt<T>)
    requires p.timeouts.RetriedUntilLast? && !p.retryCaught
    ensures Handle(p, retries, attempt, a).Retry?
            <==> attempt != retries && ((a.Reply? && a.code >= 500) || a.TimedOut? || a.ConnectTimedOut?)
    ensures attempt == retries && (a.TimedOut? || a.ConnectTimedOut?)
            ==> Handle(p, retries, attempt, a) == Fail(Timeout(p.timeouts.limit))
  {
  }

  /** A client error (a status below 500 other than 200 and 429) ends every sync
      loop at once with an ApiError that quotes the body but has lost its
      status code. */
  lemma ClientErrorEndsSyncLoop<T>(p: Policy, retries: int, attempt: int, code: int, body: string, record: Option<T>)
    requires !p.retryCaught && !p.quoteRetries
    requires code < 500 && code != 200 && code != 429
    ensures Handle(p, retries, attempt, Reply(code, body, record)) == Fail(Api(Caught(Rejected(body, code)), None))
  {
  }

  /** With a budget of at least one, a sync extract loop never reaches the
      read of the unassigned response, and so never raises that error. */
  lemma ExtractLoopAlwaysAssigns<T>(wait: int, retries: int, net: seq<Attempt<T>>)
    requires retries >= 1
    ensures !Run(ExtractPolicy(wait), retries, net, 1).exit.Exhausted?
    ensures Conclude(ExtractPolicy(wait), Run(ExtractPolicy(wait), retries, net, 1).exit) != Raised(UnboundLocal)
  {
  }

  // ---------------------------------------------------------------------------
  // The client
  // ---------------------------------------------------------------------------

  /** The network an upload from a path runs into: when the path does not
      exist, opening it raises inside the `try` before any request is sent. */
  function UploadTrace<T>(path: Option<string>, disk: map<string, seq<byte>>, net: seq<Attempt<T>>)
    : (r: seq<Attempt<T>>)
    ensures PathGiven(path) && path.value !in disk ==> r == [Threw(MissingFile)]
    ensures !PathGiven(path) || path.value in disk ==> r == net
  {
    if PathGiven(path) && path.value !in disk then [Threw(MissingFile)] else net
  }

  class AurelioClient {
    const baseUrl: string
    const apiKey: string
    const headers: map<string, string>
    const source: string

    function Settings(): Config {
      Config(baseUrl, apiKey, headers, source)
    }

    constructor (config: Config)
      ensures Settings() == config
    {
      baseUrl := config.baseUrl;
      apiKey := config.apiKey;
      headers := config.headers;
      source := config.source;
    }

    /** `AurelioClient(api_key, base_url, debug, source)`, with the value of
        the AURELIO_API_KEY environment variable passed in as `env`. */
    static method Create(apiKey: Option<string>, env: Option<string>, baseUrl: string, source: string)
      returns (r: Result<AurelioClient, Error>)
      ensures r.Err? <==> Configure(apiKey, env, baseUrl, source).Err?
      ensures r.Err? ==> r.error == Value
      ensures r.Ok? ==> fresh(r.value) && r.value.Settings() == Configure(apiKey, env, baseUrl, source).value
    {
      var config := Configure(apiKey, env, baseUrl, source);
      if config.Err? {
        return Err(config.error);
      }
      var client := new AurelioClient(config.value);
      return Ok(client);
    }

    /** `chunk`: the chunk endpoint's loop. */
    method Chunk(content: string, options: Option<ChunkingOptions>, retries: int,
                 net: seq<Attempt<ChunkResponse>>)
      returns (r: Outcome<ChunkResponse>, attempts: nat, payload: ChunkRequestPayload)
      ensures payload == ChunkRequestPayload(content, options)
      ensures var run := Run(ChunkPolicy(retries), retries, net, 1);
              r == Conclude(ChunkPolicy(retries), run.exit) && attempts == run.attempts
    {
      payload := ChunkRequestPayload(content, options);
      var exit;
      exit, attempts := RunAttempts(ChunkPolicy(retries), retries, net);
      r := Conclude(ChunkPolicy(retries), exit);
    }

    /** `get_document`. */
    method GetDocument(timeout: int, retries: int, net: seq<Attempt<ExtractResponse>>)
      returns (r: Outcome<ExtractResponse>, attempts: nat)
      ensures var run := Run(GetDocumentPolicy(timeout), retries, net, 1);
              r == Conclude(GetDocumentPolicy(timeout), run.exit) && attempts == run.attempts
    {
      var exit;
      exit, attempts := RunAttempts(GetDocumentPolicy(timeout), retries, net);
      r := Conclude(GetDocumentPolicy(timeout), exit);
    }

    /** `wait_for`, its status fetches made with `get_document`'s defaults and
        its sleep made with `time.sleep`: a negative polling interval raises
        ValueError after a first pending response. */
    method WaitFor(wait: int, pollingInterval: int, polls: seq<seq<Attempt<ExtractResponse>>>, clock: seq<int>)
      returns (r: Outcome<ExtractResponse>, calls: nat)
      ensures Polled(r, calls)
              == WaitedFor(Blocking, pollingInterval, Fetches(GetDocumentPolicy(STATUS_TIMEOUT), STATUS_RETRIES, polls),
                           clock, wait)
    {
      r, calls := Polling.WaitFor(Blocking, GetDocumentPolicy(STATUS_TIMEOUT), STATUS_RETRIES, wait, pollingInterval, polls, clock);
    }

    /** `extract_file`: ValueError without a path or a file; otherwise the
        submission loop (a missing path fails its first attempt), then the
        post-submission decision. */
    method ExtractFile(file: Upload, filePath: Option<string>, disk: map<string, seq<byte>>,
                       quality: string, chunk: bool, wait: int, pollingInterval: int, retries: int,
                       net: seq<Attempt<ExtractResponse>>, polls: seq<seq<Attempt<ExtractResponse>>>,
                       clock: seq<int>)
      returns (r: Outcome<ExtractResponse>, attempts: nat, statusCalls: nat, form: Option<Form>)
      ensures !SomethingToUpload(file, filePath) ==> r == Raised(Value) && attempts == 0 && statusCalls == 0 && form == None
      ensures SomethingToUpload(file, filePath) ==>
                form == Some(Form(None, quality, LowerBoolField(chunk), InitialWait(wait, pollingInterval), SessionTimeout(wait)))
      ensures SomethingToUpload(file, filePath) ==>
                Extracted(r, attempts, statusCalls)
                == Settle(IntervalPositive, Blocking, Submit(ExtractPolicy(wait), retries, UploadTrace(filePath, disk, net)),
                          wait, pollingInterval, GetDocumentPolicy(STATUS_TIMEOUT), STATUS_RETRIES, polls, clock)
    {
      if !(PathGiven(filePath) || Truthy(file)) {
        return Raised(Value), 0, 0, None;
      }
      form := Some(Form(None, quality, LowerBoolField(chunk), InitialWait(wait, pollingInterval), SessionTimeout(wait)));
      var exit;
      exit, attempts := RunAttempts(ExtractPolicy(wait), retries, UploadTrace(filePath, disk, net));
      r, statusCalls := SettleSubmission(IntervalPositive, Blocking, Conclude(ExtractPolicy(wait), exit), attempts,
                                         wait, pollingInterval, GetDocumentPolicy(STATUS_TIMEOUT),
                                         STATUS_RETRIES, polls, clock);
    }

    /** `extract_url`: the submission loop, then the post-submission decision. */
    method ExtractUrl(url: string, quality: string, chunk: bool, wait: int, pollingInterval: int, retries: int,
                      net: seq<Attempt<ExtractResponse>>, polls: seq<seq<Attempt<ExtractResponse>>>,
                      clock: seq<int>)
      returns (r: Outcome<ExtractResponse>, attempts: nat, statusCalls: nat, form: Form)
      ensures form == Form(Some(url), quality, BoolField(chunk), InitialWait(wait, pollingInterval), SessionTimeout(wait))
      ensures Extracted(r, attempts, statusCalls)
              == Settle(IntervalPositive, Blocking, Submit(ExtractPolicy(wait), retries, net),
                        wait, pollingInterval, GetDocumentPolicy(STATUS_TIMEOUT), STATUS_RETRIES, polls, clock)
    {
      form := Form(Some(url), quality, BoolField(chunk), InitialWait(wait, pollingInterval), SessionTimeout(wait));
      var exit;
      exit, attempts := RunAttempts(ExtractPolicy(wait), retries, net);
      r, statusCalls := SettleSubmission(IntervalPositive, Blocking, Conclude(ExtractPolicy(wait), exit), attempts,
                                         wait, pollingInterval, GetDocumentPolicy(STATUS_TIMEOUT),
                                         STATUS_RETRIES, polls, clock);
    }

    /** `embedding`. */
    method Embedding(timeout: int, retries: int, net: seq<Attempt<EmbeddingResponse>>)
      returns (r: Outcome<EmbeddingResponse>, attempts: nat)
      ensures var run := Run(EmbeddingPolicy(timeout), retries, net, 1);
              r == Conclude(EmbeddingPolicy(timeout), run.exit) && attempts == run.attempts
    {
      var exit;
      exit, attempts := RunAttempts(EmbeddingPolicy(timeout), retries, net);
      r := Conclude(EmbeddingPolicy(timeout), exit);
    }
  }

  // ---------------------------------------------------------------------------
  // Properties of the extract calls
  // ---------------------------------------------------------------------------

  /** A path that does not exist ends the sync upload on its first attempt with
      an ApiError quoting the caught error, without a status. */
  lemma MissingPathFailsAtOnce(path: string, disk: map<string, seq<byte>>, wait: int, retries: int,
                               net: seq<Attempt<ExtractResponse>>)
    requires path != [] && path !in disk && retries >= 1
    ensures Submit(ExtractPolicy(wait), retries, UploadTrace(Some(path), disk, net))
            == Submission(Raised(Api(Caught(MissingFile), None)), 1)
  {
  }

  /** Polling never follows a failed submission: its error is what the call
      raises. */
  lemma FailedSubmissionRaised(e: Error, attempts: nat, wait: int, pollingInterval: int,
                               polls: seq<seq<Attempt<ExtractResponse>>>, clock: seq<int>)
    ensures Settle(IntervalPositive, Blocking, Submission(Raised(e), attempts), wait, pollingInterval,
                   GetDocumentPolicy(STATUS_TIMEOUT), STATUS_RETRIES, polls, clock)
            == Extracted(Raised(e), attempts, 0)
  {
  }

  /** A pending submission with a positive wait and polling interval is
      followed by polling; its first status fetch goes through the full
      `get_document` loop. */
  lemma PendingSubmissionIsPolled(resp: ExtractResponse, attempts: nat, wait: int, pollingInterval: int,
                                  polls: seq<seq<Attempt<ExtractResponse>>>, clock: seq<int>)
    requires resp.status == Pending && wait > 0 && pollingInterval > 0
    ensures Settle(IntervalPositive, Blocking, Submission(Returned(resp), attempts), wait, pollingInterval,
                   GetDocumentPolicy(STATUS_TIMEOUT), STATUS_RETRIES, polls, clock)
            == var w := Poll(Fetches(GetDocumentPolicy(STATUS_TIMEOUT), STATUS_RETRIES, polls), clock, wait);
               Extracted(w.outcome, attempts, w.calls)
  {
  }
}
