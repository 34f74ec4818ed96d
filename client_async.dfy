/** The asynchronous client, `AsyncAurelioClient`. Its endpoints run the same
    attempt loop as the sync client (module Retry) under policies of their own:
    the generic handler retries whatever it catches on any attempt but the
    last, a 4xx response included; `get_document` raises at once on a
    connection timeout; `extract_url` decides on polling by a non-zero
    interval. `extract_file` reads its upload afresh on every attempt (module
    Files). The network, the clock and the disk are oracles as in module
    Client. */
module AsyncClient {

  import opened Wrappers
  import opened Errors
  import opened Schema
  import opened Retry
  import opened Polling
  import opened Files
  import opened Consts
  import Client

  // ---------------------------------------------------------------------------
  // Configuration
  // ---------------------------------------------------------------------------

  /** The characters Python's `str.isspace` accepts, which `str.strip` removes. */
  predicate IsSpace(c: char) {
    || '\U{0009}' <= c <= '\U{000D}'
    || '\U{001C}' <= c <= '\U{0020}'
    || c == '\U{0085}' || c == '\U{00A0}' || c == '\U{1680}'
    || '\U{2000}' <= c <= '\U{200A}'
    || c == '\U{2028}' || c == '\U{2029}' || c == '\U{202F}' || c == '\U{205F}' || c == '\U{3000}'
  }

  /** `s.lstrip()`: drops the leading whitespace. */
  function TrimStart(s: string): (r: string)
    ensures |r| <= |s| && r == s[|s| - |r|..]
    ensures forall i :: 0 <= i < |s| - |r| ==> IsSpace(s[i])
    ensures r != [] ==> !IsSpace(r[0])
    ensures r == [] <==> forall i :: 0 <= i < |s| ==> IsSpace(s[i])
  {
    if s != [] && IsSpace(s[0]) then TrimStart(s[1..]) else s
  }

  /** `s.rstrip()`: drops the trailing whitespace. */
  function TrimEnd(s: string): (r: string)
    ensures |r| <= |s| && r == s[..|r|]
    ensures forall i :: |r| <= i < |s| ==> IsSpace(s[i])
    ensures r != [] ==> !IsSpace(r[|r| - 1])
    ensures r == [] <==> forall i :: 0 <= i < |s| ==> IsSpace(s[i])
  {
    if s != [] && IsSpace(s[|s| - 1]) then TrimEnd(s[..|s| - 1]) else s
  }

  /** `s.strip()`: the middle of `s` from its first to its last character
      that is not whitespace; everything around it is whitespace. */
  function Strip(s: string): (r: string)
    ensures var a := |s| - |TrimStart(s)|;
            a + |r| <= |s| && r == s[a..a + |r|]
            && (forall i :: 0 <= i < a ==> IsSpace(s[i]))
            && (forall i :: a + |r| <= i < |s| ==> IsSpace(s[i]))
    ensures r != [] ==> !IsSpace(r[0]) && !IsSpace(r[|r| - 1])
  {
    TrimEnd(TrimStart(s))
  }

  /** `not s or not s.strip()`: the key is refused exactly when every one of
      its characters is whitespace, the empty key included. */
  function IsBlank(s: string): (b: bool)
    ensures b <==> forall i :: 0 <= i < |s| ==> IsSpace(s[i])
  {
    var t := TrimStart(s);
    assert t != [] ==> !IsSpace(t[0]);
    s == [] || Strip(s) == []
  }

  /** The settings a constructed async client holds. */
  datatype Settings = Settings(baseUrl: string, apiKey: string, headers: map<string, string>)

  /** `__init__` of the async client: like the sync one, but a key made of
      whitespace only is refused too. */
  function Configure(apiKey: Option<string>, env: Option<string>, baseUrl: string): (r: Result<Settings, Error>)
    ensures r.Err? <==> IsBlank(Client.ResolveApiKey(apiKey, env))
    ensures r.Err? ==> r.error == Value
    ensures r.Ok? ==> r.value.apiKey == Client.ResolveApiKey(apiKey, env) && !IsBlank(r.value.apiKey)
    ensures r.Ok? ==> r.value.baseUrl == Client.ChooseBaseUrl(baseUrl)
    ensures r.Ok? ==> r.value.headers.Keys == {"Authorization"}
                      && r.value.headers["Authorization"] == "Bearer " + r.value.apiKey
  {
    var key := Client.ResolveApiKey(apiKey, env);
    if IsBlank(key) then Err(Value)
    else Ok(Settings(Client.ChooseBaseUrl(baseUrl), key, Client.AuthHeaders(key)))
  }

  /** The async client accepts exactly the keys the sync client accepts, less
      the blank ones; so a key of spaces builds a sync client but not an async
      one. */
  lemma AsyncRejectsMoreKeys(apiKey: Option<string>, env: Option<string>, baseUrl: string, source: string)
    ensures Configure(apiKey, env, baseUrl).Ok?
            <==> Client.Configure(apiKey, env, baseUrl, source).Ok? && !IsBlank(Client.ResolveApiKey(apiKey, env))
    ensures Client.Configure(Some(" "), env, baseUrl, source).Ok?
    ensures Configure(Some(" "), env, baseUrl).Err?
  {
    assert IsSpace(" "[0]);
  }

  // ---------------------------------------------------------------------------
  // Loop policies
  // ---------------------------------------------------------------------------

  function ChunkPolicy(timeout: int, retries: int): (p: Policy)
    ensures p.timeouts == RetriedUntilLast(Some(timeout)) && p.retryCaught && !p.quoteRetries
    ensures p.exhausted == Api(NoResponseAfter(retries), None)
  {
    Policy(RetriedUntilLast(Some(timeout)), true, false, Api(NoResponseAfter(retries), None))
  }

  function ExtractFilePolicy(wait: int, retries: int): (p: Policy)
    ensures p.timeouts == RetriedUntilLast(SessionTimeout(wait)) && p.retryCaught && !p.quoteRetries
    ensures p.exhausted == Api(NoValidResponseAfter(retries), None)
  {
    Policy(RetriedUntilLast(SessionTimeout(wait)), true, false, Api(NoValidResponseAfter(retries), None))
  }

  /** `extract_url`'s generic handler quotes the retry count in its final error. */
  function ExtractUrlPolicy(wait: int, retries: int): (p: Policy)
    ensures p.timeouts == RetriedUntilLast(SessionTimeout(wait)) && p.retryCaught && p.quoteRetries
    ensures p.exhausted == Api(NoValidResponseAfter(retries), None)
  {
    Policy(RetriedUntilLast(SessionTimeout(wait)), true, true, Api(NoValidResponseAfter(retries), None))
  }

  /** `get_document` has no handler for timeouts in general, only for
      connection timeouts, which it raises at once. */
  function GetDocumentPolicy(timeout: int, retries: int): (p: Policy)
    ensures p.timeouts == ConnectRaises(Some(timeout)) && p.retryCaught && !p.quoteRetries
    ensures p.exhausted == Api(NoResponseAfter(retries), None)
  {
    Policy(ConnectRaises(Some(timeout)), true, false, Api(NoResponseAfter(retries), None))
  }

  function EmbeddingPolicy(timeout: int, retries: int): (p: Policy)
    ensures p.timeouts == RetriedUntilLast(Some(timeout)) && p.retryCaught && !p.quoteRetries
    ensures p.exhausted == Api(NoResponseAfter(retries), None)
  {
    Policy(RetriedUntilLast(Some(timeout)), true, false, Api(NoResponseAfter(retries), None))
  }

  /** `wait_for` fetches the status with `get_document`'s defaults. */
  const STATUS_TIMEOUT := 30
  const STATUS_RETRIES := 3

  /** The async loops other than `get_document` retry everything but a decoded
      success and a rate limit, on any attempt but the last. */
  lemma AsyncLoopsRetryAlmostEverything<T>(p: Policy, retries: int, attempt: int, a: Attempt<T>)
    requires p.retryCaught && p.timeouts.RetriedUntilLast?
    ensures Handle(p, retries, attempt, a).Retry?
            <==> attempt != retries && !(a.Reply? && (a.code == 429 || (a.code == 200 && a.record.Some?)))
  {
  }

  /** `get_document` retries everything but a decoded success, a rate limit
      and a connection timeout, on any attempt but the last; a connection
      timeout raises ApiTimeoutError on any attempt, while a read timeout on
      the last attempt becomes an ApiError. */
  lemma GetDocumentTimeouts<T>(timeout: int, retries: int, attempt: int, a: Attempt<T>)
    ensures Handle(GetDocumentPolicy(timeout, retries), retries, attempt, a).Retry?
            <==> attempt != retries && !a.ConnectTimedOut?
                 && !(a.Reply? && (a.code == 429 || (a.code == 200 && a.record.Some?)))
    ensures a.ConnectTimedOut? ==> Handle(GetDocumentPolicy(timeout, retries), retries, attempt, a)
                                   == Fail(Timeout(Some(timeout)))
    ensures a.TimedOut? && attempt == retries ==>
              Handle(GetDocumentPolicy(timeout, retries), retries, attempt, a) == Fail(Api(Caught(Expired), None))
  {
  }

  /** A client error is retried like a server error, and after a retried
      client error a success is still returned. */
  lemma {:induction false} ClientErrorThenSuccess<T>(p: Policy, retries: int, code: int, body: string,
                                                    record: Option<T>, v: T)
    requires p.retryCaught && retries >= 2
    requires code < 500 && code != 200 && code != 429
    ensures Run(p, retries, [Reply(code, body, record), Reply(200, "", Some(v))], 1) == Loop(Success(v), 2)
  {
    var net := [Reply(code, body, record), Reply(200, "", Some(v))];
    assert Handle(p, retries, 1, net[0]).Retry?;
    assert Run(p, retries, net, 1) == Run(p, retries, net, 2);
  }

  /** On its last attempt `extract_url` raises an ApiError quoting the retry
      count and the caught error. */
  lemma UrlFinalErrorQuotesRetries<T>(wait: int, retries: int, c: Cause)
    ensures Handle<T>(ExtractUrlPolicy(wait, retries), retries, retries, Threw(c))
            == Fail(Api(NoResponseAfterBecause(retries, c), None))
  {
  }

  // ---------------------------------------------------------------------------
  // extract_url's submission form
  // ---------------------------------------------------------------------------

  /** The `wait` field `extract_url` sends: the short wait for a negative
      polling interval, the caller's whole wait otherwise. */
  function InitialUrlWait(wait: int, pollingInterval: int): (w: int)
    ensures pollingInterval < 0 ==> w == WAIT_TIME_BEFORE_POLLING
    ensures pollingInterval >= 0 ==> w == wait
  {
    if pollingInterval < 0 then WAIT_TIME_BEFORE_POLLING else wait
  }

  /** Where `extract_url` departs from the other extract calls: with a
      positive interval it asks the server for the whole wait and still polls
      afterwards; with a negative one it asks for the short wait and polls,
      where the other calls would ask for the whole wait and not poll. */
  lemma UrlPollingDeparts(wait: int, pollingInterval: int, status: TaskStatus)
    requires wait != 0 && !status.IsFinal()
    ensures pollingInterval > 0 ==> InitialUrlWait(wait, pollingInterval) == wait
                                    && PollsAfter(IntervalNonzero, wait, pollingInterval, status)
    ensures pollingInterval < 0 ==> InitialUrlWait(wait, pollingInterval) == WAIT_TIME_BEFORE_POLLING
                                    && PollsAfter(IntervalNonzero, wait, pollingInterval, status)
                                    && !PollsAfter(IntervalPositive, wait, pollingInterval, status)
    ensures InitialUrlWait(wait, pollingInterval) == InitialWait(wait, pollingInterval) <==>
            pollingInterval == 0 || wait == WAIT_TIME_BEFORE_POLLING
  {
  }

  // ---------------------------------------------------------------------------
  // extract_file's submission loop
  // ---------------------------------------------------------------------------

  /** The submission loop of the async `extract_file`, given what preparing the
      upload gives: an upload that cannot be prepared ends the call on the
      first attempt, before any request; otherwise the ordinary loop runs. No
      attempt, no preparation: a budget below one raises the "no valid
      response" error even for a missing file. */
  function SubmitUpload(p: Policy, retries: int, prepared: Result<Body, Error>,
                        net: seq<Attempt<ExtractResponse>>): (r: Submission)
    ensures retries >= 1 && prepared.Err? ==> r == Submission(Raised(prepared.error), 1)
    ensures !(retries >= 1 && prepared.Err?) ==> r == Submit(p, retries, net)
    ensures r.outcome.Returned? ==> retries >= 1 && prepared.Ok?
    ensures r.attempts <= if retries < 1 then 0 else retries
  {
    if retries >= 1 && prepared.Err? then Submission(Raised(prepared.error), 1)
    else Submit(p, retries, net)
  }

  /** A missing path raises FileNotFoundError before anything is sent, however
      the network would have answered. */
  lemma MissingPathRaisedBeforeSending(wait: int, retries: int, path: string, disk: map<string, seq<byte>>,
                                       u: Upload, net: seq<Attempt<ExtractResponse>>)
    requires path != [] && path !in disk && retries >= 1
    ensures SubmitUpload(ExtractFilePolicy(wait, retries), retries, Prepare(u, Some(path), disk), net)
            == Submission(Raised(FileNotFound), 1)
  {
  }

  /** With a budget below one the file is never checked, and the call raises
      the "no valid response" ApiError. */
  lemma NoBudgetNoFileCheck(wait: int, retries: int, prepared: Result<Body, Error>,
                            net: seq<Attempt<ExtractResponse>>)
    requires retries < 1
    ensures SubmitUpload(ExtractFilePolicy(wait, retries), retries, prepared, net)
            == Submission(Raised(Api(NoValidResponseAfter(retries), None)), 0)
  {
  }

  /** The loop as the async `extract_file` runs it: every attempt prepares the
      upload again, before its request. `sent` is the file part of each request
      sent. */
  method SubmitFile(file: Upload, filePath: Option<string>, disk: map<string, seq<byte>>,
                    p: Policy, retries: int, net: seq<Attempt<ExtractResponse>>)
    returns (s: Submission, sent: seq<Body>)
    modifies Frame(file)
    ensures s == SubmitUpload(p, retries, old(Prepare(file, filePath, disk)), net)
    ensures old(Prepare(file, filePath, disk)).Err? ==> sent == []
    ensures old(Prepare(file, filePath, disk)).Ok? ==>
              |sent| == s.attempts && forall i :: 0 <= i < |sent| ==> sent[i] == old(Prepare(file, filePath, disk)).value
    ensures file.Stream? ==> file.file.data == old(file.file.data)
    ensures file.Stream? ==> file.file.pos == if retries >= 1 && Rewound(file, filePath) then 0 else old(file.file.pos)
  {
    ghost var prepared := Prepare(file, filePath, disk);
    sent := [];
    var attempt := 1;
    while attempt <= retries
      invariant 1 <= attempt && (attempt <= retries + 1 || attempt == 1)
      invariant Run(p, retries, net, attempt) == Run(p, retries, net, 1)
      invariant attempt > 1 ==> prepared.Ok?
      invariant |sent| == attempt - 1
      invariant forall i :: 0 <= i < |sent| ==> prepared.Ok? && sent[i] == prepared.value
      invariant file.Stream? ==> file.file.data == old(file.file.data) && file.file.pos == old(file.file.pos)
      invariant Prepare(file, filePath, disk) == prepared
      decreases retries - attempt
    {
      var body := PrepareUpload(file, filePath, disk);
      if body.Err? {
        return Submission(Raised(body.error), attempt), sent;
      }
      if attempt > |net| {
        return Submission(Stalled, attempt - 1), sent;
      }
      sent := sent + [body.value];
      var step := Handle(p, retries, attempt, net[attempt - 1]);
      match step {
        case Done(v) =>
          return Submission(Returned(v), attempt), sent;
        case Fail(e) =>
          return Submission(Raised(e), attempt), sent;
        case Retry =>
      }
      attempt := attempt + 1;
    }
    return Submission(Raised(p.exhausted), attempt - 1), sent;
  }

  // ---------------------------------------------------------------------------
  // The client
  // ---------------------------------------------------------------------------

  class AsyncAurelioClient {
    const baseUrl: string
    const apiKey: string
    const headers: map<string, string>

    function Current(): Settings {
      Settings(baseUrl, apiKey, headers)
    }

    constructor (settings: Settings)
      ensures Current() == settings
    {
      baseUrl := settings.baseUrl;
      apiKey := settings.apiKey;
      headers := settings.headers;
    }

    /** `AsyncAurelioClient(api_key, base_url, debug)`, with the value of the
        AURELIO_API_KEY environment variable passed in as `env`. */
    static method Create(apiKey: Option<string>, env: Option<string>, baseUrl: string)
      returns (r: Result<AsyncAurelioClient, Error>)
      ensures r.Err? <==> Configure(apiKey, env, baseUrl).Err?
      ensures r.Err? ==> r.error == Value
      ensures r.Ok? ==> fresh(r.value) && r.value.Current() == Configure(apiKey, env, baseUrl).value
    {
      var settings := Configure(apiKey, env, baseUrl);
      if settings.Err? {
        return Err(settings.error);
      }
      var client := new AsyncAurelioClient(settings.value);
      return Ok(client);
    }

    /** `chunk`. */
    method Chunk(content: string, options: Option<ChunkingOptions>, timeout: int, retries: int,
                 net: seq<Attempt<ChunkResponse>>)
      returns (r: Outcome<ChunkResponse>, attempts: nat, payload: ChunkRequestPayload)
      ensures payload == ChunkRequestPayload(content, options)
      ensures var run := Run(ChunkPolicy(timeout, retries), retries, net, 1);
              r == Conclude(ChunkPolicy(timeout, retries), run.exit) && attempts == run.attempts
    {
      payload := ChunkRequestPayload(content, options);
      var exit;
      exit, attempts := RunAttempts(ChunkPolicy(timeout, retries), retries, net);
      r := Conclude(ChunkPolicy(timeout, retries), exit);
    }

    /** `get_document`. */
    method GetDocument(timeout: int, retries: int, net: seq<Attempt<ExtractResponse>>)
      returns (r: Outcome<ExtractResponse>, attempts: nat)
      ensures var run := Run(GetDocumentPolicy(timeout, retries), retries, net, 1);
              r == Conclude(GetDocumentPolicy(timeout, retries), run.exit) && attempts == run.attempts
    {
      var exit;
      exit, attempts := RunAttempts(GetDocumentPolicy(timeout, retries), retries, net);
      r := Conclude(GetDocumentPolicy(timeout, retries), exit);
    }

    /** `wait_for`, its status fetches made with `get_document`'s defaults; its
        `asyncio.sleep` accepts any interval. */
    method WaitFor(wait: int, pollingInterval: int, polls: seq<seq<Attempt<ExtractResponse>>>, clock: seq<int>)
      returns (r: Outcome<ExtractResponse>, calls: nat)
      ensures Polled(r, calls)
              == Poll(Fetches(GetDocumentPolicy(STATUS_TIMEOUT, STATUS_RETRIES), STATUS_RETRIES, polls), clock, wait)
    {
      r, calls := Polling.WaitFor(Cooperative, GetDocumentPolicy(STATUS_TIMEOUT, STATUS_RETRIES), STATUS_RETRIES,
                                  wait, pollingInterval, polls, clock);
    }

    /** `extract_file`: ValueError without a path or a file; otherwise the
        submission loop, which prepares the upload on every attempt, then the
        post-submission decision. */
    method ExtractFile(quality: string, chunk: bool, file: Upload, filePath: Option<string>,
                       disk: map<string, seq<byte>>, wait: int, pollingInterval: int, retries: int,
                       net: seq<Attempt<ExtractResponse>>, polls: seq<seq<Attempt<ExtractResponse>>>,
                       clock: seq<int>)
      returns (r: Outcome<ExtractResponse>, attempts: nat, statusCalls: nat, form: Option<Form>, sent: seq<Body>)
      modifies Frame(file)
      ensures !SomethingToUpload(file, filePath) ==>
                r == Raised(Value) && attempts == 0 && statusCalls == 0 && form == None && sent == []
      ensures SomethingToUpload(file, filePath) ==>
                form == Some(Form(None, quality, BoolField(chunk), InitialWait(wait, pollingInterval), SessionTimeout(wait)))
      ensures SomethingToUpload(file, filePath) ==>
                Extracted(r, attempts, statusCalls)
                == Settle(IntervalPositive, Cooperative,
                          SubmitUpload(ExtractFilePolicy(wait, retries), retries, old(Prepare(file, filePath, disk)), net),
                          wait, pollingInterval, GetDocumentPolicy(STATUS_TIMEOUT, STATUS_RETRIES), STATUS_RETRIES,
                          polls, clock)
      ensures old(Prepare(file, filePath, disk)).Ok? ==>
                |sent| == attempts && forall i :: 0 <= i < |sent| ==> sent[i] == old(Prepare(file, filePath, disk)).value
      ensures file.Stream? ==> file.file.data == old(file.file.data)
      ensures file.Stream? ==> file.file.pos == if retries >= 1 && Rewound(file, filePath) then 0 else old(file.file.pos)
    {
      if !(PathGiven(filePath) || Truthy(file)) {
        return Raised(Value), 0, 0, None, [];
      }
      form := Some(Form(None, quality, BoolField(chunk), InitialWait(wait, pollingInterval), SessionTimeout(wait)));
      var s;
      s, sent := SubmitFile(file, filePath, disk, ExtractFilePolicy(wait, retries), retries, net);
      attempts := s.attempts;
      r, statusCalls := SettleSubmission(IntervalPositive, Cooperative, s.outcome, s.attempts, wait, pollingInterval,
                                         GetDocumentPolicy(STATUS_TIMEOUT, STATUS_RETRIES), STATUS_RETRIES,
                                         polls, clock);
    }

    /** `extract_url`: the submission loop, then the post-submission decision
        by a non-zero interval. */
    method ExtractUrl(url: string, quality: string, chunk: bool, wait: int, pollingInterval: int, retries: int,
                      net: seq<Attempt<ExtractResponse>>, polls: seq<seq<Attempt<ExtractResponse>>>,
                      clock: seq<int>)
      returns (r: Outcome<ExtractResponse>, attempts: nat, statusCalls: nat, form: Form)
      ensures form == Form(Some(url), quality, BoolField(chunk), InitialUrlWait(wait, pollingInterval), SessionTimeout(wait))
      ensures Extracted(r, attempts, statusCalls)
              == Settle(IntervalNonzero, Cooperative, Submit(ExtractUrlPolicy(wait, retries), retries, net),
                        wait, pollingInterval, GetDocumentPolicy(STATUS_TIMEOUT, STATUS_RETRIES), STATUS_RETRIES,
                        polls, clock)
    {
      form := Form(Some(url), quality, BoolField(chunk), InitialUrlWait(wait, pollingInterval), SessionTimeout(wait));
      var exit;
      exit, attempts := RunAttempts(ExtractUrlPolicy(wait, retries), retries, net);
      r, statusCalls := SettleSubmission(IntervalNonzero, Cooperative, Conclude(ExtractUrlPolicy(wait, retries), exit), attempts,
                                         wait, pollingInterval, GetDocumentPolicy(STATUS_TIMEOUT, STATUS_RETRIES),
                                         STATUS_RETRIES, polls, clock);
    }

    /** `embedding`. */
    method Embedding(timeout: int, retries: int, net: seq<Attempt<EmbeddingResponse>>)
      returns (r: Outcome<EmbeddingResponse>, attempts: nat)
      ensures var run := Run(EmbeddingPolicy(timeout, retries), retries, net, 1);
              r == Conclude(EmbeddingPolicy(timeout, retries), run.exit) && attempts == run.attempts
    {
      var exit;
      exit, attempts := RunAttempts(EmbeddingPolicy(timeout, retries), retries, net);
      r := Conclude(EmbeddingPolicy(timeout, retries), exit);
    }
  }
}
