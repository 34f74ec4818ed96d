/** The attempt loop that every endpoint method of both clients wraps around
    its HTTP call (`for attempt in range(1, retries + 1)`): how the outcome of
    one attempt is classified, and what the whole loop ends with.

    The clients repeat the loop in every method with small differences; each
    method's variant is captured by its own `Policy` value (see the two client
    modules), and the loop itself is modelled once. */
module Retry {

  import opened Wrappers
  import opened Errors

  /** What one pass through the loop body ran into. The network is an oracle:
      a sequence of these, one per attempt. */
  datatype Attempt<+T> =
    | Reply(code: int, body: string, record: Option<T>)  // a response; `record` is its body decoded as the endpoint's record (None: decoding raised)
    | TimedOut                                            // a read or total timeout
    | ConnectTimedOut                                     // a timeout while connecting (also a timeout in the general sense)
    | Threw(cause: Cause)                                 // any other exception raised inside the `try`

  /** How a loop treats timeouts. */
  datatype TimeoutRule =
    | Unhandled                          // no timeout handler: the generic handler takes timeouts
    | RetriedUntilLast(limit: Option<int>)  // retried; on the last attempt ApiTimeoutError(limit)
    | ConnectRaises(limit: Option<int>)     // a connection timeout raises ApiTimeoutError(limit) at once; other timeouts reach the generic handler

  /** The variant of the loop one endpoint method runs. */
  datatype Policy = Policy(
    timeouts: TimeoutRule,
    retryCaught: bool,   // the generic handler retries whatever it caught on a non-final attempt
    quoteRetries: bool,  // the generic handler's final message quotes the retry count
    exhausted: Error)    // what is raised after the loop when no attempt ended it (only when the budget is below one)

  /** What the loop does after one attempt. */
  datatype Step<+T> = Done(value: T) | Fail(error: Error) | Retry

  /** The message of the ApiError the generic handler raises on the last attempt. */
  function FinalMessage(p: Policy, retries: int, c: Cause): Message {
    if p.quoteRetries then NoResponseAfterBecause(retries, c) else Caught(c)
  }

  /** The generic `except Exception as e` handler: retry, or re-raise as
      ApiError(str(e)) without a status code. */
  function Generic<T>(p: Policy, retries: int, attempt: int, c: Cause): Step<T> {
    if p.retryCaught && attempt != retries then Retry
    else Fail(Api(FinalMessage(p, retries, c), None))
  }

  /** One attempt: a 200 response whose body decodes is the result; a 429
      raises the rate-limit error whatever budget remains; a status of 500 or
      more on a non-final attempt is retried; any other status raises an
      ApiError inside the `try`, which the generic handler catches; timeouts
      follow the policy's timeout rule; other exceptions reach the generic
      handler. The last attempt is never retried, and an ApiError that leaves
      an attempt never carries a status code. */
  function Handle<T>(p: Policy, retries: int, attempt: int, a: Attempt<T>): (s: Step<T>)
    ensures s.Done? <==> a.Reply? && a.code == 200 && a.record.Some?
    ensures s.Done? ==> s.value == a.record.value
    ensures a.Reply? && a.code == 429 ==> s == Fail(RateLimit)
    ensures s == Fail(RateLimit) ==> a.Reply? && a.code == 429
    ensures s.Retry? ==> attempt != retries
    ensures s.Fail? && s.error.Api? ==> s.error.status.None?
    ensures s.Fail? && s.error.Timeout? ==> a.TimedOut? || a.ConnectTimedOut?
  {
    match a
    case Reply(code, body, record) =>
      if code == 200 then
        if record.Some? then Done(record.value) else Generic(p, retries, attempt, Undecodable)
      else if code == 429 then Fail(RateLimit)
      else if code >= 500 && attempt != retries then Retry
      else Generic(p, retries, attempt, Rejected(body, code))
    case TimedOut =>
      (match p.timeouts
       case RetriedUntilLast(limit) => if attempt == retries then Fail(Timeout(limit)) else Retry
       case _ => Generic(p, retries, attempt, Expired))
    case ConnectTimedOut =>
      (match p.timeouts
       case Unhandled => Generic(p, retries, attempt, Expired)
       case RetriedUntilLast(limit) => if attempt == retries then Fail(Timeout(limit)) else Retry
       case ConnectRaises(limit) => Fail(Timeout(limit)))
    case Threw(c) => Generic(p, retries, attempt, c)
  }

  /** Attempt `j` was made and was retried. */
  predicate RetriedAt<T>(p: Policy, retries: int, net: seq<Attempt<T>>, j: int) {
    1 <= j <= |net| && Handle(p, retries, j, net[j - 1]).Retry?
  }

  /** How the loop ended: with a result, with an error, by running out of
      attempts, or because the network trace ran out. */
  datatype Exit<+T> = Success(value: T) | Failure(error: Error) | Exhausted | TraceEnded

  /** The end of the loop and the number of attempts it made. */
  datatype Loop<+T> = Loop(exit: Exit<T>, attempts: nat)

  /** The loop from attempt number `attempt` on; attempt `k` sees `net[k - 1]`.
      It makes at most `retries` attempts; it stops at the first attempt that
      is not retried, and that attempt decides the exit; every attempt before
      it was retried; it runs out of attempts only when there were none left
      to make, since the last attempt is never retried. */
  function Run<T>(p: Policy, retries: int, net: seq<Attempt<T>>, attempt: nat): (r: Loop<T>)
    requires 1 <= attempt
    decreases retries - attempt + 1
    ensures attempt - 1 <= r.attempts
    ensures r.attempts <= (if retries < attempt then attempt - 1 else retries)
    ensures forall j :: attempt <= j < r.attempts ==> RetriedAt(p, retries, net, j)
    ensures r.exit.Success? ==> attempt <= r.attempts <= |net|
                                && Handle(p, retries, r.attempts, net[r.attempts - 1]) == Done(r.exit.value)
    ensures r.exit.Failure? ==> attempt <= r.attempts <= |net|
                                && Handle(p, retries, r.attempts, net[r.attempts - 1]) == Fail(r.exit.error)
    ensures r.exit.Exhausted? <==> retries < attempt
    ensures r.exit.TraceEnded? ==> r.attempts < retries && r.attempts >= |net|
  {
    if attempt > retries then Loop(Exhausted, attempt - 1)
    else if attempt > |net| then Loop(TraceEnded, attempt - 1)
    else
      match Handle(p, retries, attempt, net[attempt - 1])
      case Done(v) => Loop(Success(v), attempt)
      case Fail(e) => Loop(Failure(e), attempt)
      case Retry => Run(p, retries, net, attempt + 1)
  }

  /** What the endpoint does with the exit: return the result, raise the
      error, or raise the policy's "exhausted" error after the loop. */
  function Conclude<T>(p: Policy, exit: Exit<T>): (r: Outcome<T>)
    ensures r.Returned? <==> exit.Success?
    ensures r.Stalled? <==> exit.TraceEnded?
    ensures exit.Success? ==> r.value == exit.value
    ensures exit.Failure? ==> r == Raised(exit.error)
    ensures exit.Exhausted? ==> r == Raised(p.exhausted)
  {
    match exit
    case Success(v) => Returned(v)
    case Failure(e) => Raised(e)
    case Exhausted => Raised(p.exhausted)
    case TraceEnded => Stalled
  }

  /** The loop as the clients run it. */
  method RunAttempts<T>(p: Policy, retries: int, net: seq<Attempt<T>>) returns (exit: Exit<T>, attempts: nat)
    ensures Loop(exit, attempts) == Run(p, retries, net, 1)
  {
    var attempt := 1;
    while attempt <= retries
      invariant 1 <= attempt
      invariant attempt <= retries + 1 || attempt == 1
      invariant Run(p, retries, net, attempt) == Run(p, retries, net, 1)
      decreases retries - attempt
    {
      if attempt > |net| {
        return TraceEnded, attempt - 1;
      }
      var step := Handle(p, retries, attempt, net[attempt - 1]);
      match step {
        case Done(v) =>
          return Success(v), attempt;
        case Fail(e) =>
          return Failure(e), attempt;
        case Retry =>
      }
      attempt := attempt + 1;
    }
    return Exhausted, attempt - 1;
  }

  // ---------------------------------------------------------------------------
  // Properties of the loop, for every policy
  // ---------------------------------------------------------------------------

  /** The attempts before `k` were all made and all retried. */
  ghost predicate RetriedBefore<T>(p: Policy, retries: int, net: seq<Attempt<T>>, k: nat) {
    && k - 1 <= |net|
    && k - 1 <= retries
    && forall j :: 1 <= j < k ==> RetriedAt(p, retries, net, j)
  }

  /** Skipping attempts that were retried does not change where the loop ends. */
  lemma {:induction false} RetriedPrefix<T>(p: Policy, retries: int, net: seq<Attempt<T>>, k: nat)
    requires 1 <= k
    requires RetriedBefore(p, retries, net, k)
    ensures Run(p, retries, net, 1) == Run(p, retries, net, k)
  {
    if k > 1 {
      RetriedPrefix(p, retries, net, k - 1);
      assert RetriedAt(p, retries, net, k - 1);
    }
  }

  /** Once the loop reaches attempt `k`, the outcome of that attempt decides:
      a result is returned and an error raised with no further attempt. */
  lemma ReachedAttemptDecides<T>(p: Policy, retries: int, net: seq<Attempt<T>>, k: nat)
    requires 1 <= k <= retries && k <= |net|
    requires RetriedBefore(p, retries, net, k)
    ensures Handle(p, retries, k, net[k - 1]).Done? ==>
              Run(p, retries, net, 1) == Loop(Success(Handle(p, retries, k, net[k - 1]).value), k)
    ensures Handle(p, retries, k, net[k - 1]).Fail? ==>
              Run(p, retries, net, 1) == Loop(Failure(Handle(p, retries, k, net[k - 1]).error), k)
    ensures Handle(p, retries, k, net[k - 1]).Retry? ==>
              Run(p, retries, net, 1) == Run(p, retries, net, k + 1)
  {
    RetriedPrefix(p, retries, net, k);
  }

  /** A 429 raises the rate-limit error at the attempt that saw it, whatever
      budget remains. */
  lemma RateLimitStopsAtOnce<T>(p: Policy, retries: int, net: seq<Attempt<T>>, k: nat)
    requires 1 <= k <= retries && k <= |net|
    requires RetriedBefore(p, retries, net, k)
    requires net[k - 1].Reply? && net[k - 1].code == 429
    ensures Run(p, retries, net, 1) == Loop(Failure(RateLimit), k)
  {
    ReachedAttemptDecides(p, retries, net, k);
  }

  /** The first 200 response that decodes is returned, and no attempt follows it. */
  lemma FirstSuccessReturned<T>(p: Policy, retries: int, net: seq<Attempt<T>>, k: nat, v: T)
    requires 1 <= k <= retries && k <= |net|
    requires RetriedBefore(p, retries, net, k)
    requires net[k - 1].Reply? && net[k - 1].code == 200 && net[k - 1].record == Some(v)
    ensures Run(p, retries, net, 1) == Loop(Success(v), k)
  {
    ReachedAttemptDecides(p, retries, net, k);
  }

  /** A status of 500 or more. */
  predicate ServerError<T>(a: Attempt<T>) {
    a.Reply? && a.code >= 500
  }

  /** With a budget of N, N - 1 server errors followed by a success return the
      success after N attempts. */
  lemma {:induction false} ServerErrorsThenSuccess<T>(p: Policy, retries: int, net: seq<Attempt<T>>, v: T)
    requires 1 <= retries <= |net|
    requires forall j :: 0 <= j < retries - 1 ==> ServerError(net[j])
    requires net[retries - 1].Reply? && net[retries - 1].code == 200 && net[retries - 1].record == Some(v)
    ensures Run(p, retries, net, 1) == Loop(Success(v), retries)
  {
    forall j | 1 <= j < retries
      ensures RetriedAt(p, retries, net, j)
    {
      assert ServerError(net[j - 1]);
    }
    FirstSuccessReturned(p, retries, net, retries, v);
  }

  /** With a budget of N, N server errors make exactly N attempts and raise an
      ApiError about the last response, without a status code. */
  lemma {:induction false} ServerErrorsExhaustBudget<T>(p: Policy, retries: int, net: seq<Attempt<T>>)
    requires 1 <= retries <= |net|
    requires forall j :: 0 <= j < retries - 1 ==> ServerError(net[j])
    requires ServerError(net[retries - 1])
    ensures Run(p, retries, net, 1)
            == Loop(Failure(Api(FinalMessage(p, retries, Rejected(net[retries - 1].body, net[retries - 1].code)), None)), retries)
  {
    forall j | 1 <= j < retries
      ensures RetriedAt(p, retries, net, j)
    {
      assert ServerError(net[j - 1]);
    }
    ReachedAttemptDecides(p, retries, net, retries);
  }

  /** A trace that covers every attempt of the budget never runs out, and a
      positive budget is never used up without a decision. */
  lemma LoopAlwaysDecides<T>(p: Policy, retries: int, net: seq<Attempt<T>>)
    requires 1 <= retries <= |net|
    ensures Run(p, retries, net, 1).exit.Success? || Run(p, retries, net, 1).exit.Failure?
  {
  }

  /** No ApiError that leaves the loop carries a status code: the one raised for
      a failing response is always caught and re-raised by the generic handler. */
  lemma NoStatusEscapes<T>(p: Policy, retries: int, net: seq<Attempt<T>>)
    requires p.exhausted.Api? ==> p.exhausted.status.None?
    ensures var e := Conclude(p, Run(p, retries, net, 1).exit);
            e.Raised? && e.error.Api? ==> e.error.status.None?
  {
  }
}
