/** What an extract call does once its submission has succeeded: return the
    submission response at once, or poll the document's status with
    `wait_for` until it is final or a deadline passes.

    Time is an oracle: `clock[0]` is the reading taken when polling starts and
    `clock[k]` the reading taken after the k-th sleep, so a sleep is modelled
    only by the time that has passed when the clock is read again. Each status
    fetch is one `get_document` call, which runs its own attempt loop on its
    own network trace. */
module Polling {

  import opened Wrappers
  import opened Errors
  import opened Schema
  import opened Retry
  import opened Consts

  // ---------------------------------------------------------------------------
  // The submission request
  // ---------------------------------------------------------------------------

  /** The `wait` form field of a submission: when the caller polls afterwards
      the server is asked to hold the request only WAIT_TIME_BEFORE_POLLING
      seconds, otherwise for the caller's whole wait. */
  function InitialWait(wait: int, pollingInterval: int): (w: int)
    ensures pollingInterval > 0 ==> w == WAIT_TIME_BEFORE_POLLING
    ensures pollingInterval <= 0 ==> w == wait
  {
    if pollingInterval > 0 then WAIT_TIME_BEFORE_POLLING else wait
  }

  /** The form an extract submission sends besides the file: the URL (for
      `extract_url`), the quality and chunk flags, the wait the server is asked
      to hold the request for, and the session timeout of the request. */
  datatype Form = Form(url: Option<string>, quality: string, chunk: string, wait: int, timeout: Option<int>)

  /** `str(b)`, the spelling a boolean form field gets by default. */
  function BoolField(b: bool): string {
    if b then "True" else "False"
  }

  /** `str(b).lower()`, the spelling the sync `extract_file` sends. */
  function LowerBoolField(b: bool): string {
    if b then "true" else "false"
  }

  /** The timeout of the submission's HTTP session: one second more than the
      wait, so that the server's answer after a full wait still arrives; no
      timeout when the wait is zero or unbounded. */
  function SessionTimeout(wait: int): (t: Option<int>)
    ensures t.Some? <==> wait > 0
    ensures t.Some? ==> t.value == wait + 1 && t.value > wait
  {
    if wait > 0 then Some(wait + 1) else None
  }

  // ---------------------------------------------------------------------------
  // The polling loop
  // ---------------------------------------------------------------------------

  /** `start + wait` when `wait` is not negative; no deadline otherwise. */
  function Deadline(start: int, wait: int): (d: Option<int>)
    ensures d.Some? <==> wait >= 0
    ensures d.Some? ==> d.value - start == wait
  {
    if wait >= 0 then Some(start + wait) else None
  }

  predicate Past(deadline: Option<int>, now: int) {
    deadline.Some? && now > deadline.value
  }

  /** The status fetch number `j` returned a document that is still not final. */
  predicate PendingAt(fetches: seq<Outcome<ExtractResponse>>, j: int) {
    0 <= j < |fetches| && fetches[j].Returned? && !fetches[j].value.status.IsFinal()
  }

  /** When the fetch number `j` was made, the deadline had not passed. */
  predicate BeforeDeadline(clock: seq<int>, deadline: Option<int>, j: int) {
    0 <= j < |clock| && !Past(deadline, clock[j])
  }

  /** How polling ends, and how many status fetches it made. */
  datatype Polled = Polled(outcome: Outcome<ExtractResponse>, calls: nat)

  /** The polling loop after `k` fetches, the last of which returned the
      still-pending `last`: sleep, stop if the clock is past the deadline,
      otherwise fetch again. */
  function PollFrom(fetches: seq<Outcome<ExtractResponse>>, clock: seq<int>, deadline: Option<int>,
                    k: nat, last: ExtractResponse): (r: Polled)
    requires 1 <= k <= |fetches| && fetches[k - 1] == Returned(last) && !last.status.IsFinal()
    decreases |clock| - k
    ensures k <= r.calls
    ensures r.outcome.Returned? ==> r.calls <= |fetches| && fetches[r.calls - 1] == Returned(r.outcome.value)
    ensures r.outcome.Returned? ==> r.outcome.value.status.IsFinal()
                                    || (r.calls < |clock| && Past(deadline, clock[r.calls]))
    ensures r.outcome.Raised? ==> r.calls <= |fetches| && fetches[r.calls - 1] == Raised(r.outcome.error)
    ensures forall j :: k <= j < r.calls - 1 ==> PendingAt(fetches, j)
    ensures forall j :: k <= j < r.calls ==> BeforeDeadline(clock, deadline, j)
    ensures r.outcome.Stalled? ==> r.calls >= |clock| || r.calls >= |fetches| || fetches[r.calls - 1].Stalled?
  {
    if k >= |clock| then Polled(Stalled, k)
    else if Past(deadline, clock[k]) then Polled(Returned(last), k)
    else if k >= |fetches| then Polled(Stalled, k)
    else
      match fetches[k]
      case Returned(resp) =>
        if resp.status.IsFinal() then Polled(Returned(resp), k + 1)
        else PollFrom(fetches, clock, deadline, k + 1, resp)
      case Raised(e) => Polled(Raised(e), k + 1)
      case Stalled => Polled(Stalled, k + 1)
  }

  /** `wait_for`: it fetches the document at least once, and stops only when
      the status is completed or failed or the clock has passed `start + wait`
      (a negative wait sets no deadline). Past the deadline it returns the last
      fetched response as it is, without raising; an error of a fetch
      propagates. */
  function Poll(fetches: seq<Outcome<ExtractResponse>>, clock: seq<int>, wait: int): (r: Polled)
    ensures r.outcome.Returned? || r.outcome.Raised? ==> 1 <= r.calls <= |fetches|
    ensures r.outcome.Returned? ==> fetches[r.calls - 1] == Returned(r.outcome.value)
    ensures r.outcome.Returned? ==> r.outcome.value.status.IsFinal()
                                    || (wait >= 0 && r.calls < |clock| && clock[r.calls] > clock[0] + wait)
    ensures r.outcome.Raised? ==> fetches[r.calls - 1] == Raised(r.outcome.error)
    ensures forall j :: 0 <= j < r.calls - 1 ==> PendingAt(fetches, j)
    ensures r.calls > 0 ==> |clock| > 0 && forall j :: 1 <= j < r.calls ==> BeforeDeadline(clock, Deadline(clock[0], wait), j)
    ensures r.outcome.Stalled? ==> r.calls >= |clock| || r.calls >= |fetches| || (1 <= r.calls && fetches[r.calls - 1].Stalled?)
  {
    if |clock| == 0 || |fetches| == 0 then Polled(Stalled, 0)
    else
      match fetches[0]
      case Returned(resp) =>
        if resp.status.IsFinal() then Polled(Returned(resp), 1)
        else PollFrom(fetches, clock, Deadline(clock[0], wait), 1, resp)
      case Raised(e) => Polled(Raised(e), 1)
      case Stalled => Polled(Stalled, 1)
  }

  /** The sleep between two status fetches: the sync client's `time.sleep`,
      which raises ValueError for a negative length, or the async client's
      `asyncio.sleep`, which returns at once for one. */
  datatype Sleep = Blocking | Cooperative

  predicate SleepRaises(sleep: Sleep, pollingInterval: int) {
    sleep.Blocking? && pollingInterval < 0
  }

  /** `wait_for` with its sleep: when the sleep raises, the first pending
      response is followed by a ValueError instead of a second fetch; otherwise
      it polls as `Poll` says. */
  function WaitedFor(sleep: Sleep, pollingInterval: int, fetches: seq<Outcome<ExtractResponse>>,
                     clock: seq<int>, wait: int): (r: Polled)
    ensures !SleepRaises(sleep, pollingInterval) ==> r == Poll(fetches, clock, wait)
    ensures SleepRaises(sleep, pollingInterval) ==> r.calls <= 1
    ensures SleepRaises(sleep, pollingInterval) && r.outcome.Returned? ==> r.outcome.value.status.IsFinal()
    ensures SleepRaises(sleep, pollingInterval) && |clock| > 0 && PendingAt(fetches, 0)
            ==> r == Polled(Raised(Value), 1)
    ensures SleepRaises(sleep, pollingInterval) && !(|clock| > 0 && PendingAt(fetches, 0))
            ==> r == Poll(fetches, clock, wait)
  {
    if SleepRaises(sleep, pollingInterval) && |clock| > 0 && PendingAt(fetches, 0) then Polled(Raised(Value), 1)
    else Poll(fetches, clock, wait)
  }

  /** What each `get_document` call of the polling loop ends with, call `i`
      running the attempt loop on the network trace `polls[i]`. */
  function Fetches(getDocument: Policy, retries: int, polls: seq<seq<Attempt<ExtractResponse>>>)
    : (f: seq<Outcome<ExtractResponse>>)
    ensures |f| == |polls|
    ensures forall i :: 0 <= i < |polls| ==> f[i] == Conclude(getDocument, Run(getDocument, retries, polls[i], 1).exit)
  {
    seq(|polls|, i requires 0 <= i < |polls| => Conclude(getDocument, Run(getDocument, retries, polls[i], 1).exit))
  }

  /** The polling loop as the clients run it; `pollingInterval` is the length
      of the sleep between fetches, whose only effect here, unless it raises, is
      the time the clock shows next. */
  method WaitFor(sleep: Sleep, getDocument: Policy, getRetries: int, wait: int, pollingInterval: int,
                 polls: seq<seq<Attempt<ExtractResponse>>>, clock: seq<int>)
    returns (r: Outcome<ExtractResponse>, calls: nat)
    ensures Polled(r, calls) == WaitedFor(sleep, pollingInterval, Fetches(getDocument, getRetries, polls), clock, wait)
  {
    if |clock| == 0 || |polls| == 0 {
      return Stalled, 0;
    }
    var start := clock[0];
    var exit, _ := RunAttempts(getDocument, getRetries, polls[0]);
    var first := Conclude(getDocument, exit);
    if !first.Returned? {
      return first, 1;
    }
    r, calls := PollAfterFirst(sleep, getDocument, getRetries, pollingInterval, polls, clock,
                               Deadline(start, wait), first.value);
  }

  /** The loop of `wait_for` once its first fetch returned `first`: while the
      status is not final, sleep, stop past the deadline, otherwise fetch again. */
  method PollAfterFirst(sleep: Sleep, getDocument: Policy, getRetries: int, pollingInterval: int,
                        polls: seq<seq<Attempt<ExtractResponse>>>, clock: seq<int>,
                        deadline: Option<int>, first: ExtractResponse)
    returns (r: Outcome<ExtractResponse>, calls: nat)
    requires 1 <= |polls| && Fetches(getDocument, getRetries, polls)[0] == Returned(first)
    ensures first.status.IsFinal() ==> r == Returned(first) && calls == 1
    ensures !first.status.IsFinal() && SleepRaises(sleep, pollingInterval) ==> r == Raised(Value) && calls == 1
    ensures !first.status.IsFinal() && !SleepRaises(sleep, pollingInterval)
            ==> Polled(r, calls) == PollFrom(Fetches(getDocument, getRetries, polls), clock, deadline, 1, first)
  {
    ghost var fetches := Fetches(getDocument, getRetries, polls);
    var response := first;
    var timeoutReached := false;
    var k := 1;
    while !response.status.IsFinal() && !timeoutReached
      invariant 1 <= k <= |polls| && fetches[k - 1] == Returned(response)
      invariant !timeoutReached
      invariant k == 1 ==> response == first
      invariant SleepRaises(sleep, pollingInterval) || first.status.IsFinal() ==> k == 1
      invariant !first.status.IsFinal() ==>
                  PollFrom(fetches, clock, deadline, 1, first)
                  == if response.status.IsFinal() then Polled(Returned(response), k)
                     else PollFrom(fetches, clock, deadline, k, response)
      decreases |clock| - k
    {
      // sleep(pollingInterval); the reading below is the time after it
      if sleep.Blocking? && pollingInterval < 0 {
        return Raised(Value), k;
      }
      if k >= |clock| {
        return Stalled, k;
      }
      if deadline.Some? && clock[k] > deadline.value {
        timeoutReached := true;
        break;
      }
      if k >= |polls| {
        return Stalled, k;
      }
      var exit, _ := RunAttempts(getDocument, getRetries, polls[k]);
      var next := Conclude(getDocument, exit);
      if !next.Returned? {
        return next, k + 1;
      }
      response := next.value;
      k := k + 1;
    }
    return Returned(response), k;
  }

  // ---------------------------------------------------------------------------
  // Properties of the polling loop
  // ---------------------------------------------------------------------------

  /** With no deadline, polling never returns a document that is not final. */
  lemma NoDeadlineMeansFinal(fetches: seq<Outcome<ExtractResponse>>, clock: seq<int>, wait: int)
    requires wait < 0
    ensures Poll(fetches, clock, wait).outcome.Returned? ==> Poll(fetches, clock, wait).outcome.value.status.IsFinal()
  {
  }

  lemma {:induction false} PollFromNoDeadline(fetches: seq<Outcome<ExtractResponse>>, clock: seq<int>,
                                              k: nat, last: ExtractResponse, n: nat)
    requires 1 <= k <= n < |fetches| && n < |clock|
    requires fetches[k - 1] == Returned(last) && !last.status.IsFinal()
    requires forall j :: k <= j < n ==> PendingAt(fetches, j)
    requires fetches[n].Returned? && fetches[n].value.status.IsFinal()
    decreases n - k
    ensures PollFrom(fetches, clock, None, k, last) == Polled(fetches[n], n + 1)
  {
    if k < n {
      assert PendingAt(fetches, k);
      PollFromNoDeadline(fetches, clock, k + 1, fetches[k].value, n);
    }
  }

  /** With no deadline, polling returns the first final document, however
      many pending ones come before it. */
  lemma NoDeadlineReturnsFirstFinal(fetches: seq<Outcome<ExtractResponse>>, clock: seq<int>, wait: int, n: nat)
    requires wait < 0 && n < |fetches| && n < |clock|
    requires forall j :: 0 <= j < n ==> PendingAt(fetches, j)
    requires fetches[n].Returned? && fetches[n].value.status.IsFinal()
    ensures Poll(fetches, clock, wait) == Polled(fetches[n], n + 1)
  {
    if n > 0 {
      assert PendingAt(fetches, 0);
      PollFromNoDeadline(fetches, clock, 1, fetches[0].value, n);
    }
  }

  /** Each sleep lets time pass. */
  predicate Advancing(clock: seq<int>) {
    forall j :: 1 <= j < |clock| ==> clock[j - 1] < clock[j]
  }

  /** No status fetch ran out of network trace. */
  predicate NoStalls(fetches: seq<Outcome<ExtractResponse>>) {
    forall j :: 0 <= j < |fetches| ==> !fetches[j].Stalled?
  }

  lemma {:induction false} ClockGrows(clock: seq<int>, k: nat)
    requires Advancing(clock) && k < |clock|
    ensures clock[k] >= clock[0] + k
  {
    if k > 0 {
      ClockGrows(clock, k - 1);
    }
  }

  lemma {:induction false} PollFromEnds(fetches: seq<Outcome<ExtractResponse>>, clock: seq<int>, d: int,
                                        k: nat, last: ExtractResponse)
    requires 1 <= k <= |fetches| && fetches[k - 1] == Returned(last) && !last.status.IsFinal()
    requires Advancing(clock) && NoStalls(fetches) && 1 <= |clock|
    requires d - clock[0] + 2 <= |clock| && d - clock[0] + 1 <= |fetches|
    requires k <= d - clock[0] + 1
    decreases d - clock[0] + 1 - k
    ensures !PollFrom(fetches, clock, Some(d), k, last).outcome.Stalled?
    ensures PollFrom(fetches, clock, Some(d), k, last).calls <= d - clock[0] + 1
  {
    ClockGrows(clock, k);
    if !Past(Some(d), clock[k]) {
      assert !fetches[k].Stalled?;
      if fetches[k].Returned? && !fetches[k].value.status.IsFinal() {
        PollFromEnds(fetches, clock, d, k + 1, fetches[k].value);
      }
    }
  }

  /** With a deadline and a clock that advances at every sleep, polling ends
      after at most `wait + 1` status fetches: it never waits past the
      deadline, whatever the server answers. */
  lemma DeadlineEndsPolling(fetches: seq<Outcome<ExtractResponse>>, clock: seq<int>, wait: int)
    requires wait >= 0 && Advancing(clock) && NoStalls(fetches)
    requires |clock| >= wait + 2 && |fetches| >= wait + 1
    ensures !Poll(fetches, clock, wait).outcome.Stalled?
    ensures Poll(fetches, clock, wait).calls <= wait + 1
  {
    assert !fetches[0].Stalled?;
    if fetches[0].Returned? && !fetches[0].value.status.IsFinal() {
      PollFromEnds(fetches, clock, clock[0] + wait, 1, fetches[0].value);
    }
  }

  /** A document that stays pending is returned, still pending and without an
      error, once the deadline has passed. */
  lemma PendingPastDeadline(fetches: seq<Outcome<ExtractResponse>>, clock: seq<int>, wait: int)
    requires wait >= 0 && Advancing(clock)
    requires |clock| >= wait + 2 && |fetches| >= wait + 1
    requires forall j :: 0 <= j < |fetches| ==> PendingAt(fetches, j)
    ensures Poll(fetches, clock, wait).outcome.Returned?
    ensures Poll(fetches, clock, wait).outcome.value.status == Pending
  {
    assert NoStalls(fetches) by {
      forall j | 0 <= j < |fetches| ensures !fetches[j].Stalled? {
        assert PendingAt(fetches, j);
      }
    }
    DeadlineEndsPolling(fetches, clock, wait);
    var r := Poll(fetches, clock, wait);
    assert PendingAt(fetches, r.calls - 1);
  }

  // ---------------------------------------------------------------------------
  // After the submission
  // ---------------------------------------------------------------------------

  /** The two tests the clients use to decide on polling, besides `wait == 0`
      and a final status: a positive polling interval, or a non-zero one. */
  datatype PollRule = IntervalPositive | IntervalNonzero

  /** Whether the call goes on to `wait_for` after a successful submission. */
  predicate PollsAfter(rule: PollRule, wait: int, pollingInterval: int, status: TaskStatus) {
    && wait != 0
    && !status.IsFinal()
    && match rule
       case IntervalPositive => pollingInterval > 0
       case IntervalNonzero => pollingInterval != 0
  }

  /** How a submission loop ends, and the attempts it made. */
  datatype Submission = Submission(outcome: Outcome<ExtractResponse>, attempts: nat)

  /** The submission loop of an extract call, run on the trace `net`. */
  function Submit(p: Policy, retries: int, net: seq<Attempt<ExtractResponse>>): (s: Submission)
    ensures s.attempts <= if retries < 1 then 0 else retries
    ensures s.attempts == 0 <==> retries < 1 || net == []
    ensures retries < 1 ==> s.outcome == Raised(p.exhausted)
    ensures s.outcome.Returned? ==>
              && 1 <= s.attempts <= |net|
              && net[s.attempts - 1].Reply?
              && net[s.attempts - 1] == Reply(200, net[s.attempts - 1].body, Some(s.outcome.value))
  {
    var run := Run(p, retries, net, 1);
    Submission(Conclude(p, run.exit), run.attempts)
  }

  /** How an extract call ends, the attempts its submission loop made, and the
      status fetches made after it. */
  datatype Extracted = Extracted(outcome: Outcome<ExtractResponse>, attempts: nat, statusCalls: nat)

  /** The post-submission decision: a failed submission is raised; a successful
      one is returned as it is unless the rule calls for polling, in which case
      the result of `wait_for(document.id, wait, polling_interval)` is returned. */
  function Settle(rule: PollRule, sleep: Sleep, s: Submission, wait: int, pollingInterval: int,
                  getDocument: Policy, getRetries: int,
                  polls: seq<seq<Attempt<ExtractResponse>>>, clock: seq<int>): (r: Extracted)
    ensures r.attempts == s.attempts
    ensures !s.outcome.Returned? ==> r.outcome == s.outcome && r.statusCalls == 0
    ensures s.outcome.Returned? && !PollsAfter(rule, wait, pollingInterval, s.outcome.value.status)
            ==> r.outcome == s.outcome && r.statusCalls == 0
    ensures s.outcome.Returned? && PollsAfter(rule, wait, pollingInterval, s.outcome.value.status)
            ==> Polled(r.outcome, r.statusCalls)
                == WaitedFor(sleep, pollingInterval, Fetches(getDocument, getRetries, polls), clock, wait)
  {
    if s.outcome.Returned? && PollsAfter(rule, wait, pollingInterval, s.outcome.value.status) then
      var w := WaitedFor(sleep, pollingInterval, Fetches(getDocument, getRetries, polls), clock, wait);
      Extracted(w.outcome, s.attempts, w.calls)
    else Extracted(s.outcome, s.attempts, 0)
  }

  /** The decision as the clients run it. */
  method SettleSubmission(rule: PollRule, sleep: Sleep, submitted: Outcome<ExtractResponse>, attempts: nat,
                          wait: int, pollingInterval: int, getDocument: Policy, getRetries: int,
                          polls: seq<seq<Attempt<ExtractResponse>>>, clock: seq<int>)
    returns (r: Outcome<ExtractResponse>, statusCalls: nat)
    ensures Extracted(r, attempts, statusCalls)
            == Settle(rule, sleep, Submission(submitted, attempts), wait, pollingInterval, getDocument, getRetries, polls, clock)
  {
    if !submitted.Returned? {
      return submitted, 0;
    }
    if wait == 0 {
      return submitted, 0;
    }
    var polled := match rule
                  case IntervalPositive => pollingInterval > 0
                  case IntervalNonzero => pollingInterval != 0;
    if submitted.value.status.IsFinal() || !polled {
      return submitted, 0;
    }
    r, statusCalls := WaitFor(sleep, getDocument, getRetries, wait, pollingInterval, polls, clock);
  }

  /** `wait == 0` returns the submission response, whatever its status, and
      fetches no status. */
  lemma WaitZeroSkipsPolling(rule: PollRule, sleep: Sleep, s: Submission, pollingInterval: int,
                             getDocument: Policy, getRetries: int,
                             polls: seq<seq<Attempt<ExtractResponse>>>, clock: seq<int>)
    ensures Settle(rule, sleep, s, 0, pollingInterval, getDocument, getRetries, polls, clock)
            == Extracted(s.outcome, s.attempts, 0)
  {
  }

  /** A submission that is already completed or failed is returned unpolled. */
  lemma FinalSubmissionSkipsPolling(rule: PollRule, sleep: Sleep, resp: ExtractResponse, attempts: nat, wait: int,
                                    pollingInterval: int, getDocument: Policy, getRetries: int,
                                    polls: seq<seq<Attempt<ExtractResponse>>>, clock: seq<int>)
    requires resp.status.IsFinal()
    ensures Settle(rule, sleep, Submission(Returned(resp), attempts), wait, pollingInterval, getDocument, getRetries, polls, clock)
            == Extracted(Returned(resp), attempts, 0)
  {
  }

  /** Polling happens only after a successful, pending submission that the rule
      lets through, and then it makes at least one status fetch unless the
      environment trace ends first. */
  lemma PollingNeedsPendingSubmission(rule: PollRule, sleep: Sleep, s: Submission, wait: int, pollingInterval: int,
                                      getDocument: Policy, getRetries: int,
                                      polls: seq<seq<Attempt<ExtractResponse>>>, clock: seq<int>)
    ensures var x := Settle(rule, sleep, s, wait, pollingInterval, getDocument, getRetries, polls, clock);
            x.statusCalls > 0 ==> s.outcome.Returned? && PollsAfter(rule, wait, pollingInterval, s.outcome.value.status)
    ensures var x := Settle(rule, sleep, s, wait, pollingInterval, getDocument, getRetries, polls, clock);
            s.outcome.Returned? && PollsAfter(rule, wait, pollingInterval, s.outcome.value.status) && !x.outcome.Stalled?
            ==> x.statusCalls >= 1
    ensures Settle(rule, sleep, s, wait, pollingInterval, getDocument, getRetries, polls, clock).attempts == s.attempts
  {
  }

  /** With polling switched off (interval not positive) and a positive wait, the
      server is asked to hold the submission for the whole wait, the session
      timeout exceeds it, and no status is fetched afterwards. */
  lemma LongPollWithoutPolling(sleep: Sleep, s: Submission, wait: int, pollingInterval: int,
                               getDocument: Policy, getRetries: int,
                               polls: seq<seq<Attempt<ExtractResponse>>>, clock: seq<int>)
    requires wait > 0 && pollingInterval <= 0
    ensures InitialWait(wait, pollingInterval) == wait
    ensures SessionTimeout(wait) == Some(wait + 1)
    ensures Settle(IntervalPositive, sleep, s, wait, pollingInterval, getDocument, getRetries, polls, clock)
            == Extracted(s.outcome, s.attempts, 0)
  {
  }

  /** Under the positive-interval rule the kind of sleep does not matter:
      polling starts only with a positive interval, which no sleep rejects. */
  lemma PositiveRuleSleepsSafely(s: Submission, wait: int, pollingInterval: int,
                                 getDocument: Policy, getRetries: int,
                                 polls: seq<seq<Attempt<ExtractResponse>>>, clock: seq<int>)
    ensures Settle(IntervalPositive, Blocking, s, wait, pollingInterval, getDocument, getRetries, polls, clock)
            == Settle(IntervalPositive, Cooperative, s, wait, pollingInterval, getDocument, getRetries, polls, clock)
  {
  }

  /** The two rules differ exactly on a negative polling interval: the
      non-zero rule still polls there. */
  lemma RulesDifferOnNegativeInterval(wait: int, pollingInterval: int, status: TaskStatus)
    ensures PollsAfter(IntervalPositive, wait, pollingInterval, status)
            != PollsAfter(IntervalNonzero, wait, pollingInterval, status)
            <==> wait != 0 && !status.IsFinal() && pollingInterval < 0
  {
  }
}
