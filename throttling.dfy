/** The throttling retry of `rawQueryServer` and its entry point
    `queryServer` (`dynamodb.go`).

    `rawQueryServer` calls itself after each throttling error, so one call may
    send many requests. `Attempts` counts them, `ThrottleRun` states in closed
    form what the whole call yields, and the method, which writes the
    self-call as a loop, is proved to yield exactly that. */
module Throttling {
  import opened Wrappers
  import opened Json
  import opened Transport

  /** Whether a result is the throttling error that this tier retries. */
  predicate Throttled(r: Result<Body, Failure>) {
    r.Err? && r.error.Service? && r.error.err.code == ProvisionedThroughputExceeded
  }

  /** Which scripted replies are throttling errors, position by position. */
  function ThrottleFlags(replies: seq<Exchange>): (flags: seq<bool>)
    ensures |flags| == |replies|
  {
    if replies == [] then [] else [Throttled(Outcome(replies[0]))] + ThrottleFlags(replies[1..])
  }

  lemma {:induction false} ThrottleFlagsAt(replies: seq<Exchange>, i: nat)
    requires i < |replies|
    ensures ThrottleFlags(replies)[i] == Throttled(Outcome(replies[i]))
  {
    if i > 0 {
      ThrottleFlagsAt(replies[1..], i - 1);
    }
  }

  /** The number of requests one call sends, starting with counter `count`,
      given which replies are throttling errors: it sends again after every
      throttling error met with a non-negative counter. Past the end of the
      script the service answers with a transport failure, which ends the
      call. */
  function Attempts(flags: seq<bool>, count: int): (k: nat)
    ensures 1 <= k <= |flags| + 1
    ensures count < 0 ==> k == 1
    decreases |flags|
  {
    if flags != [] && count >= 0 && flags[0] then 1 + Attempts(flags[1..], count + 1) else 1
  }

  /** Every reply before the last one consumed was a throttling error met
      with a non-negative counter. */
  lemma {:induction false} AttemptsRetriedBefore(flags: seq<bool>, count: int, i: nat)
    requires i < Attempts(flags, count) - 1
    ensures i < |flags| && flags[i] && count + i >= 0
    decreases i
  {
    if i > 0 {
      AttemptsRetriedBefore(flags[1..], count + 1, i - 1);
    }
  }

  /** The last reply consumed, when the script had one, is answered rather
      than retried: it is no throttling error, or the counter was negative. */
  lemma {:induction false} AttemptsStopAtAnswer(flags: seq<bool>, count: int)
    ensures var k := Attempts(flags, count); k - 1 < |flags| ==> !flags[k - 1] || count + k - 1 < 0
    decreases |flags|
  {
    if flags != [] && count >= 0 && flags[0] {
      AttemptsStopAtAnswer(flags[1..], count + 1);
    }
  }

  /** Conversely, `j` retried replies followed by one that is answered (or
      by the end of the script) make `j + 1` requests. */
  lemma {:induction false} AttemptsExact(flags: seq<bool>, count: int, j: nat)
    requires j <= |flags|
    requires forall i :: 0 <= i < j ==> flags[i] && count + i >= 0
    requires j < |flags| ==> !flags[j] || count + j < 0
    ensures Attempts(flags, count) == j + 1
    decreases j
  {
    if j > 0 {
      assert flags[0] && count >= 0;
      AttemptsExact(flags[1..], count + 1, j - 1);
    }
  }

  /** `n` copies of one request. */
  function Repeat(req: Request, n: nat): (s: seq<Request>)
    ensures |s| == n && forall i :: 0 <= i < n ==> s[i] == req
  {
    seq(n, _ => req)
  }

  /** The sleeps of `n` throttling retries after counter value `count`:
      `count + 1`, `count + 2`, ... seconds, one second more each time and
      with no upper bound. */
  function ThrottleSleeps(count: int, n: nat): (w: seq<Wait>)
    ensures |w| == n
    ensures forall i :: 0 <= i < n ==> w[i] == ThrottleSleep(count + 1 + i)
  {
    seq(n, i requires 0 <= i < n => ThrottleSleep(count + 1 + i))
  }

  /** The environment after `j` retried requests and their sleeps. */
  function Retried(env: Env, req: Request, retryCount: int, j: nat): Env {
    Env(Drop(env.replies, j), env.sent + Repeat(req, j), env.waits + ThrottleSleeps(retryCount, j))
  }

  lemma RetriedOneMore(env: Env, req: Request, retryCount: int, j: nat, count: int)
    requires j < |env.replies| && count == retryCount + j + 1
    ensures Slept(Sent(Retried(env, req, retryCount, j), req), ThrottleSleep(count))
         == Retried(env, req, retryCount, j + 1)
  {
    assert env.replies[j..][1..] == env.replies[j + 1..];
    assert Repeat(req, j) + [req] == Repeat(req, j + 1);
    assert ThrottleSleeps(retryCount, j) + [ThrottleSleep(count)] == ThrottleSleeps(retryCount, j + 1);
  }

  /** What one `rawQueryServer` call yields: with k = `Attempts` over the
      scripted replies, the request is sent k times, the first k replies are
      consumed, the sleeps are `retryCount + 1` ... `retryCount + k - 1`
      seconds, and the result is the outcome of the k-th reply. */
  function ThrottleRun(env: Env, req: Request, retryCount: int): Run<Body> {
    var k := Attempts(ThrottleFlags(env.replies), retryCount);
    Run(Outcome(ReplyAt(env.replies, k - 1)), Sent(Retried(env, req, retryCount, k - 1), req))
  }

  /** Position `i` of the script yields a throttling error exactly when it
      is flagged; past the end of the script nothing is throttled. */
  lemma ThrottledAt(replies: seq<Exchange>, i: nat)
    ensures Throttled(Outcome(ReplyAt(replies, i))) == (i < |replies| && ThrottleFlags(replies)[i])
  {
    if i < |replies| {
      ThrottleFlagsAt(replies, i);
    } else {
      assert Outcome(ReplyAt(replies, i)) == Err(SendFailed("no reply"));
    }
  }

  /** The result of a call is the outcome of the last reply it consumed. */
  lemma ThrottleRunResult(env: Env, req: Request, retryCount: int)
    ensures ThrottleRun(env, req, retryCount).result
         == Outcome(ReplyAt(env.replies, Attempts(ThrottleFlags(env.replies), retryCount) - 1))
  {
  }

  /** With a non-negative counter the last reply consumed is not flagged. */
  lemma LastReplyNotFlagged(replies: seq<Exchange>, retryCount: int)
    requires retryCount >= 0
    ensures !(Attempts(ThrottleFlags(replies), retryCount) - 1 < |replies| &&
              ThrottleFlags(replies)[Attempts(ThrottleFlags(replies), retryCount) - 1])
  {
    AttemptsStopAtAnswer(ThrottleFlags(replies), retryCount);
  }

  /** With a non-negative starting counter the throttling error never
      reaches the caller: the call keeps retrying until some other answer. */
  lemma ThrottleAbsorbed(env: Env, req: Request, retryCount: int)
    requires retryCount >= 0
    ensures !Throttled(ThrottleRun(env, req, retryCount).result)
  {
    ThrottleRunResult(env, req, retryCount);
    LastReplyNotFlagged(env.replies, retryCount);
    ThrottledAt(env.replies, Attempts(ThrottleFlags(env.replies), retryCount) - 1);
  }

  /** A negative counter disables the retry: one request, one reply, no
      sleep. */
  lemma ThrottleDisabled(env: Env, req: Request, retryCount: int)
    requires retryCount < 0
    ensures ThrottleRun(env, req, retryCount) == Run(Outcome(ReplyAt(env.replies, 0)), Sent(env, req))
  {
    assert env.sent + Repeat(req, 0) == env.sent;
    assert env.waits + ThrottleSleeps(retryCount, 0) == env.waits;
  }

  /** Only throttling errors are retried: every reply consumed before the
      last one was a throttling error, met with a non-negative counter. */
  lemma ThrottleRetriesOnlyThrottling(env: Env, req: Request, retryCount: int, i: nat)
    requires i < Attempts(ThrottleFlags(env.replies), retryCount) - 1
    ensures i < |env.replies| && retryCount >= 0 && Throttled(Outcome(env.replies[i]))
  {
    AttemptsRetriedBefore(ThrottleFlags(env.replies), retryCount, i);
    ThrottleFlagsAt(env.replies, i);
  }

  lemma ThrottleExit(env: Env, req: Request, retryCount: int, j: nat)
    requires Attempts(ThrottleFlags(env.replies), retryCount) == j + 1
    ensures ThrottleRun(env, req, retryCount) == Run(Outcome(ReplyAt(env.replies, j)), Sent(Retried(env, req, retryCount, j), req))
  {
  }

  /** One request of `rawQueryServer` and its retry test: send; a transport
      failure is passed on, a 200 reply yields its body, any other reply the
      error built from it, and the call retries on a throttling error while
      the counter is non-negative. The replies still to come are the scripted
      `replies` from position `j` on. */
  method ExchangeOnce(env: Env, req: Request, count: int, ghost replies: seq<Exchange>, ghost j: nat)
    returns (retry: bool, r: Result<Body, Failure>, env': Env)
    requires j <= |replies| && env.replies == replies[j..]
    ensures env' == Sent(env, req)
    ensures r == Outcome(ReplyAt(replies, j))
    ensures retry == (count >= 0 && j < |replies| && ThrottleFlags(replies)[j])
  {
    var x := ReplyAt(env.replies, 0);
    env' := Sent(env, req);
    retry := false;
    if j < |replies| {
      ThrottleFlagsAt(replies, j);
    }
    match x {
      case TransportFailure(reason) =>
        r := Err(SendFailed(reason));
      case Reply(statusCode, status, body) =>
        if statusCode != 200 {
          var ddbErr := BuildError(statusCode, status, body);
          retry := ddbErr.code == ProvisionedThroughputExceeded && count >= 0;
          r := Err(Service(ddbErr));
        } else {
          r := Ok(body);
        }
    }
  }

  /** `rawQueryServer`: the self-call after a throttling error (counter
      bumped, then a sleep of that many seconds) is written as a loop. */
  method RawQueryServer(env: Env, target: string, query: string, retryCount: int)
    returns (r: Result<Body, Failure>, env': Env)
    ensures Run(r, env') == ThrottleRun(env, Request(target, query), retryCount)
  {
    var req := Request(target, query);
    var count := retryCount;
    ghost var j: nat := 0;
    ghost var flags := ThrottleFlags(env.replies);
    env' := env;
    while true
      invariant j <= |env.replies| && count == retryCount + j
      invariant env' == Retried(env, req, retryCount, j)
      invariant forall i :: 0 <= i < j ==> flags[i] && retryCount + i >= 0
      decreases |env.replies| - j
    {
      var retry;
      retry, r, env' := ExchangeOnce(env', req, count, env.replies, j);
      if retry {
        count := count + 1;
        RetriedOneMore(env, req, retryCount, j, count);
        env' := Slept(env', ThrottleSleep(count));
        j := j + 1;
        continue;
      }
      AttemptsExact(flags, retryCount, j);
      ThrottleExit(env, req, retryCount, j);
      return;
    }
  }

  /** `queryServer`: the throttle counter always starts at 0. The call sites
      pass an `isRetry` flag that the declared function does not take; it has
      no effect here. */
  method QueryServer(env: Env, target: string, query: string, isRetry: bool)
    returns (r: Result<Body, Failure>, env': Env)
    ensures Run(r, env') == ThrottleRun(env, Request(target, query), 0)
    ensures !Throttled(r)
  {
    r, env' := RawQueryServer(env, target, query, 0);
    ThrottleAbsorbed(env, Request(target, query), 0);
  }
}
