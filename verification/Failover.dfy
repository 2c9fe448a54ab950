/** diagnose/aiclient/retry.go and failover.go: one AI request over several models with retries. */
module Failover {
  import opened Basics

  /** What can be told apart in an error.  An APIError is always the innermost error, so no error
      is both an APIError and a cancellation. */
  datatype Error = Api(status: int) | Canceled | Network | Configuration

  datatype Response = Response(id: string)

  /** One attempt: the wait before it may be cut short by the context, then the call ends. */
  datatype Attempt = Attempt(aborted: Option<Error>, outcome: Result)

  datatype Result = Answer(response: Response) | NoAnswer | Failure(error: Error)

  predicate IsRetryable(err: Error) {
    match err
    case Api(status) => status in {429, 500, 502, 503, 504}
    case Canceled => false
    case Network | Configuration => true
  }

  predicate ShouldFailover(err: Error) {
    match err
    case Canceled => false
    case Api(status) => status >= 500 || status == 429
    case Network | Configuration => true
  }

  /** An error that is worth a retry is worth another model. */
  lemma {:induction false} RetryableFailsOver(err: Error)
    ensures IsRetryable(err) ==> ShouldFailover(err)
    ensures ShouldFailover(err) && !IsRetryable(err) <==>
            err.Api? && err.status >= 500 && err.status !in {500, 502, 503, 504}
  {}

  // ----- ChatWithRetry -----

  /** The attempts from a on: how they end, and how many calls are made. */
  function Retry(env: nat -> Attempt, maxRetries: int, a: nat, lastErr: Option<Error>): (Result, nat)
    decreases maxRetries - a
  {
    if a > maxRetries then (if lastErr.Some? then Failure(lastErr.value) else NoAnswer, 0)
    else if a > 0 && env(a).aborted.Some? then (Failure(env(a).aborted.value), 0)
    else
      var outcome := env(a).outcome;
      if outcome.Failure? && IsRetryable(outcome.error) then
        var (r, calls) := Retry(env, maxRetries, a + 1, Some(outcome.error));
        (r, calls + 1)
      else (outcome, 1)
  }

  method ChatWithRetry(env: nat -> Attempt, maxRetries: int) returns (result: Result, calls: nat)
    ensures (result, calls) == Retry(env, maxRetries, 0, None)
    ensures Attempts(env, maxRetries, result, calls)
  {
    RetryIsAttempts(env, maxRetries);
    var lastErr: Option<Error> := None;
    calls := 0;
    var attempt := 0;
    while attempt <= maxRetries
      invariant attempt >= 0
      invariant var (r, n) := Retry(env, maxRetries, attempt, lastErr);
                Retry(env, maxRetries, 0, None) == (r, calls + n)
    {
      if attempt > 0 && env(attempt).aborted.Some? {
        return Failure(env(attempt).aborted.value), calls;
      }
      var outcome := env(attempt).outcome;
      calls := calls + 1;
      if !outcome.Failure? {
        return outcome, calls;
      }
      if !IsRetryable(outcome.error) {
        return outcome, calls;
      }
      lastErr := Some(outcome.error);
      attempt := attempt + 1;
    }
    return if lastErr.Some? then Failure(lastErr.value) else NoAnswer, calls;
  }

  lemma {:induction false} RetryBounded(env: nat -> Attempt, maxRetries: int, a: nat, lastErr: Option<Error>)
    requires a <= maxRetries
    ensures Retry(env, maxRetries, a, lastErr).1 <= maxRetries - a + 1
    ensures a == 0 ==> Retry(env, maxRetries, a, lastErr).1 >= 1
    decreases maxRetries - a
  {
    if a < maxRetries && env(a).outcome.Failure? {
      RetryBounded(env, maxRetries, a + 1, Some(env(a).outcome.error));
    }
  }

  /** When every attempt ends in a retryable error, all of them are made and the next model is due. */
  lemma {:induction false} ExhaustedMovesOn(env: nat -> Attempt, maxRetries: int, a: nat, lastErr: Option<Error>)
    requires a <= maxRetries
    requires forall i | a <= i <= maxRetries ::
               env(i).aborted.None? && env(i).outcome.Failure? && IsRetryable(env(i).outcome.error)
    ensures var (r, calls) := Retry(env, maxRetries, a, lastErr);
            calls == maxRetries - a + 1 && r == env(maxRetries).outcome && ShouldFailover(r.error)
    decreases maxRetries - a
  {
    if a < maxRetries {
      ExhaustedMovesOn(env, maxRetries, a + 1, Some(env(a).outcome.error));
    }
  }

  /** The attempt ends in an error that is tried again. */
  predicate GoesOn(a: Attempt) {
    a.outcome.Failure? &&
    match a.outcome.error
    case Api(status) => status == 429 || status == 500 || status == 502 || status == 503 || status == 504
    case Canceled => false
    case Network | Configuration => true
  }

  /** Attempts are made one after the other while they end in errors that are tried again and
      the wait before the next is not cut short; the last attempt decides, or the context. */
  ghost predicate Attempts(env: nat -> Attempt, maxRetries: int, result: Result, calls: nat) {
    if maxRetries < 0 then result == NoAnswer && calls == 0
    else
      && 1 <= calls <= maxRetries + 1
      && (forall i: nat | i < calls - 1 :: GoesOn(env(i)))
      && (forall i: nat | 0 < i < calls :: env(i).aborted.None?)
      && if GoesOn(env(calls - 1)) && calls <= maxRetries
         then env(calls).aborted.Some? && result == Failure(env(calls).aborted.value)
         else result == env(calls - 1).outcome
  }

  lemma {:induction false} RetryAttempts(env: nat -> Attempt, maxRetries: nat, a: nat, lastErr: Option<Error>)
    requires a <= maxRetries
    requires forall i: nat | i < a :: GoesOn(env(i))
    requires forall i: nat | 0 < i < a :: env(i).aborted.None?
    requires a > 0 ==> lastErr.Some? && env(a - 1).outcome == Failure(lastErr.value)
    ensures var (r, n) := Retry(env, maxRetries, a, lastErr); Attempts(env, maxRetries, r, a + n)
    decreases maxRetries - a
  {
    if !(a > 0 && env(a).aborted.Some?) && GoesOn(env(a)) && a < maxRetries {
      RetryAttempts(env, maxRetries, a + 1, Some(env(a).outcome.error));
    }
  }

  lemma {:induction false} RetryIsAttempts(env: nat -> Attempt, maxRetries: int)
    ensures var (r, n) := Retry(env, maxRetries, 0, None); Attempts(env, maxRetries, r, n)
  {
    if maxRetries >= 0 {
      RetryAttempts(env, maxRetries, 0, None);
    }
  }

  /** An error for which the next model is asked. */
  predicate Eligible(err: Error) {
    match err
    case Api(status) => status == 429 || status >= 500
    case Canceled => false
    case Network | Configuration => true
  }

  // ----- FailoverClient.Chat without a pinned model -----

  datatype Reply = Reply(result: Result, name: string)

  /** How the model at position i answers. */
  function ModelResult(env: nat -> nat -> Attempt, maxRetries: int, i: nat): Result {
    Retry(env(i), maxRetries, 0, None).0
  }

  predicate MovesOn(env: nat -> nat -> Attempt, maxRetries: int, i: nat) {
    var r := ModelResult(env, maxRetries, i);
    r.Failure? && Eligible(r.error)
  }

  function Times(k: nat, i: nat): seq<nat> {
    seq(k, _ => i)
  }

  /** The calls made to the models before position n, by position. */
  function CallsTo(env: nat -> nat -> Attempt, maxRetries: int, n: nat): seq<nat> {
    if n == 0 then []
    else CallsTo(env, maxRetries, n - 1) + Times(Retry(env(n - 1), maxRetries, 0, None).1, n - 1)
  }

  /** Models are tried in priority order; none is tried behind the first that answers or fails
      for good, and that one is named; only when all fail over is no model named. */
  ghost predicate ByPriority(priority: seq<string>, env: nat -> nat -> Attempt, maxRetries: int,
                             reply: Reply, tried: nat, calls: seq<nat>)
  {
    && 1 <= tried <= |priority|
    && (forall i | 0 <= i < tried - 1 :: MovesOn(env, maxRetries, i))
    && reply.result == ModelResult(env, maxRetries, tried - 1)
    && (if MovesOn(env, maxRetries, tried - 1) then tried == |priority| && reply.name == ""
        else reply.name == priority[tried - 1])
    && calls == CallsTo(env, maxRetries, tried)
  }

  method ChatByPriority(priority: seq<string>, env: nat -> nat -> Attempt, maxRetries: int)
    returns (reply: Reply, tried: nat, calls: seq<nat>)
    requires priority != []
    ensures ByPriority(priority, env, maxRetries, reply, tried, calls)
  {
    calls := [];
    var lastErr := Network;
    for i := 0 to |priority|
      invariant forall j | 0 <= j < i :: MovesOn(env, maxRetries, j)
      invariant i > 0 ==> Failure(lastErr) == ModelResult(env, maxRetries, i - 1)
      invariant calls == CallsTo(env, maxRetries, i)
    {
      var result, n := ChatWithRetry(env(i), maxRetries);
      assert result == ModelResult(env, maxRetries, i) && CallsTo(env, maxRetries, i + 1) == calls + Times(n, i);
      calls := calls + Times(n, i);
      if !result.Failure? {
        return Reply(result, priority[i]), i + 1, calls;
      }
      if !ShouldFailover(result.error) {
        return Reply(result, priority[i]), i + 1, calls;
      }
      lastErr := result.error;
    }
    return Reply(Failure(lastErr), ""), |priority|, calls;
  }

  /** The models called, in order, when each of n models gets between 1 and most calls. */
  ghost predicate InTurn(calls: seq<nat>, n: nat, most: nat) {
    && |calls| <= n * most
    && (forall i, j | 0 <= i < j < |calls| :: calls[i] <= calls[j])
    && (forall i | 0 <= i < |calls| :: calls[i] < n)
    && (forall m | 0 <= m < n :: 1 <= Count(calls, m) <= most)
    && (forall m | m >= n :: Count(calls, m) == 0)
  }

  /** The calls go through the models in order, each model gets between one and
      maxRetries + 1 of them, and all together at most n * (maxRetries + 1). */
  lemma {:induction false} CallsAreOrderedAndBounded(env: nat -> nat -> Attempt, maxRetries: nat, n: nat)
    ensures InTurn(CallsTo(env, maxRetries, n), n, maxRetries + 1)
  {
    if n > 0 {
      CallsAreOrderedAndBounded(env, maxRetries, n - 1);
      RetryBounded(env(n - 1), maxRetries, 0, None);
      var before := CallsTo(env, maxRetries, n - 1);
      OneMoreModel(before, n - 1, maxRetries + 1, Retry(env(n - 1), maxRetries, 0, None).1);
    }
  }

  lemma {:induction false} OneMoreModel(before: seq<nat>, n: nat, most: nat, k: nat)
    requires InTurn(before, n, most) && 1 <= k <= most
    ensures InTurn(before + Times(k, n), n + 1, most)
  {
    var calls := before + Times(k, n);
    assert forall i | 0 <= i < |calls| :: calls[i] == if i < |before| then before[i] else n;
    forall m: nat ensures Count(calls, m) == Count(before, m) + if m == n then k else 0 {
      CountMore(before, n, k, m);
    }
    assert (n + 1) * most == n * most + most;
  }

  function Count(calls: seq<nat>, m: nat): nat {
    if calls == [] then 0
    else Count(calls[..|calls| - 1], m) + if calls[|calls| - 1] == m then 1 else 0
  }

  lemma {:induction false} CountMore(calls: seq<nat>, x: nat, k: nat, m: nat)
    ensures Count(calls + Times(k, x), m) == Count(calls, m) + if m == x then k else 0
    decreases k
  {
    var all := calls + Times(k, x);
    if k == 0 {
      assert all == calls;
    } else {
      assert all[..|all| - 1] == calls + Times(k - 1, x);
      CountMore(calls, x, k - 1, m);
    }
  }

  // ----- the client object -----

  class FailoverClient {
    const priority: seq<string>
    const clients: set<string>
    const maxRetries: int
    var pinned: string

    constructor (priority: seq<string>, clients: set<string>, maxRetries: int)
      ensures this.priority == priority && this.clients == clients && this.maxRetries == maxRetries && pinned == ""
    {
      this.priority, this.clients, this.maxRetries, pinned := priority, clients, maxRetries, "";
    }

    method PinModel(name: string) returns (ok: bool)
      modifies this
      ensures ok == (name == "" || name in clients)
      ensures pinned == if ok then name else old(pinned)
    {
      if name != "" {
        if name !in clients {
          return false;
        }
      }
      pinned := name;
      return true;
    }

    /** A pinned model is the only one asked, and there is no failover.  Configuration errors
        stand for the errors about missing clients. */
    method Chat(env: nat -> nat -> Attempt, pinnedEnv: nat -> Attempt)
      returns (reply: Reply, tried: nat, calls: seq<nat>, pinnedCalls: nat)
      ensures priority == [] ==> reply == Reply(Failure(Configuration), "") && calls == [] && pinnedCalls == 0
      ensures priority != [] && pinned != "" ==>
                && calls == []
                && if pinned in clients
                   then (reply.result, pinnedCalls) == Retry(pinnedEnv, maxRetries, 0, None) && reply.name == pinned
                   else reply == Reply(Failure(Configuration), pinned) && pinnedCalls == 0
      ensures priority != [] && pinned == "" ==>
                ByPriority(priority, env, maxRetries, reply, tried, calls) && pinnedCalls == 0
    {
      tried, calls, pinnedCalls := 0, [], 0;
      if |priority| == 0 {
        reply := Reply(Failure(Configuration), "");
        return;
      }
      if pinned != "" {
        if pinned !in clients {
          reply := Reply(Failure(Configuration), pinned);
          return;
        }
        var result, n := ChatWithRetry(pinnedEnv, maxRetries);
        reply, pinnedCalls := Reply(result, pinned), n;
        return;
      }
      reply, tried, calls := ChatByPriority(priority, env, maxRetries);
    }
  }
}
