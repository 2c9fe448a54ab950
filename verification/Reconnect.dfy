/** server/conn.go: how long RunForever waits between connections.  Durations are in nanoseconds. */
module Reconnect {
  import opened Basics

  const NORMAL_MIN := 1 * SECOND
  const NORMAL_MAX := 300 * SECOND
  const AUTH_MIN := 60 * SECOND
  const AUTH_MAX := 1800 * SECOND

  /** Why a connection ended.  Run gives Reconnect(true) for a lost live connection. */
  datatype ConnError =
    | NoError
    | Disconnected(retryAfterSec: int)
    | AuthFailed
    | Reconnect(resetBackoff: bool)
    | Plain

  function ClampBackoff(d: int, min: int, max: int): int {
    if d < min then min else if d > max then max else d
  }

  /** The wait and the next backoff. */
  function NextReconnectState(err: ConnError, backoff: int): (int, int) {
    match err
    case NoError => (0, backoff)
    case Disconnected(retryAfterSec) =>
      var wait := retryAfterSec * SECOND;
      (if wait < NORMAL_MIN then NORMAL_MIN else wait, NORMAL_MIN)
    case AuthFailed =>
      var b := if backoff < AUTH_MIN then AUTH_MIN else backoff;
      (b, ClampBackoff(b * 2, AUTH_MIN, AUTH_MAX))
    case _ =>
      var b := if err == Reconnect(true) then NORMAL_MIN else backoff;
      (b, ClampBackoff(b * 2, NORMAL_MIN, NORMAL_MAX))
  }

  function BackoffAfter(errs: seq<ConnError>): int {
    if errs == [] then NORMAL_MIN
    else NextReconnectState(errs[|errs| - 1], BackoffAfter(errs[..|errs| - 1])).1
  }

  /** The wait behind the last of these errors. */
  function WaitAfter(errs: seq<ConnError>): int
    requires errs != []
  {
    NextReconnectState(errs[|errs| - 1], BackoffAfter(errs[..|errs| - 1])).0
  }

  lemma {:induction false} AfterMore(errs: seq<ConnError>, err: ConnError)
    ensures (WaitAfter(errs + [err]), BackoffAfter(errs + [err])) == NextReconnectState(err, BackoffAfter(errs))
  {
    assert (errs + [err])[..|errs|] == errs;
  }

  lemma {:induction false} BackoffInRange(errs: seq<ConnError>)
    ensures 1_000_000_000 <= BackoffAfter(errs) <= 1_800_000_000_000
  {
    if errs != [] {
      BackoffInRange(errs[..|errs| - 1]);
    }
  }

  function Pow2(k: nat): nat {
    if k == 0 then 1 else 2 * Pow2(k - 1)
  }

  function Min(a: int, b: int): int {
    if a < b then a else b
  }

  function Repeat(err: ConnError, k: nat): seq<ConnError> {
    if k == 0 then [] else Repeat(err, k - 1) + [err]
  }

  /** Whatever came before, the k-th plain failure after a lost live connection waits
      min(2^k * NORMAL_MIN, NORMAL_MAX), and the loss itself (k = 0) NORMAL_MIN. */
  lemma {:induction false} PlainFailuresDouble(before: seq<ConnError>, k: nat)
    ensures var errs := before + [Reconnect(true)] + Repeat(Plain, k);
            && WaitAfter(errs) == Min(Pow2(k) * 1_000_000_000, 300_000_000_000)
            && BackoffAfter(errs) == Min(Pow2(k + 1) * 1_000_000_000, 300_000_000_000)
  {
    var lost := before + [Reconnect(true)];
    if k == 0 {
      AfterMore(before, Reconnect(true));
      assert lost + [] == lost;
    } else {
      PlainFailuresDouble(before, k - 1);
      AfterMore(lost + Repeat(Plain, k - 1), Plain);
      assert lost + Repeat(Plain, k) == lost + Repeat(Plain, k - 1) + [Plain];
    }
  }

  /** From the start, an auth failure with k auth failures before it waits
      min(2^k * AUTH_MIN, AUTH_MAX). */
  lemma {:induction false} AuthFailuresDouble(k: nat)
    ensures WaitAfter(Repeat(AuthFailed, k + 1)) == Min(Pow2(k) * 60_000_000_000, 1_800_000_000_000)
    ensures BackoffAfter(Repeat(AuthFailed, k + 1)) == Min(Pow2(k + 1) * 60_000_000_000, 1_800_000_000_000)
  {
    AfterMore(Repeat(AuthFailed, k), AuthFailed);
    if k > 0 {
      AuthFailuresDouble(k - 1);
      Pow2Positive(k);
    }
  }

  lemma {:induction false} Pow2Positive(k: nat)
    ensures Pow2(k) >= 1
  {
    if k > 0 {
      Pow2Positive(k - 1);
    }
  }

  /** Over real errors a plain failure waits longer than NORMAL_MAX only directly after an auth
      failure. */
  lemma {:induction false} LongPlainWaitFollowsAuth(errs: seq<ConnError>)
    requires NoError !in errs
    ensures WaitAfter(errs + [Plain]) > 300_000_000_000 ==> errs != [] && errs[|errs| - 1] == AuthFailed
  {
    AfterMore(errs, Plain);
  }

  /** ... and a server-requested disconnect or a lost live connection forgets every backoff. */
  lemma {:induction false} BackoffIsForgotten(errs: seq<ConnError>, err: ConnError)
    requires err.Disconnected? || err == Reconnect(true)
    ensures BackoffAfter(errs + [err]) == BackoffAfter([err])
    ensures WaitAfter(errs + [err]) == WaitAfter([err])
  {
    AfterMore(errs, err);
    AfterMore([], err);
    assert [] + [err] == [err];
  }

  /** One error behind any others: a disconnect the server asked for waits as long as it said,
      but at least a second; no error waits for nothing; every other error waits for the backoff
      as it stands. */
  lemma {:induction false} RequestedWait(errs: seq<ConnError>, n: int)
    ensures WaitAfter(errs + [Disconnected(n)]) == if n < 1 then 1_000_000_000 else n * 1_000_000_000
    ensures BackoffAfter(errs + [Disconnected(n)]) == 1_000_000_000
    ensures WaitAfter(errs + [NoError]) == 0 && BackoffAfter(errs + [NoError]) == BackoffAfter(errs)
    ensures (WaitAfter(errs + [Reconnect(false)]), BackoffAfter(errs + [Reconnect(false)])) ==
            (WaitAfter(errs + [Plain]), BackoffAfter(errs + [Plain]))
    ensures WaitAfter(errs + [Plain]) == BackoffAfter(errs)
  {
    AfterMore(errs, Disconnected(n));
    AfterMore(errs, NoError);
    AfterMore(errs, Reconnect(false));
    AfterMore(errs, Plain);
  }

  /** The loop; the list of errors ends where the context is cancelled. */
  method RunForever(errs: seq<ConnError>) returns (waits: seq<int>)
    ensures |waits| == |errs|
    ensures forall i | 0 <= i < |errs| :: waits[i] == WaitAfter(errs[..i + 1])
  {
    waits := [];
    var backoff := NORMAL_MIN;
    for i := 0 to |errs|
      invariant backoff == BackoffAfter(errs[..i])
      invariant |waits| == i && forall j | 0 <= j < i :: waits[j] == WaitAfter(errs[..j + 1])
    {
      assert errs[..i + 1][..i] == errs[..i];
      var (wait, nextBackoff) := NextReconnectState(errs[i], backoff);
      waits := waits + [wait];
      backoff := nextBackoff;
    }
  }
}
