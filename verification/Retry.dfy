/** Retrying with exponential backoff and a pinned idempotency token
    (internal/services/common/retry.go). Durations are integers, in nanoseconds. */
module Retry {
  datatype RetryConfig = RetryConfig(maxAttempts: int, initialBackoff: int, maxBackoff: int, multiplier: real)

  const MILLISECOND := 1_000_000

  const DEFAULT_CONFIG := RetryConfig(5, 200 * MILLISECOND, 5000 * MILLISECOND, 2.0)

  // ---- which errors are transient ----

  datatype Error = ContextError | ApiError(code: string, serverFault: bool) | TransportError(message: string)

  const RETRYABLE_CODES := {
    "ThrottlingException", "Throttling", "TooManyRequestsException", "RequestLimitExceeded", "RequestThrottled",
    "RequestThrottledException", "SlowDown", "PriorRequestNotComplete", "ServiceUnavailableException",
    "InternalServerException", "InternalFailure", "ServerException" }

  const FRAGMENTS := ["throttl", "rate exceeded", "timeout", "temporarily unavailable", "connection reset"]

  function Lower(c: char): char {
    if 'A' <= c <= 'Z' then c - 'A' + 'a' else c
  }

  /** needle occurs at i, up to the case of ASCII letters. */
  predicate FoldsAt(haystack: string, needle: string, i: nat) {
    i + |needle| <= |haystack| && forall j :: 0 <= j < |needle| ==> Lower(haystack[i + j]) == Lower(needle[j])
  }

  predicate ContainsFold(haystack: string, needle: string) {
    needle != "" && exists i :: 0 <= i <= |haystack| && FoldsAt(haystack, needle, i)
  }

  /** indexFold: the first occurrence, or -1. */
  method IndexFold(haystack: string, needle: string) returns (r: int)
    ensures r >= 0 ==>
      needle != "" && FoldsAt(haystack, needle, r) && forall i :: 0 <= i < r ==> !FoldsAt(haystack, needle, i)
    ensures r < 0 ==> r == -1 && !ContainsFold(haystack, needle)
  {
    var hl, nl := |haystack|, |needle|;
    if nl == 0 || nl > hl {
      return -1;
    }
    var i := 0;
    while i <= hl - nl
      invariant 0 <= i <= hl - nl + 1
      invariant forall k :: 0 <= k < i ==> !FoldsAt(haystack, needle, k)
    {
      var same := true;
      var j := 0;
      while j < nl
        invariant 0 <= j <= nl && same
        invariant forall k :: 0 <= k < j ==> Lower(haystack[i + k]) == Lower(needle[k])
      {
        var hc, nc := haystack[i + j], needle[j];
        if 'A' <= hc <= 'Z' {
          hc := hc - 'A' + 'a';
        }
        if 'A' <= nc <= 'Z' {
          nc := nc - 'A' + 'a';
        }
        if hc != nc {
          same := false;
          break;
        }
        j := j + 1;
      }
      if same {
        return i;
      }
      i := i + 1;
    }
    return -1;
  }

  predicate Transient(e: Error) {
    match e
    case ContextError => false
    case ApiError(code, serverFault) => code in RETRYABLE_CODES || serverFault
    case TransportError(message) => exists k :: 0 <= k < |FRAGMENTS| && ContainsFold(message, FRAGMENTS[k])
  }

  lemma FragmentsNotEmpty()
    ensures forall k :: 0 <= k < |FRAGMENTS| ==> |FRAGMENTS[k]| >= 7
  {}

  /** Throttling and server faults are transient, whatever the case of a message; a refused request and a
      context that is done are not. */
  lemma WhatIsTransient(before: string, after: string, code: string)
    ensures code in {"ThrottlingException", "Throttling", "TooManyRequestsException", "RequestLimitExceeded"} ==>
      Transient(ApiError(code, false))
    ensures code in {"RequestThrottled", "RequestThrottledException", "SlowDown", "PriorRequestNotComplete"} ==>
      Transient(ApiError(code, false))
    ensures code in {"ServiceUnavailableException", "InternalServerException", "InternalFailure", "ServerException"} ==>
      Transient(ApiError(code, false))
    ensures Transient(ApiError(code, true)) && !Transient(ContextError)
    ensures !Transient(ApiError("AccessDeniedException", false))
    ensures !Transient(ApiError("InvalidParameterException", false))
    ensures Transient(TransportError(before + "Rate Exceeded" + after))
    ensures Transient(TransportError(before + "connection reset" + after))
    ensures !Transient(TransportError("EOF"))
  {
    hide ContainsFold, FoldsAt;
    FragmentTexts();
    Fragment(before, "Rate Exceeded", after, 1);
    Fragment(before, "connection reset", after, 4);
    ShortMessage("EOF");
  }

  lemma FragmentTexts()
    ensures |FRAGMENTS| == 5
    ensures FoldsAt("Rate Exceeded", FRAGMENTS[1], 0) && FoldsAt("connection reset", FRAGMENTS[4], 0)
  {}

  lemma ShortMessage(message: string)
    requires |message| < 7
    ensures !Transient(TransportError(message))
  {
    FragmentsNotEmpty();
  }

  lemma Fragment(before: string, text: string, after: string, k: nat)
    requires k < |FRAGMENTS| && FoldsAt(text, FRAGMENTS[k], 0)
    ensures Transient(TransportError(before + text + after))
  {
    FragmentsNotEmpty();
    var message := before + text + after;
    forall j | 0 <= j < |FRAGMENTS[k]| ensures Lower(message[|before| + j]) == Lower(FRAGMENTS[k][j]) {
      assert message[|before| + j] == text[j] && Lower(text[0 + j]) == Lower(FRAGMENTS[k][j]);
    }
    assert FoldsAt(message, FRAGMENTS[k], |before|);
    assert ContainsFold(message, FRAGMENTS[k]);
  }

  /** shouldRetry. */
  method ShouldRetry(e: Error) returns (r: bool)
    ensures r == Transient(e)
    ensures e.ContextError? ==> !r
    ensures e.ApiError? ==> (r <==> e.code in RETRYABLE_CODES || e.serverFault)
    ensures e.TransportError? ==> (r <==>
      exists i, k :: 0 <= k < |FRAGMENTS| && 0 <= i <= |e.message| && FoldsAt(e.message, FRAGMENTS[k], i))
  {
    FragmentsNotEmpty();
    match e {
      case ContextError => return false;
      case ApiError(code, serverFault) => return code in RETRYABLE_CODES || serverFault;
      case TransportError(message) =>
        for k := 0 to |FRAGMENTS|
          invariant forall l :: 0 <= l < k ==> !ContainsFold(message, FRAGMENTS[l])
        {
          var i := IndexFold(message, FRAGMENTS[k]);
          if i >= 0 {
            assert ContainsFold(message, FRAGMENTS[k]);
            return true;
          }
        }
        return false;
    }
  }

  // ---- how long it waits ----

  function Effective(cfg: RetryConfig): RetryConfig {
    if cfg.maxAttempts <= 0 then DEFAULT_CONFIG else cfg
  }

  /** Conversion of a float to an integer drops the fraction. */
  function Truncate(x: real): int { if x >= 0.0 then x.Floor else -((-x).Floor) }

  function Scaled(backoff: int, multiplier: real): int {
    if multiplier > 1.0 then Truncate(backoff as real * multiplier) else backoff
  }

  /** The backoff after k retries. */
  function Backoff(cfg: RetryConfig, k: nat): int {
    if k == 0 then cfg.initialBackoff else Scaled(Backoff(cfg, k - 1), cfg.multiplier)
  }

  /** The timer set before retry k + 1; one that is not positive fires at once. */
  function Wait(cfg: RetryConfig, k: nat): nat {
    var wait := Backoff(cfg, k);
    var capped := if wait > cfg.maxBackoff && cfg.maxBackoff > 0 then cfg.maxBackoff else wait;
    if capped < 0 then 0 else capped
  }

  function TotalWait(cfg: RetryConfig, retries: nat): nat {
    if retries == 0 then 0 else TotalWait(cfg, retries - 1) + Wait(cfg, retries - 1)
  }

  lemma WaitIsCapped(cfg: RetryConfig, k: nat)
    requires cfg.maxBackoff > 0
    ensures Wait(cfg, k) <= cfg.maxBackoff
  {
    hide Backoff;
  }

  /** The cap bounds the time spent waiting. */
  lemma {:induction false} TotalWaitIsBounded(cfg: RetryConfig, retries: nat)
    requires cfg.maxBackoff > 0
    ensures TotalWait(cfg, retries) <= retries * cfg.maxBackoff
  {
    hide Wait;
    if retries > 0 {
      TotalWaitIsBounded(cfg, retries - 1);
      WaitIsCapped(cfg, retries - 1);
      assert (retries - 1) * cfg.maxBackoff + cfg.maxBackoff == retries * cfg.maxBackoff;
    }
  }

  lemma BackoffDoubles(cfg: RetryConfig, k: nat)
    requires cfg.multiplier == 2.0 && Backoff(cfg, k) >= 0
    ensures Backoff(cfg, k + 1) == 2 * Backoff(cfg, k)
  {
    var b := Backoff(cfg, k);
    assert b as real * 2.0 == (2 * b) as real;
  }

  /** With the defaults there are at most five calls, and the four retries wait three seconds in all. */
  lemma DefaultWait()
    ensures DEFAULT_CONFIG.maxAttempts == 5
    ensures TotalWait(DEFAULT_CONFIG, 4) == 3000 * MILLISECOND
  {
    hide Backoff;
    FirstBackoff(DEFAULT_CONFIG);
    BackoffDoubles(DEFAULT_CONFIG, 0);
    BackoffDoubles(DEFAULT_CONFIG, 1);
    BackoffDoubles(DEFAULT_CONFIG, 2);
    assert TotalWait(DEFAULT_CONFIG, 1) == 200 * MILLISECOND;
    assert TotalWait(DEFAULT_CONFIG, 2) == 600 * MILLISECOND;
  }

  lemma FirstBackoff(cfg: RetryConfig)
    ensures Backoff(cfg, 0) == cfg.initialBackoff
  {}

  lemma NoWait(cfg: RetryConfig)
    ensures TotalWait(cfg, 0) == 0
  {}

  lemma NextBackoff(cfg: RetryConfig, k: nat)
    ensures Backoff(cfg, k + 1) == Scaled(Backoff(cfg, k), cfg.multiplier)
    ensures TotalWait(cfg, k + 1) == TotalWait(cfg, k) + Wait(cfg, k)
  {
    hide Scaled, Wait;
  }

  // ---- the server ----

  datatype Reply = Success | Failure(error: Error)

  /** Applying a request that carries a token: a token seen before changes nothing. */
  function Applied(applied: seq<string>, token: string): seq<string> {
    if token in applied then applied else applied + [token]
  }

  /** A server that deduplicates by token; a call may be refused, take effect, or take effect and
      lose its answer. */
  class Server {
    /** The tokens of the requests that took effect, in order. */
    var applied: seq<string>
    ghost var calls: nat
    /** What every call so far came back with. */
    ghost var replies: seq<Reply>

    constructor ()
      ensures applied == [] && calls == 0 && replies == []
    {
      applied, calls, replies := [], 0, [];
    }

    method Call(token: string) returns (r: Reply)
      modifies this
      ensures calls == old(calls) + 1 && replies == old(replies) + [r]
      ensures applied == old(applied) || applied == Applied(old(applied), token)
      ensures r.Success? ==> applied == Applied(old(applied), token)
    {
      calls := calls + 1;
      var refused, lost: bool := *, *;
      var error: Error := *;
      r := if refused || lost then Failure(error) else Success;
      replies := replies + [r];
      if !refused {
        applied := Applied(applied, token);
      }
    }
  }

  class Context {
    var done: bool

    constructor () { done := false; }

    /** Whether the context is done; once done it stays so. */
    method Check() returns (r: bool)
      modifies this
      ensures r == done && (old(done) ==> done)
    {
      var now: bool := *;
      done := done || now;
      return done;
    }
  }

  /** WithRetry, around a call that carries the same token every time. It makes at most the configured
      number of calls, waits exactly the backoff schedule until it stops (less when the context ends
      a wait), gives up early only on success, a lasting error or a context that is done, and the
      request takes effect at most once. Every call but the last failed with a transient error, and the
      result is the last reply unless the context ended the attempts. */
  method WithRetry(ctx: Context, cfg: RetryConfig, server: Server, token: string)
    returns (r: Reply, ghost attempts: nat, ghost waited: nat)
    modifies ctx, server
    ensures server.calls == old(server.calls) + attempts && attempts <= Effective(cfg).maxAttempts
    ensures server.applied == old(server.applied) || server.applied == Applied(old(server.applied), token)
    ensures r.Success? ==> attempts > 0 && server.applied == Applied(old(server.applied), token)
    ensures attempts == 0 ==> ctx.done && waited == 0
    ensures waited <= TotalWait(
      Effective(cfg), if attempts == Effective(cfg).maxAttempts then attempts - 1 else attempts)
    ensures !ctx.done ==> attempts > 0 && waited == TotalWait(Effective(cfg), attempts - 1)
    ensures r.Failure? && !ctx.done ==> attempts == Effective(cfg).maxAttempts || !Transient(r.error)
    ensures old(server.replies) <= server.replies && |server.replies| == |old(server.replies)| + attempts
    ensures forall k :: |old(server.replies)| <= k < |server.replies| - 1 ==>
      server.replies[k].Failure? && Transient(server.replies[k].error)
    ensures || (attempts > 0 && r == server.replies[|server.replies| - 1])
            || (ctx.done && r == Failure(ContextError))
  {
    hide Backoff, Scaled, TotalWait, Transient;
    attempts, waited := 0, 0;
    var config := cfg;
    if config.maxAttempts <= 0 {
      config := DEFAULT_CONFIG;
    }
    var backoff := config.initialBackoff;
    FirstBackoff(config);
    NoWait(config);
    var attempt := 1;
    while true
      invariant config == Effective(cfg) && 1 <= attempt <= config.maxAttempts && attempts == attempt - 1
      invariant backoff == Backoff(config, attempts) && waited == TotalWait(config, attempts)
      invariant server.calls == old(server.calls) + attempts
      invariant old(server.replies) <= server.replies && |server.replies| == |old(server.replies)| + attempts
      invariant forall k :: |old(server.replies)| <= k < |server.replies| ==>
        server.replies[k].Failure? && Transient(server.replies[k].error)
      invariant server.applied == old(server.applied) || server.applied == Applied(old(server.applied), token)
      decreases config.maxAttempts - attempt
    {
      var done := ctx.Check();
      if done {
        return Failure(ContextError), attempts, waited;
      }
      r := server.Call(token);
      attempts := attempts + 1;
      NextBackoff(config, attempt - 1);
      if r.Success? {
        return r, attempts, waited;
      }
      var retry := ShouldRetry(r.error);
      if !retry || attempt == config.maxAttempts {
        return r, attempts, waited;
      }
      var wait := backoff;
      if wait > config.maxBackoff && config.maxBackoff > 0 {
        wait := config.maxBackoff;
      }
      done := ctx.Check();
      if done {
        ghost var elapsed: int := *;
        waited := waited + if 0 <= elapsed <= wait then elapsed else 0;
        return Failure(ContextError), attempts, waited;
      }
      waited := waited + if wait < 0 then 0 else wait;
      backoff := Scaled(backoff, config.multiplier);
      attempt := attempt + 1;
    }
  }

  /** IdempotencyToken: a token no request has carried before. */
  ghost predicate Unused(server: Server, token: string)
    reads server
  {
    token !in server.applied
  }

  /** One logical operation, as the control-plane update and the nodegroup roll submit it: the token is
      drawn once, outside the retried call. However many attempts fail or lose their answer, the
      operation takes effect at most once. */
  method Submit(ctx: Context, cfg: RetryConfig, server: Server, token: string) returns (r: Reply)
    requires Unused(server, token)
    modifies ctx, server
    ensures server.applied == old(server.applied) || server.applied == old(server.applied) + [token]
    ensures r.Success? ==> server.applied == old(server.applied) + [token]
    ensures server.calls <= old(server.calls) + Effective(cfg).maxAttempts
  {
    ghost var attempts, waited;
    r, attempts, waited := WithRetry(ctx, cfg, server, token);
  }

  /** Deliveries of one token in a row leave one effect; two tokens for one operation leave two. */
  lemma {:induction false} PinnedTokenIsIdempotent(applied: seq<string>, token: string, deliveries: nat)
    requires token !in applied && deliveries > 0
    ensures Delivered(applied, token, deliveries) == applied + [token]
    ensures forall other :: other !in applied && other != token ==>
      Applied(Applied(applied, token), other) == applied + [token, other]
  {
    if deliveries > 1 { PinnedTokenIsIdempotent(applied, token, deliveries - 1); }
  }

  function Delivered(applied: seq<string>, token: string, deliveries: nat): seq<string> {
    if deliveries == 0 then applied else Applied(Delivered(applied, token, deliveries - 1), token)
  }
}
