/** `withRetry` and `isRetryable`: call an operation up to `maxAttempts`
    times, sleeping with a capped exponential backoff between attempts that
    fail with a transient network error. The operation is given by the
    outcome of each of its calls (`fn(k)` for the `k`-th call); the sleeps
    are recorded as the list of their durations. */
module Retry {
  import opened Common
  import opened Text

  /** `RetryOptions`: every field is optional. */
  datatype RetryOptions = RetryOptions(maxAttempts: Option<int>, baseDelay: Option<int>, maxDelay: Option<int>)

  /** What a call of `withRetry` did: how it settled, how many times it
      called the operation, and the durations it slept, in order. */
  datatype Trace<T> = Trace(result: Attempt<T>, calls: nat, delays: seq<int>)

  /** The substrings that mark a message as a transient failure. */
  const RetryablePatterns: seq<string> := ["net::ERR_", "ETIMEDOUT", "ECONNRESET", "Navigation timeout"]

  /** The error `isRetryable` itself throws for a thrown value that is not an
      `Error`: such a value has no `message`, and calling `includes` on
      `undefined` fails with a `TypeError`. */
  const NoMessageFailure: Thrown := ErrorObj("Cannot read properties of undefined (reading 'includes')")

  /** What `throw lastError!` throws when the loop never ran: `lastError` is
      still `undefined`. */
  const UndefinedThrown: Thrown := NonError("undefined")

  /** `patterns.some(p => message.includes(p))`. */
  function SomeIncluded(message: string, patterns: seq<string>): bool
    decreases |patterns|
  {
    patterns != [] && (Contains(message, patterns[0]) || SomeIncluded(message, patterns[1..]))
  }

  /** `isRetryable` for a thrown `Error` with message `message`. */
  predicate IsRetryable(message: string) {
    SomeIncluded(message, RetryablePatterns)
  }

  /** `some` holds exactly when one of the patterns is included. */
  lemma {:induction false} SomeIncludedExists(message: string, patterns: seq<string>)
    ensures SomeIncluded(message, patterns) <==>
      exists i :: 0 <= i < |patterns| && Contains(message, patterns[i])
    decreases |patterns|
  {
    if patterns != [] {
      SomeIncludedExists(message, patterns[1..]);
      if !Contains(message, patterns[0]) && exists i :: 0 <= i < |patterns| && Contains(message, patterns[i]) {
        var i :| 0 <= i < |patterns| && Contains(message, patterns[i]);
        assert patterns[1..][i - 1] == patterns[i];
      }
      if SomeIncluded(message, patterns[1..]) {
        var i :| 0 <= i < |patterns[1..]| && Contains(message, patterns[1..][i]);
        assert patterns[i + 1] == patterns[1..][i];
      }
    }
  }

  /** A message is retryable exactly when it contains one of the four
      patterns. */
  lemma IsRetryablePatterns(message: string)
    ensures IsRetryable(message) <==>
      Contains(message, "net::ERR_") || Contains(message, "ETIMEDOUT")
      || Contains(message, "ECONNRESET") || Contains(message, "Navigation timeout")
  {
    SomeIncludedExists(message, RetryablePatterns);
    if Contains(message, "net::ERR_") {
      assert RetryablePatterns[0] == "net::ERR_";
    } else if Contains(message, "ETIMEDOUT") {
      assert RetryablePatterns[1] == "ETIMEDOUT";
    } else if Contains(message, "ECONNRESET") {
      assert RetryablePatterns[2] == "ECONNRESET";
    } else if Contains(message, "Navigation timeout") {
      assert RetryablePatterns[3] == "Navigation timeout";
    }
  }

  /** `isRetryable(error as Error)` for any thrown value: whether to retry,
      or the error the check itself throws. */
  function Classify(t: Thrown): Attempt<bool> {
    match t
    case ErrorObj(m) => Done(IsRetryable(m))
    case NonError(_) => Threw(NoMessageFailure)
  }

  function MaxAttempts(options: RetryOptions): int {
    match options.maxAttempts
    case None => 3
    case Some(n) => n
  }

  function BaseDelay(options: RetryOptions): int {
    match options.baseDelay
    case None => 1000
    case Some(n) => n
  }

  function MaxDelay(options: RetryOptions): int {
    match options.maxDelay
    case None => 10000
    case Some(n) => n
  }

  function Pow2(n: nat): (r: nat)
    ensures r >= 1
  {
    if n == 0 then 1 else 2 * Pow2(n - 1)
  }

  function Min(a: int, b: int): int {
    if a <= b then a else b
  }

  /** `Math.min(baseDelay * Math.pow(2, attempt - 1), maxDelay)`, the sleep
      after the failed attempt `attempt`. */
  function Delay(attempt: nat, baseDelay: int, maxDelay: int): int
    requires attempt >= 1
  {
    Min(baseDelay * Pow2(attempt - 1), maxDelay)
  }

  /** How an attempt with outcome `a` ends the loop: with its value, with
      the error it threw when that error is not retryable or this was the
      `last` attempt, or with what the classification threw; `None` when
      the loop sleeps and retries. */
  function Settle<T>(a: Attempt<T>, last: bool): Option<Attempt<T>> {
    match a
    case Done(v) => Some(Done(v))
    case Threw(e) =>
      match Classify(e)
      case Threw(c) => Some(Threw(c))
      case Done(retryable) => if !retryable || last then Some(Threw(e)) else None
  }

  /** The loop from attempt `attempt` on, `attempt` being at most
      `maxAttempts`. */
  function RetryFrom<T>(fn: nat -> Attempt<T>, attempt: nat, maxAttempts: int, baseDelay: int, maxDelay: int): Trace<T>
    requires 1 <= attempt <= maxAttempts
    decreases maxAttempts - attempt
  {
    match Settle(fn(attempt), attempt == maxAttempts)
    case Some(r) => Trace(r, 1, [])
    case None =>
      var rest := RetryFrom(fn, attempt + 1, maxAttempts, baseDelay, maxDelay);
      Trace(rest.result, rest.calls + 1, [Delay(attempt, baseDelay, maxDelay)] + rest.delays)
  }

  /** What `withRetry(fn, options)` does. */
  function RetrySpec<T>(fn: nat -> Attempt<T>, options: RetryOptions): Trace<T> {
    if MaxAttempts(options) < 1 then Trace(Threw(UndefinedThrown), 0, [])
    else RetryFrom(fn, 1, MaxAttempts(options), BaseDelay(options), MaxDelay(options))
  }

  /** Attempt `k` failed with an `Error` whose message is retryable. */
  predicate FailsRetryably<T>(fn: nat -> Attempt<T>, k: nat) {
    fn(k).Threw? && fn(k).error.ErrorObj? && IsRetryable(fn(k).error.message)
  }

  /** The sleeps after the failed attempts `lo` to `hi - 1`. */
  function Delays(lo: nat, hi: nat, baseDelay: int, maxDelay: int): (ds: seq<int>)
    requires 1 <= lo <= hi
    ensures lo + |ds| == hi
    decreases hi - lo
  {
    if lo == hi then [] else [Delay(lo, baseDelay, maxDelay)] + Delays(lo + 1, hi, baseDelay, maxDelay)
  }

  /** The `k`-th sleep in `Delays`. */
  lemma {:induction false} DelaysAt(lo: nat, hi: nat, baseDelay: int, maxDelay: int, k: nat)
    requires 1 <= lo <= hi && k < hi - lo
    ensures Delays(lo, hi, baseDelay, maxDelay)[k] == Delay(lo + k, baseDelay, maxDelay)
    decreases hi - lo
  {
    if k > 0 {
      DelaysAt(lo + 1, hi, baseDelay, maxDelay, k - 1);
    }
  }

  /** A retryable failure before the last attempt is one call and one sleep
      followed by the next attempt. */
  lemma RetryStep<T>(fn: nat -> Attempt<T>, attempt: nat, maxAttempts: int, baseDelay: int, maxDelay: int)
    requires 1 <= attempt < maxAttempts && FailsRetryably(fn, attempt)
    ensures var rest := RetryFrom(fn, attempt + 1, maxAttempts, baseDelay, maxDelay);
      RetryFrom(fn, attempt, maxAttempts, baseDelay, maxDelay)
        == Trace(rest.result, rest.calls + 1, [Delay(attempt, baseDelay, maxDelay)] + rest.delays)
  {
  }

  /** Attempts `attempt` to `k - 1` that all fail retryably are `k - attempt`
      calls and as many sleeps, after which the loop carries on at `k`. */
  lemma {:induction false} RetryThrough<T>(fn: nat -> Attempt<T>, attempt: nat, k: nat,
                                           maxAttempts: int, baseDelay: int, maxDelay: int)
    requires 1 <= attempt <= k <= maxAttempts
    requires forall j :: attempt <= j < k ==> FailsRetryably(fn, j)
    ensures RetryFrom(fn, attempt, maxAttempts, baseDelay, maxDelay).result
      == RetryFrom(fn, k, maxAttempts, baseDelay, maxDelay).result
    ensures RetryFrom(fn, attempt, maxAttempts, baseDelay, maxDelay).calls
      == RetryFrom(fn, k, maxAttempts, baseDelay, maxDelay).calls + (k - attempt)
    ensures RetryFrom(fn, attempt, maxAttempts, baseDelay, maxDelay).delays
      == Delays(attempt, k, baseDelay, maxDelay) + RetryFrom(fn, k, maxAttempts, baseDelay, maxDelay).delays
    decreases k - attempt
  {
    if attempt < k {
      RetryStep(fn, attempt, maxAttempts, baseDelay, maxDelay);
      RetryThrough(fn, attempt + 1, k, maxAttempts, baseDelay, maxDelay);
      var d := Delay(attempt, baseDelay, maxDelay);
      var mid := Delays(attempt + 1, k, baseDelay, maxDelay);
      var tail := RetryFrom(fn, k, maxAttempts, baseDelay, maxDelay).delays;
      assert [d] + (mid + tail) == ([d] + mid) + tail;
    } else {
      var tail := RetryFrom(fn, k, maxAttempts, baseDelay, maxDelay).delays;
      assert Delays(attempt, k, baseDelay, maxDelay) + tail == tail;
    }
  }

  /** Whatever happens, the loop calls the operation at least once and at
      most once per remaining attempt, and sleeps once between two calls. */
  lemma {:induction false} RetryFromBounds<T>(fn: nat -> Attempt<T>, attempt: nat,
                                              maxAttempts: int, baseDelay: int, maxDelay: int)
    requires 1 <= attempt <= maxAttempts
    ensures var r := RetryFrom(fn, attempt, maxAttempts, baseDelay, maxDelay);
      1 <= r.calls <= maxAttempts - attempt + 1 && |r.delays| == r.calls - 1
      && r.delays == Delays(attempt, attempt + r.calls - 1, baseDelay, maxDelay)
    decreases maxAttempts - attempt
  {
    var r := RetryFrom(fn, attempt, maxAttempts, baseDelay, maxDelay);
    if r.calls > 1 {
      RetryFromBounds(fn, attempt + 1, maxAttempts, baseDelay, maxDelay);
    }
  }

  /** The operation is called at most `maxAttempts` times, never when
      `maxAttempts` is below 1, and the `k`-th sleep is
      `min(baseDelay * 2^(k-1), maxDelay)`. */
  lemma RetryCalls<T>(fn: nat -> Attempt<T>, options: RetryOptions)
    ensures var r := RetrySpec(fn, options);
      r.calls <= if MaxAttempts(options) < 1 then 0 else MaxAttempts(options)
    ensures var r := RetrySpec(fn, options);
      forall k :: 0 <= k < |r.delays| ==> r.delays[k] == Delay(k + 1, BaseDelay(options), MaxDelay(options))
  {
    if MaxAttempts(options) >= 1 {
      RetryFromBounds(fn, 1, MaxAttempts(options), BaseDelay(options), MaxDelay(options));
      var r := RetrySpec(fn, options);
      forall k | 0 <= k < |r.delays|
        ensures r.delays[k] == Delay(k + 1, BaseDelay(options), MaxDelay(options))
      {
        DelaysAt(1, r.calls, BaseDelay(options), MaxDelay(options), k);
      }
    }
  }

  /** If attempt `k` succeeds after `k - 1` retryable failures, its value is
      returned after exactly `k` calls and `k - 1` sleeps. */
  lemma RetrySucceedsAt<T>(fn: nat -> Attempt<T>, options: RetryOptions, k: nat)
    requires 1 <= k <= MaxAttempts(options)
    requires forall j :: 1 <= j < k ==> FailsRetryably(fn, j)
    requires fn(k).Done?
    ensures RetrySpec(fn, options) == Trace(Done(fn(k).value), k, Delays(1, k, BaseDelay(options), MaxDelay(options)))
  {
    RetryThrough(fn, 1, k, MaxAttempts(options), BaseDelay(options), MaxDelay(options));
    assert Delays(1, k, BaseDelay(options), MaxDelay(options)) + []
      == Delays(1, k, BaseDelay(options), MaxDelay(options));
  }

  /** An error that is not retryable is rethrown at once: no further call and
      no sleep after it. */
  lemma RetryStopsAt<T>(fn: nat -> Attempt<T>, options: RetryOptions, k: nat)
    requires 1 <= k <= MaxAttempts(options)
    requires forall j :: 1 <= j < k ==> FailsRetryably(fn, j)
    requires fn(k).Threw? && fn(k).error.ErrorObj? && !IsRetryable(fn(k).error.message)
    ensures RetrySpec(fn, options) == Trace(fn(k), k, Delays(1, k, BaseDelay(options), MaxDelay(options)))
  {
    RetryThrough(fn, 1, k, MaxAttempts(options), BaseDelay(options), MaxDelay(options));
    assert Delays(1, k, BaseDelay(options), MaxDelay(options)) + []
      == Delays(1, k, BaseDelay(options), MaxDelay(options));
  }

  /** When every attempt fails retryably, the operation is called
      `maxAttempts` times with `maxAttempts - 1` sleeps between, and the error
      of the last attempt is rethrown. */
  lemma RetryExhausted<T>(fn: nat -> Attempt<T>, options: RetryOptions)
    requires MaxAttempts(options) >= 1
    requires forall j :: 1 <= j <= MaxAttempts(options) ==> FailsRetryably(fn, j)
    ensures var n := MaxAttempts(options);
      RetrySpec(fn, options) == Trace(fn(n), n, Delays(1, n, BaseDelay(options), MaxDelay(options)))
  {
    var n := MaxAttempts(options);
    assert FailsRetryably(fn, n);
    RetryThrough(fn, 1, n, n, BaseDelay(options), MaxDelay(options));
    assert Delays(1, n, BaseDelay(options), MaxDelay(options)) + []
      == Delays(1, n, BaseDelay(options), MaxDelay(options));
  }

  /** A thrown value that is not an `Error` makes `isRetryable` itself throw:
      that `TypeError` escapes at once, in place of the value, with no
      further call and no sleep. */
  lemma RetryNonError<T>(fn: nat -> Attempt<T>, options: RetryOptions, k: nat)
    requires 1 <= k <= MaxAttempts(options)
    requires forall j :: 1 <= j < k ==> FailsRetryably(fn, j)
    requires fn(k).Threw? && fn(k).error.NonError?
    ensures RetrySpec(fn, options) == Trace(Threw(NoMessageFailure), k, Delays(1, k, BaseDelay(options), MaxDelay(options)))
  {
    RetryThrough(fn, 1, k, MaxAttempts(options), BaseDelay(options), MaxDelay(options));
    assert Delays(1, k, BaseDelay(options), MaxDelay(options)) + []
      == Delays(1, k, BaseDelay(options), MaxDelay(options));
  }

  /** With `maxAttempts` below 1 the loop body never runs: the operation is
      not called, nothing is slept, and the unassigned `lastError`
      (`undefined`) is thrown. */
  lemma RetryNoAttempts<T>(fn: nat -> Attempt<T>, options: RetryOptions)
    requires MaxAttempts(options) < 1
    ensures RetrySpec(fn, options) == Trace(Threw(NonError("undefined")), 0, [])
  {
  }

  /** With the default options, three retryable failures give three calls
      separated by sleeps of 1000 and 2000 ms. */
  lemma RetryDefaultDelays<T>(fn: nat -> Attempt<T>)
    requires forall j :: 1 <= j <= 3 ==> FailsRetryably(fn, j)
    ensures RetrySpec(fn, RetryOptions(None, None, None)) == Trace(fn(3), 3, [1000, 2000])
  {
    RetryExhausted(fn, RetryOptions(None, None, None));
    assert Delays(1, 3, 1000, 10000) == [1000, 2000];
  }

  /** For a non-negative base delay the sleeps never shrink and never exceed
      `maxDelay`. */
  lemma DelayMonotone(attempt: nat, baseDelay: int, maxDelay: int)
    requires attempt >= 1 && baseDelay >= 0
    ensures Delay(attempt, baseDelay, maxDelay) <= Delay(attempt + 1, baseDelay, maxDelay)
    ensures Delay(attempt, baseDelay, maxDelay) <= maxDelay
  {
    assert Pow2(attempt) == 2 * Pow2(attempt - 1);
    assert baseDelay * Pow2(attempt) == 2 * (baseDelay * Pow2(attempt - 1));
  }

  /** `withRetry`: the `for` loop over the attempts with its `try`/`catch`,
      the backoff sleep, and the final `throw lastError!`. */
  method WithRetry<T>(fn: nat -> Attempt<T>, options: RetryOptions)
    returns (result: Attempt<T>, calls: nat, delays: seq<int>)
    ensures Trace(result, calls, delays) == RetrySpec(fn, options)
  {
    var maxAttempts := MaxAttempts(options);
    var baseDelay := BaseDelay(options);
    var maxDelay := MaxDelay(options);
    var lastError: Option<Thrown> := None;
    calls := 0;
    delays := [];
    var attempt: nat := 1;
    while attempt <= maxAttempts
      invariant 1 <= attempt && (maxAttempts >= 1 ==> attempt <= maxAttempts)
      invariant maxAttempts < 1 ==> calls == 0 && delays == [] && lastError.None?
      invariant maxAttempts >= 1 ==>
        var rest := RetryFrom(fn, attempt, maxAttempts, baseDelay, maxDelay);
        RetrySpec(fn, options) == Trace(rest.result, calls + rest.calls, delays + rest.delays)
      decreases maxAttempts - attempt
    {
      var outcome := fn(attempt);
      calls := calls + 1;
      match outcome {
        case Done(v) =>
          assert delays + [] == delays;
          return Done(v), calls, delays;
        case Threw(e) =>
          lastError := Some(e);
          var retryable := Classify(e);
          if retryable.Threw? {
            assert delays + [] == delays;
            return Threw(retryable.error), calls, delays;
          }
          if !retryable.value || attempt == maxAttempts {
            assert delays + [] == delays;
            return Threw(e), calls, delays;
          }
          var delay := Delay(attempt, baseDelay, maxDelay);
          var rest := RetryFrom(fn, attempt + 1, maxAttempts, baseDelay, maxDelay);
          assert (delays + [delay]) + rest.delays == delays + ([delay] + rest.delays);
          delays := delays + [delay];
          attempt := attempt + 1;
      }
    }
    result := Threw(match lastError case None => UndefinedThrown case Some(e) => e);
  }
}
