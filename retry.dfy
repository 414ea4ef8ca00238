/**
 * `retryWithBackoff(fn, maxRetries, initialDelay)`: call `fn` until it
 * succeeds, throws something other than a `RateLimitError`, or runs out of
 * attempts, sleeping `initialDelay * 2^attempt` after each rate limit.
 *
 * `fn` is given as the outcome of each of its calls (`fn(k)` is what the
 * call numbered `k`, from 0, returns or throws); the sleeps are not taken but
 * reported, in order, as the list of delays requested.
 */
module Retry {
  import opened Wrappers
  import opened Errors
  import opened Gateway

  const DefaultMaxRetries: int := 3
  const DefaultInitialDelay: nat := 1000

  /** How the helper ends. `UnassignedLastError` is `throw lastError!` while
      `lastError` was never assigned, i.e. `throw undefined`. */
  datatype RetryOutcome<T> = Returned(value: T) | Rethrown(error: Thrown) | UnassignedLastError

  function Pow2(n: nat): (p: nat)
    ensures p >= 1
  {
    if n == 0 then 1 else 2 * Pow2(n - 1)
  }

  predicate IsRateLimited<T>(o: Result<T, Thrown>)
  {
    o.Failure? && o.error.App? && o.error.err.RateLimitError?
  }

  method RetryWithBackoff<T>(fn: nat -> Result<T, Thrown>, maxRetries: int, initialDelay: nat)
    returns (r: RetryOutcome<T>, calls: nat, delays: seq<nat>)
    // no attempt allowed: fn is never called and the unassigned lastError is thrown
    ensures maxRetries <= 0 <==> calls == 0
    ensures calls == 0 ==> r == UnassignedLastError && delays == []
    // otherwise at most maxRetries calls, and the last call's outcome is what the caller sees
    ensures calls > 0 ==> calls <= maxRetries
    ensures calls > 0 && fn(calls - 1).Success? ==> r == Returned(fn(calls - 1).value)
    ensures calls > 0 && fn(calls - 1).Failure? ==> r == Rethrown(fn(calls - 1).error)
    // every call but the last was rate limited; the last was not, unless it was the final attempt
    ensures forall a :: 0 <= a < calls - 1 ==> IsRateLimited(fn(a))
    ensures 0 < calls < maxRetries ==> !IsRateLimited(fn(calls - 1))
    // one delay before each retry, doubling from initialDelay
    ensures calls > 0 ==> |delays| == calls - 1
    ensures forall a :: 0 <= a < |delays| ==> delays[a] == initialDelay * Pow2(a)
  {
    delays := [];
    calls := 0;
    var attempt: nat := 0;
    while attempt < maxRetries
      invariant calls == attempt == |delays|
      invariant attempt == 0 || attempt < maxRetries
      invariant forall a :: 0 <= a < attempt ==> IsRateLimited(fn(a))
      invariant forall a :: 0 <= a < |delays| ==> delays[a] == initialDelay * Pow2(a)
      decreases maxRetries - attempt
    {
      var outcome := fn(attempt);
      calls := calls + 1;
      if outcome.Success? {
        r := Returned(outcome.value);
        return;
      }
      if IsRateLimited(outcome) && attempt < maxRetries - 1 {
        delays := delays + [initialDelay * Pow2(attempt)];
        attempt := attempt + 1;
        continue;
      }
      r := Rethrown(outcome.error);
      return;
    }
    // the loop only falls through when its body never ran
    r := UnassignedLastError;
  }

  function Sum(xs: seq<nat>): nat
  {
    if xs == [] then 0 else Sum(xs[..|xs| - 1]) + xs[|xs| - 1]
  }

  /** The delays of `n` retries add up to `initialDelay * (2^n - 1)`. */
  lemma {:induction false} TotalDelay(delays: seq<nat>, initialDelay: nat)
    requires forall a :: 0 <= a < |delays| ==> delays[a] == initialDelay * Pow2(a)
    ensures Sum(delays) == initialDelay * (Pow2(|delays|) - 1)
  {
    if delays != [] {
      var n := |delays| - 1;
      TotalDelay(delays[..n], initialDelay);
      calc {
        Sum(delays);
        initialDelay * (Pow2(n) - 1) + initialDelay * Pow2(n);
        initialDelay * (2 * Pow2(n) - 1);
      }
    }
  }

  /** Two rate limits then a success, with the default settings: three calls,
      1000 ms and 2000 ms of waiting, and the success value returned. */
  method TwoRateLimitsThenSuccess<T>(v: T) returns (r: RetryOutcome<T>, calls: nat, delays: seq<nat>)
    ensures r == Returned(v) && calls == 3 && delays == [1000, 2000] && Sum(delays) == 3000
  {
    var limited: Result<T, Thrown> := Failure(App(NewRateLimitError(None)));
    var fn := (k: nat) => if k < 2 then limited else Success(v);
    assert fn(0) == limited && fn(1) == limited && fn(2) == Success(v);
    r, calls, delays := RetryWithBackoff(fn, DefaultMaxRetries, DefaultInitialDelay);
    assert Pow2(1) == 2 && Pow2(2) == 4;
    TotalDelay(delays, DefaultInitialDelay);
  }

  /** A first call that throws anything but a rate limit ends the helper at once
      with that same error, whatever the later calls would do. */
  method NonRateLimitNotRetried<T>(fn: nat -> Result<T, Thrown>, maxRetries: int, initialDelay: nat)
    returns (r: RetryOutcome<T>, calls: nat, delays: seq<nat>)
    requires maxRetries > 0 && fn(0).Failure? && !IsRateLimited(fn(0))
    ensures r == Rethrown(fn(0).error) && calls == 1 && delays == []
  {
    r, calls, delays := RetryWithBackoff(fn, maxRetries, initialDelay);
  }
}
