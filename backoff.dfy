/** The delays the app waits before retrying or between requests
    (app.js: THROTTLE_TIMEOUT, RETRY_TIMEOUT and its cap, AUTH_RETRY_TIMEOUT). */
module Backoff {

  const THROTTLE_TIMEOUT: nat := 500
  const INITIAL_RETRY_TIMEOUT: int := 5000
  const MAX_RETRY_TIMEOUT: int := 300000
  const AUTH_RETRY_TIMEOUT: int := 10000
  const MAX_AUTH_RETRIES: nat := 5

  function Pow2(n: nat): (r: nat)
    ensures r >= 1
  {
    if n == 0 then 1 else 2 * Pow2(n - 1)
  }

  function Min(a: int, b: int): int {
    if a <= b then a else b
  }

  /** The delay before a page answer is handed on: half a second, and half a
      second more per failed playlist listing in a row. */
  function ThrottleDelay(retryCount: nat): (d: nat)
    ensures d >= THROTTLE_TIMEOUT
    ensures d / THROTTLE_TIMEOUT == retryCount + 1
    ensures d % THROTTLE_TIMEOUT == 0
  {
    retryCount * THROTTLE_TIMEOUT + THROTTLE_TIMEOUT
  }

  /** The throttle has no cap: it grows with every failed listing and exceeds
      any bound. */
  lemma ThrottleUncapped(retryCount: nat, bound: int)
    ensures ThrottleDelay(retryCount + 1) > ThrottleDelay(retryCount)
    ensures exists n: nat :: ThrottleDelay(n) > bound
  {
    var n: nat := if bound < 0 then 0 else bound;
    assert ThrottleDelay(n) > bound;
  }

  /** The retry timeout after a failed listing: doubled, but at most the cap. */
  function NextRetryTimeout(t: int): (r: int)
    ensures r <= MAX_RETRY_TIMEOUT
    ensures r == 2 * t || r == MAX_RETRY_TIMEOUT
    ensures 0 <= t <= MAX_RETRY_TIMEOUT ==> t <= r
    ensures 2 * t <= MAX_RETRY_TIMEOUT ==> r == 2 * t
  {
    Min(2 * t, MAX_RETRY_TIMEOUT)
  }

  /** The retry timeout after `failures` failed listings since the app started
      (a success does not reset it). */
  function RetryTimeoutAfter(failures: nat): (t: int)
    ensures INITIAL_RETRY_TIMEOUT <= t <= MAX_RETRY_TIMEOUT
  {
    if failures == 0 then INITIAL_RETRY_TIMEOUT else NextRetryTimeout(RetryTimeoutAfter(failures - 1))
  }

  /** The timeout doubles from 5 s with every failure until it reaches the
      5-minute cap: 5 s, 10 s, 20 s, ..., 160 s, then 300 s for good. */
  lemma {:induction false} RetryTimeoutClosedForm(failures: nat)
    ensures RetryTimeoutAfter(failures) == Min(INITIAL_RETRY_TIMEOUT * Pow2(failures), MAX_RETRY_TIMEOUT)
  {
    if failures > 0 {
      RetryTimeoutClosedForm(failures - 1);
      assert INITIAL_RETRY_TIMEOUT * Pow2(failures) == 2 * (INITIAL_RETRY_TIMEOUT * Pow2(failures - 1));
    }
  }

  /** The timeout never decreases from one failure to the next. */
  lemma RetryTimeoutMonotone(failures: nat)
    ensures RetryTimeoutAfter(failures) <= RetryTimeoutAfter(failures + 1)
  {
  }

  /** The delay before the `attempt`-th retry of a failed token refresh:
      `AUTH_RETRY_TIMEOUT * 2^(attempt - 1)`. */
  function AuthRetryDelay(attempt: nat): (d: int)
    requires attempt >= 1
    ensures d >= AUTH_RETRY_TIMEOUT
  {
    AUTH_RETRY_TIMEOUT * Pow2(attempt - 1)
  }

  /** The delays of the retries that consecutive refresh failures schedule
      when the retry counter stands at `retries`: one per failure while the
      counter is below 5, after which the next failure is reported instead. */
  function FailureSchedule(retries: nat): seq<int>
    requires retries <= MAX_AUTH_RETRIES
    decreases MAX_AUTH_RETRIES - retries
  {
    if retries < MAX_AUTH_RETRIES then [AuthRetryDelay(retries + 1)] + FailureSchedule(retries + 1) else []
  }

  /** From counter `retries`, 5 - retries more retries are scheduled, the i-th
      after 10 s * 2^(retries + i). */
  lemma {:induction false} FailureScheduleShape(retries: nat)
    requires retries <= MAX_AUTH_RETRIES
    ensures |FailureSchedule(retries)| == MAX_AUTH_RETRIES - retries
    ensures forall i :: 0 <= i < MAX_AUTH_RETRIES - retries ==>
      FailureSchedule(retries)[i] == AUTH_RETRY_TIMEOUT * Pow2(retries + i)
    decreases MAX_AUTH_RETRIES - retries
  {
    if retries < MAX_AUTH_RETRIES {
      FailureScheduleShape(retries + 1);
      var s := FailureSchedule(retries);
      forall i | 1 <= i < MAX_AUTH_RETRIES - retries
        ensures s[i] == AUTH_RETRY_TIMEOUT * Pow2(retries + i)
      {
        assert s[i] == FailureSchedule(retries + 1)[i - 1];
      }
    }
  }

  /** After a successful authentication (counter 0), five failures in a row are
      retried after 10, 20, 40, 80 and 160 seconds; the sixth is reported. */
  lemma FailureScheduleFromZero()
    ensures FailureSchedule(0) == [10000, 20000, 40000, 80000, 160000]
  {
    FailureScheduleShape(0);
    assert Pow2(1) == 2 && Pow2(2) == 4 && Pow2(3) == 8 && Pow2(4) == 16;
  }
}
