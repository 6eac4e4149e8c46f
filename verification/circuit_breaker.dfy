/**
 * The module client's circuit breaker: a CLOSED / OPEN / HALF_OPEN state
 * machine driven by a failure counter and the time of the last failure.
 * The protected work is not run by the model; `Call` takes its outcome and
 * the two clock readings the source takes (`now` before the work, `doneAt`
 * when a failure is recorded).
 */
module CircuitBreaker {
  import opened Wrappers

  datatype CircuitState = Closed | Open | HalfOpen

  /** The enum's string values. */
  function StateName(s: CircuitState): string {
    match s
    case Closed => "closed"
    case Open => "open"
    case HalfOpen => "half_open"
  }

  datatype Breaker = Breaker(
    threshold: int,
    recoveryTimeout: real,
    state: CircuitState,
    failures: nat,
    lastFailure: Option<real>)

  /** What construction establishes and every transition keeps. */
  predicate Valid(b: Breaker) {
    && b.threshold >= 1
    && b.recoveryTimeout >= 1.0
    && (b.state == Open ==> b.lastFailure.Some?)
  }

  /** `CircuitBreaker(failure_threshold, recovery_timeout_sec)`; defaults are 5 and 60.0. */
  function New(failureThreshold: int, recoveryTimeoutSec: real): (b: Breaker)
    ensures b.threshold >= 1 && b.recoveryTimeout >= 1.0
    ensures failureThreshold >= 1 ==> b.threshold == failureThreshold
    ensures failureThreshold < 1 ==> b.threshold == 1
    ensures recoveryTimeoutSec >= 1.0 ==> b.recoveryTimeout == recoveryTimeoutSec
    ensures recoveryTimeoutSec < 1.0 ==> b.recoveryTimeout == 1.0
    ensures b.state == Closed && b.failures == 0 && b.lastFailure == None
    ensures Valid(b)
  {
    Breaker(
      if failureThreshold >= 1 then failureThreshold else 1,
      if recoveryTimeoutSec >= 1.0 then recoveryTimeoutSec else 1.0,
      Closed, 0, None)
  }

  /** The RuntimeError `call` raises without running the work. */
  datatype Rejection =
    | OpenFor(failures: nat, retryIn: real)  // "Circuit breaker is OPEN (failed N times, retry in Xs)"
    | OpenNoTime                             // "Circuit breaker is OPEN"

  datatype Admission = Admitted(next: Breaker) | Rejected(reason: Rejection)

  /** True when an OPEN breaker still refuses calls at time `now`. */
  predicate Refuses(b: Breaker, now: real) {
    b.state == Open && (b.lastFailure.None? || now - b.lastFailure.value < b.recoveryTimeout)
  }

  /** The locked check at the top of `call`. */
  function Admit(b: Breaker, now: real): (r: Admission)
    ensures r.Rejected? <==> Refuses(b, now)
    ensures r.Admitted? ==> r.next.state != Open
    ensures r.Admitted? && b.state != Open ==> r.next == b
    ensures Valid(b) && r.Admitted? ==> Valid(r.next)
  {
    if b.state != Open then Admitted(b)
    else if b.lastFailure.None? then Rejected(OpenNoTime)
    else
      var elapsed := now - b.lastFailure.value;
      if elapsed >= b.recoveryTimeout then Admitted(b.(state := HalfOpen, failures := 0))
      else Rejected(OpenFor(b.failures, b.recoveryTimeout - elapsed))
  }

  /** Bookkeeping after the work returned. */
  function RecordSuccess(b: Breaker): (r: Breaker)
    ensures b.state != Open ==> r.state == Closed && r.failures == 0
    ensures b.state == Closed ==> r.lastFailure == b.lastFailure
    ensures b.state == HalfOpen ==> r.lastFailure == None
    ensures r.threshold == b.threshold && r.recoveryTimeout == b.recoveryTimeout
  {
    match b.state
    case HalfOpen => b.(state := Closed, failures := 0, lastFailure := None)
    case Closed => b.(failures := 0)
    case Open => b
  }

  /** Bookkeeping after the work raised, at time `t`. */
  function RecordFailure(b: Breaker, t: real): (r: Breaker)
    ensures r.failures == b.failures + 1 && r.lastFailure == Some(t)
    ensures b.state == HalfOpen ==> r.state == Open
    ensures b.state == Closed ==> (r.state == Open <==> b.failures + 1 >= b.threshold)
    ensures b.state == Closed && b.failures + 1 < b.threshold ==> r.state == Closed
    ensures r.threshold == b.threshold && r.recoveryTimeout == b.recoveryTimeout
  {
    var c := b.(failures := b.failures + 1, lastFailure := Some(t));
    if b.state == HalfOpen then c.(state := Open)
    else if b.state == Closed && c.failures >= b.threshold then c.(state := Open)
    else c
  }

  datatype CallResult<T, E> = Returned(value: T) | Raised(error: E) | CircuitOpen(reason: Rejection)

  datatype CallRun<T, E> = CallRun(breaker: Breaker, result: CallResult<T, E>, invoked: bool)

  /** `call(func)`, where `work` is what `func()` turns out to do if it runs. */
  function Call<T, E>(b: Breaker, now: real, work: Result<T, E>, doneAt: real): (r: CallRun<T, E>)
    ensures r.invoked <==> !Refuses(b, now)
    ensures !r.invoked ==> r.breaker == b && r.result.CircuitOpen?
    ensures r.invoked && work.Ok? ==>
      r.result == Returned(work.value) && r.breaker.state == Closed && r.breaker.failures == 0
    ensures r.invoked && work.Err? ==>
      r.result == Raised(work.error) && r.breaker.lastFailure == Some(doneAt) && r.breaker.failures >= 1
    ensures r.invoked && work.Err? && b.state == Closed ==>
      r.breaker.failures == b.failures + 1 && (r.breaker.state == Open <==> b.failures + 1 >= b.threshold)
    ensures r.invoked && work.Err? && b.state != Closed ==> r.breaker.state == Open
    ensures r.invoked && work.Err? && b.state == Open ==> r.breaker.failures == 1
    ensures r.breaker.failures <= b.failures + 1
    ensures r.breaker.threshold == b.threshold && r.breaker.recoveryTimeout == b.recoveryTimeout
    ensures Valid(b) ==> Valid(r.breaker)
  {
    match Admit(b, now)
    case Rejected(why) => CallRun(b, CircuitOpen(why), false)
    case Admitted(b1) =>
      match work
      case Ok(v) => CallRun(RecordSuccess(b1), Returned(v), true)
      case Err(e) => CallRun(RecordFailure(b1, doneAt), Raised(e), true)
  }

  /** `reset()`: back to the state of a fresh breaker with the same settings. */
  function Reset(b: Breaker): (r: Breaker)
    ensures r == New(b.threshold, b.recoveryTimeout) || !Valid(b)
    ensures r.state == Closed && r.failures == 0 && r.lastFailure == None
    ensures Valid(b) ==> Valid(r)
  {
    b.(state := Closed, failures := 0, lastFailure := None)
  }

  /** While OPEN and inside the recovery window, a call fails fast and changes nothing. */
  lemma OpenRejectsWithinTimeout<T, E>(b: Breaker, now: real, work: Result<T, E>, doneAt: real)
    requires b.state == Open && b.lastFailure.Some?
    requires now - b.lastFailure.value < b.recoveryTimeout
    ensures var r := Call(b, now, work, doneAt);
      && !r.invoked && r.breaker == b
      && r.result == CircuitOpen(OpenFor(b.failures, b.recoveryTimeout - (now - b.lastFailure.value)))
  {}

  /**
   * Once the recovery timeout has elapsed the work runs as a HALF_OPEN probe:
   * success closes the circuit and clears the failure time, failure reopens
   * it with a count of one.
   */
  lemma HalfOpenProbe<T, E>(b: Breaker, now: real, work: Result<T, E>, doneAt: real)
    requires b.state == Open && b.lastFailure.Some?
    requires now - b.lastFailure.value >= b.recoveryTimeout
    ensures Admit(b, now) == Admitted(b.(state := HalfOpen, failures := 0))
    ensures var r := Call(b, now, work, doneAt);
      && r.invoked
      && (work.Ok? ==> r.breaker.state == Closed && r.breaker.failures == 0 && r.breaker.lastFailure == None)
      && (work.Err? ==> r.breaker.state == Open && r.breaker.failures == 1 && r.breaker.lastFailure == Some(doneAt))
  {}

  /** A success while CLOSED only zeroes the counter. */
  lemma ClosedSuccessOnlyResetsCount<T, E>(b: Breaker, now: real, v: T, doneAt: real)
    requires b.state == Closed
    ensures Call<T, E>(b, now, Ok(v), doneAt).breaker == b.(failures := 0)
  {}

  /** Feeds `k` failing calls, the i-th at time `times(i)`, into `b`. */
  function FailTimes<T, E>(b: Breaker, k: nat, times: nat -> real, e: E): Breaker
    decreases k
  {
    if k == 0 then b
    else Call<T, E>(FailTimes<T, E>(b, k - 1, times, e), times(k - 1), Err(e), times(k - 1)).breaker
  }

  /**
   * A fresh breaker stays CLOSED, counting, through the first threshold-1
   * consecutive failures and opens on the threshold-th.
   */
  lemma {:induction false} ConsecutiveFailures<T, E>(threshold: int, timeout: real, k: nat, times: nat -> real, e: E)
    requires k <= Max1(threshold)
    ensures var b := FailTimes<T, E>(New(threshold, timeout), k, times, e);
      && b.threshold == Max1(threshold) && b.recoveryTimeout == New(threshold, timeout).recoveryTimeout
      && b.failures == k
      && (k < Max1(threshold) ==> b.state == Closed)
      && (k == Max1(threshold) ==> b.state == Open && b.lastFailure == Some(times(k - 1)))
  {
    if k > 0 {
      ConsecutiveFailures<T, E>(threshold, timeout, k - 1, times, e);
    }
  }

  function Max1(n: int): int { if n >= 1 then n else 1 }

  /** After the threshold-th failure, a call made before the timeout fails fast. */
  lemma OpenAfterThresholdFailsFast<T, E>(threshold: int, timeout: real, times: nat -> real, e: E, now: real, work: Result<T, E>, doneAt: real)
    requires now - times(Max1(threshold) - 1) < New(threshold, timeout).recoveryTimeout
    ensures var b := FailTimes<T, E>(New(threshold, timeout), Max1(threshold), times, e);
      var r := Call(b, now, work, doneAt);
      !r.invoked && r.result.CircuitOpen? && r.breaker == b
  {
    ConsecutiveFailures<T, E>(threshold, timeout, Max1(threshold), times, e);
  }
}
