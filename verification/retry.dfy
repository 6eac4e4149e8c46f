/**
 * `RetryPolicy`: run a piece of work up to `max_retries + 1` times, sleeping
 * between attempts with a capped exponential backoff. The work is modelled
 * by the outcome of each successive call (`work(i)` is what the i-th call,
 * counting from 0, returns or raises) and the sleeps are recorded instead of
 * performed.
 */
module Retry {
  import opened Wrappers
  import opened Values

  datatype Policy = Policy(maxRetries: nat, initialDelay: real, maxDelay: real, multiplier: real)

  predicate Valid(p: Policy) {
    p.initialDelay >= 0.0 && p.maxDelay >= p.initialDelay && p.multiplier >= 1.0
  }

  /** `RetryPolicy(max_retries, initial_delay_sec, max_delay_sec, backoff_multiplier)`. */
  function New(maxRetries: int, initialDelaySec: real, maxDelaySec: real, backoffMultiplier: real): (p: Policy)
    ensures Valid(p)
    ensures p.maxRetries == Max(0, maxRetries)
    ensures p.initialDelay == MaxR(0.0, initialDelaySec)
    ensures p.maxDelay == MaxR(p.initialDelay, maxDelaySec)
    ensures p.multiplier == MaxR(1.0, backoffMultiplier)
    ensures maxRetries >= 0 && initialDelaySec >= 0.0 && maxDelaySec >= initialDelaySec && backoffMultiplier >= 1.0
      ==> p == Policy(maxRetries, initialDelaySec, maxDelaySec, backoffMultiplier)
  {
    var init := MaxR(0.0, initialDelaySec);
    Policy(if maxRetries >= 0 then maxRetries else 0, init, MaxR(init, maxDelaySec), MaxR(1.0, backoffMultiplier))
  }

  /** The constructor's defaults: 3 retries, 1 s initial, 60 s cap, doubling. */
  const Default: Policy := New(3, 1.0, 60.0, 2.0)

  /** `should_retry is None or should_retry(e)`. */
  predicate ShouldRetry<E>(shouldRetry: Option<E -> bool>, e: E) {
    shouldRetry.None? || shouldRetry.value(e)
  }

  /** What one `execute` does: its result, how many times it called the work, and its sleeps in order. */
  datatype Run<T, E> = Run(result: Result<T, E>, calls: nat, sleeps: seq<real>)

  /** `min(delay * backoff_multiplier, max_delay)`. */
  function NextDelay(p: Policy, delay: real): real {
    MinR(delay * p.multiplier, p.maxDelay)
  }

  /** The loop of `execute` from iteration `attempt` on, with `delay` the current backoff. */
  function RunFrom<T, E>(p: Policy, work: nat -> Result<T, E>, shouldRetry: Option<E -> bool>, attempt: nat, delay: real): (r: Run<T, E>)
    requires attempt <= p.maxRetries
    ensures 1 <= r.calls <= p.maxRetries + 1 - attempt
    ensures |r.sleeps| == r.calls - 1
    ensures r.result == work(attempt + r.calls - 1)
    ensures r.result.Err? ==> attempt + r.calls - 1 == p.maxRetries || !ShouldRetry(shouldRetry, r.result.error)
    decreases p.maxRetries - attempt
  {
    match work(attempt)
    case Ok(v) => Run(Ok(v), 1, [])
    case Err(e) =>
      if !ShouldRetry(shouldRetry, e) || attempt >= p.maxRetries then Run(Err(e), 1, [])
      else
        var d := NextDelay(p, delay);
        var rest := RunFrom(p, work, shouldRetry, attempt + 1, d);
        Run(rest.result, rest.calls + 1, [d] + rest.sleeps)
  }

  /** `execute(func, should_retry)`. */
  function Execute<T, E>(p: Policy, work: nat -> Result<T, E>, shouldRetry: Option<E -> bool>): Run<T, E> {
    RunFrom(p, work, shouldRetry, 0, p.initialDelay)
  }

  /** The facts about every earlier call, by induction over the loop. */
  lemma {:induction false} RunFromEarlierCalls<T, E>(p: Policy, work: nat -> Result<T, E>, shouldRetry: Option<E -> bool>, attempt: nat, delay: real)
    requires attempt <= p.maxRetries
    ensures var r := RunFrom(p, work, shouldRetry, attempt, delay);
      forall i :: attempt <= i < attempt + r.calls - 1 ==> work(i).Err? && ShouldRetry(shouldRetry, work(i).error)
    decreases p.maxRetries - attempt
  {
    if attempt < p.maxRetries && work(attempt).Err? && ShouldRetry(shouldRetry, work(attempt).error) {
      RunFromStep(p, work, shouldRetry, attempt, delay);
      RunFromEarlierCalls(p, work, shouldRetry, attempt + 1, NextDelay(p, delay));
    }
  }

  /** An iteration that returns or raises ends the loop without sleeping. */
  lemma RunFromStops<T, E>(p: Policy, work: nat -> Result<T, E>, shouldRetry: Option<E -> bool>, attempt: nat, delay: real)
    requires attempt <= p.maxRetries
    requires !(attempt < p.maxRetries && work(attempt).Err? && ShouldRetry(shouldRetry, work(attempt).error))
    ensures RunFrom(p, work, shouldRetry, attempt, delay).calls == 1
    ensures RunFrom(p, work, shouldRetry, attempt, delay).sleeps == []
  {}

  /** One retried iteration of the loop: sleep `NextDelay` and go on with the next attempt. */
  lemma RunFromStep<T, E>(p: Policy, work: nat -> Result<T, E>, shouldRetry: Option<E -> bool>, attempt: nat, delay: real)
    requires attempt < p.maxRetries && work(attempt).Err? && ShouldRetry(shouldRetry, work(attempt).error)
    ensures var r := RunFrom(p, work, shouldRetry, attempt, delay);
      var rest := RunFrom(p, work, shouldRetry, attempt + 1, NextDelay(p, delay));
      && r.result == rest.result
      && r.calls == rest.calls + 1
      && r.sleeps == [NextDelay(p, delay)] + rest.sleeps
  {}

  /** The loop state of `ExecuteLoop` after `attempt` sleeps: what is left to run is `RunFrom(attempt, delay)`. */
  ghost predicate LoopAt<T, E>(p: Policy, work: nat -> Result<T, E>, shouldRetry: Option<E -> bool>, attempt: nat, delay: real, sleeps: seq<real>) {
    && attempt <= p.maxRetries
    && |sleeps| == attempt
    && var total := Execute(p, work, shouldRetry);
    var rest := RunFrom(p, work, shouldRetry, attempt, delay);
    && total.result == rest.result
    && total.calls == attempt + rest.calls
    && total.sleeps == sleeps + rest.sleeps
  }

  /** A retried iteration keeps the loop state. */
  lemma LoopAtStep<T, E>(p: Policy, work: nat -> Result<T, E>, shouldRetry: Option<E -> bool>, attempt: nat, delay: real, sleeps: seq<real>)
    requires LoopAt(p, work, shouldRetry, attempt, delay, sleeps)
    requires attempt < p.maxRetries && work(attempt).Err? && ShouldRetry(shouldRetry, work(attempt).error)
    ensures LoopAt(p, work, shouldRetry, attempt + 1, NextDelay(p, delay), sleeps + [NextDelay(p, delay)])
  {
    var d := NextDelay(p, delay);
    var rest := RunFrom(p, work, shouldRetry, attempt + 1, d);
    RunFromStep(p, work, shouldRetry, attempt, delay);
    assert sleeps + ([d] + rest.sleeps) == (sleeps + [d]) + rest.sleeps;
  }

  /** An iteration that returns or raises ends the loop with the whole run's outcome. */
  lemma LoopAtStop<T, E>(p: Policy, work: nat -> Result<T, E>, shouldRetry: Option<E -> bool>, attempt: nat, delay: real, sleeps: seq<real>)
    requires LoopAt(p, work, shouldRetry, attempt, delay, sleeps)
    requires !(attempt < p.maxRetries && work(attempt).Err? && ShouldRetry(shouldRetry, work(attempt).error))
    ensures Execute(p, work, shouldRetry) == Run(work(attempt), attempt + 1, sleeps)
  {
    RunFromStops(p, work, shouldRetry, attempt, delay);
  }

  /** The same loop written as the source writes it, with the backoff delay as loop state. */
  method ExecuteLoop<T, E>(p: Policy, work: nat -> Result<T, E>, shouldRetry: Option<E -> bool>)
    returns (result: Result<T, E>, calls: nat, sleeps: seq<real>)
    ensures result == Execute(p, work, shouldRetry).result
    ensures calls == Execute(p, work, shouldRetry).calls
    ensures sleeps == Execute(p, work, shouldRetry).sleeps
  {
    var delay := p.initialDelay;
    var attempt: nat := 0;
    sleeps := [];
    while true
      invariant LoopAt(p, work, shouldRetry, attempt, delay, sleeps)
      decreases p.maxRetries - attempt
    {
      var outcome := work(attempt);
      if outcome.Ok? || !ShouldRetry(shouldRetry, outcome.error) || attempt >= p.maxRetries {
        LoopAtStop(p, work, shouldRetry, attempt, delay, sleeps);
        return outcome, attempt + 1, sleeps;
      }
      LoopAtStep(p, work, shouldRetry, attempt, delay, sleeps);
      delay := NextDelay(p, delay);
      sleeps := sleeps + [delay];
      attempt := attempt + 1;
    }
  }

  /**
   * What `execute` promises: the result is the outcome of the last call,
   * every earlier call raised a retryable error, and it stopped either on
   * success, on an error the predicate declines, or after max_retries + 1
   * calls. The trailing `raise last_exception` is never reached.
   */
  lemma ExecuteOutcome<T, E>(p: Policy, work: nat -> Result<T, E>, shouldRetry: Option<E -> bool>)
    ensures var r := Execute(p, work, shouldRetry);
      && 1 <= r.calls <= p.maxRetries + 1
      && |r.sleeps| == r.calls - 1
      && r.result == work(r.calls - 1)
      && (forall i :: 0 <= i < r.calls - 1 ==> work(i).Err? && ShouldRetry(shouldRetry, work(i).error))
      && (r.result.Err? ==> r.calls == p.maxRetries + 1 || !ShouldRetry(shouldRetry, r.result.error))
  {
    RunFromEarlierCalls(p, work, shouldRetry, 0, p.initialDelay);
  }

  /** An error the predicate declines is raised at once, without sleeping. */
  lemma NonRetryableRaisedAtOnce<T, E>(p: Policy, work: nat -> Result<T, E>, shouldRetry: Option<E -> bool>)
    requires work(0).Err? && !ShouldRetry(shouldRetry, work(0).error)
    ensures Execute(p, work, shouldRetry) == Run(work(0), 1, [])
  {}

  /** Work that always fails retryably is called max_retries + 1 times and the last error escapes. */
  lemma AlwaysFailing<T, E>(p: Policy, work: nat -> Result<T, E>, shouldRetry: Option<E -> bool>)
    requires forall i :: work(i).Err? && ShouldRetry(shouldRetry, work(i).error)
    ensures var r := Execute(p, work, shouldRetry);
      r.calls == p.maxRetries + 1 && |r.sleeps| == p.maxRetries && r.result == work(p.maxRetries)
  {
    ExecuteOutcome(p, work, shouldRetry);
  }

  /** `d * m^n`, the uncapped backoff after n multiplications. */
  function Geometric(d: real, m: real, n: nat): real {
    if n == 0 then d else Geometric(d, m, n - 1) * m
  }

  lemma {:induction false} GeometricShift(d: real, m: real, k: nat)
    ensures Geometric(d * m, m, k) == Geometric(d, m, k + 1)
  {
    if k > 0 {
      GeometricShift(d, m, k - 1);
    }
  }

  lemma {:induction false} GeometricGrows(d: real, m: real, k: nat)
    requires d >= 0.0 && m >= 1.0
    ensures Geometric(d, m, k) >= d
  {
    if k > 0 {
      GeometricGrows(d, m, k - 1);
      assert Geometric(d, m, k - 1) * m >= Geometric(d, m, k - 1) by {
        assert Geometric(d, m, k - 1) * (m - 1.0) >= 0.0;
      }
    }
  }

  lemma {:induction false} GeometricMonotone(a: real, b: real, m: real, k: nat)
    requires 0.0 <= a <= b && m >= 1.0
    ensures Geometric(a, m, k) <= Geometric(b, m, k)
  {
    if k > 0 {
      GeometricMonotone(a, b, m, k - 1);
      assert (Geometric(b, m, k - 1) - Geometric(a, m, k - 1)) * m >= 0.0;
    }
  }

  /** Capping before or after growing by m^k gives the same capped value. */
  lemma CapCommutes(x: real, cap: real, m: real, k: nat)
    requires x >= 0.0 && cap >= 0.0 && m >= 1.0
    ensures MinR(Geometric(MinR(x, cap), m, k), cap) == MinR(Geometric(x, m, k), cap)
  {
    if x > cap {
      GeometricGrows(cap, m, k);
      GeometricMonotone(cap, x, m, k);
    }
  }

  /** True when `s[k] == min(delay * m^(k+1), cap)` for every k. */
  predicate ClosedForm(s: seq<real>, delay: real, m: real, cap: real) {
    forall k :: 0 <= k < |s| ==> s[k] == MinR(Geometric(delay, m, k + 1), cap)
  }

  /** One more sleep in front keeps the closed form, measured from the earlier backoff. */
  lemma ClosedFormStep(delay: real, next: real, m: real, cap: real, k: nat)
    requires delay >= 0.0 && cap >= 0.0 && m >= 1.0 && next == MinR(delay * m, cap)
    ensures MinR(Geometric(next, m, k), cap) == MinR(Geometric(delay, m, k + 1), cap)
  {
    assert delay * m >= 0.0 by { assert delay * (m - 1.0) >= 0.0; }
    CapCommutes(delay * m, cap, m, k);
    GeometricShift(delay, m, k);
  }

  lemma ClosedFormCons(p: Policy, delay: real, rest: seq<real>)
    requires Valid(p) && delay >= 0.0
    requires ClosedForm(rest, NextDelay(p, delay), p.multiplier, p.maxDelay)
    ensures ClosedForm([NextDelay(p, delay)] + rest, delay, p.multiplier, p.maxDelay)
  {
    var s := [NextDelay(p, delay)] + rest;
    forall k | 0 <= k < |s|
      ensures s[k] == MinR(Geometric(delay, p.multiplier, k + 1), p.maxDelay)
    {
      if k > 0 {
        assert s[k] == rest[k - 1];
        NextDelayLater(p, delay, k);
      } else {
        NextDelayFirst(p, delay);
      }
    }
  }

  /** The first backoff is the first sleep of the closed form. */
  lemma NextDelayFirst(p: Policy, delay: real)
    ensures NextDelay(p, delay) == MinR(Geometric(delay, p.multiplier, 1), p.maxDelay)
  {
    assert Geometric(delay, p.multiplier, 1) == Geometric(delay, p.multiplier, 0) * p.multiplier;
  }

  /** The closed form from the next backoff is the closed form from this one, one step later. */
  lemma NextDelayLater(p: Policy, delay: real, k: nat)
    requires Valid(p) && delay >= 0.0
    ensures MinR(Geometric(NextDelay(p, delay), p.multiplier, k), p.maxDelay) == MinR(Geometric(delay, p.multiplier, k + 1), p.maxDelay)
  {
    ClosedFormStep(delay, NextDelay(p, delay), p.multiplier, p.maxDelay, k);
  }

  /** The k-th sleep (from 0) of a run that started with backoff `delay` is min(delay * m^(k+1), cap). */
  lemma {:induction false} SleepsClosedFormFrom<T, E>(p: Policy, work: nat -> Result<T, E>, shouldRetry: Option<E -> bool>, attempt: nat, delay: real)
    requires Valid(p) && attempt <= p.maxRetries && delay >= 0.0
    ensures ClosedForm(RunFrom(p, work, shouldRetry, attempt, delay).sleeps, delay, p.multiplier, p.maxDelay)
    decreases p.maxRetries - attempt
  {
    if attempt < p.maxRetries && work(attempt).Err? && ShouldRetry(shouldRetry, work(attempt).error) {
      var d := NextDelay(p, delay);
      SleepsClosedFormFrom(p, work, shouldRetry, attempt + 1, d);
      RunFromStep(p, work, shouldRetry, attempt, delay);
      ClosedFormCons(p, delay, RunFrom(p, work, shouldRetry, attempt + 1, d).sleeps);
    } else {
      RunFromStops(p, work, shouldRetry, attempt, delay);
    }
  }

  /** Closed form of the backoff: the k-th sleep is min(initial * multiplier^(k+1), max_delay). */
  lemma SleepsClosedForm<T, E>(p: Policy, work: nat -> Result<T, E>, shouldRetry: Option<E -> bool>)
    requires Valid(p)
    ensures var s := Execute(p, work, shouldRetry).sleeps;
      forall k :: 0 <= k < |s| ==> s[k] == MinR(Geometric(p.initialDelay, p.multiplier, k + 1), p.maxDelay)
  {
    SleepsClosedFormFrom(p, work, shouldRetry, 0, p.initialDelay);
    assert Execute(p, work, shouldRetry) == RunFrom(p, work, shouldRetry, 0, p.initialDelay);
  }

  /** Sleeps never shrink, start at no less than the current backoff and never exceed the cap. */
  lemma {:induction false} SleepsMonotoneFrom<T, E>(p: Policy, work: nat -> Result<T, E>, shouldRetry: Option<E -> bool>, attempt: nat, delay: real)
    requires Valid(p) && attempt <= p.maxRetries && 0.0 <= delay <= p.maxDelay
    ensures var s := RunFrom(p, work, shouldRetry, attempt, delay).sleeps;
      && (forall k :: 0 <= k < |s| ==> delay <= s[k] <= p.maxDelay)
      && (forall j, k :: 0 <= j <= k < |s| ==> s[j] <= s[k])
    decreases p.maxRetries - attempt
  {
    if attempt < p.maxRetries && work(attempt).Err? && ShouldRetry(shouldRetry, work(attempt).error) {
      var d := NextDelay(p, delay);
      assert delay * (p.multiplier - 1.0) >= 0.0;
      assert delay <= d <= p.maxDelay;
      SleepsMonotoneFrom(p, work, shouldRetry, attempt + 1, d);
      RunFromStep(p, work, shouldRetry, attempt, delay);
      var s := RunFrom(p, work, shouldRetry, attempt, delay).sleeps;
      var rest := RunFrom(p, work, shouldRetry, attempt + 1, d).sleeps;
      assert forall k :: 1 <= k < |s| ==> s[k] == rest[k - 1];
    }
  }

  lemma SleepsMonotone<T, E>(p: Policy, work: nat -> Result<T, E>, shouldRetry: Option<E -> bool>)
    requires Valid(p)
    ensures var s := Execute(p, work, shouldRetry).sleeps;
      && (forall k :: 0 <= k < |s| ==> p.initialDelay <= s[k] <= p.maxDelay)
      && (forall j, k :: 0 <= j <= k < |s| ==> s[j] <= s[k])
  {
    SleepsMonotoneFrom(p, work, shouldRetry, 0, p.initialDelay);
    assert Execute(p, work, shouldRetry) == RunFrom(p, work, shouldRetry, 0, p.initialDelay);
  }
}
