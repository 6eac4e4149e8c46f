/**
 * Properties of `ModuleAPIClient`: what one failover attempt does, and what
 * the whole `_request` loop guarantees about selections, HTTP exchanges,
 * the shared breaker, connection counts and health flags.
 */
module ClientProps {
  import opened Wrappers
  import opened Values
  import opened Text
  import Address
  import opened ApiClient
  import CB = CircuitBreaker
  import Retry
  import LB = LoadBalancer
  import SR = ServiceRegistry

  // ----- one attempt -----

  /** The shape of one attempt: selections, requests sent, the breaker, and how it can end. */
  lemma AttemptShape<E>(c: Client, a: Args, w: World<E>, attempt: nat, last: Option<Failure>, sentBefore: nat, picksBefore: nat)
    ensures var r := Attempt(c, a, w, attempt, last, sentBefore, picksBefore);
      && 1 <= r.selections <= 2
      && (!c.useDiscovery ==> r.selections == 1)
      && r.client == c.(balancer := r.client.balancer, breaker := r.client.breaker,
                        discovery := r.client.discovery, endpoints := r.client.endpoints)
      && r.client.balancer.strategy == c.balancer.strategy
      && |r.sent| <= c.policy.maxRetries + 1
      && (r.endpoint.None? ==> r.sent == [] && r.ending.Raise? && r.client.breaker == c.breaker)
      && (r.endpoint.Some? ==> r.endpoint.value != "" && forall i :: 0 <= i < |r.sent| ==> r.sent[i] == RequestTo(c, a, w, r.endpoint.value))
      && r.client.breaker.failures <= c.breaker.failures + 1
      && r.client.breaker.threshold == c.breaker.threshold
      && r.client.breaker.recoveryTimeout == c.breaker.recoveryTimeout
      && (Valid(c) ==> Valid(r.client))
      && (r.ending.Failover? ==> Recoverable(r.ending.error))
      && (r.ending.Raise? ==>
          || r.ending.error == Unexpected
          || r.ending.error.SelectionKeyError?
          || (last.Some? && r.ending.error == last.value)
          || (last.None? && r.ending.error == NoHealthyEndpoints))
  {
    var p := PickEndpoint(c, w, last, picksBefore);
    if p.chosen.Ok? {
      var ep := p.chosen.value;
      assert RequestTo(p.client, a, w, ep) == RequestTo(c, a, w, ep);
      var g := Guard(p.client.policy, p.client.breaker, w.http, RequestTo(c, a, w, ep), sentBefore, a.shouldRetry,
                     w.clock(attempt).admitted, w.clock(attempt).failed);
      assert Valid(c) ==> LB.CountsNonNegative(p.client.balancer);
    }
  }

  /**
   * An attempt keeps the endpoint lists unless a refresh removed or added an
   * endpoint, which never happens without discovery; it leaves the
   * connection count of every endpoint the refresh did not touch as it
   * found it, unless an uncaught exception skipped the decrement; and it
   * changes a health flag only on the endpoint it sent requests to or on
   * one the refresh removed or added.
   */
  lemma AttemptBookkeeping<E>(c: Client, a: Args, w: World<E>, attempt: nat, last: Option<Failure>, sentBefore: nat, picksBefore: nat)
    ensures var r := Attempt(c, a, w, attempt, last, sentBefore, picksBefore);
      && (!c.useDiscovery ==> r.churn == {} && r.client.endpoints == c.endpoints && r.client.discovery == c.discovery)
      && (r.churn == {} ==> r.client.balancer.endpoints == c.balancer.endpoints)
      && (LB.CountsNonNegative(c.balancer) && r.ending != Raise(Unexpected) ==>
          forall e :: e !in r.churn ==> LB.Count(r.client.balancer, e) == LB.Count(c.balancer, e))
      && (forall e :: e !in r.churn && LB.Healthy(r.client.balancer, e) != LB.Healthy(c.balancer, e) ==>
          r.sent != [] && r.endpoint == Some(e))
  {
    AttemptSettles(c, a, w, attempt, last, sentBefore, picksBefore);
    AttemptMarks(c, a, w, attempt, last, sentBefore, picksBefore);
  }

  lemma AttemptSettles<E>(c: Client, a: Args, w: World<E>, attempt: nat, last: Option<Failure>, sentBefore: nat, picksBefore: nat)
    ensures var r := Attempt(c, a, w, attempt, last, sentBefore, picksBefore);
      && (!c.useDiscovery ==> r.churn == {} && r.client.endpoints == c.endpoints && r.client.discovery == c.discovery)
      && (r.churn == {} ==> r.client.balancer.endpoints == c.balancer.endpoints)
      && (LB.CountsNonNegative(c.balancer) && r.ending != Raise(Unexpected) ==>
          forall e :: e !in r.churn ==> LB.Count(r.client.balancer, e) == LB.Count(c.balancer, e))
  {
    var p := PickEndpoint(c, w, last, picksBefore);
    var r := Attempt(c, a, w, attempt, last, sentBefore, picksBefore);
    forall e | e !in p.churn ensures LB.Count(p.client.balancer, e) == LB.Count(c.balancer, e) {
      assert LB.SameStateFor(p.client.balancer, c.balancer, e);
    }
    if p.chosen.Ok? {
      var ep := p.chosen.value;
      assert r == Send(p.client, a, w, attempt, ep, sentBefore, p.selections, p.churn);
      SendKeepsBooks(p.client, a, w, attempt, ep, sentBefore, p.selections, p.churn);
    }
  }

  lemma AttemptMarks<E>(c: Client, a: Args, w: World<E>, attempt: nat, last: Option<Failure>, sentBefore: nat, picksBefore: nat)
    ensures var r := Attempt(c, a, w, attempt, last, sentBefore, picksBefore);
      forall e :: e !in r.churn && LB.Healthy(r.client.balancer, e) != LB.Healthy(c.balancer, e) ==> r.sent != [] && r.endpoint == Some(e)
  {
    var p := PickEndpoint(c, w, last, picksBefore);
    var r := Attempt(c, a, w, attempt, last, sentBefore, picksBefore);
    forall e | e !in p.churn ensures LB.Healthy(p.client.balancer, e) == LB.Healthy(c.balancer, e) {
      assert LB.SameStateFor(p.client.balancer, c.balancer, e);
    }
    if p.chosen.Ok? {
      var ep := p.chosen.value;
      assert r == Send(p.client, a, w, attempt, ep, sentBefore, p.selections, p.churn);
      SendKeepsBooks(p.client, a, w, attempt, ep, sentBefore, p.selections, p.churn);
    }
  }

  /**
   * Sending to `ep` keeps the endpoint lists and touches only `ep`'s count
   * and flag: the count comes back unless an uncaught exception skipped the
   * decrement, and the flag changes only when a request went out.
   */
  lemma SendKeepsBooks<E>(c: Client, a: Args, w: World<E>, attempt: nat, ep: string, sentBefore: nat, selections: nat, churn: set<string>)
    ensures var r := Send(c, a, w, attempt, ep, sentBefore, selections, churn);
      && r.client.endpoints == c.endpoints && r.client.discovery == c.discovery && r.churn == churn
      && r.client.balancer.endpoints == c.balancer.endpoints
      && (forall e :: e != ep ==> LB.Count(r.client.balancer, e) == LB.Count(c.balancer, e))
      && (forall e :: e != ep ==> LB.Healthy(r.client.balancer, e) == LB.Healthy(c.balancer, e))
      && (r.ending != Raise(Unexpected) && LB.Count(c.balancer, ep) >= 0 ==>
          LB.Count(r.client.balancer, ep) == LB.Count(c.balancer, ep))
      && (LB.Healthy(r.client.balancer, ep) != LB.Healthy(c.balancer, ep) ==> r.sent != [] && r.endpoint == Some(ep))
  {
    var r := Send(c, a, w, attempt, ep, sentBefore, selections, churn);
    var req := RequestTo(c, a, w, ep);
    var g := Guard(c.policy, c.breaker, w.http, req, sentBefore, a.shouldRetry, w.clock(attempt).admitted, w.clock(attempt).failed);
    if r.ending.Raise? {
      assert g.calls > 0;
      assert r.ending.error == Unexpected;
    }
  }

  /** An open breaker inside its recovery window makes the attempt fail fast: nothing sent, breaker unchanged. */
  lemma AttemptFailsFastWhenOpen<E>(c: Client, a: Args, w: World<E>, attempt: nat, last: Option<Failure>, sentBefore: nat, picksBefore: nat)
    requires CB.Refuses(c.breaker, w.clock(attempt).admitted)
    ensures var r := Attempt(c, a, w, attempt, last, sentBefore, picksBefore);
      && r.sent == [] && r.client.breaker == c.breaker
      && (r.endpoint.Some? ==> r.ending.Failover? && r.ending.error.BreakerOpen?)
  {
    var p := PickEndpoint(c, w, last, picksBefore);
    assert p.client.breaker == c.breaker;
  }

  /** `Send` answers with the JSON body of the last exchange it made. */
  lemma SendAnswer<E>(c: Client, a: Args, w: World<E>, attempt: nat, ep: string, sentBefore: nat, selections: nat, churn: set<string>)
    ensures Answers(w, sentBefore, Send(c, a, w, attempt, ep, sentBefore, selections, churn))
  {
    var r := Send(c, a, w, attempt, ep, sentBefore, selections, churn);
    var req := RequestTo(c, a, w, ep);
    var g := Guard(c.policy, c.breaker, w.http, req, sentBefore, a.shouldRetry, w.clock(attempt).admitted, w.clock(attempt).failed);
    if r.ending.Answer? {
      assert g.result.Returned?;
      assert r.sent[|r.sent| - 1] == req;
      assert Call(w.http, req, sentBefore, g.calls - 1) == Ok(g.result.value);
    }
  }

  /** An attempt answers with the JSON body of the last exchange it made. */
  lemma AttemptAnswer<E>(c: Client, a: Args, w: World<E>, attempt: nat, last: Option<Failure>, sentBefore: nat, picksBefore: nat)
    ensures Answers(w, sentBefore, Attempt(c, a, w, attempt, last, sentBefore, picksBefore))
  {
    var p := PickEndpoint(c, w, last, picksBefore);
    if p.chosen.Ok? {
      SendAnswer(p.client, a, w, attempt, p.chosen.value, sentBefore, p.selections, p.churn);
    }
  }

  // ----- what the loop relies on about one iteration -----

  /** One or two selections (one without discovery), at most one more breaker failure, and a client still valid. */
  ghost predicate Counted(c: Client, t: AttemptRun) {
    && 1 <= t.selections <= 2
    && (!c.useDiscovery ==> t.selections == 1)
    && t.client == c.(balancer := t.client.balancer, breaker := t.client.breaker,
                      discovery := t.client.discovery, endpoints := t.client.endpoints)
    && t.client.balancer.strategy == c.balancer.strategy
    && t.client.breaker.failures <= c.breaker.failures + 1
    && (Valid(c) ==> Valid(t.client))
  }

  /** The settings later iterations read are kept, and at most `maxRetries + 1` exchanges are made. */
  ghost predicate Bounded(c: Client, t: AttemptRun) {
    && t.client.policy == c.policy && t.client.timeout == c.timeout && t.client.useDiscovery == c.useDiscovery
    && |t.sent| <= c.policy.maxRetries + 1
  }

  /** Copies of one request go to the chosen endpoint, and nothing is sent when none was chosen. */
  ghost predicate Aimed<E>(c: Client, a: Args, w: World<E>, t: AttemptRun) {
    && (t.endpoint.None? ==> t.sent == [] && t.ending.Raise? && t.client.breaker == c.breaker)
    && (t.endpoint.Some? ==> t.endpoint.value != "" && forall i :: 0 <= i < |t.sent| ==> t.sent[i] == RequestTo(c, a, w, t.endpoint.value))
  }

  /** Failover only on a recoverable error; a raised error is uncaught, a selection failure, or the recorded one. */
  ghost predicate Ended(last: Option<Failure>, t: AttemptRun) {
    && (t.ending.Failover? ==> Recoverable(t.ending.error))
    && (t.ending.Raise? ==>
        || t.ending.error == Unexpected
        || t.ending.error.SelectionKeyError?
        || (last.Some? && t.ending.error == last.value)
        || (last.None? && t.ending.error == NoHealthyEndpoints))
  }

  /** An answer is the JSON body of the last exchange, the `(sentBefore + |sent| - 1)`-th of the request. */
  ghost predicate Answers<E>(w: World<E>, sentBefore: nat, t: AttemptRun) {
    t.ending.Answer? ==>
      && |t.sent| > 0
      && w.http(t.sent[|t.sent| - 1], sentBefore + |t.sent| - 1) == Answered(Some(t.ending.value))
  }

  /**
   * The endpoint lists are kept unless a refresh touched an endpoint (never
   * without discovery), and the counts of untouched endpoints are settled
   * unless an uncaught exception leaked one.
   */
  ghost predicate Settled(c: Client, t: AttemptRun) {
    && (!c.useDiscovery ==> t.churn == {} && t.client.endpoints == c.endpoints && t.client.discovery == c.discovery)
    && (t.churn == {} ==> t.client.balancer.endpoints == c.balancer.endpoints)
    && (LB.CountsNonNegative(c.balancer) && t.ending != Raise(Unexpected) ==>
        forall e :: e !in t.churn ==> LB.Count(t.client.balancer, e) == LB.Count(c.balancer, e))
  }

  /** A health flag changes only on the endpoint requests went to or on one a refresh removed or added. */
  ghost predicate Marked(c: Client, t: AttemptRun) {
    forall e :: e !in t.churn && LB.Healthy(t.client.balancer, e) != LB.Healthy(c.balancer, e) ==> t.sent != [] && t.endpoint == Some(e)
  }

  /** With the breaker refusing at this iteration's clock: nothing sent, the breaker kept, and a chosen endpoint fails over. */
  ghost predicate Refused<E>(c: Client, w: World<E>, attempt: nat, t: AttemptRun) {
    CB.Refuses(c.breaker, w.clock(attempt).admitted) ==>
      && t.sent == [] && t.client.breaker == c.breaker
      && (t.endpoint.Some? ==> t.ending.Failover? && t.ending.error.BreakerOpen?)
  }

  ghost predicate CountsSteps(step: Step) {
    forall c: Client, attempt: nat, last: Option<Failure>, sentBefore: nat, picksBefore: nat ::
      Counted(c, step(c, attempt, last, sentBefore, picksBefore))
  }

  ghost predicate BoundsSteps(step: Step) {
    forall c: Client, attempt: nat, last: Option<Failure>, sentBefore: nat, picksBefore: nat ::
      Bounded(c, step(c, attempt, last, sentBefore, picksBefore))
  }

  ghost predicate AimsSteps<E>(step: Step, a: Args, w: World<E>) {
    forall c: Client, attempt: nat, last: Option<Failure>, sentBefore: nat, picksBefore: nat ::
      Aimed(c, a, w, step(c, attempt, last, sentBefore, picksBefore))
  }

  ghost predicate EndsSteps(step: Step) {
    forall c: Client, attempt: nat, last: Option<Failure>, sentBefore: nat, picksBefore: nat ::
      Ended(last, step(c, attempt, last, sentBefore, picksBefore))
  }

  ghost predicate AnswersSteps<E>(step: Step, w: World<E>) {
    forall c: Client, attempt: nat, last: Option<Failure>, sentBefore: nat, picksBefore: nat ::
      Answers(w, sentBefore, step(c, attempt, last, sentBefore, picksBefore))
  }

  ghost predicate SettlesSteps(step: Step) {
    forall c: Client, attempt: nat, last: Option<Failure>, sentBefore: nat, picksBefore: nat ::
      Settled(c, step(c, attempt, last, sentBefore, picksBefore))
  }

  ghost predicate MarksSteps(step: Step) {
    forall c: Client, attempt: nat, last: Option<Failure>, sentBefore: nat, picksBefore: nat ::
      Marked(c, step(c, attempt, last, sentBefore, picksBefore))
  }

  ghost predicate RefusesSteps<E>(step: Step, w: World<E>) {
    forall c: Client, attempt: nat, last: Option<Failure>, sentBefore: nat, picksBefore: nat ::
      Refused(c, w, attempt, step(c, attempt, last, sentBefore, picksBefore))
  }

  /** `_request`'s iteration has every property the loop lemmas rely on. */
  lemma IterationCounts<E>(a: Args, w: World<E>)
    ensures CountsSteps(Iteration(a, w)) && BoundsSteps(Iteration(a, w)) && AimsSteps(Iteration(a, w), a, w)
  {
    IterationCounted(a, w);
    IterationBounded(a, w);
    IterationAimed(a, w);
  }

  lemma IterationCounted<E>(a: Args, w: World<E>)
    ensures CountsSteps(Iteration(a, w))
  {
    var step := Iteration(a, w);
    forall c: Client, attempt: nat, last: Option<Failure>, sentBefore: nat, picksBefore: nat
      ensures Counted(c, step(c, attempt, last, sentBefore, picksBefore))
    {
      assert step(c, attempt, last, sentBefore, picksBefore) == Attempt(c, a, w, attempt, last, sentBefore, picksBefore);
      AttemptShape(c, a, w, attempt, last, sentBefore, picksBefore);
    }
  }

  lemma IterationBounded<E>(a: Args, w: World<E>)
    ensures BoundsSteps(Iteration(a, w))
  {
    var step := Iteration(a, w);
    forall c: Client, attempt: nat, last: Option<Failure>, sentBefore: nat, picksBefore: nat
      ensures Bounded(c, step(c, attempt, last, sentBefore, picksBefore))
    {
      assert step(c, attempt, last, sentBefore, picksBefore) == Attempt(c, a, w, attempt, last, sentBefore, picksBefore);
      AttemptShape(c, a, w, attempt, last, sentBefore, picksBefore);
    }
  }

  lemma IterationAimed<E>(a: Args, w: World<E>)
    ensures AimsSteps(Iteration(a, w), a, w)
  {
    var step := Iteration(a, w);
    forall c: Client, attempt: nat, last: Option<Failure>, sentBefore: nat, picksBefore: nat
      ensures Aimed(c, a, w, step(c, attempt, last, sentBefore, picksBefore))
    {
      assert step(c, attempt, last, sentBefore, picksBefore) == Attempt(c, a, w, attempt, last, sentBefore, picksBefore);
      AttemptShape(c, a, w, attempt, last, sentBefore, picksBefore);
    }
  }

  lemma IterationEnds<E>(a: Args, w: World<E>)
    ensures EndsSteps(Iteration(a, w)) && AnswersSteps(Iteration(a, w), w)
  {
    IterationEnded(a, w);
    IterationAnswers(a, w);
  }

  lemma IterationEnded<E>(a: Args, w: World<E>)
    ensures EndsSteps(Iteration(a, w))
  {
    var step := Iteration(a, w);
    forall c: Client, attempt: nat, last: Option<Failure>, sentBefore: nat, picksBefore: nat
      ensures Ended(last, step(c, attempt, last, sentBefore, picksBefore))
    {
      assert step(c, attempt, last, sentBefore, picksBefore) == Attempt(c, a, w, attempt, last, sentBefore, picksBefore);
      AttemptShape(c, a, w, attempt, last, sentBefore, picksBefore);
    }
  }

  lemma IterationAnswers<E>(a: Args, w: World<E>)
    ensures AnswersSteps(Iteration(a, w), w)
  {
    var step := Iteration(a, w);
    forall c: Client, attempt: nat, last: Option<Failure>, sentBefore: nat, picksBefore: nat
      ensures Answers(w, sentBefore, step(c, attempt, last, sentBefore, picksBefore))
    {
      assert step(c, attempt, last, sentBefore, picksBefore) == Attempt(c, a, w, attempt, last, sentBefore, picksBefore);
      AttemptAnswer(c, a, w, attempt, last, sentBefore, picksBefore);
    }
  }

  lemma IterationKeepsBooks<E>(a: Args, w: World<E>)
    ensures SettlesSteps(Iteration(a, w)) && MarksSteps(Iteration(a, w))
  {
    var step := Iteration(a, w);
    forall c: Client, attempt: nat, last: Option<Failure>, sentBefore: nat, picksBefore: nat
      ensures Settled(c, step(c, attempt, last, sentBefore, picksBefore))
      ensures Marked(c, step(c, attempt, last, sentBefore, picksBefore))
    {
      assert step(c, attempt, last, sentBefore, picksBefore) == Attempt(c, a, w, attempt, last, sentBefore, picksBefore);
      AttemptBookkeeping(c, a, w, attempt, last, sentBefore, picksBefore);
    }
  }

  lemma IterationFailsFast<E>(a: Args, w: World<E>)
    ensures RefusesSteps(Iteration(a, w), w)
  {
    var step := Iteration(a, w);
    forall c: Client, attempt: nat, last: Option<Failure>, sentBefore: nat, picksBefore: nat
      ensures Refused(c, w, attempt, step(c, attempt, last, sentBefore, picksBefore))
    {
      if CB.Refuses(c.breaker, w.clock(attempt).admitted) {
        AttemptFailsFastWhenOpen(c, a, w, attempt, last, sentBefore, picksBefore);
      }
    }
  }

  // ----- the failover loop -----

  /**
   * A request every exchange of `_request` sends: a non-empty endpoint
   * followed by the path, with the request's verb, body, timeout and the
   * shared request id.
   */
  ghost predicate Carries<E>(c: Client, a: Args, w: World<E>, q: HttpRequest) {
    |a.path| < |q.url| && q == RequestTo(c, a, w, q.url[..|q.url| - |a.path|])
  }

  /** A request to a non-empty endpoint is one `_request` carries. */
  lemma CarriesTo<E>(c: Client, a: Args, w: World<E>, ep: string)
    requires ep != ""
    ensures Carries(c, a, w, RequestTo(c, a, w, ep))
  {
    var q := RequestTo(c, a, w, ep);
    assert q.url[..|q.url| - |a.path|] == ep;
  }

  /**
   * How many iterations the loop from `attempt` on runs and what they cost:
   * one or two selections each (exactly one without discovery) and at most
   * one breaker failure each; only the balancer, the breaker and the
   * discovered endpoints change.
   */
  lemma {:induction false} AttemptsCount(step: Step, max: int, c: Client, attempt: nat, last: Option<Failure>,
                                         sent: seq<HttpRequest>, sleeps: seq<real>, selections: nat, churn: set<string>)
    requires CountsSteps(step)
    decreases max - attempt
    ensures var r := Attempts(step, max, c, attempt, last, sent, sleeps, selections, churn);
      var k := r.attempts - attempt;
      && attempt <= r.attempts
      && (attempt < max ==> r.attempts <= max)
      && (attempt >= max ==> r.attempts == attempt && r.client == c && r.sent == sent && r.sleeps == sleeps)
      && selections + k <= r.selections <= selections + 2 * k
      && (!c.useDiscovery ==> r.selections == selections + k)
      && r.client == c.(balancer := r.client.balancer, breaker := r.client.breaker,
                        discovery := r.client.discovery, endpoints := r.client.endpoints)
      && r.client.balancer.strategy == c.balancer.strategy
      && r.client.breaker.failures <= c.breaker.failures + k
      && (Valid(c) ==> Valid(r.client))
  {
    if attempt < max {
      var t := step(c, attempt, last, |sent|, selections);
      assert Counted(c, t);
      if t.ending.Failover? && attempt < max - 1 {
        AttemptsCount(step, max, t.client, attempt + 1, Some(t.ending.error), sent + t.sent, sleeps + t.sleeps, selections + t.selections, churn + t.churn);
      }
    }
  }

  /** The loop only appends to the exchanges and sleeps it was given, and only adds to the endpoints refreshes touched. */
  lemma {:induction false} AttemptsPrefix(step: Step, max: int, c: Client, attempt: nat, last: Option<Failure>,
                                          sent: seq<HttpRequest>, sleeps: seq<real>, selections: nat, churn: set<string>)
    decreases max - attempt
    ensures var r := Attempts(step, max, c, attempt, last, sent, sleeps, selections, churn);
      && |sent| <= |r.sent| && r.sent[..|sent|] == sent
      && |sleeps| <= |r.sleeps| && r.sleeps[..|sleeps|] == sleeps
      && churn <= r.churn
  {
    if attempt < max {
      var t := step(c, attempt, last, |sent|, selections);
      var sent' := sent + t.sent;
      var sleeps' := sleeps + t.sleeps;
      assert sent'[..|sent|] == sent;
      assert sleeps'[..|sleeps|] == sleeps;
      if t.ending.Failover? && attempt < max - 1 {
        var last' := Some(t.ending.error);
        var sel' := selections + t.selections;
        var churn' := churn + t.churn;
        AttemptsPrefix(step, max, t.client, attempt + 1, last', sent', sleeps', sel', churn');
        var r := Attempts(step, max, t.client, attempt + 1, last', sent', sleeps', sel', churn');
        assert r.sent[..|sent|] == r.sent[..|sent'|][..|sent|];
        assert r.sleeps[..|sleeps|] == r.sleeps[..|sleeps'|][..|sleeps|];
      }
    }
  }

  /** The loop from `attempt` on makes at most `maxRetries + 1` exchanges per iteration. */
  lemma {:induction false} AttemptsSent(step: Step, max: int, c: Client, attempt: nat, last: Option<Failure>,
                                        sent: seq<HttpRequest>, sleeps: seq<real>, selections: nat, churn: set<string>)
    requires BoundsSteps(step)
    decreases max - attempt
    ensures var r := Attempts(step, max, c, attempt, last, sent, sleeps, selections, churn);
      |r.sent| - |sent| <= (r.attempts - attempt) * (c.policy.maxRetries + 1)
  {
    if attempt < max {
      var t := step(c, attempt, last, |sent|, selections);
      assert Bounded(c, t);
      if t.ending.Failover? && attempt < max - 1 {
        var last' := Some(t.ending.error);
        AttemptsSent(step, max, t.client, attempt + 1, last', sent + t.sent, sleeps + t.sleeps, selections + t.selections, churn + t.churn);
        var r := Attempts(step, max, t.client, attempt + 1, last', sent + t.sent, sleeps + t.sleeps, selections + t.selections, churn + t.churn);
        MulStep(r.attempts - attempt, c.policy.maxRetries + 1);
      }
    }
  }

  lemma MulStep(k: int, m: int)
    ensures (k - 1) * m + m == k * m
  {
  }

  /** Every exchange the loop from `attempt` on appends carries the request's verb, body, timeout and id to some endpoint. */
  lemma {:induction false} AttemptsCarry<E>(step: Step, max: int, a: Args, w: World<E>, c: Client, attempt: nat, last: Option<Failure>,
                                            sent: seq<HttpRequest>, sleeps: seq<real>, selections: nat, churn: set<string>)
    requires BoundsSteps(step) && AimsSteps(step, a, w)
    decreases max - attempt
    ensures var r := Attempts(step, max, c, attempt, last, sent, sleeps, selections, churn);
      forall i :: |sent| <= i < |r.sent| ==> Carries(c, a, w, r.sent[i])
  {
    AttemptsPrefix(step, max, c, attempt, last, sent, sleeps, selections, churn);
    if attempt < max {
      var t := step(c, attempt, last, |sent|, selections);
      assert Aimed(c, a, w, t) && Bounded(c, t);
      var sent' := sent + t.sent;
      if t.endpoint.Some? {
        CarriesTo(c, a, w, t.endpoint.value);
      }
      forall i | |sent| <= i < |sent'| ensures Carries(c, a, w, sent'[i]) {
        assert sent'[i] == t.sent[i - |sent|] == RequestTo(c, a, w, t.endpoint.value);
      }
      if t.ending.Failover? && attempt < max - 1 {
        var last' := Some(t.ending.error);
        var sel' := selections + t.selections;
        var churn' := churn + t.churn;
        var sleeps' := sleeps + t.sleeps;
        AttemptsCarry(step, max, a, w, t.client, attempt + 1, last', sent', sleeps', sel', churn');
        AttemptsPrefix(step, max, t.client, attempt + 1, last', sent', sleeps', sel', churn');
        var r := Attempts(step, max, t.client, attempt + 1, last', sent', sleeps', sel', churn');
        forall i | |sent| <= i < |r.sent| ensures Carries(c, a, w, r.sent[i]) {
          if i < |sent'| {
            assert r.sent[i] == r.sent[..|sent'|][i] == sent'[i];
          } else {
            assert Carries(t.client, a, w, r.sent[i]);
          }
        }
      }
    }
  }

  /** An answer from the loop is the JSON body of the last exchange of the request. */
  lemma {:induction false} AttemptsAnswer<E>(step: Step, max: int, w: World<E>, c: Client, attempt: nat, last: Option<Failure>,
                                             sent: seq<HttpRequest>, sleeps: seq<real>, selections: nat, churn: set<string>)
    requires AnswersSteps(step, w)
    decreases max - attempt
    ensures var r := Attempts(step, max, c, attempt, last, sent, sleeps, selections, churn);
      r.result.Ok? ==>
        && |r.sent| > |sent|
        && w.http(r.sent[|r.sent| - 1], |r.sent| - 1) == Answered(Some(r.result.value))
  {
    if attempt < max {
      var t := step(c, attempt, last, |sent|, selections);
      assert Answers(w, |sent|, t);
      if t.ending.Failover? && attempt < max - 1 {
        AttemptsAnswer(step, max, w, t.client, attempt + 1, Some(t.ending.error), sent + t.sent, sleeps + t.sleeps, selections + t.selections, churn + t.churn);
      } else if t.ending.Answer? {
        assert (sent + t.sent)[|sent + t.sent| - 1] == t.sent[|t.sent| - 1];
      }
    }
  }

  /**
   * The errors the loop from `attempt` on can end with: "Request failed
   * after N attempts" only when no iteration ran, "No healthy endpoints"
   * only from the first iteration after nothing was recorded.
   */
  lemma {:induction false} AttemptsErrors(step: Step, max: int, c: Client, attempt: nat, last: Option<Failure>,
                                          sent: seq<HttpRequest>, sleeps: seq<real>, selections: nat, churn: set<string>)
    requires EndsSteps(step)
    requires last.None? || Recoverable(last.value)
    decreases max - attempt
    ensures var r := Attempts(step, max, c, attempt, last, sent, sleeps, selections, churn);
      && (r.result.Err? ==>
          || Recoverable(r.result.error)
          || r.result.error == Unexpected
          || r.result.error.SelectionKeyError?
          || r.result.error == NoHealthyEndpoints
          || r.result.error == FailedAfter(max))
      && (r.result.Err? && r.result.error.FailedAfter? ==>
          attempt >= max && last.None? && r.attempts == attempt && r.result.error.attempts == max)
      && (r.result == Err(NoHealthyEndpoints) ==> last.None? && r.attempts == attempt + 1)
  {
    if attempt < max {
      var t := step(c, attempt, last, |sent|, selections);
      assert Ended(last, t);
      if t.ending.Failover? && attempt < max - 1 {
        AttemptsErrors(step, max, t.client, attempt + 1, Some(t.ending.error), sent + t.sent, sleeps + t.sleeps, selections + t.selections, churn + t.churn);
      }
    }
  }

  /**
   * The loop keeps the endpoint lists unless a refresh touched an endpoint,
   * which never happens without discovery, and, unless an uncaught
   * exception ended it, leaves the connection count of every endpoint no
   * refresh touched as it found it.
   */
  lemma {:induction false} AttemptsCounts(step: Step, max: int, c: Client, attempt: nat, last: Option<Failure>,
                                          sent: seq<HttpRequest>, sleeps: seq<real>, selections: nat, churn: set<string>)
    requires CountsSteps(step) && SettlesSteps(step)
    decreases max - attempt
    ensures var r := Attempts(step, max, c, attempt, last, sent, sleeps, selections, churn);
      && churn <= r.churn
      && (!c.useDiscovery ==> r.churn == churn && r.client.endpoints == c.endpoints)
      && (r.churn == {} ==> r.client.balancer.endpoints == c.balancer.endpoints)
      && (Valid(c) && r.result != Err(Unexpected) ==>
          forall e :: e !in r.churn ==> LB.Count(r.client.balancer, e) == LB.Count(c.balancer, e))
  {
    if attempt < max {
      var t := step(c, attempt, last, |sent|, selections);
      assert Counted(c, t) && Settled(c, t);
      if t.ending.Failover? && attempt < max - 1 {
        AttemptsCounts(step, max, t.client, attempt + 1, Some(t.ending.error), sent + t.sent, sleeps + t.sleeps, selections + t.selections, churn + t.churn);
      }
    }
  }

  /**
   * Every health flag of `b` that differs from `c`'s, on an endpoint outside
   * `churn`, was set by an exchange to its endpoint at `from` or later.
   */
  ghost predicate HealthTraced<E>(c: Client, a: Args, w: World<E>, from: nat, b: LB.Balancer, later: seq<HttpRequest>, churn: set<string>) {
    forall e :: e !in churn && LB.Healthy(b, e) != LB.Healthy(c.balancer, e) ==>
      exists i :: from <= i < |later| && later[i] == RequestTo(c, a, w, e)
  }

  /** The loop changes a health flag only on an endpoint it sent a request to or one a refresh removed or added. */
  lemma {:induction false} AttemptsHealth<E>(step: Step, max: int, a: Args, w: World<E>, c: Client, attempt: nat, last: Option<Failure>,
                                             sent: seq<HttpRequest>, sleeps: seq<real>, selections: nat, churn: set<string>)
    requires BoundsSteps(step) && AimsSteps(step, a, w) && MarksSteps(step)
    decreases max - attempt
    ensures var r := Attempts(step, max, c, attempt, last, sent, sleeps, selections, churn);
      HealthTraced(c, a, w, |sent|, r.client.balancer, r.sent, r.churn)
  {
    if attempt < max {
      var t := step(c, attempt, last, |sent|, selections);
      assert Bounded(c, t) && Aimed(c, a, w, t) && Marked(c, t);
      if t.ending.Failover? && attempt < max - 1 {
        AttemptsHealth(step, max, a, w, t.client, attempt + 1, Some(t.ending.error), sent + t.sent, sleeps + t.sleeps, selections + t.selections, churn + t.churn);
        HealthFailover(step, max, a, w, c, attempt, last, sent, sleeps, selections, churn);
      } else {
        HealthLast(step, max, a, w, c, attempt, last, sent, sleeps, selections, churn);
      }
    } else {
      assert Attempts(step, max, c, attempt, last, sent, sleeps, selections, churn).client == c;
    }
  }

  /** A failover iteration followed by the rest of the loop. */
  lemma HealthFailover<E>(step: Step, max: int, a: Args, w: World<E>, c: Client, attempt: nat, last: Option<Failure>,
                          sent: seq<HttpRequest>, sleeps: seq<real>, selections: nat, churn: set<string>)
    requires attempt < max - 1
    requires var t := step(c, attempt, last, |sent|, selections);
      && t.ending.Failover? && Bounded(c, t) && Aimed(c, a, w, t) && Marked(c, t)
      && var rest := Attempts(step, max, t.client, attempt + 1, Some(t.ending.error), sent + t.sent, sleeps + t.sleeps, selections + t.selections, churn + t.churn);
      HealthTraced(t.client, a, w, |sent + t.sent|, rest.client.balancer, rest.sent, rest.churn)
    ensures var r := Attempts(step, max, c, attempt, last, sent, sleeps, selections, churn);
      HealthTraced(c, a, w, |sent|, r.client.balancer, r.sent, r.churn)
  {
    var t := step(c, attempt, last, |sent|, selections);
    var last' := Some(t.ending.error);
    var sent' := sent + t.sent;
    var sleeps' := sleeps + t.sleeps;
    var sel' := selections + t.selections;
    var churn' := churn + t.churn;
    AttemptsPrefix(step, max, t.client, attempt + 1, last', sent', sleeps', sel', churn');
    var rest := Attempts(step, max, t.client, attempt + 1, last', sent', sleeps', sel', churn');
    HealthAfter(c, a, w, t, sent, rest.sent, rest.client.balancer, rest.churn);
    AttemptsFailover(step, max, c, attempt, last, sent, sleeps, selections, churn);
  }

  /** An iteration that ends the loop. */
  lemma HealthLast<E>(step: Step, max: int, a: Args, w: World<E>, c: Client, attempt: nat, last: Option<Failure>,
                      sent: seq<HttpRequest>, sleeps: seq<real>, selections: nat, churn: set<string>)
    requires attempt < max
    requires var t := step(c, attempt, last, |sent|, selections);
      && !(t.ending.Failover? && attempt < max - 1) && Bounded(c, t) && Aimed(c, a, w, t) && Marked(c, t)
    ensures var r := Attempts(step, max, c, attempt, last, sent, sleeps, selections, churn);
      HealthTraced(c, a, w, |sent|, r.client.balancer, r.sent, r.churn)
  {
    var t := step(c, attempt, last, |sent|, selections);
    var r := Attempts(step, max, c, attempt, last, sent, sleeps, selections, churn);
    assert r.sent == sent + t.sent && r.client == t.client && r.churn == churn + t.churn;
    HealthAfter(c, a, w, t, sent, r.sent, r.client.balancer, r.churn);
  }

  /** An iteration that fails over before the last one hands the loop on to the next iteration. */
  lemma AttemptsFailover(step: Step, max: int, c: Client, attempt: nat, last: Option<Failure>,
                         sent: seq<HttpRequest>, sleeps: seq<real>, selections: nat, churn: set<string>)
    requires attempt < max - 1
    requires step(c, attempt, last, |sent|, selections).ending.Failover?
    ensures var t := step(c, attempt, last, |sent|, selections);
      Attempts(step, max, c, attempt, last, sent, sleeps, selections, churn)
      == Attempts(step, max, t.client, attempt + 1, Some(t.ending.error), sent + t.sent, sleeps + t.sleeps, selections + t.selections, churn + t.churn)
  {
  }

  /**
   * One iteration's health changes, followed by later ones: a flag outside
   * the refreshed endpoints that differs from the start was changed by this
   * iteration, which sent to its endpoint, or later, by a later exchange to it.
   */
  lemma HealthAfter<E>(c: Client, a: Args, w: World<E>, t: AttemptRun, sent: seq<HttpRequest>,
                       later: seq<HttpRequest>, b: LB.Balancer, churn: set<string>)
    requires Bounded(c, t) && Aimed(c, a, w, t) && Marked(c, t) && t.churn <= churn
    requires |sent| + |t.sent| <= |later| && later[..|sent| + |t.sent|] == sent + t.sent
    requires HealthTraced(t.client, a, w, |sent| + |t.sent|, b, later, churn)
    ensures HealthTraced(c, a, w, |sent|, b, later, churn)
  {
    forall e | e !in churn && LB.Healthy(b, e) != LB.Healthy(c.balancer, e)
      ensures exists i :: |sent| <= i < |later| && later[i] == RequestTo(c, a, w, e)
    {
      if LB.Healthy(t.client.balancer, e) != LB.Healthy(c.balancer, e) {
        assert later[|sent|] == later[..|sent| + |t.sent|][|sent|] == t.sent[0];
      } else {
        var i :| |sent| + |t.sent| <= i < |later| && later[i] == RequestTo(t.client, a, w, e);
        assert RequestTo(t.client, a, w, e) == RequestTo(c, a, w, e);
      }
    }
  }

  /**
   * While the shared breaker refuses at every iteration's clock, the loop
   * from `attempt` on sends nothing, leaves the breaker alone and fails.
   */
  lemma {:induction false} AttemptsFailFast<E>(step: Step, max: int, a: Args, w: World<E>, c: Client, attempt: nat, last: Option<Failure>,
                                               sent: seq<HttpRequest>, sleeps: seq<real>, selections: nat, churn: set<string>)
    requires RefusesSteps(step, w) && AimsSteps(step, a, w)
    requires forall i: nat :: attempt <= i ==> CB.Refuses(c.breaker, w.clock(i).admitted)
    decreases max - attempt
    ensures var r := Attempts(step, max, c, attempt, last, sent, sleeps, selections, churn);
      r.sent == sent && r.client.breaker == c.breaker && r.result.Err?
  {
    if attempt < max {
      var t := step(c, attempt, last, |sent|, selections);
      assert Refused(c, w, attempt, t) && Aimed(c, a, w, t);
      assert CB.Refuses(c.breaker, w.clock(attempt).admitted);
      assert sent + t.sent == sent;
      if t.ending.Failover? && attempt < max - 1 {
        AttemptsFailFast(step, max, a, w, t.client, attempt + 1, Some(t.ending.error), sent + t.sent, sleeps + t.sleeps, selections + t.selections, churn + t.churn);
      }
    }
  }

  // ----- `_request` -----

  /**
   * Selections and breaker failures of one `_request`: at most
   * `max_failover_attempts` iterations, one or two selections each (one
   * without discovery), and at most one breaker failure per iteration.
   */
  lemma RequestBounds<E>(c: Client, a: Args, w: World<E>)
    ensures var r := Request(c, a, w);
      && r.attempts <= Max(0, a.maxFailover)
      && r.attempts <= r.selections <= 2 * r.attempts
      && (!c.useDiscovery ==> r.selections == r.attempts)
      && r.client.breaker.failures <= c.breaker.failures + r.attempts
      && r.client.balancer.strategy == c.balancer.strategy
      && (Valid(c) ==> Valid(r.client))
  {
    IterationCounts(a, w);
    AttemptsCount(Iteration(a, w), a.maxFailover, c, 0, None, [], [], 0, {});
  }

  /** The exchange bound of `AttemptsSent` for a loop started afresh. */
  lemma FromStartSent(step: Step, max: int, c: Client)
    requires BoundsSteps(step)
    ensures var r := Attempts(step, max, c, 0, None, [], [], 0, {});
      |r.sent| <= r.attempts * (c.policy.maxRetries + 1)
  {
    AttemptsSent(step, max, c, 0, None, [], [], 0, {});
  }

  /** Every request of `sent` is one `_request` carries. */
  ghost predicate AllCarried<E>(c: Client, a: Args, w: World<E>, sent: seq<HttpRequest>) {
    forall i :: 0 <= i < |sent| ==> Carries(c, a, w, sent[i])
  }

  /** Every exchange of a loop started afresh is one the request carries. */
  lemma CarriedFromStart<E>(step: Step, max: int, a: Args, w: World<E>, c: Client)
    requires BoundsSteps(step) && AimsSteps(step, a, w)
    ensures AllCarried(c, a, w, Attempts(step, max, c, 0, None, [], [], 0, {}).sent)
  {
    AttemptsCarry(step, max, a, w, c, 0, None, [], [], 0, {});
  }

  /** A carried request, field by field: the verb, body, timeout and id, sent to an endpoint followed by the path. */
  lemma CarriedFields<E>(c: Client, a: Args, w: World<E>, q: HttpRequest)
    requires Carries(c, a, w, q)
    ensures q.requestId == w.requestId
    ensures q.verb == a.verb && q.body == a.body && q.timeout == a.timeout.GetOr(c.timeout)
    ensures |a.path| < |q.url| && q.url[|q.url| - |a.path|..] == a.path
  {
    assert q.url == q.url[..|q.url| - |a.path|] + a.path;
  }

  /** One `_request` makes at most `retry_max + 1` exchanges per iteration of its failover loop. */
  lemma RequestExchanges<E>(c: Client, a: Args, w: World<E>)
    ensures var r := Request(c, a, w);
      |r.sent| <= r.attempts * (c.policy.maxRetries + 1)
  {
    IterationCounts(a, w);
    FromStartSent(Iteration(a, w), a.maxFailover, c);
  }

  /**
   * Every exchange of one `_request` sends the request's verb, body and
   * timeout to an endpoint followed by the path, all under the one request
   * id (`CarriedFields` spells the fields out).
   */
  lemma RequestCarries<E>(c: Client, a: Args, w: World<E>)
    ensures AllCarried(c, a, w, Request(c, a, w).sent)
  {
    IterationCounts(a, w);
    CarriedFromStart(Iteration(a, w), a.maxFailover, a, w, c);
  }

  /**
   * How `_request` finishes: an answer is the JSON body of its last
   * exchange; "Request failed after N attempts" exactly when
   * `max_failover_attempts <= 0`, and then nothing was selected or sent;
   * "No healthy endpoints available" only when the first iteration found
   * no endpoint.
   */
  lemma RequestResult<E>(c: Client, a: Args, w: World<E>)
    ensures Finishes(Request(c, a, w), w, a.maxFailover)
  {
    IterationEnds(a, w);
    ResultFromStart(Iteration(a, w), a.maxFailover, w, c);
  }

  /** The ways a failover loop of at most `max` iterations can end. */
  ghost predicate Finishes<E>(r: Outcome, w: World<E>, max: int) {
    && (r.result.Ok? ==>
        && |r.sent| > 0
        && w.http(r.sent[|r.sent| - 1], |r.sent| - 1) == Answered(Some(r.result.value)))
    && (r.result.Err? ==>
        || Recoverable(r.result.error)
        || r.result.error == Unexpected
        || r.result.error.SelectionKeyError?
        || r.result.error == NoHealthyEndpoints
        || r.result.error == FailedAfter(max))
    && ((r.result.Err? && r.result.error.FailedAfter?) <==> max <= 0)
    && (max <= 0 ==>
        r.result == Err(FailedAfter(max)) && r.sent == [] && r.selections == 0 && r.attempts == 0)
    && (r.result == Err(NoHealthyEndpoints) ==> r.attempts == 1)
  }

  /** How a loop started afresh finishes. */
  lemma ResultFromStart<E>(step: Step, max: int, w: World<E>, c: Client)
    requires EndsSteps(step) && AnswersSteps(step, w)
    ensures Finishes(Attempts(step, max, c, 0, None, [], [], 0, {}), w, max)
  {
    AttemptsAnswer(step, max, w, c, 0, None, [], [], 0, {});
    AttemptsErrors(step, max, c, 0, None, [], [], 0, {});
  }

  /**
   * `_request` keeps the endpoints unless a refresh removed or added one,
   * which never happens without discovery; unless an exception it does not
   * catch escaped, the connection count of every endpoint no refresh
   * touched is back where it was; and a health flag changes only on an
   * endpoint a request was sent to or one a refresh removed or added.
   */
  lemma RequestBookkeeping<E>(c: Client, a: Args, w: World<E>)
    ensures var r := Request(c, a, w);
      && (!c.useDiscovery ==> r.churn == {} && r.client.endpoints == c.endpoints)
      && (r.churn == {} ==> r.client.balancer.endpoints == c.balancer.endpoints)
      && (Valid(c) && r.result != Err(Unexpected) ==>
          forall e :: e !in r.churn ==> LB.Count(r.client.balancer, e) == LB.Count(c.balancer, e))
      && (forall e :: e !in r.churn && LB.Healthy(r.client.balancer, e) != LB.Healthy(c.balancer, e) ==>
          exists i :: 0 <= i < |r.sent| && r.sent[i] == RequestTo(c, a, w, e))
  {
    var step := Iteration(a, w);
    IterationCounts(a, w);
    IterationKeepsBooks(a, w);
    AttemptsCounts(step, a.maxFailover, c, 0, None, [], [], 0, {});
    AttemptsHealth(step, a.maxFailover, a, w, c, 0, None, [], [], 0, {});
    assert Request(c, a, w) == Attempts(step, a.maxFailover, c, 0, None, [], [], 0, {});
  }

  /**
   * With the one breaker the client shares across endpoints open for the
   * whole request, failover still runs but no iteration sends anything:
   * the request fails and the breaker is untouched.
   */
  lemma RequestFailsFastWhenOpen<E>(c: Client, a: Args, w: World<E>)
    requires forall i: nat :: CB.Refuses(c.breaker, w.clock(i).admitted)
    ensures var r := Request(c, a, w);
      r.sent == [] && r.client.breaker == c.breaker && r.result.Err?
  {
    var step := Iteration(a, w);
    IterationCounts(a, w);
    IterationFailsFast(a, w);
    AttemptsFailFast(step, a.maxFailover, a, w, c, 0, None, [], [], 0, {});
  }

  // ----- construction -----

  /** A strategy name outside the four known ones falls back to round robin. */
  lemma UnknownStrategyIsRoundRobin<E>(s: Settings, env: map<string, string>, cache: SR.Cache, be: Backends<E>)
    requires forall st: LB.Strategy :: LB.StrategyName(st) != s.strategy
    ensures var r := Initialize(s, env, cache, be);
      r.Ok? ==> r.value.balancer.strategy == LB.RoundRobin
  {
  }

  lemma DefaultConsulText()
    ensures "http://" + "localhost" + ":" + "8500" == "http://localhost:8500"
  {
  }

  lemma PortText()
    ensures IntToString(8500) == "8500"
  {
  }

  /** The default Consul address splits into localhost and 8500. */
  lemma DefaultConsulAddress()
    ensures Address.ParseAddress("http://localhost:8500") == Ok(Address.HostAndPort("localhost", 8500))
  {
    ContainsChar("localhost", ':');
    Address.PrintedAddressParses("localhost", 8500);
    PortText();
    DefaultConsulText();
  }

  /** The default KeyDB port reads back as 6379. */
  lemma DefaultKeydbPort()
    ensures ParseInt(IntToString(6379)) == Some(6379)
  {
    ParseIntToString(6379);
  }

  /**
   * When the discovery block's imports or client constructors fail, the
   * client is built without discovery from the given URLs, and only when
   * there is at least one.
   */
  lemma ClientsMissingDisableDiscovery<E>(s: Settings, env: map<string, string>, cache: SR.Cache, be: Backends<E>)
    requires !be.clientsLoad
    ensures var r := Initialize(s, env, cache, be);
      && (r.Ok? <==> InitialEndpoints(s.baseUrl) != [])
      && (r.Ok? ==> !r.value.useDiscovery && r.value.discovery.None? && r.value.endpoints == InitialEndpoints(s.baseUrl))
  {
  }

  /** With the documented defaults and no environment, discovery talks to Consul on localhost:8500 and KeyDB on localhost:6379. */
  lemma DefaultDiscovery(b: BaseUrl, cache: SR.Cache)
    ensures SetUpDiscovery(Defaults(b), map[], cache, true) == Ok(Discovery("localhost", 8500, "localhost", 6379, SR.New(cache)))
  {
    DefaultConsulAddress();
    DefaultKeydbPort();
  }

  /** A refresh whose registry lookup answers a non-empty URL list adopts that list, on the balancer too. */
  lemma RefreshAdoptsUrls<E>(c: Client, be: Backends<E>, urls: seq<string>)
    requires c.useDiscovery && c.discovery.Some? && urls != []
    requires SR.GetHealthyServiceUrls(c.discovery.value.registry, be.json, be.directory, c.moduleName, None, "http").result
             == Ok(SR.UrlList(urls))
    ensures var look := SR.GetHealthyServiceUrls(c.discovery.value.registry, be.json, be.directory, c.moduleName, None, "http");
      && Refresh(c, be).endpoints == urls
      && Refresh(c, be).balancer == LB.UpdateWith(c.balancer, urls, be.setOrder)
      && Churned(c, be) == LB.Churn(c.balancer.endpoints, urls)
      && Refresh(c, be).discovery.value.registry.cache == look.cache
  {
    StringsOfUrlList(urls);
    assert Discover(c, be).adopt == Some(urls);
  }

  /**
   * `_check_health` changes a health flag only on the endpoint it probed or
   * on one its refresh removed or added, leaves the connection count of
   * every endpoint the refresh did not touch alone, and keeps the balancer's
   * endpoint list unless the refresh touched an endpoint. Nothing is
   * refreshed without discovery or before the interval has passed.
   */
  lemma CheckHealthBookkeeping<E>(c: Client, be: Backends<E>, now: real, pick: nat, probe: string -> Transport)
    ensures var r := CheckHealth(c, be, now, pick, probe);
      var churn := if c.useDiscovery && now - c.lastRefresh > c.healthCheckInterval then Churned(c, be) else {};
      && (forall e :: e !in churn && (r.probed.None? || e != r.probed.value) ==>
          LB.Healthy(r.client.balancer, e) == LB.Healthy(c.balancer, e))
      && (forall e :: e !in churn ==> LB.Count(r.client.balancer, e) == LB.Count(c.balancer, e))
      && (churn == {} ==> r.client.balancer.endpoints == c.balancer.endpoints)
  {
    var refresh := c.useDiscovery && now - c.lastRefresh > c.healthCheckInterval;
    var c1 := if refresh then Refresh(c, be).(lastRefresh := now) else c;
    var churn := if refresh then Churned(c, be) else {};
    assert forall e :: e !in churn ==> LB.SameStateFor(c1.balancer, c.balancer, e);
    assert churn == {} ==> c1.balancer.endpoints == c.balancer.endpoints;
    var s := LB.Select(c1.balancer, pick);
    var r := CheckHealth(c, be, now, pick, probe);
    assert r.client.balancer.connections == s.balancer.connections == c1.balancer.connections;
    assert r.client.balancer.endpoints == c1.balancer.endpoints;
  }

  /**
   * Without discovery a client that can be built is built from the given
   * URLs, and its initial health check consumes exactly one selection:
   * the balancer is the freshly built one after one `select_endpoint`,
   * apart from the health mark on the probed endpoint.
   */
  lemma NewWithoutDiscovery<E>(s: Settings, env: map<string, string>, cache: SR.Cache, be: Backends<E>,
                               now: real, pick: nat, probe: string -> Transport)
    requires !s.useDiscovery && InitialEndpoints(s.baseUrl) != []
    ensures var r := New(s, env, cache, be, now, pick, probe);
      var built := LB.New(InitialEndpoints(s.baseUrl), LB.ParseStrategy(s.strategy).GetOr(LB.RoundRobin));
      && r.Ok?
      && r.value.endpoints == InitialEndpoints(s.baseUrl)
      && r.value.baseUrl == r.value.endpoints[0]
      && !r.value.useDiscovery
      && r.value.balancer == LB.Select(built, pick).balancer.(health := r.value.balancer.health)
  {
    var c := Initialize(s, env, cache, be).value;
    assert !c.useDiscovery;
    var h := CheckHealth(c, be, now, pick, probe);
  }
}
