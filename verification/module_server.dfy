/**
 * The pure parts of `BaseModuleServer`: the API-key check its
 * authentication middleware applies, the request and error counters its
 * metrics middleware keeps, and the health, readiness and metrics payloads
 * built from them.
 *
 * A request is its path and its headers (a map keyed by header name); the
 * clock is a parameter; what the wrapped handler did is a `Completion`.
 */
module ModuleServer {
  import opened Wrappers
  import opened Values

  const ApiVersion := "1.0"

  /** The probe and metrics paths that never need a key. */
  const OpenPaths: seq<string> := ["/health", "/health/live", "/health/ready", "/metrics", "/metrics/prometheus"]

  /** The request goes on to the handler, or is answered 401 with an error body. */
  datatype AuthDecision = Pass | Reject(status: int, error: string, message: string)

  function Header(headers: map<string, string>, name: string): string {
    if name in headers then headers[name] else ""
  }

  /** `auth_header.startswith("Bearer ") and auth_header[7:] == api_key`. */
  predicate BearerHeaderMatches(auth: string, key: string) {
    "Bearer " <= auth && auth[7..] == key
  }

  /** The bearer test accepts exactly the header "Bearer " followed by the key. */
  lemma BearerExactly(auth: string, key: string)
    ensures BearerHeaderMatches(auth, key) <==> auth == "Bearer " + key
  {
    if auth == "Bearer " + key {
      assert auth[..7] == "Bearer ";
      assert auth[7..] == key;
    }
    if BearerHeaderMatches(auth, key) {
      assert auth == auth[..7] + auth[7..];
    }
  }

  /**
   * The authentication middleware, which is installed only for a non-empty
   * key: the open paths pass, and any other path passes exactly when it
   * carries the key as a bearer token or in X-API-Key.
   */
  function Authenticate(apiKey: Option<string>, path: string, headers: map<string, string>): (r: AuthDecision)
    ensures r.Pass? <==>
      || apiKey.None? || apiKey.value == ""
      || path in OpenPaths
      || Header(headers, "Authorization") == "Bearer " + apiKey.value
      || Header(headers, "X-API-Key") == apiKey.value
    ensures r.Reject? ==> r == Reject(401, "authentication_failed", "Invalid API key")
  {
    if apiKey.None? || apiKey.value == "" then Pass
    else if path in OpenPaths then Pass
    else
      BearerExactly(Header(headers, "Authorization"), apiKey.value);
      if BearerHeaderMatches(Header(headers, "Authorization"), apiKey.value)
         || Header(headers, "X-API-Key") == apiKey.value then Pass
      else Reject(401, "authentication_failed", "Invalid API key")
  }

  /** With a key set, a request to a guarded path that carries neither header is rejected. */
  lemma NoHeadersRejected(key: string, path: string)
    requires key != "" && path !in OpenPaths
    ensures Authenticate(Some(key), path, map[]).Reject?
  {
    assert |"Bearer " + key| > 0;
  }

  /** What the wrapped handler did: answered with a status after some latency, or raised. */
  datatype Completion = Responded(status: int, latency: real) | Raised

  /** The metrics counters of one server. */
  datatype Metrics = Metrics(
    requests: nat,
    byPath: map<string, nat>,
    errors: nat,
    latencySum: real,
    completed: nat)

  function NoMetrics(): Metrics {
    Metrics(0, map[], 0, 0.0, 0)
  }

  /** The request failed in the metrics middleware's sense: a status of 400 or more, or an exception. */
  predicate Failed(c: Completion) {
    c.Raised? || c.status >= 400
  }

  /** The sum of the per-path counters. */
  ghost function Total(m: map<string, nat>): nat
    decreases |m|
  {
    if m == map[] then 0
    else
      assert exists k :: k in m by {
        var k :| k in m.Keys;
      }
      var k :| k in m;
      m[k] + Total(m - {k})
  }

  /** Any key can be taken out of the sum first. */
  lemma {:induction false} TotalRemove(m: map<string, nat>, k: string)
    requires k in m
    ensures Total(m) == m[k] + Total(m - {k})
    decreases |m|
  {
    var j :| j in m && Total(m) == m[j] + Total(m - {j});
    if j != k {
      TotalRemove(m - {j}, k);
      TotalRemove(m - {k}, j);
      assert m - {j} - {k} == m - {k} - {j};
    }
  }

  /** Bumping one path's counter bumps the sum by one. */
  lemma TotalBump(m: map<string, nat>, p: string)
    ensures Total(m[p := (if p in m then m[p] else 0) + 1]) == Total(m) + 1
  {
    var m' := m[p := (if p in m then m[p] else 0) + 1];
    TotalRemove(m', p);
    if p in m {
      TotalRemove(m, p);
      assert m' - {p} == m - {p};
    } else {
      assert m' - {p} == m;
    }
  }

  /** The metrics middleware's bookkeeping for one request to `path`. */
  function Record(m: Metrics, path: string, c: Completion): (r: Metrics)
    ensures r.requests == m.requests + 1
    ensures path in r.byPath && r.byPath[path] == (if path in m.byPath then m.byPath[path] else 0) + 1
    ensures forall p :: p != path ==> (p in r.byPath <==> p in m.byPath)
    ensures forall p :: p != path && p in m.byPath ==> r.byPath[p] == m.byPath[p]
    ensures r.errors == m.errors + (if Failed(c) then 1 else 0)
    ensures c.Raised? ==> r.completed == m.completed && r.latencySum == m.latencySum
    ensures c.Responded? ==> r.completed == m.completed + 1 && r.latencySum == m.latencySum + c.latency
  {
    var counted := m.(requests := m.requests + 1,
                      byPath := m.byPath[path := (if path in m.byPath then m.byPath[path] else 0) + 1]);
    match c
    case Raised => counted.(errors := counted.errors + 1)
    case Responded(status, latency) =>
      counted.(latencySum := counted.latencySum + latency,
               completed := counted.completed + 1,
               errors := counted.errors + (if status >= 400 then 1 else 0))
  }

  /** The per-path counters add up to the request count, and neither errors nor completions outnumber requests. */
  ghost predicate Consistent(m: Metrics) {
    Total(m.byPath) == m.requests && m.errors <= m.requests && m.completed <= m.requests
  }

  lemma RecordKeepsConsistent(m: Metrics, path: string, c: Completion)
    requires Consistent(m)
    ensures Consistent(Record(m, path, c))
  {
    TotalBump(m.byPath, path);
    assert Record(m, path, c).byPath == m.byPath[path := (if path in m.byPath then m.byPath[path] else 0) + 1];
  }

  /** The counters after a sequence of requests, in order. */
  function Run(events: seq<(string, Completion)>): Metrics
  {
    if |events| == 0 then NoMetrics()
    else
      var last := events[|events| - 1];
      Record(Run(events[..|events| - 1]), last.0, last.1)
  }

  /** How many of the requests went to `path`, failed, or completed. */
  function CountPath(events: seq<(string, Completion)>, path: string): nat {
    if |events| == 0 then 0
    else CountPath(events[..|events| - 1], path) + (if events[|events| - 1].0 == path then 1 else 0)
  }

  function CountFailed(events: seq<(string, Completion)>): nat {
    if |events| == 0 then 0
    else CountFailed(events[..|events| - 1]) + (if Failed(events[|events| - 1].1) then 1 else 0)
  }

  function CountCompleted(events: seq<(string, Completion)>): nat {
    if |events| == 0 then 0
    else CountCompleted(events[..|events| - 1]) + (if events[|events| - 1].1.Responded? then 1 else 0)
  }

  /**
   * After any sequence of requests: one request counted per event, each
   * path's counter is the number of requests to it, the error count is the
   * number of failed ones, and the counters stay consistent.
   */
  lemma {:induction false} RunCounts(events: seq<(string, Completion)>)
    ensures Run(events).requests == |events|
    ensures forall p :: (if p in Run(events).byPath then Run(events).byPath[p] else 0) == CountPath(events, p)
    ensures Run(events).errors == CountFailed(events)
    ensures Run(events).completed == CountCompleted(events)
    ensures Consistent(Run(events))
  {
    if |events| > 0 {
      var prefix := events[..|events| - 1];
      RunCounts(prefix);
      RecordKeepsConsistent(Run(prefix), events[|events| - 1].0, events[|events| - 1].1);
    }
  }

  /** `average_latency_sec`: the mean latency of completed requests, 0.0 before any completes. */
  function AverageLatency(m: Metrics): (r: real)
    ensures m.completed == 0 ==> r == 0.0
    ensures m.completed > 0 ==> r * (m.completed as real) == m.latencySum
  {
    if m.completed > 0 then m.latencySum / (m.completed as real) else 0.0
  }

  /** Requests that all raised leave the average latency at 0.0. */
  lemma RaisedOnlyAverage(events: seq<(string, Completion)>)
    requires forall i :: 0 <= i < |events| ==> events[i].1.Raised?
    ensures AverageLatency(Run(events)) == 0.0
    ensures Run(events).errors == |events|
  {
    RunCounts(events);
    NoneCompleted(events);
  }

  lemma {:induction false} NoneCompleted(events: seq<(string, Completion)>)
    requires forall i :: 0 <= i < |events| ==> events[i].1.Raised?
    ensures CountCompleted(events) == 0 && CountFailed(events) == |events|
  {
    if |events| > 0 {
      NoneCompleted(events[..|events| - 1]);
    }
  }

  /** The server state the payloads read. */
  datatype Server = Server(moduleName: string, ready: bool, startTime: real, metrics: Metrics)

  /** `/health`, `/health/ready` and `/metrics` bodies. */
  datatype HealthBody = HealthBody(status: string, ready: bool, version: string, moduleName: string)
  datatype ReadyBody = ReadyBody(status: string, ready: bool, moduleName: string)
  datatype MetricsBody = MetricsBody(requestsTotal: nat, requestsByEndpoint: map<string, nat>,
                                     errorsTotal: nat, averageLatencySec: real, uptimeSec: real)

  /** `/health` always reports "ok" and the API version, whatever the readiness. */
  function Health(s: Server): (r: HealthBody)
    ensures r.status == "ok" && r.version == ApiVersion && r.ready == s.ready && r.moduleName == s.moduleName
  {
    HealthBody("ok", s.ready, ApiVersion, s.moduleName)
  }

  /** `/health/ready` reports "ok" exactly when the server is ready, else "not_ready". */
  function Ready(s: Server): (r: ReadyBody)
    ensures r.status == "ok" <==> s.ready
    ensures r.status == "ok" || r.status == "not_ready"
    ensures r.ready == s.ready && r.moduleName == s.moduleName
  {
    ReadyBody(if s.ready then "ok" else "not_ready", s.ready, s.moduleName)
  }

  /** `/metrics` at time `now`: the counters, the mean latency and the time since start. */
  function MetricsOf(s: Server, now: real): (r: MetricsBody)
    ensures r.requestsTotal == s.metrics.requests && r.errorsTotal == s.metrics.errors
    ensures r.requestsByEndpoint == s.metrics.byPath
    ensures r.averageLatencySec == AverageLatency(s.metrics)
    ensures r.uptimeSec + s.startTime == now
  {
    MetricsBody(s.metrics.requests, s.metrics.byPath, s.metrics.errors, AverageLatency(s.metrics), now - s.startTime)
  }
}
