/**
 * `ModuleAPIClient`: the client every module talks through. It owns one
 * load balancer over the module's endpoints, one retry policy and one
 * circuit breaker shared by all endpoints, and optionally a service
 * registry it refreshes the endpoint list from.
 *
 * The outside world is a parameter: the process environment is a map, the
 * KeyDB cache and the Consul directory are `ServiceRegistry` values, every
 * HTTP exchange is looked up in an oracle, and the clock readings and the
 * draws of `random.choice` are supplied per attempt and per selection.
 */
module ApiClient {
  import opened Wrappers
  import opened Text
  import opened Values
  import opened Seqs
  import CB = CircuitBreaker
  import Retry
  import LB = LoadBalancer
  import SR = ServiceRegistry
  import Address

  /** The `base_url` argument: None, one URL, or a list of URLs. */
  datatype BaseUrl = NoBaseUrl | OneUrl(url: string) | Urls(urls: seq<string>)

  /** The constructor's arguments. */
  datatype Settings = Settings(
    baseUrl: BaseUrl,
    timeoutSec: real,
    retryMax: int,
    retryDelaySec: real,
    failureThreshold: int,
    recoveryTimeoutSec: real,
    apiKey: Option<string>,
    moduleName: string,
    useDiscovery: bool,
    consulHost: Option<string>,
    consulPort: int,
    keydbHost: Option<string>,
    keydbPort: int,
    strategy: string,
    healthCheckInterval: real)

  /** The constructor's keyword defaults. */
  function Defaults(baseUrl: BaseUrl): Settings {
    Settings(baseUrl, 30.0, 3, 1.0, 5, 60.0, None, "module",
      false, None, 8500, None, 6379, "round_robin", 30.0)
  }

  /** Where the discovery clients point, and the registry built on them. */
  datatype Discovery = Discovery(
    consulHost: string,
    consulPort: int,
    keydbHost: string,
    keydbPort: int,
    registry: SR.Registry)

  /**
   * The JSON codec and the Consul directory the registry works against, the
   * order in which the interpreter iterates a set of URLs, and whether the
   * discovery block's imports and client constructors succeed (`KeyDBClient`
   * needs the `redis` package; `ConsulClient` is not part of this model).
   */
  datatype Backends<E> = Backends(json: SR.Codec, directory: SR.Directory<E>, setOrder: LB.SetOrder, clientsLoad: bool)

  datatype Client = Client(
    moduleName: string,
    timeout: real,
    apiKey: Option<string>,
    useDiscovery: bool,
    discovery: Option<Discovery>,
    healthCheckInterval: real,
    lastRefresh: real,
    endpoints: seq<string>,
    baseUrl: string,
    balancer: LB.Balancer,
    policy: Retry.Policy,
    breaker: CB.Breaker)

  /** What a constructed client keeps true. */
  predicate Valid(c: Client) {
    && (c.useDiscovery ==> c.discovery.Some?)
    && CB.Valid(c.breaker)
    && Retry.Valid(c.policy)
    && LB.CountsNonNegative(c.balancer)
  }

  /** `x or default` for an optional string argument. */
  function OrDefault(x: Option<string>, default: string): (r: string)
    ensures x.Some? && x.value != "" ==> r == x.value
    ensures x.None? || x.value == "" ==> r == default
  {
    if x.Some? && x.value != "" then x.value else default
  }

  /**
   * The service-discovery block of the constructor; an error is the
   * exception its `except Exception` turns into "discovery disabled". It
   * raises when the imports or client constructors fail (`clientsLoad` is
   * false) and when one of the two `int()` conversions fails; the clients
   * it builds do not connect on construction.
   */
  function SetUpDiscovery(s: Settings, env: map<string, string>, cache: SR.Cache, clientsLoad: bool): (r: Result<Discovery, PyError>)
    ensures var consul := Address.ParseAddress(OrDefault(s.consulHost, EnvGet(env, "CONSUL_HTTP_ADDR", "http://localhost:8500")));
      var keydbPort := ParseInt(EnvGet(env, "KEYDB_PORT", IntToString(s.keydbPort)));
      && (r.Ok? <==> clientsLoad && consul.Ok? && keydbPort.Some?)
      && (!clientsLoad ==> r == Err(ImportError))
      && (r.Ok? ==>
        && r.value.keydbHost == OrDefault(s.keydbHost, EnvGet(env, "KEYDB_HOST", "localhost"))
        && r.value.keydbPort == keydbPort.value
        && r.value.registry == SR.New(cache)
        && (consul.value.NoPort? ==> r.value.consulHost == consul.value.host && r.value.consulPort == s.consulPort)
        && (consul.value.HostAndPort? ==> r.value.consulHost == consul.value.host && r.value.consulPort == consul.value.port))
  {
    if !clientsLoad then Err(ImportError)
    else
      var consulAddr := OrDefault(s.consulHost, EnvGet(env, "CONSUL_HTTP_ADDR", "http://localhost:8500"));
      var hp :- Address.ParseAddress(consulAddr);
      var keydbHost := OrDefault(s.keydbHost, EnvGet(env, "KEYDB_HOST", "localhost"));
      match ParseInt(EnvGet(env, "KEYDB_PORT", IntToString(s.keydbPort)))
      case None => Err(ValueError("invalid literal for int() with base 10"))
      case Some(keydbPort) =>
        match hp
        case NoPort(host) => Ok(Discovery(host, s.consulPort, keydbHost, keydbPort, SR.New(cache)))
        case HostAndPort(host, port) => Ok(Discovery(host, port, keydbHost, keydbPort, SR.New(cache)))
  }

  /** The registry's answer as a list of URLs, when it is a JSON list of strings. */
  function Strings(v: Value): (r: Option<seq<string>>)
    ensures r.Some? ==> v.List? && |r.value| == |v.items|
    ensures r.Some? ==> forall i :: 0 <= i < |v.items| ==> v.items[i] == Str(r.value[i])
  {
    if v.List? && forall i :: 0 <= i < |v.items| ==> v.items[i].Str? then
      Some(seq(|v.items|, i requires 0 <= i < |v.items| => v.items[i].s))
    else None
  }

  /** The URL list the registry builds from a directory answer reads back as that answer. */
  lemma StringsOfUrlList(urls: seq<string>)
    ensures Strings(SR.UrlList(urls)) == Some(urls)
  {
    var v := SR.UrlList(urls);
    assert v.items == seq(|urls|, i requires 0 <= i < |urls| => Str(urls[i]));
    assert forall i :: 0 <= i < |v.items| ==> v.items[i].Str? && v.items[i].s == urls[i];
    var r := seq(|v.items|, i requires 0 <= i < |v.items| => v.items[i].s);
    assert r == urls;
  }

  /** What the registry lookup of a refresh leaves: the client with the registry's new cache, and the URL list to adopt, if any. */
  datatype Lookup = Lookup(client: Client, adopt: Option<seq<string>>)

  /**
   * The registry lookup of `_refresh_endpoints_from_discovery()`: the
   * module's healthy http URLs, adopted when they form a non-empty list.
   * Errors are swallowed.
   */
  function Discover<E>(c: Client, be: Backends<E>): (r: Lookup)
    ensures !c.useDiscovery || c.discovery.None? ==> r == Lookup(c, None)
    ensures r.client == c.(discovery := r.client.discovery)
    ensures r.client.discovery.Some? <==> c.discovery.Some?
    ensures r.adopt.Some? ==> r.adopt.value != []
  {
    if !c.useDiscovery || c.discovery.None? then Lookup(c, None)
    else
      var d := c.discovery.value;
      var look := SR.GetHealthyServiceUrls(d.registry, be.json, be.directory, c.moduleName, None, "http");
      var c1 := c.(discovery := Some(d.(registry := d.registry.(cache := look.cache))));
      match look.result
      case Err(_) => Lookup(c1, None)
      case Ok(v) =>
        match Strings(v)
        case None => Lookup(c1, None)
        case Some(urls) => Lookup(c1, if urls == [] then None else Some(urls))
  }

  /** The endpoints a refresh removes from or adds to the balancer: none unless it adopts a list. */
  function Churned<E>(c: Client, be: Backends<E>): set<string> {
    match Discover(c, be).adopt
    case None => {}
    case Some(urls) => LB.Churn(c.balancer.endpoints, urls)
  }

  /**
   * `_refresh_endpoints_from_discovery()`: when the lookup adopts a list,
   * `update_endpoints` moves the balancer to it and the endpoint list
   * becomes it.
   */
  function Refresh<E>(c: Client, be: Backends<E>): (r: Client)
    ensures !c.useDiscovery || c.discovery.None? ==> r == c
    ensures r == c.(discovery := r.discovery, balancer := r.balancer, endpoints := r.endpoints)
    ensures r.discovery.Some? <==> c.discovery.Some?
    ensures r.endpoints == c.endpoints || r.endpoints != []
    ensures r.balancer == c.balancer || r.balancer == LB.UpdateWith(c.balancer, r.endpoints, be.setOrder)
    ensures r.balancer.strategy == c.balancer.strategy && r.balancer.index == c.balancer.index
    ensures forall e :: e !in Churned(c, be) ==> LB.SameStateFor(r.balancer, c.balancer, e)
    ensures Churned(c, be) == {} ==> r.balancer == c.balancer
    ensures Churned(c, be) <= Elems(c.balancer.endpoints) + Elems(r.endpoints)
    ensures LB.CountsNonNegative(c.balancer) ==> LB.CountsNonNegative(r.balancer)
  {
    var l := Discover(c, be);
    match l.adopt
    case None => l.client
    case Some(urls) =>
      LB.UpdateWithFrame(c.balancer, urls, be.setOrder);
      LB.UpdateWithCounts(c.balancer, urls, be.setOrder);
      l.client.(balancer := LB.UpdateWith(c.balancer, urls, be.setOrder), endpoints := urls)
  }

  /** What one HTTP exchange turned out to be. */
  datatype Transport =
    | Answered(json: Option<Value>)                  // 2xx; None when the body is not JSON
    | ErrorStatus(json: Option<Value>, text: string)  // `raise_for_status` raised; `text` is str(e)
    | NoResponse                                      // connection error, timeout and the like

  /** The endpoint `select_endpoint` returned, when it is truthy. */
  function Chosen(s: LB.Selection): (r: Option<string>)
    ensures r.Some? <==> s.Selected? && s.endpoint != ""
    ensures r.Some? ==> r.value == s.endpoint
  {
    if s.Selected? && s.endpoint != "" then Some(s.endpoint) else None
  }

  /** The outcome of `_check_health`: the endpoint probed, if any, and what it returned or raised. */
  datatype Checked = Checked(client: Client, probed: Option<string>, result: Result<Value, PyError>)

  /**
   * `_check_health()` at time `now`: refresh from discovery when the interval
   * has passed, select an endpoint (`pick` is the random draw), GET its
   * /health (`probe` answers for each URL) and mark it by the "ready" field.
   */
  function CheckHealth<E>(c: Client, be: Backends<E>, now: real, pick: nat, probe: string -> Transport): (r: Checked)
    ensures var c1 := if c.useDiscovery && now - c.lastRefresh > c.healthCheckInterval
                      then Refresh(c, be).(lastRefresh := now) else c;
      var s := LB.Select(c1.balancer, pick);
      && r.client == c1.(balancer := r.client.balancer)
      && r.client.balancer == s.balancer.(health := r.client.balancer.health)
      && (r.probed.None? ==> r.client.balancer == s.balancer)
      && (r.probed.Some? ==> s.selection == LB.Selected(r.probed.value) && r.probed.value != "")
      && (r.probed.Some? ==> forall e :: e != r.probed.value ==> LB.Healthy(r.client.balancer, e) == LB.Healthy(s.balancer, e))
      && (r.result.Err? <==> s.selection.MissingCount?)
      && (r.result.Err? ==> r.result.error == KeyError(s.selection.endpoint))
      && (r.probed.None? && r.result.Ok? ==> r.result.value == Bool(false))
    ensures r.probed.Some? ==> LB.Healthy(r.client.balancer, r.probed.value) == (r.result.Ok? && Truthy(r.result.value))
  {
    var c1 := if c.useDiscovery && now - c.lastRefresh > c.healthCheckInterval
              then Refresh(c, be).(lastRefresh := now) else c;
    var s := LB.Select(c1.balancer, pick);
    var c2 := c1.(balancer := s.balancer);
    if s.selection.MissingCount? then Checked(c2, None, Err(KeyError(s.selection.endpoint)))
    else
      match Chosen(s.selection)
      case None => Checked(c2, None, Ok(Bool(false)))
      case Some(ep) =>
        var (b, ready) := Probe(c2.balancer, ep, probe);
        Checked(c2.(balancer := b), Some(ep), Ok(ready))
  }

  /**
   * GET `ep`/health and mark `ep` by the "ready" field of a JSON object
   * answer; any other answer or a failed request marks it unhealthy and
   * reads as False.
   */
  function Probe(b: LB.Balancer, ep: string, probe: string -> Transport): (r: (LB.Balancer, Value))
    ensures LB.Healthy(r.0, ep) == Truthy(r.1)
    ensures forall e :: e != ep ==> LB.Healthy(r.0, e) == LB.Healthy(b, e)
    ensures r.0 == b.(health := r.0.health)
    ensures !(probe(ep + "/health").Answered? && probe(ep + "/health").json.Some? && probe(ep + "/health").json.value.Obj?) ==>
      r.1 == Bool(false)
  {
    match probe(ep + "/health")
    case Answered(Some(Obj(fields))) =>
      var ready := Get(fields, "ready", Bool(false));
      (LB.Mark(b, ep, Truthy(ready)), ready)
    case _ => (LB.Mark(b, ep, false), Bool(false))
  }

  /** `[url.rstrip("/") for url in urls]`. */
  function StripSlashes(urls: seq<string>): (r: seq<string>)
    ensures |r| == |urls|
    ensures forall i :: 0 <= i < |urls| ==> r[i] == RStripChar(urls[i], '/')
  {
    seq(|urls|, i requires 0 <= i < |urls| => RStripChar(urls[i], '/'))
  }

  /** The endpoint list the constructor starts from. */
  function InitialEndpoints(base: BaseUrl): seq<string> {
    match base
    case NoBaseUrl => []
    case OneUrl(u) => [RStripChar(u, '/')]
    case Urls(us) => StripSlashes(us)
  }

  /** The client as built up to the refresh, before the no-endpoint check. */
  function Prepare(s: Settings, env: map<string, string>, cache: SR.Cache, clientsLoad: bool): (c: Client)
    ensures c.endpoints == InitialEndpoints(s.baseUrl)
    ensures c.balancer == LB.New(c.endpoints, LB.ParseStrategy(s.strategy).GetOr(LB.RoundRobin))
    ensures c.useDiscovery <==> s.useDiscovery && SetUpDiscovery(s, env, cache, clientsLoad).Ok?
    ensures c.useDiscovery ==> c.discovery == Some(SetUpDiscovery(s, env, cache, clientsLoad).value)
    ensures !c.useDiscovery ==> c.discovery == None
    ensures c.policy == Retry.New(s.retryMax, s.retryDelaySec, 60.0, 2.0)
    ensures c.breaker == CB.New(s.failureThreshold, s.recoveryTimeoutSec)
    ensures c.lastRefresh == 0.0 && c.moduleName == s.moduleName && c.timeout == s.timeoutSec
    ensures Valid(c)
  {
    var endpoints := InitialEndpoints(s.baseUrl);
    var disc := if s.useDiscovery then SetUpDiscovery(s, env, cache, clientsLoad) else Err(AttributeError);
    var strategy := LB.ParseStrategy(s.strategy).GetOr(LB.RoundRobin);
    Client(s.moduleName, s.timeoutSec, s.apiKey, disc.Ok?,
      if disc.Ok? then Some(disc.value) else None,
      s.healthCheckInterval, 0.0, endpoints, "",
      LB.New(endpoints, strategy),
      Retry.New(s.retryMax, s.retryDelaySec, 60.0, 2.0),
      CB.New(s.failureThreshold, s.recoveryTimeoutSec))
  }

  /** The constructor's two ValueError messages. */
  const BaseUrlRequired := "base_url required when use_service_discovery is False"
  const NoEndpoints := ": No endpoints available"

  /**
   * `ModuleAPIClient(...)` up to the end of the no-endpoint check: the two
   * ValueErrors, else the client after the initial refresh.
   */
  function Initialize<E>(s: Settings, env: map<string, string>, cache: SR.Cache, be: Backends<E>): (r: Result<Client, PyError>)
    ensures s.baseUrl.NoBaseUrl? && !s.useDiscovery ==>
      r == Err(ValueError(BaseUrlRequired))
    ensures r.Err? && !(s.baseUrl.NoBaseUrl? && !s.useDiscovery) ==>
      r == Err(ValueError(s.moduleName + NoEndpoints))
    ensures !s.useDiscovery ==> (r.Ok? <==> InitialEndpoints(s.baseUrl) != [])
    ensures r.Ok? ==>
      && r.value.endpoints != [] && r.value.baseUrl == r.value.endpoints[0]
      && r.value.balancer.strategy == LB.ParseStrategy(s.strategy).GetOr(LB.RoundRobin)
      && r.value.balancer.index == 0
      && r.value.policy == Retry.New(s.retryMax, s.retryDelaySec, 60.0, 2.0)
      && r.value.breaker == CB.New(s.failureThreshold, s.recoveryTimeoutSec)
      && (r.value.useDiscovery ==> s.useDiscovery)
      && r.value.lastRefresh == 0.0
      && Valid(r.value)
    ensures r.Ok? && !r.value.useDiscovery ==>
      && r.value.endpoints == InitialEndpoints(s.baseUrl)
      && r.value.balancer == LB.New(r.value.endpoints, r.value.balancer.strategy)
  {
    if s.baseUrl.NoBaseUrl? && !s.useDiscovery then
      Err(ValueError(BaseUrlRequired))
    else
      var c1 := Refreshed(s, env, cache, be);
      if c1.endpoints == [] then Err(ValueError(s.moduleName + NoEndpoints))
      else
        var c := c1.(baseUrl := c1.endpoints[0]);
        assert c.balancer == c1.balancer && c.endpoints == c1.endpoints && c.useDiscovery == c1.useDiscovery;
        assert Valid(c);
        Ok(c)
  }

  /** The client after the constructor's initial refresh, which runs only when discovery was set up. */
  function Refreshed<E>(s: Settings, env: map<string, string>, cache: SR.Cache, be: Backends<E>): (c: Client)
    ensures c.balancer.strategy == LB.ParseStrategy(s.strategy).GetOr(LB.RoundRobin)
    ensures c.balancer.index == 0
    ensures c.policy == Retry.New(s.retryMax, s.retryDelaySec, 60.0, 2.0)
    ensures c.breaker == CB.New(s.failureThreshold, s.recoveryTimeoutSec)
    ensures c.useDiscovery ==> s.useDiscovery
    ensures c.lastRefresh == 0.0
    ensures Valid(c)
    ensures !c.useDiscovery ==> c.endpoints == InitialEndpoints(s.baseUrl) && c.balancer == LB.New(c.endpoints, c.balancer.strategy)
  {
    var c0 := Prepare(s, env, cache, be.clientsLoad);
    if c0.useDiscovery && c0.discovery.Some? then Refresh(c0, be) else c0
  }

  /**
   * `ModuleAPIClient(...)`: `Initialize`, then the initial health check,
   * whose result and any exception it raises are discarded.
   */
  function New<E>(s: Settings, env: map<string, string>, cache: SR.Cache, be: Backends<E>,
                  now: real, pick: nat, probe: string -> Transport): (r: Result<Client, PyError>)
    ensures r.Err? <==> Initialize(s, env, cache, be).Err?
    ensures r.Err? ==> r == Initialize(s, env, cache, be)
    ensures r.Ok? ==> r.value == CheckHealth(Initialize(s, env, cache, be).value, be, now, pick, probe).client
  {
    var c :- Initialize(s, env, cache, be);
    Ok(CheckHealth(c, be, now, pick, probe).client)
  }

  /** One HTTP request as sent. */
  datatype HttpRequest = HttpRequest(verb: string, url: string, body: Option<Value>, timeout: real, requestId: string)

  /** The exceptions that can leave `_request`. */
  datatype Failure =
    | BreakerOpen(reason: CB.Rejection)   // RuntimeError raised by the open breaker
    | ServerError(message: Value)         // RuntimeError carrying the error body's "message"
    | RequestFailed                       // a requests.RequestException
    | Unexpected                          // any other exception from the exchange
    | SelectionKeyError(endpoint: string) // KeyError from `select_endpoint`
    | NoHealthyEndpoints                  // RuntimeError "<module>: No healthy endpoints available"
    | FailedAfter(attempts: int)          // RuntimeError "<module>: Request failed after N attempts"

  /**
   * `_do_request`: the decoded JSON, or what it raises. An error status with
   * a JSON object body becomes RuntimeError(message); an object-less JSON
   * body makes `.get` raise AttributeError; a body that is not JSON
   * re-raises the decoding error, which requests derives from
   * RequestException.
   */
  function Exchange(t: Transport): (r: Result<Value, Failure>)
    ensures r.Ok? <==> t.Answered? && t.json.Some?
    ensures r.Err? ==> r.error == RequestFailed || r.error == Unexpected || r.error.ServerError?
  {
    match t
    case Answered(Some(v)) => Ok(v)
    case Answered(None) => Err(RequestFailed)
    case ErrorStatus(Some(Obj(fields)), text) => Err(ServerError(Get(fields, "message", Str(text))))
    case ErrorStatus(Some(_), _) => Err(Unexpected)
    case ErrorStatus(None, _) => Err(RequestFailed)
    case NoResponse => Err(RequestFailed)
  }

  /** The exceptions `_request` catches to move on to the next endpoint: RuntimeError and RequestException. */
  predicate Recoverable(f: Failure) {
    f.BreakerOpen? || f.ServerError? || f.RequestFailed?
  }

  /** The arguments of `_request`. */
  datatype Args = Args(
    verb: string,
    path: string,
    body: Option<Value>,
    timeout: Option<real>,
    shouldRetry: Option<Failure -> bool>,
    maxFailover: int)

  /** The clock readings of one attempt: at selection, at the breaker's check, and when it records a failure. */
  datatype Clock = Clock(selected: real, admitted: real, failed: real)

  /**
   * Everything `_request` learns from outside: the registry backends, the
   * response to the n-th HTTP exchange of this request, the request id,
   * the clock per attempt and the random draw per selection.
   */
  datatype World<E> = World(
    backends: Backends<E>,
    http: (HttpRequest, nat) -> Transport,
    requestId: string,
    clock: nat -> Clock,
    picks: nat -> nat)

  /** How one attempt ends: with the answer, moving on to the next endpoint, or raising. */
  datatype Ending = Answer(value: Value) | Failover(error: Failure) | Raise(error: Failure)

  /** One iteration: the client after it, how it ended, where it sent what, and the endpoints a refresh removed or added. */
  datatype AttemptRun = AttemptRun(
    client: Client,
    ending: Ending,
    endpoint: Option<string>,
    sent: seq<HttpRequest>,
    sleeps: seq<real>,
    selections: nat,
    churn: set<string>)

  /** The request every exchange of an attempt on `ep` sends: one request id for the whole `_request`. */
  function RequestTo(c: Client, a: Args, w: World, ep: string): HttpRequest {
    HttpRequest(a.verb, ep + a.path, a.body, a.timeout.GetOr(c.timeout), w.requestId)
  }

  /** The i-th call of an attempt's retry loop: the `(base + i)`-th exchange of the request. */
  function Call(http: (HttpRequest, nat) -> Transport, req: HttpRequest, base: nat, i: nat): Result<Value, Failure> {
    Exchange(http(req, base + i))
  }

  /** The health marks `_do_request` leaves on `ep` over the first `k` calls. */
  function MarkCalls(b: LB.Balancer, ep: string, http: (HttpRequest, nat) -> Transport, req: HttpRequest, base: nat, k: nat): (r: LB.Balancer)
    ensures k == 0 ==> r == b
    ensures k > 0 ==> LB.Healthy(r, ep) == Call(http, req, base, k - 1).Ok?
    ensures forall e :: e != ep ==> LB.Healthy(r, e) == LB.Healthy(b, e)
    ensures r == b.(health := r.health)
  {
    if k == 0 then b else LB.Mark(MarkCalls(b, ep, http, req, base, k - 1), ep, Call(http, req, base, k - 1).Ok?)
  }

  /** What the breaker-wrapped retry loop of one attempt did. */
  datatype Guarded = Guarded(result: CB.CallResult<Value, Failure>, breaker: CB.Breaker, calls: nat, sleeps: seq<real>)

  /**
   * `circuit_breaker.call(lambda: retry_policy.execute(_do_request, should_retry))`:
   * the retry loop runs only when the breaker admits the call, and the
   * breaker records the loop's final outcome once.
   */
  function Guard(p: Retry.Policy, b: CB.Breaker, http: (HttpRequest, nat) -> Transport, req: HttpRequest, base: nat,
                 shouldRetry: Option<Failure -> bool>, admitted: real, failed: real): (r: Guarded)
    ensures r.calls <= p.maxRetries + 1
    ensures r.calls == 0 <==> CB.Refuses(b, admitted)
    ensures r.calls == 0 ==> r.breaker == b && r.result.CircuitOpen? && r.sleeps == []
    ensures r.calls > 0 ==> |r.sleeps| == r.calls - 1
    ensures r.calls > 0 ==> var last := Call(http, req, base, r.calls - 1);
      && (last.Ok? ==> r.result == CB.Returned(last.value))
      && (last.Err? ==> r.result == CB.Raised(last.error))
    ensures r.breaker.failures <= b.failures + 1
    ensures r.breaker.threshold == b.threshold && r.breaker.recoveryTimeout == b.recoveryTimeout
    ensures CB.Valid(b) ==> CB.Valid(r.breaker)
  {
    var work := (i: nat) => Call(http, req, base, i);
    var run := Retry.Execute(p, work, shouldRetry);
    var call := CB.Call(b, admitted, run.result, failed);
    if call.invoked then Guarded(call.result, call.breaker, run.calls, run.sleeps)
    else Guarded(call.result, call.breaker, 0, [])
  }

  /** Which way `_request` leaves an attempt for each outcome of the guarded call. */
  function EndingOf(g: CB.CallResult<Value, Failure>): (r: Ending)
    ensures g.Returned? <==> r.Answer?
    ensures r.Failover? ==> Recoverable(r.error)
    ensures r.Raise? ==> g.Raised? && r.error == g.error && !Recoverable(g.error)
  {
    match g
    case Returned(v) => Answer(v)
    case CircuitOpen(why) => Failover(BreakerOpen(why))
    case Raised(e) => if Recoverable(e) then Failover(e) else Raise(e)
  }

  /**
   * The load-balancer bookkeeping of one attempt on `ep` at time `now`:
   * count the connection, mark the endpoint after each of `calls`
   * exchanges, and uncount it again unless `leak` (an exception `_request`
   * does not catch skips the decrement).
   */
  function Track(b: LB.Balancer, ep: string, now: real, http: (HttpRequest, nat) -> Transport, req: HttpRequest, base: nat,
                 calls: nat, leak: bool): (r: LB.Balancer)
    ensures r == b.(connections := r.connections, lastSelected := r.lastSelected, health := r.health)
    ensures forall e :: e != ep ==> LB.Count(r, e) == LB.Count(b, e)
    ensures !leak ==> LB.Count(r, ep) == Max(0, LB.Count(b, ep))
    ensures leak ==> LB.Count(r, ep) == LB.Count(b, ep) + 1
    ensures LB.CountsNonNegative(b) ==> LB.CountsNonNegative(r)
    ensures forall e :: e != ep ==> LB.Healthy(r, e) == LB.Healthy(b, e)
    ensures calls == 0 ==> LB.Healthy(r, ep) == LB.Healthy(b, ep)
    ensures calls > 0 ==> LB.Healthy(r, ep) == Call(http, req, base, calls - 1).Ok?
  {
    var b1 := LB.Increment(b, ep, now);
    var b2 := MarkCalls(b1, ep, http, req, base, calls);
    assert b1.health == b.health && b2.connections == b1.connections;
    assert forall e :: e != ep ==> LB.Healthy(b2, e) == LB.Healthy(b, e);
    if leak then b2 else LB.Decrement(b2, ep)
  }

  /**
   * The part of one attempt after `ep` was chosen: count the connection,
   * run the retry loop inside the breaker, and settle the count again
   * unless an exception `_request` does not catch escapes.
   */
  function Send<E>(c: Client, a: Args, w: World<E>, attempt: nat, ep: string, sentBefore: nat, selections: nat, churn: set<string>): (r: AttemptRun)
    ensures var req := RequestTo(c, a, w, ep);
      var g := Guard(c.policy, c.breaker, w.http, req, sentBefore, a.shouldRetry, w.clock(attempt).admitted, w.clock(attempt).failed);
      && r.endpoint == Some(ep) && r.selections == selections && r.churn == churn
      && |r.sent| == g.calls && (forall i :: 0 <= i < |r.sent| ==> r.sent[i] == req)
      && r.sleeps == g.sleeps
      && r.ending == EndingOf(g.result)
      && r.client == c.(balancer := Track(c.balancer, ep, w.clock(attempt).selected, w.http, req, sentBefore, g.calls, r.ending.Raise?),
                        breaker := g.breaker)
  {
    var clk := w.clock(attempt);
    var req := RequestTo(c, a, w, ep);
    var g := Guard(c.policy, c.breaker, w.http, req, sentBefore, a.shouldRetry, clk.admitted, clk.failed);
    var ending := EndingOf(g.result);
    var b := Track(c.balancer, ep, clk.selected, w.http, req, sentBefore, g.calls, ending.Raise?);
    AttemptRun(c.(balancer := b, breaker := g.breaker), ending, Some(ep), seq(g.calls, i => req), g.sleeps, selections, churn)
  }

  /**
   * The endpoint an attempt goes on with, or the exception it raises, after
   * its selections; `churn` holds the endpoints a refresh removed or added.
   */
  datatype Picked = Picked(client: Client, chosen: Result<string, Failure>, selections: nat, churn: set<string>)

  /**
   * The selection at the top of one iteration of the failover loop:
   * select, and when nothing was selected refresh from discovery and select
   * once more. `last` is the exception recorded by earlier iterations.
   */
  function PickEndpoint<E>(c: Client, w: World<E>, last: Option<Failure>, picksBefore: nat): (r: Picked)
    ensures 1 <= r.selections <= 2
    ensures !c.useDiscovery ==> r.selections == 1
    ensures r.client == c.(balancer := r.client.balancer, discovery := r.client.discovery, endpoints := r.client.endpoints)
    ensures !c.useDiscovery ==> r.client == c.(balancer := r.client.balancer)
    ensures r.client.balancer.strategy == c.balancer.strategy
    ensures !c.useDiscovery ==> r.churn == {}
    ensures forall e :: e !in r.churn ==> LB.SameStateFor(r.client.balancer, c.balancer, e)
    ensures r.churn == {} ==> r.client.balancer == c.balancer.(index := r.client.balancer.index)
    ensures r.churn != {} ==> r.selections == 2 && r.churn <= Elems(c.balancer.endpoints) + Elems(r.client.endpoints)
    ensures r.chosen.Ok? ==> r.chosen.value in r.client.balancer.endpoints && r.chosen.value != ""
    ensures r.chosen.Err? ==>
      || r.chosen.error.SelectionKeyError?
      || (last.Some? && r.chosen.error == last.value)
      || (last.None? && r.chosen.error == NoHealthyEndpoints)
    ensures Valid(c) ==> Valid(r.client)
  {
    var s := LB.Select(c.balancer, w.picks(picksBefore));
    var c1 := c.(balancer := s.balancer);
    if s.selection.MissingCount? then Picked(c1, Err(SelectionKeyError(s.selection.endpoint)), 1, {})
    else
      match Chosen(s.selection)
      case Some(ep) => Picked(c1, Ok(ep), 1, {})
      case None =>
        if !c1.useDiscovery then
          Picked(c1, Err(if last.Some? then last.value else NoHealthyEndpoints), 1, {})
        else Reselect(c1, w, last, w.picks(picksBefore + 1))
  }

  /**
   * The second selection of an iteration whose first one found nothing:
   * refresh from discovery, then select with the draw `pick`.
   */
  function Reselect<E>(c: Client, w: World<E>, last: Option<Failure>, pick: nat): (r: Picked)
    ensures r.selections == 2
    ensures r.client == c.(balancer := r.client.balancer, discovery := r.client.discovery, endpoints := r.client.endpoints)
    ensures r.client.balancer.strategy == c.balancer.strategy
    ensures forall e :: e !in r.churn ==> LB.SameStateFor(r.client.balancer, c.balancer, e)
    ensures r.churn == {} ==> r.client.balancer == c.balancer.(index := r.client.balancer.index)
    ensures r.churn <= Elems(c.balancer.endpoints) + Elems(r.client.endpoints)
    ensures r.chosen.Ok? ==> r.chosen.value in r.client.balancer.endpoints && r.chosen.value != ""
    ensures r.chosen.Err? ==>
      || r.chosen.error.SelectionKeyError?
      || (last.Some? && r.chosen.error == last.value)
      || (last.None? && r.chosen.error == NoHealthyEndpoints)
    ensures Valid(c) ==> Valid(r.client)
  {
    var c2 := Refresh(c, w.backends);
    var churn := Churned(c, w.backends);
    var s2 := LB.Select(c2.balancer, pick);
    var c3 := c2.(balancer := s2.balancer);
    if s2.selection.MissingCount? then Picked(c3, Err(SelectionKeyError(s2.selection.endpoint)), 2, churn)
    else
      match Chosen(s2.selection)
      case Some(ep) => Picked(c3, Ok(ep), 2, churn)
      case None => Picked(c3, Err(if last.Some? then last.value else NoHealthyEndpoints), 2, churn)
  }

  /** One iteration of the failover loop: `PickEndpoint`, then `Send`. */
  function Attempt<E>(c: Client, a: Args, w: World<E>, attempt: nat, last: Option<Failure>, sentBefore: nat, picksBefore: nat): (r: AttemptRun)
  {
    var p := PickEndpoint(c, w, last, picksBefore);
    match p.chosen
    case Err(e) => AttemptRun(p.client, Raise(e), None, [], [], p.selections, p.churn)
    case Ok(ep) => Send(p.client, a, w, attempt, ep, sentBefore, p.selections, p.churn)
  }

  /**
   * What `_request` did: its result or exception, every request it sent, its
   * sleeps, selections and loop iterations, and every endpoint its refreshes
   * removed or added.
   */
  datatype Outcome = Outcome(
    client: Client,
    result: Result<Value, Failure>,
    sent: seq<HttpRequest>,
    sleeps: seq<real>,
    selections: nat,
    attempts: nat,
    churn: set<string>)

  /**
   * One iteration of the failover loop as a function of the client, the
   * iteration number, the exception recorded so far, and how many exchanges
   * and selections the request has already made.
   */
  type Step = (Client, nat, Option<Failure>, nat, nat) -> AttemptRun

  /** The iteration `_request` runs for these arguments in this world. */
  function Iteration<E>(a: Args, w: World<E>): Step {
    (c: Client, attempt: nat, last: Option<Failure>, sentBefore: nat, picksBefore: nat) =>
      Attempt(c, a, w, attempt, last, sentBefore, picksBefore)
  }

  /** The failover loop from iteration `attempt` on, with what earlier iterations accumulated. */
  function Attempts(step: Step, maxFailover: int, c: Client, attempt: nat, last: Option<Failure>,
                    sent: seq<HttpRequest>, sleeps: seq<real>, selections: nat, churn: set<string>): (r: Outcome)
    decreases maxFailover - attempt
  {
    if attempt >= maxFailover then
      Outcome(c, Err(if last.Some? then last.value else FailedAfter(maxFailover)), sent, sleeps, selections, attempt, churn)
    else
      var t := step(c, attempt, last, |sent|, selections);
      var sent' := sent + t.sent;
      var sleeps' := sleeps + t.sleeps;
      var selections' := selections + t.selections;
      var churn' := churn + t.churn;
      match t.ending
      case Answer(v) => Outcome(t.client, Ok(v), sent', sleeps', selections', attempt + 1, churn')
      case Raise(e) => Outcome(t.client, Err(e), sent', sleeps', selections', attempt + 1, churn')
      case Failover(e) =>
        if attempt < maxFailover - 1 then
          Attempts(step, maxFailover, t.client, attempt + 1, Some(e), sent', sleeps', selections', churn')
        else
          Outcome(t.client, Err(e), sent', sleeps', selections', attempt + 1, churn')
  }

  /** `_request(method, path, json_data, timeout, should_retry, max_failover_attempts)`. */
  function Request<E>(c: Client, a: Args, w: World<E>): Outcome {
    Attempts(Iteration(a, w), a.maxFailover, c, 0, None, [], [], 0, {})
  }
}
