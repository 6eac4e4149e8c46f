/**
 * `get_module_server_config` and `get_module_base_url`: how a module's
 * `modules.<name>.server` block and the shared `infrastructure` block of the
 * loaded configuration become the settings of its HTTP server and client.
 *
 * The configuration is a loaded YAML document (`Dict`), the process
 * environment is a map, and `float()`/`str()` of what the model does not
 * compute itself come from `Builtins`. A raised exception is an `Err`.
 */
module ModuleConfig {
  import opened Wrappers
  import opened Text
  import opened Values
  import Address

  /** The dict `get_module_server_config` returns, one field per key. */
  datatype ServerConfig = ServerConfig(
    host: string,
    port: int,
    timeoutSec: real,
    retryMax: int,
    retryDelaySec: real,
    healthCheckInterval: Value,
    failureThreshold: int,
    recoveryTimeoutSec: real,
    apiKey: Value,
    useDiscovery: Value,
    endpoints: Value,
    consulHost: Value,
    consulPort: int,
    keydbHost: Value,
    keydbPort: int,
    strategy: Value)

  /** The sub-sections of `infrastructure` the server configuration reads. */
  datatype Infrastructure = Infrastructure(consul: Dict, keydb: Dict, discovery: Dict, balancing: Dict)

  /** `raw_config.get("modules", {}).get(name, {}).get("server", {})`. */
  function ServerSection(raw: Dict, name: string): (r: Result<Dict, PyError>)
    ensures r.Ok? <==>
      && Section(raw, "modules").Ok?
      && Section(Section(raw, "modules").value, name).Ok?
      && Section(Section(Section(raw, "modules").value, name).value, "server").Ok?
    ensures r.Err? ==> r.error == AttributeError
  {
    var modules :- Section(raw, "modules");
    var entry :- Section(modules, name);
    Section(entry, "server")
  }

  /** The `infrastructure` block and its four sub-sections, each `{}` when absent. */
  function InfrastructureOf(raw: Dict): (r: Result<Infrastructure, PyError>)
    ensures "infrastructure" !in raw ==> r == Ok(Infrastructure(map[], map[], map[], map[]))
    ensures r.Err? ==> r.error == AttributeError
  {
    var infra :- Section(raw, "infrastructure");
    var consul :- Section(infra, "consul");
    var keydb :- Section(infra, "keydb");
    var discovery :- Section(infra, "service_discovery");
    var balancing :- Section(infra, "load_balancing");
    Ok(Infrastructure(consul, keydb, discovery, balancing))
  }

  /**
   * The Consul host and port: the configured port goes through `int()`, the
   * address is `CONSUL_HTTP_ADDR` or one printed from the configured host and
   * port, and an address with a ':' overrides both. An address without one
   * leaves the configured host and port in place.
   */
  function ConsulOf(consul: Dict, env: map<string, string>, py: Builtins): (r: Result<(Value, int), PyError>)
    ensures PyInt(Get(consul, "port", Int(8500))).Err? ==> r.Err?
    ensures PyInt(Get(consul, "port", Int(8500))).Ok? ==>
      var port := PyInt(Get(consul, "port", Int(8500))).value;
      var host := Get(consul, "host", Str("localhost"));
      var hp := Address.ParseAddress(EnvGet(env, "CONSUL_HTTP_ADDR", "http://" + PyStr(host, py) + ":" + IntToString(port)));
      && (hp.Err? ==> r.Err?)
      && (hp.Ok? && hp.value.NoPort? ==> r == Ok((host, port)))
      && (hp.Ok? && hp.value.HostAndPort? ==> r == Ok((Str(hp.value.host), hp.value.port)))
  {
    var host := Get(consul, "host", Str("localhost"));
    var port :- PyInt(Get(consul, "port", Int(8500)));
    var addr := EnvGet(env, "CONSUL_HTTP_ADDR", "http://" + PyStr(host, py) + ":" + IntToString(port));
    var hp :- Address.ParseAddress(addr);
    match hp
    case NoPort(_) => Ok((host, port))
    case HostAndPort(h, p) => Ok((Str(h), p))
  }

  /** The KeyDB host and port: `KEYDB_HOST` and `KEYDB_PORT` override the configured ones. */
  function KeydbOf(keydb: Dict, env: map<string, string>): (r: Result<(Value, int), PyError>)
    ensures r.Ok? ==> r.value.0 == if "KEYDB_HOST" in env then Str(env["KEYDB_HOST"]) else Get(keydb, "host", Str("localhost"))
    ensures r.Ok? && "KEYDB_PORT" in env ==> ParseInt(env["KEYDB_PORT"]) == Some(r.value.1)
    ensures "KEYDB_PORT" !in env ==>
      && (r.Ok? <==> PyInt(Get(keydb, "port", Int(6379))).Ok?)
      && (r.Ok? ==> r.value.1 == PyInt(Get(keydb, "port", Int(6379))).value)
  {
    var configured :- PyInt(Get(keydb, "port", Int(6379)));
    var host := if "KEYDB_HOST" in env then Str(env["KEYDB_HOST"]) else Get(keydb, "host", Str("localhost"));
    var port :- KeydbPort(env, configured);
    Ok((host, port))
  }

  /** `int(os.environ.get("KEYDB_PORT", str(configured)))`. */
  function KeydbPort(env: map<string, string>, configured: int): (r: Result<int, PyError>)
    ensures "KEYDB_PORT" !in env ==> r == Ok(configured)
    ensures "KEYDB_PORT" in env ==> (r.Ok? <==> ParseInt(env["KEYDB_PORT"]).Some?)
    ensures r.Ok? && "KEYDB_PORT" in env ==> ParseInt(env["KEYDB_PORT"]) == Some(r.value)
  {
    PyIntOfPrintedInt(configured);
    PyInt(Str(EnvGet(env, "KEYDB_PORT", IntToString(configured))))
  }

  /**
   * The load-balancing strategy: a discovery-only server falls back to the
   * infrastructure strategy (itself defaulting to "health_based"); a server
   * with static endpoints falls back to "round_robin".
   */
  function StrategyOf(server: Dict, balancing: Dict): (r: Value)
    ensures "load_balancing_strategy" in server ==> r == server["load_balancing_strategy"]
    ensures "load_balancing_strategy" !in server ==>
      if Truthy(Get(server, "use_service_discovery", Bool(false))) && !Truthy(Get(server, "endpoints", List([]))) then
        r == (if "strategy" in balancing then balancing["strategy"] else Str("health_based"))
      else r == Str("round_robin")
  {
    var infra := Get(balancing, "strategy", Str("health_based"));
    if Truthy(Get(server, "use_service_discovery", Bool(false))) && !Truthy(Get(server, "endpoints", List([]))) then
      Get(server, "load_balancing_strategy", infra)
    else
      Get(server, "load_balancing_strategy", Str("round_robin"))
  }

  /** The health-check interval: the infrastructure value (default 30.0), replaced by `float()` of a truthy server value. */
  function HealthIntervalOf(server: Dict, discovery: Dict, py: Builtins): (r: Result<Value, PyError>)
    ensures !Truthy(Get(server, "health_check_interval_sec", Null)) ==>
      r == Ok(if "health_check_interval_sec" in discovery then discovery["health_check_interval_sec"] else Real(30.0))
    ensures Truthy(Get(server, "health_check_interval_sec", Null)) ==>
      && (r.Ok? <==> PyFloat(server["health_check_interval_sec"], py).Ok?)
      && (r.Ok? ==> r.value == Real(PyFloat(server["health_check_interval_sec"], py).value))
  {
    var v := Get(server, "health_check_interval_sec", Null);
    if Truthy(v) then
      var x :- PyFloat(v, py);
      Ok(Real(x))
    else
      Ok(Get(discovery, "health_check_interval_sec", Real(30.0)))
  }

  /** The settings of an enabled server block, read in the order the source reads them. */
  function Assemble(server: Dict, infra: Infrastructure, env: map<string, string>, py: Builtins): (r: Result<ServerConfig, PyError>)
    ensures r.Ok? ==>
      && r.value.useDiscovery == Get(server, "use_service_discovery", Bool(false))
      && r.value.apiKey == Get(server, "api_key", Null)
      && r.value.endpoints == (if Truthy(Get(server, "endpoints", List([]))) then Get(server, "endpoints", List([])) else Null)
      && PyInt(Get(server, "port", Int(8000))) == Ok(r.value.port)
      && PyInt(Get(server, "retry_max", Int(3))) == Ok(r.value.retryMax)
      && PyInt(Get(server, "circuit_breaker_failure_threshold", Int(5))) == Ok(r.value.failureThreshold)
      && PyFloat(Get(server, "timeout_sec", Real(30.0)), py) == Ok(r.value.timeoutSec)
      && PyFloat(Get(server, "retry_delay_sec", Real(1.0)), py) == Ok(r.value.retryDelaySec)
      && PyFloat(Get(server, "circuit_breaker_recovery_timeout_sec", Real(60.0)), py) == Ok(r.value.recoveryTimeoutSec)
      && r.value.host == PyStr(Get(server, "host", Str("localhost")), py)
      && r.value.strategy == StrategyOf(server, infra.balancing)
      && HealthIntervalOf(server, infra.discovery, py) == Ok(r.value.healthCheckInterval)
      && ConsulOf(infra.consul, env, py) == Ok((r.value.consulHost, r.value.consulPort))
      && KeydbOf(infra.keydb, env) == Ok((r.value.keydbHost, r.value.keydbPort))
  {
    var useDiscovery := Get(server, "use_service_discovery", Bool(false));
    var endpoints := Get(server, "endpoints", List([]));
    var consul :- ConsulOf(infra.consul, env, py);
    var keydb :- KeydbOf(infra.keydb, env);
    var strategy := StrategyOf(server, infra.balancing);
    var interval :- HealthIntervalOf(server, infra.discovery, py);
    var n :- ServerNumbers(server, py);
    Ok(ServerConfig(
      PyStr(Get(server, "host", Str("localhost")), py), n.port, n.timeoutSec, n.retryMax, n.retryDelaySec,
      interval, n.failureThreshold, n.recoveryTimeoutSec, Get(server, "api_key", Null), useDiscovery,
      if Truthy(endpoints) then endpoints else Null,
      consul.0, consul.1, keydb.0, keydb.1, strategy))
  }

  /** The six numbers of a server block, converted in the order the source converts them. */
  datatype Numbers = Numbers(port: int, timeoutSec: real, retryMax: int, retryDelaySec: real,
                             failureThreshold: int, recoveryTimeoutSec: real)

  function ServerNumbers(server: Dict, py: Builtins): (r: Result<Numbers, PyError>)
    ensures r.Ok? <==>
      && PyInt(Get(server, "port", Int(8000))).Ok?
      && PyFloat(Get(server, "timeout_sec", Real(30.0)), py).Ok?
      && PyInt(Get(server, "retry_max", Int(3))).Ok?
      && PyFloat(Get(server, "retry_delay_sec", Real(1.0)), py).Ok?
      && PyInt(Get(server, "circuit_breaker_failure_threshold", Int(5))).Ok?
      && PyFloat(Get(server, "circuit_breaker_recovery_timeout_sec", Real(60.0)), py).Ok?
    ensures r.Ok? ==>
      && PyInt(Get(server, "port", Int(8000))) == Ok(r.value.port)
      && PyFloat(Get(server, "timeout_sec", Real(30.0)), py) == Ok(r.value.timeoutSec)
      && PyInt(Get(server, "retry_max", Int(3))) == Ok(r.value.retryMax)
      && PyFloat(Get(server, "retry_delay_sec", Real(1.0)), py) == Ok(r.value.retryDelaySec)
      && PyInt(Get(server, "circuit_breaker_failure_threshold", Int(5))) == Ok(r.value.failureThreshold)
      && PyFloat(Get(server, "circuit_breaker_recovery_timeout_sec", Real(60.0)), py) == Ok(r.value.recoveryTimeoutSec)
  {
    var port :- PyInt(Get(server, "port", Int(8000)));
    var timeout :- PyFloat(Get(server, "timeout_sec", Real(30.0)), py);
    var retryMax :- PyInt(Get(server, "retry_max", Int(3)));
    var retryDelay :- PyFloat(Get(server, "retry_delay_sec", Real(1.0)), py);
    var threshold :- PyInt(Get(server, "circuit_breaker_failure_threshold", Int(5)));
    var recovery :- PyFloat(Get(server, "circuit_breaker_recovery_timeout_sec", Real(60.0)), py);
    Ok(Numbers(port, timeout, retryMax, retryDelay, threshold, recovery))
  }

  /** `get_module_server_config(raw_config, module_name)`; `Ok(None)` is the disabled case. */
  function ServerConfigOf(raw: Dict, name: string, env: map<string, string>, py: Builtins): (r: Result<Option<ServerConfig>, PyError>)
    ensures ServerSection(raw, name).Err? ==> r.Err?
    ensures ServerSection(raw, name).Ok? && !Truthy(Get(ServerSection(raw, name).value, "enabled", Bool(false))) ==>
      r == Ok(None)
    ensures r.Ok? && r.value.Some? ==>
      && Truthy(Get(ServerSection(raw, name).value, "enabled", Bool(false)))
      && InfrastructureOf(raw).Ok?
      && Assemble(ServerSection(raw, name).value, InfrastructureOf(raw).value, env, py) == Ok(r.value.value)
  {
    var server :- ServerSection(raw, name);
    if !Truthy(Get(server, "enabled", Bool(false))) then Ok(None)
    else
      var infra :- InfrastructureOf(raw);
      var c :- Assemble(server, infra, env, py);
      Ok(Some(c))
  }

  /** The returned dict, with the keys the source writes and no others. */
  function ToDict(c: ServerConfig): (d: Dict)
    ensures "tls_enabled" !in d
    ensures "host" in d && d["host"] == Str(c.host) && "port" in d && d["port"] == Int(c.port)
    ensures Get(d, "use_service_discovery", Null) == c.useDiscovery && Get(d, "endpoints", Null) == c.endpoints
  {
    map[
      "host" := Str(c.host),
      "port" := Int(c.port),
      "timeout_sec" := Real(c.timeoutSec),
      "retry_max" := Int(c.retryMax),
      "retry_delay_sec" := Real(c.retryDelaySec),
      "health_check_interval_sec" := c.healthCheckInterval,
      "circuit_breaker_failure_threshold" := Int(c.failureThreshold),
      "circuit_breaker_recovery_timeout_sec" := Real(c.recoveryTimeoutSec),
      "api_key" := c.apiKey,
      "use_service_discovery" := c.useDiscovery,
      "endpoints" := c.endpoints,
      "consul_host" := c.consulHost,
      "consul_port" := Int(c.consulPort),
      "keydb_host" := c.keydbHost,
      "keydb_port" := Int(c.keydbPort),
      "load_balancing_strategy" := c.strategy]
  }

  /** What `get_module_base_url` returns: None, the endpoint list, or one URL. */
  datatype BaseUrl = Discovered | Endpoints(endpoints: Value) | Url(url: string)

  /** `get_module_base_url(server_config)` over any dict; a missing host or port raises KeyError. */
  function BaseUrlOf(d: Dict, py: Builtins): (r: Result<BaseUrl, PyError>)
    ensures Truthy(Get(d, "use_service_discovery", Null)) && !Truthy(Get(d, "endpoints", Null)) ==> r == Ok(Discovered)
    ensures Truthy(Get(d, "endpoints", Null)) ==> r == Ok(Endpoints(d["endpoints"]))
    ensures r.Ok? && r.value.Url? ==>
      && "host" in d && "port" in d
      && r.value.url == (if Truthy(Get(d, "tls_enabled", Bool(false))) then "https" else "http")
           + "://" + PyStr(d["host"], py) + ":" + PyStr(d["port"], py)
    ensures r.Err? <==> !Truthy(Get(d, "use_service_discovery", Null)) && !Truthy(Get(d, "endpoints", Null))
                         && ("host" !in d || "port" !in d)
  {
    if Truthy(Get(d, "use_service_discovery", Null)) && !Truthy(Get(d, "endpoints", Null)) then Ok(Discovered)
    else if Truthy(Get(d, "endpoints", Null)) then Ok(Endpoints(d["endpoints"]))
    else if "host" !in d then Err(KeyError("host"))
    else if "port" !in d then Err(KeyError("port"))
    else
      var protocol := if Truthy(Get(d, "tls_enabled", Bool(false))) then "https" else "http";
      Ok(Url(protocol + "://" + PyStr(d["host"], py) + ":" + PyStr(d["port"], py)))
  }

  /** `f"http://{host}:{port}"` for a Consul host with no ':' parses back into that host and port. */
  lemma ConsulFromConfig(consul: Dict, env: map<string, string>, py: Builtins, h: string)
    requires "CONSUL_HTTP_ADDR" !in env
    requires Get(consul, "host", Str("localhost")) == Str(h) && !Contains(h, ":")
    requires PyInt(Get(consul, "port", Int(8500))).Ok?
    ensures ConsulOf(consul, env, py) == Ok((Str(h), PyInt(Get(consul, "port", Int(8500))).value))
  {
    var port := PyInt(Get(consul, "port", Int(8500))).value;
    var addr := "http://" + h + ":" + IntToString(port);
    assert PyStr(Get(consul, "host", Str("localhost")), py) == h;
    assert EnvGet(env, "CONSUL_HTTP_ADDR", addr) == addr;
    Address.PrintedAddressParses(h, port);
  }

  /**
   * An environment address that still has a ':' after "http://" decides
   * both host and port; one without a ':' decides nothing, and the
   * configured host survives.
   */
  lemma ConsulFromEnvironment(consul: Dict, env: map<string, string>, py: Builtins)
    requires "CONSUL_HTTP_ADDR" in env
    requires PyInt(Get(consul, "port", Int(8500))).Ok?
    ensures var a := Address.DropHttp(env["CONSUL_HTTP_ADDR"]);
      !Contains(a, ":") ==>
        ConsulOf(consul, env, py) == Ok((Get(consul, "host", Str("localhost")), PyInt(Get(consul, "port", Int(8500))).value))
    ensures forall host: string, port: int ::
      env["CONSUL_HTTP_ADDR"] == "http://" + host + ":" + IntToString(port) && !Contains(host, ":") ==>
        ConsulOf(consul, env, py) == Ok((Str(host), port))
  {
    forall host: string, port: int |
      env["CONSUL_HTTP_ADDR"] == "http://" + host + ":" + IntToString(port) && !Contains(host, ":")
      ensures ConsulOf(consul, env, py) == Ok((Str(host), port))
    {
      Address.PrintedAddressParses(host, port);
    }
  }

  /** A server block holding only `enabled: true`, in a configuration with nothing else. */
  function MinimalConfig(name: string): Dict {
    map["modules" := Obj(map[name := Obj(map["server" := Obj(map["enabled" := Bool(true)])])])]
  }

  lemma MinimalServerSection(name: string)
    ensures ServerSection(MinimalConfig(name), name) == Ok(map["enabled" := Bool(true)])
  {
  }

  lemma MinimalInfrastructure(name: string)
    ensures InfrastructureOf(MinimalConfig(name)) == Ok(Infrastructure(map[], map[], map[], map[]))
  {
  }

  lemma DefaultConsul(env: map<string, string>, py: Builtins)
    requires "CONSUL_HTTP_ADDR" !in env
    ensures ConsulOf(map[], env, py) == Ok((Str("localhost"), 8500))
  {
    ContainsChar("localhost", ':');
    ConsulFromConfig(map[], env, py, "localhost");
  }

  lemma DefaultKeydb(env: map<string, string>)
    requires "KEYDB_HOST" !in env && "KEYDB_PORT" !in env
    ensures KeydbOf(map[], env) == Ok((Str("localhost"), 6379))
  {
    ParseIntToString(6379);
  }

  /**
   * The documented defaults: port 8000, timeout 30.0, three retries one
   * second apart, a breaker opening after 5 failures for 60 seconds, a 30
   * second health interval, round robin, no endpoints, Consul on
   * localhost:8500 and KeyDB on localhost:6379.
   */
  lemma ServerConfigDefaults(name: string, env: map<string, string>, py: Builtins)
    requires "CONSUL_HTTP_ADDR" !in env && "KEYDB_HOST" !in env && "KEYDB_PORT" !in env
    ensures ServerConfigOf(MinimalConfig(name), name, env, py) ==
      Ok(Some(ServerConfig("localhost", 8000, 30.0, 3, 1.0, Real(30.0), 5, 60.0, Null, Bool(false), Null,
        Str("localhost"), 8500, Str("localhost"), 6379, Str("round_robin"))))
  {
    MinimalServerSection(name);
    MinimalInfrastructure(name);
    AssembleDefaults(map["enabled" := Bool(true)], env, py);
  }

  /** The server keys that carry a default. */
  predicate SetsNoDefaulted(server: Dict) {
    && "use_service_discovery" !in server && "endpoints" !in server && "load_balancing_strategy" !in server
    && "health_check_interval_sec" !in server && "host" !in server && "port" !in server
    && "timeout_sec" !in server && "retry_max" !in server && "retry_delay_sec" !in server
    && "circuit_breaker_failure_threshold" !in server && "circuit_breaker_recovery_timeout_sec" !in server
    && "api_key" !in server
  }

  /** A server block that sets none of the defaulted keys, over an empty infrastructure block, gets the defaults. */
  lemma AssembleDefaults(server: Dict, env: map<string, string>, py: Builtins)
    requires SetsNoDefaulted(server)
    requires "CONSUL_HTTP_ADDR" !in env && "KEYDB_HOST" !in env && "KEYDB_PORT" !in env
    ensures Assemble(server, Infrastructure(map[], map[], map[], map[]), env, py) ==
      Ok(ServerConfig("localhost", 8000, 30.0, 3, 1.0, Real(30.0), 5, 60.0, Null, Bool(false), Null,
        Str("localhost"), 8500, Str("localhost"), 6379, Str("round_robin")))
  {
    DefaultConsul(env, py);
    DefaultKeydb(env);
    DefaultServerFields(server, py);
    AssembleDefaultsOk(server, env, py);
    var r := Assemble(server, Infrastructure(map[], map[], map[], map[]), env, py);
    assert r.value.endpoints == Null;
    assert (r.value.consulHost, r.value.consulPort) == (Str("localhost"), 8500);
    assert (r.value.keydbHost, r.value.keydbPort) == (Str("localhost"), 6379);
    assert r.value.healthCheckInterval == Real(30.0);
  }

  lemma AssembleDefaultsOk(server: Dict, env: map<string, string>, py: Builtins)
    requires SetsNoDefaulted(server)
    requires "CONSUL_HTTP_ADDR" !in env && "KEYDB_HOST" !in env && "KEYDB_PORT" !in env
    ensures Assemble(server, Infrastructure(map[], map[], map[], map[]), env, py).Ok?
  {
    DefaultConsul(env, py);
    DefaultKeydb(env);
    DefaultServerFields(server, py);
  }

  /** The server fields such a block leaves at their defaults. */
  lemma DefaultServerFields(server: Dict, py: Builtins)
    requires SetsNoDefaulted(server)
    ensures ServerNumbers(server, py) == Ok(Numbers(8000, 30.0, 3, 1.0, 5, 60.0))
    ensures PyStr(Get(server, "host", Str("localhost")), py) == "localhost"
    ensures StrategyOf(server, map[]) == Str("round_robin")
    ensures HealthIntervalOf(server, map[], py) == Ok(Real(30.0))
  {
  }

  /** A dict with neither discovery nor endpoints, but a host and a port, names an http URL unless it asks for TLS. */
  lemma BaseUrlFromHostPort(d: Dict, py: Builtins)
    requires "host" in d && "port" in d
    requires !Truthy(Get(d, "use_service_discovery", Null)) && !Truthy(Get(d, "endpoints", Null))
    requires "tls_enabled" !in d
    ensures BaseUrlOf(d, py) == Ok(Url("http://" + PyStr(d["host"], py) + ":" + PyStr(d["port"], py)))
  {
    assert "http" + "://" == "http://";
  }

  /**
   * The base URL of a server configuration: None for a discovery-only
   * server, the endpoint list when there is one, and otherwise an http URL
   * (the configuration never carries `tls_enabled`) that splits back into
   * the configured host and port.
   */
  lemma BaseUrlOfServerConfig(c: ServerConfig, py: Builtins)
    ensures Truthy(c.useDiscovery) && !Truthy(c.endpoints) ==> BaseUrlOf(ToDict(c), py) == Ok(Discovered)
    ensures Truthy(c.endpoints) ==> BaseUrlOf(ToDict(c), py) == Ok(Endpoints(c.endpoints))
    ensures !Truthy(c.useDiscovery) && !Truthy(c.endpoints) ==>
      BaseUrlOf(ToDict(c), py) == Ok(Url("http://" + c.host + ":" + IntToString(c.port)))
  {
    var d := ToDict(c);
    if !Truthy(c.useDiscovery) && !Truthy(c.endpoints) {
      BaseUrlFromHostPort(d, py);
    }
  }

  /** That http URL splits back into the configured host and port when the host holds no ':'. */
  lemma BaseUrlRoundTrip(c: ServerConfig, py: Builtins)
    requires !Truthy(c.useDiscovery) && !Truthy(c.endpoints) && !Contains(c.host, ":")
    ensures BaseUrlOf(ToDict(c), py).Ok? && BaseUrlOf(ToDict(c), py).value.Url?
    ensures Address.ParseAddress(BaseUrlOf(ToDict(c), py).value.url) == Ok(Address.HostAndPort(c.host, c.port))
  {
    BaseUrlOfServerConfig(c, py);
    Address.PrintedAddressParses(c.host, c.port);
  }
}
