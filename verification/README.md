# talkie: a Dafny model of the module communication layer

This project models the core of talkie's **module communication layer**
(`modules/api/`). This is the code a voice-assistant process uses to call
its module servers (speech, RAG, browser). It decides which endpoint
answers, when to stop calling a failing server, and how often to retry.
The project also models the small pure helpers around that layer:

- the module server's authentication check and metrics counters;
- the derivation of a module server's configuration;
- the voice-command classifiers of the browse feature;
- the browser's page history and link matching;
- the calibration overlay on the application config;
- the SDK's configuration sections and module discovery;
- the pure checks of `validate_config`.

Each component is an immutable record with pure transition functions. Each
function carries a contract, and lemmas relate the operations: round trips,
invariants the operations keep, closed forms, and reference definitions.

| module | file | models |
|---|---|---|
| `CircuitBreaker` | circuit_breaker.dfy | the CLOSED / OPEN / HALF_OPEN breaker with its failure count and last failure time |
| `Retry` | retry.dfy | `RetryPolicy`: the bounded retry loop with capped exponential backoff, recording its sleeps |
| `LoadBalancer` | load_balancer.dfy | the endpoint list with health flags, connection counts and the four selection strategies |
| `ServiceRegistry` | service_registry.dfy | cache-first lookups of service URLs and instances, backed by the service directory |
| `ApiClient`, `ClientProps` | client.dfy, client_props.dfy | `ModuleAPIClient`: construction, the discovery refresh, the health check and the `_request` failover loop, with the lemmas about it |
| `Address` | address.dfy | parsing a `host:port` Consul address, with or without `http://` |
| `ModuleConfig` | module_config.dfy | `get_module_server_config` and `get_module_base_url` |
| `ModuleServer` | module_server.dfy | the API-key check, the request and error counters, and the health, ready and metrics bodies of `BaseModuleServer` |
| `BrowseCommand` | browse_command.dfy | the browse voice-command predicates and `first_single_command` |
| `BrowserService` | browser_service.dfy | source sanitising, numbered link lists, page history, the page-index cache and link matching |
| `BrowserBase` | browser_base.dfy | `FetchResult` and its `ok` rule |
| `ConfigOverlay` | config_overlay.dfy | the audio and LLM calibration overlays from user settings |
| `SdkConfig` | sdk_config.dfy | `get_section`, `get_rag_section` and `get_browser_section` |
| `Discovery` | discovery.dfy | `discover_modules` and `get_module_config_paths` over a directory listing |
| `ValidateConfig` | validate_config.dfy | the pure checks of `run.py`'s `validate_config` |
| `Wrappers`, `Seqs`, `Text`, `Values` | wrappers.dfy, seqs.dfy, text.dfy, values.dfy | `Option`/`Result`, sequence helpers, Python string operations on ASCII text, and a dynamic JSON/YAML value with Python truthiness, `int()`, `float()` and `str()` |

## How the environment is represented

- **Time.** Wall-clock time (`time.time()`) is a `real` parameter. The
  breaker and the client's health check receive `now` explicitly.
- **Sleeps.** `time.sleep` is not performed; the retry loop returns the list
  of delays it would have slept.
- **HTTP.** Each HTTP exchange is answered by an oracle: a function from the
  request sent to the outcome. The outcome is a JSON body, a
  `RequestException`, an error response carrying a message, or another
  exception. The request id is a parameter of `_request`.
- **Randomness.** `random.choice` in the random strategy is an index chosen
  by the caller. The lemmas quantify over every index.
- **Set iteration order.** `update_endpoints` removes and adds endpoints in
  the iteration order of two Python sets, which depends on string hashing.
  The client's backends carry that order as a function from a set of URLs
  to the sequence of its elements (`LoadBalancer.SetOrder`), and every
  refresh uses it.
- **Caches and directories.** The KeyDB cache is a map from keys to stored
  strings, plus a flag for a cache that is down. The Consul directory is a
  function from a (service, tag) query to its answer or error. JSON text is
  abstract: `json.dumps` and `json.loads` are a pair of functions, so a
  cached string may load as any JSON value. The lemmas that read back what
  the registry stored assume that loading undoes dumping.
- **Optional packages.** Whether the discovery block's imports and client
  constructors succeed (the KeyDB client needs the `redis` package) is a
  flag of the client's backends.
- **The environment.** `os.environ` is a map from names to values.
- **Parsing numbers.** `int()` of a string is a decimal parser: surrounding
  whitespace and a sign are allowed, then ASCII digits. `float()` of a string
  and `str()` of a value that is not a string, int, bool or None are
  supplied by a `Builtins` parameter as partial functions.
- **Directories.** The modules root for discovery is a listing. Each entry
  is a name, whether it is a directory, its loaded manifest and the set of
  files in it.

## Behaviour the model follows

- **Retry timing.** The backoff delay is multiplied *before* each sleep, so
  the first sleep is `initial_delay * multiplier` and the k-th is
  `min(initial_delay * multiplier^k, max_delay)`
  (`modules/api/retry.py:82-90`).
- **`health_based` with nothing healthy.** It returns the first endpoint
  and leaves the round-robin index alone
  (`modules/api/load_balancer.py:121-131`).
- **When endpoints are refreshed.** Endpoints are refreshed from discovery
  at construction, in the health check once the interval has passed, and
  when a selection comes back empty
  (`modules/api/client.py:140-142`, `modules/api/client.py:203-209`,
  `modules/api/client.py:276-280`). With
  discovery on, construction refreshes twice: once explicitly, and once in
  the first health check, whose last-check time starts at 0.
- **Health flags.** Every exchange sets its endpoint's health flag. A
  JSON answer marks the endpoint healthy, and every failed exchange marks
  it unhealthy. That includes an error response converted to a
  `RuntimeError`, because the flag is set before the conversion. A refusal
  by the circuit breaker makes no exchange and changes no flag. A success
  body that is not JSON raises `JSONDecodeError`, which is a
  `RequestException`. An error body that is JSON but not an object raises
  `AttributeError` at `.get`.
- **Uncaught exceptions.** An exception that is neither a `RuntimeError`
  nor a `RequestException` leaves `_request` at once. It skips the
  connection-count decrement, so that count stays raised.
- **Empty endpoint.** An endpoint that is the empty string is falsy, so the
  client treats it as "no endpoint".
- **Duplicate endpoints.** `remove_endpoint` removes only the first copy of
  a duplicated endpoint. `least_connections` can then raise `KeyError` on a
  count that was deleted. Both are modelled.
- **"Request failed after N attempts".** This error is raised only when
  `max_failover_attempts <= 0`. Otherwise the last attempt's error
  propagates.
- **Discovery set-up.** Discovery is turned off when an import of the
  discovery block fails (the KeyDB client imports `redis`) and when a port
  does not parse as an integer (`modules/api/client.py:98-127`).
- **What a refresh touches.** A refresh changes the state of an endpoint
  only when the endpoint is in exactly one of the old and new lists. The
  bookkeeping lemmas of the client therefore speak of the endpoints no
  refresh removed or added, and with discovery off that is every endpoint.
- **Cache TTL.** KeyDB refuses `SET ... EX n` when `n` is zero or less; the
  wrapper catches the error and reports failure, so nothing is stored
  (`modules/api/keydb_client.py:57-80`). A registry whose TTL is not
  positive therefore never caches a URL list, and a health status cached
  with such a TTL is not kept.
- **`CONSUL_HTTP_ADDR`.** The client splits the Consul address only when
  it contains a colon. Otherwise the whole string, less any `http://`,
  becomes the host, and the configured port is kept.
- **`first_single_command`.** Its two branches are identical, so the result
  does not depend on whether the segment is a browse command.
- **Phrase replacement.** `is_open_number_only` replaces the first
  occurrence of the phrase, wherever it is.
- **Blank input.** `first_single_command` returns the empty string for
  blank input.
- **Link-word check.** In `_link_text_partial_match`, the check against the
  link's split words is subsumed by the substring check.
- **Page-index cache.** Evicting a URL from the page history drops its
  page-index cache entry.
- **Audio overlay.** If reading the chunk duration raises after the
  sensitivity was set, the sensitivity is kept, because the exception is
  caught outside both updates.
- **Discovery manifests.** Only a literal `enabled: false` disables a module.
  A boolean `order` counts as 0 or 1, because `bool` is an `int` in Python.

## Model

| member | source | states |
|---|---|---|
| CircuitBreaker.New | modules/api/circuit_breaker.py:30-49 | the threshold is raised to at least 1 and the recovery timeout to at least 1.0 s, values already in range are kept, and a new breaker is CLOSED with no failures and no failure time |
| CircuitBreaker.Admit | modules/api/circuit_breaker.py:62-80 | a call is refused exactly when the breaker is OPEN and either has no failure time or is still inside the recovery window; once the window has passed the call is admitted in HALF_OPEN with the count at zero; a breaker that is not OPEN is admitted unchanged |
| CircuitBreaker.RecordSuccess | modules/api/circuit_breaker.py:86-95 | a success in HALF_OPEN closes the circuit and clears the failure time; a success in CLOSED only zeroes the count |
| CircuitBreaker.RecordFailure | modules/api/circuit_breaker.py:99-120 | a failure adds one to the count and records its time; HALF_OPEN reopens, and CLOSED opens exactly when the count reaches the threshold |
| CircuitBreaker.Call | modules/api/circuit_breaker.py:51-121 | the work runs exactly when the breaker does not refuse; a refused call leaves the breaker alone; a returned value closes the circuit with a zero count; a raised error is re-raised, records the failure time, opens the circuit from HALF_OPEN (count 1) and from CLOSED at the threshold; the count grows by at most one and validity is kept |
| CircuitBreaker.Reset | modules/api/circuit_breaker.py:128-134 | a reset breaker equals a freshly built one with the same settings |
| CircuitBreaker.OpenRejectsWithinTimeout | modules/api/circuit_breaker.py:63-78 | inside the recovery window an OPEN breaker fails fast with the count and the remaining wait, and changes nothing |
| CircuitBreaker.HalfOpenProbe | modules/api/circuit_breaker.py:63-105 | after the window the call runs as a HALF_OPEN probe: success closes and clears the failure time, failure reopens with a count of one |
| CircuitBreaker.ClosedSuccessOnlyResetsCount | modules/api/circuit_breaker.py:93-95 | a success while CLOSED changes nothing but the count, which becomes zero |
| CircuitBreaker.ConsecutiveFailures | modules/api/circuit_breaker.py:99-120 | from a new breaker, the first threshold-1 consecutive failures leave it CLOSED with the count equal to the number of failures, and the threshold-th opens it at that failure's time |
| CircuitBreaker.OpenAfterThresholdFailsFast | modules/api/circuit_breaker.py:62-121 | once threshold consecutive failures have opened a new breaker, a call made before the timeout does not run and changes nothing |
| Retry.New | modules/api/retry.py:21-38 | max_retries is at least 0, the initial delay at least 0, the cap at least the initial delay and the multiplier at least 1; settings already in range are kept as given |
| Retry.RunFrom | modules/api/retry.py:62-90 | the loop from an iteration on makes between 1 and the remaining number of calls, sleeps once fewer times than it calls, returns the last call's outcome, and ends with an error only on the last allowed call or when the predicate declines it |
| Retry.ExecuteLoop | modules/api/retry.py:59-95 | the loop written with the backoff delay as mutable state returns the same result, call count and sleeps as the recursive definition |
| Retry.ExecuteOutcome | modules/api/retry.py:59-95 | `execute` makes 1 to max_retries+1 calls; every call before the last raised a retryable error; the result is the last call's; an error escapes only after max_retries+1 calls or when the predicate declines it; the trailing raise is never reached |
| Retry.NonRetryableRaisedAtOnce | modules/api/retry.py:69-70 | an error the predicate declines is raised after one call and no sleep |
| Retry.AlwaysFailing | modules/api/retry.py:62-79 | work that always fails retryably is called max_retries+1 times with max_retries sleeps, and the last error escapes |
| Retry.SleepsClosedForm | modules/api/retry.py:82-90 | the k-th sleep is min(initial_delay * multiplier^(k+1), max_delay): the delay grows before the first sleep |
| Retry.SleepsMonotone | modules/api/retry.py:82-90 | the sleeps never shrink, none is below the initial delay, and none exceeds max_delay |
| Retry.CapCommutes | modules/api/retry.py:82 | capping before or after growing by multiplier^k gives the same capped delay, which is why capping at every step equals capping once |
| LoadBalancer.ParseStrategy | modules/api/load_balancer.py:15-21 | a strategy is found exactly for the four enum values, and the name it is found for is its value |
| LoadBalancer.New | modules/api/load_balancer.py:29-47 | the balancer keeps the list and strategy with index 0, and exactly the listed endpoints start with 0 connections, last selected at 0.0 and healthy |
| LoadBalancer.Add | modules/api/load_balancer.py:49-55 | a listed endpoint changes nothing; a new one is appended with fresh state; every other endpoint keeps its state |
| LoadBalancer.Remove | modules/api/load_balancer.py:57-63 | an unlisted endpoint changes nothing; otherwise one copy leaves the list (as a multiset) and all of its state is dropped; every other endpoint keeps its state |
| LoadBalancer.Dropped | modules/api/load_balancer.py:67-72 | the endpoints to remove enumerate set(old) - set(new) without repeats |
| LoadBalancer.Joined | modules/api/load_balancer.py:67-76 | the endpoints to add enumerate set(new) - set(old) without repeats |
| LoadBalancer.UpdateSpec | modules/api/load_balancer.py:65-76 | for a duplicate-free list and any iteration order of the two set differences, the result is duplicate-free with the endpoints of the new list; removed endpoints lose all state, added ones start fresh, and kept ones keep theirs |
| LoadBalancer.UpdateWithSpec | modules/api/load_balancer.py:65-76 | the same for the iteration order the client's backends carry |
| LoadBalancer.UpdateWithCounts | modules/api/load_balancer.py:65-76 | an update never makes a connection count negative |
| LoadBalancer.InOrder | modules/api/load_balancer.py:67-76 | the order used lists every element of the set exactly once, and is the interpreter's order whenever that one does |
| LoadBalancer.UpdateWithFrame | modules/api/load_balancer.py:65-76 | for any list, duplicates included, and any set order, only endpoints in exactly one of the old and new lists change state, and when there are none the balancer is unchanged |
| LoadBalancer.RemoveAllFrame | modules/api/load_balancer.py:71-72 | removing a sequence of endpoints leaves every other endpoint's state alone |
| LoadBalancer.AddAllFrame | modules/api/load_balancer.py:75-76 | adding a sequence of endpoints leaves every other endpoint's state alone |
| LoadBalancer.Mark | modules/api/load_balancer.py:78-84 | the endpoint's health becomes the given flag, and every other flag, the counts and the list are unchanged |
| LoadBalancer.Increment | modules/api/load_balancer.py:150-153 | the endpoint's count (0 when absent) grows by one and its selection time is `now`; every other count and selection time, the flags, the list, the index and the strategy are unchanged |
| LoadBalancer.Decrement | modules/api/load_balancer.py:155-159 | the endpoint's count drops by one but not below zero; other counts are unchanged |
| LoadBalancer.IncrementDecrement | modules/api/load_balancer.py:150-159 | an increment followed by a decrement restores every non-negative count |
| LoadBalancer.Select | modules/api/load_balancer.py:86-148 | no endpoint exactly when the list is empty; a selection is always a listed endpoint; a missing-count KeyError happens only under LEAST_CONNECTIONS for a listed endpoint with no count; only the round-robin index changes, and RANDOM and LEAST_CONNECTIONS change nothing |
| LoadBalancer.RoundRobinCycle | modules/api/load_balancer.py:109-115 | over an unchanged list of n endpoints the j-th selection is endpoints[(index + j) % n] and the index ends at (index + k) % n |
| LoadBalancer.RoundRobinVisitsAll | modules/api/load_balancer.py:109-115 | from any index within range, round robin returns every endpoint within n selections |
| LoadBalancer.HealthBasedSelection | modules/api/load_balancer.py:96-131 | HEALTH_BASED returns a healthy endpoint whenever a listed one is healthy, and with none healthy returns the first endpoint without moving the index |
| LoadBalancer.LeastConnectionsMinimal | modules/api/load_balancer.py:133-143 | when every endpoint has a count, LEAST_CONNECTIONS returns one whose count is the minimum over the list |
| LoadBalancer.RandomReachesEvery | modules/api/load_balancer.py:117-119 | RANDOM can return every listed endpoint |
| LoadBalancer.MinCount | modules/api/load_balancer.py:135-137 | the minimum is at most every listed count and is the count of some listed endpoint |
| LoadBalancer.FirstMissing | modules/api/load_balancer.py:135-137 | there is no missing endpoint exactly when every listed endpoint has a count; a reported one is listed and has none |
| LoadBalancer.HealthyIn | modules/api/load_balancer.py:99-101 | the filtered list holds exactly the listed endpoints whose flag is true or absent |
| ServiceRegistry.CacheGet | modules/api/keydb_client.py:82-96 | a value is read exactly when the server is up and holds the key, and it is the stored value |
| ServiceRegistry.CacheSet | modules/api/keydb_client.py:57-80 | with the server up and a TTL it accepts (none, or a positive one) the key holds the value and TTL and reads back; with the server down or a TTL of zero or less nothing changes; every other key reads as before |
| ServiceRegistry.CacheDelete | modules/api/keydb_client.py:98-112 | the key reads as absent afterwards and every other key reads as before |
| ServiceRegistry.New | modules/api/service_registry.py:22-36 | the registry uses the given cache with the default TTL of 30 seconds |
| ServiceRegistry.TagPart | modules/api/service_registry.py:56 | the tag part is never empty, and a non-empty tag is used as given |
| ServiceRegistry.KeysDistinct | modules/api/service_registry.py:56-140 | URL keys, instance keys and health keys never collide, whatever the names, tags and ids |
| ServiceRegistry.CacheHit | modules/api/service_registry.py:57-65 | the cache answers exactly when it holds non-empty text that parses to a truthy value, and that value is returned |
| ServiceRegistry.UrlList | modules/api/service_registry.py:69-79 | the cached list has one item per URL and is truthy exactly when there are URLs |
| ServiceRegistry.GetHealthyServiceUrls | modules/api/service_registry.py:38-79 | a cache hit is returned without a query; otherwise the directory is queried, its error propagates with the cache untouched, and a non-empty answer is cached under the URL key with the registry TTL while an empty one is not cached |
| ServiceRegistry.GetHealthyServices | modules/api/service_registry.py:81-122 | the same for instance lists under the instance key |
| ServiceRegistry.CacheHealthStatus | modules/api/service_registry.py:124-140 | the status is stored under health:id with the given TTL, or the registry TTL when none is given, provided the cache is up and that TTL is positive, and otherwise nothing changes; no other key changes |
| ServiceRegistry.InvalidateCache | modules/api/service_registry.py:155-168 | both service keys read as absent afterwards and every other key reads as before |
| ServiceRegistry.HealthStatusRoundTrip | modules/api/service_registry.py:124-153 | a cached health status reads back unchanged when the cache is up and the TTL positive; otherwise the earlier reading stays |
| ServiceRegistry.UrlsCachedAfterMiss | modules/api/service_registry.py:55-79 | when JSON round-trips and the registry TTL is positive, a miss with a non-empty answer makes the next identical lookup a hit that returns the same list without a query |
| ServiceRegistry.RefusedTtlAlwaysQueries | modules/api/service_registry.py:55-79 | with a registry TTL of zero or less a miss caches nothing, so the next identical lookup queries the directory again |
| ServiceRegistry.InvalidateForcesQuery | modules/api/service_registry.py:155-168 | after invalidation the next URL and instance lookups both query the directory |
| ServiceRegistry.CacheDownAlwaysQueries | modules/api/service_registry.py:55-79 | with the cache unreachable every lookup queries the directory and leaves the cache unchanged |
| ApiClient.OrDefault | modules/api/client.py:104-113 | a non-empty argument wins, and None or "" gives the default |
| ApiClient.SetUpDiscovery | modules/api/client.py:98-127 | discovery is set up exactly when the imports succeed, the Consul address splits and the KeyDB port parses, and a failed import gives ImportError; the Consul host drops an "http://" prefix and takes the port after the first ':', keeping the configured port when there is none; the KeyDB host and port come from the argument, the environment or the defaults, in that order; the registry gets the default TTL |
| ApiClient.Strings | modules/api/client.py:186-192 | a URL list read from the registry has one string per list item, in order |
| ApiClient.StringsOfUrlList | modules/api/client.py:186-192 | the URL list the registry builds reads back as the directory's answer |
| ApiClient.Refresh | modules/api/client.py:180-199 | without discovery nothing changes; otherwise only the registry, balancer and endpoints change; the endpoints stay or become a non-empty list and the balancer stays or is updated to it in the backends' set order; only endpoints in exactly one of the old and new lists change state, and with none the balancer is kept; counts stay non-negative |
| ApiClient.Discover | modules/api/client.py:180-199 | without discovery nothing is looked up; only the registry's cache changes, and a list is adopted only when it is non-empty |
| ApiClient.Chosen | modules/api/client.py:213-216 | an endpoint is taken exactly when the selection is a non-empty string |
| ApiClient.CheckHealth | modules/api/client.py:201-239 | the refresh runs only with discovery once the interval has passed; one selection is made; a missing count raises KeyError; no endpoint returns False; a probed endpoint ends marked healthy exactly when the probe reads a truthy "ready", every other flag is as after the selection |
| ApiClient.Probe | modules/api/client.py:218-239 | the probed endpoint is marked healthy exactly when the reading is truthy, the reading is False unless the answer is a JSON object, and no other flag changes |
| ApiClient.StripSlashes | modules/api/client.py:86-91 | one entry per URL, each with its trailing slashes removed |
| ApiClient.Prepare | modules/api/client.py:70-138 | the client starts from the stripped URLs, a fresh balancer with the mapped strategy (round robin for an unknown name), the retry policy and the breaker; discovery is on exactly when asked for and set up without error, the imports included |
| ApiClient.Refreshed | modules/api/client.py:140-142 | after the initial refresh the strategy, index, policy and breaker are as built, and without discovery the endpoints and balancer are the initial ones |
| ApiClient.Initialize | modules/api/client.py:79-148 | no base URL without discovery raises the "base_url required" ValueError; otherwise an empty endpoint list raises "<module>: No endpoints available"; without discovery the client is built exactly when the URL list is non-empty; a built client's base URL is its first endpoint |
| ApiClient.New | modules/api/client.py:33-178 | construction fails exactly when the endpoint checks fail, and otherwise ends with the initial health check, whose result and exception are discarded |
| ApiClient.Exchange | modules/api/client.py:292-316 | a call succeeds exactly when the server answered with JSON; every failure is a RequestException, a RuntimeError carrying the server's message, or another exception |
| ApiClient.MarkCalls | modules/api/client.py:303-308 | after k calls the endpoint's health is the success of the last call, and no other flag changes |
| ApiClient.Guard | modules/api/client.py:318-323 | no exchange happens exactly when the breaker refuses; otherwise at most retry_max + 1 calls are made, with one sleep between consecutive calls, and the breaker gains at most one failure |
| ApiClient.EndingOf | modules/api/client.py:318-351 | a returned call answers; a failover always carries a RuntimeError or RequestException; anything else is raised unchanged |
| ApiClient.Track | modules/api/client.py:290-343 | the chosen endpoint's count goes up by one and comes back down, clamped at zero, unless an uncaught exception skipped the decrement; other counts and flags are unchanged |
| ApiClient.Send | modules/api/client.py:289-351 | one attempt sends copies of one request to the endpoint, as many as the guarded retry loop made calls, and ends as that loop's outcome dictates |
| ApiClient.PickEndpoint | modules/api/client.py:275-287 | one selection, or two with discovery after a refresh; a chosen endpoint is listed and non-empty; otherwise the error is a missing-count KeyError, the recorded exception, or "No healthy endpoints available" when none was recorded; every endpoint the refresh did not remove or add keeps its state, and without such endpoints only the index moves |
| ApiClient.Reselect | modules/api/client.py:276-287 | after a refresh, one more selection; a chosen endpoint is listed and non-empty; the refresh touches only endpoints of the old or the new list |
| ClientProps.AttemptShape | modules/api/client.py:273-351 | one attempt: one or two selections; at most retry_max + 1 exchanges, all copies of one request to a non-empty endpoint; at most one more breaker failure; failover only on a recoverable error |
| ClientProps.AttemptBookkeeping | modules/api/client.py:273-343 | an attempt keeps the endpoint lists unless a refresh removed or added an endpoint (never without discovery); every count of an endpoint the refresh did not touch comes back unless an uncaught exception escaped; a health flag changes only on the endpoint it sent to or one the refresh touched |
| ClientProps.SendKeepsBooks | modules/api/client.py:289-343 | sending to an endpoint keeps the lists and touches only that endpoint's count and flag; the count comes back unless an uncaught exception escaped, and the flag changes only when a request went out |
| ClientProps.AttemptFailsFastWhenOpen | modules/api/client.py:318-339 | an open breaker within its timeout makes an attempt send nothing, keep the breaker, and fail over with the breaker's error |
| ClientProps.AttemptAnswer | modules/api/client.py:318-325 | an attempt's answer is the JSON body of its last exchange |
| ClientProps.RequestBounds | modules/api/client.py:273-351 | one request runs at most max_failover_attempts iterations, one or two selections each (one without discovery), and adds at most one breaker failure per iteration |
| ClientProps.RequestExchanges | modules/api/client.py:273-323 | one request makes at most retry_max + 1 exchanges per failover iteration |
| ClientProps.RequestCarries | modules/api/client.py:268-300 | every exchange sends the request's verb, body and timeout (the client's by default) to an endpoint followed by the path, under one request id |
| ClientProps.CarriedFields | modules/api/client.py:268-300 | a carried request has the request id, verb, body and timeout, and its URL ends with the path |
| ClientProps.RequestResult | modules/api/client.py:273-358 | an answer is the JSON body of the last exchange; "Request failed after N attempts" is raised exactly when max_failover_attempts <= 0, and then nothing was sent; "No healthy endpoints available" only when the first iteration found no endpoint |
| ClientProps.RequestBookkeeping | modules/api/client.py:273-351 | a request keeps the balancer's endpoints unless a refresh removed or added one (never without discovery, which also keeps the client's list); the count of every endpoint no refresh touched comes back unless an uncaught exception escaped; a health flag changes only on an endpoint it sent to or one a refresh touched |
| ClientProps.RequestFailsFastWhenOpen | modules/api/client.py:318-351 | while the shared breaker refuses throughout, no exchange is made, the breaker is untouched and the request fails |
| ClientProps.UnknownStrategyIsRoundRobin | modules/api/client.py:129-138 | an unknown strategy name builds a round-robin balancer |
| ClientProps.DefaultDiscovery | modules/api/client.py:104-117 | with the defaults and an empty environment, discovery points at Consul localhost:8500 and KeyDB localhost:6379 |
| ClientProps.RefreshAdoptsUrls | modules/api/client.py:185-192 | a refresh whose lookup answers a non-empty URL list adopts it as the endpoints, updates the balancer to it in the backends' set order, touches the symmetric difference of the two lists, and keeps the lookup's cache |
| ClientProps.CheckHealthBookkeeping | modules/api/client.py:201-239 | a health check changes a flag only on the probed endpoint or one its refresh removed or added, keeps every other count, and keeps the balancer's list unless the refresh touched it; without discovery nothing is refreshed |
| ClientProps.ClientsMissingDisableDiscovery | modules/api/client.py:98-127 | when the discovery imports fail, the client is built without discovery from the given URLs, exactly when there is at least one |
| ClientProps.NewWithoutDiscovery | modules/api/client.py:79-178 | without discovery a buildable client keeps the stripped URLs, uses the first as base URL, and its initial health check makes exactly one selection on a fresh balancer |
| Address.DropHttp | modules/api/client.py:107-108 | a leading "http://" is removed, and any other text is kept as is |
| Address.ParseAddress | modules/api/client.py:107-111 | an address with no ':' after the prefix is a bare host; a split address has the text before the first ':' as host and the rest parsed as port; only a ':' followed by a non-number fails |
| Address.PrintedAddressParses | modules/api/config.py:44-51 | the text "http://host:port" parses back into that host and port when the host has no ':' |
| Address.SplitAtColon | modules/api/client.py:109-111 | an address splits at its first ':' when the text after it is a number |
| ModuleConfig.ServerSection | modules/api/config.py:24-26 | the server block is found exactly when each of the three nested lookups succeeds; a non-dict on the way raises AttributeError |
| ModuleConfig.InfrastructureOf | modules/api/config.py:31-35 | a configuration without `infrastructure` reads four empty sub-sections |
| ModuleConfig.ConsulOf | modules/api/config.py:42-51 | the configured port goes through int(); CONSUL_HTTP_ADDR, or the address printed from the configured host and port, replaces both when it contains a ':' and leaves them alone when it does not |
| ModuleConfig.KeydbOf | modules/api/config.py:54-57 | KEYDB_HOST and KEYDB_PORT override the configured host and port, and the port defaults to 6379 |
| ModuleConfig.KeydbPort | modules/api/config.py:57 | without KEYDB_PORT the configured port is kept; with it the result is its integer value, and a non-number fails |
| ModuleConfig.StrategyOf | modules/api/config.py:60-68 | the server's own strategy wins; otherwise a discovery-only server takes the infrastructure strategy (default "health_based") and any other server takes "round_robin" |
| ModuleConfig.HealthIntervalOf | modules/api/config.py:71-75 | the infrastructure interval (default 30.0) is used unless the server's value is truthy, which then goes through float() |
| ModuleConfig.ServerNumbers | modules/api/config.py:79-89 | the six numbers convert exactly when each conversion succeeds, and each is the int() or float() of its value or default |
| ModuleConfig.Assemble | modules/api/config.py:37-99 | every field of the result is the converted server value or its default; the endpoints become None when falsy; the Consul, KeyDB, strategy and interval come from their helpers |
| ModuleConfig.ServerConfigOf | modules/api/config.py:11-99 | a broken path to the server block raises; a server block that is not enabled gives None; an enabled one is assembled from it and the infrastructure block |
| ModuleConfig.ToDict | modules/api/config.py:77-99 | the returned dict carries the host, the port and the discovery fields, and never `tls_enabled` |
| ModuleConfig.BaseUrlOf | modules/api/config.py:102-128 | None for discovery without endpoints; the endpoint list when it is truthy; otherwise "protocol://host:port", with https only when tls_enabled is truthy; it fails exactly when it needs the host or port and one is missing |
| ModuleConfig.ConsulFromConfig | modules/api/config.py:42-51 | without CONSUL_HTTP_ADDR, a configured host with no ':' and its port come back unchanged |
| ModuleConfig.ConsulFromEnvironment | modules/api/config.py:44-51 | CONSUL_HTTP_ADDR without a ':' after the prefix keeps the configured host and port, and with one it supplies them |
| ModuleConfig.ServerConfigDefaults | modules/api/config.py:24-99 | a block holding only enabled: true, with an empty environment, gets the documented defaults: localhost:8000, 30.0 s timeout, 3 retries 1.0 s apart, breaker 5 / 60.0 s, 30.0 s interval, round robin, Consul localhost:8500 and KeyDB localhost:6379 |
| ModuleConfig.AssembleDefaults | modules/api/config.py:37-99 | any server block that sets none of the defaulted keys gets the defaults |
| ModuleConfig.BaseUrlOfServerConfig | modules/api/config.py:102-128 | on a produced configuration the base URL is None, the endpoints, or "http://host:port", since the configuration never carries tls_enabled |
| ModuleConfig.BaseUrlRoundTrip | modules/api/config.py:123-128 | that http URL splits back into the configured host and port when the host has no ':' |
| ModuleServer.BearerExactly | modules/api/server.py:168-170 | the bearer test accepts exactly the header "Bearer " followed by the key |
| ModuleServer.Authenticate | modules/api/server.py:151-179 | a request passes exactly when no key is set, the path is one of the five open probe and metrics paths, or it carries the key as a bearer token or in X-API-Key; otherwise it gets 401 authentication_failed "Invalid API key" |
| ModuleServer.NoHeadersRejected | modules/api/server.py:151-179 | with a key set, a guarded path without either header is rejected |
| ModuleServer.Record | modules/api/server.py:121-148 | one request bumps the total and its path's counter and leaves other paths alone; an error is counted for an exception or a status of 400 or more; latency is added and counted only for a response |
| ModuleServer.RecordKeepsConsistent | modules/api/server.py:121-148 | the per-path counters keep summing to the total, and errors and completions never outnumber requests |
| ModuleServer.RunCounts | modules/api/server.py:121-148 | after any sequence of requests the total is their number, each path's counter is the number of requests to it, errors are the failed ones and completions the answered ones |
| ModuleServer.AverageLatency | modules/api/server.py:276-280 | 0.0 before any request completes, and otherwise the mean latency: times the number of completed requests it gives the latency sum |
| ModuleServer.RaisedOnlyAverage | modules/api/server.py:133-148 | requests that all raised count as errors and leave the average latency at 0.0 |
| ModuleServer.Health | modules/api/server.py:215-223 | /health always reports "ok" with API version "1.0", the readiness flag and the module name |
| ModuleServer.Ready | modules/api/server.py:233-240 | /health/ready reports "ok" exactly when ready and "not_ready" otherwise |
| ModuleServer.MetricsOf | modules/api/server.py:273-288 | /metrics reports the counters, the average latency, and the uptime, which added to the start time gives the current time |
| BrowseCommand.IsBrowseCommandSome | app/browse_command.py:129-134 | the candidate loop holds exactly when some non-empty candidate, once stripped, is a single browse command |
| BrowseCommand.AnyPrefixSome | app/browse_command.py:185-187 | the prefix loop holds exactly when some listed prefix starts the normalised utterance |
| BrowseCommand.StartsWithAnyIff | app/browse_command.py:136-191 | the utterance starts with a browse command exactly when its normal form is non-empty and starts with a listed prefix, is "browse", or starts with "browse " |
| BrowseCommand.AnyPrefixAt | app/browse_command.py:185-187 | the loop finds a listed prefix wherever it sits in the list |
| BrowseCommand.BlankIsNoCommand | app/browse_command.py:16-18 | blank input matches no command shape and does not start a browse command |
| BrowseCommand.ClickStartsTheUtterance | app/browse_command.py:62-78 | every click or select command also starts with a listed browse prefix |
| BrowseCommand.OpenRestOfWord | app/browse_command.py:205 | after "open " or "open the ", a word without spaces is what remains, minus trailing periods |
| BrowseCommand.OpenNumberOnlyIff | app/browse_command.py:200-225 | "open N" or "open the N" with a one-word N is accepted exactly when N, minus trailing periods, is non-empty and is 1 to 10 in digits or one of the words one to ten |
| BrowseCommand.Cap | app/browse_command.py:249-251 | the capped text is a prefix of the input, at most max_len long, and the whole input when it fits |
| BrowseCommand.FirstSegment | app/browse_command.py:235-238 | there is a segment exactly when the separator occurs, and it is the stripped text before the first occurrence |
| BrowseCommand.FirstSingleCommandShape | app/browse_command.py:227-251 | blank input gives ""; the command is a prefix of the stripped utterance, at most max_len long; when the text before the first ". " strips to something the command is cut from it, otherwise when the text before the first " and " does, from that; a cut command lies before its separator, holds no copy of it, and is the whole stripped segment when that fits in max_len; with no usable cut it is the stripped utterance sliced to max_len |
| BrowseCommand.ScrollOrGoBackLooksAtFirst | app/browse_command.py:193-198 | in "A. B" only the first sentence, capped at 80, decides whether the utterance is a scroll or go-back command |
| BrowserService.SanitizeSource | modules/browser/service.py:36-39 | the label holds only letters, digits, '.', '_' and '-'; every other character becomes '_'; it is at most 102 long, keeps the length of a URL of at most 100 characters, and a longer one keeps 100 characters plus ".." |
| BrowserService.SanitizeIdempotent | modules/browser/service.py:36-39 | a label of a URL of at most 100 characters is its own label |
| BrowserService.Title | modules/browser/service.py:158-162 | the title is never empty; a label that fits is kept; a longer one is cut to at most max_title_len characters ending in "..." after a prefix of the label; an empty label becomes "link i" |
| BrowserService.FormatNumberedLinks | modules/browser/service.py:144-164 | the text is empty exactly when n <= 0 or there are no links, and otherwise joins the entries of the first min(n, len) links with spaces |
| BrowserService.NumberedEntries | modules/browser/service.py:155-163 | there are exactly min(n, len) entries, and the k-th reads "k. " followed by the title of the k-th link |
| BrowserService.NewPages | modules/browser/service.py:98-102 | the history bound is at least 2 and is the configured value when that is at least 2; history and cache start empty |
| BrowserService.PushPage | modules/browser/service.py:178-189 | an empty URL or one equal to the last entry changes nothing; otherwise the stripped URL is appended, and when the bound is exceeded the oldest entry leaves the history and its cache entry is dropped |
| BrowserService.PushKeepsHistoryValid | modules/browser/service.py:178-189 | pushing keeps the history within its bound, with clean entries and no two equal neighbours |
| BrowserService.TrimCache | modules/browser/service.py:230-235 | afterwards every cached page is in the history, and every cached page in the history keeps its entry |
| BrowserService.TrimIdempotent | modules/browser/service.py:230-235 | trimming twice is the same as trimming once |
| BrowserService.PreviousPage | modules/browser/service.py:237-241 | None exactly when the history has fewer than two entries, else the entry before the last |
| BrowserService.PreviousAfterPush | modules/browser/service.py:178-241 | after moving to a new page, going back leads to the page that was current before |
| BrowserService.AllWordsFoundIff | modules/browser/service.py:261-267 | when every link word occurs in the link text, the word loop holds exactly when every phrase word occurs in the link text |
| BrowserService.PartialMatchIff | modules/browser/service.py:243-267 | a phrase partially matches a link text exactly when both are non-empty after normalising and one contains the other or every word of the phrase occurs in the link text |
| BrowserService.FirstIndex | modules/browser/service.py:285-299 | the index found is the least whose element satisfies the test, and none is found only when no element does |
| BrowserService.MatchLink | modules/browser/service.py:269-308 | the selected link wins when asked for and present; any other result is one of the links |
| BrowserService.MatchByTextExact | modules/browser/service.py:280-297 | a non-empty link text picks the first link in list order that matches it exactly or by containment |
| BrowserService.MatchByTextPartial | modules/browser/service.py:280-300 | with no exact match, a non-empty link text picks the first partially matching link, and nothing when none matches |
| BrowserService.MatchByIndex | modules/browser/service.py:301-308 | with no link text, link number n is picked exactly when link_index converts to an int n between 1 and the number of links |
| BrowserBase.Fetched | modules/browser/base.py:11-18 | a result built from a status and a body has no content type and no error |
| BrowserBase.OkIsSuccessClass | modules/browser/base.py:20-22 | a result is ok exactly when it has no error and its status is in the 2xx class; any error makes it not ok |
| BrowserBase.OkBoundaries | modules/browser/base.py:20-22 | 200, 201 and 299 are ok; 199, 300 and 404 are not; an error spoils a 200 |
| ConfigOverlay.OverlayReal | app/config_overlay.py:20-33 | a given setting that float() accepts sets the key to its value clamped into the bounds; a missing, blank or unparsable one leaves the dict unchanged; no other key changes |
| ConfigOverlay.AudioOverlay | app/config_overlay.py:14-36 | without a store the section is returned unchanged; only sensitivity and chunk_duration_sec can change or appear, a changed sensitivity lies in [0.5, 10.0] and a changed chunk duration in [4.0, 15.0]; a store exception keeps what was already applied |
| ConfigOverlay.AudioOverlayWithoutSettings | app/config_overlay.py:20-33 | a store holding neither setting, or only blank ones, gives back an equal section |
| ConfigOverlay.AudioOverlayApplies | app/config_overlay.py:20-33 | two parsable settings both land, clamped, and nothing else changes |
| ConfigOverlay.AudioOverlayIdempotent | app/config_overlay.py:14-36 | laying the same settings over the overlay's own result changes nothing |
| ConfigOverlay.LlmOverlay | app/config_overlay.py:39-56 | without a store the section is returned unchanged; only min_transcription_length can change or appear, and a changed value is an int of at least 0 |
| ConfigOverlay.LlmOverlayReadsPrinted | app/config_overlay.py:45-49 | a stored length printed from a number n reads back as n when n >= 0, and as 0 otherwise |
| ConfigOverlay.LlmOverlayIgnoresInvalid | app/config_overlay.py:45-53 | a missing, blank or non-integer setting leaves the section unchanged |
| SdkConfig.RawSection | sdk/config.py:31 | a missing or falsy section is the empty dict, a dict section is taken as is, and only a truthy non-dict fails |
| SdkConfig.MergeOver | sdk/config.py:32-35 | the result has exactly the keys of the defaults, each taking the raw section's value when it has one |
| SdkConfig.ApplyValidators | sdk/config.py:36-41 | the keys are kept; each key with a validator takes the validator's answer, or keeps its value when the validator raises; validators for absent keys do nothing |
| SdkConfig.GetSection | sdk/config.py:12-42 | fails exactly when the section is a truthy non-dict; otherwise has exactly the keys of the defaults, each the raw or default value passed through its validator |
| SdkConfig.TextField | sdk/config.py:67-68 | the value is the stripped text when that is non-empty, and the default otherwise |
| SdkConfig.ChromaHost | sdk/config.py:52-57 | the host is None when missing or blank, and otherwise the stripped, non-empty text |
| SdkConfig.ChromaPort | sdk/config.py:58-65 | the port lies in [1, 65535]; it is 8000 when missing or not an integer, and the clamped integer otherwise |
| SdkConfig.RagFrom | sdk/config.py:50-78 | the section is built exactly when the unguarded int() conversions succeed; each field is its cleaned or clamped value (top_k and document_qa_top_k in [1, 20], chunk_size in [100, 2000], chunk_overlap in [0, 500], min_query_length >= 0, base_url without trailing '/') |
| SdkConfig.RagSectionOf | sdk/config.py:45-78 | fails exactly when "rag" or "ollama" is a truthy non-dict or an unguarded int() raises; otherwise every field is within its range |
| SdkConfig.RagSectionStable | sdk/config.py:45-78 | a normalised RAG section written back as configuration reads back as itself |
| SdkConfig.RagSectionDefaults | sdk/config.py:50-78 | without "rag" and "ollama" sections every field takes its documented default |
| SdkConfig.GuardedInt | sdk/config.py:86-95 | the value lies in the bounds; it is the default when missing or not an integer, and the clamped integer otherwise |
| SdkConfig.GuardedReal | sdk/config.py:99-108 | the value is at least the floor; it is the default when missing or not a number, and the floored number otherwise |
| SdkConfig.SearchUrl | sdk/config.py:96-98 | the URL always holds "{query}" and is stripped; any URL other than the DuckDuckGo template is the configured string, stripped; only a truthy non-string fails |
| SdkConfig.BrowserFrom | sdk/config.py:85-118 | fails exactly when the search URL does; otherwise every field has its cleaned or clamped value (timeout in [5, 120], retries in [0, 5], cooldown >= 0, demo delay >= 1) |
| SdkConfig.BrowserSectionOf | sdk/config.py:81-118 | fails only when the section is a truthy non-dict or the search URL a truthy non-string; otherwise the result is normalised |
| SdkConfig.BrowserSectionStable | sdk/config.py:81-118 | a normalised browser section written back as configuration reads back as itself |
| SdkConfig.BrowserSectionDefaults | sdk/config.py:85-118 | without a "browser" section every field takes its documented default |
| Discovery.StrLessIrreflexive | sdk/discovery.py:69 | no directory name sorts before itself |
| Discovery.StrLessTrans | sdk/discovery.py:69 | string order is transitive |
| Discovery.StrLessTotal | sdk/discovery.py:69 | any two different directory names are ordered one way or the other |
| Discovery.KeyLessTrans | sdk/discovery.py:69 | the (order, directory name) sort key is transitive |
| Discovery.KeyLessIrreflexive | sdk/discovery.py:69 | no module sorts before itself |
| Discovery.Insert | sdk/discovery.py:69 | inserting a module adds exactly that module to the collection |
| Discovery.InsertSorted | sdk/discovery.py:69 | inserting into a list sorted by (order, directory name) keeps it sorted |
| Discovery.SortByKey | sdk/discovery.py:69 | the sort is a permutation of its input and sorted by (order, directory name) |
| Discovery.SortedStrictly | sdk/discovery.py:69 | with distinct directory names the sorted list is strictly increasing in the key |
| Discovery.DistinctDirsPermutation | sdk/discovery.py:49 | reordering the records of one directory keeps their directory names distinct |
| Discovery.StrictlySortedUnique | sdk/discovery.py:69 | two lists holding the same records with strictly increasing keys are equal |
| Discovery.SortIgnoresInputOrder | sdk/discovery.py:49-69 | with distinct directory names the sorted records are the same whatever order the entries came in |
| Discovery.ConfigFile | sdk/discovery.py:57-58 | the config file is "config.yaml" unless the manifest names a non-empty one; a truthy non-string name cannot form a path |
| Discovery.OrderOf | sdk/discovery.py:62-66 | an int order is kept, a float order is truncated toward zero, and anything that is not a number is 0 |
| Discovery.NameOf | sdk/discovery.py:61 | the manifest's name when truthy, and the directory name otherwise |
| Discovery.Consider | sdk/discovery.py:50-67 | an entry is recorded exactly when it is a visible directory other than `__pycache__`, is not disabled by a literal false, and holds its config file; the record carries its name, directory, order and path |
| Discovery.Collect | sdk/discovery.py:49-67 | the loop succeeds exactly when every entry does, and then records exactly the modules that entries yield |
| Discovery.CollectMembers | sdk/discovery.py:49-67 | the modules recorded from a listing are those of its first entry and those of the rest |
| Discovery.Discover | sdk/discovery.py:31-70 | a root that is not a directory yields nothing; otherwise the result is the recorded modules, sorted by (order, directory name), and fails exactly when the loop does |
| Discovery.DiscoverMembers | sdk/discovery.py:31-70 | a module is discovered exactly when some entry of the root yields it |
| Discovery.ConfigPaths | sdk/discovery.py:73-80 | the config paths are those of the discovered modules, one per module, in the same order |
| ValidateConfig.CheckAudio | run.py:101-126 | the audio section passes exactly when the sample rate is a positive integer, the chunk duration a positive number and the sensitivity a number in [0.1, 10.0]; otherwise the first failing check names the error |
| ValidateConfig.Validate | run.py:97-130 | an empty config is rejected; a config passes exactly when its audio checks pass and the model name is non-blank; a truthy non-dict section raises AttributeError; the checks run in source order |
| ValidateConfig.DefaultsAreValid | run.py:101-130 | without "audio" and "ollama" sections the defaults (16000, 5.0, 2.5, "mistral") pass |
| ValidateConfig.ZeroSampleRateRejected | run.py:109-110 | a sample rate of 0 is rejected as not positive |
| ValidateConfig.EmptyModelRejected | run.py:127-130 | an empty model name is rejected |

## Left out

- `modules/api/consul_client.py` is not part of this model. The Consul directory is a function from a (service, tag) query to its answer or error.
- `load_yaml_file` in `config.py` is not part of this model. Discovery receives each manifest already loaded, and the empty dict stands for a missing or invalid one.
- HTTP transport: the requests `Session`, headers, `uuid` generation and `raise_for_status` are replaced by the outcome oracle and a request-id parameter.
- `time.sleep` is not performed; the retry loop returns its sleeps. `time.time()` is a parameter.
- Threading locks, the double-checked discovery lock, and concurrent use of the breaker, the balancer and the round-robin index: the model is sequential.
- Key expiry in KeyDB: TTLs are recorded with each entry, but time does not pass in the cache.
- The async polling of `modules/api/healthbeat.py` and the KeyDB connection set-up: they are network loops and client plumbing.
- `CircuitBreaker.get_state` only reads the state field. It is the field of the model's breaker record and has no member of its own.
- The `health_check_func` argument of `LoadBalancer`: the balancer never calls it.
- `modules/api/server.py`, framework parts:
  - the FastAPI and uvicorn wiring, middleware ordering and CORS;
  - the `X-Request-ID` response header;
  - the `/health/live` constant body and the `/config` endpoints;
  - the Prometheus text output;
  - signal handlers, and the Consul registration loop with its own address parsing.
- Middleware ordering in the server: authentication is outermost, so the metrics counters never see a rejected request. The model keeps the two checks as separate functions.
- Header names in the server are matched exactly as given; the case-insensitive lookup of HTTP headers is not modelled.
- Latency sums and averages are exact reals. Floating-point rounding, NaN and infinity are not modelled, including any `float()` result that is NaN or infinite.
- `int()` of a string accepts surrounding whitespace, a sign and ASCII digits. Underscores between digits and Unicode digits are not modelled.
- Whitespace is the ASCII part of what `str.isspace` accepts: space, tab, line feed, vertical tab, form feed, carriage return and the separators 0x1C to 0x1F. `str.strip`, `str.split`, `int()` and `\s` use that set; non-ASCII whitespace is not modelled. `str.lower` acts on ASCII letters only.
- `get_section` passes the section to `dict()`. The model accepts only a mapping there; building a dict from a list of pairs is not modelled and counts as the raised error.
- Validators in `get_section` either return a value or raise `TypeError` or `ValueError`. Other exceptions, which would escape, are not modelled.
- Discovery takes the entries in the order given. The initial sort of `iterdir()` by path is not modelled: reordering the entries only reorders the records `Collect` yields, since each record comes from one entry, and with distinct directory names every reordering of the records sorts to the same list (`Discovery.SortIgnoresInputOrder`); the first step is an argument, not a proved lemma. The listing order only decides which exception is reported first. A `config_file` that names a nested path (with `/`) is treated as a plain file name of the module directory.
- The Ollama reachability and model checks of `validate_config` (`run.py` from line 132 on) are network calls and are left out.
- Browser I/O is left out: `BrowserService.execute`, `open_in_browser`, cooldowns, the demos, `fetch`, `_get_or_build_page_index` (HTML fetching and extraction), `build_search_url` and the browse-results URLs.
- CPython's string hashing is not computed: the order in which `update_endpoints` iterates its two sets is the `SetOrder` parameter. A `SetOrder` that does not list each element of a set exactly once, which Python never does, is replaced by first-appearance order (`LoadBalancer.InOrder`).
- ApiClient.Refresh: a registry answer that is truthy but not a JSON list of strings is ignored, while the source hands it to `update_endpoints` and adopts it (`modules/api/client.py:190-192`). Such an answer can only come from cached text that loads as another JSON value, and endpoints that are not strings are outside the model.
- `ServiceRegistry.UrlsCachedAfterMiss`: it assumes that the JSON encoding of URL lists round-trips, since the encoder is abstract, and that the registry TTL is positive; with any other TTL KeyDB stores nothing and the next lookup queries again (`ServiceRegistry.RefusedTtlAlwaysQueries`).
