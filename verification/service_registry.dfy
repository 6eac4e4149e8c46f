/**
 * `ServiceRegistry`: service lookups that try the KeyDB cache first and fall
 * back to the Consul directory, caching non-empty directory answers.
 *
 * The KeyDB wrapper is a key/value map plus an `up` flag: when the server is
 * unreachable the wrapper's `get` answers None and `set`/`delete` do nothing,
 * as its exception handlers do. Expiry is recorded as the TTL of each entry;
 * the passing of time is not modelled, so an expired entry is simply one the
 * caller's cache no longer holds. JSON text is abstract (`Codec`), and the
 * directory is a pair of functions whose errors propagate.
 */
module ServiceRegistry {
  import opened Wrappers
  import opened Values

  datatype Entry = Entry(value: string, ttl: Option<int>)

  datatype Cache = Cache(up: bool, entries: map<string, Entry>)

  /** `KeyDBClient.get`. */
  function CacheGet(c: Cache, key: string): (r: Option<string>)
    ensures r.Some? <==> c.up && key in c.entries
    ensures r.Some? ==> r.value == c.entries[key].value
  {
    if c.up && key in c.entries then Some(c.entries[key].value) else None
  }

  /**
   * An expiry the server accepts: none, or a positive number of seconds.
   * `SET ... EX n` with n <= 0 is refused as an invalid expire time.
   */
  predicate ValidTtl(ttl: Option<int>) {
    ttl.None? || ttl.value > 0
  }

  /**
   * `KeyDBClient.set(key, value, ex=ttl)`: the wrapper catches the server's
   * refusal (unreachable, or an invalid expiry) and stores nothing.
   */
  function CacheSet(c: Cache, key: string, value: string, ttl: Option<int>): (r: Cache)
    ensures c.up && ValidTtl(ttl) ==> key in r.entries && r.entries[key] == Entry(value, ttl) && CacheGet(r, key) == Some(value)
    ensures !(c.up && ValidTtl(ttl)) ==> r == c
    ensures r.up == c.up
    ensures forall k :: k != key ==> CacheGet(r, k) == CacheGet(c, k)
  {
    if c.up && ValidTtl(ttl) then c.(entries := c.entries[key := Entry(value, ttl)]) else c
  }

  /** `KeyDBClient.delete(key)`. */
  function CacheDelete(c: Cache, key: string): (r: Cache)
    ensures CacheGet(r, key) == None
    ensures r.up == c.up
    ensures forall k :: k != key ==> CacheGet(r, k) == CacheGet(c, k)
  {
    if c.up then c.(entries := c.entries - {key}) else c
  }

  /** `json.dumps` and `json.loads` (None when loading raises). */
  datatype Codec = Codec(encode: Value -> string, decode: string -> Option<Value>)

  /** What the registry relies on from `json`: loading undoes dumping, and dumped text is never empty. */
  ghost predicate RoundTrips(j: Codec) {
    forall v :: j.decode(j.encode(v)) == Some(v) && j.encode(v) != ""
  }

  /** The Consul client's two queries, each either an answer or the error it raises. */
  datatype Directory<E> = Directory(
    serviceUrls: (string, Option<string>, string) -> Result<seq<string>, E>,
    healthyServices: (string, Option<string>) -> Result<seq<Value>, E>)

  datatype Registry = Registry(cache: Cache, cacheTtl: int)

  /** `ServiceRegistry(consul, keydb, cache_ttl_sec=30)`. */
  function New(cache: Cache): (r: Registry)
    ensures r.cache == cache && r.cacheTtl == 30
  {
    Registry(cache, 30)
  }

  /** `tag or 'default'`: None and the empty tag both become "default". */
  function TagPart(tag: Option<string>): (r: string)
    ensures r != ""
    ensures tag.Some? && tag.value != "" ==> r == tag.value
  {
    if tag.Some? && tag.value != "" then tag.value else "default"
  }

  function ServiceKey(name: string, tag: Option<string>, kind: string): string {
    "service:" + name + ":" + TagPart(tag) + ":" + kind
  }

  function UrlsKey(name: string, tag: Option<string>): string { ServiceKey(name, tag, "urls") }
  function InstancesKey(name: string, tag: Option<string>): string { ServiceKey(name, tag, "instances") }
  function HealthKey(serviceId: string): string { "health:" + serviceId }

  /** The keys of the three kinds never collide, whatever the names, tags and ids. */
  lemma KeysDistinct(name: string, tag: Option<string>, name': string, tag': Option<string>, id: string)
    ensures UrlsKey(name, tag) != InstancesKey(name', tag')
    ensures HealthKey(id) != UrlsKey(name, tag) && HealthKey(id) != InstancesKey(name, tag)
  {
    var u, i := UrlsKey(name, tag), InstancesKey(name', tag');
    assert u[|u| - 2] == 'l';
    assert i[|i| - 2] == 'e';
    assert HealthKey(id)[0] == 'h' && u[0] == 's' && InstancesKey(name, tag)[0] == 's';
  }

  /** What one lookup returns, the cache after it, and whether it queried the directory. */
  datatype Lookup<E> = Lookup(result: Result<Value, E>, cache: Cache, queried: bool)

  /** The cached value under `key` when it is non-empty text that decodes to a truthy value. */
  function CacheHit(c: Cache, json: Codec, key: string): (r: Option<Value>)
    ensures r.Some? ==> Truthy(r.value)
    ensures r.Some? <==> (var t := CacheGet(c, key); t.Some? && t.value != "" && json.decode(t.value).Some? && Truthy(json.decode(t.value).value))
  {
    match CacheGet(c, key)
    case None => None
    case Some(text) =>
      if text == "" then None
      else
        match json.decode(text)
        case None => None
        case Some(v) => if Truthy(v) then Some(v) else None
  }

  /** A directory answer as the JSON list the registry caches and returns. */
  function UrlList(urls: seq<string>): (v: Value)
    ensures v.List? && |v.items| == |urls|
    ensures Truthy(v) <==> urls != []
  {
    List(seq(|urls|, i requires 0 <= i < |urls| => Str(urls[i])))
  }

  /** `get_healthy_service_urls(service_name, tag, protocol)`. */
  function GetHealthyServiceUrls<E>(reg: Registry, json: Codec, dir: Directory<E>, name: string, tag: Option<string>, protocol: string): (r: Lookup<E>)
    ensures var hit := CacheHit(reg.cache, json, UrlsKey(name, tag));
      && (hit.Some? ==> r == Lookup(Ok(hit.value), reg.cache, false))
      && (hit.None? ==> r.queried)
    ensures r.queried ==> match dir.serviceUrls(name, tag, protocol)
      case Err(e) => r.result == Err(e) && r.cache == reg.cache
      case Ok(urls) =>
        && r.result == Ok(UrlList(urls))
        && (urls == [] ==> r.cache == reg.cache)
        && (urls != [] ==> r.cache == CacheSet(reg.cache, UrlsKey(name, tag), json.encode(UrlList(urls)), Some(reg.cacheTtl)))
  {
    var key := UrlsKey(name, tag);
    match CacheHit(reg.cache, json, key)
    case Some(v) => Lookup(Ok(v), reg.cache, false)
    case None =>
      match dir.serviceUrls(name, tag, protocol)
      case Err(e) => Lookup(Err(e), reg.cache, true)
      case Ok(urls) =>
        var v := UrlList(urls);
        var c := if urls != [] then CacheSet(reg.cache, key, json.encode(v), Some(reg.cacheTtl)) else reg.cache;
        Lookup(Ok(v), c, true)
  }

  /** `get_healthy_services(service_name, tag)`. */
  function GetHealthyServices<E>(reg: Registry, json: Codec, dir: Directory<E>, name: string, tag: Option<string>): (r: Lookup<E>)
    ensures var hit := CacheHit(reg.cache, json, InstancesKey(name, tag));
      && (hit.Some? ==> r == Lookup(Ok(hit.value), reg.cache, false))
      && (hit.None? ==> r.queried)
    ensures r.queried ==> match dir.healthyServices(name, tag)
      case Err(e) => r.result == Err(e) && r.cache == reg.cache
      case Ok(services) =>
        && r.result == Ok(List(services))
        && (services == [] ==> r.cache == reg.cache)
        && (services != [] ==> r.cache == CacheSet(reg.cache, InstancesKey(name, tag), json.encode(List(services)), Some(reg.cacheTtl)))
  {
    var key := InstancesKey(name, tag);
    match CacheHit(reg.cache, json, key)
    case Some(v) => Lookup(Ok(v), reg.cache, false)
    case None =>
      match dir.healthyServices(name, tag)
      case Err(e) => Lookup(Err(e), reg.cache, true)
      case Ok(services) =>
        var v := List(services);
        var c := if services != [] then CacheSet(reg.cache, key, json.encode(v), Some(reg.cacheTtl)) else reg.cache;
        Lookup(Ok(v), c, true)
  }

  /**
   * `cache_health_status(service_id, status, ttl_sec)`; the TTL defaults to
   * the cache TTL (an explicit 0 is kept, and then refused by the server).
   */
  function CacheHealthStatus(reg: Registry, serviceId: string, status: string, ttlSec: Option<int>): (r: Registry)
    ensures reg.cache.up && ttlSec.GetOr(reg.cacheTtl) > 0 ==>
      HealthKey(serviceId) in r.cache.entries && r.cache.entries[HealthKey(serviceId)] == Entry(status, Some(ttlSec.GetOr(reg.cacheTtl)))
    ensures !(reg.cache.up && ttlSec.GetOr(reg.cacheTtl) > 0) ==> r == reg
    ensures forall k :: k != HealthKey(serviceId) ==> CacheGet(r.cache, k) == CacheGet(reg.cache, k)
    ensures r.cacheTtl == reg.cacheTtl
  {
    var ttl := if ttlSec.Some? then ttlSec.value else reg.cacheTtl;
    reg.(cache := CacheSet(reg.cache, HealthKey(serviceId), status, Some(ttl)))
  }

  /** `get_cached_health_status(service_id)`. */
  function GetCachedHealthStatus(reg: Registry, serviceId: string): Option<string> {
    CacheGet(reg.cache, HealthKey(serviceId))
  }

  /** `invalidate_cache(service_name, tag)`: both service keys are deleted. */
  function InvalidateCache(reg: Registry, name: string, tag: Option<string>): (r: Registry)
    ensures CacheGet(r.cache, UrlsKey(name, tag)) == None && CacheGet(r.cache, InstancesKey(name, tag)) == None
    ensures forall k :: k != UrlsKey(name, tag) && k != InstancesKey(name, tag) ==> CacheGet(r.cache, k) == CacheGet(reg.cache, k)
    ensures r.cacheTtl == reg.cacheTtl
  {
    reg.(cache := CacheDelete(CacheDelete(reg.cache, UrlsKey(name, tag)), InstancesKey(name, tag)))
  }

  /**
   * A stored health status reads back unchanged when the cache is up and the
   * TTL is positive; otherwise the store refused it and the previous status
   * (or None) is read.
   */
  lemma HealthStatusRoundTrip(reg: Registry, serviceId: string, status: string, ttlSec: Option<int>)
    ensures var r := CacheHealthStatus(reg, serviceId, status, ttlSec);
      GetCachedHealthStatus(r, serviceId) ==
        (if reg.cache.up && ttlSec.GetOr(reg.cacheTtl) > 0 then Some(status) else GetCachedHealthStatus(reg, serviceId))
  {}

  /**
   * A lookup that missed and got a non-empty answer makes the next identical
   * lookup a cache hit that returns the same list without a query, provided
   * JSON round-trips and the cache TTL is one the server accepts.
   */
  lemma UrlsCachedAfterMiss<E>(reg: Registry, json: Codec, dir: Directory<E>, name: string, tag: Option<string>, protocol: string)
    requires RoundTrips(json) && reg.cache.up && reg.cacheTtl > 0
    requires CacheHit(reg.cache, json, UrlsKey(name, tag)).None?
    requires dir.serviceUrls(name, tag, protocol).Ok? && dir.serviceUrls(name, tag, protocol).value != []
    ensures var first := GetHealthyServiceUrls(reg, json, dir, name, tag, protocol);
      var second := GetHealthyServiceUrls(reg.(cache := first.cache), json, dir, name, tag, protocol);
      && first.queried && !second.queried
      && second.result == first.result
      && second.cache == first.cache
  {
    var urls := dir.serviceUrls(name, tag, protocol).value;
    var v := UrlList(urls);
    var first := GetHealthyServiceUrls(reg, json, dir, name, tag, protocol);
    assert json.decode(json.encode(v)) == Some(v) && json.encode(v) != "";
    assert CacheHit(first.cache, json, UrlsKey(name, tag)) == Some(v);
  }

  /** With a cache TTL the server refuses, nothing is cached and every lookup queries again. */
  lemma RefusedTtlAlwaysQueries<E>(reg: Registry, json: Codec, dir: Directory<E>, name: string, tag: Option<string>, protocol: string)
    requires reg.cacheTtl <= 0
    requires CacheHit(reg.cache, json, UrlsKey(name, tag)).None?
    ensures var first := GetHealthyServiceUrls(reg, json, dir, name, tag, protocol);
      var second := GetHealthyServiceUrls(reg.(cache := first.cache), json, dir, name, tag, protocol);
      && first.queried && first.cache == reg.cache
      && second.queried
  {}

  /** After `invalidate_cache`, the next URL lookup for that service queries the directory. */
  lemma InvalidateForcesQuery<E>(reg: Registry, json: Codec, dir: Directory<E>, name: string, tag: Option<string>, protocol: string)
    ensures GetHealthyServiceUrls(InvalidateCache(reg, name, tag), json, dir, name, tag, protocol).queried
    ensures GetHealthyServices(InvalidateCache(reg, name, tag), json, dir, name, tag).queried
  {}

  /** With the cache unreachable every lookup goes to the directory and the cache stays as it was. */
  lemma CacheDownAlwaysQueries<E>(reg: Registry, json: Codec, dir: Directory<E>, name: string, tag: Option<string>, protocol: string)
    requires !reg.cache.up
    ensures var r := GetHealthyServiceUrls(reg, json, dir, name, tag, protocol);
      r.queried && r.cache == reg.cache
  {}
}
