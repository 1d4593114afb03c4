/**
 * The service registry (name -> ServiceInfo, with heartbeat-based eviction) and the
 * caching discovery client in front of it.
 *
 * ServiceInfo is a value here: the registry, the discovery cache and the health monitor
 * each hold their own copy (see README for what that changes).
 */
module Discovery {
  import opened Base

  /** A value of the open `metadata` mapping; only text values are ever compared. */
  datatype MetaValue = Text(text: string) | Number(number: int) | Flag(flag: bool)

  type Metadata = map<string, MetaValue>

  datatype ServiceInfo = ServiceInfo(
    name: string,
    host: string,
    port: int,
    healthCheckUrl: string,
    metadata: Metadata,
    lastHeartbeat: int)

  /**
   * The dataclass constructor followed by `__post_init__` at time `now`: absent metadata
   * becomes the empty mapping and a zero heartbeat becomes the creation time.
   */
  function NewServiceInfo(name: string, host: string, port: int, healthCheckUrl: string,
                          metadata: Option<Metadata>, lastHeartbeat: int, now: int): (s: ServiceInfo)
    ensures s.name == name && s.host == host && s.port == port && s.healthCheckUrl == healthCheckUrl
    ensures metadata.None? ==> s.metadata == map[]
    ensures metadata.Some? ==> s.metadata == metadata.value
    ensures lastHeartbeat == 0 ==> s.lastHeartbeat == now
    ensures lastHeartbeat != 0 ==> s.lastHeartbeat == lastHeartbeat
  {
    ServiceInfo(name, host, port, healthCheckUrl,
                if metadata.Some? then metadata.value else map[],
                if lastHeartbeat == 0 then now else lastHeartbeat)
  }

  /** `f"http://{host}:{port}"`, the address part shared by probes and proxy configs. */
  function HostPortUrl(host: string, port: int): (url: string)
    ensures |url| > 8 + |host|
    ensures url[..7] == "http://"
    ensures url[7..7 + |host|] == host && url[7 + |host|] == ':'
    ensures url[8 + |host|..] == IntToString(port)
  {
    "http://" + host + ":" + IntToString(port)
  }

  /** The sweep's staleness test; the comparison is strict. */
  predicate IsStale(s: ServiceInfo, now: int, timeout: int) {
    now - s.lastHeartbeat > timeout
  }

  /** What one sweep at time `now` leaves of the registry map. */
  function Evict(m: map<string, ServiceInfo>, now: int, timeout: int): (r: map<string, ServiceInfo>)
    ensures forall n :: n in r <==> n in m && !IsStale(m[n], now, timeout)
    ensures forall n :: n in r ==> r[n] == m[n]
  {
    map n | n in m && !IsStale(m[n], now, timeout) :: m[n]
  }

  /** The elements of `order` that lie in `keys`, in their order (a dict's key order after deletions). */
  function Restrict(order: seq<string>, keys: set<string>): (r: seq<string>)
    ensures forall x :: x in r <==> x in order && x in keys
    ensures Distinct(order) ==> Distinct(r)
    ensures |r| <= |order|
  {
    if order == [] then []
    else
      var rest := Restrict(order[1..], keys);
      assert Distinct(order) ==> order[0] !in order[1..];
      if order[0] in keys then [order[0]] + rest else rest
  }

  /** Restricting keeps relative order: restricting a concatenation restricts each part. */
  lemma {:induction false} RestrictAppend(a: seq<string>, b: seq<string>, keys: set<string>)
    ensures Restrict(a + b, keys) == Restrict(a, keys) + Restrict(b, keys)
  {
    if a != [] {
      assert (a + b)[1..] == a[1..] + b;
      RestrictAppend(a[1..], b, keys);
    } else {
      assert a + b == b;
    }
  }

  /** The values of `m` listed in key order. */
  function ValuesInOrder(order: seq<string>, m: map<string, ServiceInfo>): (r: seq<ServiceInfo>)
    requires forall n :: n in order ==> n in m
    ensures |r| == |order|
    ensures forall i :: 0 <= i < |r| ==> r[i] == m[order[i]]
  {
    if order == [] then [] else [m[order[0]]] + ValuesInOrder(order[1..], m)
  }

  /** `service.metadata.get('type') == service_type` */
  predicate HasType(s: ServiceInfo, serviceType: string) {
    "type" in s.metadata && s.metadata["type"] == Text(serviceType)
  }

  /** The list comprehension of `discover_services_by_type`. */
  function OfType(services: seq<ServiceInfo>, serviceType: string): (r: seq<ServiceInfo>)
    ensures forall s :: s in r <==> s in services && HasType(s, serviceType)
    ensures |r| <= |services|
  {
    if services == [] then []
    else (if HasType(services[0], serviceType) then [services[0]] else []) + OfType(services[1..], serviceType)
  }

  /** Filtering keeps the relative order: filtering a concatenation filters each part. */
  lemma {:induction false} OfTypeAppend(a: seq<ServiceInfo>, b: seq<ServiceInfo>, serviceType: string)
    ensures OfType(a + b, serviceType) == OfType(a, serviceType) + OfType(b, serviceType)
  {
    if a != [] {
      assert (a + b)[1..] == a[1..] + b;
      OfTypeAppend(a[1..], b, serviceType);
    } else {
      assert a + b == b;
    }
  }

  /** The list comprehension `[s for s in services if s.name != name]`. */
  function WithoutName(services: seq<ServiceInfo>, name: string): (r: seq<ServiceInfo>)
    ensures forall s :: s in r <==> s in services && s.name != name
    ensures |r| <= |services|
  {
    if services == [] then []
    else (if services[0].name != name then [services[0]] else []) + WithoutName(services[1..], name)
  }

  /** The comprehension keeps order and repeats: filtering a concatenation filters each part. */
  lemma {:induction false} WithoutNameAppend(a: seq<ServiceInfo>, b: seq<ServiceInfo>, name: string)
    ensures WithoutName(a + b, name) == WithoutName(a, name) + WithoutName(b, name)
  {
    if a != [] {
      assert (a + b)[1..] == a[1..] + b;
      WithoutNameAppend(a[1..], b, name);
    } else {
      assert a + b == b;
    }
  }

  class ServiceRegistry {
    /** The `services` dict ... */
    var services: map<string, ServiceInfo>
    /** ... and its key order (Python dicts iterate in insertion order). */
    var order: seq<string>
    const cleanupInterval: int
    const serviceTimeout: int

    ghost predicate Valid()
      reads this
    {
      && Distinct(order)
      && (forall n :: n in order <==> n in services)
      && (forall n :: n in services ==> services[n].name == n)
    }

    constructor (cleanupInterval: int, serviceTimeout: int)
      ensures Valid() && services == map[] && order == []
      ensures this.cleanupInterval == cleanupInterval && this.serviceTimeout == serviceTimeout
    {
      services := map[];
      order := [];
      this.cleanupInterval := cleanupInterval;
      this.serviceTimeout := serviceTimeout;
    }

    /** `register_service`: stamp the heartbeat, upsert by name, always succeed. */
    method Register(info: ServiceInfo, now: int) returns (ok: bool)
      requires Valid()
      modifies this`services, this`order
      ensures Valid() && ok
      ensures services == old(services)[info.name := info.(lastHeartbeat := now)]
      ensures order == if info.name in old(services) then old(order) else old(order) + [info.name]
    {
      var stamped := info.(lastHeartbeat := now);
      if info.name !in services {
        order := order + [info.name];
      }
      services := services[info.name := stamped];
      ok := true;
    }

    /** `unregister_service`: delete the entry if present and say whether it was. */
    method Unregister(name: string) returns (ok: bool)
      requires Valid()
      modifies this`services, this`order
      ensures Valid()
      ensures ok <==> name in old(services)
      ensures services == old(services) - {name}
      ensures order == Restrict(old(order), old(services).Keys - {name})
    {
      if name in services {
        services := services - {name};
        order := Restrict(order, services.Keys);
        ok := true;
      } else {
        ok := false;
        assert Restrict(order, services.Keys - {name}) == order by {
          RestrictAll(order, services.Keys - {name});
        }
      }
    }

    /** `get_service`: the record registered under `name`, if any. */
    function Get(name: string): (r: Option<ServiceInfo>)
      reads this
      requires Valid()
      ensures r.Some? <==> name in services
      ensures r.Some? ==> r.value == services[name] && r.value.name == name
    {
      if name in services then Some(services[name]) else None
    }

    /** `list_services`: every record, once each, in registration order. */
    function List(): (r: seq<ServiceInfo>)
      reads this
      requires Valid()
      ensures |r| == |order| == |services|
      ensures forall i :: 0 <= i < |r| ==> r[i] == services[order[i]]
      ensures forall s :: s in r <==> s.name in services && services[s.name] == s
    {
      DistinctKeysCount(order, services);
      ValuesInOrder(order, services)
    }

    /** `heartbeat`: refresh only that entry's timestamp, if the name is registered. */
    method Heartbeat(name: string, now: int) returns (ok: bool)
      requires Valid()
      modifies this`services
      ensures Valid()
      ensures ok <==> name in old(services)
      ensures ok ==> services == old(services)[name := old(services)[name].(lastHeartbeat := now)]
      ensures !ok ==> services == old(services)
    {
      if name in services {
        services := services[name := services[name].(lastHeartbeat := now)];
        ok := true;
      } else {
        ok := false;
      }
    }

    /**
     * One pass of the body of `_cleanup_loop` at time `now`: collect the stale names while
     * iterating the dict, then delete them.
     */
    method Sweep(now: int)
      requires Valid()
      modifies this`services, this`order
      ensures Valid()
      ensures services == Evict(old(services), now, serviceTimeout)
      ensures order == Restrict(old(order), services.Keys)
    {
      ghost var before := services;
      var stale: seq<string> := [];
      var i := 0;
      while i < |order|
        invariant 0 <= i <= |order|
        invariant order == old(order) && services == before
        invariant Distinct(stale)
        invariant forall n :: n in stale <==> n in order[..i] && IsStale(before[n], now, serviceTimeout)
      {
        var name := order[i];
        assert name !in order[..i];
        if now - services[name].lastHeartbeat > serviceTimeout {
          stale := stale + [name];
        }
        assert order[..i + 1] == order[..i] + [name];
        i := i + 1;
      }
      assert order[..|order|] == order;
      var j := 0;
      while j < |stale|
        invariant 0 <= j <= |stale|
        invariant order == old(order)
        invariant services == map n | n in before && n !in stale[..j] :: before[n]
        invariant forall k :: j <= k < |stale| ==> stale[k] in services
      {
        assert stale[..j + 1] == stale[..j] + [stale[j]];
        services := services - {stale[j]};
        j := j + 1;
      }
      assert stale[..|stale|] == stale;
      assert services == Evict(before, now, serviceTimeout);
      order := Restrict(order, services.Keys);
    }
  }

  lemma {:induction false} RestrictAll(order: seq<string>, keys: set<string>)
    requires forall x :: x in order ==> x in keys
    ensures Restrict(order, keys) == order
  {
    if order != [] {
      RestrictAll(order[1..], keys);
    }
  }

  /** Distinct keys listing exactly the map's domain are as many as the map's entries. */
  lemma {:induction false} DistinctKeysCount(order: seq<string>, m: map<string, ServiceInfo>)
    requires Distinct(order)
    requires forall n :: n in order <==> n in m
    ensures |order| == |m|
  {
    if order == [] {
      assert m.Keys == {};
    } else {
      var m' := m - {order[0]};
      assert forall n :: n in order[1..] <==> n in m' by {
        forall n ensures n in order[1..] <==> n in m' {
          if n in order[1..] {
            assert n != order[0];
          }
          if n in m' {
            assert n in order && n != order[0];
            var k :| 0 <= k < |order| && order[k] == n;
            assert k != 0;
            assert order[1..][k - 1] == n;
          }
        }
      }
      DistinctKeysCount(order[1..], m');
    }
  }

  /** A cache entry `(service_info, timestamp)`. */
  datatype CacheEntry = CacheEntry(info: ServiceInfo, timestamp: int)

  /** The cache answers iff it holds the name and the entry is younger than the TTL (strictly). */
  predicate CacheHit(cache: map<string, CacheEntry>, name: string, now: int, ttl: int) {
    name in cache && now - cache[name].timestamp < ttl
  }

  class ServiceDiscovery {
    const registry: ServiceRegistry
    const cacheTtl: int
    var cache: map<string, CacheEntry>

    constructor (registry: ServiceRegistry, cacheTtl: int)
      ensures this.registry == registry && this.cacheTtl == cacheTtl && cache == map[]
    {
      this.registry := registry;
      this.cacheTtl := cacheTtl;
      cache := map[];
    }

    /**
     * `discover_service`: a fresh cache entry answers without the registry; otherwise the
     * registry answers and only a found record is cached, stamped `now`.
     */
    method DiscoverService(name: string, now: int) returns (r: Option<ServiceInfo>)
      requires registry.Valid()
      modifies this`cache
      ensures CacheHit(old(cache), name, now, cacheTtl) ==>
                r == Some(old(cache)[name].info) && cache == old(cache)
      ensures !CacheHit(old(cache), name, now, cacheTtl) ==> r == registry.Get(name)
      ensures !CacheHit(old(cache), name, now, cacheTtl) && r.Some? ==>
                cache == old(cache)[name := CacheEntry(r.value, now)]
      ensures r.None? ==> cache == old(cache)
    {
      if name in cache {
        var entry := cache[name];
        if now - entry.timestamp < cacheTtl {
          return Some(entry.info);
        }
      }
      r := registry.Get(name);
      if r.Some? {
        cache := cache[name := CacheEntry(r.value, now)];
      }
    }

    /** `discover_services_by_type`: scans the registry in order and ignores the cache. */
    function DiscoverServicesByType(serviceType: string): (r: seq<ServiceInfo>)
      reads this, registry
      requires registry.Valid()
      ensures forall s :: s in r <==> s in registry.List() && HasType(s, serviceType)
    {
      OfType(registry.List(), serviceType)
    }

    method ClearCache()
      modifies this`cache
      ensures cache == map[]
    {
      cache := map[];
    }
  }
}
