/**
 * The load balancer (service list, per-name connection / breaker / failure maps, a shared
 * round-robin cursor) and the Envoy and Traefik configuration generators that read it.
 */
module Balancing {
  import opened Base
  import opened Discovery

  /** The strategy names the balancer recognises; any other string selects the first available service. */
  const RoundRobin: string := "round_robin"
  const RandomChoice: string := "random"
  const LeastConnections: string := "least_connections"

  datatype LoadBalancingConfig = LoadBalancingConfig(
    strategy: string,
    healthCheckEnabled: bool,
    healthCheckInterval: int,
    circuitBreakerEnabled: bool,
    circuitBreakerThreshold: int,
    retryAttempts: int)

  function Names(services: seq<ServiceInfo>): set<string> {
    set s | s in services :: s.name
  }

  /** `circuit_breaker_states.get(name, False)` */
  predicate BreakerOpen(breaker: map<string, bool>, name: string) {
    name in breaker && breaker[name]
  }

  /** The services whose breaker is closed, in list order. */
  function Available(services: seq<ServiceInfo>, breaker: map<string, bool>): (r: seq<ServiceInfo>)
    ensures forall s :: s in r <==> s in services && !BreakerOpen(breaker, s.name)
    ensures |r| <= |services|
  {
    if services == [] then []
    else (if !BreakerOpen(breaker, services[0].name) then [services[0]] else []) + Available(services[1..], breaker)
  }

  /** Order and repeats are kept: filtering a concatenation filters each part. */
  lemma {:induction false} AvailableAppend(a: seq<ServiceInfo>, b: seq<ServiceInfo>, breaker: map<string, bool>)
    ensures Available(a + b, breaker) == Available(a, breaker) + Available(b, breaker)
  {
    if a != [] {
      var head := if !BreakerOpen(breaker, a[0].name) then [a[0]] else [];
      assert (a + b)[1..] == a[1..] + b;
      assert Available(a + b, breaker) == head + Available(a[1..] + b, breaker);
      assert Available(a, breaker) == head + Available(a[1..], breaker);
      AvailableAppend(a[1..], b, breaker);
    } else {
      assert a + b == b;
    }
  }

  /**
   * The position `min(available, key=connections)` picks: a least-loaded service, the first
   * one in list order among equals.
   */
  function LeastLoaded(avail: seq<ServiceInfo>, counts: map<string, int>): (k: nat)
    requires avail != []
    ensures k < |avail|
    ensures forall j :: 0 <= j < |avail| ==> GetOrZero(counts, avail[k].name) <= GetOrZero(counts, avail[j].name)
    ensures forall j :: 0 <= j < k ==> GetOrZero(counts, avail[k].name) < GetOrZero(counts, avail[j].name)
    decreases |avail|
  {
    if |avail| == 1 then 0
    else
      var k := LeastLoaded(avail[..|avail| - 1], counts);
      if GetOrZero(counts, avail[|avail| - 1].name) < GetOrZero(counts, avail[k].name) then |avail| - 1 else k
  }

  /** The services `count` consecutive round-robin selections return, over a fixed available list. */
  function RoundRobinRun(avail: seq<ServiceInfo>, cursor: nat, count: nat): (r: seq<ServiceInfo>)
    requires avail != []
    ensures |r| == count
    ensures forall k :: 0 <= k < count ==> r[k] == avail[(cursor + k) % |avail|]
  {
    seq(count, k requires 0 <= k < count => avail[(cursor + k) % |avail|])
  }

  /** Euclidean remainder is determined by any decomposition `a == q * n + y` with `0 <= y < n`. */
  lemma ModUnique(a: int, n: int, q: int, y: int)
    requires n > 0 && 0 <= y < n && a == q * n + y
    ensures a % n == y
  {
    var d := a / n - q;
    assert d * n == y - a % n;
  }

  /** One full round-robin cycle visits the available list rotated to the cursor's position. */
  lemma RoundRobinIsRotation(avail: seq<ServiceInfo>, cursor: nat)
    requires avail != []
    ensures RoundRobinRun(avail, cursor, |avail|) == avail[cursor % |avail|..] + avail[..cursor % |avail|]
  {
    var n := |avail|;
    var q, r := cursor / n, cursor % n;
    var run := RoundRobinRun(avail, cursor, n);
    var rot := avail[r..] + avail[..r];
    forall k | 0 <= k < n ensures run[k] == rot[k] {
      if r + k < n {
        ModUnique(cursor + k, n, q, r + k);
      } else {
        ModUnique(cursor + k, n, q + 1, r + k - n);
      }
    }
  }

  /** Round-robin fairness: N selections over N available services return each one exactly once. */
  lemma RoundRobinFair(avail: seq<ServiceInfo>, cursor: nat)
    requires avail != []
    ensures multiset(RoundRobinRun(avail, cursor, |avail|)) == multiset(avail)
  {
    var r := cursor % |avail|;
    RoundRobinIsRotation(avail, cursor);
    assert avail == avail[..r] + avail[r..];
  }

  /** The breaker bookkeeping after `record_failure(name)`: (failure_counts, circuit_breaker_states). */
  function AfterFailure(failures: map<string, int>, breaker: map<string, bool>, name: string,
                        config: LoadBalancingConfig): (r: (map<string, int>, map<string, bool>))
    ensures !config.circuitBreakerEnabled ==> r == (failures, breaker)
    ensures config.circuitBreakerEnabled ==> r.0 == failures[name := GetOrZero(failures, name) + 1]
    ensures config.circuitBreakerEnabled ==>
              (BreakerOpen(r.1, name) <==> BreakerOpen(breaker, name) || GetOrZero(failures, name) + 1 >= config.circuitBreakerThreshold)
    ensures forall other :: other != name ==> (other in r.1 <==> other in breaker) && (other in r.1 ==> r.1[other] == breaker[other])
  {
    if !config.circuitBreakerEnabled then (failures, breaker)
    else
      var f := failures[name := GetOrZero(failures, name) + 1];
      if f[name] >= config.circuitBreakerThreshold then (f, breaker[name := true]) else (f, breaker)
  }

  /** `count` consecutive `record_failure(name)` calls. */
  function FailureRun(failures: map<string, int>, breaker: map<string, bool>, name: string,
                      config: LoadBalancingConfig, count: nat): (map<string, int>, map<string, bool>)
  {
    if count == 0 then (failures, breaker)
    else
      var prev := FailureRun(failures, breaker, name, config, count - 1);
      AfterFailure(prev.0, prev.1, name, config)
  }

  /**
   * With the breaker enabled, `count` failures add exactly `count` to the failure counter, and the
   * breaker ends open iff it was open already or the last count reached the threshold.
   */
  lemma {:induction false} FailureRunOpensAtThreshold(failures: map<string, int>, breaker: map<string, bool>,
                                                     name: string, config: LoadBalancingConfig, count: nat)
    requires config.circuitBreakerEnabled
    ensures GetOrZero(FailureRun(failures, breaker, name, config, count).0, name) == GetOrZero(failures, name) + count
    ensures BreakerOpen(FailureRun(failures, breaker, name, config, count).1, name) <==>
              BreakerOpen(breaker, name) || (count >= 1 && GetOrZero(failures, name) + count >= config.circuitBreakerThreshold)
  {
    if count > 0 {
      FailureRunOpensAtThreshold(failures, breaker, name, config, count - 1);
    }
  }

  /**
   * From a zero failure count, `circuit_breaker_threshold` failures (at least one) open the breaker
   * and no later selection can return a service of that name.
   */
  lemma TrippedServiceNotAvailable(services: seq<ServiceInfo>, failures: map<string, int>, breaker: map<string, bool>,
                                   name: string, config: LoadBalancingConfig)
    requires config.circuitBreakerEnabled && config.circuitBreakerThreshold >= 1
    requires GetOrZero(failures, name) == 0
    ensures var after := FailureRun(failures, breaker, name, config, config.circuitBreakerThreshold);
            forall s :: s in Available(services, after.1) ==> s.name != name
  {
    FailureRunOpensAtThreshold(failures, breaker, name, config, config.circuitBreakerThreshold);
  }

  class LoadBalancer {
    const config: LoadBalancingConfig
    var services: seq<ServiceInfo>
    var currentIndex: nat
    var connectionCounts: map<string, int>
    var circuitBreakerStates: map<string, bool>
    var failureCounts: map<string, int>

    /** Counters never go below zero. */
    ghost predicate Valid()
      reads this
    {
      && (forall n :: n in connectionCounts ==> connectionCounts[n] >= 0)
      && (forall n :: n in failureCounts ==> failureCounts[n] >= 0)
    }

    /** The three per-name maps hold exactly the listed names. */
    ghost predicate Aligned()
      reads this
    {
      && connectionCounts.Keys == Names(services)
      && circuitBreakerStates.Keys == Names(services)
      && failureCounts.Keys == Names(services)
    }

    constructor (config: LoadBalancingConfig)
      ensures Valid() && Aligned()
      ensures this.config == config && services == [] && currentIndex == 0
      ensures connectionCounts == map[] && circuitBreakerStates == map[] && failureCounts == map[]
    {
      this.config := config;
      services := [];
      currentIndex := 0;
      connectionCounts := map[];
      circuitBreakerStates := map[];
      failureCounts := map[];
    }

    /** `add_service`: append (even if the name is already listed) and reset the three entries. */
    method AddService(service: ServiceInfo)
      requires Valid()
      modifies this`services, this`connectionCounts, this`circuitBreakerStates, this`failureCounts
      ensures Valid()
      ensures services == old(services) + [service]
      ensures connectionCounts == old(connectionCounts)[service.name := 0]
      ensures circuitBreakerStates == old(circuitBreakerStates)[service.name := false]
      ensures failureCounts == old(failureCounts)[service.name := 0]
      ensures old(Aligned()) ==> Aligned()
    {
      services := services + [service];
      connectionCounts := connectionCounts[service.name := 0];
      circuitBreakerStates := circuitBreakerStates[service.name := false];
      failureCounts := failureCounts[service.name := 0];
      assert Names(services) == Names(old(services)) + {service.name};
    }

    /** `remove_service`: drop every listed entry with that name and its three map entries. */
    method RemoveService(name: string)
      requires Valid()
      modifies this`services, this`connectionCounts, this`circuitBreakerStates, this`failureCounts
      ensures Valid()
      ensures services == WithoutName(old(services), name)
      ensures connectionCounts == old(connectionCounts) - {name}
      ensures circuitBreakerStates == old(circuitBreakerStates) - {name}
      ensures failureCounts == old(failureCounts) - {name}
      ensures old(Aligned()) ==> Aligned()
    {
      services := WithoutName(services, name);
      connectionCounts := connectionCounts - {name};
      circuitBreakerStates := circuitBreakerStates - {name};
      failureCounts := failureCounts - {name};
      assert Names(services) == Names(old(services)) - {name};
    }

    /**
     * `get_next_service`. `pick` stands for the draw of `random.choice`. Only a round-robin
     * selection moves the cursor, by exactly one.
     */
    method GetNextService(pick: nat) returns (r: Option<ServiceInfo>)
      modifies this`currentIndex
      ensures var avail := Available(services, circuitBreakerStates);
        && (r.None? <==> avail == [])
        && (r.Some? ==> r.value in services && !BreakerOpen(circuitBreakerStates, r.value.name))
        && (avail != [] && config.strategy == RoundRobin ==>
              r == Some(avail[old(currentIndex) % |avail|]) && currentIndex == old(currentIndex) + 1)
        && (!(avail != [] && config.strategy == RoundRobin) ==> currentIndex == old(currentIndex))
        && (avail != [] && config.strategy == RandomChoice ==> r == Some(avail[pick % |avail|]))
        && (avail != [] && config.strategy == LeastConnections ==>
              r == Some(avail[LeastLoaded(avail, connectionCounts)]))
        && (avail != [] && config.strategy !in {RoundRobin, RandomChoice, LeastConnections} ==> r == Some(avail[0]))
    {
      var avail := Available(services, circuitBreakerStates);
      if avail == [] {
        return None;
      }
      if config.strategy == RoundRobin {
        r := Some(avail[currentIndex % |avail|]);
        currentIndex := currentIndex + 1;
      } else if config.strategy == RandomChoice {
        r := Some(avail[pick % |avail|]);
      } else if config.strategy == LeastConnections {
        r := Some(avail[LeastLoaded(avail, connectionCounts)]);
      } else {
        r := Some(avail[0]);
      }
    }

    /**
     * A full round-robin cycle over an unchanged list: as many selections as there are
     * available services return each of them exactly once.
     */
    method SelectRound() returns (picked: seq<ServiceInfo>)
      requires config.strategy == RoundRobin
      modifies this`currentIndex
      ensures multiset(picked) == multiset(Available(services, circuitBreakerStates))
      ensures currentIndex == old(currentIndex) + |picked|
    {
      var avail := Available(services, circuitBreakerStates);
      picked := [];
      if avail == [] {
        return;
      }
      ghost var start := currentIndex;
      while |picked| < |avail|
        invariant |picked| <= |avail|
        invariant currentIndex == start + |picked|
        invariant picked == RoundRobinRun(avail, start, |picked|)
      {
        var s := GetNextService(0);
        picked := picked + [s.value];
      }
      RoundRobinFair(avail, start);
    }

    /** `increment_connection`: only names that already have a counter. */
    method IncrementConnection(name: string)
      requires Valid()
      modifies this`connectionCounts
      ensures Valid()
      ensures name in old(connectionCounts) ==> connectionCounts == old(connectionCounts)[name := old(connectionCounts)[name] + 1]
      ensures name !in old(connectionCounts) ==> connectionCounts == old(connectionCounts)
    {
      if name in connectionCounts {
        connectionCounts := connectionCounts[name := connectionCounts[name] + 1];
      }
    }

    /** `decrement_connection`: only names that already have a counter, floored at zero. */
    method DecrementConnection(name: string)
      requires Valid()
      modifies this`connectionCounts
      ensures Valid()
      ensures name in old(connectionCounts) ==>
                connectionCounts == old(connectionCounts)[name := if old(connectionCounts)[name] > 0 then old(connectionCounts)[name] - 1 else 0]
      ensures name !in old(connectionCounts) ==> connectionCounts == old(connectionCounts)
    {
      if name in connectionCounts {
        var c := connectionCounts[name] - 1;
        connectionCounts := connectionCounts[name := if 0 > c then 0 else c];
      }
    }

    /**
     * `record_failure`. The name need not have been added: the counter is then created, so the
     * maps stay aligned only for listed names.
     */
    method RecordFailure(name: string)
      requires Valid()
      modifies this`failureCounts, this`circuitBreakerStates
      ensures Valid()
      ensures (failureCounts, circuitBreakerStates) == AfterFailure(old(failureCounts), old(circuitBreakerStates), name, config)
      ensures old(Aligned()) && (name in Names(services) || !config.circuitBreakerEnabled) ==> Aligned()
    {
      if !config.circuitBreakerEnabled {
        return;
      }
      failureCounts := failureCounts[name := GetOrZero(failureCounts, name) + 1];
      if failureCounts[name] >= config.circuitBreakerThreshold {
        circuitBreakerStates := circuitBreakerStates[name := true];
      }
    }

    /**
     * `record_success`: an immediate reset; the breaker closes at once. For a name that was never
     * added this creates entries and breaks the alignment of the maps.
     */
    method RecordSuccess(name: string)
      requires Valid()
      modifies this`failureCounts, this`circuitBreakerStates
      ensures Valid()
      ensures failureCounts == old(failureCounts)[name := 0]
      ensures circuitBreakerStates == old(circuitBreakerStates)[name := false]
      ensures forall s :: s in services && s.name == name ==> s in Available(services, circuitBreakerStates)
      ensures old(Aligned()) && name in Names(services) ==> Aligned()
      ensures name !in Names(services) ==> !Aligned()
    {
      failureCounts := failureCounts[name := 0];
      circuitBreakerStates := circuitBreakerStates[name := false];
    }
  }

  // ---------------------------------------------------------------------------------------
  // Proxy configuration generators

  datatype SocketAddress = SocketAddress(address: string, portValue: int)
  datatype LocalityEndpoints = LocalityEndpoints(lbEndpoints: seq<SocketAddress>)
  datatype LoadAssignment = LoadAssignment(clusterName: string, endpoints: seq<LocalityEndpoints>)
  datatype EnvoyHealthCheck = EnvoyHealthCheck(timeout: string, interval: string, path: string)
  datatype Cluster = Cluster(
    name: string,
    connectTimeout: string,
    clusterType: string,
    lbPolicy: string,
    loadAssignment: LoadAssignment,
    healthChecks: Option<seq<EnvoyHealthCheck>>)
  /** `{"static_resources": {"clusters": [...]}}` */
  datatype EnvoyConfig = EnvoyConfig(clusters: seq<Cluster>)

  /** `_get_envoy_lb_policy` */
  function EnvoyLbPolicy(strategy: string): (policy: string)
    ensures policy == "LEAST_REQUEST" <==> strategy == LeastConnections
    ensures policy == "RANDOM" <==> strategy == RandomChoice
    ensures policy == "ROUND_ROBIN" <==> strategy != LeastConnections && strategy != RandomChoice
  {
    if strategy == LeastConnections then "LEAST_REQUEST"
    else if strategy == RandomChoice then "RANDOM"
    else "ROUND_ROBIN"
  }

  /** Both generators emit a health check iff checks are enabled and the service has a path. */
  predicate WantsHealthCheck(s: ServiceInfo, config: LoadBalancingConfig) {
    config.healthCheckEnabled && s.healthCheckUrl != ""
  }

  /** `f"{interval}s"` */
  function IntervalText(seconds: int): string {
    IntToString(seconds) + "s"
  }

  /** What the Envoy cluster generated for service `s` says. */
  ghost predicate DescribesCluster(c: Cluster, s: ServiceInfo, config: LoadBalancingConfig) {
    && c.name == s.name
    && c.connectTimeout == "0.25s" && c.clusterType == "STRICT_DNS"
    && c.lbPolicy == EnvoyLbPolicy(config.strategy)
    && c.loadAssignment == LoadAssignment(s.name, [LocalityEndpoints([SocketAddress(s.host, s.port)])])
    && (c.healthChecks.Some? <==> WantsHealthCheck(s, config))
    && (c.healthChecks.Some? ==>
          c.healthChecks.value == [EnvoyHealthCheck("1s", IntervalText(config.healthCheckInterval), s.healthCheckUrl)])
  }

  class EnvoyConfigGenerator {
    const loadBalancer: LoadBalancer

    constructor (loadBalancer: LoadBalancer)
      ensures this.loadBalancer == loadBalancer
    {
      this.loadBalancer := loadBalancer;
    }

    /** `generate_config`: one cluster per listed service, in list order. */
    method GenerateConfig() returns (cfg: EnvoyConfig)
      ensures |cfg.clusters| == |loadBalancer.services|
      ensures forall i :: 0 <= i < |cfg.clusters| ==>
                DescribesCluster(cfg.clusters[i], loadBalancer.services[i], loadBalancer.config)
    {
      var services := loadBalancer.services;
      var config := loadBalancer.config;
      var clusters: seq<Cluster> := [];
      for i := 0 to |services|
        invariant |clusters| == i
        invariant forall k :: 0 <= k < i ==> DescribesCluster(clusters[k], services[k], config)
      {
        var service := services[i];
        var healthChecks := None;
        if config.healthCheckEnabled && service.healthCheckUrl != "" {
          healthChecks := Some([EnvoyHealthCheck("1s", IntervalText(config.healthCheckInterval), service.healthCheckUrl)]);
        }
        var cluster := Cluster(
          service.name, "0.25s", "STRICT_DNS", EnvoyLbPolicy(config.strategy),
          LoadAssignment(service.name, [LocalityEndpoints([SocketAddress(service.host, service.port)])]),
          healthChecks);
        clusters := clusters + [cluster];
      }
      cfg := EnvoyConfig(clusters);
    }
  }

  datatype TraefikHealthCheck = TraefikHealthCheck(path: string, interval: string)
  /** `{"loadBalancer": {"servers": [{"url": ...}], "healthCheck"?: {...}}}` */
  datatype TraefikService = TraefikService(serverUrls: seq<string>, healthCheck: Option<TraefikHealthCheck>)
  /** `{"http": {"services": {...}}}` */
  datatype TraefikConfig = TraefikConfig(services: map<string, TraefikService>)

  /** What the Traefik service entry generated for `s` says. */
  ghost predicate DescribesTraefikService(t: TraefikService, s: ServiceInfo, config: LoadBalancingConfig) {
    && t.serverUrls == [HostPortUrl(s.host, s.port)]
    && (t.healthCheck.Some? <==> WantsHealthCheck(s, config))
    && (t.healthCheck.Some? ==>
          t.healthCheck.value == TraefikHealthCheck(s.healthCheckUrl, IntervalText(config.healthCheckInterval)))
  }

  /** No entry of the list after `i` and before `bound` has the same name as entry `i`. */
  ghost predicate LastOfName(services: seq<ServiceInfo>, i: int, bound: int)
    requires 0 <= i < bound <= |services|
  {
    forall j :: i < j < bound ==> services[j].name != services[i].name
  }

  /** The first `i` services have been entered into the Traefik services dict. */
  ghost predicate TraefikPrefixDone(entries: map<string, TraefikService>, services: seq<ServiceInfo>,
                                    config: LoadBalancingConfig, i: int)
    requires 0 <= i <= |services|
  {
    && entries.Keys == Names(services[..i])
    && forall k :: 0 <= k < i && LastOfName(services, k, i) ==>
         DescribesTraefikService(entries[services[k].name], services[k], config)
  }

  lemma TraefikStep(entries: map<string, TraefikService>, services: seq<ServiceInfo>,
                    config: LoadBalancingConfig, i: int, entry: TraefikService)
    requires 0 <= i < |services|
    requires TraefikPrefixDone(entries, services, config, i)
    requires DescribesTraefikService(entry, services[i], config)
    ensures TraefikPrefixDone(entries[services[i].name := entry], services, config, i + 1)
  {
    var next := entries[services[i].name := entry];
    assert services[..i + 1] == services[..i] + [services[i]];
    NamesSnoc(services[..i], services[i]);
    assert next.Keys == Names(services[..i + 1]);
    TraefikStepEntries(entries, services, config, i, entry);
  }

  lemma TraefikStepEntries(entries: map<string, TraefikService>, services: seq<ServiceInfo>,
                           config: LoadBalancingConfig, i: int, entry: TraefikService)
    requires 0 <= i < |services|
    requires entries.Keys == Names(services[..i])
    requires forall k :: 0 <= k < i && LastOfName(services, k, i) ==>
               DescribesTraefikService(entries[services[k].name], services[k], config)
    requires DescribesTraefikService(entry, services[i], config)
    ensures forall k :: 0 <= k < i + 1 && LastOfName(services, k, i + 1) ==>
              services[k].name in entries[services[i].name := entry] &&
              DescribesTraefikService(entries[services[i].name := entry][services[k].name], services[k], config)
  {
    var next := entries[services[i].name := entry];
    forall k | 0 <= k < i + 1 && LastOfName(services, k, i + 1)
      ensures services[k].name in next && DescribesTraefikService(next[services[k].name], services[k], config)
    {
      if k < i {
        assert services[k].name != services[i].name;
        assert LastOfName(services, k, i);
        assert services[k] in services[..i];
      }
    }
  }

  lemma NamesSnoc(s: seq<ServiceInfo>, x: ServiceInfo)
    ensures Names(s + [x]) == Names(s) + {x.name}
  {
    forall n | n in Names(s) ensures n in Names(s + [x]) {
      var t :| t in s && t.name == n;
      assert t in s + [x];
    }
    assert x in s + [x];
  }

  class TraefikConfigGenerator {
    const loadBalancer: LoadBalancer

    constructor (loadBalancer: LoadBalancer)
      ensures this.loadBalancer == loadBalancer
    {
      this.loadBalancer := loadBalancer;
    }

    /**
     * `generate_config`: one entry per listed name; when a name is listed twice the later
     * entry overwrites the earlier one.
     */
    method GenerateConfig() returns (cfg: TraefikConfig)
      ensures cfg.services.Keys == Names(loadBalancer.services)
      ensures forall i :: 0 <= i < |loadBalancer.services| && LastOfName(loadBalancer.services, i, |loadBalancer.services|) ==>
                DescribesTraefikService(cfg.services[loadBalancer.services[i].name], loadBalancer.services[i], loadBalancer.config)
    {
      var services := loadBalancer.services;
      var config := loadBalancer.config;
      var entries: map<string, TraefikService> := map[];
      for i := 0 to |services|
        invariant TraefikPrefixDone(entries, services, config, i)
      {
        var service := services[i];
        var healthCheck := None;
        if config.healthCheckEnabled && service.healthCheckUrl != "" {
          healthCheck := Some(TraefikHealthCheck(service.healthCheckUrl, IntervalText(config.healthCheckInterval)));
        }
        var entry := TraefikService([HostPortUrl(service.host, service.port)], healthCheck);
        TraefikStep(entries, services, config, i, entry);
        entries := entries[service.name := entry];
      }
      assert services[..|services|] == services;
      cfg := TraefikConfig(entries);
    }
  }
}
