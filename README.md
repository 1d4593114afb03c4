# Microservice control plane, modelled in Dafny

This project models the in-memory control plane of the ElizaOS-OpenCog-GnuCash service mesh
(`src/microservices/`) and proves properties of it. The model covers:

- **Service registry and discovery** (`service_discovery.dfy`, module `Discovery`). The registry is
  a name → `ServiceInfo` map kept in insertion order. It supports register (upsert, heartbeat
  stamped), unregister, get, list, heartbeat refresh, and one step of the staleness sweep. The
  discovery client is a read-through cache with a strict TTL that never caches a miss, plus a
  by-type filter that bypasses the cache.
- **Load balancer and proxy configuration** (`load_balancer.dfy`, module `Balancing`). It holds the
  service list, the per-name connection, breaker and failure maps, and the shared round-robin
  cursor. Selection is round-robin, random (the draw is an input), least-connections or the
  first-available fallback. There is a circuit breaker with immediate reset, and the Envoy and
  Traefik generators build nested records from the service list.
- **Health monitoring and orchestration** (`orchestration.dfy`, module `Orchestration`). A health
  record is a state machine over UNKNOWN, HEALTHY and UNHEALTHY. A probe's HTTP result is an
  input. Every health-change notification is recorded as an appended snapshot. The orchestrator
  keeps deploy/undeploy bookkeeping across the registry, the monitor, the deployment tasks and
  the restart counters. It also has the scale gate, the restart-attempt cap, and the health-change
  callback.
- **GGML optimizer and hypergraph mesh encoder** (`ggml_optimization.dfy`, module
  `GgmlOptimization`). This covers the thread, batch and quantization configuration records and
  the bounded (last 100) metric histories. It also covers the optimization status, node and
  hyperedge insertion with the connection-list updates, and the topology buckets.
- **Shared pieces** (`base.dfy`, module `Base`): an `Option` type and the decimal rendering of
  integers used inside URLs and interval strings.

Time is an integer tick `now` passed to every operation that reads the clock. A probe's response
time is an opaque integer that arrives with the probe outcome. Edge weights, metric values and
compression ratios are `real` values that are stored but never computed with.

The main results are:

- **The failure counter is zero unless the record is UNHEALTHY.** This holds for every health
  record, after any sequence of probes. Hence every UNHEALTHY notification carries exactly one
  failure.
- **The restart path is dead code when probes of one service do not interleave.**
  `ServiceOrchestrator._handle_health_change` restarts only when a notification carries at
  least three failures. Over any sequence of one service's probes applied one after another, no
  notification does (`NotificationsNeverRestart`, and the `ensures` of `ProbeService`).
  Concurrent probe tasks that share one record are not covered (see "## Left out").
- **Round-robin is fair.** Over a fixed available list, N selections return each of the N
  available services exactly once.
- **The circuit breaker and the restart cap are exact.** The breaker opens exactly at the
  threshold, and a tripped service is never selected. After a deploy, exactly
  `max_restart_attempts` restarts succeed.
- **The registry and the cache behave exactly as written.** The sweep evicts exactly the stale
  entries (strict comparison) and keeps the rest in order. The cache answers only entries
  strictly younger than the TTL and never stores a miss.
- **Metric histories stay bounded.** A history never exceeds 100 values, and each measurement
  becomes the newest of the last 100.
- **Hyperedges and topology buckets are exact.** Every spanned node gains the edge id once per
  occurrence in the span, and each node lands in at most one topology bucket.

`ServiceInfo` is an immutable value here. In the Python code the registry, the discovery cache,
the load balancer and the health monitor share one mutable object: a heartbeat stamped through
the registry is visible through a cache hit or in the monitor's list. In the model, each holder
keeps the copy it was given, so a cached record keeps the heartbeat it had when it was cached.

## Model

| member | source | states |
|---|---|---|
| Base.IntToString | src/microservices/load_balancer.py:148 | The rendering of an `int` in an f-string: non-empty, with a leading minus sign exactly for negative numbers. |
| Base.IntToStringValue | src/microservices/load_balancer.py:148 | The rendering spells the number: without a sign it is the value, and after a minus sign it is the magnitude. |
| Base.NatToStringValue | src/microservices/load_balancer.py:148 | Round trip: the decimal digits produced for n spell n back. |
| Discovery.NewServiceInfo | src/microservices/service_discovery.py:25-29 | Construction keeps name, host, port and health path. Absent metadata becomes the empty map, and a heartbeat of 0 becomes the creation time. |
| Discovery.HostPortUrl | src/microservices/load_balancer.py:186 | `http://`, then the host, then `:`, then the port's decimal rendering. |
| Discovery.Evict | src/microservices/service_discovery.py:94-99 | A name survives a sweep iff its record is not stale (`now - last_heartbeat > timeout`, strict). Survivors are unchanged. |
| Discovery.Restrict | src/microservices/service_discovery.py:98-99 | The dict's key order after deletions keeps exactly the remaining keys, without repeats and no longer than before. |
| Discovery.RestrictAppend | src/microservices/service_discovery.py:98-99 | The remaining keys keep their old relative order: restricting a concatenation restricts each part. |
| Discovery.ValuesInOrder | src/microservices/service_discovery.py:77 | The values listed one per key, in key order. |
| Discovery.OfType | src/microservices/service_discovery.py:136-139 | Keeps exactly the services whose metadata `type` equals the argument. |
| Discovery.OfTypeAppend | src/microservices/service_discovery.py:136-139 | The type filter keeps relative order: it distributes over concatenation. |
| Discovery.WithoutName | src/microservices/load_balancer.py:56 | The comprehension keeps exactly the services with a different name. |
| Discovery.WithoutNameAppend | src/microservices/load_balancer.py:56 | The comprehension keeps order and repeated entries: filtering a concatenation filters each part. |
| Discovery.ServiceRegistry.constructor | src/microservices/service_discovery.py:35-40 | An empty registry with the given cleanup interval and timeout. |
| Discovery.ServiceRegistry.Register | src/microservices/service_discovery.py:58-62 | Always succeeds. The name maps to the record with heartbeat `now`, every other entry is unchanged, and a new name goes last in key order. |
| Discovery.ServiceRegistry.Unregister | src/microservices/service_discovery.py:64-69 | Returns true iff the name was present. Afterwards the name is absent, the other entries are unchanged, and the key order loses only that name. |
| Discovery.ServiceRegistry.Get | src/microservices/service_discovery.py:71-73 | Some exactly for registered names, and then the record stored under that name. |
| Discovery.ServiceRegistry.List | src/microservices/service_discovery.py:75-77 | Every registered record exactly once, in registration order. |
| Discovery.ServiceRegistry.Heartbeat | src/microservices/service_discovery.py:79-84 | Returns true iff the name is registered. It changes only that record's heartbeat; for an absent name the map is untouched. |
| Discovery.ServiceRegistry.Sweep | src/microservices/service_discovery.py:91-99 | One sweep removes exactly the stale entries, keeps every other entry unchanged, and keeps the survivors' order. |
| Discovery.ServiceDiscovery.constructor | src/microservices/service_discovery.py:111-114 | A client over the given registry, with the given TTL and an empty cache. |
| Discovery.ServiceDiscovery.DiscoverService | src/microservices/service_discovery.py:116-131 | An entry strictly younger than the TTL is returned with the cache unchanged. Otherwise the result is exactly the registry's answer, cached as `(info, now)` only when found. A not-found leaves the cache unchanged. |
| Discovery.ServiceDiscovery.DiscoverServicesByType | src/microservices/service_discovery.py:133-139 | Exactly the registered records of that type, read from the registry's list and not from the cache. |
| Discovery.ServiceDiscovery.ClearCache | src/microservices/service_discovery.py:141-143 | The cache is empty afterwards. |
| Balancing.Available | src/microservices/load_balancer.py:63-66 | Keeps exactly the listed services whose breaker is not open; a missing breaker entry counts as closed. |
| Balancing.AvailableAppend | src/microservices/load_balancer.py:63-66 | The available list keeps the service list's order and repeated entries: filtering a concatenation filters each part. |
| Balancing.LeastLoaded | src/microservices/load_balancer.py:79-81 | The chosen position has the least connection count (missing = 0), and it is the first such position in list order. |
| Balancing.RoundRobinRun | src/microservices/load_balancer.py:71-73 | The k-th of consecutive round-robin selections is `available[(cursor + k) mod n]`. |
| Balancing.RoundRobinIsRotation | src/microservices/load_balancer.py:71-73 | n consecutive selections over n available services visit the list rotated to the cursor. |
| Balancing.RoundRobinFair | src/microservices/load_balancer.py:71-73 | n consecutive selections return each of the n available services exactly once (as a multiset). |
| Balancing.AfterFailure | src/microservices/load_balancer.py:96-104 | With the breaker disabled nothing changes. Otherwise the failure count goes up by 1, and the breaker is open afterwards iff it already was or the new count reaches the threshold. Other names are untouched. |
| Balancing.FailureRunOpensAtThreshold | src/microservices/load_balancer.py:96-104 | `count` failures add exactly `count`, and the breaker ends open iff it was already open or the count reached the threshold. |
| Balancing.TrippedServiceNotAvailable | src/microservices/load_balancer.py:96-104 | From zero, threshold-many failures take that name out of every later selection. |
| Balancing.LoadBalancer.constructor | src/microservices/load_balancer.py:39-45 | An empty balancer, with the cursor at 0 and the three maps empty and aligned. |
| Balancing.LoadBalancer.AddService | src/microservices/load_balancer.py:47-52 | Appends the service, even a duplicate name, and resets its connections to 0, breaker to closed and failures to 0. Keeps the three maps aligned with the list. |
| Balancing.LoadBalancer.RemoveService | src/microservices/load_balancer.py:54-59 | Drops every list entry with the name and its three keys, and leaves the other names untouched. Keeps the maps aligned. |
| Balancing.LoadBalancer.GetNextService | src/microservices/load_balancer.py:61-83 | None iff no service is available, and a returned service is available. Round-robin returns `available[cursor mod n]` and advances the cursor by exactly 1; no other path moves it. Random returns the drawn available service, least-connections returns the first least-loaded one, and an unknown strategy returns `available[0]`. |
| Balancing.LoadBalancer.SelectRound | src/microservices/load_balancer.py:71-74 | As many round-robin calls as there are available services return each of them exactly once, and the cursor advances by that many. |
| Balancing.LoadBalancer.IncrementConnection | src/microservices/load_balancer.py:85-88 | Adds 1 only for a name that has a counter; otherwise nothing changes. |
| Balancing.LoadBalancer.DecrementConnection | src/microservices/load_balancer.py:90-94 | Subtracts 1, floored at 0, only for a name that has a counter; counts never go negative. |
| Balancing.LoadBalancer.RecordFailure | src/microservices/load_balancer.py:96-104 | The new counters and breakers are exactly `AfterFailure`. For a name that was never added, this creates entries. |
| Balancing.LoadBalancer.RecordSuccess | src/microservices/load_balancer.py:106-109 | Failures go to 0 and the breaker closes, so every listed service of that name is available at the next selection. For a name never added, the maps stop being aligned. |
| Balancing.EnvoyLbPolicy | src/microservices/load_balancer.py:162-169 | `least_connections` maps to LEAST_REQUEST and `random` to RANDOM. Every other strategy maps to ROUND_ROBIN. |
| Balancing.EnvoyConfigGenerator.constructor | src/microservices/load_balancer.py:115-116 | The generator reads the given balancer. |
| Balancing.EnvoyConfigGenerator.GenerateConfig | src/microservices/load_balancer.py:118-160 | One cluster per listed service, in order. Each is named after its service, with the fixed timeout and type, the mapped policy and its socket address. Health checks are present iff checks are enabled and the service has a health path. |
| Balancing.TraefikConfigGenerator.constructor | src/microservices/load_balancer.py:175-176 | The generator reads the given balancer. |
| Balancing.TraefikConfigGenerator.GenerateConfig | src/microservices/load_balancer.py:178-203 | One entry per listed name; for a repeated name, the last listing wins. Each entry has the service's `http://host:port` server and a health check iff checks are enabled and the service has a health path. |
| Orchestration.ProbeUrlParts | src/microservices/orchestration.py:107-110 | `http://`, the host, `:`, the port's decimal rendering, then the service's health path, or `/health` when it has none. |
| Orchestration.ErrorText | src/microservices/orchestration.py:126-130 | A failed probe's error is `HTTP <code>` for a non-200 response, or the exception's text. |
| Orchestration.ApplyProbe | src/microservices/orchestration.py:117-143 | A 200 makes the record HEALTHY, with the response time kept, no error and 0 failures. Anything else makes it UNHEALTHY, with the error text and one more failure. |
| Orchestration.ProbeKeepsInvariant | src/microservices/orchestration.py:117-143 | One probe keeps "failures are 0 unless UNHEALTHY". Whatever it notifies is HEALTHY with 0 failures, or UNHEALTHY with exactly 1. |
| Orchestration.ProbeRunKeepsInvariant | src/microservices/orchestration.py:93-143 | Over any sequence of probes the invariant holds, and every notification is HEALTHY with 0 failures or UNHEALTHY with exactly 1. |
| Orchestration.SuccessfulProbesNotifyOnce | src/microservices/orchestration.py:117-125 | Repeated successful probes notify at most once: on the first one, and only if the record was not HEALTHY. |
| Orchestration.NotificationsNeverRestart | src/microservices/orchestration.py:275-281 | No notification from any probe history of a monitored service satisfies the restart condition (UNHEALTHY with at least 3 failures). |
| Orchestration.RestartStep | src/microservices/orchestration.py:260-273 | A restart succeeds iff auto-restart is on and the attempts are below the cap. On success the counter goes up by exactly 1; otherwise nothing changes. |
| Orchestration.RestartRunCapped | src/microservices/orchestration.py:260-273 | Call i of consecutive restarts succeeds iff auto-restart is on and attempts + i is below the cap. |
| Orchestration.RestartCapAfterDeploy | src/microservices/orchestration.py:260-273 | After the counter is reset to 0, exactly `max_restart_attempts` restarts succeed and the next one fails. |
| Orchestration.HealthMonitor.constructor | src/microservices/orchestration.py:51-57 | No services, no records and no notifications. |
| Orchestration.HealthMonitor.AddService | src/microservices/orchestration.py:75-82 | Appends the service and (re)sets its record to UNKNOWN, with check time 0 and 0 failures. |
| Orchestration.HealthMonitor.RemoveService | src/microservices/orchestration.py:84-87 | Drops every listed entry with the name, and its record. |
| Orchestration.HealthMonitor.CheckServiceHealth | src/microservices/orchestration.py:93-155 | Probes the `ProbeUrl`, creating an UNKNOWN record first if needed. The record becomes `ApplyProbe` stamped with `now`, and the pre-stamp snapshot is notified iff the status changed. Keeps the counter invariant and the notification shape. |
| Orchestration.HealthMonitor.GetServiceHealth | src/microservices/orchestration.py:177-179 | Some exactly for monitored names; a returned record satisfies the counter invariant. |
| Orchestration.HealthyNames | src/microservices/orchestration.py:287-290 | Exactly the names whose record is HEALTHY. |
| Orchestration.ServiceOrchestrator.constructor | src/microservices/orchestration.py:189-194 | A fresh, empty monitor, no deployment tasks and no restart counters. |
| Orchestration.ServiceOrchestrator.DeployService | src/microservices/orchestration.py:212-227 | Registers the service with heartbeat `now`; a new name goes last in the registry's key order and a known name keeps its place. Monitors it as UNKNOWN, sets its restart counter to 0, and returns true. |
| Orchestration.ServiceOrchestrator.UndeployService | src/microservices/orchestration.py:229-249 | Removes the name from the monitor, the registry, the deployment tasks and the restart counters; the registry's key order loses only that name and keeps the others in order. Returns true even for a name never deployed. |
| Orchestration.ServiceOrchestrator.ScaleService | src/microservices/orchestration.py:251-258 | Returns false iff scaling is disabled. |
| Orchestration.ServiceOrchestrator.RestartService | src/microservices/orchestration.py:260-273 | The answer and the new counters are exactly `RestartStep`. |
| Orchestration.ServiceOrchestrator.HandleHealthChange | src/microservices/orchestration.py:275-281 | Restarts (via `RestartStep`) only for an UNHEALTHY record with at least 3 failures while auto-restart is on. Otherwise nothing changes. |
| Orchestration.ServiceOrchestrator.ProbeService | src/microservices/orchestration.py:145-155 | The returned record is the probe applied to the stored record (UNKNOWN if none) and stamped `now`, and it replaces the stored one. The record before stamping is appended to the notifications exactly when the status changed. The orchestrator's callback handles that notification and never changes the restart counters. |
| Orchestration.ServiceOrchestrator.GetDeploymentStatus | src/microservices/orchestration.py:283-293 | The number of monitored list entries and the number of HEALTHY records (at most the number of records), plus the task names and the restart counters. |
| GgmlOptimization.ThreadConfigFor | src/microservices/ggml_optimization.py:146-152 | Worker threads equal the thread count and there is 1 cache thread. I/O threads are at least 2, and at least half the thread count (floor). |
| GgmlOptimization.BatchConfigFor | src/microservices/ggml_optimization.py:154-161 | The batch size is kept, the queue holds four batches, the timeout is 100 ms and batching is adaptive. |
| GgmlOptimization.QuantizationFor | src/microservices/ggml_optimization.py:163-173 | Off iff quantization is disabled. Otherwise the method is `dynamic` iff the level is EXTREME, and the ratio is 0.5 for `int8` and 0.7 otherwise. |
| GgmlOptimization.Remember | src/microservices/ggml_optimization.py:186-188 | Appending to a history keeps its last 100 values: the new value is last, and older values are dropped only beyond 100. |
| GgmlOptimization.Measured | src/microservices/ggml_optimization.py:184-188 | Taking in measurements never adds or removes a metric key. |
| GgmlOptimization.MeasuredBounded | src/microservices/ggml_optimization.py:184-188 | Histories of at most 100 values stay at most 100. |
| GgmlOptimization.MeasuredRaisesIff | src/microservices/ggml_optimization.py:184-186 | The `append` on the float raises iff some measurement is named `optimization_effectiveness`. |
| GgmlOptimization.MeasuredIgnores | src/microservices/ggml_optimization.py:184-186 | A history that no measurement names is unchanged. |
| GgmlOptimization.MeasuredRecordsEach | src/microservices/ggml_optimization.py:184-188 | For distinct names without the effectiveness key, each known metric's history becomes exactly its old history plus the new value, trimmed to 100. |
| GgmlOptimization.RecentWindow | src/microservices/ggml_optimization.py:230-231 | None iff the history is empty; otherwise the last min(5, n) values. |
| GgmlOptimization.GgmlServiceOptimizer.constructor | src/microservices/ggml_optimization.py:62-66 | No optimized services and no metrics. |
| GgmlOptimization.GgmlServiceOptimizer.OptimizeService | src/microservices/ggml_optimization.py:68-98 | Stores the thread, batch and quantization configuration for the service and starts four empty histories. Returns true. |
| GgmlOptimization.GgmlServiceOptimizer.MeasurePerformance | src/microservices/ggml_optimization.py:175-191 | An unknown service is left alone. Otherwise the histories become exactly `Measured`, and `raised` reports the effectiveness-key exception. Histories stay within 100 values. |
| GgmlOptimization.GgmlServiceOptimizer.GetOptimizationStatus | src/microservices/ggml_optimization.py:219-234 | None iff the service was never optimized. Otherwise it holds the stored configuration, the latency and throughput windows of the last 5 values, and the stored effectiveness. |
| GgmlOptimization.EdgeNodeIds | src/microservices/ggml_optimization.py:270 | The span is `service_<from>`, then `service_<s>` for each target, in order. |
| GgmlOptimization.Classify | src/microservices/ggml_optimization.py:354-364 | A node is isolated iff it has no connections. It is a star iff its count exceeds 0.8·n, a chain iff the count is 2 otherwise, and a mesh iff the count exceeds 3 otherwise. |
| GgmlOptimization.ConnectStep | src/microservices/ggml_optimization.py:286-288 | Appending the edge id to one more spanned node (if present) extends the per-occurrence connection update by that node. |
| GgmlOptimization.InBucketMembers | src/microservices/ggml_optimization.py:354-364 | A bucket lists exactly the nodes that classify into it. |
| GgmlOptimization.BucketsDisjoint | src/microservices/ggml_optimization.py:354-364 | No node is listed in two buckets. |
| GgmlOptimization.HypergraphMeshEncoder.constructor | src/microservices/ggml_optimization.py:240-243 | No nodes and no edges. |
| GgmlOptimization.HypergraphMeshEncoder.AddServiceNode | src/microservices/ggml_optimization.py:245-262 | Stores the node under `service_<name>` with no connections, replacing any earlier node with that id in place, and returns the id. |
| GgmlOptimization.HypergraphMeshEncoder.AddDependencyEdge | src/microservices/ggml_optimization.py:264-290 | Returns `edge_<from>_to_<targets joined by _>`. Stores the edge over the span with the given type and weight. Every existing node gains the edge id once per occurrence in the span; absent ids are skipped and other nodes are unchanged. |
| GgmlOptimization.HypergraphMeshEncoder.Connect | src/microservices/ggml_optimization.py:285-288 | The connection loop: exactly the per-occurrence update, with the node set unchanged. |
| GgmlOptimization.HypergraphMeshEncoder.DetectTopologyPatterns | src/microservices/ggml_optimization.py:345-366 | Each bucket lists, in node order, exactly the nodes that classify into it; isolated nodes are exactly those with no connections. |

## Left out

- The asyncio lifecycle (`start`, `stop`, task creation, cancellation, `asyncio.sleep`, `gather`) is concurrency, not logic. The sweep is one step `Sweep(now)`, and the monitor loop is one probe at a time.
- The aiohttp session and its timeout: the probe's result is the input `ProbeOutcome`, and only the URL and the state update are modelled.
- `time.time()` is an integer tick `now`. Response times are opaque integers supplied with the probe outcome.
- GetNextService: `random.choice` is replaced by an input `pick`; the model returns `available[pick mod n]`.
- NotificationsNeverRestart: covers one service's probes applied one after another. In the source a re-added name gets a second list entry that shares one `ServiceHealth` record, `_monitor_loop` runs one probe task per entry concurrently, and a callback that suspends lets the other tasks raise the shared failure counter before the orchestrator's callback reads it. That interleaving is not modelled, so the restart path is not proved unreachable under it.
- The callback list, `add_health_change_callback` and the exception swallowing around callbacks are not modelled. A notification is the snapshot appended to `notifications`, and `ProbeService` wires the orchestrator's own callback in directly.
- `get_all_health_status` returns a copy of the record dict. In the model the maps are values, so `healthStatus` itself is that copy.
- Object sharing: `ServiceInfo` and `ServiceHealth` are values, not shared mutable objects (see above). A heartbeat is therefore not visible through an earlier cache entry or the monitor's list, and a caller's `ServiceHealth` does not change on a later probe.
- The order of the Traefik services dict and of `deployment_tasks` is not modelled: they are a `map` and a `set`. The actual deployment tasks (asyncio tasks) are only names.
- MeasurePerformance: `_calculate_optimization_effectiveness` (numpy means and float ratios) is not modelled, so the stored effectiveness never changes.
- MeasurePerformance takes its measurements as a sequence of pairs. The Python dict guarantees distinct names, which `MeasuredRecordsEach` assumes.
- GetOptimizationStatus returns the windows whose means the source reports, not the `np.mean` values.
- OptimizeService: `_calculate_optimization_params` (float targets and load multipliers) and `_calculate_memory_allocation` (float fractions truncated by `int`) are not modelled. Its `except` branch cannot be taken in the model, since nothing in the modelled part raises.
- `encode_mesh_pattern`, `_calculate_connectivity_matrix`, `_calculate_centrality_scores` and `get_mesh_encoding` are not modelled. They are float density and centrality, a numpy matrix, the event-loop clock, and a read-only dictionary view.
- Classify: the source compares `count > n * 0.8` in floating point; the model uses the exact `5 * count > 4 * n`. The rounded product can fall slightly below `0.8 * n` (for n = 43, say), but for node counts below 2^50 the rounding error stays far smaller than the distance from `0.8 * n` to the nearest integer it is not equal to, and an integer count compares the same way against both values. Beyond 2^50 nodes the two may differ.
- Node properties are flattened: `host`, `port` and `metadata` are fields of the node rather than a nested dict.
- `gnucash_rest.py` (a Flask facade over the external GnuCash library), `microservice_demo.py` (a driver script) and `test_python_components.py` (environment checks) hold no control-plane logic and are not part of this model.
