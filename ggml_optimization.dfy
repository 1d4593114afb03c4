/**
 * The integer and structural parts of the GGML service optimizer (configuration records, the
 * bounded metric history, the optimization status) and of the hypergraph mesh encoder (node
 * and edge insertion, topology buckets). Metric values and edge weights are carried, never
 * computed with.
 */
module GgmlOptimization {
  import opened Base
  import opened Discovery

  datatype OptimizationLevel = Low | Medium | High | Extreme

  datatype GgmlServiceConfig = GgmlServiceConfig(
    optimizationLevel: OptimizationLevel,
    memoryPoolSize: int,
    threadCount: int,
    batchSize: int,
    modelCacheEnabled: bool,
    quantizationEnabled: bool,
    precision: string)

  datatype ThreadConfig = ThreadConfig(workerThreads: int, ioThreads: int, cacheThreads: int)
  datatype BatchConfig = BatchConfig(batchSize: int, queueSize: int, timeoutMs: int, adaptiveBatching: bool)
  datatype Quantization =
    | QuantizationOff
    | QuantizationOn(precision: string, scheme: string, compressionRatio: real)

  /** `_calculate_thread_config`: `io_threads` is `max(2, thread_count // 2)`. */
  function ThreadConfigFor(config: GgmlServiceConfig): (t: ThreadConfig)
    ensures t.workerThreads == config.threadCount && t.cacheThreads == 1
    ensures t.ioThreads >= 2
    ensures 2 * t.ioThreads <= config.threadCount || t.ioThreads == 2
    ensures config.threadCount >= 4 ==> config.threadCount <= 2 * t.ioThreads + 1
  {
    // Euclidean division by a positive divisor is Python's floor division.
    var half := config.threadCount / 2;
    ThreadConfig(config.threadCount, if half > 2 then half else 2, 1)
  }

  /** `_calculate_batch_config` */
  function BatchConfigFor(config: GgmlServiceConfig): (b: BatchConfig)
    ensures b.batchSize == config.batchSize && b.queueSize == 4 * b.batchSize
    ensures b.timeoutMs == 100 && b.adaptiveBatching
  {
    BatchConfig(config.batchSize, config.batchSize * 4, 100, true)
  }

  /** `_apply_quantization` */
  function QuantizationFor(config: GgmlServiceConfig): (q: Quantization)
    ensures q.QuantizationOff? <==> !config.quantizationEnabled
    ensures q.QuantizationOn? ==> q.precision == config.precision
    ensures q.QuantizationOn? ==> (q.scheme == "dynamic" <==> config.optimizationLevel == Extreme)
    ensures q.QuantizationOn? ==> (q.scheme == "static" <==> config.optimizationLevel != Extreme)
    ensures q.QuantizationOn? ==> q.compressionRatio == if config.precision == "int8" then 0.5 else 0.7
  {
    if !config.quantizationEnabled then QuantizationOff
    else QuantizationOn(config.precision,
                        if config.optimizationLevel == Extreme then "dynamic" else "static",
                        if config.precision == "int8" then 0.5 else 0.7)
  }

  /** The stored optimization of one service (its memory split and float targets are not modelled). */
  datatype OptimizedConfig = OptimizedConfig(
    serviceName: string,
    optimizationLevel: OptimizationLevel,
    threads: ThreadConfig,
    batching: BatchConfig,
    quantization: Quantization)

  /** The four list-valued keys of a service's metrics dict. */
  const MetricNames: set<string> := {"latency", "throughput", "memory_usage", "cpu_usage"}
  /** The fifth key, whose value is a float; `append` on it raises. */
  const EffectivenessKey: string := "optimization_effectiveness"
  /** How many values each metric history keeps. */
  const HistoryLimit: nat := 100

  datatype PerformanceRecord = PerformanceRecord(histories: map<string, seq<real>>, effectiveness: real)

  /** Append a measurement and keep only the last 100. */
  function Remember(history: seq<real>, value: real): (r: seq<real>)
    ensures |r| == if |history| < HistoryLimit then |history| + 1 else HistoryLimit
    ensures r[|r| - 1] == value
    ensures |history| < HistoryLimit ==> r == history + [value]
    ensures |history| >= HistoryLimit ==> r == history[|history| - (HistoryLimit - 1)..] + [value]
  {
    var appended := history + [value];
    if |appended| > HistoryLimit then appended[|appended| - HistoryLimit..] else appended
  }

  /** No history is longer than the limit. */
  ghost predicate Bounded(histories: map<string, seq<real>>) {
    forall k :: k in histories ==> |histories[k]| <= HistoryLimit
  }

  /**
   * The histories after taking in `metrics` in order, and whether a metric named
   * `optimization_effectiveness` raised (which abandons the remaining metrics).
   */
  function Measured(histories: map<string, seq<real>>, metrics: seq<(string, real)>): (r: (map<string, seq<real>>, bool))
    ensures r.0.Keys == histories.Keys
    decreases |metrics|
  {
    if metrics == [] then (histories, false)
    else if metrics[0].0 == EffectivenessKey then (histories, true)
    else
      var name := metrics[0].0;
      var next := if name in histories then histories[name := Remember(histories[name], metrics[0].1)] else histories;
      Measured(next, metrics[1..])
  }

  /** Taking in measurements never lets a history outgrow the limit. */
  lemma {:induction false} MeasuredBounded(histories: map<string, seq<real>>, metrics: seq<(string, real)>)
    requires Bounded(histories)
    ensures Bounded(Measured(histories, metrics).0)
    decreases |metrics|
  {
    if metrics != [] && metrics[0].0 != EffectivenessKey {
      var name := metrics[0].0;
      var next := if name in histories then histories[name := Remember(histories[name], metrics[0].1)] else histories;
      MeasuredBounded(next, metrics[1..]);
    }
  }

  /** The exception is raised exactly when some metric is named `optimization_effectiveness`. */
  lemma {:induction false} MeasuredRaisesIff(histories: map<string, seq<real>>, metrics: seq<(string, real)>)
    ensures Measured(histories, metrics).1 <==> exists i :: 0 <= i < |metrics| && metrics[i].0 == EffectivenessKey
    decreases |metrics|
  {
    if metrics != [] && metrics[0].0 != EffectivenessKey {
      var name := metrics[0].0;
      var next := if name in histories then histories[name := Remember(histories[name], metrics[0].1)] else histories;
      MeasuredRaisesIff(next, metrics[1..]);
      assert forall i :: 1 <= i < |metrics| ==> metrics[1..][i - 1] == metrics[i];
    }
  }

  /** A history no metric names is left as it was. */
  lemma {:induction false} MeasuredIgnores(histories: map<string, seq<real>>, metrics: seq<(string, real)>, key: string)
    requires key in histories
    requires forall i :: 0 <= i < |metrics| ==> metrics[i].0 != key
    ensures Measured(histories, metrics).0[key] == histories[key]
    decreases |metrics|
  {
    if metrics != [] && metrics[0].0 != EffectivenessKey {
      var name := metrics[0].0;
      var next := if name in histories then histories[name := Remember(histories[name], metrics[0].1)] else histories;
      assert forall i :: 0 <= i < |metrics[1..]| ==> metrics[1..][i] == metrics[i + 1];
      MeasuredIgnores(next, metrics[1..], key);
    }
  }

  /**
   * For a dict of measurements (distinct names) without the effectiveness key, every known metric's
   * history gains exactly its new value, trimmed to the last 100.
   */
  lemma {:induction false} MeasuredRecordsEach(histories: map<string, seq<real>>, metrics: seq<(string, real)>)
    requires forall i, j :: 0 <= i < j < |metrics| ==> metrics[i].0 != metrics[j].0
    requires forall i :: 0 <= i < |metrics| ==> metrics[i].0 != EffectivenessKey
    ensures forall j :: 0 <= j < |metrics| && metrics[j].0 in histories ==>
              Measured(histories, metrics).0[metrics[j].0] == Remember(histories[metrics[j].0], metrics[j].1)
    decreases |metrics|
  {
    if metrics != [] {
      var name := metrics[0].0;
      var next := if name in histories then histories[name := Remember(histories[name], metrics[0].1)] else histories;
      var rest := metrics[1..];
      assert forall i :: 0 <= i < |rest| ==> rest[i] == metrics[i + 1];
      MeasuredRecordsEach(next, rest);
      if name in histories {
        MeasuredIgnores(next, rest, name);
      }
    }
  }

  /** The windows whose means `get_optimization_status` reports, and the stored configuration. */
  datatype OptimizationStatus = OptimizationStatus(
    configuration: OptimizedConfig,
    recentLatency: Option<seq<real>>,
    recentThroughput: Option<seq<real>>,
    effectiveness: real)

  /** `s[-5:] if s else None` */
  function RecentWindow(s: seq<real>): (r: Option<seq<real>>)
    ensures r.None? <==> s == []
    ensures r.Some? ==> |r.value| == (if |s| < 5 then |s| else 5) && r.value == s[|s| - |r.value|..]
  {
    if s == [] then None else if |s| <= 5 then Some(s) else Some(s[|s| - 5..])
  }

  class GgmlServiceOptimizer {
    const config: GgmlServiceConfig
    var optimizedServices: map<string, OptimizedConfig>
    var performanceMetrics: map<string, PerformanceRecord>

    ghost predicate Valid()
      reads this
    {
      && optimizedServices.Keys == performanceMetrics.Keys
      && forall n :: n in performanceMetrics ==>
           performanceMetrics[n].histories.Keys == MetricNames && Bounded(performanceMetrics[n].histories)
    }

    constructor (config: GgmlServiceConfig)
      ensures Valid() && this.config == config
      ensures optimizedServices == map[] && performanceMetrics == map[]
    {
      this.config := config;
      optimizedServices := map[];
      performanceMetrics := map[];
    }

    /** `optimize_service`: store the configuration and start empty histories. */
    method OptimizeService(info: ServiceInfo) returns (ok: bool)
      requires Valid()
      modifies this`optimizedServices, this`performanceMetrics
      ensures Valid() && ok
      ensures optimizedServices == old(optimizedServices)[info.name :=
                OptimizedConfig(info.name, config.optimizationLevel, ThreadConfigFor(config),
                                BatchConfigFor(config), QuantizationFor(config))]
      ensures performanceMetrics == old(performanceMetrics)[info.name :=
                PerformanceRecord(map k | k in MetricNames :: [], 0.0)]
    {
      optimizedServices := optimizedServices[info.name :=
        OptimizedConfig(info.name, config.optimizationLevel, ThreadConfigFor(config),
                        BatchConfigFor(config), QuantizationFor(config))];
      performanceMetrics := performanceMetrics[info.name := PerformanceRecord(map k | k in MetricNames :: [], 0.0)];
      ok := true;
    }

    /**
     * `measure_performance` up to the effectiveness update: unknown services and unknown metric
     * names are ignored; `raised` reports the exception a metric named
     * `optimization_effectiveness` causes.
     */
    method MeasurePerformance(serviceName: string, metrics: seq<(string, real)>) returns (raised: bool)
      requires Valid()
      modifies this`performanceMetrics
      ensures Valid()
      ensures serviceName !in old(performanceMetrics) ==> performanceMetrics == old(performanceMetrics) && !raised
      ensures serviceName in old(performanceMetrics) ==>
                var outcome := Measured(old(performanceMetrics)[serviceName].histories, metrics);
                && performanceMetrics == old(performanceMetrics)[serviceName :=
                     old(performanceMetrics)[serviceName].(histories := outcome.0)]
                && raised == outcome.1
    {
      raised := false;
      if serviceName !in performanceMetrics {
        return;
      }
      var perf := performanceMetrics[serviceName];
      var histories := perf.histories;
      var i := 0;
      while i < |metrics|
        invariant 0 <= i <= |metrics|
        invariant Measured(histories, metrics[i..]) == Measured(perf.histories, metrics)
        invariant histories.Keys == MetricNames && Bounded(histories)
        invariant performanceMetrics == old(performanceMetrics)
      {
        var name := metrics[i].0;
        if name == EffectivenessKey {
          raised := true;
          break;
        }
        if name in histories {
          histories := histories[name := Remember(histories[name], metrics[i].1)];
        }
        assert metrics[i..][1..] == metrics[i + 1..];
        i := i + 1;
      }
      performanceMetrics := performanceMetrics[serviceName := perf.(histories := histories)];
    }

    /** `get_optimization_status`: absent exactly for services never optimized. */
    function GetOptimizationStatus(serviceName: string): (r: Option<OptimizationStatus>)
      reads this
      requires Valid()
      ensures r.None? <==> serviceName !in optimizedServices
      ensures r.Some? ==> r.value.configuration == optimizedServices[serviceName]
      ensures r.Some? ==> r.value.recentLatency == RecentWindow(performanceMetrics[serviceName].histories["latency"])
      ensures r.Some? ==> r.value.recentThroughput == RecentWindow(performanceMetrics[serviceName].histories["throughput"])
      ensures r.Some? ==> r.value.effectiveness == performanceMetrics[serviceName].effectiveness
    {
      if serviceName !in optimizedServices then None
      else
        var perf := performanceMetrics[serviceName];
        Some(OptimizationStatus(optimizedServices[serviceName],
                                RecentWindow(perf.histories["latency"]),
                                RecentWindow(perf.histories["throughput"]),
                                perf.effectiveness))
    }
  }

  // ---------------------------------------------------------------------------------------
  // Hypergraph mesh encoding

  datatype HypergraphNode = HypergraphNode(
    id: string,
    serviceName: string,
    nodeType: string,
    host: string,
    port: int,
    metadata: Metadata,
    connections: seq<string>)

  datatype HypergraphEdge = HypergraphEdge(
    id: string,
    nodes: seq<string>,
    edgeType: string,
    weight: real,
    direction: string,
    relationshipType: string)

  function NodeId(serviceName: string): string {
    "service_" + serviceName
  }

  /** `sep.join(parts)` */
  function Join(parts: seq<string>, sep: string): (r: string)
    ensures parts == [] ==> r == ""
    ensures |parts| == 1 ==> r == parts[0]
    decreases |parts|
  {
    if parts == [] then ""
    else if |parts| == 1 then parts[0]
    else Join(parts[..|parts| - 1], sep) + sep + parts[|parts| - 1]
  }

  /** `f"edge_{from}_to_{'_'.join(to)}"` */
  function EdgeId(from: string, to: seq<string>): string {
    "edge_" + from + "_to_" + Join(to, "_")
  }

  /** The node ids a dependency edge spans: the source first, then each target in order. */
  function EdgeNodeIds(from: string, to: seq<string>): (ids: seq<string>)
    ensures |ids| == |to| + 1 && ids[0] == NodeId(from)
    ensures forall i :: 0 <= i < |to| ==> ids[i + 1] == NodeId(to[i])
  {
    [NodeId(from)] + seq(|to|, i requires 0 <= i < |to| => NodeId(to[i]))
  }

  /** `count` copies of `x`. */
  function Repeat(x: string, count: nat): seq<string> {
    if count == 0 then [] else Repeat(x, count - 1) + [x]
  }

  /** The buckets of `_detect_topology_patterns`, tested in this order; a node may fall in none. */
  datatype Bucket = Isolated | Star | Chain | Mesh | Unclassified

  /**
   * The bucket of a node with `count` connections among `nodeCount` nodes. The source compares
   * `count > nodeCount * 0.8`; for counts and node totals below 2^50 that is `5 * count > 4 * nodeCount`.
   */
  function Classify(count: nat, nodeCount: nat): (b: Bucket)
    ensures b == Isolated <==> count == 0
    ensures b == Star <==> count > 0 && 5 * count > 4 * nodeCount
    ensures b == Chain <==> count == 2 && 5 * count <= 4 * nodeCount
    ensures b == Mesh <==> count > 3 && 5 * count <= 4 * nodeCount
  {
    if count == 0 then Isolated
    else if 5 * count > 4 * nodeCount then Star
    else if count == 2 then Chain
    else if count > 3 then Mesh
    else Unclassified
  }

  datatype TopologyPatterns = TopologyPatterns(
    star: seq<string>,
    chain: seq<string>,
    mesh: seq<string>,
    isolated: seq<string>)

  /** The ids of `order` whose node falls in bucket `b`, in order. */
  function InBucket(order: seq<string>, nodes: map<string, HypergraphNode>, b: Bucket): seq<string>
    requires forall id :: id in order ==> id in nodes
    decreases |order|
  {
    if order == [] then []
    else
      var last := order[|order| - 1];
      InBucket(order[..|order| - 1], nodes, b) + (if Classify(|nodes[last].connections|, |nodes|) == b then [last] else [])
  }

  /**
   * `after` is `before` with `edgeId` appended to the connections of every node of `span` that
   * exists, once per occurrence; nodes outside the span are unchanged.
   */
  ghost predicate ConnectedTo(before: map<string, HypergraphNode>, after: map<string, HypergraphNode>,
                              edgeId: string, span: seq<string>)
  {
    && after.Keys == before.Keys
    && forall id :: id in after ==>
         after[id] == before[id].(connections := before[id].connections + Repeat(edgeId, multiset(span)[id]))
  }

  /** Appending one element raises its count by one and leaves every other count alone. */
  lemma CountSnoc(span: seq<string>, x: string, id: string)
    ensures multiset(span + [x])[id] == multiset(span)[id] + (if id == x then 1 else 0)
  {
    assert multiset(span + [x]) == multiset(span) + multiset{x};
  }

  /** The node of `id` in `after`, given the one in `nodes` and the new occurrence count. */
  lemma ConnectStepAt(before: map<string, HypergraphNode>, nodes: map<string, HypergraphNode>,
                      edgeId: string, span: seq<string>, x: string, id: string)
    requires ConnectedTo(before, nodes, edgeId, span)
    requires id in nodes
    ensures var after := if x in nodes then nodes[x := nodes[x].(connections := nodes[x].connections + [edgeId])] else nodes;
            after[id] == before[id].(connections := before[id].connections + Repeat(edgeId, multiset(span + [x])[id]))
  {
    CountSnoc(span, x, id);
    var n := multiset(span)[id];
    if id == x {
      assert Repeat(edgeId, n + 1) == Repeat(edgeId, n) + [edgeId];
      assert before[id].connections + Repeat(edgeId, n) + [edgeId]
          == before[id].connections + (Repeat(edgeId, n) + [edgeId]);
    } else {
      assert multiset(span + [x])[id] == n;
    }
  }

  /** One more span element: its node, if present, gains one more `edgeId`. */
  lemma ConnectStep(before: map<string, HypergraphNode>, nodes: map<string, HypergraphNode>,
                    edgeId: string, span: seq<string>, x: string)
    requires ConnectedTo(before, nodes, edgeId, span)
    ensures ConnectedTo(before, if x in nodes then nodes[x := nodes[x].(connections := nodes[x].connections + [edgeId])] else nodes,
                        edgeId, span + [x])
  {
    var after := if x in nodes then nodes[x := nodes[x].(connections := nodes[x].connections + [edgeId])] else nodes;
    forall id | id in after
      ensures after[id] == before[id].(connections := before[id].connections + Repeat(edgeId, multiset(span + [x])[id]))
    {
      ConnectStepAt(before, nodes, edgeId, span, x, id);
    }
  }

  class HypergraphMeshEncoder {
    var nodes: map<string, HypergraphNode>
    /** The key order of the `nodes` dict. */
    var nodeOrder: seq<string>
    var edges: map<string, HypergraphEdge>

    ghost predicate Valid()
      reads this
    {
      Distinct(nodeOrder) && forall id :: id in nodeOrder <==> id in nodes
    }

    constructor ()
      ensures Valid() && nodes == map[] && nodeOrder == [] && edges == map[]
    {
      nodes := map[];
      nodeOrder := [];
      edges := map[];
    }

    /** `add_service_node`: a node with no connections, replacing any node with the same id. */
    method AddServiceNode(info: ServiceInfo) returns (id: string)
      requires Valid()
      modifies this`nodes, this`nodeOrder
      ensures Valid()
      ensures id == NodeId(info.name)
      ensures nodes == old(nodes)[id := HypergraphNode(id, info.name, "microservice", info.host, info.port, info.metadata, [])]
      ensures nodeOrder == if id in old(nodes) then old(nodeOrder) else old(nodeOrder) + [id]
      ensures edges == old(edges)
    {
      id := NodeId(info.name);
      if id !in nodes {
        nodeOrder := nodeOrder + [id];
      }
      nodes := nodes[id := HypergraphNode(id, info.name, "microservice", info.host, info.port, info.metadata, [])];
    }

    /**
     * `add_dependency_edge`: store the hyperedge, then append its id to the connections of every
     * spanned node that exists, once per occurrence in the span.
     */
    method AddDependencyEdge(from: string, to: seq<string>, edgeType: string, weight: real) returns (edgeId: string)
      requires Valid()
      modifies this`edges, this`nodes
      ensures Valid()
      ensures edgeId == EdgeId(from, to)
      ensures edges == old(edges)[edgeId := HypergraphEdge(edgeId, EdgeNodeIds(from, to), edgeType, weight, "from_to", edgeType)]
      ensures ConnectedTo(old(nodes), nodes, edgeId, EdgeNodeIds(from, to))
    {
      edgeId := EdgeId(from, to);
      var ids := EdgeNodeIds(from, to);
      var edge := HypergraphEdge(edgeId, ids, edgeType, weight, "from_to", edgeType);
      edges := edges[edgeId := edge];
      Connect(ids, edgeId);
    }

    /** The connection update of `add_dependency_edge`: each existing node of `span` gains `edgeId`. */
    method Connect(span: seq<string>, edgeId: string)
      modifies this`nodes
      ensures ConnectedTo(old(nodes), nodes, edgeId, span)
    {
      for i := 0 to |span|
        invariant ConnectedTo(old(nodes), nodes, edgeId, span[..i])
      {
        var id := span[i];
        ConnectStep(old(nodes), nodes, edgeId, span[..i], id);
        if id in nodes {
          nodes := nodes[id := nodes[id].(connections := nodes[id].connections + [edgeId])];
        }
        assert span[..i + 1] == span[..i] + [id];
      }
      assert span[..|span|] == span;
    }

    /** `_detect_topology_patterns`: every node in key order goes to the bucket it classifies into. */
    method DetectTopologyPatterns() returns (p: TopologyPatterns)
      requires Valid()
      ensures p.isolated == InBucket(nodeOrder, nodes, Isolated)
      ensures p.star == InBucket(nodeOrder, nodes, Star)
      ensures p.chain == InBucket(nodeOrder, nodes, Chain)
      ensures p.mesh == InBucket(nodeOrder, nodes, Mesh)
      ensures forall id :: id in p.isolated <==> id in nodes && nodes[id].connections == []
    {
      var star, chain, mesh, isolated := [], [], [], [];
      for i := 0 to |nodeOrder|
        invariant isolated == InBucket(nodeOrder[..i], nodes, Isolated)
        invariant star == InBucket(nodeOrder[..i], nodes, Star)
        invariant chain == InBucket(nodeOrder[..i], nodes, Chain)
        invariant mesh == InBucket(nodeOrder[..i], nodes, Mesh)
      {
        var id := nodeOrder[i];
        var count := |nodes[id].connections|;
        assert nodeOrder[..i + 1][..i] == nodeOrder[..i];
        if count == 0 {
          isolated := isolated + [id];
        } else if 5 * count > 4 * |nodes| {
          star := star + [id];
        } else if count == 2 {
          chain := chain + [id];
        } else if count > 3 {
          mesh := mesh + [id];
        }
      }
      assert nodeOrder[..|nodeOrder|] == nodeOrder;
      p := TopologyPatterns(star, chain, mesh, isolated);
      InBucketMembers(nodeOrder, nodes, Isolated);
    }
  }

  /** A bucket lists exactly the ids of `order` that classify into it. */
  lemma {:induction false} InBucketMembers(order: seq<string>, nodes: map<string, HypergraphNode>, b: Bucket)
    requires forall id :: id in order ==> id in nodes
    ensures forall id :: id in InBucket(order, nodes, b) <==> id in order && Classify(|nodes[id].connections|, |nodes|) == b
    decreases |order|
  {
    if order != [] {
      var prefix := order[..|order| - 1];
      InBucketMembers(prefix, nodes, b);
      assert order == prefix + [order[|order| - 1]];
    }
  }

  /** Each node lands in at most one bucket. */
  lemma BucketsDisjoint(order: seq<string>, nodes: map<string, HypergraphNode>, b1: Bucket, b2: Bucket, id: string)
    requires forall x :: x in order ==> x in nodes
    requires b1 != b2
    ensures !(id in InBucket(order, nodes, b1) && id in InBucket(order, nodes, b2))
  {
    InBucketMembers(order, nodes, b1);
    InBucketMembers(order, nodes, b2);
  }
}
