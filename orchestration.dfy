/**
 * The health monitor (one health record per service, a three-state machine with deduplicated
 * notifications) and the orchestrator that deploys, undeploys, scales and restarts services.
 *
 * A probe's HTTP result is an input (`ProbeOutcome`); the callbacks a notification would run
 * are recorded as a trace of health snapshots.
 */
module Orchestration {
  import opened Base
  import opened Discovery

  datatype ServiceStatus = Healthy | Unhealthy | Unknown

  datatype OrchestrationConfig = OrchestrationConfig(
    healthCheckInterval: int,
    healthCheckTimeout: int,
    deploymentTimeout: int,
    scalingEnabled: bool,
    autoRestartEnabled: bool,
    maxRestartAttempts: int)

  datatype ServiceHealth = ServiceHealth(
    serviceName: string,
    status: ServiceStatus,
    lastCheck: int,
    responseTime: Option<int>,
    errorMessage: Option<string>,
    consecutiveFailures: int)

  /** What the probe's GET came back with: an HTTP response, or an exception (refused, timed out, ...). */
  datatype ProbeOutcome = Response(statusCode: int, responseTime: int) | Raised(message: string)

  /** The record a service gets when it starts being monitored. */
  function UnknownHealth(name: string): ServiceHealth {
    ServiceHealth(name, Unknown, 0, None, None, 0)
  }

  /** The path a probe asks for: the service's own health path, or `/health` when it has none. */
  function ProbePath(s: ServiceInfo): string {
    if s.healthCheckUrl != "" then s.healthCheckUrl else "/health"
  }

  /** The probe address: the service's address followed by the probe path. */
  function ProbeUrl(s: ServiceInfo): string {
    HostPortUrl(s.host, s.port) + ProbePath(s)
  }

  /** The probe address is `http://`, the host, `:`, the port's decimal rendering, then the path. */
  lemma ProbeUrlParts(s: ServiceInfo)
    ensures var url := ProbeUrl(s);
            && |url| == 8 + |s.host| + |IntToString(s.port)| + |ProbePath(s)|
            && url[..7] == "http://" && url[7..7 + |s.host|] == s.host && url[7 + |s.host|] == ':'
            && url[8 + |s.host|..|url| - |ProbePath(s)|] == IntToString(s.port)
            && url[|url| - |ProbePath(s)|..] == ProbePath(s)
            && (s.healthCheckUrl == "" ==> url[|url| - 7..] == "/health")
  {
    var base := HostPortUrl(s.host, s.port);
    var url := ProbeUrl(s);
    assert url[..|base|] == base;
    assert url[8 + |s.host|..|url| - |ProbePath(s)|] == base[8 + |s.host|..];
  }

  predicate ProbeSucceeded(o: ProbeOutcome) {
    o.Response? && o.statusCode == 200
  }

  /** The error text kept for a failed probe: `"HTTP <code>"` or the exception's text. */
  function ErrorText(o: ProbeOutcome): (e: string)
    requires !ProbeSucceeded(o)
    ensures o.Response? ==> |e| > 5 && e[..5] == "HTTP " && e[5..] == IntToString(o.statusCode)
    ensures o.Raised? ==> e == o.message
  {
    if o.Response? then "HTTP " + IntToString(o.statusCode) else o.message
  }

  /** How a probe outcome updates a health record (all of it but `last_check`). */
  function ApplyProbe(h: ServiceHealth, o: ProbeOutcome): (r: ServiceHealth)
    ensures r.serviceName == h.serviceName && r.lastCheck == h.lastCheck
    ensures ProbeSucceeded(o) ==>
              r.status == Healthy && r.errorMessage == None && r.consecutiveFailures == 0
              && r.responseTime == Some(o.responseTime)
    ensures !ProbeSucceeded(o) ==>
              r.status == Unhealthy && r.errorMessage == Some(ErrorText(o))
              && r.consecutiveFailures == h.consecutiveFailures + 1 && r.responseTime == h.responseTime
  {
    if ProbeSucceeded(o) then
      h.(status := Healthy, responseTime := Some(o.responseTime), errorMessage := None, consecutiveFailures := 0)
    else
      h.(status := Unhealthy, errorMessage := Some(ErrorText(o)), consecutiveFailures := h.consecutiveFailures + 1)
  }

  /** Callbacks fire only when the status actually changes. */
  predicate Notifies(h: ServiceHealth, o: ProbeOutcome) {
    if ProbeSucceeded(o) then h.status != Healthy else h.status != Unhealthy
  }

  /** The failure counter is zero unless the service is UNHEALTHY. */
  predicate FailuresReset(h: ServiceHealth) {
    h.status != Unhealthy ==> h.consecutiveFailures == 0
  }

  /** Every notified snapshot is HEALTHY with no failures or UNHEALTHY with exactly one. */
  predicate NotificationShape(h: ServiceHealth) {
    || (h.status == Healthy && h.consecutiveFailures == 0)
    || (h.status == Unhealthy && h.consecutiveFailures == 1)
  }

  /** One probe keeps the counter invariant, and whatever it notifies has the notification shape. */
  lemma ProbeKeepsInvariant(h: ServiceHealth, o: ProbeOutcome)
    requires FailuresReset(h)
    ensures FailuresReset(ApplyProbe(h, o))
    ensures Notifies(h, o) ==> NotificationShape(ApplyProbe(h, o))
  {
  }

  /** The record after a sequence of probes. */
  function ProbeRun(h: ServiceHealth, outcomes: seq<ProbeOutcome>): ServiceHealth
    decreases |outcomes|
  {
    if outcomes == [] then h
    else ApplyProbe(ProbeRun(h, outcomes[..|outcomes| - 1]), outcomes[|outcomes| - 1])
  }

  /** The snapshots notified during a sequence of probes, in order. */
  function ProbeNotifications(h: ServiceHealth, outcomes: seq<ProbeOutcome>): seq<ServiceHealth>
    decreases |outcomes|
  {
    if outcomes == [] then []
    else
      var before := ProbeRun(h, outcomes[..|outcomes| - 1]);
      var last := outcomes[|outcomes| - 1];
      ProbeNotifications(h, outcomes[..|outcomes| - 1]) + (if Notifies(before, last) then [ApplyProbe(before, last)] else [])
  }

  /**
   * Over any probe history, the counter invariant holds throughout and every notification is
   * HEALTHY with 0 failures or UNHEALTHY with exactly 1.
   */
  lemma {:induction false} ProbeRunKeepsInvariant(h: ServiceHealth, outcomes: seq<ProbeOutcome>)
    requires FailuresReset(h)
    ensures FailuresReset(ProbeRun(h, outcomes))
    ensures forall n :: n in ProbeNotifications(h, outcomes) ==> NotificationShape(n)
    decreases |outcomes|
  {
    if outcomes != [] {
      var prefix := outcomes[..|outcomes| - 1];
      ProbeRunKeepsInvariant(h, prefix);
      ProbeKeepsInvariant(ProbeRun(h, prefix), outcomes[|outcomes| - 1]);
    }
  }

  /** Repeated successful probes notify once, on the first one, and only if the record was not HEALTHY. */
  lemma {:induction false} SuccessfulProbesNotifyOnce(h: ServiceHealth, outcomes: seq<ProbeOutcome>)
    requires forall i :: 0 <= i < |outcomes| ==> ProbeSucceeded(outcomes[i])
    ensures |ProbeNotifications(h, outcomes)| == if outcomes != [] && h.status != Healthy then 1 else 0
    decreases |outcomes|
  {
    if outcomes != [] {
      var prefix := outcomes[..|outcomes| - 1];
      SuccessfulProbesNotifyOnce(h, prefix);
      if prefix != [] {
        assert ProbeRun(h, prefix).status == Healthy;
      }
    }
  }

  /** The orchestrator's health-change reaction asks for a restart only here. */
  predicate ShouldRestart(h: ServiceHealth, config: OrchestrationConfig) {
    h.status == Unhealthy && config.autoRestartEnabled && h.consecutiveFailures >= 3
  }

  /**
   * The restart-on-three-failures path cannot be reached from a notification: an UNHEALTHY
   * notification always carries exactly one failure.
   */
  lemma {:induction false} NotificationsNeverRestart(name: string, outcomes: seq<ProbeOutcome>, config: OrchestrationConfig)
    ensures forall n :: n in ProbeNotifications(UnknownHealth(name), outcomes) ==> !ShouldRestart(n, config)
  {
    ProbeRunKeepsInvariant(UnknownHealth(name), outcomes);
  }

  /** `restart_service`'s decision and the attempt counters afterwards. */
  function RestartStep(attempts: map<string, int>, name: string, config: OrchestrationConfig): (r: (bool, map<string, int>))
    ensures r.0 <==> config.autoRestartEnabled && GetOrZero(attempts, name) < config.maxRestartAttempts
    ensures r.0 ==> r.1 == attempts[name := GetOrZero(attempts, name) + 1]
    ensures !r.0 ==> r.1 == attempts
  {
    if !config.autoRestartEnabled then (false, attempts)
    else
      var n := GetOrZero(attempts, name);
      if n >= config.maxRestartAttempts then (false, attempts) else (true, attempts[name := n + 1])
  }

  /** The answers of `count` consecutive `restart_service(name)` calls. */
  function RestartRun(attempts: map<string, int>, name: string, config: OrchestrationConfig, count: nat): seq<bool>
    decreases count
  {
    if count == 0 then []
    else
      var step := RestartStep(attempts, name, config);
      [step.0] + RestartRun(step.1, name, config, count - 1)
  }

  /**
   * Call `i` of a run (from 0) succeeds iff auto-restart is on and the counter plus `i` is below
   * the cap: the first `max_restart_attempts - attempts` calls succeed and every later one fails.
   */
  lemma {:induction false} RestartRunCapped(attempts: map<string, int>, name: string, config: OrchestrationConfig, count: nat)
    ensures |RestartRun(attempts, name, config, count)| == count
    ensures forall i :: 0 <= i < count ==>
              (RestartRun(attempts, name, config, count)[i] <==>
                 config.autoRestartEnabled && GetOrZero(attempts, name) + i < config.maxRestartAttempts)
    decreases count
  {
    if count > 0 {
      var step := RestartStep(attempts, name, config);
      RestartRunCapped(step.1, name, config, count - 1);
      var run := RestartRun(attempts, name, config, count);
      forall i | 0 <= i < count
        ensures run[i] <==> config.autoRestartEnabled && GetOrZero(attempts, name) + i < config.maxRestartAttempts
      {
        if i > 0 {
          assert run[i] == RestartRun(step.1, name, config, count - 1)[i - 1];
        }
      }
    }
  }

  /** After a deploy resets the counter, exactly `max_restart_attempts` restarts succeed and the next fails. */
  lemma RestartCapAfterDeploy(attempts: map<string, int>, name: string, config: OrchestrationConfig)
    requires config.autoRestartEnabled && config.maxRestartAttempts >= 0
    ensures var run := RestartRun(attempts[name := 0], name, config, config.maxRestartAttempts + 1);
            && |run| == config.maxRestartAttempts + 1
            && (forall i :: 0 <= i < config.maxRestartAttempts ==> run[i])
            && !run[config.maxRestartAttempts]
  {
    RestartRunCapped(attempts[name := 0], name, config, config.maxRestartAttempts + 1);
  }

  class HealthMonitor {
    const config: OrchestrationConfig
    var healthStatus: map<string, ServiceHealth>
    var services: seq<ServiceInfo>
    /** The snapshots passed to the health-change callbacks, in the order they were notified. */
    var notifications: seq<ServiceHealth>

    ghost predicate Valid()
      reads this
    {
      && (forall n :: n in healthStatus ==> healthStatus[n].serviceName == n && FailuresReset(healthStatus[n]))
      && (forall i :: 0 <= i < |notifications| ==> NotificationShape(notifications[i]))
    }

    constructor (config: OrchestrationConfig)
      ensures Valid() && this.config == config
      ensures healthStatus == map[] && services == [] && notifications == []
    {
      this.config := config;
      healthStatus := map[];
      services := [];
      notifications := [];
    }

    /** `add_service`: append (duplicates allowed) and (re)start the record in UNKNOWN. */
    method AddService(service: ServiceInfo)
      requires Valid()
      modifies this`services, this`healthStatus
      ensures Valid()
      ensures services == old(services) + [service]
      ensures healthStatus == old(healthStatus)[service.name := UnknownHealth(service.name)]
    {
      services := services + [service];
      healthStatus := healthStatus[service.name := UnknownHealth(service.name)];
    }

    /** `remove_service`: drop every listed entry with that name and its record. */
    method RemoveService(name: string)
      requires Valid()
      modifies this`services, this`healthStatus
      ensures Valid()
      ensures services == WithoutName(old(services), name)
      ensures healthStatus == old(healthStatus) - {name}
    {
      services := WithoutName(services, name);
      healthStatus := healthStatus - {name};
    }

    /**
     * `check_service_health` for one probe whose result is `outcome`, finishing at time `now`.
     * A service without a record gets a fresh UNKNOWN one first.
     */
    method CheckServiceHealth(service: ServiceInfo, outcome: ProbeOutcome, now: int)
      returns (url: string, health: ServiceHealth)
      requires Valid()
      modifies this`healthStatus, this`notifications
      ensures Valid()
      ensures url == ProbeUrl(service)
      ensures var before := if service.name in old(healthStatus) then old(healthStatus)[service.name]
                            else UnknownHealth(service.name);
              && health == ApplyProbe(before, outcome).(lastCheck := now)
              && healthStatus == old(healthStatus)[service.name := health]
              && notifications == old(notifications) +
                   (if Notifies(before, outcome) then [ApplyProbe(before, outcome)] else [])
    {
      var before: ServiceHealth;
      if service.name in healthStatus {
        before := healthStatus[service.name];
      } else {
        before := UnknownHealth(service.name);
      }
      url := ProbeUrl(service);
      var after := ApplyProbe(before, outcome);
      ProbeKeepsInvariant(before, outcome);
      if Notifies(before, outcome) {
        notifications := notifications + [after];
      }
      health := after.(lastCheck := now);
      healthStatus := healthStatus[service.name := health];
    }

    /** `get_service_health` */
    function GetServiceHealth(name: string): (r: Option<ServiceHealth>)
      reads this
      requires Valid()
      ensures r.Some? <==> name in healthStatus
      ensures r.Some? ==> r.value.serviceName == name && FailuresReset(r.value)
    {
      if name in healthStatus then Some(healthStatus[name]) else None
    }
  }

  /** The names whose record is HEALTHY. */
  function HealthyNames(m: map<string, ServiceHealth>): (r: set<string>)
    ensures r <= m.Keys
    ensures forall n :: n in r <==> n in m && m[n].status == Healthy
  {
    set n | n in m && m[n].status == Healthy
  }

  lemma {:induction false} SubsetCardinality(a: set<string>, b: set<string>)
    requires a <= b
    ensures |a| <= |b|
    decreases |a|
  {
    if a != {} {
      var x :| x in a;
      SubsetCardinality(a - {x}, b - {x});
    }
  }

  datatype DeploymentStatus = DeploymentStatus(
    services: nat,
    healthyServices: nat,
    deploymentTasks: set<string>,
    restartAttempts: map<string, int>)

  class ServiceOrchestrator {
    const registry: ServiceRegistry
    const config: OrchestrationConfig
    const monitor: HealthMonitor
    /** The names with a tracked deployment task (the tasks themselves are not modelled). */
    var deploymentTasks: set<string>
    var restartAttempts: map<string, int>

    ghost predicate Valid()
      reads this, registry, monitor
    {
      registry.Valid() && monitor.Valid() && monitor.config == config
    }

    constructor (registry: ServiceRegistry, config: OrchestrationConfig)
      requires registry.Valid()
      ensures Valid() && fresh(monitor)
      ensures this.registry == registry && this.config == config
      ensures monitor.services == [] && monitor.healthStatus == map[] && monitor.notifications == []
      ensures deploymentTasks == {} && restartAttempts == map[]
    {
      this.registry := registry;
      this.config := config;
      monitor := new HealthMonitor(config);
      deploymentTasks := {};
      restartAttempts := map[];
    }

    /** `deploy_service`: register (stamping the heartbeat), monitor, and reset the restart counter. */
    method DeployService(info: ServiceInfo, now: int) returns (ok: bool)
      requires Valid()
      modifies this`restartAttempts, registry`services, registry`order, monitor`services, monitor`healthStatus
      ensures Valid() && ok
      ensures registry.services == old(registry.services)[info.name := info.(lastHeartbeat := now)]
      ensures registry.order == if info.name in old(registry.services) then old(registry.order)
                                else old(registry.order) + [info.name]
      ensures monitor.services == old(monitor.services) + [info.(lastHeartbeat := now)]
      ensures monitor.healthStatus == old(monitor.healthStatus)[info.name := UnknownHealth(info.name)]
      ensures restartAttempts == old(restartAttempts)[info.name := 0]
    {
      var registered := registry.Register(info, now);
      monitor.AddService(info.(lastHeartbeat := now));
      restartAttempts := restartAttempts[info.name := 0];
      ok := true;
    }

    /** `undeploy_service`: succeeds even for a name that was never deployed. */
    method UndeployService(name: string) returns (ok: bool)
      requires Valid()
      modifies this`restartAttempts, this`deploymentTasks, registry`services, registry`order,
               monitor`services, monitor`healthStatus
      ensures Valid() && ok
      ensures monitor.services == WithoutName(old(monitor.services), name)
      ensures monitor.healthStatus == old(monitor.healthStatus) - {name}
      ensures registry.services == old(registry.services) - {name}
      ensures registry.order == Restrict(old(registry.order), old(registry.services).Keys - {name})
      ensures deploymentTasks == old(deploymentTasks) - {name}
      ensures restartAttempts == old(restartAttempts) - {name}
    {
      monitor.RemoveService(name);
      var unregistered := registry.Unregister(name);
      deploymentTasks := deploymentTasks - {name};
      restartAttempts := restartAttempts - {name};
      ok := true;
    }

    /** `scale_service`: a policy gate only. */
    method ScaleService(name: string, instances: int) returns (ok: bool)
      ensures ok <==> config.scalingEnabled
    {
      ok := config.scalingEnabled;
    }

    /** `restart_service`: gated by auto-restart and the attempt cap; counts the attempt. */
    method RestartService(name: string) returns (ok: bool)
      modifies this`restartAttempts
      ensures (ok, restartAttempts) == RestartStep(old(restartAttempts), name, config)
    {
      if !config.autoRestartEnabled {
        return false;
      }
      var attempts := GetOrZero(restartAttempts, name);
      if attempts >= config.maxRestartAttempts {
        return false;
      }
      restartAttempts := restartAttempts[name := attempts + 1];
      ok := true;
    }

    /** `_handle_health_change`, the callback the orchestrator registers with its monitor. */
    method HandleHealthChange(health: ServiceHealth) returns (restarted: bool)
      modifies this`restartAttempts
      ensures ShouldRestart(health, config) ==>
                (restarted, restartAttempts) == RestartStep(old(restartAttempts), health.serviceName, config)
      ensures !ShouldRestart(health, config) ==> !restarted && restartAttempts == old(restartAttempts)
    {
      restarted := false;
      if health.status == Unhealthy && config.autoRestartEnabled && health.consecutiveFailures >= 3 {
        restarted := RestartService(health.serviceName);
      }
    }

    /**
     * One probe of the monitor loop once the orchestrator has registered its callback: the
     * notification, if any, is handled at once. The restart counters never change.
     */
    method ProbeService(service: ServiceInfo, outcome: ProbeOutcome, now: int) returns (health: ServiceHealth)
      requires Valid()
      modifies this`restartAttempts, monitor`healthStatus, monitor`notifications
      ensures Valid()
      ensures var before := if service.name in old(monitor.healthStatus) then old(monitor.healthStatus)[service.name]
                            else UnknownHealth(service.name);
              && health == ApplyProbe(before, outcome).(lastCheck := now)
              && monitor.healthStatus == old(monitor.healthStatus)[service.name := health]
              && monitor.notifications == old(monitor.notifications) +
                   (if Notifies(before, outcome) then [ApplyProbe(before, outcome)] else [])
      ensures restartAttempts == old(restartAttempts)
    {
      var count := |monitor.notifications|;
      var url;
      url, health := monitor.CheckServiceHealth(service, outcome, now);
      if |monitor.notifications| > count {
        var notified := monitor.notifications[count];
        assert NotificationShape(notified);
        var restarted := HandleHealthChange(notified);
      }
    }

    /** `get_deployment_status` */
    function GetDeploymentStatus(): (r: DeploymentStatus)
      reads this, monitor
      ensures r.services == |monitor.services|
      ensures r.healthyServices == |HealthyNames(monitor.healthStatus)| <= |monitor.healthStatus|
      ensures r.deploymentTasks == deploymentTasks && r.restartAttempts == restartAttempts
    {
      var healthy := HealthyNames(monitor.healthStatus);
      SubsetCardinality(healthy, monitor.healthStatus.Keys);
      DeploymentStatus(|monitor.services|, |healthy|, deploymentTasks, restartAttempts)
    }
  }
}
