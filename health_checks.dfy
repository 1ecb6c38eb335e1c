/** Liveness, readiness and startup probes of health_checks.py.

    The clock is an integer number of milliseconds passed in by the caller;
    the random outcomes of the dependency checks are parameters. The
    `timestamp` fields of the answers are not modelled. */
module HealthChecks {
  import opened Common

  /** `initialization_time`, in milliseconds. */
  const InitializationMs := 2000

  /** The dependency names of a new checker, and the critical ones. */
  const DependencyNames: set<string> := {"database", "cache", "external_service"}

  /** A probe's answer. */
  datatype Probe =
    | Liveness(status: string, message: string, uptimeSeconds: Option<int>)
    | Readiness(status: string, message: string, unavailable: seq<string>, dependencies: map<string, bool>)
    | Startup(status: string, message: string, elapsedMs: Option<int>, remainingMs: Option<int>)

  /** Python's `int(ms / 1000)`: truncation toward zero. */
  function WholeSeconds(ms: int): int
  {
    if ms >= 0 then ms / 1000 else -((-ms) / 1000)
  }

  /** `liveness_probe`. */
  function LivenessOf(isAlive: bool, uptimeMs: int): (p: Probe)
    ensures p.Liveness? && (p.status == "healthy" <==> isAlive)
    ensures p.status == (if isAlive then "healthy" else "unhealthy")
  {
    if !isAlive then Liveness("unhealthy", "Service is not alive", None)
    else Liveness("healthy", "Service is alive", Some(WholeSeconds(uptimeMs)))
  }

  /** `[dep for dep in ['database', 'cache'] if not dependencies[dep]]`. */
  function Unavailable(deps: map<string, bool>): (r: seq<string>)
    requires "database" in deps && "cache" in deps
    ensures r == [] <==> deps["database"] && deps["cache"]
    ensures forall d :: d in r <==> d in ["database", "cache"] && !deps[d]
  {
    (if deps["database"] then [] else ["database"]) + (if deps["cache"] then [] else ["cache"])
  }

  /** `readiness_probe`. */
  function ReadinessOf(isReady: bool, deps: map<string, bool>): (p: Probe)
    requires "database" in deps && "cache" in deps
    ensures p.Readiness? && p.dependencies == deps
    ensures p.status == "ready" <==> isReady && deps["database"] && deps["cache"]
    ensures p.status != "ready" ==> p.status == "not ready"
  {
    if !isReady then Readiness("not ready", "Service is not ready to serve traffic", [], deps)
    else
      var down := Unavailable(deps);
      if down != [] then Readiness("not ready", "Critical dependencies unavailable", down, deps)
      else Readiness("ready", "Service is ready to serve traffic", [], deps)
  }

  /** `startup_probe`. */
  function StartupOf(isStarted: bool, elapsedMs: int): (p: Probe)
    ensures p.Startup? && (p.status == "started" <==> isStarted)
    ensures !isStarted ==> p.status == "starting" && p.remainingMs == Some(Max(0, InitializationMs - elapsedMs))
  {
    if isStarted then Startup("started", "Service has started", None, None)
    else Startup("starting", "Service is still starting", Some(elapsedMs), Some(Max(0, InitializationMs - elapsedMs)))
  }

  /** `get_overall_health`: not alive is unhealthy, then not started is
      starting, then not ready is not ready; otherwise healthy. */
  function OverallOf(isAlive: bool, isStarted: bool, isReady: bool, deps: map<string, bool>, elapsedMs: int): (r: string)
    requires "database" in deps && "cache" in deps
    ensures !isAlive ==> r == "unhealthy"
    ensures isAlive && !isStarted ==> r == "starting"
    ensures isAlive && isStarted && !(isReady && deps["database"] && deps["cache"]) ==> r == "not ready"
    ensures isAlive && isStarted && isReady && deps["database"] && deps["cache"] ==> r == "healthy"
  {
    if LivenessOf(isAlive, elapsedMs).status != "healthy" then "unhealthy"
    else if StartupOf(isStarted, elapsedMs).status == "starting" then "starting"
    else if ReadinessOf(isReady, deps).status != "ready" then "not ready"
    else "healthy"
  }

  /** `health_check`'s answer. */
  datatype Combined = Combined(liveness: Probe, readiness: Probe, startup: Probe, overall: string)

  /** `HealthChecker`. */
  class HealthChecker {
    var isAlive: bool
    var isReady: bool
    var isStarted: bool
    var dependencies: map<string, bool>
    const startTime: int

    /** The dependency table always has the same three entries. */
    ghost predicate Valid()
      reads this
    {
      dependencies.Keys == DependencyNames
    }

    constructor(now: int)
      ensures Valid() && isAlive && !isReady && !isStarted && startTime == now
      ensures forall d :: d in dependencies ==> !dependencies[d]
    {
      isAlive, isReady, isStarted := true, false, false;
      dependencies := map["database" := false, "cache" := false, "external_service" := false];
      startTime := now;
    }

    /** `check_dependencies`, with the three random outcomes as parameters. */
    method CheckDependencies(database: bool, cache: bool, externalService: bool) returns (deps: map<string, bool>)
      requires Valid()
      modifies this
      ensures Valid() && deps == dependencies
      ensures dependencies == map["database" := database, "cache" := cache, "external_service" := externalService]
      ensures isAlive == old(isAlive) && isReady == old(isReady) && isStarted == old(isStarted)
    {
      dependencies := dependencies["database" := database];
      dependencies := dependencies["cache" := cache];
      dependencies := dependencies["external_service" := externalService];
      deps := dependencies;
    }

    /** `initialize`: checks the dependencies, then is started and ready. */
    method Initialize(database: bool, cache: bool, externalService: bool)
      requires Valid()
      modifies this
      ensures Valid() && isStarted && isReady && isAlive == old(isAlive)
      ensures dependencies == map["database" := database, "cache" := cache, "external_service" := externalService]
    {
      var _ := CheckDependencies(database, cache, externalService);
      isStarted := true;
      isReady := true;
    }

    function LivenessProbe(now: int): (p: Probe)
      reads this
      ensures p == LivenessOf(isAlive, now - startTime)
      ensures p.status == (if isAlive then "healthy" else "unhealthy")
    {
      LivenessOf(isAlive, now - startTime)
    }

    function ReadinessProbe(): (p: Probe)
      requires Valid()
      reads this
      ensures p.status == "ready" <==> isReady && dependencies["database"] && dependencies["cache"]
    {
      ReadinessOf(isReady, dependencies)
    }

    function StartupProbe(now: int): (p: Probe)
      reads this
      ensures p.status == "started" <==> isStarted
    {
      StartupOf(isStarted, now - startTime)
    }

    function GetOverallHealth(now: int): (r: string)
      requires Valid()
      reads this
      ensures r == OverallOf(isAlive, isStarted, isReady, dependencies, now - startTime)
      ensures r == "healthy" <==> isAlive && isStarted && isReady && dependencies["database"] && dependencies["cache"]
    {
      OverallOf(isAlive, isStarted, isReady, dependencies, now - startTime)
    }

    function HealthCheck(now: int): (r: Combined)
      requires Valid()
      reads this
      ensures r.overall == GetOverallHealth(now) && r.readiness == ReadinessProbe()
      ensures r.liveness == LivenessProbe(now) && r.startup == StartupProbe(now)
    {
      Combined(LivenessProbe(now), ReadinessProbe(), StartupProbe(now), GetOverallHealth(now))
    }

    /** `simulate_failure`. */
    method SimulateFailure()
      modifies this
      ensures !isAlive && isReady == old(isReady) && isStarted == old(isStarted) && dependencies == old(dependencies)
    {
      isAlive := false;
    }

    /** `simulate_dependency_failure`: a known dependency goes down and the
        service becomes not ready; an unknown name changes nothing. */
    method SimulateDependencyFailure(dependency: string)
      requires Valid()
      modifies this
      ensures Valid() && isAlive == old(isAlive) && isStarted == old(isStarted)
      ensures dependency in old(dependencies) ==> dependencies == old(dependencies)[dependency := false] && !isReady
      ensures dependency !in old(dependencies) ==> dependencies == old(dependencies) && isReady == old(isReady)
    {
      if dependency in dependencies {
        dependencies := dependencies[dependency := false];
        isReady := false;
      }
    }

    /** `recover`: alive, ready and every dependency up; whether the service
        has started is left alone. */
    method Recover()
      requires Valid()
      modifies this
      ensures Valid() && isAlive && isReady && isStarted == old(isStarted)
      ensures forall d :: d in dependencies ==> dependencies[d]
    {
      isAlive := true;
      isReady := true;
      var pending := dependencies.Keys;
      while pending != {}
        invariant Valid() && isAlive && isReady && isStarted == old(isStarted)
        invariant pending <= dependencies.Keys
        invariant forall d :: d in dependencies && d !in pending ==> dependencies[d]
        decreases |pending|
      {
        var d :| d in pending;
        dependencies := dependencies[d := true];
        pending := pending - {d};
      }
    }
  }

  /** A recovered service that has started is healthy again, and a failed
      critical dependency makes it not ready while it stays alive. */
  lemma RecoverAndFail(isStarted: bool, deps: map<string, bool>, elapsedMs: int)
    requires deps.Keys == DependencyNames && forall d :: d in deps ==> deps[d]
    ensures OverallOf(true, isStarted, true, deps, elapsedMs) == if isStarted then "healthy" else "starting"
    ensures isStarted ==> OverallOf(true, true, false, deps["cache" := false], elapsedMs) == "not ready"
  {
  }

  /** A request's answer. */
  datatype Response = All(combined: Combined) | Single(probe: Probe) | NotFound(error: string)

  /** `HealthCheckServer`. */
  class HealthCheckServer {
    const checker: HealthChecker
    const port: int

    constructor(checker: HealthChecker, port: int)
      ensures this.checker == checker && this.port == port
    {
      this.checker := checker;
      this.port := port;
    }

    /** `handle_request`: the four probe paths, anything else is not found. */
    function HandleRequest(path: string, now: int): (r: Response)
      requires checker.Valid()
      reads this, checker
      ensures path == "/health" ==> r == All(checker.HealthCheck(now))
      ensures path == "/live" ==> r == Single(checker.LivenessProbe(now))
      ensures path == "/ready" ==> r == Single(checker.ReadinessProbe())
      ensures path == "/startup" ==> r == Single(checker.StartupProbe(now))
      ensures r.NotFound? <==> path !in {"/health", "/live", "/ready", "/startup"}
      ensures r.NotFound? ==> r.error == "Not found"
    {
      if path == "/health" then All(checker.HealthCheck(now))
      else if path == "/live" then Single(checker.LivenessProbe(now))
      else if path == "/ready" then Single(checker.ReadinessProbe())
      else if path == "/startup" then Single(checker.StartupProbe(now))
      else NotFound("Not found")
    }
  }
}
