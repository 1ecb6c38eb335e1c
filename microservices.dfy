/** The service registry and API gateway of microservices.py.

    Times are integer seconds passed in by the caller; whether a simulated
    remote call succeeds (`random.random() > 0.1` in the source) is an
    oracle indexed by attempt. */
module Microservices {
  import opened Common

  datatype ServiceStatus = Healthy | Unhealthy

  /** `ServiceInfo`. */
  datatype ServiceInfo = ServiceInfo(url: string, version: string, endpoints: seq<string>,
                                     registeredAt: int, lastHeartbeat: int, status: ServiceStatus)

  /** The `service_info` dictionary of `register`: `url` is required, the
      other keys may be absent. */
  datatype Registration = Registration(url: string, version: Option<string>, endpoints: Option<seq<string>>)

  /** The default heartbeat timeout of `cleanup_stale_services`. */
  const DefaultTimeout := 30

  /** Whether a service's heartbeat is older than `timeout` at `now`. */
  predicate Stale(s: ServiceInfo, now: int, timeout: int)
  {
    now - s.lastHeartbeat > timeout
  }

  /** `ServiceRegistry`. */
  class ServiceRegistry {
    var services: map<string, ServiceInfo>
    var healthChecks: map<string, string>

    constructor()
      ensures services == map[] && healthChecks == map[]
    {
      services := map[];
      healthChecks := map[];
    }

    /** `register`: replaces any entry for the name with a healthy one,
        version `1.0.0` and no endpoints unless given. */
    method Register(name: string, info: Registration, now: int) returns (s: ServiceInfo)
      modifies this
      ensures s.url == info.url && s.status == Healthy
      ensures s.version == (if info.version.Some? then info.version.value else "1.0.0")
      ensures s.endpoints == (if info.endpoints.Some? then info.endpoints.value else [])
      ensures s.registeredAt == now && s.lastHeartbeat == now
      ensures services == old(services)[name := s] && healthChecks == old(healthChecks)
    {
      var version := if info.version.Some? then info.version.value else "1.0.0";
      var endpoints := if info.endpoints.Some? then info.endpoints.value else [];
      s := ServiceInfo(info.url, version, endpoints, now, now, Healthy);
      services := services[name := s];
    }

    /** `deregister`: true iff the name was registered, which it then no
        longer is; otherwise nothing changes. */
    method Deregister(name: string) returns (removed: bool)
      modifies this
      ensures removed <==> name in old(services)
      ensures services == old(services) - {name}
      ensures healthChecks == if removed then old(healthChecks) - {name} else old(healthChecks)
    {
      if name in services {
        services := services - {name};
        healthChecks := healthChecks - {name};
        return true;
      }
      removed := false;
    }

    /** `discover`: the service iff it is registered and healthy. */
    function Discover(name: string): (r: Option<ServiceInfo>)
      reads this
      ensures r.Some? <==> name in services && services[name].status == Healthy
      ensures r.Some? ==> r.value == services[name]
    {
      if name in services && services[name].status == Healthy then Some(services[name]) else None
    }

    /** `update_heartbeat`: records `now` for a registered service; unknown
        names are ignored. */
    method UpdateHeartbeat(name: string, now: int)
      modifies this
      ensures name in old(services) ==> services == old(services)[name := old(services)[name].(lastHeartbeat := now)]
      ensures name !in old(services) ==> services == old(services)
      ensures healthChecks == old(healthChecks)
    {
      if name in services {
        services := services[name := services[name].(lastHeartbeat := now)];
      }
    }

    /** `mark_unhealthy`: unknown names are ignored. */
    method MarkUnhealthy(name: string)
      modifies this
      ensures name in old(services) ==> services == old(services)[name := old(services)[name].(status := Unhealthy)]
      ensures name !in old(services) ==> services == old(services)
      ensures healthChecks == old(healthChecks)
    {
      if name in services {
        services := services[name := services[name].(status := Unhealthy)];
      }
    }

    /** `cleanup_stale_services`: marks unhealthy exactly the services whose
        heartbeat is older than `timeout`; none is removed and nothing else
        changes. */
    method CleanupStaleServices(now: int, timeout: int)
      modifies this
      ensures services.Keys == old(services).Keys && healthChecks == old(healthChecks)
      ensures forall n :: n in services ==>
                services[n] == if Stale(old(services)[n], now, timeout)
                               then old(services)[n].(status := Unhealthy)
                               else old(services)[n]
    {
      var pending := services.Keys;
      while pending != {}
        invariant pending <= services.Keys && services.Keys == old(services).Keys
        invariant healthChecks == old(healthChecks)
        invariant forall n :: n in services ==>
                    services[n] == if n !in pending && Stale(old(services)[n], now, timeout)
                                   then old(services)[n].(status := Unhealthy)
                                   else old(services)[n]
        decreases |pending|
      {
        var name :| name in pending;
        if now - services[name].lastHeartbeat > timeout {
          MarkUnhealthy(name);
        }
        pending := pending - {name};
      }
    }
  }

  /** A cleanup never makes a fresh service undiscoverable: a healthy service
      whose heartbeat is within the timeout is still discovered afterwards,
      and a stale one no longer is. */
  lemma CleanupDiscovery(before: map<string, ServiceInfo>, after: map<string, ServiceInfo>,
                         now: int, timeout: int, name: string)
    requires after.Keys == before.Keys
    requires forall n :: n in after ==>
               after[n] == if Stale(before[n], now, timeout) then before[n].(status := Unhealthy) else before[n]
    requires name in before
    ensures after[name].status == Healthy <==> before[name].status == Healthy && !Stale(before[name], now, timeout)
  {
  }

  /** The `result` of a successful call. */
  datatype CallResult = CallResult(service: string, endpoint: string, timestamp: int)

  /** A gateway route. */
  datatype Route = Route(serviceName: string, serviceEndpoint: string)

  /** `handle_request`'s answer: a status and either data or an error. */
  datatype Response = Response(status: int, data: Option<CallResult>, error: Option<string>)

  /** `str(None)` raised: `raise last_error` with no attempt made. */
  const NoAttemptError := "exceptions must derive from BaseException"

  /** The index of the first successful attempt below `n`, if any. */
  function FirstSuccessful(succeeds: nat -> bool, n: nat): (r: Option<nat>)
    ensures r.Some? ==> r.value < n && succeeds(r.value) && forall i :: 0 <= i < r.value ==> !succeeds(i)
    ensures r.None? ==> forall i :: 0 <= i < n ==> !succeeds(i)
  {
    if n == 0 then None
    else
      var prior := FirstSuccessful(succeeds, n - 1);
      if prior.Some? then prior else if succeeds(n - 1) then Some(n - 1) else None
  }

  /** `APIGateway` with its `ServiceClient`. */
  class APIGateway {
    const registry: ServiceRegistry
    var routes: map<string, Route>

    constructor(registry: ServiceRegistry)
      ensures this.registry == registry && routes == map[]
    {
      this.registry := registry;
      routes := map[];
    }

    /** `register_route`. */
    method RegisterRoute(path: string, serviceName: string, serviceEndpoint: string)
      modifies this
      ensures routes == old(routes)[path := Route(serviceName, serviceEndpoint)]
    {
      routes := routes[path := Route(serviceName, serviceEndpoint)];
    }

    /** `ServiceClient.call`: an undiscoverable service is an error, and so
        is a simulated failure. */
    method Call(serviceName: string, endpoint: string, succeeds: bool, now: int) returns (r: Result<CallResult>)
      ensures registry.Discover(serviceName).None? ==> r == Err("Service " + serviceName + " not found or unhealthy")
      ensures registry.Discover(serviceName).Some? ==>
                r == if succeeds then Ok(CallResult(serviceName, endpoint, now))
                     else Err("Service " + serviceName + " call failed")
    {
      var service := registry.Discover(serviceName);
      if service.None? {
        return Err("Service " + serviceName + " not found or unhealthy");
      }
      if succeeds {
        return Ok(CallResult(serviceName, endpoint, now));
      }
      r := Err("Service " + serviceName + " call failed");
    }

    /** `ServiceClient.call_with_retry`: up to `maxRetries` calls, returning
        the first success or re-raising the last error. A negative count
        makes no call, like 0. */
    method CallWithRetry(serviceName: string, endpoint: string, maxRetries: int, succeeds: nat -> bool, now: int)
      returns (r: Result<CallResult>)
      ensures maxRetries <= 0 ==> r == Err(NoAttemptError)
      ensures maxRetries > 0 && registry.Discover(serviceName).None? ==>
                r == Err("Service " + serviceName + " not found or unhealthy")
      ensures maxRetries > 0 && registry.Discover(serviceName).Some? ==>
                r == if FirstSuccessful(succeeds, maxRetries).Some? then Ok(CallResult(serviceName, endpoint, now))
                     else Err("Service " + serviceName + " call failed")
    {
      var lastError: Option<string> := None;
      var attempt := 0;
      while attempt < maxRetries
        invariant 0 <= attempt <= Max(0, maxRetries)
        invariant FirstSuccessful(succeeds, attempt).None? || registry.Discover(serviceName).None?
        invariant attempt == 0 <==> lastError.None?
        invariant attempt > 0 ==> lastError == Some(
                    if registry.Discover(serviceName).None? then "Service " + serviceName + " not found or unhealthy"
                    else "Service " + serviceName + " call failed")
      {
        var result := Call(serviceName, endpoint, succeeds(attempt), now);
        if result.Ok? {
          assert FirstSuccessful(succeeds, attempt + 1) == Some(attempt);
          assert FirstSuccessful(succeeds, maxRetries).Some?;
          return result;
        }
        lastError := Some(result.message);
        attempt := attempt + 1;
      }
      r := Err(if lastError.Some? then lastError.value else NoAttemptError);
    }

    /** `handle_request`: 404 for an unknown path, 200 with the call's result,
        503 with the error once the retries are exhausted. */
    method HandleRequest(path: string, succeeds: nat -> bool, now: int) returns (resp: Response)
      ensures path !in routes ==> resp == Response(404, None, Some("Route not found"))
      ensures path in routes ==> resp.status == 200 || resp.status == 503
      ensures path in routes ==>
                (resp.status == 200 <==>
                   registry.Discover(routes[path].serviceName).Some? && FirstSuccessful(succeeds, 3).Some?)
    {
      if path !in routes {
        return Response(404, None, Some("Route not found"));
      }
      var route := routes[path];
      var result := CallWithRetry(route.serviceName, route.serviceEndpoint, 3, succeeds, now);
      if result.Ok? {
        return Response(200, Some(result.value), None);
      }
      resp := Response(503, None, Some(result.message));
    }
  }
}
