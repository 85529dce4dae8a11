/** The coordinator (coordinator.py): when it acts, what it tells nginx, and what it publishes. */
module Coordinator {
  import opened Prelude
  import opened Text
  import opened Urls
  import opened Nginx
  import opened Cluster
  import opened Roles
  import opened WorkerTelemetry
  import opened Routing

  // ----- the gates

  datatype S3Relation = S3Relation(app: Option<string>, data: map<string, string>)

  /** `get_s3_connection_info`: the data of the first relation whose application is known. */
  function S3ConnectionInfo(relations: seq<S3Relation>): map<string, string> {
    if |relations| == 0 then map[]
    else if relations[0].app.Some? then relations[0].data
    else S3ConnectionInfo(relations[1..])
  }

  /** The required fields of the S3 connection model, under their alias or their own name. */
  predicate S3Valid(info: map<string, string>) {
    && "endpoint" in info && "bucket" in info
    && ("access-key" in info || "access_key" in info)
    && ("secret-key" in info || "secret_key" in info)
  }

  predicate S3Ready(relations: seq<S3Relation>) {
    S3Valid(S3ConnectionInfo(relations))
  }

  /**
   When S3 is ready: the first relation whose application is known has an endpoint, a bucket and both
   keys, each key under either spelling.
   */
  lemma S3ReadyIff(s3: seq<S3Relation>)
    ensures S3Ready(s3) <==> exists i :: FirstKnown(s3, i) && Complete(s3[i].data.Keys)
  {
    ConnectionInfoIsFirstKnown(s3);
    if i :| FirstKnown(s3, i) {
      assert forall j :: FirstKnown(s3, j) ==> j == i;
      var keys := s3[i].data.Keys;
      assert keys * {"access-key", "access_key"} != {} <==> "access-key" in keys || "access_key" in keys by {
        assert forall k :: k in keys * {"access-key", "access_key"} <==> k in keys && (k == "access-key" || k == "access_key");
      }
      assert keys * {"secret-key", "secret_key"} != {} <==> "secret-key" in keys || "secret_key" in keys by {
        assert forall k :: k in keys * {"secret-key", "secret_key"} <==> k in keys && (k == "secret-key" || k == "secret_key");
      }
    }
  }

  /** The fields that the connection model cannot do without. */
  predicate Complete(fields: set<string>) {
    && {"endpoint", "bucket"} <= fields
    && fields * {"access-key", "access_key"} != {}
    && fields * {"secret-key", "secret_key"} != {}
  }

  ghost predicate FirstKnown(s3: seq<S3Relation>, i: int) {
    0 <= i < |s3| && s3[i].app.Some? && forall j :: 0 <= j < i ==> s3[j].app.None?
  }

  lemma {:induction false} ConnectionInfoIsFirstKnown(s3: seq<S3Relation>)
    ensures forall i :: FirstKnown(s3, i) ==> S3ConnectionInfo(s3) == s3[i].data
    ensures (forall i :: !FirstKnown(s3, i)) ==> S3ConnectionInfo(s3) == map[]
  {
    if |s3| == 0 {
    } else if s3[0].app.Some? {
      assert FirstKnown(s3, 0);
    } else {
      ConnectionInfoIsFirstKnown(s3[1..]);
      assert forall i :: FirstKnown(s3, i) ==> FirstKnown(s3[1..], i - 1);
      assert forall i :: FirstKnown(s3[1..], i) ==> FirstKnown(s3, i + 1);
    }
  }

  /** A custom coherence checker sees the relations; None selects the default one. */
  type Checker = Option<seq<Relation> -> bool>

  predicate IsCoherent(config: RolesConfig, checker: Checker, relations: seq<Relation>) {
    if checker.Some? then checker.value(relations) else Coherent(config, relations)
  }

  predicate CanHandleEvents(config: RolesConfig, checker: Checker, relations: seq<Relation>, s3: seq<S3Relation>) {
    |relations| > 0 && IsCoherent(config, checker, relations) && S3Ready(s3)
  }

  datatype UnitStatus =
    | NoWorkerRelation
    | Inconsistent
    | S3Missing
    | S3NotReady
    | Active

  /** Decides, in the constructor, whether the reconciler is registered for this dispatch. */
  method RegistersReconciler(config: RolesConfig, checker: Checker, relations: seq<Relation>, s3: seq<S3Relation>)
    returns (registered: bool)
    ensures registered <==> CanHandleEvents(config, checker, relations, s3)
    ensures registered <==> relations != [] && S3Ready(s3) && (checker.Some? ==> checker.value(relations))
                            && (checker.None? ==> AllProvided(config, relations))
  {
    hide S3Ready, Provides;
    CoherentIff(config, relations);
    if |relations| == 0 {
      return false;
    }
    if !IsCoherent(config, checker, relations) {
      return false;
    }
    if |relations| > 0 && !S3Ready(s3) {
      return false;
    }
    return true;
  }

  lemma S3ReadyNeedsRelation(s3: seq<S3Relation>)
    requires S3Ready(s3)
    ensures |s3| > 0
  {
  }

  /** `_on_collect_unit_status`: active exactly when the coordinator handles events. */
  method CollectUnitStatus(config: RolesConfig, checker: Checker, relations: seq<Relation>, s3: seq<S3Relation>)
    returns (statuses: seq<UnitStatus>)
    ensures |statuses| > 0
    ensures statuses == [Active] <==> CanHandleEvents(config, checker, relations, s3)
    ensures Active in statuses ==> statuses == [Active]
    ensures statuses == [Active] && checker.None? ==> config.MissingRoles(relations) == {}
    ensures NoWorkerRelation in statuses <==> |relations| == 0
    ensures Inconsistent in statuses <==> |relations| > 0 && !IsCoherent(config, checker, relations)
    ensures S3Missing in statuses <==> |s3| == 0
    ensures S3NotReady in statuses <==> |s3| > 0 && !S3Ready(s3)
  {
    statuses := [];
    if S3Ready(s3) {
      S3ReadyNeedsRelation(s3);
    }
    if |relations| == 0 {
      statuses := statuses + [NoWorkerRelation];
    } else if !IsCoherent(config, checker, relations) {
      statuses := statuses + [Inconsistent];
    }
    if |s3| == 0 {
      statuses := statuses + [S3Missing];
    } else if !S3Ready(s3) {
      statuses := statuses + [S3NotReady];
    }
    if |statuses| == 0 {
      statuses := statuses + [Active];
    } else {
      assert statuses[0] != Active;
    }
  }

  // ----- the Loki endpoints behind the logging relations

  /** A unit of a logging relation and the endpoint it has published, if any. */
  datatype LokiUnit = LokiUnit(name: string, endpoint: Option<string>)

  /** The endpoints by unit, as a dict filled in order. */
  function EndpointsOf(units: seq<LokiUnit>): (r: Items)
    ensures NoDup(Keys(r))
  {
    if |units| == 0 then []
    else
      var last := units[|units| - 1];
      var earlier := EndpointsOf(units[..|units| - 1]);
      if last.endpoint.Some? then Put(earlier, last.name, last.endpoint.value) else earlier
  }

  /** Unit `i` has an endpoint, and no later entry of that unit has one. */
  predicate LastEndpoint(units: seq<LokiUnit>, i: int) {
    && 0 <= i < |units| && units[i].endpoint.Some?
    && forall j :: i < j < |units| && units[j].name == units[i].name ==> units[j].endpoint.None?
  }

  /** A unit is listed with exactly the last endpoint it has published. */
  lemma {:induction false} LastEndpointCounts(units: seq<LokiUnit>, name: string, url: string)
    ensures (name, url) in EndpointsOf(units) <==>
      exists i :: LastEndpoint(units, i) && units[i] == LokiUnit(name, Some(url))
  {
    if |units| == 0 {
    } else {
      var n := |units| - 1;
      var init := units[..n];
      LastEndpointCounts(init, name, url);
      forall i ensures LastEndpoint(units, i) <==>
        if i == n then units[n].endpoint.Some?
        else LastEndpoint(init, i) && (units[n].name == units[i].name ==> units[n].endpoint.None?)
      {
      }
    }
  }

  lemma EndpointsOfNext(units: seq<LokiUnit>, unit: LokiUnit)
    ensures EndpointsOf(units + [unit])
         == if unit.endpoint.Some? then Put(EndpointsOf(units), unit.name, unit.endpoint.value) else EndpointsOf(units)
  {
    hide Put, NoDup;
    assert (units + [unit])[..|units|] == units;
  }

  lemma FlattenNext<T>(parts: seq<seq<T>>, r: nat)
    requires r < |parts|
    ensures Flatten(parts[..r + 1]) == Flatten(parts[..r]) + parts[r]
  {
    assert parts[..r + 1][..r] == parts[..r];
  }

  /** The units of one logging relation, as the inner loop below. */
  method AddEndpoints(endpoints: Items, units: seq<LokiUnit>, ghost before: seq<LokiUnit>) returns (r: Items)
    requires endpoints == EndpointsOf(before)
    ensures r == EndpointsOf(before + units)
  {
    hide Put, NoDup, EndpointsOf;
    r := endpoints;
    assert before + units[..0] == before;
    for i := 0 to |units|
      invariant r == EndpointsOf(before + units[..i])
    {
      EndpointsOfNext(before + units[..i], units[i]);
      assert before + units[..i + 1] == before + units[..i] + [units[i]];
      if units[i].endpoint.Some? {
        r := Put(r, units[i].name, units[i].endpoint.value);
      }
    }
    assert units[..|units|] == units;
  }

  /** `_upstream_loki_endpoints_by_unit`; the units of a relation come in name order. */
  method UpstreamLokiEndpointsByUnit(relations: seq<seq<LokiUnit>>) returns (endpoints: Items)
    ensures endpoints == EndpointsOf(Flatten(relations))
  {
    endpoints := [];
    for r := 0 to |relations|
      invariant endpoints == EndpointsOf(Flatten(relations[..r]))
    {
      FlattenNext(relations, r);
      endpoints := AddEndpoints(endpoints, relations[r], Flatten(relations[..r]));
    }
    assert relations[..|relations|] == relations;
  }

  ghost function Flatten<T>(parts: seq<seq<T>>): seq<T> {
    if |parts| == 0 then [] else Flatten(parts[..|parts| - 1]) + parts[|parts| - 1]
  }

  // ----- scrape jobs

  /** A Prometheus job for one worker unit. */
  datatype ScrapeJob = ScrapeJob(metricsPath: string, target: string, https: bool, worker: WorkerUnit)

  /** `_workers_scrape_jobs`. */
  method WorkersScrapeJobs(topology: seq<WorkerUnit>, hostname: string, proxyPort: Option<nat>, setup: Setup)
    returns (jobs: seq<ScrapeJob>)
    ensures |jobs| == |topology|
    ensures forall i :: 0 <= i < |jobs| ==> jobs[i].worker == topology[i] && jobs[i].https == setup.tls
    ensures proxyPort.Some? && proxyPort.value > 0 ==> forall i :: 0 <= i < |jobs| ==>
      jobs[i].metricsPath == "/proxy/worker/" + Replace(topology[i].unit, '/', '-') + "/metrics"
      && jobs[i].target == hostname + ":" + Decimal(proxyPort.value)
    ensures proxyPort.None? || proxyPort.value == 0 ==> forall i :: 0 <= i < |jobs| ==>
      jobs[i].metricsPath == "/metrics" && jobs[i].target == topology[i].address + ":" + Decimal(setup.metricsPort)
  {
    jobs := [];
    for i := 0 to |topology|
      invariant |jobs| == i
      invariant forall j :: 0 <= j < i ==> jobs[j] == JobFor(topology[j], hostname, proxyPort, setup)
    {
      jobs := jobs + [JobFor(topology[i], hostname, proxyPort, setup)];
    }
  }

  function JobFor(worker: WorkerUnit, hostname: string, proxyPort: Option<nat>, setup: Setup): ScrapeJob {
    if ProxyEnabled(proxyPort) then
      ScrapeJob(MetricsPath(Sanitized(worker.unit)), hostname + ":" + Decimal(proxyPort.value), setup.tls, worker)
    else
      ScrapeJob("/metrics", worker.address + ":" + Decimal(setup.metricsPort), setup.tls, worker)
  }

  /** A port of zero counts as none. */
  predicate ProxyEnabled(port: Option<nat>) {
    port.Some? && port.value != 0
  }

  // ----- building the nginx configuration

  /** A Python list: an object that others may hold and change. */
  class List<T> {
    var items: seq<T>

    constructor (items: seq<T>)
      ensures this.items == items
    {
      this.items := items;
    }

    method Extend(more: seq<T>)
      modifies this
      ensures items == old(items) + more
    {
      items := items + more;
    }
  }

  class NginxConfig {
    const serverName: string
    const upstreams: List<Upstream>
    const ports: map<nat, List<Location>>

    constructor (serverName: string, upstreams: List<Upstream>, ports: map<nat, List<Location>>)
      ensures this.serverName == serverName && this.upstreams == upstreams && this.ports == ports
    {
      this.serverName, this.upstreams, this.ports := serverName, upstreams, ports;
    }
  }

  /** What the telemetry proxy contributes in a dispatch: nothing, a failure, or its parts. */
  function TelemetryParts(proxyPort: Option<nat>, e: Endpoints, protocols: seq<string>, setup: Setup)
    : Result<Option<(AddressTable, NginxParts)>, TelemetryError>
  {
    if |e.topology| == 0 || !ProxyEnabled(proxyPort) then Ok(None)
    else
      var table :- TableFor(UnitAddresses(e.topology), e, setup);
      var parts :- NginxConfigFor(e, protocols, setup);
      Ok(Some((table, parts)))
  }

  class Coordinator {
    const charmConfig: NginxConfig
    const proxyPort: Option<nat>
    var upstreamsToAddresses: AddressTable

    constructor (charmConfig: NginxConfig, proxyPort: Option<nat>, roleAddresses: AddressTable)
      ensures this.charmConfig == charmConfig && this.proxyPort == proxyPort
      ensures upstreamsToAddresses == roleAddresses
    {
      this.charmConfig, this.proxyPort, upstreamsToAddresses := charmConfig, proxyPort, roleAddresses;
    }

    /**
     `_build_nginx_config`. The charm's lists are only read: the frame allows no change to them,
     so however often this is called within a dispatch the charm's configuration stays as it is
     and every call returns the same contents, the charm's locations first.
     */
    method BuildNginxConfig(e: Endpoints, protocols: seq<string>, setup: Setup)
      returns (r: Result<NginxConfig, TelemetryError>)
      modifies this`upstreamsToAddresses
      ensures r.Err? <==> TelemetryParts(proxyPort, e, protocols, setup).Err?
      ensures r.Err? ==> upstreamsToAddresses == old(upstreamsToAddresses)
      ensures r.Ok? ==> fresh(r.value) && fresh(r.value.upstreams) && r.value.serverName == charmConfig.serverName
      ensures r.Ok? ==> var parts := TelemetryParts(proxyPort, e, protocols, setup).value;
        if parts.None? then
          && r.value.upstreams.items == charmConfig.upstreams.items
          && r.value.ports == charmConfig.ports
          && upstreamsToAddresses == old(upstreamsToAddresses)
        else
          && r.value.upstreams.items == charmConfig.upstreams.items + parts.value.1.0
          && r.value.ports.Keys == charmConfig.ports.Keys + {proxyPort.value}
          && (forall port :: port in charmConfig.ports && port != proxyPort.value ==>
                r.value.ports[port] == charmConfig.ports[port])
          && fresh(r.value.ports[proxyPort.value])
          && r.value.ports[proxyPort.value].items
             == (if proxyPort.value in charmConfig.ports then charmConfig.ports[proxyPort.value].items else []) + parts.value.1.1
          && upstreamsToAddresses == old(upstreamsToAddresses) + parts.value.0
    {
      hide TableFor, NginxConfigFor, UnitAddresses;
      var upstreams := new List<Upstream>(charmConfig.upstreams.items);
      var ports := charmConfig.ports;
      if |e.topology| > 0 && ProxyEnabled(proxyPort) {
        var table := GetUpstreamsToAddresses(UnitAddresses(e.topology), e, setup);
        if table.Err? {
          return Err(table.error);
        }
        var parts := GetNginxUpstreamsAndLocations(e, protocols, setup);
        if parts.Err? {
          return Err(parts.error);
        }
        upstreamsToAddresses := upstreamsToAddresses + table.value;
        upstreams.Extend(parts.value.0);
        var port := proxyPort.value;
        var locations: List<Location>;
        if port in ports {
          locations := new List<Location>(ports[port].items + parts.value.1);
        } else {
          locations := new List<Location>(parts.value.1);
        }
        ports := ports[port := locations];
      }
      var config := new NginxConfig(charmConfig.serverName, upstreams, ports);
      return Ok(config);
    }
  }

  /** The address table after `n` builds in one dispatch. */
  function TableAfterBuilds(roles: AddressTable, telemetry: AddressTable, n: nat): AddressTable {
    if n == 0 then roles else TableAfterBuilds(roles, telemetry, n - 1) + telemetry
  }

  /**
   Building again changes nothing, and a role keeps its addresses unless it is named like the
   lookup key of a telemetry upstream with other addresses.
   */
  lemma {:induction false} BuildsDoNotAccumulate(roles: AddressTable, telemetry: AddressTable, n: nat)
    ensures TableAfterBuilds(roles, telemetry, n + 1) == roles + telemetry
    ensures forall role :: role in roles ==>
      (TableAfterBuilds(roles, telemetry, n + 1)[role] == roles[role]
       <==> role !in telemetry || telemetry[role] == roles[role])
  {
    if n == 0 {
      assert TableAfterBuilds(roles, telemetry, 0) == roles;
    } else {
      BuildsDoNotAccumulate(roles, telemetry, n - 1);
    }
  }

  /** The locations of a configuration at a port, none if it does not listen there. */
  function LocationsAt(config: NginxConfig, port: nat): seq<Location>
    reads if port in config.ports then {config.ports[port]} else {}
  {
    if port in config.ports then config.ports[port].items else []
  }

  /**
   Any number of builds in one dispatch. All results have the same upstreams and the same locations
   at every port, the charm's first; the charm's own lists still hold what they held; and the address
   table is what a single build leaves. If a build fails, the first one does, and nothing has changed.
   */
  method BuildRepeatedly(coordinator: Coordinator, n: nat, e: Endpoints, protocols: seq<string>, setup: Setup)
    returns (r: Result<seq<NginxConfig>, TelemetryError>)
    modifies coordinator`upstreamsToAddresses
    ensures r.Err? <==> n > 0 && TelemetryParts(coordinator.proxyPort, e, protocols, setup).Err?
    ensures coordinator.charmConfig.upstreams.items == old(coordinator.charmConfig.upstreams.items)
    ensures forall port :: port in coordinator.charmConfig.ports ==>
      coordinator.charmConfig.ports[port].items == old(coordinator.charmConfig.ports[port].items)
    ensures r.Ok? ==> |r.value| == n && forall k :: 0 <= k < n ==> BuiltFrom(r.value[k], coordinator, e, protocols, setup)
    ensures coordinator.upstreamsToAddresses
         == if r.Err? || n == 0 then old(coordinator.upstreamsToAddresses)
            else old(coordinator.upstreamsToAddresses) + TelemetryTable(coordinator.proxyPort, e, protocols, setup)
  {
    hide TelemetryParts;
    ghost var table := TelemetryTable(coordinator.proxyPort, e, protocols, setup);
    ghost var roles := coordinator.upstreamsToAddresses;
    PartsNeedPort(coordinator.proxyPort, e, protocols, setup);
    var configs: seq<NginxConfig> := [];
    for k := 0 to n
      invariant |configs| == k
      invariant k > 0 ==> TelemetryParts(coordinator.proxyPort, e, protocols, setup).Ok?
      invariant forall j :: 0 <= j < k ==> BuiltFrom(configs[j], coordinator, e, protocols, setup)
      invariant coordinator.upstreamsToAddresses == TableAfterBuilds(roles, table, k)
    {
      var config := coordinator.BuildNginxConfig(e, protocols, setup);
      if config.Err? {
        return Err(config.error);
      }
      assert BuiltFrom(config.value, coordinator, e, protocols, setup);
      configs := configs + [config.value];
    }
    if n > 0 {
      BuildsDoNotAccumulate(roles, table, n - 1);
    }
    return Ok(configs);
  }

  /** What the telemetry proxy adds to the address table. */
  function TelemetryTable(proxyPort: Option<nat>, e: Endpoints, protocols: seq<string>, setup: Setup): AddressTable {
    var parts := TelemetryParts(proxyPort, e, protocols, setup);
    if parts.Ok? && parts.value.Some? then parts.value.value.0 else map[]
  }

  /** The configuration has the charm's parts followed by the telemetry parts. */
  ghost predicate BuiltFrom(config: NginxConfig, coordinator: Coordinator, e: Endpoints, protocols: seq<string>, setup: Setup)
    reads config.upstreams, coordinator.charmConfig.upstreams, config.ports.Values, coordinator.charmConfig.ports.Values
  {
    var charm, parts := coordinator.charmConfig, TelemetryParts(coordinator.proxyPort, e, protocols, setup);
    && parts.Ok?
    && config.serverName == charm.serverName
    && config.upstreams.items == charm.upstreams.items + (if parts.value.None? then [] else parts.value.value.1.0)
    && config.ports.Keys == charm.ports.Keys + (if parts.value.None? then {} else {coordinator.proxyPort.value})
    && forall port :: LocationsAt(config, port) == LocationsAt(charm, port) + AddedAt(parts.value, coordinator.proxyPort, port)
  }

  lemma PartsNeedPort(proxyPort: Option<nat>, e: Endpoints, protocols: seq<string>, setup: Setup)
    ensures TelemetryParts(proxyPort, e, protocols, setup).Ok? && TelemetryParts(proxyPort, e, protocols, setup).value.Some?
      ==> proxyPort.Some?
  {
  }

  function AddedAt(parts: Option<(AddressTable, NginxParts)>, proxyPort: Option<nat>, port: nat): seq<Location> {
    if parts.Some? && proxyPort == Some(port) then parts.value.1.1 else []
  }

  // ----- the built configuration routes

  lemma SpecsOfAppend(a: seq<Source>, b: seq<Source>, setup: Setup)
    requires SpecsOf(a, setup).Ok? && SpecsOf(b, setup).Ok?
    ensures SpecsOf(a + b, setup) == Ok(SpecsOf(a, setup).value + SpecsOf(b, setup).value)
  {
    hide SpecOf, SpecsOf;
    var ab := a + b;
    assert forall i :: 0 <= i < |ab| ==> ab[i] == if i < |a| then a[i] else b[i - |a|];
    var specs, both := SpecsOf(ab, setup).value, SpecsOf(a, setup).value + SpecsOf(b, setup).value;
    forall i | 0 <= i < |ab| ensures specs[i] == both[i] {
      assert SpecOf(ab[i], setup) == Ok(specs[i]);
    }
    assert specs == both;
  }

  lemma FourParts(e: Endpoints, protocols: seq<string>, setup: Setup)
    returns (w: seq<Spec>, l: seq<Spec>, r: seq<Spec>, t: seq<Spec>)
    requires NginxConfigFor(e, protocols, setup).Ok?
    ensures SpecsOf(WorkerSources(e.topology), setup) == Ok(w)
    ensures SpecsOf(LokiSources(e.loki), setup) == Ok(l)
    ensures SpecsOf(RemoteWriteSources(e.remoteWrite), setup) == Ok(r)
    ensures SpecsOf(TracingSources(e.charmTracing, e.workloadTracing), setup) == Ok(t)
    ensures SpecsOf(AllSources(e), setup) == Ok(w + l + r + t)
    ensures NginxConfigFor(e, protocols, setup).value
         == (UpstreamsOf(w) + UpstreamsOf(l) + UpstreamsOf(r) + UpstreamsOf(t),
             LocationsOf(w) + LocationsOf(l) + LocationsOf(r) + LocationsOf(t))
  {
    hide SpecsOf, UpstreamsOf, LocationsOf, WorkerSources, LokiSources, RemoteWriteSources, TracingSources;
    w := SpecsOf(WorkerSources(e.topology), setup).value;
    l := SpecsOf(LokiSources(e.loki), setup).value;
    r := SpecsOf(RemoteWriteSources(e.remoteWrite), setup).value;
    t := SpecsOf(TracingSources(e.charmTracing, e.workloadTracing), setup).value;
    var ws, ls := WorkerSources(e.topology), LokiSources(e.loki);
    var rs, ts := RemoteWriteSources(e.remoteWrite), TracingSources(e.charmTracing, e.workloadTracing);
    SpecsOfAppend(ws, ls, setup);
    SpecsOfAppend(ws + ls, rs, setup);
    SpecsOfAppend(ws + ls + rs, ts, setup);
  }

  lemma NoDupParts<T>(a: seq<T>, b: seq<T>)
    requires NoDup(a + b)
    ensures NoDup(a) && NoDup(b)
  {
    NoDupConcat(a, b);
  }

  lemma LocationsOfAppend(a: seq<Spec>, b: seq<Spec>)
    ensures LocationsOf(a + b) == LocationsOf(a) + LocationsOf(b)
  {
    hide LocationOf;
  }

  lemma FourLocations(w: seq<Spec>, l: seq<Spec>, r: seq<Spec>, t: seq<Spec>)
    ensures LocationsOf(w + l + r + t) == LocationsOf(w) + LocationsOf(l) + LocationsOf(r) + LocationsOf(t)
  {
    LocationsOfAppend(w, l);
    LocationsOfAppend(w + l, r);
    LocationsOfAppend(w + l + r, t);
  }

  lemma PartsInOrder(w: seq<Spec>, l: seq<Spec>, r: seq<Spec>, t: seq<Spec>)
    requires NoDup(Names(w + l + r + t))
    ensures UpstreamsOf(w) + UpstreamsOf(l) + UpstreamsOf(r) + UpstreamsOf(t) == UpstreamList(w + l + r + t)
    ensures LocationsOf(w) + LocationsOf(l) + LocationsOf(r) + LocationsOf(t) == LocationsOf(w + l + r + t)
  {
    hide UpstreamsOf, NoDup, UpstreamOf, LocationsOf;
    assert UpstreamList(w + l + r + t) == UpstreamList(w) + UpstreamList(l) + UpstreamList(r) + UpstreamList(t);
    FourLocations(w, l, r, t);
    assert Names(w + l + r + t) == Names(w) + Names(l) + Names(r) + Names(t);
    NoDupParts(Names(w) + Names(l) + Names(r), Names(t));
    NoDupParts(Names(w) + Names(l), Names(r));
    NoDupParts(Names(w), Names(l));
    UpstreamsOfDistinct(w);
    UpstreamsOfDistinct(l);
    UpstreamsOfDistinct(r);
    UpstreamsOfDistinct(t);
  }

  /** The configuration that the coordinator builds is one to which the routing theorem applies. */
  lemma CoordinatorBuilds(e: Endpoints, protocols: seq<string>, setup: Setup, charmUpstreams: seq<Upstream>,
                          charmLocations: seq<Location>, roles: AddressTable)
    requires NginxConfigFor(e, protocols, setup).Ok? && TableFor(UnitAddresses(e.topology), e, setup).Ok?
    requires LeavesProxyAlone(charmUpstreams, charmLocations)
    requires SpecsOf(AllSources(e), setup).Ok? ==> NoDup(Names(SpecsOf(AllSources(e), setup).value))
    ensures var parts := NginxConfigFor(e, protocols, setup).value;
            Built(Proxy(charmUpstreams + parts.0, charmLocations + parts.1,
                        roles + TableFor(UnitAddresses(e.topology), e, setup).value, setup.tls),
                  AllSources(e), setup, charmUpstreams, charmLocations, roles)
  {
    hide NginxConfigFor, TableFor, SpecsOf, UnitAddresses, AllSources, LeavesProxyAlone, UpstreamsOf, NoDup, TableFrom;
    hide UpstreamList, LocationsOf, Names, WorkerSources, LokiSources, RemoteWriteSources, TracingSources;
    var w, l, r, t := FourParts(e, protocols, setup);
    PartsInOrder(w, l, r, t);
    TableForAllSources(e, setup);
  }
}
