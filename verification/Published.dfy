/** What the coordinator publishes to the workers against what its nginx serves in the same dispatch. */
module Published {
  import opened Prelude
  import opened Text
  import opened Urls
  import opened Nginx
  import opened Cluster
  import opened Roles
  import opened WorkerTelemetry
  import opened Routing
  import opened Coordinator

  /** A relation that is published to contributes to the topology. */
  lemma ReadyRelationHasTopology(relations: seq<Relation>, rel: Relation, isLeader: bool)
    requires rel in relations && RemoteDataReady(rel, isLeader)
    ensures |Topology(relations)| > 0
  {
    var u := rel.units[0];
    assert u in rel.units;
    TopologyMembers(relations, u.1.value);
  }

  lemma LocationsInOrder(e: Endpoints, protocols: seq<string>, setup: Setup) returns (specs: seq<Spec>)
    requires NginxConfigFor(e, protocols, setup).Ok?
    ensures SpecsOf(AllSources(e), setup) == Ok(specs)
    ensures NginxConfigFor(e, protocols, setup).value.1 == LocationsOf(specs)
  {
    hide NginxConfigFor, SpecsOf, AllSources, UpstreamsOf, LocationsOf;
    var w, l, r, t := FourParts(e, protocols, setup);
    specs := w + l + r + t;
    FourLocations(w, l, r, t);
  }

  lemma LocationsMatch(sources: seq<Source>, setup: Setup, specs: seq<Spec>, path: string)
    requires SpecsOf(sources, setup) == Ok(specs)
    ensures (exists l :: l in LocationsOf(specs) && l.path == path) <==> exists s :: s in sources && PublishedPath(s, setup) == path
  {
    hide SpecsOf, SpecOf, PublishedPath;
    var locations := LocationsOf(specs);
    forall i | 0 <= i < |specs|
      ensures locations[i].path == PublishedPath(sources[i], setup)
    {
      SpecShape(sources[i], setup);
    }
    if l :| l in locations && l.path == path {
      var i :| 0 <= i < |locations| && locations[i] == l;
      assert sources[i] in sources && PublishedPath(sources[i], setup) == path;
    }
    if s :| s in sources && PublishedPath(s, setup) == path {
      var i :| 0 <= i < |sources| && sources[i] == s;
      assert locations[i] in locations && locations[i].path == path;
    }
  }

  /** Every location stems from an endpoint, and every endpoint has its location. */
  lemma LocationsServeEndpoints(e: Endpoints, protocols: seq<string>, setup: Setup, path: string)
    requires NginxConfigFor(e, protocols, setup).Ok?
    ensures SpecsOf(AllSources(e), setup).Ok?
    ensures (exists l :: l in NginxConfigFor(e, protocols, setup).value.1 && l.path == path)
       <==> exists s :: s in AllSources(e) && PublishedPath(s, setup) == path
  {
    hide NginxConfigFor, SpecsOf, AllSources, PublishedPath;
    var specs := LocationsInOrder(e, protocols, setup);
    LocationsMatch(AllSources(e), setup, specs, path);
  }

  /** `u` is the upstream of one of the specifications. */
  ghost predicate StemsFrom(specs: seq<Spec>, u: Upstream) {
    exists i :: 0 <= i < |specs| && u == UpstreamOf(specs[i])
  }

  lemma StemsAppend(a: seq<Spec>, b: seq<Spec>, u: Upstream)
    requires u in UpstreamsOf(a) || StemsFrom(a, u) || u in UpstreamsOf(b)
    ensures StemsFrom(a + b, u)
  {
    hide UpstreamsOf, UpstreamOf;
    UpstreamsFirstWins(a);
    UpstreamsFirstWins(b);
    if StemsFrom(a, u) {
      var i :| 0 <= i < |a| && u == UpstreamOf(a[i]);
      assert (a + b)[i] == a[i];
    } else {
      var i :| 0 <= i < |b| && u == UpstreamOf(b[i]);
      assert (a + b)[|a| + i] == b[i];
    }
  }

  /** Every upstream stems from an endpoint. */
  lemma UpstreamsServeEndpoints(e: Endpoints, protocols: seq<string>, setup: Setup, u: Upstream)
    requires NginxConfigFor(e, protocols, setup).Ok? && u in NginxConfigFor(e, protocols, setup).value.0
    ensures SpecsOf(AllSources(e), setup).Ok?
    ensures StemsFrom(SpecsOf(AllSources(e), setup).value, u)
  {
    hide NginxConfigFor, SpecsOf, AllSources, UpstreamsOf, UpstreamOf, StemsFrom;
    var w, l, r, t := FourParts(e, protocols, setup);
    if u !in UpstreamsOf(t) {
      if u !in UpstreamsOf(r) {
        StemsAppend(w, l, u);
      }
      StemsAppend(w + l, r, u);
    }
    StemsAppend(w + l + r, t, u);
  }

  /** Some endpoint is entered into the address table under `key`. */
  ghost predicate KeyAssigned(sources: seq<Source>, setup: Setup, key: string) {
    exists j :: 0 <= j < |sources| && AddressOf(sources[j], setup).Ok? && AddressOf(sources[j], setup).value.Some?
      && AddressOf(sources[j], setup).value.value.0 == key
  }

  lemma AssignedKeys(e: Endpoints, setup: Setup, key: string)
    requires TableFor(UnitAddresses(e.topology), e, setup).Ok?
    ensures key in TableFor(UnitAddresses(e.topology), e, setup).value <==> KeyAssigned(AllSources(e), setup, key)
  {
    hide TableFor, UnitAddresses, AllSources, AddressOf;
    TableForAllSources(e, setup);
    TableKeys(map[], AllSources(e), setup, key);
  }

  /** Only tracing receivers whose URL names no host are left out of the address table. */
  lemma HostGivesKey(sources: seq<Source>, setup: Setup, i: nat)
    requires SpecsOf(sources, setup).Ok? && i < |sources|
    ensures (sources[i].Tracing? ==> Parsed(sources[i], setup).hostname.Some?) ==>
      KeyAssigned(sources, setup, SpecsOf(sources, setup).value[i].lookupKey)
  {
    hide SpecOf, AddressOf, Parsed, SpecsOf;
    KeysAgree(sources[i], setup);
  }

  /**
   With workers in the topology and the proxy enabled, nginx has a location for every endpoint. The
   address table has the lookup key of every upstream as long as the URL of every tracing receiver
   names a host.
   */
  lemma WorkersImplyRouted(proxyPort: Option<nat>, e: Endpoints, protocols: seq<string>, setup: Setup)
    requires |e.topology| > 0 && ProxyEnabled(proxyPort)
    requires TelemetryParts(proxyPort, e, protocols, setup).Ok?
    ensures TelemetryParts(proxyPort, e, protocols, setup).value.Some?
    ensures SpecsOf(AllSources(e), setup).Ok?
    ensures var (table, parts) := TelemetryParts(proxyPort, e, protocols, setup).value.value;
            && (forall s :: s in AllSources(e) ==> exists l :: l in parts.1 && l.path == PublishedPath(s, setup))
            && ((forall s :: s in AllSources(e) && s.Tracing? ==> Parsed(s, setup).hostname.Some?) ==>
                  forall u :: u in parts.0 ==> u.addressLookupKey in table)
  {
    hide NginxConfigFor, TableFor, SpecsOf, AllSources, SpecOf, PublishedPath, Parsed, AddressOf, KeyAssigned, UnitAddresses;
    hide StemsFrom, UpstreamOf;
    var (table, parts) := TelemetryParts(proxyPort, e, protocols, setup).value.value;
    LocationsServeEndpoints(e, protocols, setup, "");
    forall s | s in AllSources(e) ensures exists l :: l in parts.1 && l.path == PublishedPath(s, setup) {
      LocationsServeEndpoints(e, protocols, setup, PublishedPath(s, setup));
    }
    if forall s :: s in AllSources(e) && s.Tracing? ==> Parsed(s, setup).hostname.Some? {
      forall u | u in parts.0 ensures u.addressLookupKey in table {
        var i := StemOf(e, protocols, setup, u);
        assert AllSources(e)[i] in AllSources(e);
        HostGivesKey(AllSources(e), setup, i);
        AssignedKeys(e, setup, u.addressLookupKey);
      }
    }
  }

  /** The endpoint that an upstream stems from. */
  lemma StemOf(e: Endpoints, protocols: seq<string>, setup: Setup, u: Upstream) returns (i: nat)
    requires NginxConfigFor(e, protocols, setup).Ok? && u in NginxConfigFor(e, protocols, setup).value.0
    ensures SpecsOf(AllSources(e), setup).Ok?
    ensures i < |AllSources(e)|
    ensures u.name == SpecsOf(AllSources(e), setup).value[i].upstreamName
    ensures u.addressLookupKey == SpecsOf(AllSources(e), setup).value[i].lookupKey
  {
    hide NginxConfigFor, SpecsOf, AllSources;
    UpstreamsServeEndpoints(e, protocols, setup, u);
    var specs := SpecsOf(AllSources(e), setup).value;
    i :| 0 <= i < |specs| && u == UpstreamOf(specs[i]);
  }

  /**
   Published implies routed. If publication reaches any relation then the topology is not empty,
   so the nginx configuration built earlier in the same dispatch has a location for every
   endpoint whose proxy URL is published.
   */
  lemma PublishedImpliesRouted(relations: seq<Relation>, rel: Relation, proxyPort: Option<nat>,
                               e: Endpoints, protocols: seq<string>, setup: Setup)
    requires rel in relations && RemoteDataReady(rel, true)
    requires e.topology == Topology(relations) && ProxyEnabled(proxyPort)
    requires TelemetryParts(proxyPort, e, protocols, setup).Ok?
    ensures TelemetryParts(proxyPort, e, protocols, setup).value.Some?
    ensures SpecsOf(AllSources(e), setup).Ok?
    ensures var (table, parts) := TelemetryParts(proxyPort, e, protocols, setup).value.value;
            && (forall s :: s in AllSources(e) ==> exists l :: l in parts.1 && l.path == PublishedPath(s, setup))
            && ((forall s :: s in AllSources(e) && s.Tracing? ==> Parsed(s, setup).hostname.Some?) ==>
                  forall u :: u in parts.0 ==> u.addressLookupKey in table)
  {
    hide TelemetryParts, SpecsOf, AllSources, PublishedPath, Parsed, RemoteDataReady, Topology;
    ReadyRelationHasTopology(relations, rel, true);
    WorkersImplyRouted(proxyPort, e, protocols, setup);
  }

  // ----- upstreams without addresses

  /** A tracing receiver whose URL names no host. */
  predicate Hostless(t: Source, setup: Setup) {
    t.Tracing? && setup.TolerantUrlParse(t.url).hostname.None?
  }

  /**
   `s` gets an address under the name of the receiver `t`: a unit of that name, a remote-write host
   that sanitises to it, or a receiver of the same kind and protocol whose URL does name a host.
   */
  predicate SuppliesAddress(s: Source, t: Source, setup: Setup)
    requires t.Tracing?
  {
    var name := UpstreamName(TracingName(t.kind, t.protocol));
    match s
    case WorkerMetrics(unit, _) => unit == name
    case LokiPush(unit, _) => unit == name
    case RemoteWrite(url) => RemoteWriteUnit(url, setup) == Ok(name)
    case Tracing(kind, protocol, _) => kind == t.kind && protocol == t.protocol && !Hostless(s, setup)
  }

  lemma TracingNamesDiffer(kind: TracingKind, p: string, kind': TracingKind, q: string)
    ensures UpstreamName(TracingName(kind, p)) == UpstreamName(TracingName(kind', q)) <==> kind == kind' && p == q
  {
    hide UpstreamName;
    if UpstreamName(TracingName(kind, p)) == UpstreamName(TracingName(kind', q)) {
      var a, b := TracingName(kind, p), TracingName(kind', q);
      UpstreamNameInjective(a, b);
      assert a[0] == if kind.Charm? then 'c' else 'w';
      assert b[0] == if kind'.Charm? then 'c' else 'w';
      var lead := KindName(kind) + "-";
      assert a == lead + p && b == lead + q;
      assert a[|lead|..] == p && b[|lead|..] == q;
    }
  }

  lemma SuppliesAddressMeans(s: Source, t: Source, setup: Setup)
    requires t.Tracing?
    ensures SuppliesAddress(s, t, setup) <==>
      && AddressOf(s, setup).Ok? && AddressOf(s, setup).value.Some?
      && AddressOf(s, setup).value.value.0 == UpstreamName(TracingName(t.kind, t.protocol))
  {
    hide UpstreamName, TracingName, Setup.TolerantUrlParse, RemoteWriteUnit;
    if s.Tracing? {
      TracingNamesDiffer(s.kind, s.protocol, t.kind, t.protocol);
    }
  }

  lemma TracingKeyIsName(t: Source, setup: Setup)
    requires t.Tracing? && SpecOf(t, setup).Ok?
    ensures SpecOf(t, setup).value.lookupKey == UpstreamName(TracingName(t.kind, t.protocol)) == SpecOf(t, setup).value.upstreamName
  {
    hide UpstreamName, TracingName, Setup.TolerantUrlParse, TracingPath, PortOrError;
  }

  /** The key of a receiver is in the table if and only if some endpoint supplies an address under its name. */
  lemma ReceiverKeySupplied(sources: seq<Source>, setup: Setup, t: Source)
    requires t.Tracing?
    ensures KeyAssigned(sources, setup, UpstreamName(TracingName(t.kind, t.protocol))) <==>
      exists s :: s in sources && SuppliesAddress(s, t, setup)
  {
    hide AddressOf, SuppliesAddress, UpstreamName, TracingName;
    forall s ensures SuppliesAddress(s, t, setup) <==>
      && AddressOf(s, setup).Ok? && AddressOf(s, setup).value.Some?
      && AddressOf(s, setup).value.value.0 == UpstreamName(TracingName(t.kind, t.protocol))
    {
      SuppliesAddressMeans(s, t, setup);
    }
    if s :| s in sources && SuppliesAddress(s, t, setup) {
      var j :| 0 <= j < |sources| && sources[j] == s;
    }
  }

  /** Each receiver has an upstream of its name, with its name as the key. */
  lemma ReceiverHasUpstream(e: Endpoints, protocols: seq<string>, setup: Setup, t: Source)
    requires NginxConfigFor(e, protocols, setup).Ok? && t in AllSources(e) && t.Tracing?
    ensures exists u :: (u in NginxConfigFor(e, protocols, setup).value.0
                         && u.addressLookupKey == UpstreamName(TracingName(t.kind, t.protocol)))
  {
    hide NginxConfigFor, SpecsOf, AllSources, SpecOf, UpstreamsOf, UpstreamName, TracingName, LocationsOf, TracingSources;
    var w, l, r, ts := FourParts(e, protocols, setup);
    var receivers := TracingSources(e.charmTracing, e.workloadTracing);
    SourceMembers(e, t);
    TracingMembers(e.charmTracing, e.workloadTracing, t);
    var j :| 0 <= j < |receivers| && receivers[j] == t;
    TracingKeyIsName(t, setup);
    UpstreamsFirstWins(ts);
    var name := ts[j].upstreamName;
    assert Names(ts)[j] == name;
    assert name in Elems(UpstreamNames(UpstreamsOf(ts)));
    var k :| 0 <= k < |UpstreamsOf(ts)| && UpstreamNames(UpstreamsOf(ts))[k] == name;
    var u := UpstreamsOf(ts)[k];
    var i :| IsFirst(ts, i, u.name) && u == UpstreamOf(ts[i]);
    OnlyReceivers(e.charmTracing, e.workloadTracing, i);
    TracingKeyIsName(receivers[i], setup);
  }

  lemma OnlyReceivers(charm: Items, workload: Items, i: nat)
    requires i < |charm| + |workload|
    ensures TracingSources(charm, workload)[i].Tracing?
  {
  }

  /**
   When the table has the key of every upstream: if and only if, for each tracing receiver without
   a host, some endpoint supplies an address under its name. Nothing is assumed about the names.
   */
  lemma UpstreamsWithoutAddresses(proxyPort: Option<nat>, e: Endpoints, protocols: seq<string>, setup: Setup)
    requires TelemetryParts(proxyPort, e, protocols, setup).Ok? && TelemetryParts(proxyPort, e, protocols, setup).value.Some?
    ensures var (table, parts) := TelemetryParts(proxyPort, e, protocols, setup).value.value;
            (forall u :: u in parts.0 ==> u.addressLookupKey in table)
            <==> forall t :: t in AllSources(e) && Hostless(t, setup) ==>
                   exists s :: s in AllSources(e) && SuppliesAddress(s, t, setup)
  {
    hide NginxConfigFor, TableFor, SpecsOf, AllSources, SpecOf, KeyAssigned, UnitAddresses, SuppliesAddress, UpstreamName, TracingName;
    hide Setup.TolerantUrlParse;
    var (table, parts) := TelemetryParts(proxyPort, e, protocols, setup).value.value;
    var sources := AllSources(e);
    if forall u :: u in parts.0 ==> u.addressLookupKey in table {
      forall t | t in sources && Hostless(t, setup) ensures exists s :: s in sources && SuppliesAddress(s, t, setup) {
        ReceiverHasUpstream(e, protocols, setup, t);
        AssignedKeys(e, setup, UpstreamName(TracingName(t.kind, t.protocol)));
        ReceiverKeySupplied(sources, setup, t);
      }
    }
    if forall t :: t in sources && Hostless(t, setup) ==> exists s :: s in sources && SuppliesAddress(s, t, setup) {
      forall u | u in parts.0 ensures u.addressLookupKey in table {
        var i := StemOf(e, protocols, setup, u);
        var t := sources[i];
        assert t in sources;
        AssignedKeys(e, setup, u.addressLookupKey);
        if Hostless(t, setup) {
          TracingKeyIsName(t, setup);
          ReceiverKeySupplied(sources, setup, t);
        } else {
          HostGivesKey(sources, setup, i);
        }
      }
    }
  }

  /**
   With unit names, hosts and protocols as they are, one receiver per kind and protocol, only a
   remote-write host that is named like the receiver can stand in for its missing host.
   */
  lemma OnlyNamesakesSupply(sources: seq<Source>, setup: Setup, t: Source)
    requires t in sources && Hostless(t, setup)
    requires forall s :: s in sources ==> WellNamed(s, setup)
    requires forall s :: s in sources && s.Tracing? && s.kind == t.kind && s.protocol == t.protocol ==> s == t
    ensures (exists s :: s in sources && SuppliesAddress(s, t, setup)) <==> exists s :: s in sources && NamedLikeReceiver(s, t, setup)
  {
    hide UpstreamName, TracingName, Setup.TolerantUrlParse, RemoteWriteUnit, IsUnitName;
    NoSlashInReceiverName(t.kind, t.protocol);
    forall s | s in sources ensures SuppliesAddress(s, t, setup) <==> NamedLikeReceiver(s, t, setup) {
      match s
      case WorkerMetrics(unit, _) => SlashInUnitName(unit);
      case LokiPush(unit, _) => SlashInUnitName(unit);
      case RemoteWrite(_) =>
      case Tracing(_, _, _) =>
    }
  }

  /** For example, the empty URL: it has no host, and yet the receiver gets an upstream, which has no address. */
  lemma HostlessExample(setup: Setup, proxyPort: Option<nat>, worker: WorkerUnit)
    requires (forall url :: setup.urlparse(url) == UrlParse(url)) && ProxyEnabled(proxyPort) && IsUnitName(worker.unit)
    ensures var e := Endpoints([worker], [], None, [("otlp_http", "")], []);
            && TelemetryParts(proxyPort, e, [], setup).Ok? && TelemetryParts(proxyPort, e, [], setup).value.Some?
            && exists u :: u in TelemetryParts(proxyPort, e, [], setup).value.value.1.0
                 && u.addressLookupKey !in TelemetryParts(proxyPort, e, [], setup).value.value.0
  {
    hide UpstreamName, TracingName, TracingPath, MetricsPath, IsUnitName, UpstreamsOf, LocationsOf, UrlParse, TableFor, NginxConfigFor;
    hide AllSources, SuppliesAddress;
    var e := Endpoints([worker], [], None, [("otlp_http", "")], []);
    var t := Tracing(Charm, "otlp_http", "");
    EmptyUrl(setup);
    HostlessSucceeds(e, worker, setup);
    UpstreamsWithoutAddresses(proxyPort, e, [], setup);
    SourceMembers(e, t);
    HostlessSources(e, worker);
    forall s | s in AllSources(e) ensures !SuppliesAddress(s, t, setup) {
      NobodySupplies(s, t, worker, setup);
    }
  }

  lemma EmptyUrl(setup: Setup)
    requires forall url :: setup.urlparse(url) == UrlParse(url)
    ensures setup.TolerantUrlParse("") == ParseResult("", None, NoPort, "")
  {
    hide SplitScheme, DropUserInfo, SplitPort, Hostname;
    assert !Contains("", "://");
    assert "//" + "" == "//" == "//" + "" + "";
    NoScheme("//");
    SplitAuthorityOf("", "");
    PathIsKept("", "");
    EmptyAuthority();
    EmptyPort();
  }

  lemma EmptyPort()
    ensures SplitPort(DropUserInfo("")).1 == ""
  {
  }

  lemma HostlessSources(e: Endpoints, worker: WorkerUnit)
    requires e == Endpoints([worker], [], None, [("otlp_http", "")], [])
    ensures AllSources(e) == [WorkerMetrics(worker.unit, worker.address), Tracing(Charm, "otlp_http", "")]
  {
  }

  lemma HostlessSucceeds(e: Endpoints, worker: WorkerUnit, setup: Setup)
    requires e == Endpoints([worker], [], None, [("otlp_http", "")], [])
    requires setup.TolerantUrlParse("") == ParseResult("", None, NoPort, "")
    ensures NginxConfigFor(e, [], setup).Ok? && TableFor(UnitAddresses(e.topology), e, setup).Ok?
  {
    hide UpstreamName, TracingName, TracingPath, MetricsPath, UpstreamsOf, LocationsOf, Setup.TolerantUrlParse, UnitAddresses;
  }

  lemma NobodySupplies(s: Source, t: Source, worker: WorkerUnit, setup: Setup)
    requires IsUnitName(worker.unit) && t == Tracing(Charm, "otlp_http", "") && Hostless(t, setup)
    requires s == t || s == WorkerMetrics(worker.unit, worker.address)
    ensures !SuppliesAddress(s, t, setup)
  {
    hide UpstreamName, TracingName, Setup.TolerantUrlParse, IsUnitName;
    assert '/' !in "otlp_http";
    NoSlashInReceiverName(Charm, "otlp_http");
    SlashInUnitName(worker.unit);
  }

  /** The published proxy URL of a Loki unit has a location if and only if the unit has an endpoint. */
  lemma LokiRoutedIffEndpoint(e: Endpoints, protocols: seq<string>, setup: Setup, unit: string)
    requires NginxConfigFor(e, protocols, setup).Ok?
    requires IsUnitName(unit) && forall k, v :: (k, v) in e.loki ==> IsUnitName(k)
    ensures (exists l :: l in NginxConfigFor(e, protocols, setup).value.1 && l.path == LokiPath(Sanitized(unit)))
       <==> exists v :: (unit, v) in e.loki
  {
    hide NginxConfigFor, SpecsOf, SpecOf, IsUnitName, LokiPath, MetricsPath, RemoteWritePath, TracingPath;
    var path := LokiPath(Sanitized(unit));
    LocationsServeEndpoints(e, protocols, setup, path);
    if s :| s in AllSources(e) && PublishedPath(s, setup) == path {
      OnlyLokiPaths(s, setup, unit);
      LokiSourceMembers(e, s);
      assert (s.unit, s.url) in e.loki;
      SanitizedInjective(s.unit, unit);
    }
    if v :| (unit, v) in e.loki {
      var s := LokiPush(unit, v);
      LokiSourceMembers(e, s);
      assert PublishedPath(s, setup) == path;
    }
  }

  lemma OnlyLokiPaths(s: Source, setup: Setup, unit: string)
    requires SpecOf(s, setup).Ok? && PublishedPath(s, setup) == LokiPath(Sanitized(unit))
    ensures s.LokiPush? && Sanitized(s.unit) == Sanitized(unit)
  {
    hide SpecOf, RemoteWriteUnit;
    var path := PublishedPath(s, setup);
    assert path[7] == match s
                      case WorkerMetrics(_, _) => 'w'
                      case LokiPush(_, _) => 'l'
                      case RemoteWrite(_) => 'r'
                      case Tracing(kind, _, _) => if kind.Charm? then 'c' else 'w';
    assert LokiPath(Sanitized(unit))[7] == 'l';
    SamePadding("/proxy/loki/", Sanitized(s.unit), Sanitized(unit), "/push");
  }

  lemma LokiSourceMembers(e: Endpoints, s: Source)
    requires s.LokiPush?
    ensures s in AllSources(e) <==> (s.unit, s.url) in e.loki
  {
    var loki := LokiSources(e.loki);
    if i :| 0 <= i < |e.loki| && e.loki[i] == (s.unit, s.url) {
      assert loki[i] == s;
    }
  }

  // ----- the routing theorem, endpoint by endpoint

  /** The endpoints behind the combined list of sources. */
  lemma SourceMembers(e: Endpoints, s: Source)
    ensures s in AllSources(e) <==>
      match s
      case WorkerMetrics(unit, address) => exists w :: w in e.topology && w.unit == unit && w.address == address
      case LokiPush(unit, url) => (unit, url) in e.loki
      case RemoteWrite(url) => e.remoteWrite.Some? && url in e.remoteWrite.value
      case Tracing(kind, protocol, url) =>
        (protocol, url) in if kind.Charm? then e.charmTracing else e.workloadTracing
  {
    var ws, ls := WorkerSources(e.topology), LokiSources(e.loki);
    var rs, ts := RemoteWriteSources(e.remoteWrite), TracingSources(e.charmTracing, e.workloadTracing);
    assert s in AllSources(e) <==> s in ws || s in ls || s in rs || s in ts;
    match s
    case WorkerMetrics(unit, address) =>
      if i :| 0 <= i < |e.topology| && e.topology[i].unit == unit && e.topology[i].address == address {
        assert ws[i] == s;
      }
    case LokiPush(unit, url) =>
      if i :| 0 <= i < |e.loki| && e.loki[i] == (unit, url) {
        assert ls[i] == s;
      }
    case RemoteWrite(url) =>
      if e.remoteWrite.Some? {
        if i :| 0 <= i < |e.remoteWrite.value| && e.remoteWrite.value[i] == url {
          assert rs[i] == s;
        }
      }
    case Tracing(kind, protocol, url) =>
      TracingMembers(e.charmTracing, e.workloadTracing, s);
  }

  lemma TracingMembers(charm: Items, workload: Items, s: Source)
    requires s.Tracing?
    ensures s in TracingSources(charm, workload) <==> (s.protocol, s.url) in if s.kind.Charm? then charm else workload
  {
    var ts := TracingSources(charm, workload);
    if s.kind.Charm? {
      if i :| 0 <= i < |charm| && charm[i] == (s.protocol, s.url) {
        assert ts[i] == s;
      }
    } else {
      if i :| 0 <= i < |workload| && workload[i] == (s.protocol, s.url) {
        assert ts[|charm| + i] == s;
      }
    }
  }

  /** What goes into the nginx configuration of one dispatch. */
  datatype Build = Build(
    e: Endpoints,
    protocols: seq<string>,
    setup: Setup,
    charmUpstreams: seq<Upstream>,
    charmLocations: seq<Location>,  // of the proxy port
    roles: AddressTable)
  {
    /** The hypotheses of the routing theorem: nothing raises, and no names collide. */
    ghost predicate Routable() {
      && NginxConfigFor(e, protocols, setup).Ok? && TableFor(UnitAddresses(e.topology), e, setup).Ok?
      && LeavesProxyAlone(charmUpstreams, charmLocations)
      && SpecsOf(AllSources(e), setup).Ok? && Unambiguous(SpecsOf(AllSources(e), setup).value)
      && PlainProtocols(AllSources(e))
    }

    /** What nginx is given. */
    function Served(): Proxy
      requires NginxConfigFor(e, protocols, setup).Ok? && TableFor(UnitAddresses(e.topology), e, setup).Ok?
    {
      var parts := NginxConfigFor(e, protocols, setup).value;
      Proxy(charmUpstreams + parts.0, charmLocations + parts.1,
            roles + TableFor(UnitAddresses(e.topology), e, setup).value, setup.tls)
    }

    /** Where nginx may send a request for `uri` on the proxy port. */
    function Route(uri: string): set<Target>
      requires NginxConfigFor(e, protocols, setup).Ok? && TableFor(UnitAddresses(e.topology), e, setup).Ok?
    {
      Served().Route(uri)
    }
  }

  /** The target of a URL: its TLS flag, host and port; its path only if it has one. */
  function UrlTarget(url: ParseResult, otherwise: string): Target
    requires url.hostname.Some? && GetPort(url).Some?
  {
    Target(EndsWithS(url.scheme), url.hostname.value, GetPort(url).value, if url.path != "" then url.path else otherwise)
  }

  lemma SourceReached(b: Build, s: Source, suffix: string)
    requires b.Routable()
    requires s in AllSources(b.e) && (s.Tracing? || suffix == "") && Parsed(s, b.setup).hostname.Some?
    ensures SpecOf(s, b.setup).Ok? && GetPort(Parsed(s, b.setup)).Some?
    ensures b.Route(PublishedPath(s, b.setup) + suffix)
         == {UrlTarget(Parsed(s, b.setup), if s.Tracing? then "/" + suffix else PublishedPath(s, b.setup) + suffix)}
  {
    hide NginxConfigFor, TableFor, SpecsOf, AllSources, SpecOf, PublishedPath, Parsed, Proxy.Route, Built, UnitAddresses, PlainProtocols;
    var i :| 0 <= i < |AllSources(b.e)| && AllSources(b.e)[i] == s;
    CoordinatorBuilds(b.e, b.protocols, b.setup, b.charmUpstreams, b.charmLocations, b.roles);
    var parts := NginxConfigFor(b.e, b.protocols, b.setup).value;
    RoutesToOriginal(Proxy(b.charmUpstreams + parts.0, b.charmLocations + parts.1,
                           b.roles + TableFor(UnitAddresses(b.e.topology), b.e, b.setup).value, b.setup.tls),
                     AllSources(b.e), b.setup, b.charmUpstreams, b.charmLocations, b.roles, i, suffix);
  }

  /** Below the published path of a tracing protocol lies the receiver of that kind and protocol. */
  lemma TracingReceiverReached(b: Build, kind: TracingKind, protocol: string, url: string, suffix: string)
    requires b.Routable() && (protocol, url) in if kind.Charm? then b.e.charmTracing else b.e.workloadTracing
    requires b.setup.TolerantUrlParse(url).hostname.Some?
    ensures GetPort(b.setup.TolerantUrlParse(url)).Some?
    ensures b.Route(TracingPath(kind, protocol) + suffix) == {UrlTarget(b.setup.TolerantUrlParse(url), "/" + suffix)}
  {
    hide Build.Routable, Build.Route, Setup.TolerantUrlParse, SpecOf, AllSources, GetPort, TracingPath;
    SourceMembers(b.e, Tracing(kind, protocol, url));
    SourceReached(b, Tracing(kind, protocol, url), suffix);
  }

  /** The published path of a Loki unit leads to its endpoint. */
  lemma LokiReached(b: Build, unit: string, url: string)
    requires b.Routable() && (unit, url) in b.e.loki && b.setup.urlparse(url).hostname.Some?
    ensures GetPort(b.setup.urlparse(url)).Some?
    ensures b.Route(LokiPath(Sanitized(unit))) == {UrlTarget(b.setup.urlparse(url), LokiPath(Sanitized(unit)))}
  {
    hide Build.Routable, Build.Route, SpecOf, AllSources, GetPort, LokiPath;
    SourceMembers(b.e, LokiPush(unit, url));
    SourceReached(b, LokiPush(unit, url), "");
    assert LokiPath(Sanitized(unit)) + "" == LokiPath(Sanitized(unit));
  }

  /** The published path of a remote-write endpoint leads to it. */
  lemma RemoteWriteReached(b: Build, url: string)
    requires b.Routable() && b.e.remoteWrite.Some? && url in b.e.remoteWrite.value
    ensures RemoteWriteUnit(url, b.setup).Ok? && b.setup.urlparse(url).hostname.Some? && GetPort(b.setup.urlparse(url)).Some?
    ensures var path := RemoteWritePath(RemoteWriteUnit(url, b.setup).value);
            b.Route(path) == {UrlTarget(b.setup.urlparse(url), path)}
  {
    hide Build.Route, AllSources, GetPort, RemoteWritePath, NginxConfigFor, TableFor;
    var s := RemoteWrite(url);
    SourceMembers(b.e, s);
    SourceNeverRaises(b, s);
    SourceReached(b, s, "");
    var path := RemoteWritePath(RemoteWriteUnit(url, b.setup).value);
    assert path + "" == path;
  }

  lemma SourceNeverRaises(b: Build, s: Source)
    requires b.Routable() && s in AllSources(b.e)
    ensures SpecOf(s, b.setup).Ok?
    ensures s.RemoteWrite? ==> RemoteWriteUnit(s.url, b.setup).Ok? && b.setup.urlparse(s.url).hostname.Some?
  {
    hide NginxConfigFor, TableFor, AllSources, PortOrError, SanitizeHostname;
    var i :| 0 <= i < |AllSources(b.e)| && AllSources(b.e)[i] == s;
  }

  /** The proxied metrics path of a worker leads to what a direct scrape would read. */
  lemma WorkerReached(b: Build, w: WorkerUnit)
    requires b.Routable() && w in b.e.topology
    ensures b.Route(MetricsPath(Sanitized(w.unit))) == {Target(b.setup.tls, w.address, b.setup.metricsPort, "/metrics")}
  {
    hide Build.Routable, Build.Route, SpecOf, AllSources, MetricsPath;
    var s := WorkerMetrics(w.unit, w.address);
    SourceMembers(b.e, s);
    SourceReached(b, s, "");
    assert MetricsPath(Sanitized(w.unit)) + "" == MetricsPath(Sanitized(w.unit));
  }

  // ----- the routing theorem on the text of URLs

  /** The target of a URL, spelled out; `otherwise` is its URI if the URL has no path. */
  function TextTarget(scheme: string, host: string, port: Option<nat>, path: string, otherwise: string): Target
    requires |scheme| > 0
  {
    var tls := scheme[|scheme| - 1] in {'s', 'S'};
    Target(tls, Lower(host), if port.Some? then port.value else if tls then 443 else 80, if path != "" then path else otherwise)
  }

  ghost predicate ParsesUrls(setup: Setup) {
    forall url :: setup.urlparse(url) == UrlParse(url)
  }

  predicate PlainUrl(scheme: string, host: string, port: Option<nat>, path: string) {
    SchemeText(scheme) && PlainHost(host) && PlainPath(path) && (port.Some? ==> port.value <= 65535)
  }

  lemma SchemesAreNotEmpty(scheme: string, host: string, port: Option<nat>, path: string)
    requires PlainUrl(scheme, host, port, path)
    ensures |scheme| > 0
  {
  }

  /**
   Below the proxy path of a protocol lies its receiver, whatever the client appends: the host, the port
   of its URL or else 443 or 80, with TLS as its scheme says.
   */
  lemma ReceiverUrlReached(b: Build, kind: TracingKind, protocol: string, scheme: string, host: string, port: Option<nat>,
                           path: string, suffix: string)
    requires b.Routable() && ParsesUrls(b.setup) && PlainUrl(scheme, host, port, path)
    requires (protocol, UrlText(scheme, host, port, path)) in if kind.Charm? then b.e.charmTracing else b.e.workloadTracing
    ensures |scheme| > 0
    ensures b.Route((if kind.Charm? then "/proxy/charm-tracing/" else "/proxy/workload-tracing/") + protocol + "/" + suffix)
         == {TextTarget(scheme, host, port, path, "/" + suffix)}
  {
    hide Build.Routable, Build.Route, UrlParse, UrlText, GetPort, NginxConfigFor, TableFor, Contains, ParsesUrls, TracingPath;
    hide Setup.TolerantUrlParse, EndsWithS;
    var url := UrlText(scheme, host, port, path);
    UrlTextParses(scheme, host, port, path);
    UrlTextHasScheme(scheme, host, port, path);
    ParsesAsUrl(b.setup, url);
    TracingReceiverReached(b, kind, protocol, url, suffix);
    TracingPathText(kind, protocol, suffix);
  }

  lemma TracingPathText(kind: TracingKind, protocol: string, suffix: string)
    ensures TracingPath(kind, protocol) + suffix
         == (if kind.Charm? then "/proxy/charm-tracing/" else "/proxy/workload-tracing/") + protocol + "/" + suffix
  {
    assert "/proxy/" + KindName(kind) + "-tracing/" == if kind.Charm? then "/proxy/charm-tracing/" else "/proxy/workload-tracing/";
  }

  lemma ParsesAsUrl(setup: Setup, url: string)
    requires ParsesUrls(setup)
    ensures setup.urlparse(url) == UrlParse(url)
    ensures Contains(url, "://") ==> setup.TolerantUrlParse(url) == UrlParse(url)
    ensures !Contains(url, "://") ==> setup.TolerantUrlParse(url) == UrlParse("//" + url)
  {
    hide UrlParse, Contains;
  }

  lemma UrlTextHasScheme(scheme: string, host: string, port: Option<nat>, path: string)
    ensures Contains(UrlText(scheme, host, port, path), "://")
  {
    hide Contains, PortText;
    assert UrlText(scheme, host, port, path) == scheme + "://" + ((host + PortText(port)) + path);
    ContainsInside(scheme, "://", (host + PortText(port)) + path);
  }

  /** The same for a receiver given as a bare authority such as "tempo:4317". */
  lemma BareReceiverReached(b: Build, kind: TracingKind, protocol: string, host: string, port: nat, suffix: string)
    requires b.Routable() && ParsesUrls(b.setup) && PlainHost(host) && port <= 65535
    requires (protocol, host + ":" + Decimal(port)) in if kind.Charm? then b.e.charmTracing else b.e.workloadTracing
    ensures b.Route((if kind.Charm? then "/proxy/charm-tracing/" else "/proxy/workload-tracing/") + protocol + "/" + suffix)
         == {Target(false, Lower(host), port, "/" + suffix)}
  {
    hide Build.Routable, Build.Route, UrlParse, Contains, ParsesUrls, NginxConfigFor, TableFor, Decimal, Setup.TolerantUrlParse;
    hide TracingPath;
    var url := host + ":" + Decimal(port);
    BareAuthority(host, port);
    ParsesAsUrl(b.setup, url);
    TracingReceiverReached(b, kind, protocol, url, suffix);
    TracingPathText(kind, protocol, suffix);
  }

  lemma UnitSanitizes(app: string, number: string)
    requires '/' !in app && '/' !in number
    ensures Sanitized(app + "/" + number) == app + "-" + number
  {
    var unit, dashed := app + "/" + number, app + "-" + number;
    forall i | 0 <= i < |unit| ensures Sanitized(unit)[i] == dashed[i] {
      if i < |app| {
        assert unit[i] == app[i] == dashed[i];
      } else if i > |app| {
        assert unit[i] == number[i - |app| - 1] == dashed[i];
      }
    }
  }

  lemma LokiPathText(app: string, number: string)
    ensures LokiPath(app + "-" + number) == "/proxy/loki/" + app + "-" + number + "/push"
  {
  }

  /** The proxy path of a Loki unit leads to where its own URL points. */
  lemma LokiUrlReached(b: Build, app: string, number: string, scheme: string, host: string, port: Option<nat>, path: string)
    requires b.Routable() && ParsesUrls(b.setup) && PlainUrl(scheme, host, port, path) && '/' !in app && '/' !in number
    requires (app + "/" + number, UrlText(scheme, host, port, path)) in b.e.loki
    ensures |scheme| > 0
    ensures var proxy := "/proxy/loki/" + app + "-" + number + "/push";
            b.Route(proxy) == {TextTarget(scheme, host, port, path, proxy)}
  {
    hide Build.Routable, Build.Route, UrlParse, UrlText, GetPort, NginxConfigFor, TableFor, ParsesUrls, Sanitized, LokiPath;
    hide EndsWithS, SchemeText, PlainHost, PlainPath;
    var url := UrlText(scheme, host, port, path);
    UrlTextParses(scheme, host, port, path);
    ParsesAsUrl(b.setup, url);
    UnitSanitizes(app, number);
    LokiReached(b, app + "/" + number, url);
    LokiPathText(app, number);
  }

  /** The proxied metrics path of a worker leads to its address and metrics port. */
  lemma WorkerUnitReached(b: Build, w: WorkerUnit, app: string, number: string)
    requires b.Routable() && w in b.e.topology && w.unit == app + "/" + number && '/' !in app && '/' !in number
    ensures b.Route("/proxy/worker/" + app + "-" + number + "/metrics")
         == {Target(b.setup.tls, w.address, b.setup.metricsPort, "/metrics")}
  {
    hide Build.Routable, Build.Route, Sanitized, NginxConfigFor, TableFor;
    UnitSanitizes(app, number);
    WorkerReached(b, w);
    assert MetricsPath(app + "-" + number) == "/proxy/worker/" + app + "-" + number + "/metrics";
  }

  /** A label made of letters, digits and inner dashes. */
  predicate PlainLabel(name: string) {
    && |name| > 0 && name[0] != '-' && name[|name| - 1] != '-'
    && forall i :: 0 <= i < |name| ==> name[i] in UPPER_CASE || name[i] in LOWER_CASE || name[i] in DIGITS || name[i] == '-'
  }

  lemma LowerKeepsLabel(name: string)
    requires PlainLabel(name)
    ensures |Lower(name)| > 0 && Lower(name)[0] != '-' && Lower(name)[|name| - 1] != '-'
    ensures forall i :: 0 <= i < |name| ==> IsSafeChar(Lower(name)[i])
  {
    forall i | 0 <= i < |name| ensures IsSafeChar(Lower(name)[i]) {
      CharacterClasses(name[i]);
    }
  }

  /** The proxy path of a remote-write endpoint is named after the first label of its host, and leads to where its URL points. */
  lemma RemoteWriteUrlReached(b: Build, scheme: string, name: string, domain: string, port: Option<nat>, path: string)
    requires b.Routable() && ParsesUrls(b.setup) && PlainUrl(scheme, name + "." + domain, port, path) && PlainLabel(name)
    requires !b.setup.isIp(Lower(name + "." + domain))
    requires b.e.remoteWrite.Some? && UrlText(scheme, name + "." + domain, port, path) in b.e.remoteWrite.value
    ensures |scheme| > 0
    ensures var proxy := "/proxy/remote-write/" + Lower(name) + "/write";
            b.Route(proxy) == {TextTarget(scheme, name + "." + domain, port, path, proxy)}
  {
    hide Build.Routable, Build.Route, UrlParse, UrlText, GetPort, NginxConfigFor, TableFor, ParsesUrls, SanitizeHostname, PlainLabel;
    var host := name + "." + domain;
    var url := UrlText(scheme, host, port, path);
    UrlTextParses(scheme, host, port, path);
    ParsesAsUrl(b.setup, url);
    LowerKeepsLabel(name);
    assert Lower(host) == Lower(name) + "." + Lower(domain);
    hide Lower;
    UnitLabelIsKept(Lower(name), Lower(domain), b.setup.isIp);
    RemoteWriteReached(b, url);
    assert RemoteWritePath(Lower(name)) == "/proxy/remote-write/" + Lower(name) + "/write";
  }

  /** A URL with a port beyond 65535 is refused. */
  lemma PortsBeyondRangeAreRefused(setup: Setup, unit: string, scheme: string, host: string, port: nat, path: string)
    requires ParsesUrls(setup) && SchemeText(scheme) && PlainHost(host) && PlainPath(path) && port > 65535
    ensures SpecOf(LokiPush(unit, UrlText(scheme, host, Some(port), path)), setup).Err?
  {
    hide UrlParse, Decimal, ParsesUrls, Sanitized, LokiPath, UpstreamName;
    UrlRoundTrip(scheme, None, host, Some(port), path, "");
    UrlTextIsUrl(scheme, host, Some(port), path);
    ParsesAsUrl(setup, UrlText(scheme, host, Some(port), path));
  }

  /**
   A proxied scrape job reaches what the direct job would scrape: the worker's address and
   metrics port, at the direct job's path, with the same TLS setting.
   */
  lemma ScrapeJobReachesWorker(b: Build, w: WorkerUnit, hostname: string, proxyPort: Option<nat>)
    requires b.Routable() && w in b.e.topology && ProxyEnabled(proxyPort)
    ensures var direct := JobFor(w, hostname, None, b.setup);
            && b.Route(JobFor(w, hostname, proxyPort, b.setup).metricsPath)
               == {Target(direct.https, w.address, b.setup.metricsPort, direct.metricsPath)}
            && direct.target == w.address + ":" + Decimal(b.setup.metricsPort)
  {
    hide Build.Routable, Build.Route, Decimal;
    WorkerReached(b, w);
  }
}
