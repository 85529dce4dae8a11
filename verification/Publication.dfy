/**
 The end of a coordinator dispatch: nginx is configured, then the workers are told where to send
 their telemetry. What they are told leads, through that nginx, to the real endpoints.
 */
module Publication {
  import opened Prelude
  import opened Text
  import opened Urls
  import opened Nginx
  import opened Cluster
  import opened WorkerTelemetry
  import opened Routing
  import opened Coordinator
  import opened Published

  // ----- what is published about telemetry

  datatype TelemetryUrls = TelemetryUrls(
    loki: map<string, string>,
    charmTracing: map<string, string>,
    workloadTracing: map<string, string>,
    remoteWrite: Option<seq<string>>)

  function ValueOf(items: Items, key: string): string
    requires key in Keys(items)
  {
    assert exists j :: 0 <= j < |items| && Keys(items)[j] == key;
    items[Position(items, key)].1
  }

  function AsMap(items: Items): map<string, string> {
    map key | key in Keys(items) :: ValueOf(items, key)
  }

  function ProxiedTracing(hostname: string, port: nat, tls: bool, kind: TracingKind, protocols: seq<string>): map<string, string> {
    map p | p in protocols :: ProxyUrl(tls, hostname, port, TracingPath(kind, p))
  }

  function LokiUnitNames(relations: seq<seq<LokiUnit>>): (r: seq<seq<string>>)
    ensures |r| == |relations|
  {
    seq(|relations|, r requires 0 <= r < |relations| =>
      seq(|relations[r]|, i requires 0 <= i < |relations[r]| => relations[r][i].name))
  }

  function ProxiedLoki(hostname: string, port: nat, tls: bool, names: seq<seq<string>>): map<string, string> {
    map r, u | 0 <= r < |names| && u in names[r] :: u := ProxyUrl(tls, hostname, port, LokiPath(Sanitized(u)))
  }

  /** Proxy URLs if the proxy is enabled, the URLs of the endpoints themselves otherwise. */
  function TelemetryFor(proxyPort: Option<nat>, hostname: string, setup: Setup, e: Endpoints, names: seq<seq<string>>)
    : Result<TelemetryUrls, TelemetryError>
  {
    if !ProxyEnabled(proxyPort) then
      Ok(TelemetryUrls(AsMap(e.loki), AsMap(e.charmTracing), AsMap(e.workloadTracing), e.remoteWrite))
    else
      var port := proxyPort.value;
      var remoteWrite :- if e.remoteWrite.None? then Ok(None) else ProxiedSome(hostname, port, setup, e.remoteWrite.value);
      Ok(TelemetryUrls(
        ProxiedLoki(hostname, port, setup.tls, names),
        ProxiedTracing(hostname, port, setup.tls, Charm, Keys(e.charmTracing)),
        ProxiedTracing(hostname, port, setup.tls, Workload, Keys(e.workloadTracing)),
        remoteWrite))
  }

  function ProxiedSome(hostname: string, port: nat, setup: Setup, urls: seq<string>): Result<Option<seq<string>>, TelemetryError> {
    var proxied :- ProxiedRemoteWrite(hostname, port, setup, urls);
    Ok(Some(proxied))
  }

  /** The URLs for the workers, gathered kind by kind. */
  method GatherTelemetryUrls(proxyPort: Option<nat>, hostname: string, setup: Setup, e: Endpoints, names: seq<seq<string>>)
    returns (r: Result<TelemetryUrls, TelemetryError>)
    ensures r == TelemetryFor(proxyPort, hostname, setup, e, names)
  {
    hide ProxyUrl;
    if !ProxyEnabled(proxyPort) {
      return Ok(TelemetryUrls(AsMap(e.loki), AsMap(e.charmTracing), AsMap(e.workloadTracing), e.remoteWrite));
    }
    var port := proxyPort.value;
    var loki := ProxyLokiEndpointsByUnit(hostname, port, setup.tls, names);
    var charm := ProxyTracingReceiversUrls(hostname, port, setup.tls, Charm, Keys(e.charmTracing));
    var workload := ProxyTracingReceiversUrls(hostname, port, setup.tls, Workload, Keys(e.workloadTracing));
    assert loki == ProxiedLoki(hostname, port, setup.tls, names);
    assert charm == ProxiedTracing(hostname, port, setup.tls, Charm, Keys(e.charmTracing));
    assert workload == ProxiedTracing(hostname, port, setup.tls, Workload, Keys(e.workloadTracing));
    var remoteWrite: Option<seq<string>> := None;
    if e.remoteWrite.Some? {
      var proxied := ProxyRemoteWriteEndpoints(hostname, port, setup, e.remoteWrite.value);
      if proxied.Err? {
        return Err(proxied.error);
      }
      remoteWrite := Some(proxied.value);
    }
    return Ok(TelemetryUrls(loki, charm, workload, remoteWrite));
  }

  // ----- where the published URLs lead

  lemma LiteralIsPlain(path: string)
    requires IsLiteral(path) && "/" <= path
    ensures PlainPath(path)
  {
  }

  lemma RemoteWritePathIsPlain(unit: string)
    requires '?' !in unit && '#' !in unit
    ensures PlainPath(RemoteWritePath(unit))
  {
    var path := RemoteWritePath(unit);
    assert '?' !in "/proxy/remote-write/" && '#' !in "/proxy/remote-write/";
    assert '?' !in "/write" && '#' !in "/write";
    assert forall i :: 0 <= i < |path| ==> path[i] in "/proxy/remote-write/" || path[i] in unit || path[i] in "/write";
  }

  /**
   A client that parses `url` contacts the proxy port of the coordinator with the coordinator's TLS
   setting, and nginx sends a request for the path of `url` followed by `suffix` to `endpoint` and
   nowhere else: to its host and port, with its TLS setting, at its path, or at `otherwise` if it
   has none.
   */
  ghost predicate Leads(b: Build, hostname: string, port: nat, url: string, suffix: string,
                        endpoint: ParseResult, otherwise: string)
    requires b.Routable()
  {
    var p := UrlParse(url);
    && p.hostname == Some(Lower(hostname)) && p.port == Port(port) && EndsWithS(p.scheme) == b.setup.tls
    && endpoint.hostname.Some? && GetPort(endpoint).Some?
    && b.Route(p.path + suffix) == {UrlTarget(endpoint, otherwise)}
  }

  lemma ProxyUrlLeads(b: Build, hostname: string, port: nat, path: string, suffix: string, endpoint: ParseResult, otherwise: string)
    requires b.Routable() && PlainHost(hostname) && port <= MAX_PORT && PlainPath(path)
    requires endpoint.hostname.Some? && GetPort(endpoint).Some?
    requires b.Route(path + suffix) == {UrlTarget(endpoint, otherwise)}
    ensures Leads(b, hostname, port, ProxyUrl(b.setup.tls, hostname, port, path), suffix, endpoint, otherwise)
  {
    hide UrlParse, Build.Routable, Build.Route, GetPort, PlainPath, PlainHost, ProxyUrl, NginxConfigFor, TableFor;
    ProxyUrlRoundTrip(b.setup.tls, hostname, port, path);
  }

  lemma KeyOf(items: Items, key: string, value: string)
    requires (key, value) in items
    ensures key in Keys(items)
  {
    var i :| 0 <= i < |items| && items[i] == (key, value);
    assert Keys(items)[i] == key;
  }

  /** The published tracing URL of a protocol leads to its receiver, whatever the client appends. */
  lemma PublishedTracingUrlLeads(b: Build, hostname: string, port: nat, kind: TracingKind, protocol: string, url: string, suffix: string)
    requires b.Routable() && PlainHost(hostname) && port <= MAX_PORT
    requires (protocol, url) in if kind.Charm? then b.e.charmTracing else b.e.workloadTracing
    requires b.setup.TolerantUrlParse(url).hostname.Some?
    ensures var published := ProxiedTracing(hostname, port, b.setup.tls, kind,
                                            Keys(if kind.Charm? then b.e.charmTracing else b.e.workloadTracing));
            protocol in published
            && Leads(b, hostname, port, published[protocol], suffix, b.setup.TolerantUrlParse(url), "/" + suffix)
  {
    hide Build.Route, NginxConfigFor, TableFor, Setup.TolerantUrlParse, TracingPath, ProxyUrl, Leads, PlainPath, PlainHost;
    hide SpecsOf, AllSources, UnitAddresses, Unambiguous, LeavesProxyAlone, GetPort, UrlTarget;
    var items := if kind.Charm? then b.e.charmTracing else b.e.workloadTracing;
    KeyOf(items, protocol, url);
    var s := Tracing(kind, protocol, url);
    SourceMembers(b.e, s);
    assert s in AllSources(b.e);
    assert IsLiteral(protocol);
    TracingPathIsLiteral(kind, protocol);
    TracingPathStartsWithSlash(kind, protocol);
    LiteralIsPlain(TracingPath(kind, protocol));
    TracingReceiverReached(b, kind, protocol, url, suffix);
    ProxyUrlLeads(b, hostname, port, TracingPath(kind, protocol), suffix, b.setup.TolerantUrlParse(url), "/" + suffix);
  }

  lemma TracingPathStartsWithSlash(kind: TracingKind, protocol: string)
    ensures "/" <= TracingPath(kind, protocol)
  {
  }

  /** The published URL of a Loki unit that has an endpoint leads to that endpoint. */
  lemma PublishedLokiUrlLeads(b: Build, hostname: string, port: nat, names: seq<seq<string>>, unit: string, url: string)
    requires b.Routable() && PlainHost(hostname) && port <= MAX_PORT
    requires (unit, url) in b.e.loki && IsLiteral(unit) && exists r :: 0 <= r < |names| && unit in names[r]
    requires b.setup.urlparse(url).hostname.Some?
    ensures var published := ProxiedLoki(hostname, port, b.setup.tls, names);
            unit in published
            && Leads(b, hostname, port, published[unit], "", b.setup.urlparse(url), LokiPath(Sanitized(unit)))
  {
    hide Build.Route, Build.Routable, ProxyUrl, Leads, PlainPath, PlainHost, GetPort, UrlTarget;
    var path := LokiPath(Sanitized(unit));
    assert IsLiteral(Sanitized(unit));
    assert IsLiteral(path);
    LiteralIsPlain(path);
    hide LokiPath, IsLiteral, NginxConfigFor, TableFor;
    LokiReached(b, unit, url);
    assert path + "" == path;
    ProxyUrlLeads(b, hostname, port, path, "", b.setup.urlparse(url), path);
  }

  /** Every unit of a logging relation is told about, with or without an endpoint. */
  lemma {:induction false} EveryLokiUnitIsNamed(relations: seq<seq<LokiUnit>>, unit: LokiUnit)
    requires unit in Flatten(relations)
    ensures exists r :: 0 <= r < |relations| && unit.name in LokiUnitNames(relations)[r]
  {
    var n := |relations| - 1;
    if unit in relations[n] {
      var i :| 0 <= i < |relations[n]| && relations[n][i] == unit;
      assert LokiUnitNames(relations)[n][i] == unit.name;
    } else {
      EveryLokiUnitIsNamed(relations[..n], unit);
      var r :| 0 <= r < n && unit.name in LokiUnitNames(relations[..n])[r];
      assert LokiUnitNames(relations)[r] == LokiUnitNames(relations[..n])[r];
    }
  }

  /** For example, the only logging unit has no endpoint yet: it gets a URL, and no location serves it. */
  lemma LokiWithoutEndpointExample(hostname: string, port: nat, e: Endpoints, protocols: seq<string>, setup: Setup)
    requires NginxConfigFor(e, protocols, setup).Ok?
    requires e.loki == EndpointsOf(Flatten([[LokiUnit("l/0", None)]]))
    ensures "l/0" in ProxiedLoki(hostname, port, setup.tls, LokiUnitNames([[LokiUnit("l/0", None)]]))
    ensures forall l :: l in NginxConfigFor(e, protocols, setup).value.1 ==> l.path != LokiPath(Sanitized("l/0"))
  {
    hide NginxConfigFor, LokiPath, ProxyUrl;
    var unit := LokiUnit("l/0", None);
    EveryLokiUnitIsNamed([[unit]], unit) by { FlattenOne([unit]); }
    FlattenOne([unit]);
    assert [unit][..0] == [];
    assert e.loki == [];
    assert "l/0"[0] == 'l' && "l/0"[1] == '/' && IsDigit("l/0"[2]);
    assert IsUnitName("l/0");
    LokiRoutedIffEndpoint(e, protocols, setup, "l/0");
  }

  lemma FlattenOne<T>(part: seq<T>)
    ensures Flatten([part]) == part
  {
    assert [part][..0] == [];
    assert Flatten([part]) == Flatten([part][..0]) + part;
    assert Flatten<T>([]) + part == part;
  }

  /** The published URL of a remote-write endpoint leads to it. None is lost, and the order is kept. */
  lemma PublishedRemoteWriteUrlLeads(b: Build, hostname: string, port: nat, i: nat)
    requires b.Routable() && PlainHost(hostname) && port <= MAX_PORT
    requires forall u :: b.setup.urlparse(u) == UrlParse(u)
    requires b.e.remoteWrite.Some? && i < |b.e.remoteWrite.value|
    ensures var urls := b.e.remoteWrite.value;
            var published := ProxiedRemoteWrite(hostname, port, b.setup, urls);
            && RemoteWriteUnit(urls[i], b.setup).Ok?
            && published.Ok? && |published.value| == |urls|
            && Leads(b, hostname, port, published.value[i], "", b.setup.urlparse(urls[i]),
                     RemoteWritePath(RemoteWriteUnit(urls[i], b.setup).value))
  {
    hide Build.Route, Build.Routable, ProxyUrl, Leads, PlainPath, PlainHost, GetPort, UrlTarget, RemoteWritePath, UrlParse;
    hide NginxConfigFor, TableFor, RemoteWriteUnit;
    var urls := b.e.remoteWrite.value;
    forall k | 0 <= k < |urls| ensures RemoteWriteUnit(urls[k], b.setup).Ok? {
      RemoteWriteReached(b, urls[k]);
    }
    RemoteWriteReached(b, urls[i]);
    RemoteWriteUnitHasNoDelimiter(urls[i], b.setup, '?');
    RemoteWriteUnitHasNoDelimiter(urls[i], b.setup, '#');
    var path := RemoteWritePath(RemoteWriteUnit(urls[i], b.setup).value);
    RemoteWritePathIsPlain(RemoteWriteUnit(urls[i], b.setup).value);
    assert path + "" == path;
    ProxyUrlLeads(b, hostname, port, path, "", b.setup.urlparse(urls[i]), path);
  }

  // ----- what the workers are told

  /** Nothing but the telemetry part differs. */
  predicate KeepsRest(p: Payload, base: Payload) {
    && p.workerConfig == base.workerConfig
    && p.caCert == base.caCert
    && p.serverCert == base.serverCert
    && p.privkeySecretId == base.privkeySecretId
    && p.s3TlsCaChain == base.s3TlsCaChain
    && p.workerLabels == base.workerLabels
  }

  ghost predicate HasKeys(urls: Option<map<string, string>>, items: Items) {
    urls.Some? && forall k :: k in urls.value <==> exists i :: 0 <= i < |items| && items[i].0 == k
  }

  /** Every logging unit has a URL, with or without an endpoint. */
  ghost predicate HasUnits(urls: Option<map<string, string>>, relations: seq<seq<LokiUnit>>) {
    urls.Some? && forall u :: u in urls.value <==> IsLoggingUnit(relations, u)
  }

  ghost predicate IsLoggingUnit(relations: seq<seq<LokiUnit>>, name: string) {
    exists r, i :: 0 <= r < |relations| && 0 <= i < |relations[r]| && relations[r][i].name == name
  }

  /** Each key has the URL of its own endpoint. */
  ghost predicate OwnUrls(urls: Option<map<string, string>>, items: Items) {
    HasKeys(urls, items) && forall k :: k in urls.value ==> (k, urls.value[k]) in items
  }

  /** The URL of each protocol whose receiver has a host leads to that receiver. */
  ghost predicate ReceiverUrlsLead(urls: Option<map<string, string>>, items: Items, b: Build, hostname: string, port: nat)
    requires b.Routable()
  {
    forall protocol, url, suffix :: (protocol, url) in items ==> ReceiverUrlLeads(urls, protocol, url, suffix, b, hostname, port)
  }

  ghost predicate ReceiverUrlLeads(urls: Option<map<string, string>>, protocol: string, url: string, suffix: string,
                                   b: Build, hostname: string, port: nat)
    requires b.Routable()
  {
    b.setup.TolerantUrlParse(url).hostname.Some? ==>
      urls.Some? && protocol in urls.value
      && Leads(b, hostname, port, urls.value[protocol], suffix, b.setup.TolerantUrlParse(url), "/" + suffix)
  }

  ghost predicate LokiUrlsLead(urls: Option<map<string, string>>, b: Build, hostname: string, port: nat)
    requires b.Routable()
  {
    forall unit, url :: (unit, url) in b.e.loki && b.setup.urlparse(url).hostname.Some? ==>
      urls.Some? && unit in urls.value
      && Leads(b, hostname, port, urls.value[unit], "", b.setup.urlparse(url), LokiPath(Sanitized(unit)))
  }

  ghost predicate RemoteWriteUrlsLead(urls: Option<seq<string>>, b: Build, hostname: string, port: nat)
    requires b.Routable()
  {
    b.e.remoteWrite.Some? ==>
      urls.Some? && |urls.value| == |b.e.remoteWrite.value|
      && forall i :: 0 <= i < |urls.value| ==>
           RemoteWriteUnit(b.e.remoteWrite.value[i], b.setup).Ok?
           && Leads(b, hostname, port, urls.value[i], "", b.setup.urlparse(b.e.remoteWrite.value[i]),
                    RemoteWritePath(RemoteWriteUnit(b.e.remoteWrite.value[i], b.setup).value))
  }

  /** The proxy is on, names are unambiguous and everything is spelled plainly. */
  ghost predicate RoutingApplies(b: Build, hostname: string, port: nat) {
    && b.Routable() && ParsesUrls(b.setup) && PlainHost(hostname) && port <= MAX_PORT
    && forall unit, url :: (unit, url) in b.e.loki ==> IsLiteral(unit)
  }

  /**
   What the workers are told. With the proxy on, every charm tracing protocol, workload tracing protocol,
   logging unit and remote-write endpoint has its URL, and each leads to its own endpoint; with the proxy
   off each has the URL of the endpoint itself. All else is as in `base`.
   */
  ghost predicate TellsWorkers(p: Payload, base: Payload, proxyPort: Option<nat>, hostname: string, b: Build,
                               relations: seq<seq<LokiUnit>>)
  {
    && KeepsRest(p, base)
    && (p.remoteWriteEndpoints.Some? <==> b.e.remoteWrite.Some?)
    && if proxyPort.Some? && proxyPort.value > 0 then
         && HasKeys(p.charmTracingReceivers, b.e.charmTracing)
         && HasKeys(p.workloadTracingReceivers, b.e.workloadTracing)
         && HasUnits(p.lokiEndpoints, relations)
         && (RoutingApplies(b, hostname, proxyPort.value) ==>
               && ReceiverUrlsLead(p.charmTracingReceivers, b.e.charmTracing, b, hostname, proxyPort.value)
               && ReceiverUrlsLead(p.workloadTracingReceivers, b.e.workloadTracing, b, hostname, proxyPort.value)
               && LokiUrlsLead(p.lokiEndpoints, b, hostname, proxyPort.value)
               && RemoteWriteUrlsLead(p.remoteWriteEndpoints, b, hostname, proxyPort.value))
       else
         && OwnUrls(p.charmTracingReceivers, b.e.charmTracing)
         && OwnUrls(p.workloadTracingReceivers, b.e.workloadTracing)
         && OwnUrls(p.lokiEndpoints, b.e.loki)
         && p.remoteWriteEndpoints == b.e.remoteWrite
  }

  lemma KeysOfItems(items: Items, k: string)
    ensures k in Keys(items) <==> exists i :: 0 <= i < |items| && items[i].0 == k
  {
    if i :| 0 <= i < |items| && items[i].0 == k {
      assert Keys(items)[i] == k;
    }
  }

  lemma ProxiedTracingKeys(hostname: string, port: nat, tls: bool, kind: TracingKind, items: Items)
    ensures HasKeys(Some(ProxiedTracing(hostname, port, tls, kind, Keys(items))), items)
  {
    hide ProxyUrl, TracingPath;
    forall k ensures k in Keys(items) <==> exists i :: 0 <= i < |items| && items[i].0 == k {
      KeysOfItems(items, k);
    }
  }

  lemma AsMapIsOwn(items: Items)
    ensures OwnUrls(Some(AsMap(items)), items)
  {
    forall k ensures k in Keys(items) <==> exists i :: 0 <= i < |items| && items[i].0 == k {
      KeysOfItems(items, k);
    }
    forall k | k in AsMap(items) ensures (k, AsMap(items)[k]) in items {
      var j :| 0 <= j < |items| && items[j].0 == k;
      assert items[Position(items, k)] == (k, ValueOf(items, k));
    }
  }

  lemma ProxiedLokiUnits(hostname: string, port: nat, tls: bool, relations: seq<seq<LokiUnit>>)
    ensures HasUnits(Some(ProxiedLoki(hostname, port, tls, LokiUnitNames(relations))), relations)
  {
    hide ProxyUrl, LokiPath;
    var urls := ProxiedLoki(hostname, port, tls, LokiUnitNames(relations));
    forall u ensures u in urls <==> IsLoggingUnit(relations, u) {
      var names := LokiUnitNames(relations);
      if u in urls {
        var r :| 0 <= r < |names| && u in names[r];
        var i :| 0 <= i < |names[r]| && names[r][i] == u;
        assert relations[r][i].name == u;
      }
      if r, i :| 0 <= r < |relations| && 0 <= i < |relations[r]| && relations[r][i].name == u {
        assert names[r][i] == u;
      }
    }
  }

  lemma ReceiversLead(b: Build, hostname: string, port: nat, kind: TracingKind)
    requires RoutingApplies(b, hostname, port)
    ensures var items := if kind.Charm? then b.e.charmTracing else b.e.workloadTracing;
            ReceiverUrlsLead(Some(ProxiedTracing(hostname, port, b.setup.tls, kind, Keys(items))), items, b, hostname, port)
  {
    hide Build.Routable, Leads, ProxiedTracing, Setup.TolerantUrlParse, ParsesUrls, PlainHost;
    var items := if kind.Charm? then b.e.charmTracing else b.e.workloadTracing;
    var urls := ProxiedTracing(hostname, port, b.setup.tls, kind, Keys(items));
    forall protocol, url, suffix | (protocol, url) in items
      ensures ReceiverUrlLeads(Some(urls), protocol, url, suffix, b, hostname, port)
    {
      if b.setup.TolerantUrlParse(url).hostname.Some? {
        PublishedTracingUrlLeads(b, hostname, port, kind, protocol, url, suffix);
      }
    }
  }

  lemma LokiUnitsLead(b: Build, hostname: string, port: nat, relations: seq<seq<LokiUnit>>)
    requires RoutingApplies(b, hostname, port) && b.e.loki == EndpointsOf(Flatten(relations))
    ensures LokiUrlsLead(Some(ProxiedLoki(hostname, port, b.setup.tls, LokiUnitNames(relations))), b, hostname, port)
  {
    hide Build.Routable, Leads, ProxiedLoki, EndpointsOf, Flatten, LokiUnitNames, ParsesUrls, PlainHost, LokiPath;
    var names := LokiUnitNames(relations);
    forall unit, url | (unit, url) in b.e.loki && b.setup.urlparse(url).hostname.Some?
      ensures var urls := ProxiedLoki(hostname, port, b.setup.tls, names);
              unit in urls && Leads(b, hostname, port, urls[unit], "", b.setup.urlparse(url), LokiPath(Sanitized(unit)))
    {
      LastEndpointCounts(Flatten(relations), unit, url);
      var i :| LastEndpoint(Flatten(relations), i) && Flatten(relations)[i] == LokiUnit(unit, Some(url));
      EveryLokiUnitIsNamed(relations, LokiUnit(unit, Some(url)));
      PublishedLokiUrlLeads(b, hostname, port, names, unit, url);
    }
  }

  lemma RemoteWritesLead(b: Build, hostname: string, port: nat)
    requires RoutingApplies(b, hostname, port) && b.e.remoteWrite.Some?
    ensures ProxiedRemoteWrite(hostname, port, b.setup, b.e.remoteWrite.value).Ok? ==>
      RemoteWriteUrlsLead(Some(ProxiedRemoteWrite(hostname, port, b.setup, b.e.remoteWrite.value).value), b, hostname, port)
  {
    hide Build.Routable, Leads, ProxiedRemoteWrite, PlainHost, RemoteWritePath, RemoteWriteUnit;
    forall i: nat | i < |b.e.remoteWrite.value|
      ensures var urls := b.e.remoteWrite.value;
              var published := ProxiedRemoteWrite(hostname, port, b.setup, urls);
              && RemoteWriteUnit(urls[i], b.setup).Ok? && published.Ok? && |published.value| == |urls|
              && Leads(b, hostname, port, published.value[i], "", b.setup.urlparse(urls[i]),
                       RemoteWritePath(RemoteWriteUnit(urls[i], b.setup).value))
    {
      PublishedRemoteWriteUrlLeads(b, hostname, port, i);
    }
  }

  /** What is published tells the workers what they should know. */
  lemma PublishedTellsWorkers(base: Payload, proxyPort: Option<nat>, hostname: string, b: Build, relations: seq<seq<LokiUnit>>)
    requires b.e.loki == EndpointsOf(Flatten(relations))
    requires TelemetryFor(proxyPort, hostname, b.setup, b.e, LokiUnitNames(relations)).Ok?
    ensures TellsWorkers(WithUrls(base, TelemetryFor(proxyPort, hostname, b.setup, b.e, LokiUnitNames(relations)).value),
                         base, proxyPort, hostname, b, relations)
  {
    hide RoutingApplies, ReceiverUrlsLead, LokiUrlsLead, RemoteWriteUrlsLead, HasKeys, HasUnits, OwnUrls;
    hide ProxiedTracing, ProxiedLoki, ProxiedRemoteWrite, AsMap, EndpointsOf, Flatten, LokiUnitNames;
    if proxyPort.Some? && proxyPort.value > 0 {
      var port := proxyPort.value;
      ProxiedTracingKeys(hostname, port, b.setup.tls, Charm, b.e.charmTracing);
      ProxiedTracingKeys(hostname, port, b.setup.tls, Workload, b.e.workloadTracing);
      ProxiedLokiUnits(hostname, port, b.setup.tls, relations);
      if RoutingApplies(b, hostname, port) {
        ReceiversLead(b, hostname, port, Charm);
        ReceiversLead(b, hostname, port, Workload);
        LokiUnitsLead(b, hostname, port, relations);
        if b.e.remoteWrite.Some? {
          RemoteWritesLead(b, hostname, port);
        } else {
          NoRemoteWrites(b, hostname, port);
        }
      }
    } else {
      AsMapIsOwn(b.e.charmTracing);
      AsMapIsOwn(b.e.workloadTracing);
      AsMapIsOwn(b.e.loki);
    }
  }

  lemma NoRemoteWrites(b: Build, hostname: string, port: nat)
    requires RoutingApplies(b, hostname, port) && b.e.remoteWrite.None?
    ensures b.Routable() && RemoteWriteUrlsLead(None, b, hostname, port)
  {
  }

  // ----- the dispatch
  // ----- the dispatch

  /** Publication reaches a relation only if some worker is part of the topology. */
  lemma PublicationNeedsWorkers(relations: seq<Relation>, isLeader: bool, ports: Ports, payload: Payload)
    requires PublishAll(relations, isLeader, ports, payload) != relations
    ensures |Topology(relations)| > 0
  {
    hide RemoteDataReady, Topology;
    var i :| 0 <= i < |relations| && PublishAll(relations, isLeader, ports, payload)[i] != relations[i];
    assert relations[i] in relations;
    ReadyRelationHasTopology(relations, relations[i], isLeader);
  }

  function WithUrls(base: Payload, urls: TelemetryUrls): Payload {
    base.(lokiEndpoints := Some(urls.loki), charmTracingReceivers := Some(urls.charmTracing),
          workloadTracingReceivers := Some(urls.workloadTracing), remoteWriteEndpoints := urls.remoteWrite)
  }

  /** The build that a dispatch gives to nginx. */
  function BuildFor(coordinator: Coordinator, e: Endpoints, protocols: seq<string>, setup: Setup): Build
    reads coordinator, coordinator.charmConfig, coordinator.charmConfig.upstreams, coordinator.charmConfig.ports.Values
  {
    Build(e, protocols, setup, coordinator.charmConfig.upstreams.items,
          if coordinator.proxyPort.Some? then LocationsAt(coordinator.charmConfig, coordinator.proxyPort.value) else [],
          coordinator.upstreamsToAddresses)
  }

  /**
   The part of `_reconcile` that concerns workers: nginx first, publication second. A failure on the
   way leaves every databag as it was. Whenever there are workers and the proxy is enabled, every
   coordinator unit, leader or not, gives nginx the build for the current endpoints, which has a
   location on the proxy port for every one of them; so on whichever unit a published URL is used, it
   leads where the lemmas above say. A databag can change only if there are workers.
   */
  method ReconcileWorkers(coordinator: Coordinator, provider: ClusterProvider, lokiRelations: seq<seq<LokiUnit>>,
                          remoteWrite: Option<seq<string>>, charmTracing: Items, workloadTracing: Items,
                          protocols: seq<string>, hostname: string, setup: Setup, base: Payload)
    returns (r: Result<NginxConfig, TelemetryError>, e: Endpoints, published: Payload)
    modifies coordinator`upstreamsToAddresses, provider
    ensures e == Endpoints(Topology(old(provider.relations)), EndpointsOf(Flatten(lokiRelations)),
                           remoteWrite, charmTracing, workloadTracing)
    ensures r.Err? || !provider.isLeader ==> provider.relations == old(provider.relations)
    ensures r.Ok? && provider.isLeader ==>
      var urls := TelemetryFor(coordinator.proxyPort, hostname, setup, e, LokiUnitNames(lokiRelations));
      && urls.Ok?
      && published == WithUrls(base, urls.value)
      && provider.relations == PublishAll(old(provider.relations), true, provider.workerPorts, published)
    ensures r.Ok? && provider.isLeader ==>
      TellsWorkers(published, base, coordinator.proxyPort, hostname,
                   old(BuildFor(coordinator, e, protocols, setup)), lokiRelations)
    ensures provider.relations != old(provider.relations) ==> |Topology(old(provider.relations))| > 0
    ensures r.Ok? && |Topology(old(provider.relations))| > 0 && ProxyEnabled(coordinator.proxyPort) ==>
      var port := coordinator.proxyPort.value;
      var b := old(BuildFor(coordinator, e, protocols, setup));
      && NginxConfigFor(e, protocols, setup).Ok? && TableFor(UnitAddresses(e.topology), e, setup).Ok?
      && Proxy(r.value.upstreams.items, LocationsAt(r.value, port), coordinator.upstreamsToAddresses, setup.tls) == b.Served()
      && SpecsOf(AllSources(e), setup).Ok?
      && forall s :: s in AllSources(e) ==> exists l :: l in LocationsAt(r.value, port) && l.path == PublishedPath(s, setup)
  {
    hide SpecsOf, AllSources, PublishedPath, Topology, RolesLoad, RemoteDataReady, PublishAll;
    hide TelemetryFor, NginxConfigFor, TableFor, LokiUnitNames, WithUrls, UnitAddresses, EndpointsOf, Flatten, TellsWorkers;
    published := base;
    var loki := UpstreamLokiEndpointsByUnit(lokiRelations);
    var topology := provider.GatherTopology();
    e := Endpoints(topology, loki, remoteWrite, charmTracing, workloadTracing);
    ghost var b := BuildFor(coordinator, e, protocols, setup);
    r := coordinator.BuildNginxConfig(e, protocols, setup);
    if r.Err? {
      return;
    }
    if |topology| > 0 && ProxyEnabled(coordinator.proxyPort) {
      WorkersImplyRouted(coordinator.proxyPort, e, protocols, setup);
    }
    if provider.isLeader {
      var urls := GatherTelemetryUrls(coordinator.proxyPort, hostname, setup, e, LokiUnitNames(lokiRelations));
      if urls.Err? {
        r := Err(urls.error);
        return;
      }
      ghost var before := provider.relations;
      published := WithUrls(base, urls.value);
      PublishedTellsWorkers(base, coordinator.proxyPort, hostname, b, lokiRelations);
      var _ := provider.PublishData(published);
      if provider.relations != before {
        PublicationNeedsWorkers(before, true, provider.workerPorts, published);
      }
    }
  }

  // ----- an instance

  const SMALL_SETUP := Setup(false, 8080, url => ParseResult("http", Some("host"), Port(80), ""), host => false)
  const SMALL_ENDPOINTS := Endpoints([UnitData("w", "w/0", "charm", "address")], [("l/0", "http://host:80")],
                                     Some(["http://host:80"]), [("otlp", "host:80")], [])
  const SMALL_BUILD := Build(SMALL_ENDPOINTS, [], SMALL_SETUP, [], [], map[])

  lemma SmallSources()
    ensures AllSources(SMALL_ENDPOINTS)
         == [WorkerMetrics("w/0", "address"), LokiPush("l/0", "http://host:80"), RemoteWrite("http://host:80"),
             Tracing(Charm, "otlp", "host:80")]
  {
  }

  lemma SmallRemoteWriteUnit()
    ensures RemoteWriteUnit("http://host:80", SMALL_SETUP) == Ok("host")
  {
    IndexOfAppend("host", "", {'.'});
    assert "host" + "" == "host";
    KeepSafeAll("host");
  }

  /** What distinguishes the four endpoints: the name of the upstream and the lookup key. */
  lemma SmallSpecs()
    ensures SpecsOf(AllSources(SMALL_ENDPOINTS), SMALL_SETUP).Ok?
    ensures var specs := SpecsOf(AllSources(SMALL_ENDPOINTS), SMALL_SETUP).value;
            && |specs| == 4
            && specs[0].upstreamName == UpstreamName("w-0") && specs[0].lookupKey == "w/0"
            && specs[1].upstreamName == UpstreamName("l-0") && specs[1].lookupKey == "l/0"
            && specs[2].upstreamName == UpstreamName("host") && specs[2].lookupKey == "host"
            && specs[3].upstreamName == UpstreamName("charm-otlp") == specs[3].lookupKey
  {
    hide UpstreamName, SpecsOf, AllSources, RemoteWriteUnit, MetricsPath, LokiPath, RemoteWritePath, TracingPath;
    SmallSources();
    SmallRemoteWriteUnit();
    var sources := AllSources(SMALL_ENDPOINTS);
    assert Sanitized("w/0") == "w-0" && Sanitized("l/0") == "l-0";
    assert TracingName(Charm, "otlp") == "charm-otlp";
    assert forall i :: 0 <= i < 4 ==> SpecOf(sources[i], SMALL_SETUP).Ok?;
  }

  lemma NameIsLonger(name: string)
    ensures |UpstreamName(name)| > |name|
  {
  }

  lemma SmallNamesDiffer(specs: seq<Spec>)
    requires |specs| == 4
    requires specs[0].upstreamName == UpstreamName("w-0") && specs[0].lookupKey == "w/0"
    requires specs[1].upstreamName == UpstreamName("l-0") && specs[1].lookupKey == "l/0"
    requires specs[2].upstreamName == UpstreamName("host") && specs[2].lookupKey == "host"
    requires specs[3].upstreamName == UpstreamName("charm-otlp") == specs[3].lookupKey
    ensures Unambiguous(specs)
  {
    hide UpstreamName;
    assert "w-0"[0] == 'w' && "l-0"[0] == 'l' && "w/0"[0] == 'w' && "l/0"[0] == 'l';
    NameIsLonger("charm-otlp");
    var suffixes := ["w-0", "l-0", "host", "charm-otlp"];
    forall i, j | 0 <= i < j < 4 ensures specs[i].upstreamName != specs[j].upstreamName {
      assert specs[i].upstreamName == UpstreamName(suffixes[i]) && specs[j].upstreamName == UpstreamName(suffixes[j]);
      assert suffixes[i] != suffixes[j];
      if specs[i].upstreamName == specs[j].upstreamName {
        UpstreamNameInjective(suffixes[i], suffixes[j]);
      }
    }
  }

  /** The hypotheses of the routing results can be met with all kinds of endpoint at once. */
  lemma SmallBuildIsRoutable()
    ensures SMALL_BUILD.Routable()
    ensures forall s :: s in AllSources(SMALL_BUILD.e) ==> Parsed(s, SMALL_BUILD.setup).hostname.Some?
  {
    hide UpstreamName, SpecsOf, AllSources, SpecOf, Unambiguous, TableFor, NginxConfigFor;
    SmallSources();
    SmallSpecs();
    SmallNamesDiffer(SpecsOf(AllSources(SMALL_ENDPOINTS), SMALL_SETUP).value);
    SmallConfigSucceeds();
    SmallTableSucceeds();
  }

  lemma SmallConfigSucceeds()
    ensures NginxConfigFor(SMALL_ENDPOINTS, [], SMALL_SETUP).Ok?
  {
    hide UpstreamName, RemoteWriteUnit, UpstreamsOf, LocationsOf, TracingPath, MetricsPath, LokiPath, RemoteWritePath;
    SmallRemoteWriteUnit();
  }

  lemma SmallTableSucceeds()
    ensures TableFor(UnitAddresses(SMALL_ENDPOINTS.topology), SMALL_ENDPOINTS, SMALL_SETUP).Ok?
  {
    hide UpstreamName, RemoteWriteUnit, UnitAddresses, TableFrom;
    SmallRemoteWriteUnit();
  }
}
