/**
 The telemetry proxy compiler (worker_telemetry.py). From the real telemetry endpoints it
 derives, separately, nginx upstreams and locations, an address table for the upstreams,
 and the proxy URLs that are published instead of the real ones. What ties the three
 together is only how names are spelled; module Routing proves that this suffices.
 */
module WorkerTelemetry {
  import opened Prelude
  import opened Text
  import opened Urls
  import opened Nginx
  import Cluster

  const UPSTREAM_PREFIX := "worker-telemetry-proxy"

  datatype TelemetryError =
    | NoHostname(url: string)
    | UnsanitizableHostname(hostname: string)
    | MalformedPort(url: string)
    | GrpcUnsupported

  datatype TracingKind = Charm | Workload

  function KindName(kind: TracingKind): string {
    match kind
    case Charm => "charm"
    case Workload => "workload"
  }

  /** One unit of the worker topology. */
  type WorkerUnit = Cluster.UnitData

  /** A real telemetry endpoint. */
  datatype Source =
    | WorkerMetrics(unit: string, address: string)
    | LokiPush(unit: string, url: string)
    | RemoteWrite(url: string)
    | Tracing(kind: TracingKind, protocol: string, url: string)

  /**
   What the compiler takes as given. The two library calls it makes are parameters, so
   that every result holds whatever they answer: `urlparse` (see module Urls for the one
   of RFC 3986) and the verdict on whether a host is an IP literal.
   */
  datatype Setup = Setup(
    tls: bool,
    metricsPort: nat,
    urlparse: string -> ParseResult,
    isIp: string -> bool)
  {
    /** `_urlparse(url)`: tolerates a bare authority such as "host:4317". */
    function TolerantUrlParse(url: string): ParseResult {
      if !Contains(url, "://") then urlparse("//" + url) else urlparse(url)
    }
  }

  /**
   The reason `_urlparse` exists: on a bare authority it recovers host and port, where
   `urlparse` finds no host name at all.
   */
  lemma TolerantParseRecoversAuthority(setup: Setup, host: string, port: nat)
    requires forall url :: setup.urlparse(url) == UrlParse(url)
    requires PlainHost(host) && port <= MAX_PORT
    ensures setup.TolerantUrlParse(host + ":" + Decimal(port)) == ParseResult("", Some(Lower(host)), Port(port), "")
    ensures setup.urlparse(host + ":" + Decimal(port)).hostname == None
  {
    hide UrlParse;
    BareAuthority(host, port);
  }

  // ----- path templates

  function Sanitized(unit: string): string { Replace(unit, '/', '-') }

  function MetricsPath(unit: string): string { "/proxy/worker/" + unit + "/metrics" }
  function LokiPath(unit: string): string { "/proxy/loki/" + unit + "/push" }
  function RemoteWritePath(unit: string): string { "/proxy/remote-write/" + unit + "/write" }
  function TracingPath(kind: TracingKind, protocol: string): string {
    "/proxy/" + KindName(kind) + "-tracing/" + protocol + "/"
  }

  function UpstreamName(name: string): string { UPSTREAM_PREFIX + "-" + name }

  function TracingName(kind: TracingKind, protocol: string): string { KindName(kind) + "-" + protocol }

  // ----- hostname sanitising

  predicate IsSafeChar(c: char) { IsLetter(c) || IsDigit(c) || c == '-' }

  function KeepSafe(s: string): (r: string)
    ensures forall i :: 0 <= i < |r| ==> IsSafeChar(r[i])
  {
    if |s| == 0 then "" else (if IsSafeChar(s[0]) then [s[0]] else "") + KeepSafe(s[1..])
  }

  function StripLeft(s: string): (r: string)
    ensures |r| <= |s| && r == s[|s| - |r|..]
    ensures |r| > 0 ==> r[0] != '-'
  {
    if |s| > 0 && s[0] == '-' then StripLeft(s[1..]) else s
  }

  function StripRight(s: string): (r: string)
    ensures |r| <= |s| && r == s[..|r|]
    ensures |r| > 0 ==> r[|r| - 1] != '-'
  {
    if |s| > 0 && s[|s| - 1] == '-' then StripRight(s[..|s| - 1]) else s
  }

  /** `_sanitize_hostname`: what is not an IP address becomes letters, digits and inner dashes. */
  function SanitizeHostname(hostname: string, isIp: string -> bool): (r: Result<string, TelemetryError>)
    ensures r.Ok? && !isIp(hostname) ==>
      && |r.value| > 0 && r.value[0] != '-' && r.value[|r.value| - 1] != '-'
      && forall i :: 0 <= i < |r.value| ==> IsSafeChar(r.value[i])
    ensures r.Err? ==> !isIp(hostname)
  {
    if isIp(hostname) then
      Ok(Replace(Replace(hostname, '.', '-'), ':', '-'))
    else
      var first := hostname[..IndexOf(hostname, {'.'})];
      var sanitized := StripRight(StripLeft(KeepSafe(first)));
      if sanitized == "" then Err(UnsanitizableHostname(hostname)) else Ok(sanitized)
  }

  lemma {:induction false} KeepSafeMembers(s: string, c: char)
    ensures c in KeepSafe(s) <==> c in s && IsSafeChar(c)
  {
    if |s| == 0 {
    } else {
      KeepSafeMembers(s[1..], c);
      assert s == [s[0]] + s[1..];
    }
  }

  predicate OnlyDashes(s: string) {
    forall i :: 0 <= i < |s| ==> s[i] == '-'
  }

  /** `r` is `s` without some dashes at either end. */
  ghost predicate StrippedOfDashes(s: string, r: string) {
    exists i, j :: 0 <= i <= j <= |s| && r == s[i..j] && OnlyDashes(s[..i]) && OnlyDashes(s[j..])
  }

  lemma {:induction false} StripLeftDropsDashes(s: string)
    ensures OnlyDashes(s[..|s| - |StripLeft(s)|])
  {
    if |s| == 0 || s[0] != '-' {
      assert s[..0] == "";
    } else {
      StripLeftDropsDashes(s[1..]);
      var n := |s| - |StripLeft(s)|;
      assert s[..n] == [s[0]] + s[1..][..n - 1];
    }
  }

  lemma {:induction false} StripRightDropsDashes(s: string)
    ensures OnlyDashes(s[|StripRight(s)|..])
  {
    if |s| == 0 || s[|s| - 1] != '-' {
      assert s[|s|..] == "";
    } else {
      var n := |s| - 1;
      StripRightDropsDashes(s[..n]);
      var k := |StripRight(s)|;
      assert s[k..] == s[..n][k..] + [s[n]];
    }
  }

  /**
   Which characters of a domain name survive: the safe ones of the first label, up to dashes at either
   end. There is an error exactly when that label has no letter and no digit.
   */
  lemma SanitizedFromFirstLabel(hostname: string, isIp: string -> bool)
    requires !isIp(hostname)
    ensures var first := hostname[..IndexOf(hostname, {'.'})];
            && (SanitizeHostname(hostname, isIp).Err? <==> forall c :: c in first ==> !IsLetter(c) && !IsDigit(c))
            && (SanitizeHostname(hostname, isIp).Ok? ==>
                  StrippedOfDashes(KeepSafe(first), SanitizeHostname(hostname, isIp).value))
  {
    var first := hostname[..IndexOf(hostname, {'.'})];
    var kept := KeepSafe(first);
    var left := StripLeft(kept);
    var name := StripRight(left);
    StripLeftDropsDashes(kept);
    StripRightDropsDashes(left);
    var i := |kept| - |left|;
    var j := i + |name|;
    hide KeepSafe, StripLeft, StripRight;
    assert name == kept[i..j];
    assert kept[j..] == left[|name|..];
    assert StrippedOfDashes(kept, name);
    if name == "" {
      DashesTogether(kept, i);
      forall c | c in first ensures !IsLetter(c) && !IsDigit(c) {
        KeepSafeMembers(first, c);
      }
    } else {
      assert name[0] == kept[i];
      KeepSafeMembers(first, kept[i]);
    }
  }

  lemma DashesTogether(s: string, i: nat)
    requires i <= |s| && OnlyDashes(s[..i]) && OnlyDashes(s[i..])
    ensures forall c :: c in s ==> c == '-'
  {
    assert s == s[..i] + s[i..];
  }

  lemma {:induction false} KeepSafeAll(s: string)
    requires forall i :: 0 <= i < |s| ==> IsSafeChar(s[i])
    ensures KeepSafe(s) == s
  {
    if |s| == 0 {
    } else {
      KeepSafeAll(s[1..]);
      assert s == [s[0]] + s[1..];
    }
  }

  /** The characters of a sanitised name, listed. */
  lemma SanitizedCharacters(hostname: string, isIp: string -> bool, i: nat)
    requires !isIp(hostname) && SanitizeHostname(hostname, isIp).Ok? && i < |SanitizeHostname(hostname, isIp).value|
    ensures var c := SanitizeHostname(hostname, isIp).value[i];
            c in UPPER_CASE || c in LOWER_CASE || c in DIGITS || c == '-'
  {
    hide SanitizeHostname, IsLetter, IsDigit;
    CharacterClasses(SanitizeHostname(hostname, isIp).value[i]);
  }

  /** The first label of a domain name made of safe characters is kept as it is. */
  lemma UnitLabelIsKept(unit: string, domain: string, isIp: string -> bool)
    requires |unit| > 0 && unit[0] != '-' && unit[|unit| - 1] != '-'
    requires forall i :: 0 <= i < |unit| ==> IsSafeChar(unit[i])
    requires !isIp(unit + "." + domain)
    ensures SanitizeHostname(unit + "." + domain, isIp) == Ok(unit)
  {
    assert unit + "." + domain == unit + ("." + domain);
    IndexOfAppend(unit, "." + domain, {'.'});
    KeepSafeAll(unit);
  }

  /** An IP address keeps its place, with dashes for dots and colons. */
  lemma AddressIsDashed(address: string, isIp: string -> bool, i: nat)
    requires isIp(address) && i < |address|
    ensures var r := SanitizeHostname(address, isIp);
            r.Ok? && |r.value| == |address| && r.value[i] == if address[i] == '.' || address[i] == ':' then '-' else address[i]
  {
  }

  predicate IsSeparator(c: char) { c == '.' || c == ':' }

  predicate SameButSeparators(a: string, b: string) {
    |a| == |b| && forall i :: 0 <= i < |a| ==> a[i] == b[i] || (IsSeparator(a[i]) && IsSeparator(b[i]))
  }

  /**
   Addresses without dashes get the same name if and only if they differ at most in which separator
   stands where. So IPv4 addresses stay apart.
   */
  lemma AddressesClash(a: string, b: string, isIp: string -> bool)
    requires isIp(a) && isIp(b) && '-' !in a && '-' !in b
    ensures SanitizeHostname(a, isIp) == SanitizeHostname(b, isIp) <==>
      SameButSeparators(a, b)
    ensures ':' !in a && ':' !in b && SanitizeHostname(a, isIp) == SanitizeHostname(b, isIp) ==> a == b
  {
    var x, y := SanitizeHostname(a, isIp).value, SanitizeHostname(b, isIp).value;
    assert forall i :: 0 <= i < |a| ==> a[i] != '-' && x[i] == if IsSeparator(a[i]) then '-' else a[i];
    assert forall i :: 0 <= i < |b| ==> b[i] != '-' && y[i] == if IsSeparator(b[i]) then '-' else b[i];
    if SameButSeparators(a, b) {
      assert x == y;
    }
    if x == y {
      forall i | 0 <= i < |a| ensures a[i] == b[i] || (IsSeparator(a[i]) && IsSeparator(b[i])) {
        assert x[i] == y[i];
      }
    }
  }

  /** Sanitising never introduces a URL delimiter. */
  lemma SanitizedHasNoDelimiter(hostname: string, isIp: string -> bool, c: char)
    requires IsDelimiter(c) && c !in hostname && SanitizeHostname(hostname, isIp).Ok?
    ensures c !in SanitizeHostname(hostname, isIp).value
  {
    hide KeepSafe, StripLeft, StripRight;
    var sanitized := SanitizeHostname(hostname, isIp).value;
    if isIp(hostname) {
      var dashed := Replace(hostname, '.', '-');
      ReplaceAddsOnly(hostname, '.', '-', c);
      ReplaceAddsOnly(dashed, ':', '-', c);
    } else {
      assert !IsSafeChar(c);
      hide SanitizeHostname, IsSafeChar;
      forall i | 0 <= i < |sanitized| ensures sanitized[i] != c {
        assert IsSafeChar(sanitized[i]);
      }
    }
  }

  lemma ReplaceAddsOnly(s: string, from: char, to: char, c: char)
    requires c !in s && c != to
    ensures c !in Replace(s, from, to)
  {
    var r := Replace(s, from, to);
    assert forall i :: 0 <= i < |s| ==> s[i] in s;
    assert forall i :: 0 <= i < |r| ==> r[i] != c;
  }

  // ----- nginx specification of one endpoint

  datatype Spec = Spec(
    upstreamName: string,
    upstreamPort: nat,
    lookupKey: string,
    locationPath: string,
    backendUrl: string,
    upstreamTls: bool,
    modifier: string,
    rewrite: Option<seq<string>>)

  /** Every telemetry location forces HTTP/1.1, to support service meshes. */
  const FORCE_HTTP11: map<string, seq<string>> :=
    map["proxy_http_version" := ["1.1"], "proxy_set_header" := ["Connection", ""]]

  function PortOrError(url: string, parsed: ParseResult): Result<nat, TelemetryError> {
    match GetPort(parsed)
    case Some(port) => Ok(port)
    case None => Err(MalformedPort(url))
  }

  /** The sanitised host of a remote-write URL. */
  function RemoteWriteUnit(url: string, setup: Setup): Result<string, TelemetryError> {
    match setup.urlparse(url).hostname
    case None => Err(NoHostname(url))
    case Some(host) => SanitizeHostname(host, setup.isIp)
  }

  /** What the four generators record for one endpoint. */
  function SpecOf(source: Source, setup: Setup): Result<Spec, TelemetryError> {
    match source
    case WorkerMetrics(unit, _) =>
      Ok(Spec(UpstreamName(Sanitized(unit)), setup.metricsPort, unit, MetricsPath(Sanitized(unit)),
              "/metrics", setup.tls, "=", None))
    case LokiPush(unit, url) =>
      var parsed := setup.urlparse(url);
      var port :- PortOrError(url, parsed);
      Ok(Spec(UpstreamName(Sanitized(unit)), port, unit, LokiPath(Sanitized(unit)),
              parsed.path, EndsWithS(parsed.scheme), "=", None))
    case RemoteWrite(url) =>
      var parsed := setup.urlparse(url);
      var unit :- RemoteWriteUnit(url, setup);
      var port :- PortOrError(url, parsed);
      Ok(Spec(UpstreamName(unit), port, unit, RemoteWritePath(unit),
              parsed.path, EndsWithS(parsed.scheme), "=", None))
    case Tracing(kind, protocol, url) =>
      var parsed := setup.TolerantUrlParse(url);
      var name := UpstreamName(TracingName(kind, protocol));
      var path := TracingPath(kind, protocol);
      var port :- PortOrError(url, parsed);
      Ok(Spec(name, port, name, path, parsed.path, EndsWithS(parsed.scheme), "",
              Some(["^" + path + REST, "/$1", "break"])))
  }

  /** What `f` makes of the first `n` elements, or the first failure among them. */
  function Collect<S, T>(xs: seq<S>, f: S -> Result<T, TelemetryError>, n: nat): (r: Result<seq<T>, TelemetryError>)
    requires n <= |xs|
    ensures r.Ok? <==> forall i :: 0 <= i < n ==> f(xs[i]).Ok?
    ensures r.Ok? ==> |r.value| == n
    ensures r.Ok? ==> forall i :: 0 <= i < n ==> f(xs[i]) == Ok(r.value[i])
  {
    if n == 0 then Ok([])
    else
      var earlier :- Collect(xs, f, n - 1);
      var last :- f(xs[n - 1]);
      Ok(earlier + [last])
  }

  lemma {:induction false} FirstFailureStays<S, T>(xs: seq<S>, f: S -> Result<T, TelemetryError>, i: nat, n: nat)
    requires i < n <= |xs|
    requires Collect(xs, f, i).Ok? && f(xs[i]).Err?
    ensures Collect(xs, f, n) == Err(f(xs[i]).error)
  {
    if i < n - 1 {
      FirstFailureStays(xs, f, i, n - 1);
    }
  }

  function Specifier(setup: Setup): Source -> Result<Spec, TelemetryError> {
    source => SpecOf(source, setup)
  }

  function SpecsOf(sources: seq<Source>, setup: Setup): (r: Result<seq<Spec>, TelemetryError>)
    ensures r.Ok? <==> forall i :: 0 <= i < |sources| ==> SpecOf(sources[i], setup).Ok?
    ensures r.Ok? ==> |r.value| == |sources|
    ensures r.Ok? ==> forall i :: 0 <= i < |sources| ==> SpecOf(sources[i], setup) == Ok(r.value[i])
  {
    Collect(sources, Specifier(setup), |sources|)
  }

  function UpstreamOf(spec: Spec): Upstream {
    Upstream(spec.upstreamName, spec.upstreamPort, spec.lookupKey)
  }

  function LocationOf(spec: Spec): Location {
    Location(spec.locationPath, spec.upstreamName, spec.backendUrl, Some(spec.upstreamTls), spec.modifier,
             spec.rewrite, FORCE_HTTP11, false)
  }

  function LocationsOf(specs: seq<Spec>): (r: seq<Location>)
    ensures |r| == |specs| && forall i :: 0 <= i < |specs| ==> r[i] == LocationOf(specs[i])
  {
    seq(|specs|, i requires 0 <= i < |specs| => LocationOf(specs[i]))
  }

  function Names(specs: seq<Spec>): (r: seq<string>)
    ensures |r| == |specs| && forall i :: 0 <= i < |specs| ==> r[i] == specs[i].upstreamName
  {
    seq(|specs|, i requires 0 <= i < |specs| => specs[i].upstreamName)
  }

  function UpstreamNames(upstreams: seq<Upstream>): (r: seq<string>)
    ensures |r| == |upstreams| && forall i :: 0 <= i < |upstreams| ==> r[i] == upstreams[i].name
  {
    seq(|upstreams|, i requires 0 <= i < |upstreams| => upstreams[i].name)
  }

  /** One upstream per name, that of the first specification carrying it. */
  function UpstreamsOf(specs: seq<Spec>): seq<Upstream> {
    if |specs| == 0 then []
    else
      var n := |specs| - 1;
      var earlier := UpstreamsOf(specs[..n]);
      if specs[n].upstreamName in Names(specs[..n]) then earlier else earlier + [UpstreamOf(specs[n])]
  }

  /** A location field by field. */
  lemma FieldsOfLocations(specs: seq<Spec>)
    ensures forall i :: 0 <= i < |specs| ==> var l := LocationsOf(specs)[i];
      && l.path == specs[i].locationPath && l.backend == specs[i].upstreamName
      && l.backendUrl == specs[i].backendUrl && l.upstreamTls == Some(specs[i].upstreamTls)
      && l.modifier == specs[i].modifier && l.rewrite == specs[i].rewrite
      && l.extraDirectives == map["proxy_http_version" := ["1.1"], "proxy_set_header" := ["Connection", ""]] && !l.isGrpc
  {
  }

  /** An upstream field by field. */
  lemma {:induction false} FieldsOfUpstreams(specs: seq<Spec>, u: Upstream)
    requires u in UpstreamsOf(specs)
    ensures exists i :: (0 <= i < |specs| && u.name == specs[i].upstreamName && u.port == specs[i].upstreamPort
                         && u.addressLookupKey == specs[i].lookupKey)
  {
    var n := |specs| - 1;
    if u in UpstreamsOf(specs[..n]) {
      FieldsOfUpstreams(specs[..n], u);
    } else {
      assert u == UpstreamOf(specs[n]);
    }
  }

  /** `_generate_nginx_config_from_spec`. */
  method GenerateNginxConfigFromSpec(specs: seq<Spec>)
    returns (upstreams: seq<Upstream>, locations: seq<Location>)
    ensures upstreams == UpstreamsOf(specs)
    ensures locations == LocationsOf(specs)
    ensures forall i :: 0 <= i < |specs| ==>
      && locations[i].path == specs[i].locationPath && locations[i].backend == specs[i].upstreamName
      && locations[i].backendUrl == specs[i].backendUrl && locations[i].upstreamTls == Some(specs[i].upstreamTls)
      && locations[i].modifier == specs[i].modifier && locations[i].rewrite == specs[i].rewrite
      && locations[i].extraDirectives == map["proxy_http_version" := ["1.1"], "proxy_set_header" := ["Connection", ""]]
      && !locations[i].isGrpc
    ensures forall u :: u in upstreams ==> exists i :: (0 <= i < |specs| && u.name == specs[i].upstreamName
                                                         && u.port == specs[i].upstreamPort
                                                         && u.addressLookupKey == specs[i].lookupKey)
  {
    hide LocationOf, UpstreamOf;
    upstreams, locations := [], [];
    var created: set<string> := {};
    for i := 0 to |specs|
      invariant upstreams == UpstreamsOf(specs[..i])
      invariant locations == LocationsOf(specs[..i])
      invariant created == Elems(Names(specs[..i]))
    {
      var spec := specs[i];
      assert specs[..i + 1][..i] == specs[..i];
      assert Names(specs[..i + 1]) == Names(specs[..i]) + [spec.upstreamName];
      if spec.upstreamName !in created {
        upstreams := upstreams + [UpstreamOf(spec)];
        created := created + {spec.upstreamName};
      }
      locations := locations + [LocationOf(spec)];
    }
    assert specs[..|specs|] == specs;
    FieldsOfLocations(specs);
    forall u | u in upstreams
      ensures exists i :: (0 <= i < |specs| && u.name == specs[i].upstreamName && u.port == specs[i].upstreamPort
                           && u.addressLookupKey == specs[i].lookupKey)
    {
      FieldsOfUpstreams(specs, u);
    }
  }

  type NginxParts = (seq<Upstream>, seq<Location>)

  function ConfigOf(sources: seq<Source>, setup: Setup): Result<NginxParts, TelemetryError> {
    var specs :- SpecsOf(sources, setup);
    Ok((UpstreamsOf(specs), LocationsOf(specs)))
  }

  /** The body shared by the four generators: a specification per endpoint, then the configuration. */
  method GenerateNginxConfig(sources: seq<Source>, setup: Setup)
    returns (r: Result<NginxParts, TelemetryError>)
    ensures r == ConfigOf(sources, setup)
  {
    hide SpecOf;
    var specs: seq<Spec> := [];
    for i := 0 to |sources|
      invariant Collect(sources, Specifier(setup), i) == Ok(specs)
    {
      var spec := SpecOf(sources[i], setup);
      if spec.Err? {
        FirstFailureStays(sources, Specifier(setup), i, |sources|);
        return Err(spec.error);
      }
      specs := specs + [spec.value];
    }
    var upstreams, locations := GenerateNginxConfigFromSpec(specs);
    r := Ok((upstreams, locations));
  }

  // ----- the four kinds of endpoint, in the order of the combined configuration

  /** The endpoints handed to the compiler. Dicts come in iteration order. */
  datatype Endpoints = Endpoints(
    topology: seq<WorkerUnit>,
    loki: Items,
    remoteWrite: Option<seq<string>>,
    charmTracing: Items,
    workloadTracing: Items)

  function WorkerSources(topology: seq<WorkerUnit>): (r: seq<Source>)
    ensures |r| == |topology|
  {
    seq(|topology|, i requires 0 <= i < |topology| => WorkerMetrics(topology[i].unit, topology[i].address))
  }

  function LokiSources(loki: Items): (r: seq<Source>)
    ensures |r| == |loki|
  {
    seq(|loki|, i requires 0 <= i < |loki| => LokiPush(loki[i].0, loki[i].1))
  }

  function RemoteWriteSources(urls: Option<seq<string>>): seq<Source> {
    if urls.None? then [] else
    seq(|urls.value|, i requires 0 <= i < |urls.value| => RemoteWrite(urls.value[i]))
  }

  function TracingSources(charm: Items, workload: Items): (r: seq<Source>)
    ensures |r| == |charm| + |workload|
  {
    seq(|charm|, i requires 0 <= i < |charm| => Tracing(Charm, charm[i].0, charm[i].1))
    + seq(|workload|, i requires 0 <= i < |workload| => Tracing(Workload, workload[i].0, workload[i].1))
  }

  function AllSources(e: Endpoints): seq<Source> {
    WorkerSources(e.topology) + LokiSources(e.loki) + RemoteWriteSources(e.remoteWrite)
    + TracingSources(e.charmTracing, e.workloadTracing)
  }

  /** A gRPC workload tracing protocol is refused outright. */
  predicate RequestsGrpc(protocols: seq<string>) {
    exists i :: 0 <= i < |protocols| && Contains(protocols[i], "grpc")
  }

  function NginxConfigFor(e: Endpoints, protocols: seq<string>, setup: Setup): Result<NginxParts, TelemetryError> {
    if RequestsGrpc(protocols) then Err(GrpcUnsupported)
    else
      var workers :- ConfigOf(WorkerSources(e.topology), setup);
      var loki :- ConfigOf(LokiSources(e.loki), setup);
      var remoteWrite :- ConfigOf(RemoteWriteSources(e.remoteWrite), setup);
      var tracing :- ConfigOf(TracingSources(e.charmTracing, e.workloadTracing), setup);
      Ok((workers.0 + loki.0 + remoteWrite.0 + tracing.0, workers.1 + loki.1 + remoteWrite.1 + tracing.1))
  }

  /** `get_nginx_upstreams_and_locations`; the locations all go to the proxy port. */
  method GetNginxUpstreamsAndLocations(e: Endpoints, protocols: seq<string>, setup: Setup)
    returns (r: Result<NginxParts, TelemetryError>)
    ensures r == NginxConfigFor(e, protocols, setup)
  {
    hide ConfigOf, SpecOf;
    for i := 0 to |protocols|
      invariant forall j :: 0 <= j < i ==> !Contains(protocols[j], "grpc")
    {
      if Contains(protocols[i], "grpc") {
        return Err(GrpcUnsupported);
      }
    }
    var workers := GenerateNginxConfig(WorkerSources(e.topology), setup);
    if workers.Err? { return Err(workers.error); }
    var loki := GenerateNginxConfig(LokiSources(e.loki), setup);
    if loki.Err? { return Err(loki.error); }
    var remoteWrite := GenerateNginxConfig(RemoteWriteSources(e.remoteWrite), setup);
    if remoteWrite.Err? { return Err(remoteWrite.error); }
    var tracing := GenerateNginxConfig(TracingSources(e.charmTracing, e.workloadTracing), setup);
    if tracing.Err? { return Err(tracing.error); }
    r := Ok((workers.value.0 + loki.value.0 + remoteWrite.value.0 + tracing.value.0,
             workers.value.1 + loki.value.1 + remoteWrite.value.1 + tracing.value.1));
  }

  // ----- the address table

  /** The table entry of an endpoint, if it gets one. */
  function AddressOf(source: Source, setup: Setup): Result<Option<(string, Option<string>)>, TelemetryError> {
    match source
    case WorkerMetrics(unit, address) => Ok(Some((unit, Some(address))))
    case LokiPush(unit, url) => Ok(Some((unit, setup.urlparse(url).hostname)))
    case RemoteWrite(url) =>
      var unit :- RemoteWriteUnit(url, setup);
      Ok(Some((unit, setup.urlparse(url).hostname)))
    case Tracing(kind, protocol, url) =>
      var host := setup.TolerantUrlParse(url).hostname;
      Ok(if host.None? then None else Some((UpstreamName(TracingName(kind, protocol)), host)))
  }

  function Assign(table: AddressTable, entry: Option<(string, Option<string>)>): AddressTable {
    if entry.None? then table else table[entry.value.0 := {entry.value.1}]
  }

  /** The table after the assignments of all endpoints, in order. */
  function TableFrom(base: AddressTable, sources: seq<Source>, setup: Setup): (r: Result<AddressTable, TelemetryError>)
    ensures r.Ok? <==> forall i :: 0 <= i < |sources| ==> AddressOf(sources[i], setup).Ok?
  {
    if |sources| == 0 then Ok(base)
    else
      var n := |sources| - 1;
      assert forall i :: 0 <= i < n ==> sources[..n][i] == sources[i];
      var table :- TableFrom(base, sources[..n], setup);
      var entry :- AddressOf(sources[n], setup);
      Ok(Assign(table, entry))
  }

  function UnitAddresses(topology: seq<WorkerUnit>): map<string, string> {
    if |topology| == 0 then map[]
    else
      var n := |topology| - 1;
      UnitAddresses(topology[..n])[topology[n].unit := topology[n].address]
  }

  function TableFor(unitAddresses: map<string, string>, e: Endpoints, setup: Setup): Result<AddressTable, TelemetryError> {
    var workers: AddressTable := map unit | unit in unitAddresses :: {Some(unitAddresses[unit])};
    var loki :- TableFrom(workers, LokiSources(e.loki), setup);
    var remoteWrite :- TableFrom(loki, RemoteWriteSources(e.remoteWrite), setup);
    TableFrom(remoteWrite, TracingSources(e.charmTracing, e.workloadTracing), setup)
  }

  lemma TableFromFails(base: AddressTable, sources: seq<Source>, setup: Setup, i: nat)
    requires i < |sources|
    requires TableFrom(base, sources[..i], setup).Ok? && AddressOf(sources[i], setup).Err?
    ensures TableFrom(base, sources, setup) == Err(AddressOf(sources[i], setup).error)
  {
    hide AddressOf;
    var n := |sources| - 1;
    if i < n {
      assert sources[..n][..i] == sources[..i];
      TableFromFails(base, sources[..n], setup, i);
    } else {
      assert sources[..n] == sources[..i];
    }
  }

  /** One loop of `get_upstreams_to_addresses` over the endpoints of one kind. */
  method AssignAddresses(base: AddressTable, sources: seq<Source>, setup: Setup)
    returns (r: Result<AddressTable, TelemetryError>)
    ensures r == TableFrom(base, sources, setup)
  {
    hide AddressOf;
    var table := base;
    for i := 0 to |sources|
      invariant TableFrom(base, sources[..i], setup) == Ok(table)
    {
      assert sources[..i + 1][..i] == sources[..i];
      var entry := AddressOf(sources[i], setup);
      if entry.Err? {
        TableFromFails(base, sources, setup, i);
        return Err(entry.error);
      }
      table := Assign(table, entry.value);
    }
    assert sources[..|sources|] == sources;
    r := Ok(table);
  }

  /** `get_upstreams_to_addresses`. */
  method GetUpstreamsToAddresses(unitAddresses: map<string, string>, e: Endpoints, setup: Setup)
    returns (r: Result<AddressTable, TelemetryError>)
    ensures r == TableFor(unitAddresses, e, setup)
  {
    hide TableFrom, AddressOf;
    var workers: AddressTable := map unit | unit in unitAddresses :: {Some(unitAddresses[unit])};
    var loki := AssignAddresses(workers, LokiSources(e.loki), setup);
    if loki.Err? { return loki; }
    var remoteWrite := AssignAddresses(loki.value, RemoteWriteSources(e.remoteWrite), setup);
    if remoteWrite.Err? { return remoteWrite; }
    r := AssignAddresses(remoteWrite.value, TracingSources(e.charmTracing, e.workloadTracing), setup);
  }

  // ----- the published proxy URLs

  function ProxyUrl(tls: bool, hostname: string, port: nat, path: string): string {
    (if tls then "https" else "http") + "://" + hostname + ":" + Decimal(port) + path
  }

  /** `proxy_loki_endpoints_by_unit`: the units of every logging relation, in name order. */
  method ProxyLokiEndpointsByUnit(hostname: string, port: nat, tls: bool, relations: seq<seq<string>>)
    returns (urls: map<string, string>)
    ensures urls.Keys == set r, u | 0 <= r < |relations| && u in relations[r] :: u
    ensures forall unit :: unit in urls ==> urls[unit] == ProxyUrl(tls, hostname, port, LokiPath(Sanitized(unit)))
  {
    urls := map[];
    for r := 0 to |relations|
      invariant urls.Keys == set q, u | 0 <= q < r && u in relations[q] :: u
      invariant forall unit :: unit in urls ==> urls[unit] == ProxyUrl(tls, hostname, port, LokiPath(Sanitized(unit)))
    {
      for i := 0 to |relations[r]|
        invariant urls.Keys == (set q, u | 0 <= q < r && u in relations[q] :: u) + Elems(relations[r][..i])
        invariant forall unit :: unit in urls ==> urls[unit] == ProxyUrl(tls, hostname, port, LokiPath(Sanitized(unit)))
      {
        var unit := relations[r][i];
        assert relations[r][..i + 1] == relations[r][..i] + [unit];
        urls := urls[unit := ProxyUrl(tls, hostname, port, LokiPath(Sanitized(unit)))];
      }
      assert relations[r][..|relations[r]|] == relations[r];
    }
  }

  /** The proxy URL of one remote-write endpoint. */
  function RemoteWriteProxy(hostname: string, port: nat, setup: Setup): string -> Result<string, TelemetryError> {
    url => match RemoteWriteUnit(url, setup)
      case Ok(unit) => Ok(ProxyUrl(setup.tls, hostname, port, RemoteWritePath(unit)))
      case Err(error) => Err(error)
  }

  function ProxiedRemoteWrite(hostname: string, port: nat, setup: Setup, endpoints: seq<string>)
    : (r: Result<seq<string>, TelemetryError>)
    ensures r.Ok? <==> forall i :: 0 <= i < |endpoints| ==> RemoteWriteUnit(endpoints[i], setup).Ok?
    ensures r.Ok? ==> |r.value| == |endpoints| && forall i :: 0 <= i < |endpoints| ==>
      r.value[i] == ProxyUrl(setup.tls, hostname, port, RemoteWritePath(RemoteWriteUnit(endpoints[i], setup).value))
  {
    Collect(endpoints, RemoteWriteProxy(hostname, port, setup), |endpoints|)
  }

  /** `proxy_remote_write_endpoints`. */
  method ProxyRemoteWriteEndpoints(hostname: string, port: nat, setup: Setup, endpoints: seq<string>)
    returns (r: Result<seq<string>, TelemetryError>)
    ensures r == ProxiedRemoteWrite(hostname, port, setup, endpoints)
  {
    hide RemoteWriteUnit, ProxyUrl;
    var urls: seq<string> := [];
    for i := 0 to |endpoints|
      invariant Collect(endpoints, RemoteWriteProxy(hostname, port, setup), i) == Ok(urls)
    {
      var unit := RemoteWriteUnit(endpoints[i], setup);
      if unit.Err? {
        FirstFailureStays(endpoints, RemoteWriteProxy(hostname, port, setup), i, |endpoints|);
        return Err(unit.error);
      }
      urls := urls + [ProxyUrl(setup.tls, hostname, port, RemoteWritePath(unit.value))];
    }
    r := Ok(urls);
  }

  /** `proxy_tracing_receivers_urls`. */
  method ProxyTracingReceiversUrls(hostname: string, port: nat, tls: bool, kind: TracingKind, protocols: seq<string>)
    returns (urls: map<string, string>)
    ensures urls.Keys == Elems(protocols)
    ensures forall p :: p in urls ==> urls[p] == ProxyUrl(tls, hostname, port, TracingPath(kind, p))
  {
    urls := map[];
    for i := 0 to |protocols|
      invariant urls.Keys == Elems(protocols[..i])
      invariant forall p :: p in urls ==> urls[p] == ProxyUrl(tls, hostname, port, TracingPath(kind, p))
    {
      assert protocols[..i + 1] == protocols[..i] + [protocols[i]];
      urls := urls[protocols[i] := ProxyUrl(tls, hostname, port, TracingPath(kind, protocols[i]))];
    }
    assert protocols[..|protocols|] == protocols;
  }
}
