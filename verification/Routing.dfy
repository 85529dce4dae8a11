/**
 The telemetry proxy preserves meaning: resolving a published proxy URL through the
 generated nginx configuration leads back to the endpoint it stands for.
 */
module Routing {
  import opened Prelude
  import opened Text
  import opened Urls
  import opened Nginx
  import opened WorkerTelemetry

  // ----- what each endpoint is, and what is published for it

  /** The real endpoint, as its own URL or address describes it. */
  function Parsed(source: Source, setup: Setup): ParseResult {
    match source
    case WorkerMetrics(_, address) =>
      ParseResult(if setup.tls then "https" else "http", Some(address), Port(setup.metricsPort), "/metrics")
    case LokiPush(_, url) => setup.urlparse(url)
    case RemoteWrite(url) => setup.urlparse(url)
    case Tracing(_, _, url) => setup.TolerantUrlParse(url)
  }

  /** The path of the proxy URL, or of the proxied scrape job, published for an endpoint. */
  function PublishedPath(source: Source, setup: Setup): string
    requires SpecOf(source, setup).Ok?
  {
    match source
    case WorkerMetrics(unit, _) => MetricsPath(Sanitized(unit))
    case LokiPush(unit, _) => LokiPath(Sanitized(unit))
    case RemoteWrite(url) => RemoteWritePath(RemoteWriteUnit(url, setup).value)
    case Tracing(kind, protocol, _) => TracingPath(kind, protocol)
  }

  /** The URI that reaches the endpoint when a client requests `PublishedPath + suffix`. */
  function Forwarded(source: Source, setup: Setup, suffix: string): string
    requires SpecOf(source, setup).Ok?
  {
    var path := Parsed(source, setup).path;
    if path != "" then path
    else if source.Tracing? then "/" + suffix
    else PublishedPath(source, setup) + suffix
  }

  function OriginalTarget(source: Source, setup: Setup, uri: string): Target
    requires Parsed(source, setup).hostname.Some? && GetPort(Parsed(source, setup)).Some?
  {
    var parsed := Parsed(source, setup);
    Target(EndsWithS(parsed.scheme), parsed.hostname.value, GetPort(parsed).value, uri)
  }

  // ----- first-occurrence deduplication of upstreams

  /** `i` is the first place where `name` occurs. */
  ghost predicate IsFirst(specs: seq<Spec>, i: int, name: string) {
    0 <= i < |specs| && specs[i].upstreamName == name && forall j :: 0 <= j < i ==> specs[j].upstreamName != name
  }

  lemma ElemsSnoc<T>(s: seq<T>, x: T)
    ensures Elems(s + [x]) == Elems(s) + {x}
  {
    assert forall y :: y in s + [x] <==> y in s || y == x;
  }

  lemma {:induction false} UpstreamNamesUnique(specs: seq<Spec>)
    ensures NoDup(UpstreamNames(UpstreamsOf(specs)))
    ensures Elems(UpstreamNames(UpstreamsOf(specs))) == Elems(Names(specs))
  {
    hide UpstreamOf;
    if |specs| == 0 {
    } else {
      var n := |specs| - 1;
      var init, name := specs[..n], specs[n].upstreamName;
      UpstreamNamesUnique(init);
      assert Names(specs) == Names(init) + [name];
      ElemsSnoc(Names(init), name);
      assert name in Names(init) <==> name in Elems(UpstreamNames(UpstreamsOf(init)));
      if name !in Names(init) {
        assert UpstreamNames(UpstreamsOf(specs)) == UpstreamNames(UpstreamsOf(init)) + [name] by {
          assert UpstreamOf(specs[n]).name == name by { UpstreamOfName(specs[n]); }
        }
        ElemsSnoc(UpstreamNames(UpstreamsOf(init)), name);
      } else {
        assert name in Elems(Names(init));
      }
    }
  }

  lemma UpstreamOfName(spec: Spec)
    ensures UpstreamOf(spec).name == spec.upstreamName
  {
  }

  lemma FirstOfPrefix(specs: seq<Spec>, n: nat, i: int, name: string)
    requires n <= |specs| && IsFirst(specs[..n], i, name)
    ensures IsFirst(specs, i, name) && specs[i] == specs[..n][i]
  {
  }

  lemma FirstAtEnd(specs: seq<Spec>)
    requires |specs| > 0 && specs[|specs| - 1].upstreamName !in Names(specs[..|specs| - 1])
    ensures IsFirst(specs, |specs| - 1, specs[|specs| - 1].upstreamName)
  {
    var n := |specs| - 1;
    assert forall j :: 0 <= j < n ==> specs[j].upstreamName == Names(specs[..n])[j];
  }

  lemma {:induction false} UpstreamsAreFirst(specs: seq<Spec>, u: Upstream)
    requires u in UpstreamsOf(specs)
    ensures exists i :: IsFirst(specs, i, u.name) && u == UpstreamOf(specs[i])
  {
    hide UpstreamOf;
    var n := |specs| - 1;
    if u in UpstreamsOf(specs[..n]) {
      UpstreamsAreFirst(specs[..n], u);
      var i :| IsFirst(specs[..n], i, u.name) && u == UpstreamOf(specs[..n][i]);
      FirstOfPrefix(specs, n, i, u.name);
    } else {
      UpstreamOfName(specs[n]);
      FirstAtEnd(specs);
    }
  }

  /** One upstream per name: no name repeats, none is lost, and the first specification decides. */
  lemma UpstreamsFirstWins(specs: seq<Spec>)
    ensures NoDup(UpstreamNames(UpstreamsOf(specs)))
    ensures Elems(UpstreamNames(UpstreamsOf(specs))) == Elems(Names(specs))
    ensures forall u :: u in UpstreamsOf(specs) ==>
      exists i :: IsFirst(specs, i, u.name) && u == UpstreamOf(specs[i])
  {
    hide UpstreamsOf;
    UpstreamNamesUnique(specs);
    forall u | u in UpstreamsOf(specs) ensures exists i :: IsFirst(specs, i, u.name) && u == UpstreamOf(specs[i]) {
      UpstreamsAreFirst(specs, u);
    }
  }

  /** One upstream per specification. */
  function UpstreamList(specs: seq<Spec>): (r: seq<Upstream>)
    ensures |r| == |specs| && forall i :: 0 <= i < |specs| ==> r[i] == UpstreamOf(specs[i])
  {
    seq(|specs|, i requires 0 <= i < |specs| => UpstreamOf(specs[i]))
  }

  lemma {:induction false} UpstreamsOfDistinct(specs: seq<Spec>)
    requires NoDup(Names(specs))
    ensures UpstreamsOf(specs) == UpstreamList(specs)
  {
    if |specs| == 0 {
    } else {
      var n := |specs| - 1;
      assert Names(specs[..n]) == Names(specs)[..n];
      UpstreamsOfDistinct(specs[..n]);
    }
  }

  lemma NoDupConcat<T>(a: seq<T>, b: seq<T>)
    ensures NoDup(a + b) <==> NoDup(a) && NoDup(b) && Elems(a) !! Elems(b)
    ensures Elems(a + b) == Elems(a) + Elems(b)
  {
    var c := a + b;
    assert forall x :: x in c <==> x in a || x in b;
    if NoDup(c) {
      assert forall i :: 0 <= i < |a| ==> c[i] == a[i];
      forall i, j | 0 <= i < j < |b| ensures b[i] != b[j] {
        assert c[|a| + i] != c[|a| + j];
      }
      forall x | x in a ensures x !in b {
        var i :| 0 <= i < |a| && a[i] == x;
        forall j | 0 <= j < |b| ensures b[j] != x {
          assert c[i] != c[|a| + j];
        }
      }
    }
    if NoDup(a) && NoDup(b) && Elems(a) !! Elems(b) {
      forall i, j | 0 <= i < j < |c| ensures c[i] != c[j] {
        if i < |a| <= j {
          assert c[i] in Elems(a) && c[j] in Elems(b);
        }
      }
    }
  }

  /** The upstream names contributed by one kind of endpoint. */
  ghost function NameSet(sources: seq<Source>, setup: Setup): set<string>
    requires SpecsOf(sources, setup).Ok?
  {
    Elems(Names(SpecsOf(sources, setup).value))
  }

  /**
   The combined upstream names are unique exactly when no two kinds of endpoint derive the
   same name; repetitions inside one kind are already removed.
   */
  lemma CombinedNamesUnique(e: Endpoints, protocols: seq<string>, setup: Setup)
    requires NginxConfigFor(e, protocols, setup).Ok?
    ensures var workers := NameSet(WorkerSources(e.topology), setup);
            var loki := NameSet(LokiSources(e.loki), setup);
            var remoteWrite := NameSet(RemoteWriteSources(e.remoteWrite), setup);
            var tracing := NameSet(TracingSources(e.charmTracing, e.workloadTracing), setup);
            NoDup(UpstreamNames(NginxConfigFor(e, protocols, setup).value.0))
            <==> workers !! loki !! remoteWrite !! tracing
  {
    hide SpecsOf, UpstreamsOf, LocationsOf;
    var w := SpecsOf(WorkerSources(e.topology), setup).value;
    var l := SpecsOf(LokiSources(e.loki), setup).value;
    var r := SpecsOf(RemoteWriteSources(e.remoteWrite), setup).value;
    var t := SpecsOf(TracingSources(e.charmTracing, e.workloadTracing), setup).value;
    assert NginxConfigFor(e, protocols, setup).value.0 == UpstreamsOf(w) + UpstreamsOf(l) + UpstreamsOf(r) + UpstreamsOf(t);
    FourGroupsUnique(w, l, r, t);
  }

  lemma FourGroupsUnique(w: seq<Spec>, l: seq<Spec>, r: seq<Spec>, t: seq<Spec>)
    ensures NoDup(UpstreamNames(UpstreamsOf(w) + UpstreamsOf(l) + UpstreamsOf(r) + UpstreamsOf(t)))
       <==> Elems(Names(w)) !! Elems(Names(l)) !! Elems(Names(r)) !! Elems(Names(t))
  {
    hide UpstreamsOf;
    UpstreamsFirstWins(w);
    UpstreamsFirstWins(l);
    UpstreamsFirstWins(r);
    UpstreamsFirstWins(t);
    var wn, ln, rn, tn := UpstreamNames(UpstreamsOf(w)), UpstreamNames(UpstreamsOf(l)),
                          UpstreamNames(UpstreamsOf(r)), UpstreamNames(UpstreamsOf(t));
    assert UpstreamNames(UpstreamsOf(w) + UpstreamsOf(l) + UpstreamsOf(r) + UpstreamsOf(t)) == wn + ln + rn + tn;
    NoDupConcat(wn, ln);
    NoDupConcat(wn + ln, rn);
    NoDupConcat(wn + ln + rn, tn);
  }

  // ----- names and paths determine each other

  lemma SamePadding(before: string, a: string, b: string, after: string)
    requires before + a + after == before + b + after
    ensures a == b
  {
    var x, y := before + a + after, before + b + after;
    assert |a| == |b|;
    assert a == x[|before|..|before| + |a|] && b == y[|before|..|before| + |b|];
  }

  /** An application name may contain dashes; the unit number may not. */
  predicate IsUnitName(unit: string) {
    exists i :: 0 <= i < |unit| && unit[i] == '/'
      && (forall j :: 0 <= j < i ==> unit[j] != '/')
      && (forall j :: i < j < |unit| ==> IsDigit(unit[j]))
  }

  /** Replacing the slash by a dash keeps unit names apart. */
  lemma SanitizedInjective(a: string, b: string)
    requires IsUnitName(a) && IsUnitName(b) && Sanitized(a) == Sanitized(b)
    ensures a == b
  {
    var i :| 0 <= i < |a| && a[i] == '/' && (forall j :: 0 <= j < i ==> a[j] != '/')
      && (forall j :: i < j < |a| ==> IsDigit(a[j]));
    var k :| 0 <= k < |b| && b[k] == '/' && (forall j :: 0 <= j < k ==> b[j] != '/')
      && (forall j :: k < j < |b| ==> IsDigit(b[j]));
    assert |a| == |b|;
    // the slash became the last dash of both
    assert Sanitized(a)[i] == '-' && Sanitized(b)[k] == '-';
    assert forall j :: i < j < |a| ==> Sanitized(a)[j] != '-';
    assert forall j :: k < j < |b| ==> Sanitized(b)[j] != '-';
    assert i == k;
    assert forall j :: 0 <= j < |a| ==> Sanitized(a)[j] == Sanitized(b)[j];
  }

  /** Two endpoints of the same kind, for the same unit as far as the proxy can tell. */
  predicate SameProxyUnit(s: Source, t: Source, setup: Setup) {
    match s
    case WorkerMetrics(unit, _) => t.WorkerMetrics? && Sanitized(unit) == Sanitized(t.unit)
    case LokiPush(unit, _) => t.LokiPush? && Sanitized(unit) == Sanitized(t.unit)
    case RemoteWrite(url) => t.RemoteWrite? && RemoteWriteUnit(url, setup) == RemoteWriteUnit(t.url, setup)
    case Tracing(kind, protocol, _) => t.Tracing? && t.kind == kind && t.protocol == protocol
  }

  /** Two locations that match exactly have the same path if and only if they are of the same kind and unit. */
  lemma ExactPathsDistinct(s: Source, t: Source, setup: Setup)
    requires !s.Tracing? && !t.Tracing?
    requires SpecOf(s, setup).Ok? && SpecOf(t, setup).Ok?
    ensures SpecOf(s, setup).value.locationPath == SpecOf(t, setup).value.locationPath <==> SameProxyUnit(s, t, setup)
    ensures SameProxyUnit(s, t, setup) ==> SpecOf(s, setup).value.upstreamName == SpecOf(t, setup).value.upstreamName
  {
    hide RemoteWriteUnit, UpstreamName, PortOrError;
    var p, q := SpecOf(s, setup).value.locationPath, SpecOf(t, setup).value.locationPath;
    assert p[7] == if s.WorkerMetrics? then 'w' else if s.LokiPush? then 'l' else 'r';
    assert q[7] == if t.WorkerMetrics? then 'w' else if t.LokiPush? then 'l' else 'r';
    if p == q {
      match s
      case WorkerMetrics(unit, _) => SamePadding("/proxy/worker/", Sanitized(unit), Sanitized(t.unit), "/metrics");
      case LokiPush(unit, _) => SamePadding("/proxy/loki/", Sanitized(unit), Sanitized(t.unit), "/push");
      case RemoteWrite(url) =>
        SamePadding("/proxy/remote-write/", RemoteWriteUnit(url, setup).value, RemoteWriteUnit(t.url, setup).value, "/write");
    }
  }

  /** No request below a tracing prefix matches an exact location. */
  lemma TracingNeverExact(kind: TracingKind, protocol: string, suffix: string, t: Source, setup: Setup)
    requires !t.Tracing? && SpecOf(t, setup).Ok?
    ensures TracingPath(kind, protocol) + suffix != SpecOf(t, setup).value.locationPath
  {
    hide RemoteWriteUnit, UpstreamName, PortOrError;
    var p, q := TracingPath(kind, protocol) + suffix, SpecOf(t, setup).value.locationPath;
    assert p[7] == if kind.Charm? then 'c' else 'w';
    assert q[7] == if t.WorkerMetrics? then 'w' else if t.LokiPush? then 'l' else 'r';
    if kind.Workload? && t.WorkerMetrics? {
      assert p[11] == 'l' && q[11] == 'e';
    }
  }

  lemma SegmentPrefix(p: string, q: string, suffix: string)
    requires '/' !in p && '/' !in q
    requires p + "/" <= q + "/" + suffix
    ensures p == q
  {
    var s := q + "/" + suffix;
    assert s[|p|] == (p + "/")[|p|] == '/';
    assert forall i :: 0 <= i < |p| ==> s[i] == p[i];
    assert forall i :: 0 <= i < |q| ==> s[i] == q[i];
    assert s[|q|] == '/';
    assert forall i :: 0 <= i < |p| ==> p[i] in p;
    assert forall i :: 0 <= i < |q| ==> q[i] in q;
  }

  /** Tracing prefixes are prefix-free as long as protocols are single path segments. */
  lemma TracingPrefixFree(kind: TracingKind, p: string, kind': TracingKind, q: string, suffix: string)
    requires '/' !in p && '/' !in q
    requires TracingPath(kind, p) <= TracingPath(kind', q) + suffix
    ensures kind == kind' && p == q
  {
    var a, b := TracingPath(kind, p), TracingPath(kind', q) + suffix;
    assert a[7] == if kind.Charm? then 'c' else 'w';
    assert b[7] == if kind'.Charm? then 'c' else 'w';
    assert a[7] == b[7];
    var lead := "/proxy/" + KindName(kind) + "-tracing/";
    assert a == lead + (p + "/") && b == lead + (q + "/" + suffix);
    assert a[|lead|..] == p + "/" && b[|lead|..] == q + "/" + suffix;
    assert a[|lead|..] <= b[|lead|..];
    SegmentPrefix(p, q, suffix);
  }

  // ----- the address table

  lemma {:induction false} TableFromAppend(base: AddressTable, a: seq<Source>, b: seq<Source>, setup: Setup)
    requires TableFrom(base, a, setup).Ok?
    ensures TableFrom(base, a + b, setup) == TableFrom(TableFrom(base, a, setup).value, b, setup)
  {
    hide AddressOf;
    if |b| == 0 {
      assert a + b == a;
    } else {
      var n := |b| - 1;
      assert (a + b)[..|a| + n] == a + b[..n];
      TableFromAppend(base, a, b[..n], setup);
    }
  }

  lemma {:induction false} WorkerTable(topology: seq<WorkerUnit>, setup: Setup)
    ensures var units := UnitAddresses(topology);
            TableFrom(map[], WorkerSources(topology), setup) == Ok(map unit | unit in units :: {Some(units[unit])})
  {
    if |topology| == 0 {
    } else {
      var n := |topology| - 1;
      assert WorkerSources(topology)[..n] == WorkerSources(topology[..n]);
      WorkerTable(topology[..n], setup);
      var before, after := UnitAddresses(topology[..n]), UnitAddresses(topology);
      var unit := topology[n].unit;
      assert (map u | u in after :: {Some(after[u])})
          == (map u | u in before :: {Some(before[u])})[unit := {Some(topology[n].address)}];
    }
  }

  /** The table is the one obtained by assigning the endpoints of all kinds in order. */
  lemma TableForAllSources(e: Endpoints, setup: Setup)
    requires TableFor(UnitAddresses(e.topology), e, setup).Ok?
    ensures TableFor(UnitAddresses(e.topology), e, setup) == TableFrom(map[], AllSources(e), setup)
  {
    hide AddressOf, TableFrom;
    var w, l := WorkerSources(e.topology), LokiSources(e.loki);
    var r, t := RemoteWriteSources(e.remoteWrite), TracingSources(e.charmTracing, e.workloadTracing);
    WorkerTable(e.topology, setup);
    TableFromAppend(map[], w, l, setup);
    TableFromAppend(map[], w + l, r, setup);
    TableFromAppend(map[], w + l + r, t, setup);
  }

  /** The table keeps the last assignment to a key. */
  lemma {:induction false} LastAssignmentWins(base: AddressTable, sources: seq<Source>, setup: Setup, i: nat)
    requires i < |sources| && TableFrom(base, sources, setup).Ok?
    requires AddressOf(sources[i], setup).value.Some?
    requires forall j :: i < j < |sources| && AddressOf(sources[j], setup).value.Some? ==>
      AddressOf(sources[j], setup).value.value.0 != AddressOf(sources[i], setup).value.value.0
    ensures var entry := AddressOf(sources[i], setup).value.value;
            entry.0 in TableFrom(base, sources, setup).value
            && TableFrom(base, sources, setup).value[entry.0] == {entry.1}
  {
    hide AddressOf;
    var n := |sources| - 1;
    if i < n {
      assert forall j :: 0 <= j < n ==> sources[..n][j] == sources[j];
      LastAssignmentWins(base, sources[..n], setup, i);
    }
  }

  /** A key is in the table exactly when it was there or some endpoint assigned it. */
  lemma {:induction false} TableKeys(base: AddressTable, sources: seq<Source>, setup: Setup, key: string)
    requires TableFrom(base, sources, setup).Ok?
    ensures key in TableFrom(base, sources, setup).value <==>
      key in base || exists i :: 0 <= i < |sources| && AddressOf(sources[i], setup).value.Some?
                                 && AddressOf(sources[i], setup).value.value.0 == key
  {
    hide AddressOf;
    if |sources| == 0 {
    } else {
      var n := |sources| - 1;
      assert forall j :: 0 <= j < n ==> sources[..n][j] == sources[j];
      TableKeys(base, sources[..n], setup, key);
      assert forall i :: 0 <= i < n && AddressOf(sources[..n][i], setup).value.Some? ==>
        AddressOf(sources[i], setup).value.Some?;
    }
  }

  /** The two halves of the compiler agree on the key and the host of every endpoint. */
  lemma KeysAgree(source: Source, setup: Setup)
    requires SpecOf(source, setup).Ok?
    ensures AddressOf(source, setup).Ok?
    ensures Parsed(source, setup).hostname.Some? ==>
      AddressOf(source, setup).value == Some((SpecOf(source, setup).value.lookupKey, Parsed(source, setup).hostname))
    ensures Parsed(source, setup).hostname.None? ==>
      if source.Tracing? then AddressOf(source, setup).value.None?
      else AddressOf(source, setup).value == Some((SpecOf(source, setup).value.lookupKey, None))
    ensures AddressOf(source, setup).value.Some? ==>
      AddressOf(source, setup).value.value.0 == SpecOf(source, setup).value.lookupKey
  {
    hide SanitizeHostname, UpstreamName, TracingName, Sanitized, MetricsPath, LokiPath, RemoteWritePath, TracingPath;
  }

  // ----- the built configuration

  /** What the coordinator hands to nginx: the charm's own parts, then the telemetry parts. */
  datatype Proxy = Proxy(
    upstreams: seq<Upstream>,
    locations: seq<Location>,  // of the proxy port
    addresses: AddressTable,
    listenTls: bool)
  {
    /** Where a request for `uri` on the proxy port may be sent. */
    function Route(uri: string): set<Target> {
      Targets(upstreams, locations, addresses, listenTls, uri)
    }
  }

  /** The charm's own configuration keeps out of the telemetry proxy's name space. */
  predicate LeavesProxyAlone(upstreams: seq<Upstream>, locations: seq<Location>) {
    && (forall u :: u in upstreams ==> !(UPSTREAM_PREFIX <= u.name))
    && (forall l :: l in locations ==> l.modifier in {"", "="} && !("/proxy/" <= l.path))
  }

  /** No two endpoints share a derived upstream name or lookup key. */
  ghost predicate Unambiguous(specs: seq<Spec>) {
    && NoDup(Names(specs))
    && forall i, j :: 0 <= i < j < |specs| ==> specs[i].lookupKey != specs[j].lookupKey
  }

  /** Tracing protocols are single path segments made of plain characters. */
  predicate PlainProtocols(sources: seq<Source>) {
    forall s :: s in sources && s.Tracing? ==> IsLiteral(s.protocol) && '/' !in s.protocol
  }

  /** `proxy` is the charm's configuration extended with that of `sources`. */
  ghost predicate Built(proxy: Proxy, sources: seq<Source>, setup: Setup,
                        charmUpstreams: seq<Upstream>, charmLocations: seq<Location>, roles: AddressTable)
  {
    && SpecsOf(sources, setup).Ok?
    && LeavesProxyAlone(charmUpstreams, charmLocations)
    && var specs := SpecsOf(sources, setup).value;
    && proxy.upstreams == charmUpstreams + UpstreamList(specs)
    && proxy.locations == charmLocations + LocationsOf(specs)
    && TableFrom(map[], sources, setup).Ok?
    && proxy.addresses == roles + TableFrom(map[], sources, setup).value
  }

  lemma SpecShape(source: Source, setup: Setup)
    requires SpecOf(source, setup).Ok?
    ensures var spec := SpecOf(source, setup).value;
            && spec.locationPath == PublishedPath(source, setup)
            && "/proxy/" <= spec.locationPath
            && UPSTREAM_PREFIX <= spec.upstreamName
            && spec.modifier == (if source.Tracing? then "" else "=")
            && spec.backendUrl == Parsed(source, setup).path
            && spec.upstreamTls == EndsWithS(Parsed(source, setup).scheme)
            && GetPort(Parsed(source, setup)) == Some(spec.upstreamPort)
            && spec.rewrite == (if source.Tracing? then Some(["^" + spec.locationPath + REST, "/$1", "break"]) else None)
  {
    hide RemoteWriteUnit, TracingName, Sanitized, Setup.TolerantUrlParse;
  }

  lemma BuiltFacts(proxy: Proxy, sources: seq<Source>, setup: Setup, charmUpstreams: seq<Upstream>,
                   charmLocations: seq<Location>, roles: AddressTable, i: nat)
    requires Built(proxy, sources, setup, charmUpstreams, charmLocations, roles) && i < |sources|
    ensures SpecsOf(sources, setup).Ok? && SpecOf(sources[i], setup) == Ok(SpecsOf(sources, setup).value[i])
    ensures |proxy.upstreams| > |charmUpstreams| + i
    ensures proxy.upstreams[|charmUpstreams| + i] == UpstreamOf(SpecsOf(sources, setup).value[i])
    ensures |proxy.locations| == |charmLocations| + |sources|
    ensures proxy.locations[|charmLocations| + i] == LocationOf(SpecsOf(sources, setup).value[i])
  {
    hide SpecOf, TableFrom, LeavesProxyAlone, UpstreamOf, LocationOf;
  }

  lemma OtherLocation(proxy: Proxy, sources: seq<Source>, setup: Setup, charmUpstreams: seq<Upstream>,
                      charmLocations: seq<Location>, roles: AddressTable, i: nat, suffix: string, k: nat)
    requires Built(proxy, sources, setup, charmUpstreams, charmLocations, roles)
    requires Unambiguous(SpecsOf(sources, setup).value) && PlainProtocols(sources)
    requires i < |sources| && (sources[i].Tracing? || suffix == "")
    requires k < |proxy.locations| && k != |charmLocations| + i
    ensures var uri := PublishedPath(sources[i], setup) + suffix;
            && (proxy.locations[k].modifier == "=" ==> proxy.locations[k].path != uri)
            && (sources[i].Tracing? && PrefixMatches(proxy.locations[k], uri) ==>
                  |proxy.locations[k].path| < |SpecsOf(sources, setup).value[i].locationPath|)
  {
    hide SpecOf, TableFrom, UpstreamsOf, PublishedPath, PlainProtocols, UpstreamList;
    var specs := SpecsOf(sources, setup).value;
    var n := |charmLocations|;
    if k < n {
      CharmLocation(sources[i], setup, suffix, proxy.locations[k], charmLocations, charmUpstreams);
    } else {
      SpecShape(sources[i], setup);
      var j := k - n;
      assert proxy.locations[k] == LocationOf(specs[j]);
      SpecShape(sources[j], setup);
      assert Names(specs)[i] != Names(specs)[j];
      OthersDoNotMatch(sources, setup, i, j, suffix);
    }
  }

  lemma CharmLocation(s: Source, setup: Setup, suffix: string, l: Location, charmLocations: seq<Location>,
                      charmUpstreams: seq<Upstream>)
    requires SpecOf(s, setup).Ok? && l in charmLocations && LeavesProxyAlone(charmUpstreams, charmLocations)
    ensures l.path != PublishedPath(s, setup) + suffix
    ensures l.path <= PublishedPath(s, setup) + suffix ==> |l.path| < |SpecOf(s, setup).value.locationPath|
  {
    hide SpecOf, PublishedPath;
    SpecShape(s, setup);
    var uri := PublishedPath(s, setup) + suffix;
    assert "/proxy/" <= uri;
    ShorterThanProxy(l.path, uri);
  }

  lemma ShorterThanProxy(path: string, uri: string)
    requires "/proxy/" <= uri && !("/proxy/" <= path)
    ensures path <= uri ==> |path| < 7
  {
    assert forall k :: 0 <= k < 7 ==> uri[k] == "/proxy/"[k];
  }

  lemma LocationChosen(proxy: Proxy, sources: seq<Source>, setup: Setup, charmUpstreams: seq<Upstream>,
                       charmLocations: seq<Location>, roles: AddressTable, i: nat, suffix: string)
    requires Built(proxy, sources, setup, charmUpstreams, charmLocations, roles)
    requires Unambiguous(SpecsOf(sources, setup).value) && PlainProtocols(sources)
    requires i < |sources| && (sources[i].Tracing? || suffix == "")
    ensures ChooseLocation(proxy.locations, PublishedPath(sources[i], setup) + suffix)
         == Some(LocationOf(SpecsOf(sources, setup).value[i]))
  {
    hide SpecOf, TableFrom, ChooseLocation, UpstreamsOf, PublishedPath, PlainProtocols, Unambiguous, Built;
    BuiltFacts(proxy, sources, setup, charmUpstreams, charmLocations, roles, i);
    var specs := SpecsOf(sources, setup).value;
    var uri := PublishedPath(sources[i], setup) + suffix;
    var n := |charmLocations|;
    SpecShape(sources[i], setup);
    forall k: nat | k < |proxy.locations| && k != n + i
      ensures proxy.locations[k].modifier == "=" ==> proxy.locations[k].path != uri
      ensures sources[i].Tracing? && PrefixMatches(proxy.locations[k], uri) ==>
        |proxy.locations[k].path| < |specs[i].locationPath|
    {
      OtherLocation(proxy, sources, setup, charmUpstreams, charmLocations, roles, i, suffix, k);
    }
    if sources[i].Tracing? {
      ChoosePrefix(proxy.locations, uri, n + i);
    } else {
      assert uri == specs[i].locationPath;
      ChooseExact(proxy.locations, uri, n + i);
    }
  }

  lemma OthersDoNotMatch(sources: seq<Source>, setup: Setup, i: nat, j: nat, suffix: string)
    requires SpecsOf(sources, setup).Ok? && PlainProtocols(sources)
    requires i < |sources| && j < |sources| && (sources[i].Tracing? || suffix == "")
    requires SpecsOf(sources, setup).value[i].upstreamName != SpecsOf(sources, setup).value[j].upstreamName
    ensures !sources[j].Tracing? ==>
      SpecOf(sources[j], setup).value.locationPath != PublishedPath(sources[i], setup) + suffix
    ensures sources[i].Tracing? && sources[j].Tracing? ==>
      !(SpecOf(sources[j], setup).value.locationPath <= PublishedPath(sources[i], setup) + suffix)
  {
    hide SpecOf;
    var s, t := sources[i], sources[j];
    assert s in sources && t in sources;
    SpecShape(s, setup);
    SpecShape(t, setup);
    if s.Tracing? && t.Tracing? {
      if TracingPath(t.kind, t.protocol) <= TracingPath(s.kind, s.protocol) + suffix {
        TracingPrefixFree(t.kind, t.protocol, s.kind, s.protocol, suffix);
        TracingNamed(s, t, setup);
      }
    } else if s.Tracing? {
      TracingNeverExact(s.kind, s.protocol, suffix, t, setup);
    } else if !t.Tracing? {
      assert PublishedPath(s, setup) + "" == PublishedPath(s, setup);
      ExactPathsDistinct(s, t, setup);
    }
  }

  lemma TracingNamed(s: Source, t: Source, setup: Setup)
    requires s.Tracing? && t.Tracing? && s.kind == t.kind && s.protocol == t.protocol
    requires SpecOf(s, setup).Ok? && SpecOf(t, setup).Ok?
    ensures SpecOf(s, setup).value.upstreamName == SpecOf(t, setup).value.upstreamName
  {
  }

  lemma UpstreamFound(proxy: Proxy, sources: seq<Source>, setup: Setup, charmUpstreams: seq<Upstream>,
                      charmLocations: seq<Location>, roles: AddressTable, i: nat)
    requires Built(proxy, sources, setup, charmUpstreams, charmLocations, roles)
    requires Unambiguous(SpecsOf(sources, setup).value) && i < |sources|
    ensures FindUpstream(proxy.upstreams, SpecsOf(sources, setup).value[i].upstreamName) == |charmUpstreams| + i
  {
    hide SpecOf, TableFrom, LocationsOf, UpstreamName, Built, Unambiguous;
    BuiltFacts(proxy, sources, setup, charmUpstreams, charmLocations, roles, i);
    var specs := SpecsOf(sources, setup).value;
    forall k: nat | k < |proxy.upstreams| && k != |charmUpstreams| + i
      ensures proxy.upstreams[k].name != specs[i].upstreamName
    {
      OtherUpstream(proxy, sources, setup, charmUpstreams, charmLocations, roles, i, k);
    }
    FindUniqueUpstream(proxy.upstreams, |charmUpstreams| + i);
  }

  lemma OtherUpstream(proxy: Proxy, sources: seq<Source>, setup: Setup, charmUpstreams: seq<Upstream>,
                      charmLocations: seq<Location>, roles: AddressTable, i: nat, k: nat)
    requires Built(proxy, sources, setup, charmUpstreams, charmLocations, roles)
    requires Unambiguous(SpecsOf(sources, setup).value) && i < |sources|
    requires k < |proxy.upstreams| && k != |charmUpstreams| + i
    ensures proxy.upstreams[k].name != SpecsOf(sources, setup).value[i].upstreamName
  {
    hide SpecOf, TableFrom, LocationsOf, UpstreamName;
    var specs := SpecsOf(sources, setup).value;
    var n := |charmUpstreams|;
    if k < n {
      SpecShape(sources[i], setup);
      assert proxy.upstreams[k] == charmUpstreams[k];
      assert charmUpstreams[k] in charmUpstreams;
    } else {
      assert proxy.upstreams[k] == UpstreamList(specs)[k - n];
      assert Names(specs)[i] != Names(specs)[k - n];
    }
  }

  lemma AddressFound(proxy: Proxy, sources: seq<Source>, setup: Setup, charmUpstreams: seq<Upstream>,
                     charmLocations: seq<Location>, roles: AddressTable, i: nat)
    requires Built(proxy, sources, setup, charmUpstreams, charmLocations, roles)
    requires Unambiguous(SpecsOf(sources, setup).value) && i < |sources|
    requires Parsed(sources[i], setup).hostname.Some?
    ensures Addresses(proxy.addresses, SpecsOf(sources, setup).value[i].lookupKey)
         == {Parsed(sources[i], setup).hostname.value}
  {
    hide SpecOf, AddressOf, TableFrom;
    var specs := SpecsOf(sources, setup).value;
    KeysAgree(sources[i], setup);
    forall j | i < j < |sources| && AddressOf(sources[j], setup).value.Some?
      ensures AddressOf(sources[j], setup).value.value.0 != specs[i].lookupKey
    {
      KeysAgree(sources[j], setup);
      assert specs[j].lookupKey != specs[i].lookupKey;
    }
    LastAssignmentWins(map[], sources, setup, i);
    assert proxy.addresses[specs[i].lookupKey] == {Parsed(sources[i], setup).hostname};
  }

  lemma TargetsThrough(proxy: Proxy, uri: string, spec: Spec, host: string, u: nat)
    requires ChooseLocation(proxy.locations, uri) == Some(LocationOf(spec))
    requires u < |proxy.upstreams| && proxy.upstreams[u] == UpstreamOf(spec)
    requires FindUpstream(proxy.upstreams, spec.upstreamName) == u
    requires Addresses(proxy.addresses, spec.lookupKey) == {host}
    requires spec.rewrite.Some? ==> Rewrite(spec.rewrite.value, uri).Some?
    ensures var rewritten := if spec.rewrite.None? then uri else Rewrite(spec.rewrite.value, uri).value;
            proxy.Route(uri) == {Target(spec.upstreamTls, host, spec.upstreamPort,
                                        if spec.backendUrl == "" then rewritten else spec.backendUrl)}
  {
    hide ChooseLocation, FindUpstream, Addresses, Rewrite;
  }

  lemma TracingPathIsLiteral(kind: TracingKind, protocol: string)
    requires IsLiteral(protocol)
    ensures IsLiteral(TracingPath(kind, protocol))
  {
  }

  /**
   Routing preserves meaning. A request for the published path of an endpoint (below it, for
   tracing) is proxied to that endpoint and nowhere else: same TLS flag, same host, same
   port, explicit or the default of the scheme.
   */
  lemma RoutesToOriginal(proxy: Proxy, sources: seq<Source>, setup: Setup, charmUpstreams: seq<Upstream>,
                         charmLocations: seq<Location>, roles: AddressTable, i: nat, suffix: string)
    requires Built(proxy, sources, setup, charmUpstreams, charmLocations, roles)
    requires Unambiguous(SpecsOf(sources, setup).value) && PlainProtocols(sources)
    requires i < |sources| && (sources[i].Tracing? || suffix == "")
    requires Parsed(sources[i], setup).hostname.Some?
    ensures GetPort(Parsed(sources[i], setup)).Some?
    ensures proxy.Route(PublishedPath(sources[i], setup) + suffix)
         == {OriginalTarget(sources[i], setup, Forwarded(sources[i], setup, suffix))}
  {
    hide SpecOf, TableFrom, ChooseLocation, FindUpstream, Addresses, Rewrite, UpstreamsOf, Parsed, Unambiguous, Proxy.Route;
    hide Built, TracingPath, MetricsPath, LokiPath, RemoteWritePath, UpstreamName, IsLiteral;
    BuiltFacts(proxy, sources, setup, charmUpstreams, charmLocations, roles, i);
    var specs := SpecsOf(sources, setup).value;
    var s := sources[i];
    var uri := PublishedPath(s, setup) + suffix;
    SpecShape(s, setup);
    LocationChosen(proxy, sources, setup, charmUpstreams, charmLocations, roles, i, suffix);
    UpstreamFound(proxy, sources, setup, charmUpstreams, charmLocations, roles, i);
    AddressFound(proxy, sources, setup, charmUpstreams, charmLocations, roles, i);
    if s.Tracing? {
      assert s in sources;
      TracingPathIsLiteral(s.kind, s.protocol);
      RewriteDropsPrefix(TracingPath(s.kind, s.protocol), suffix);
    }
    TargetsThrough(proxy, uri, specs[i], Parsed(s, setup).hostname.value, |charmUpstreams| + i);
  }

  /**
   What arrives at the endpoint, exactly. Worker metrics, Loki and remote-write requests arrive
   at the path of the real URL if and only if that path is not empty (nginx forwards the proxy's
   own path otherwise); a tracing prefix is transparent if and only if the receiver's path is empty.
   */
  lemma ForwardedPath(source: Source, setup: Setup)
    requires SpecOf(source, setup).Ok?
    ensures !source.Tracing? ==>
      (Forwarded(source, setup, "") == Parsed(source, setup).path <==> Parsed(source, setup).path != "")
    ensures source.Tracing? ==>
      ((forall suffix :: Forwarded(source, setup, suffix) == "/" + suffix) <==> Parsed(source, setup).path == "")
  {
    hide SpecOf, Parsed;
    var path := Parsed(source, setup).path;
    SpecShape(source, setup);
    if source.Tracing? && path != "" {
      assert Forwarded(source, setup, "a") == path && Forwarded(source, setup, "b") == path;
      assert ("/" + "a")[1] != ("/" + "b")[1];
    }
  }

  /** For example, Loki at "http://loki:3100" receives what is pushed to it at the path of the proxy. */
  lemma PathlessExample(setup: Setup, unit: string)
    requires forall url :: setup.urlparse(url) == UrlParse(url)
    ensures var s := LokiPush(unit, "http" + "://" + "loki" + ":" + Decimal(3100) + "");
            && SpecOf(s, setup).Ok? && Parsed(s, setup).path == ""
            && Forwarded(s, setup, "") == LokiPath(Sanitized(unit)) != Parsed(s, setup).path
  {
    hide UrlParse, Decimal;
    AbsoluteUrlRoundTrip("http", "loki", 3100, "");
    assert LokiPath(Sanitized(unit)) + "" == LokiPath(Sanitized(unit));
  }

  /** For example, a receiver at "http://tempo:4318/v1" receives every request below its proxy URL at "/v1". */
  lemma ReceiverPathExample(setup: Setup, kind: TracingKind, protocol: string, suffix: string)
    requires forall url :: setup.urlparse(url) == UrlParse(url)
    ensures var s := Tracing(kind, protocol, "http" + "://" + "tempo" + ":" + Decimal(4318) + "/v1");
            SpecOf(s, setup).Ok? && Forwarded(s, setup, suffix) == "/v1"
  {
    hide UrlParse, Decimal, Contains;
    var url := "http" + "://" + "tempo" + ":" + Decimal(4318) + "/v1";
    AbsoluteUrlRoundTrip("http", "tempo", 4318, "/v1");
    assert url == "http" + "://" + ("tempo" + ":" + Decimal(4318) + "/v1");
    ContainsInside("http", "://", "tempo" + ":" + Decimal(4318) + "/v1");
  }

  lemma ProxyUrlRoundTrip(tls: bool, hostname: string, port: nat, path: string)
    requires PlainHost(hostname) && port <= MAX_PORT && PlainPath(path)
    ensures UrlParse(ProxyUrl(tls, hostname, port, path))
         == ParseResult(if tls then "https" else "http", Some(Lower(hostname)), Port(port), path)
  {
    hide UrlParse, Decimal, PlainPath, PlainHost;
    AbsoluteUrlRoundTrip(if tls then "https" else "http", hostname, port, path);
  }

  /**
   End to end: a client that is given the proxy URL of an endpoint, parses it and appends a
   suffix contacts the coordinator's proxy port, whose nginx sends it to the real endpoint.
   */
  lemma PublishedUrlReachesEndpoint(proxy: Proxy, sources: seq<Source>, setup: Setup, charmUpstreams: seq<Upstream>,
                                    charmLocations: seq<Location>, roles: AddressTable, i: nat, suffix: string,
                                    hostname: string, port: nat)
    requires Built(proxy, sources, setup, charmUpstreams, charmLocations, roles)
    requires Unambiguous(SpecsOf(sources, setup).value) && PlainProtocols(sources)
    requires i < |sources| && (sources[i].Tracing? || suffix == "")
    requires Parsed(sources[i], setup).hostname.Some?
    requires PlainHost(hostname) && port <= MAX_PORT && PlainPath(PublishedPath(sources[i], setup))
    ensures GetPort(Parsed(sources[i], setup)).Some?
    ensures var url := UrlParse(ProxyUrl(setup.tls, hostname, port, PublishedPath(sources[i], setup)));
            && url.hostname == Some(Lower(hostname))
            && url.port == Port(port)
            && EndsWithS(url.scheme) == setup.tls
            && proxy.Route(url.path + suffix)
               == {OriginalTarget(sources[i], setup, Forwarded(sources[i], setup, suffix))}
  {
    hide UrlParse, LeavesProxyAlone, TableFrom, LocationsOf, UpstreamOf, Unambiguous, PublishedPath, Parsed, SpecOf, Proxy.Route;
    hide ProxyUrl, Decimal, Forwarded, OriginalTarget, PlainPath, PlainHost, PlainProtocols;
    assert SpecOf(sources[i], setup).Ok?;
    ProxyUrlRoundTrip(setup.tls, hostname, port, PublishedPath(sources[i], setup));
    RoutesToOriginal(proxy, sources, setup, charmUpstreams, charmLocations, roles, i, suffix);
  }

  // ----- when names are unambiguous

  lemma UpstreamNameInjective(a: string, b: string)
    requires UpstreamName(a) == UpstreamName(b)
    ensures a == b
  {
    var lead := UPSTREAM_PREFIX + "-";
    assert UpstreamName(a)[|lead|..] == a && UpstreamName(b)[|lead|..] == b;
  }

  /** Worker and Loki units of different names never share an upstream. */
  lemma UnitsNamedApart(s: Source, t: Source, setup: Setup)
    requires (s.WorkerMetrics? || s.LokiPush?) && (t.WorkerMetrics? || t.LokiPush?)
    requires IsUnitName(s.unit) && IsUnitName(t.unit)
    requires SpecOf(s, setup).Ok? && SpecOf(t, setup).Ok?
    ensures SpecOf(s, setup).value.upstreamName == SpecOf(t, setup).value.upstreamName <==> s.unit == t.unit
  {
    hide UpstreamName, IsUnitName;
    if SpecOf(s, setup).value.upstreamName == SpecOf(t, setup).value.upstreamName {
      UpstreamNameInjective(Sanitized(s.unit), Sanitized(t.unit));
      SanitizedInjective(s.unit, t.unit);
    }
  }

  /** The names an endpoint is built from carry the slash that separates unit names from all others. */
  predicate WellNamed(source: Source, setup: Setup) {
    match source
    case WorkerMetrics(unit, _) => IsUnitName(unit)
    case LokiPush(unit, _) => IsUnitName(unit)
    case RemoteWrite(url) => RemoteWriteUnit(url, setup).Ok? && '/' !in RemoteWriteUnit(url, setup).value
    case Tracing(_, protocol, _) => '/' !in protocol
  }

  /** A remote-write host sanitises to the upstream name of a tracing receiver. */
  predicate NamedLikeReceiver(s: Source, t: Source, setup: Setup) {
    s.RemoteWrite? && t.Tracing? && RemoteWriteUnit(s.url, setup) == Ok(UpstreamName(TracingName(t.kind, t.protocol)))
  }

  /**
   Endpoints with distinct upstreams share a lookup key in one case only: a remote-write host
   whose sanitised name is the upstream name of a tracing receiver.
   */
  lemma LookupKeysClash(s: Source, t: Source, setup: Setup)
    requires WellNamed(s, setup) && WellNamed(t, setup)
    requires SpecOf(s, setup).Ok? && SpecOf(t, setup).Ok?
    requires SpecOf(s, setup).value.upstreamName != SpecOf(t, setup).value.upstreamName
    ensures SpecOf(s, setup).value.lookupKey == SpecOf(t, setup).value.lookupKey <==>
      NamedLikeReceiver(s, t, setup) || NamedLikeReceiver(t, s, setup)
  {
    hide RemoteWriteUnit, PortOrError, TracingPath, Sanitized;
    SlashInKey(s, setup);
    SlashInKey(t, setup);
  }

  /**
   Names are unambiguous if and only if no derived upstream name repeats and no remote-write host is
   named like a tracing receiver.
   */
  lemma UnambiguousIff(sources: seq<Source>, setup: Setup)
    requires SpecsOf(sources, setup).Ok? && forall s :: s in sources ==> WellNamed(s, setup)
    ensures Unambiguous(SpecsOf(sources, setup).value) <==>
      NoDup(Names(SpecsOf(sources, setup).value))
      && forall s, t :: s in sources && t in sources ==> !NamedLikeReceiver(s, t, setup)
  {
    hide SpecsOf, SpecOf, NamedLikeReceiver;
    var specs := SpecsOf(sources, setup).value;
    if NoDup(Names(specs)) {
      forall i, j | 0 <= i < j < |specs|
        ensures sources[i] in sources && sources[j] in sources
        ensures specs[i].lookupKey == specs[j].lookupKey <==>
          NamedLikeReceiver(sources[i], sources[j], setup) || NamedLikeReceiver(sources[j], sources[i], setup)
      {
        assert Names(specs)[i] != Names(specs)[j];
        LookupKeysClash(sources[i], sources[j], setup);
      }
      NeverLikeItself(sources, setup);
    }
  }

  lemma NeverLikeItself(sources: seq<Source>, setup: Setup)
    ensures forall s :: s in sources ==> !NamedLikeReceiver(s, s, setup)
  {
  }

  /** With URLs parsed as in RFC 3986, sanitised remote-write hosts are free of URL delimiters. */
  lemma RemoteWriteUnitHasNoDelimiter(url: string, setup: Setup, c: char)
    requires forall u :: setup.urlparse(u) == UrlParse(u)
    requires IsDelimiter(c)
    ensures RemoteWriteUnit(url, setup).Ok? ==> c !in RemoteWriteUnit(url, setup).value
  {
    hide UrlParse, SanitizeHostname;
    HostnameHasNoDelimiter(url, c);
    if RemoteWriteUnit(url, setup).Ok? {
      SanitizedHasNoDelimiter(setup.urlparse(url).hostname.value, setup.isIp, c);
    }
  }

  /** Lookup keys of units have a slash, all others have none. */
  lemma SlashInKey(s: Source, setup: Setup)
    requires WellNamed(s, setup) && SpecOf(s, setup).Ok?
    ensures '/' in SpecOf(s, setup).value.lookupKey <==> s.WorkerMetrics? || s.LokiPush?
  {
    hide RemoteWriteUnit, PortOrError, IsUnitName;
    hide UpstreamName, TracingName, Sanitized, MetricsPath, LokiPath, RemoteWritePath, TracingPath, Setup.TolerantUrlParse;
    match s
    case WorkerMetrics(unit, _) => SlashInUnitName(unit);
    case LokiPush(unit, _) => SlashInUnitName(unit);
    case RemoteWrite(_) =>
    case Tracing(kind, protocol, _) => NoSlashInReceiverName(kind, protocol);
  }

  lemma SlashInUnitName(unit: string)
    requires IsUnitName(unit)
    ensures '/' in unit
  {
  }

  lemma NoSlashInReceiverName(kind: TracingKind, protocol: string)
    requires '/' !in protocol
    ensures '/' !in UpstreamName(TracingName(kind, protocol))
  {
    var lead := UPSTREAM_PREFIX + "-" + KindName(kind) + "-";
    assert UpstreamName(TracingName(kind, protocol)) == lead + protocol;
    assert '/' !in lead;
  }
}
