/**
 The parts of an nginx configuration that the coordinator produces, and what such a
 configuration does with a request. Rendering is the usual one: a location sets
 `$backend` to `scheme://upstream` followed by the backend URL, applies its rewrite,
 and proxies to `$backend`.
 */
module Nginx {
  import opened Prelude
  import opened Text

  datatype Upstream = Upstream(name: string, port: nat, addressLookupKey: string)

  datatype Location = Location(
    path: string,
    backend: string,
    backendUrl: string,
    upstreamTls: Option<bool>,  // None: as the server listens
    modifier: string,
    rewrite: Option<seq<string>>,
    extraDirectives: map<string, seq<string>>,
    isGrpc: bool)

  /** Upstream lookup key to addresses; an unparsable address shows up as None. */
  type AddressTable = map<string, set<Option<string>>>

  /** Where a proxied request ends up. */
  datatype Target = Target(tls: bool, host: string, port: nat, uri: string)

  // ----- choosing a location

  /** The first location that matches exactly, or the number of locations. */
  function ExactMatch(locations: seq<Location>, uri: string): (i: nat)
    ensures i <= |locations|
    ensures i < |locations| ==> locations[i].modifier == "=" && locations[i].path == uri
    ensures forall j :: 0 <= j < i ==> !(locations[j].modifier == "=" && locations[j].path == uri)
  {
    if |locations| == 0 || (locations[0].modifier == "=" && locations[0].path == uri) then 0
    else 1 + ExactMatch(locations[1..], uri)
  }

  predicate PrefixMatches(location: Location, uri: string) {
    location.modifier == "" && location.path <= uri
  }

  /** The prefix location with the longest path, or the number of locations. */
  function LongestPrefix(locations: seq<Location>, uri: string): (i: nat)
    ensures i <= |locations|
    ensures i < |locations| ==> PrefixMatches(locations[i], uri)
    ensures i == |locations| ==> forall j :: 0 <= j < |locations| ==> !PrefixMatches(locations[j], uri)
    ensures i < |locations| ==> forall j :: 0 <= j < |locations| && PrefixMatches(locations[j], uri) ==>
      |locations[j].path| <= |locations[i].path|
  {
    if |locations| == 0 then 0
    else
      var n := |locations| - 1;
      var best := LongestPrefix(locations[..n], uri);
      assert forall j :: 0 <= j < n ==> locations[..n][j] == locations[j];
      if PrefixMatches(locations[n], uri)
         && (best == n || |locations[best].path| < |locations[n].path|) then n
      else if best < n then best
      else n + 1
  }

  /** An exact match wins; otherwise the longest matching prefix does. */
  function ChooseLocation(locations: seq<Location>, uri: string): Option<Location> {
    var exact := ExactMatch(locations, uri);
    if exact < |locations| then Some(locations[exact])
    else
      var best := LongestPrefix(locations, uri);
      if best < |locations| then Some(locations[best]) else None
  }

  // ----- rewriting

  /** Characters that stand for themselves in a regular expression. */
  predicate IsLiteralChar(c: char) {
    IsLetter(c) || IsDigit(c) || c in {'/', '-', '_'}
  }

  predicate IsLiteral(s: string) {
    forall i :: 0 <= i < |s| ==> IsLiteralChar(s[i])
  }

  const REST := "(.*)"

  /**
   The URI after a rewrite of the form `^literal(.*) /$1 break`; None for any other form,
   which this model does not interpret.
   */
  function Rewrite(rule: seq<string>, uri: string): Option<string> {
    if |rule| == 3 && rule[1] == "/$1" && rule[2] == "break"
       && |rule[0]| > |REST| && rule[0][0] == '^' && rule[0][|rule[0]| - |REST|..] == REST then
      var literal := rule[0][1..|rule[0]| - |REST|];
      if !IsLiteral(literal) then None
      else Some(if literal <= uri then "/" + uri[|literal|..] else uri)
    else
      None
  }

  // ----- resolving a request

  /** The first upstream of the given name, or the number of upstreams. */
  function FindUpstream(upstreams: seq<Upstream>, name: string): (i: nat)
    ensures i <= |upstreams|
    ensures i < |upstreams| ==> upstreams[i].name == name
    ensures forall j :: 0 <= j < i ==> upstreams[j].name != name
  {
    if |upstreams| == 0 || upstreams[0].name == name then 0 else 1 + FindUpstream(upstreams[1..], name)
  }

  function Addresses(table: AddressTable, key: string): set<string> {
    if key in table then set a | a in table[key] && a.Some? :: a.value else {}
  }

  /**
   Everywhere a request for `uri` may be proxied to: one target per address of the
   upstream. Empty when no location matches or the upstream has no address.
   */
  function Targets(upstreams: seq<Upstream>, locations: seq<Location>, table: AddressTable,
                   listenTls: bool, uri: string): set<Target>
  {
    match ChooseLocation(locations, uri)
    case None => {}
    case Some(location) =>
      var u := FindUpstream(upstreams, location.backend);
      var rewritten := if location.rewrite.None? then Some(uri) else Rewrite(location.rewrite.value, uri);
      if u == |upstreams| || rewritten.None? then {}
      else
        var tls := if location.upstreamTls.Some? then location.upstreamTls.value else listenTls;
        var forwarded := if location.backendUrl == "" then rewritten.value else location.backendUrl;
        set host | host in Addresses(table, upstreams[u].addressLookupKey) ::
          Target(tls, host, upstreams[u].port, forwarded)
  }

  // ----- facts about the choice

  lemma ChooseExact(locations: seq<Location>, uri: string, i: nat)
    requires i < |locations| && locations[i].modifier == "=" && locations[i].path == uri
    requires forall j :: 0 <= j < |locations| && j != i && locations[j].modifier == "=" ==> locations[j].path != uri
    ensures ChooseLocation(locations, uri) == Some(locations[i])
  {
    var e := ExactMatch(locations, uri);
    assert e == i;
  }

  lemma ChoosePrefix(locations: seq<Location>, uri: string, i: nat)
    requires i < |locations| && PrefixMatches(locations[i], uri)
    requires forall j :: 0 <= j < |locations| && locations[j].modifier == "=" ==> locations[j].path != uri
    requires forall j :: 0 <= j < |locations| && j != i && PrefixMatches(locations[j], uri) ==>
      |locations[j].path| < |locations[i].path|
    ensures ChooseLocation(locations, uri) == Some(locations[i])
  {
    assert ExactMatch(locations, uri) == |locations|;
    assert LongestPrefix(locations, uri) == i;
  }

  lemma RewriteDropsPrefix(prefix: string, rest: string)
    requires IsLiteral(prefix)
    ensures Rewrite(["^" + prefix + REST, "/$1", "break"], prefix + rest) == Some("/" + rest)
  {
    var rule := "^" + prefix + REST;
    assert rule[|rule| - |REST|..] == REST;
    assert rule[1..|rule| - |REST|] == prefix;
    assert (prefix + rest)[|prefix|..] == rest;
  }

  /** A rule leaves alone what does not begin with its prefix. */
  lemma RewriteLeavesOthers(prefix: string, uri: string)
    requires IsLiteral(prefix) && !(prefix <= uri)
    ensures Rewrite(["^" + prefix + REST, "/$1", "break"], uri) == Some(uri)
  {
    var rule := "^" + prefix + REST;
    assert rule[|rule| - |REST|..] == REST;
    assert rule[1..|rule| - |REST|] == prefix;
  }

  lemma FindUniqueUpstream(upstreams: seq<Upstream>, i: nat)
    requires i < |upstreams|
    requires forall j :: 0 <= j < |upstreams| && j != i ==> upstreams[j].name != upstreams[i].name
    ensures FindUpstream(upstreams, upstreams[i].name) == i
  {
    var f := FindUpstream(upstreams, upstreams[i].name);
  }
}
