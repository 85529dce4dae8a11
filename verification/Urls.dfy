/**
 URL parsing as the telemetry code uses it: scheme, authority and path of a URL
 (section 3 of RFC 3986; the authority is section 3.2), down to characters.
 */
module Urls {
  import opened Prelude
  import opened Text

  /** The port of a parsed URL; reading a malformed one raises. */
  datatype Port = NoPort | Port(number: nat) | BadPort

  datatype ParseResult = ParseResult(scheme: string, hostname: Option<string>, port: Port, path: string)

  const MAX_PORT := 65535

  predicate IsSchemeChar(c: char) {
    IsLetter(c) || IsDigit(c) || c in {'+', '-', '.'}
  }

  /** The scheme, lower-cased, and what follows its colon. */
  function SplitScheme(url: string): (string, string) {
    var i := IndexOf(url, {':'});
    if 0 < i < |url| && IsLetter(url[0]) && forall k :: 0 <= k < i ==> IsSchemeChar(url[k]) then
      (Lower(url[..i]), url[i + 1..])
    else
      ("", url)
  }

  /** The authority, present only after "//", and the rest. */
  function SplitAuthority(s: string): (string, string) {
    if "//" <= s then
      var i := IndexOf(s[2..], {'/', '?', '#'});
      (s[2..][..i], s[2..][i..])
    else
      ("", s)
  }

  /** What follows the last '@'. */
  function DropUserInfo(authority: string): string
    decreases |authority|
  {
    var i := IndexOf(authority, {'@'});
    if i == |authority| then authority else DropUserInfo(authority[i + 1..])
  }

  /** The host and the port text of an authority; an IP literal stands in brackets. */
  function SplitPort(hostInfo: string): (string, string) {
    var open := IndexOf(hostInfo, {'['});
    if open < |hostInfo| then
      var inner := hostInfo[open + 1..];
      var close := IndexOf(inner, {']'});
      var tail := inner[close..];
      var colon := IndexOf(tail, {':'});
      (inner[..close], if colon < |tail| then tail[colon + 1..] else "")
    else
      var colon := IndexOf(hostInfo, {':'});
      (hostInfo[..colon], if colon < |hostInfo| then hostInfo[colon + 1..] else "")
  }

  /** Hostnames are lower-cased up to an IPv6 zone identifier. */
  function Hostname(host: string): Option<string> {
    if host == "" then None
    else
      var zone := IndexOf(host, {'%'});
      Some(Lower(host[..zone]) + host[zone..])
  }

  function PortOf(text: string): Port {
    if text == "" then NoPort
    else if forall i :: 0 <= i < |text| ==> IsDigit(text[i]) then
      if ParseDecimal(text) <= MAX_PORT then Port(ParseDecimal(text)) else BadPort
    else BadPort
  }

  /** `urlparse(url)`, reduced to the four components that the code reads. */
  function UrlParse(url: string): ParseResult {
    var (scheme, rest) := SplitScheme(url);
    var (authority, tail) := SplitAuthority(rest);
    var (host, port) := SplitPort(DropUserInfo(authority));
    ParseResult(scheme, Hostname(host), PortOf(port), PathOf(tail))
  }

  /** The path ends where the query or the fragment starts. */
  function PathOf(tail: string): string {
    tail[..IndexOf(tail, {'?', '#'})]
  }

  predicate EndsWithS(s: string) {
    |s| > 0 && s[|s| - 1] == 's'
  }

  /** `_get_port`: the explicit port, or the default of the scheme. */
  function GetPort(url: ParseResult): Option<nat> {
    match url.port
    case Port(n) => Some(n)
    case NoPort => Some(if EndsWithS(url.scheme) then 443 else 80)
    case BadPort => None
  }

  // ----- what parsing means

  /** A host name with none of the characters that delimit the parts of a URL. */
  predicate PlainHost(host: string) {
    |host| > 0 && forall i :: 0 <= i < |host| ==> host[i] !in {'/', '?', '#', '@', '[', ']', ':', '%'}
  }

  /** The characters that end an authority (section 3.2 of RFC 3986). */
  predicate IsDelimiter(c: char) { c in {'/', '?', '#'} }

  predicate PlainPath(path: string) {
    |path| == 0 || (path[0] == '/' && forall i :: 0 <= i < |path| ==> path[i] !in {'?', '#'})
  }

  predicate PlainScheme(scheme: string) {
    |scheme| > 0 && forall i :: 0 <= i < |scheme| ==> 'a' <= scheme[i] <= 'z'
  }

  /** A scheme in either case, with the characters that section 3.1 of RFC 3986 allows. */
  predicate SchemeText(scheme: string) {
    && |scheme| > 0
    && (scheme[0] in UPPER_CASE || scheme[0] in LOWER_CASE)
    && forall i :: 0 <= i < |scheme| ==>
         scheme[i] in UPPER_CASE || scheme[i] in LOWER_CASE || scheme[i] in DIGITS || scheme[i] in "+-."
  }

  lemma PlainSchemeIsText(scheme: string)
    requires PlainScheme(scheme)
    ensures SchemeText(scheme) && Lower(scheme) == scheme
  {
    forall i | 0 <= i < |scheme| ensures scheme[i] in LOWER_CASE {
      CharacterClasses(scheme[i]);
    }
    assert scheme[0] in LOWER_CASE;
  }

  lemma PlainSchemeNotEmpty(scheme: string)
    requires PlainScheme(scheme)
    ensures |scheme| > 0
  {
  }

  lemma SchemeIsLegal(scheme: string)
    requires SchemeText(scheme)
    ensures IsLetter(scheme[0])
    ensures forall k :: 0 <= k < |scheme| ==> scheme[k] != ':' && IsSchemeChar(scheme[k])
  {
    CharacterClasses(':');
    CharacterClasses(scheme[0]);
    forall k | 0 <= k < |scheme| ensures scheme[k] != ':' && IsSchemeChar(scheme[k]) {
      CharacterClasses(scheme[k]);
    }
  }

  lemma SplitSchemeOf(scheme: string, rest: string)
    requires SchemeText(scheme)
    ensures SplitScheme(scheme + ":" + rest) == (Lower(scheme), rest)
  {
    hide IsSchemeChar, IsLetter, Lower;
    var url := scheme + ":" + rest;
    SchemeIsLegal(scheme);
    hide SchemeText;
    assert url == scheme + (":" + rest);
    assert forall k :: 0 <= k < |scheme| ==> url[k] == scheme[k];
    IndexOfAppend(scheme, ":" + rest, {':'});
    assert url[|scheme| + 1..] == rest;
  }

  /** The authority ends where something begins with a delimiter. */
  lemma SplitAuthorityOf(authority: string, tail: string)
    requires forall i :: 0 <= i < |authority| ==> !IsDelimiter(authority[i])
    requires |tail| > 0 ==> IsDelimiter(tail[0])
    ensures SplitAuthority("//" + authority + tail) == (authority, tail)
  {
    var s := "//" + authority + tail;
    assert s[..2] == "//" && s[2..] == authority + tail;
    IndexOfAppend(authority, tail, {'/', '?', '#'});
  }

  /** What follows a path: nothing, a query or a fragment. */
  predicate FollowsPath(extra: string) {
    |extra| > 0 ==> extra[0] in {'?', '#'}
  }

  lemma PathIsKept(path: string, extra: string)
    requires PlainPath(path) && FollowsPath(extra)
    ensures PathOf(path + extra) == path
  {
    IndexOfAppend(path, extra, {'?', '#'});
  }

  /** User information is dropped up to the last '@'. */
  lemma {:induction false} UserInfoIsDropped(user: string, hostInfo: string)
    requires '@' !in hostInfo
    ensures DropUserInfo(user + "@" + hostInfo) == hostInfo
    decreases |user|
  {
    hide DropUserInfo;
    var authority := user + "@" + hostInfo;
    var i := IndexOf(user, {'@'});
    if i == |user| {
      assert authority == user + ("@" + hostInfo);
      IndexOfAppend(user, "@" + hostInfo, {'@'});
      assert authority[|user| + 1..] == hostInfo;
      DropStep(authority, |user|);
      NoUserInfo(hostInfo);
    } else {
      var rest := user[i + 1..];
      assert authority == user[..i] + (user[i..] + "@" + hostInfo);
      IndexOfAppend(user[..i], user[i..] + "@" + hostInfo, {'@'});
      assert authority[i + 1..] == rest + "@" + hostInfo;
      DropStep(authority, i);
      UserInfoIsDropped(rest, hostInfo);
    }
  }

  lemma DropStep(authority: string, i: nat)
    requires IndexOf(authority, {'@'}) == i < |authority|
    ensures DropUserInfo(authority) == DropUserInfo(authority[i + 1..])
  {
    hide IndexOf;
  }

  lemma NoUserInfo(authority: string)
    requires forall i :: 0 <= i < |authority| ==> authority[i] != '@'
    ensures DropUserInfo(authority) == authority
  {
    IndexOfAppend(authority, "", {'@'});
    assert authority + "" == authority;
  }

  lemma SplitPortOf(host: string, text: string)
    requires PlainHost(host)
    requires forall i :: 0 <= i < |text| ==> IsDigit(text[i])
    ensures SplitPort(host + ":" + text) == (host, text)
  {
    var info := host + ":" + text;
    assert forall i :: 0 <= i < |info| ==> info[i] != '[';
    IndexOfAppend(info, "", {'['});
    assert info + "" == info;
    assert info == host + (":" + text);
    IndexOfAppend(host, ":" + text, {':'});
    assert info[|host| + 1..] == text;
  }

  lemma HostnameOf(host: string)
    requires PlainHost(host)
    ensures Hostname(host) == Some(Lower(host))
  {
    IndexOfAppend(host, "", {'%'});
    assert host + "" == host && host[..|host|] == host && Lower(host) + "" == Lower(host);
  }

  /** An IP literal stands in brackets, with or without a port. */
  lemma SplitBracketed(literal: string, port: string)
    requires ']' !in literal && (port == "" || port[0] == ':')
    ensures SplitPort("[" + literal + "]" + port) == (literal, if port == "" then "" else port[1..])
  {
    var info := "[" + literal + "]" + port;
    var inner := literal + ("]" + port);
    assert IndexOf(info, {'['}) == 0 && info[1..] == inner;
    IndexOfAppend(literal, "]" + port, {']'});
    ColonAfterBracket(port);
    hide IndexOf;
    assert inner[|literal|..] == "]" + port;
  }

  lemma ColonAfterBracket(port: string)
    requires port == "" || port[0] == ':'
    ensures var tail := "]" + port;
            var colon := IndexOf(tail, {':'});
            (if colon < |tail| then tail[colon + 1..] else "") == if port == "" then "" else port[1..]
  {
    IndexOfAppend("]", port, {':'});
  }

  lemma SplitPortless(host: string)
    requires PlainHost(host)
    ensures SplitPort(host) == (host, "")
  {
    IndexOfAppend(host, "", {'['});
    IndexOfAppend(host, "", {':'});
    assert host + "" == host;
  }

  /** What the port text of a URL means: nothing is no port, a number up to 65535 is that port. */
  lemma PortOfDecimal(port: nat)
    ensures PortOf(Decimal(port)) == if port <= MAX_PORT then Port(port) else BadPort
    ensures PortOf("") == NoPort
  {
  }

  /** Anything but digits is malformed. */
  lemma PortOfOther(text: string, i: nat)
    requires i < |text| && text[i] !in DIGITS
    ensures PortOf(text) == BadPort
  {
    CharacterClasses(text[i]);
  }

  /** The port part of a URL. */
  function PortText(port: Option<nat>): string {
    if port.Some? then ":" + Decimal(port.value) else ""
  }

  lemma SplitHostPort(host: string, port: Option<nat>)
    requires PlainHost(host)
    ensures '@' !in host + PortText(port)
    ensures forall i :: 0 <= i < |host + PortText(port)| ==> !IsDelimiter((host + PortText(port))[i])
    ensures SplitPort(host + PortText(port)) == (host, if port.Some? then Decimal(port.value) else "")
  {
    hide SplitPort, Decimal;
    var info := host + PortText(port);
    var text := PortText(port);
    assert forall i :: 0 <= i < |text| ==> text[i] == ':' || IsDigit(text[i]);
    forall i | 0 <= i < |info| ensures !IsDelimiter(info[i]) && info[i] != '@' {
      assert info[i] == if i < |host| then host[i] else text[i - |host|];
    }
    if port.Some? {
      SplitPortOf(host, Decimal(port.value));
      assert host + ":" + Decimal(port.value) == host + (":" + Decimal(port.value));
    } else {
      assert host + "" == host;
      SplitPortless(host);
    }
  }

  /** The parts of a URL up to its authority, whatever follows the path. */
  lemma UrlParts(scheme: string, user: Option<string>, hostInfo: string, path: string, extra: string)
    requires SchemeText(scheme) && PlainPath(path) && FollowsPath(extra) && '@' !in hostInfo
    requires user.Some? ==> forall i :: 0 <= i < |user.value| ==> !IsDelimiter(user.value[i])
    requires forall i :: 0 <= i < |hostInfo| ==> !IsDelimiter(hostInfo[i])
    ensures var u := UrlParse(scheme + "://" + UserText(user) + hostInfo + path + extra);
            u == ParseResult(Lower(scheme), Hostname(SplitPort(hostInfo).0), PortOf(SplitPort(hostInfo).1), path)
  {
    hide SplitScheme, SplitAuthority, DropUserInfo, SplitPort, Hostname, PortOf, PathOf, Lower, SchemeText;
    var authority := UserText(user) + hostInfo;
    var tail := path + extra;
    AuthorityWithUser(user, hostInfo);
    assert scheme + "://" + UserText(user) + hostInfo + path + extra == scheme + ":" + ("//" + authority + tail);
    SplitSchemeOf(scheme, "//" + authority + tail);
    SplitAuthorityOf(authority, tail);
    PathIsKept(path, extra);
    if user.Some? {
      UserInfoIsDropped(user.value, hostInfo);
    } else {
      assert "" + hostInfo == hostInfo;
      NoUserInfo(hostInfo);
    }
  }

  function UserText(user: Option<string>): string {
    if user.Some? then user.value + "@" else ""
  }

  lemma AuthorityWithUser(user: Option<string>, hostInfo: string)
    requires user.Some? ==> forall i :: 0 <= i < |user.value| ==> !IsDelimiter(user.value[i])
    requires forall i :: 0 <= i < |hostInfo| ==> !IsDelimiter(hostInfo[i])
    ensures forall i :: 0 <= i < |UserText(user) + hostInfo| ==> !IsDelimiter((UserText(user) + hostInfo)[i])
  {
    var a := UserText(user) + hostInfo;
    forall i | 0 <= i < |a| ensures !IsDelimiter(a[i]) {
      if i < |UserText(user)| {
        assert a[i] == UserText(user)[i];
      } else {
        assert a[i] == hostInfo[i - |UserText(user)|];
      }
    }
  }

  /**
   A URL assembled from its parts parses back to them: the scheme and the host in lower case, the port
   if there is one, and the path without user information, query or fragment.
   */
  lemma UrlRoundTrip(scheme: string, user: Option<string>, host: string, port: Option<nat>, path: string, extra: string)
    requires SchemeText(scheme) && PlainHost(host) && PlainPath(path) && FollowsPath(extra)
    requires user.Some? ==> forall i :: 0 <= i < |user.value| ==> !IsDelimiter(user.value[i])
    ensures UrlParse(scheme + "://" + UserText(user) + (host + PortText(port)) + path + extra)
         == ParseResult(Lower(scheme), Some(Lower(host)),
                        if port.None? then NoPort else if port.value <= MAX_PORT then Port(port.value) else BadPort, path)
  {
    hide UrlParse, SplitPort, Hostname, PortOf, Decimal, SchemeText, PlainPath, PlainHost, FollowsPath, UserText, Lower;
    SplitHostPort(host, port);
    UrlParts(scheme, user, host + PortText(port), path, extra);
    HostnameOf(host);
    PortOfDecimal(if port.Some? then port.value else 0);
  }

  /** The same for an IP literal in brackets, such as an IPv6 address. */
  lemma IpLiteralRoundTrip(scheme: string, literal: string, port: Option<nat>, path: string)
    requires SchemeText(scheme) && PlainPath(path) && |literal| > 0
    requires forall i :: 0 <= i < |literal| ==> literal[i] !in {'/', '?', '#', '@', '[', ']', '%'}
    requires port.Some? ==> port.value <= MAX_PORT
    ensures UrlParse(scheme + "://" + ("[" + literal + "]" + PortText(port)) + path)
         == ParseResult(Lower(scheme), Some(Lower(literal)), if port.Some? then Port(port.value) else NoPort, path)
  {
    hide UrlParse, SplitPort, Hostname, PortOf, Decimal, SchemeText, PlainPath, Lower;
    var info := "[" + literal + "]" + PortText(port);
    BracketedInfo(literal, port);
    SplitBracketed(literal, PortText(port));
    UrlParts(scheme, None, info, path, "");
    assert scheme + "://" + "" + info + path + "" == scheme + "://" + info + path;
    LiteralHostname(literal);
    if port.Some? {
      assert PortText(port)[1..] == Decimal(port.value);
      PortOfDecimal(port.value);
    } else {
      PortOfDecimal(0);
    }
  }

  lemma LiteralHostname(literal: string)
    requires |literal| > 0 && '%' !in literal
    ensures Hostname(literal) == Some(Lower(literal))
  {
    IndexOfAppend(literal, "", {'%'});
    assert literal + "" == literal && literal[..|literal|] == literal && Lower(literal) + "" == Lower(literal);
  }

  lemma BracketedInfo(literal: string, port: Option<nat>)
    requires forall i :: 0 <= i < |literal| ==> literal[i] !in {'/', '?', '#', '@', '[', ']', '%'}
    ensures var info := "[" + literal + "]" + PortText(port);
            '@' !in info && forall i :: 0 <= i < |info| ==> !IsDelimiter(info[i])
    ensures ']' !in literal && '%' !in literal
  {
    hide Decimal;
    var text := PortText(port);
    var info := "[" + literal + "]" + text;
    assert forall i :: 0 <= i < |text| ==> text[i] == ':' || IsDigit(text[i]);
    forall i | 0 <= i < |info| ensures !IsDelimiter(info[i]) && info[i] != '@' {
      if 0 < i <= |literal| {
        assert info[i] == literal[i - 1];
      } else if i > |literal| + 1 {
        assert info[i] == text[i - |literal| - 2];
      }
    }
  }

  /** A zone identifier keeps its case (RFC 6874). */
  lemma ZoneKeepsCase(host: string, zone: string)
    requires |host| > 0 && '%' !in host
    ensures Hostname(host + "%" + zone) == Some(Lower(host) + "%" + zone)
  {
    assert host + "%" + zone == host + ("%" + zone);
    IndexOfAppend(host, "%" + zone, {'%'});
    assert Lower(host) + ("%" + zone) == Lower(host) + "%" + zone;
  }

  /** The usual spelling of a URL, with or without a port. */
  function UrlText(scheme: string, host: string, port: Option<nat>, path: string): string {
    scheme + "://" + (host + PortText(port)) + path
  }

  /** Both the TLS flag and the port that a URL without one implies are read off the last letter of its scheme. */
  predicate SchemeIsSecure(scheme: string)
    requires |scheme| > 0
  {
    scheme[|scheme| - 1] in {'s', 'S'}
  }

  /** Where the URL of an endpoint points: everything that the proxy has to reproduce. */
  lemma UrlTextParses(scheme: string, host: string, port: Option<nat>, path: string)
    requires SchemeText(scheme) && PlainHost(host) && PlainPath(path) && (port.Some? ==> port.value <= 65535)
    ensures |scheme| > 0
    ensures var u := UrlParse(UrlText(scheme, host, port, path));
            && u.hostname == Some(Lower(host)) && u.path == path
            && EndsWithS(u.scheme) == SchemeIsSecure(scheme)
            && GetPort(u) == (if port.Some? then port else if SchemeIsSecure(scheme) then Some(443) else Some(80))
  {
    hide UrlParse, Decimal, PlainHost, PlainPath, Lower, SchemeText, EndsWithS, SchemeIsSecure;
    SecureSchemes(scheme);
    UrlRoundTrip(scheme, None, host, port, path, "");
    UrlTextIsUrl(scheme, host, port, path);
  }

  lemma UrlTextIsUrl(scheme: string, host: string, port: Option<nat>, path: string)
    ensures UrlText(scheme, host, port, path) == scheme + "://" + UserText(None) + (host + PortText(port)) + path + ""
  {
    hide PortText;
    assert scheme + "://" + "" == scheme + "://";
  }

  lemma SecureSchemes(scheme: string)
    requires SchemeText(scheme)
    ensures |scheme| > 0 && EndsWithS(Lower(scheme)) == SchemeIsSecure(scheme)
  {
    hide SchemeText, LowerChar;
    SchemeTextNotEmpty(scheme);
    var last := scheme[|scheme| - 1];
    assert Lower(scheme)[|scheme| - 1] == LowerChar(last);
    LowerCaseS(last);
  }

  lemma SchemeTextNotEmpty(scheme: string)
    requires SchemeText(scheme)
    ensures |scheme| > 0
  {
  }

  lemma LowerCaseS(c: char)
    ensures LowerChar(c) == 's' <==> c in {'s', 'S'}
  {
  }

  /** An absolute URL assembled from plain parts parses back to exactly those parts. */
  lemma AbsoluteUrlRoundTrip(scheme: string, host: string, port: nat, path: string)
    requires PlainScheme(scheme) && PlainHost(host) && port <= MAX_PORT && PlainPath(path)
    ensures UrlParse(scheme + "://" + host + ":" + Decimal(port) + path)
         == ParseResult(scheme, Some(Lower(host)), Port(port), path)
  {
    hide UrlParse, Decimal, PlainScheme, PlainHost, PlainPath, Lower, SchemeText;
    PlainSchemeIsText(scheme);
    UrlRoundTrip(scheme, None, host, Some(port), path, "");
    assert scheme + "://" + "" + (host + (":" + Decimal(port))) + path + ""
        == scheme + "://" + host + ":" + Decimal(port) + path;
  }

  /** Without an explicit port the scheme decides: 443 if it ends in "s", 80 otherwise. */
  lemma UrlWithoutPort(scheme: string, host: string, path: string)
    requires PlainScheme(scheme) && PlainHost(host) && PlainPath(path)
    ensures UrlParse(scheme + "://" + host + path) == ParseResult(scheme, Some(Lower(host)), NoPort, path)
    ensures GetPort(UrlParse(scheme + "://" + host + path)) == Some(if scheme[|scheme| - 1] == 's' then 443 else 80)
  {
    hide UrlParse, PlainHost, PlainPath, Lower, SchemeText, PlainScheme;
    PlainSchemeIsText(scheme);
    UrlRoundTrip(scheme, None, host, None, path, "");
    assert |scheme| > 0 by { PlainSchemeNotEmpty(scheme); }
    assert scheme + "://" + "" + (host + "") + path + "" == scheme + "://" + host + path;
  }

  lemma ContainsOnlyOwnCharacters(s: string, needle: string, c: char)
    requires c in needle && c !in s
    ensures !Contains(s, needle)
  {
    var k :| 0 <= k < |needle| && needle[k] == c;
    assert k < |s| ==> s[k] != c;
    if |s| == 0 {
    } else {
      ContainsOnlyOwnCharacters(s[1..], needle, c);
    }
  }

  lemma {:induction false} ContainsInside(before: string, needle: string, after: string)
    ensures Contains(before + needle + after, needle)
  {
    var s := before + needle + after;
    if |before| == 0 {
      assert s[..|needle|] == needle;
    } else {
      assert s[1..] == before[1..] + needle + after;
      ContainsInside(before[1..], needle, after);
    }
  }

  /** A bare authority "host:port" has no host name for `urlparse`, unless "//" precedes it. */
  lemma BareAuthority(host: string, port: nat)
    requires PlainHost(host) && port <= MAX_PORT
    ensures !Contains(host + ":" + Decimal(port), "://")
    ensures UrlParse("//" + (host + ":" + Decimal(port))) == ParseResult("", Some(Lower(host)), Port(port), "")
    ensures UrlParse(host + ":" + Decimal(port)).hostname == None
  {
    hide SplitAuthority, DropUserInfo, SplitPort, Hostname, PortOf, PathOf, Decimal, Contains, UrlParse, PlainHost, Lower;
    var authority := host + ":" + Decimal(port);
    assert authority == host + PortText(Some(port));
    SplitHostPort(host, Some(port));
    assert '/' !in authority;
    ContainsOnlyOwnCharacters(authority, "://", '/') by { assert "://"[1] == '/'; }
    SlashesThenAuthority(host, port);
    NoAuthority(authority);
  }

  lemma SlashesThenAuthority(host: string, port: nat)
    requires PlainHost(host) && port <= MAX_PORT
    ensures UrlParse("//" + (host + ":" + Decimal(port))) == ParseResult("", Some(Lower(host)), Port(port), "")
  {
    hide SplitAuthority, DropUserInfo, SplitPort, Hostname, PortOf, PathOf, Decimal, PlainHost, Lower;
    var authority := host + ":" + Decimal(port);
    assert authority == host + PortText(Some(port));
    SplitHostPort(host, Some(port));
    assert "//" + authority == "//" + authority + "";
    NoScheme("//" + authority);
    SplitAuthorityOf(authority, "");
    PathIsKept("", "");
    assert "" + "" == "";
    NoUserInfo(authority);
    HostnameOf(host);
    PortOfDecimal(port);
  }

  lemma NoScheme(s: string)
    requires |s| > 0 && !IsLetter(s[0])
    ensures SplitScheme(s) == ("", s)
  {
  }

  lemma EmptyAuthority()
    ensures SplitPort(DropUserInfo("")).0 == "" && Hostname("") == None
  {
  }

  lemma SchemeLeavesSuffix(url: string)
    requires '/' !in url
    ensures '/' !in SplitScheme(url).1
  {
    var rest := SplitScheme(url).1;
    assert forall i :: 0 <= i < |rest| ==> rest[i] in url;
  }

  lemma NoAuthority(url: string)
    requires '/' !in url
    ensures UrlParse(url).hostname == None
  {
    hide SplitScheme, DropUserInfo, SplitPort, Hostname, PortOf, PathOf;
    SchemeLeavesSuffix(url);
    var rest := SplitScheme(url).1;
    assert |rest| > 0 ==> rest[0] != '/';
    EmptyAuthority();
  }

  lemma HostCharacters(info: string, c: char)
    requires c !in info
    ensures c !in SplitPort(info).0
  {
    var host := SplitPort(info).0;
    assert forall i :: 0 <= i < |host| ==> host[i] in info;
  }

  lemma {:induction false} UserInfoCharacters(authority: string, c: char)
    requires c !in authority
    ensures c !in DropUserInfo(authority)
    decreases |authority|
  {
    var i := IndexOf(authority, {'@'});
    if i < |authority| {
      var rest := authority[i + 1..];
      assert forall j :: 0 <= j < |rest| ==> rest[j] in authority;
      UserInfoCharacters(rest, c);
    }
  }

  lemma AuthorityHasNoDelimiter(s: string, c: char)
    requires IsDelimiter(c)
    ensures c !in SplitAuthority(s).0
  {
    var authority := SplitAuthority(s).0;
    assert forall i :: 0 <= i < |authority| ==> authority[i] != c;
  }

  lemma LoweringKeepsDelimiters(host: string, c: char)
    requires IsDelimiter(c) && c !in host
    ensures Hostname(host).Some? ==> c !in Hostname(host).value
  {
    if host != "" {
      var zone := IndexOf(host, {'%'});
      assert forall i :: 0 <= i < zone ==> Lower(host[..zone])[i] == LowerChar(host[i]) && host[i] in host;
    }
  }

  /** A host name carries no slash, question mark or hash: the authority ends at the first of these. */
  lemma HostnameHasNoDelimiter(url: string, c: char)
    requires IsDelimiter(c)
    ensures UrlParse(url).hostname.Some? ==> c !in UrlParse(url).hostname.value
  {
    hide SplitScheme, SplitAuthority, DropUserInfo, SplitPort, Hostname, PortOf, PathOf, IsDelimiter;
    var authority := SplitAuthority(SplitScheme(url).1).0;
    var info := DropUserInfo(authority);
    AuthorityHasNoDelimiter(SplitScheme(url).1, c);
    UserInfoCharacters(authority, c);
    HostCharacters(info, c);
    LoweringKeepsDelimiters(SplitPort(info).0, c);
  }
}
