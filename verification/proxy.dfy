/** The decisions of `handle_request` in src/proxy.rs: client address, gates, cache lookup and cache store. */
module Proxy {
  import opened Basics
  import opened Net
  import opened Text
  import opened Words
  import opened Cache
  import opened Security
  import opened Config
  import opened Router
  import opened StaticAssets
  import Parser

  // ---- requests and responses ----

  /** Header names are lower case, as the HTTP library delivers them. */
  function Header(headers: Headers, name: string): Option<string> {
    if headers == [] then None
    else if headers[0].0 == name then Some(headers[0].1)
    else Header(headers[1..], name)
  }

  predicate FirstAt(headers: Headers, name: string, value: string, n: int) {
    0 <= n < |headers| && headers[n] == (name, value) && forall i :: 0 <= i < n ==> headers[i].0 != name
  }

  /** The first value under a name, if there is one. */
  predicate FirstValue(headers: Headers, name: string, value: Option<string>) {
    if value.None? then forall i :: 0 <= i < |headers| ==> headers[i].0 != name
    else exists n :: 0 <= n < |headers| && FirstAt(headers, name, value.value, n)
  }

  lemma {:induction false} HeaderIsFirst(headers: Headers, name: string, value: Option<string>)
    requires FirstValue(headers, name, value)
    ensures Header(headers, name) == value
  {
    if headers != [] && headers[0].0 != name {
      var rest := headers[1..];
      assert forall i :: 0 < i < |headers| ==> headers[i] == rest[i - 1];
      if value.Some? {
        var n :| 0 <= n < |headers| && FirstAt(headers, name, value.value, n);
        assert n > 0 && rest[n - 1] == headers[n];
        assert forall i :: 0 <= i < n - 1 ==> rest[i] == headers[i + 1];
        assert FirstAt(rest, name, value.value, n - 1);
      }
      HeaderIsFirst(rest, name, value);
    }
  }

  datatype HttpRequest = HttpRequest(verb: string, host: string, pathAndQuery: string, headers: Headers)

  datatype HttpResponse = HttpResponse(status: nat, headers: Headers, body: seq<byte>)

  function PathOf(pathAndQuery: string): string {
    pathAndQuery[..Find(pathAndQuery, '?')]
  }

  /** A host without a slash, as in a URI's authority, and a path that begins with one. A Host header may hold a
      slash. */
  predicate WellShaped(req: HttpRequest) {
    '/' !in req.host && |req.pathAndQuery| > 0 && req.pathAndQuery[0] == '/'
  }

  // ---- the HTTP library ----

  /** What the HTTP library decides: which hosts and paths it delivers, and to which addresses its clients can send. */
  datatype Http = Http(delivers: (string, string) -> bool, sends: string -> bool)

  predicate Rooted(pathAndQuery: string) {
    |pathAndQuery| > 0 && pathAndQuery[0] == '/'
  }

  /** The address of the upstream request: the rewritten path and the query of the request, if it has one. */
  function UpstreamUri(route: MatchedRoute, pathAndQuery: string): string {
    HTTP + route.upstreamAddr + route.rewrittenPath + pathAndQuery[Find(pathAndQuery, '?')..]
  }

  /** For a path with its leading slash, the host and port of the upstream request are those of the matched route. */
  lemma UpstreamUriNamesUpstream(routes: seq<Route>, host: string, pathAndQuery: string)
    requires Rooted(pathAndQuery) && MatchRoute(routes, host, PathOf(pathAndQuery)).Some?
    ensures var route := MatchRoute(routes, host, PathOf(pathAndQuery)).value;
      ExtractHostPort(UpstreamUri(route, pathAndQuery)) == route.upstreamAddr
  {
    var path := PathOf(pathAndQuery);
    assert path != "" && path[0] == '/';
    MatchedShape(routes, host, path);
    var route := MatchRoute(routes, host, path).value;
    UriAuthority(route.upstreamAddr, route.rewrittenPath, pathAndQuery[Find(pathAndQuery, '?')..]);
    hide MatchRoute, ExtractHostPort;
  }

  /** The address of the upstream request, from the parts of the matched route: the upstream's authority, the rewritten
      path, and the query of the request. */
  lemma UpstreamUriIs(routes: seq<Route>, host: string, path: string, query: Option<string>, i: nat,
                      scheme: string, authority: string, prefix: string,
                      upScheme: string, upAuthority: string, upPrefix: string)
    requires '?' !in path && i < |routes| && IsFirstMatch(routes, host, path, i)
    requires Parts(routes[i].requestEndpoint, scheme, authority, prefix)
    requires Parts(routes[i].forwardEndpoint, upScheme, upAuthority, upPrefix)
    ensures var pathAndQuery := if query.Some? then path + "?" + query.value else path;
      && PathOf(pathAndQuery) == path && MatchRoute(routes, host, path).Some?
      && UpstreamUri(MatchRoute(routes, host, path).value, pathAndQuery) ==
           "http://" + WithPort(upScheme, upAuthority)
           + (if OrRoot(prefix) <= path then OrRoot(upPrefix) + path[|OrRoot(prefix)|..] else path)
           + (if query.Some? then "?" + query.value else "")
  {
    hide MatchRoute;
    FirstMatchDecides(routes, host, path, i, scheme, authority, prefix, upScheme, upAuthority, upPrefix);
    QueryBegins(path, query);
  }

  lemma QueryBegins(path: string, query: Option<string>)
    requires '?' !in path
    ensures var s := if query.Some? then path + "?" + query.value else path;
      s[..Find(s, '?')] == path && s[Find(s, '?')..] == (if query.Some? then "?" + query.value else "")
  {
    if query.Some? {
      var s := path + "?" + query.value;
      assert s[|path|] == '?';
      FindUnique(s, '?', |path|);
    }
  }

  lemma {:induction false} MatchedShape(routes: seq<Route>, host: string, path: string)
    requires MatchRoute(routes, host, path).Some? && path != "" && path[0] == '/'
    ensures var route := MatchRoute(routes, host, path).value;
      && '/' !in route.upstreamAddr && ':' in route.upstreamAddr
      && route.rewrittenPath != "" && route.rewrittenPath[0] == '/'
  {
    hide Matches, ExtractHostPort, ExtractPath;
    if Matches(routes[0], host, path) {
      UpstreamAddrShape(routes[0].forwardEndpoint);
    } else {
      MatchedShape(routes[1..], host, path);
    }
  }

  lemma UriAuthority(address: string, path: string, rest: string)
    requires '/' !in address && ':' in address && path != "" && path[0] == '/'
    ensures ExtractHostPort(HTTP + address + path + rest) == address
  {
    var uri := HTTP + address + path + rest;
    assert uri[..7] == HTTP && uri[7..] == address + path + rest;
    var bare := address + path + rest;
    assert bare[|address|] == '/' && bare[..|address|] == address;
    assert forall i :: 0 <= i < |address| ==> bare[i] == address[i];
  }

  // ---- the client's address ----

  const ADDRESS_HEADERS := ["cf-connecting-ip", "true-client-ip", "x-forwarded-for"]

  /** The address one header gives: the first list element of x-forwarded-for, else the whole value. */
  function HeaderAddress(env: Parser.Env, headers: Headers, name: string): Option<IpAddr> {
    match Header(headers, name)
    case None => None
    case Some(value) => Parser.ParseIpAddr(env, Trim(if name == "x-forwarded-for" then Split(value, ',')[0] else value))
  }

  /** The peer's address, replaced by the first header that holds one if the connection came through the trusted
      upstream. */
  method ClientAddress(env: Parser.Env, peer: IpAddr, isProxyProtocol: bool, headers: Headers) returns (ip: IpAddr)
    ensures ip ==
      if isProxyProtocol then
        HeaderAddress(env, headers, "cf-connecting-ip").GetOr(
          HeaderAddress(env, headers, "true-client-ip").GetOr(
            HeaderAddress(env, headers, "x-forwarded-for").GetOr(peer)))
      else peer
  {
    hide HeaderAddress;
    ip := peer;
    if isProxyProtocol {
      assert ADDRESS_HEADERS[0] == "cf-connecting-ip" && ADDRESS_HEADERS[1] == "true-client-ip";
      assert ADDRESS_HEADERS[2] == "x-forwarded-for";
      var i := 0;
      while i < |ADDRESS_HEADERS|
        invariant 0 <= i <= 3 && ip == peer
        invariant i > 0 ==> HeaderAddress(env, headers, "cf-connecting-ip").None?
        invariant i > 1 ==> HeaderAddress(env, headers, "true-client-ip").None?
        invariant i > 2 ==> HeaderAddress(env, headers, "x-forwarded-for").None?
      {
        var address := HeaderAddress(env, headers, ADDRESS_HEADERS[i]);
        if address.Some? {
          ip := address.value;
          break;
        }
        i := i + 1;
      }
    }
  }

  /** A list of addresses gives its first one, a single address gives itself, with blanks around it or not. */
  lemma HeaderAddressIs(env: Parser.Env, headers: Headers, ip: Ipv4, lead: string, trail: string, rest: string)
    requires Blanks(lead) && Blanks(trail)
    ensures FirstValue(headers, "x-forwarded-for", Some(lead + PrintIpv4(ip) + trail + "," + rest)) ==>
      HeaderAddress(env, headers, "x-forwarded-for") == Some(V4(ip))
    ensures forall name :: FirstValue(headers, name, Some(lead + PrintIpv4(ip) + trail)) ==>
      HeaderAddress(env, headers, name) == Some(V4(ip))
    ensures forall name :: FirstValue(headers, name, None) ==> HeaderAddress(env, headers, name) == None
  {
    var text := lead + PrintIpv4(ip) + trail;
    Ipv4Spelling(PrintIpv4(ip), ip);
    TrimBlanks(lead, ip, trail);
    NoComma(lead, ip, trail);
    SplitCons(text, ',', rest);
    SplitLast(text, ',');
    assert text + "," + rest == text + [','] + rest;
    hide Trim, Split, ParseIpv4, PrintIpv4, FirstValue, Header;
    forall name, v | FirstValue(headers, name, v) ensures Header(headers, name) == v {
      HeaderIsFirst(headers, name, v);
    }
  }

  predicate Blanks(s: string) {
    forall i :: 0 <= i < |s| ==> s[i] == ' ' || s[i] == '\t'
  }

  lemma TrimBlanks(lead: string, ip: Ipv4, trail: string)
    requires Blanks(lead) && Blanks(trail)
    ensures Trim(lead + PrintIpv4(ip) + trail) == PrintIpv4(ip)
  {
    var s := PrintIpv4(ip);
    Ipv4Ends(ip);
    hide PrintIpv4;
    assert lead + s + trail == lead + (s + trail);
    TrimStartBlanks(lead, s + trail);
    assert TrimStart(s + trail) == s + trail by {
      assert (s + trail)[0] == s[0];
    }
    hide TrimStart;
    TrimEndBlanks(s, trail);
  }

  lemma Ipv4Ends(ip: Ipv4)
    ensures var s := PrintIpv4(ip); s != "" && IsDigit(s[0]) && IsDigit(s[|s| - 1])
  {
    var s := PrintIpv4(ip);
    assert s[0] == PrintOctet(ip.a)[0] && s[|s| - 1] == PrintOctet(ip.d)[|PrintOctet(ip.d)| - 1];
  }

  lemma {:induction false} TrimStartBlanks(lead: string, s: string)
    requires Blanks(lead)
    ensures TrimStart(lead + s) == TrimStart(s)
  {
    if lead == "" {
      assert lead + s == s;
    } else {
      TrimStartBlanks(lead[1..], s);
      assert (lead + s)[1..] == lead[1..] + s && (lead + s)[0] == lead[0];
    }
  }

  lemma {:induction false} TrimEndBlanks(s: string, trail: string)
    requires Blanks(trail) && s != "" && !IsSpace(s[|s| - 1])
    ensures TrimEnd(s + trail) == s
  {
    if trail == "" {
      assert s + trail == s;
    } else {
      var last := |trail| - 1;
      TrimEndBlanks(s, trail[..last]);
      assert (s + trail)[..|s| + last] == s + trail[..last] && (s + trail)[|s| + last] == trail[last];
    }
  }

  lemma NoComma(lead: string, ip: Ipv4, trail: string)
    requires Blanks(lead) && Blanks(trail)
    ensures ',' !in lead + PrintIpv4(ip) + trail
  {
    OctetHasNo(ip.a, ',');
    OctetHasNo(ip.b, ',');
    OctetHasNo(ip.c, ',');
    OctetHasNo(ip.d, ',');
  }

  // ---- cache keys ----

  function CacheKey(host: string, pathAndQuery: string): string {
    host + [':'] + pathAndQuery
  }

  /** The longer host swallows the start of the other request's path, up to a colon. */
  predicate Swallows(host: string, path: string, longer: string, rest: string) {
    && |host| < |longer| && longer[..|host|] == host && longer[|host|] == ':'
    && path == longer[|host| + 1..] + [':'] + rest
  }

  /** Two requests share a key exactly when they are equal or one host swallows part of the other's path. */
  lemma CacheKeysCollideIff(host: string, path: string, longer: string, rest: string)
    requires |host| <= |longer|
    ensures CacheKey(host, path) == CacheKey(longer, rest) <==>
      (host == longer && path == rest) || Swallows(host, path, longer, rest)
  {
    var k, k' := CacheKey(host, path), CacheKey(longer, rest);
    assert k[..|host|] == host && k[|host|] == ':' && k[|host| + 1..] == path;
    assert k'[..|longer|] == longer && k'[|longer|] == ':' && k'[|longer| + 1..] == rest;
    if |host| < |longer| {
      assert k == k' ==> path == longer[|host| + 1..] + [':'] + rest;
    }
    if Swallows(host, path, longer, rest) {
      assert longer == host + [':'] + longer[|host| + 1..];
    }
  }

  /** Well-shaped requests have different keys unless host and path are the same. */
  lemma CacheKeysInjective(a: HttpRequest, b: HttpRequest)
    requires WellShaped(a) && WellShaped(b)
    requires CacheKey(a.host, a.pathAndQuery) == CacheKey(b.host, b.pathAndQuery)
    ensures a.host == b.host && a.pathAndQuery == b.pathAndQuery
  {
    if |a.host| <= |b.host| {
      CacheKeysCollideIff(a.host, a.pathAndQuery, b.host, b.pathAndQuery);
      NoSwallowing(a, b);
    } else {
      CacheKeysCollideIff(b.host, b.pathAndQuery, a.host, a.pathAndQuery);
      NoSwallowing(b, a);
    }
  }

  lemma NoSwallowing(a: HttpRequest, b: HttpRequest)
    requires WellShaped(a) && WellShaped(b)
    ensures !Swallows(a.host, a.pathAndQuery, b.host, b.pathAndQuery)
  {
    if |a.host| < |b.host| {
      var t := b.host[|a.host| + 1..];
      assert (t + [':'] + b.pathAndQuery)[0] == if t == [] then ':' else t[0];
      assert t != [] ==> t[0] in b.host;
    }
  }

  /** A host with a slash can share its key with another request. */
  lemma SlashHostsCollide()
    ensures CacheKey("a:/x", "/y") == CacheKey("a", "/x:/y")
  {
  }

  // ---- gates ----

  datatype Gate = Blacklisted | RateLimited(count: nat) | Admitted

  /** The ban check and then, if it passes, the limiter, each with its own reading of the clock. */
  function GateStep(policy: Policy, t: Tables, ip: IpAddr, banTime: int, rateTime: int): (Tables, Gate) {
    var (t1, banned) := Step(policy, t, IsBlacklisted(ip, banTime));
    if banned == Flag(true) then (t1, Blacklisted)
    else
      var (t2, verdict) := Step(policy, t1, Call.Request(ip, rateTime));
      (t2, if verdict.Refused? then RateLimited(verdict.count) else Admitted)
  }

  function MaxBodySize(security: Option<SecurityConfig>): nat {
    match security
    case Some(s) => s.maxBodySize
    case None => 10 * 1024 * 1024
  }

  function ContentLength(headers: Headers): Option<nat> {
    match Header(headers, "content-length")
    case None => None
    case Some(value) => ParseUint(value, USIZE_MAX)
  }

  predicate TooLarge(security: Option<SecurityConfig>, req: HttpRequest) {
    ContentLength(req.headers).GetOr(0) > MaxBodySize(security)
  }

  /** A request is too large iff it announces a length above the limit, 10 MiB without a security block. A length that
      is no 64-bit number is ignored. */
  lemma TooLargeIff(security: Option<SecurityConfig>, req: HttpRequest, n: nat)
    ensures FirstValue(req.headers, "content-length", Some(Print(n))) ==>
      (TooLarge(security, req) <==>
         n <= 0xFFFF_FFFF_FFFF_FFFF && n > if security.Some? then security.value.maxBodySize else 10_485_760)
    ensures FirstValue(req.headers, "content-length", None) ==> !TooLarge(security, req)
  {
    if FirstValue(req.headers, "content-length", Some(Print(n))) {
      HeaderIsFirst(req.headers, "content-length", Some(Print(n)));
      LengthParses(n);
    }
    if FirstValue(req.headers, "content-length", None) {
      HeaderIsFirst(req.headers, "content-length", None);
    }
    hide Header, FirstValue, Print, ParseUint;
  }

  lemma LengthParses(n: nat)
    ensures ParseUint(Print(n), USIZE_MAX) == if n <= USIZE_MAX then Some(n) else None
  {
    PrintValue(n);
    assert IsDigit(Print(n)[0]);
  }

  // ---- cache lookup and store ----

  predicate CacheableMethod(verb: string) {
    verb == "GET" || verb == "HEAD"
  }

  /** May this request use the snapshot's cache: the route allows it, or there is no route, and the method does. */
  predicate UsesCache(routes: seq<Route>, req: HttpRequest) {
    var matched := MatchRoute(routes, req.host, PathOf(req.pathAndQuery));
    (matched.Some? ==> matched.value.cache.GetOr(true)) && CacheableMethod(req.verb)
  }

  predicate NoStore(headers: Headers) {
    var control := Header(headers, "cache-control").GetOr("");
    ContainsText(control, "no-store") || ContainsText(control, "private")
  }

  /** The verdict on a response: by the path and query of its request and by its own content type. */
  predicate IsStatic(req: HttpRequest, resp: HttpResponse) {
    IsStaticAsset(req.pathAndQuery, Header(resp.headers, "content-type"))
  }

  /** Is this response stored: a static asset without a no-store directive, not announced as too large, status 200. */
  predicate Storable(limits: Limits, req: HttpRequest, resp: HttpResponse) {
    && IsStatic(req, resp)
    && !NoStore(resp.headers)
    && ContentLength(resp.headers).GetOr(0) <= limits.maxFileSize
    && resp.status == 200
  }

  /** The first cache-control value forbids storing iff it holds `no-store` or `private` somewhere. */
  lemma NoStoreIff(headers: Headers, control: string)
    ensures FirstValue(headers, "cache-control", Some(control)) ==>
      (NoStore(headers) <==>
         (exists i :: OccursAt(control, i, "no-store")) || (exists i :: OccursAt(control, i, "private")))
    ensures FirstValue(headers, "cache-control", None) ==> !NoStore(headers)
  {
    ContainsTextIff(control, "no-store");
    ContainsTextIff(control, "private");
    assert !ContainsText("", "no-store") && !ContainsText("", "private");
    hide ContainsText;
    if FirstValue(headers, "cache-control", Some(control)) {
      HeaderIsFirst(headers, "cache-control", Some(control));
    }
    if FirstValue(headers, "cache-control", None) {
      HeaderIsFirst(headers, "cache-control", None);
    }
    hide Header, FirstValue, OccursAt;
  }

  /** What makes a response storable: its status is 200, its announced length is within the file limit, nothing forbids
      it, and path and content type are those of a static asset. */
  lemma StorableIff(limits: Limits, req: HttpRequest, resp: HttpResponse, contentType: Option<string>, n: Option<nat>)
    requires FirstValue(resp.headers, "content-type", contentType)
    requires FirstValue(resp.headers, "content-length", if n.Some? then Some(Print(n.value)) else None)
    ensures Storable(limits, req, resp) <==>
      && resp.status == 200 && IsStaticAsset(req.pathAndQuery, contentType) && !NoStore(resp.headers)
      && (n.None? || n.value <= limits.maxFileSize || n.value > 0xFFFF_FFFF_FFFF_FFFF)
  {
    HeaderIsFirst(resp.headers, "content-type", contentType);
    HeaderIsFirst(resp.headers, "content-length", if n.Some? then Some(Print(n.value)) else None);
    if n.Some? {
      LengthParses(n.value);
    }
    hide Header, FirstValue, Print, ParseUint, IsStaticAsset, NoStore;
  }

  /** Which requests may use the cache: GET and HEAD, unless the first matching route says `cache off`. */
  lemma UsesCacheIff(routes: seq<Route>, req: HttpRequest)
    ensures UsesCache(routes, req) <==>
      && (req.verb == "GET" || req.verb == "HEAD")
      && forall i :: 0 <= i < |routes| && IsFirstMatch(routes, req.host, PathOf(req.pathAndQuery), i) ==>
           routes[i].cache != Some(false)
  {
    var path := PathOf(req.pathAndQuery);
    FirstMatchWins(routes, req.host, path);
    hide MatchRoute, Matches;
    if MatchRoute(routes, req.host, path).Some? {
      var i := FindMatch(routes, req.host, path);
    }
  }

  lemma {:induction false} FindMatch(routes: seq<Route>, host: string, path: string) returns (i: nat)
    requires exists k :: 0 <= k < |routes| && Matches(routes[k], host, path)
    ensures i < |routes| && IsFirstMatch(routes, host, path, i)
  {
    hide Matches;
    if Matches(routes[0], host, path) {
      i := 0;
    } else {
      var rest := routes[1..];
      assert forall k :: 0 < k < |routes| ==> routes[k] == rest[k - 1];
      var k :| 0 <= k < |routes| && Matches(routes[k], host, path);
      assert Matches(rest[k - 1], host, path);
      i := FindMatch(rest, host, path);
      i := i + 1;
    }
  }

  // ---- the answer to a hit ----

  /** `HeaderMap::insert`: the new value replaces every value of that name. */
  function SetHeader(headers: Headers, name: string, value: string): Headers {
    if headers == [] then [(name, value)]
    else if headers[0].0 == name then SetHeader(headers[1..], name, value)
    else [headers[0]] + SetHeader(headers[1..], name, value)
  }

  function HitResponse(a: Asset): HttpResponse {
    HttpResponse(a.status, SetHeader(a.headers, "x-proxy-cache", "HIT"), a.body)
  }

  lemma {:induction false} SetHeaderValue(headers: Headers, name: string, value: string, other: string)
    ensures Header(SetHeader(headers, name, value), other) ==
      if other == name then Some(value) else Header(headers, other)
  {
    if headers != [] {
      SetHeaderValue(headers[1..], name, value, other);
    }
  }

  /** A hit is answered with the stored status and body, and with the stored headers but for the cache marker. */
  lemma HitResponseHeaders(a: Asset, name: string)
    ensures HitResponse(a).status == a.status && HitResponse(a).body == a.body
    ensures Header(HitResponse(a).headers, name) ==
      if name == "x-proxy-cache" then Some("HIT") else Header(a.headers, name)
  {
    SetHeaderValue(a.headers, "x-proxy-cache", "HIT", name);
  }
}
