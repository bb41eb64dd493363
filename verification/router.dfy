/** Prefix routing and path rewriting of src/router.rs. */
module Router {
  import opened Basics
  import opened Text

  datatype Route = Route(
    requestEndpoint: string, forwardEndpoint: string, authRequired: bool,
    certPath: Option<string>, keyPath: Option<string>, cache: Option<bool>, interceptErrors: Option<bool>)

  datatype MatchedRoute = MatchedRoute(
    upstreamAddr: string, rewrittenPath: string, authRequired: bool,
    cache: Option<bool>, interceptErrors: Option<bool>)

  const HTTP := "http://"
  const HTTPS := "https://"

  predicate HasScheme(endpoint: string) {
    HTTP <= endpoint || HTTPS <= endpoint
  }

  function StripScheme(endpoint: string): string {
    if HTTP <= endpoint then endpoint[7..]
    else if HTTPS <= endpoint then endpoint[8..]
    else endpoint
  }

  function ExtractHostPort(endpoint: string): string {
    var bare := StripScheme(endpoint);
    var hostPort := bare[..Find(bare, '/')];
    if ':' in hostPort then hostPort
    else if HTTPS <= endpoint then hostPort + ":443"
    else hostPort + ":80"
  }

  function ExtractPath(endpoint: string): string {
    var bare := StripScheme(endpoint);
    if Find(bare, '/') < |bare| then bare[Find(bare, '/')..] else "/"
  }

  predicate Matches(route: Route, host: string, path: string) {
    route.requestEndpoint <= HTTP + host + path || route.requestEndpoint <= HTTPS + host + path
  }

  function Rewrite(route: Route, path: string): MatchedRoute {
    var from, to := ExtractPath(route.requestEndpoint), ExtractPath(route.forwardEndpoint);
    var rewritten := if from <= path then to + path[|from|..] else path;
    MatchedRoute(ExtractHostPort(route.forwardEndpoint), rewritten, route.authRequired, route.cache,
      route.interceptErrors)
  }

  function MatchRoute(routes: seq<Route>, host: string, path: string): Option<MatchedRoute> {
    if routes == [] then None
    else if Matches(routes[0], host, path) then Some(Rewrite(routes[0], path))
    else MatchRoute(routes[1..], host, path)
  }

  predicate IsFirstMatch(routes: seq<Route>, host: string, path: string, i: nat)
    requires i < |routes|
  {
    Matches(routes[i], host, path) && forall j :: 0 <= j < i ==> !Matches(routes[j], host, path)
  }

  /** The result is that of the first matching route; there is none exactly when no route matches. */
  lemma {:induction false} FirstMatchWins(routes: seq<Route>, host: string, path: string)
    ensures MatchRoute(routes, host, path).None? <==> forall i :: 0 <= i < |routes| ==> !Matches(routes[i], host, path)
    ensures forall i :: 0 <= i < |routes| && IsFirstMatch(routes, host, path, i) ==>
      MatchRoute(routes, host, path) == Some(Rewrite(routes[i], path))
  {
    if routes != [] && !Matches(routes[0], host, path) {
      var rest := routes[1..];
      FirstMatchWins(rest, host, path);
      assert forall i :: 0 < i < |routes| ==> routes[i] == rest[i - 1];
      forall i | 0 < i < |routes| && IsFirstMatch(routes, host, path, i)
        ensures IsFirstMatch(rest, host, path, i - 1)
      {
        assert forall j :: 0 <= j < i - 1 ==> rest[j] == routes[j + 1];
      }
    }
  }

  // ---- what matching means ----

  /** With a scheme, matching is "the endpoint without its scheme is a prefix of host and path"; without
      one, only an endpoint that is itself the beginning of a scheme matches, and it matches everything. */
  lemma MatchesIff(route: Route, host: string, path: string)
    ensures HasScheme(route.requestEndpoint) ==>
      (Matches(route, host, path) <==> StripScheme(route.requestEndpoint) <= host + path)
    ensures !HasScheme(route.requestEndpoint) ==>
      (Matches(route, host, path) <==> route.requestEndpoint <= HTTP || route.requestEndpoint <= HTTPS)
  {
    var e := route.requestEndpoint;
    SchemePrefix(e, HTTP, host + path);
    SchemePrefix(e, HTTPS, host + path);
    assert HTTP + host + path == HTTP + (host + path);
    assert HTTPS + host + path == HTTPS + (host + path);
    if HTTP <= e {
      assert e[4] == ':' && (HTTPS + (host + path))[4] == 's';
    } else if HTTPS <= e {
      assert e[4] == 's' && (HTTP + (host + path))[4] == ':';
    }
  }

  lemma SchemePrefix(e: string, scheme: string, rest: string)
    ensures scheme <= e ==> (e <= scheme + rest <==> e[|scheme|..] <= rest)
    ensures !(scheme <= e) ==> (e <= scheme + rest <==> e <= scheme)
  {
    if scheme <= e {
      assert (scheme + rest)[..|scheme|] == scheme == e[..|scheme|];
      assert (scheme + rest)[|scheme|..] == rest;
      PrefixDrop(e, scheme + rest, |scheme|);
    }
  }

  // ---- order of the table ----

  /** No endpoint without its scheme is a prefix of another one. */
  predicate PrefixFree(routes: seq<Route>) {
    forall i, j :: 0 <= i < |routes| && 0 <= j < |routes| && i != j ==>
      !(StripScheme(routes[i].requestEndpoint) <= StripScheme(routes[j].requestEndpoint))
  }

  predicate AllSchemed(routes: seq<Route>) {
    forall i :: 0 <= i < |routes| ==> HasScheme(routes[i].requestEndpoint)
  }

  lemma PrefixesNest(a: string, b: string, s: string)
    requires a <= s && b <= s
    ensures a <= b || b <= a
  {
  }

  lemma AtMostOneMatch(routes: seq<Route>, host: string, path: string, i: nat, j: nat)
    requires AllSchemed(routes) && PrefixFree(routes) && i < |routes| && j < |routes|
    requires Matches(routes[i], host, path) && Matches(routes[j], host, path)
    ensures i == j
  {
    MatchesIff(routes[i], host, path);
    MatchesIff(routes[j], host, path);
    PrefixesNest(StripScheme(routes[i].requestEndpoint), StripScheme(routes[j].requestEndpoint), host + path);
  }

  lemma UniqueMatchResult(routes: seq<Route>, host: string, path: string, i: nat)
    requires AllSchemed(routes) && PrefixFree(routes) && i < |routes| && Matches(routes[i], host, path)
    ensures MatchRoute(routes, host, path) == Some(Rewrite(routes[i], path))
  {
    forall j | 0 <= j < i ensures !Matches(routes[j], host, path) {
      if Matches(routes[j], host, path) {
        AtMostOneMatch(routes, host, path, i, j);
      }
    }
    FirstMatchWins(routes, host, path);
  }

  /** Prefix-freedom does not depend on the order either. */
  lemma PermutedPrefixFree(routes: seq<Route>, permuted: seq<Route>)
    requires multiset(routes) == multiset(permuted)
    requires AllSchemed(routes) && PrefixFree(routes)
    ensures AllSchemed(permuted) && PrefixFree(permuted)
  {
    forall i | 0 <= i < |permuted| ensures permuted[i] in routes {
      assert permuted[i] in multiset(permuted);
    }
    forall i, j | 0 <= i < |permuted| && 0 <= j < |permuted| && i != j
      ensures !(StripScheme(permuted[i].requestEndpoint) <= StripScheme(permuted[j].requestEndpoint))
    {
      if permuted[i] == permuted[j] {
        TwiceInMultiset(permuted, i, j);
        TwiceInSeq(routes, permuted[i]);
      }
    }
  }

  lemma TwiceInMultiset(s: seq<Route>, i: nat, j: nat)
    requires i < |s| && j < |s| && i != j && s[i] == s[j]
    ensures multiset(s)[s[i]] >= 2
  {
    var a, b := if i < j then i else j, if i < j then j else i;
    assert s == s[..b] + s[b..];
    assert s[..b][a] == s[i] && s[b..][0] == s[i];
    assert s[i] in multiset(s[..b]) && s[i] in multiset(s[b..]);
  }

  lemma {:induction false} TwiceInSeq(s: seq<Route>, r: Route)
    requires multiset(s)[r] >= 2
    ensures exists i, j :: 0 <= i < j < |s| && s[i] == r && s[j] == r
  {
    assert r in s;
    var i :| 0 <= i < |s| && s[i] == r;
    var others := s[..i] + s[i + 1..];
    assert s == s[..i] + [s[i]] + s[i + 1..];
    assert multiset(s) == multiset(others) + multiset{r};
    assert r in others;
    var k :| 0 <= k < |others| && others[k] == r;
    var j := if k < i then k else k + 1;
    assert s[j] == r;
  }

  /** In a prefix-free table the order of the routes does not matter, for any host and path. */
  lemma OrderIsIrrelevant(routes: seq<Route>, permuted: seq<Route>, host: string, path: string)
    requires multiset(routes) == multiset(permuted)
    requires AllSchemed(routes) && PrefixFree(routes)
    ensures MatchRoute(permuted, host, path) == MatchRoute(routes, host, path)
  {
    PermutedPrefixFree(routes, permuted);
    FirstMatchWins(routes, host, path);
    FirstMatchWins(permuted, host, path);
    if i :| 0 <= i < |routes| && Matches(routes[i], host, path) {
      assert routes[i] in multiset(permuted);
      var j :| 0 <= j < |permuted| && permuted[j] == routes[i];
      UniqueMatchResult(routes, host, path, i);
      UniqueMatchResult(permuted, host, path, j);
    } else {
      forall j | 0 <= j < |permuted| ensures !Matches(permuted[j], host, path) {
        assert permuted[j] in multiset(routes);
      }
    }
  }

  // ---- host and path of a match ----

  /** Endpoint of the form scheme://authority/path: a match forces the host to be the authority and the path
      to extend the endpoint's path, so the path is always rewritten. */
  lemma MatchIsExact(route: Route, host: string, path: string)
    requires HasScheme(route.requestEndpoint) && '/' in StripScheme(route.requestEndpoint)
    requires '/' !in host && |path| > 0 && path[0] == '/'
    ensures var bare := StripScheme(route.requestEndpoint);
      var from := ExtractPath(route.requestEndpoint);
      && (Matches(route, host, path) <==> host == bare[..Find(bare, '/')] && from <= path)
      && (Matches(route, host, path) ==>
            Rewrite(route, path).rewrittenPath == ExtractPath(route.forwardEndpoint) + path[|from|..])
  {
    MatchesIff(route, host, path);
    PrefixSplits(StripScheme(route.requestEndpoint), host, path);
    hide StripScheme, Matches, Find;
  }

  /** Being a prefix splits at the first slash: the same host, and a prefix of the path. */
  lemma PrefixSplits(bare: string, host: string, path: string)
    requires '/' in bare && '/' !in host && |path| > 0 && path[0] == '/'
    ensures Find(bare, '/') < |bare|
    ensures bare <= host + path <==> host == bare[..Find(bare, '/')] && bare[Find(bare, '/')..] <= path
  {
    hide Find;
    var n, url := Find(bare, '/'), host + path;
    assert url[..|host|] == host && url[|host|..] == path;
    assert Find(url, '/') == |host| by {
      assert url[|host|] == '/';
      FindUnique(url, '/', |host|);
    }
    if bare <= url {
      FindUnique(url, '/', n);
      assert bare[..n] == url[..n];
    }
    if bare[..n] == host {
      PrefixDrop(bare, url, n);
    }
  }

  /** A match pins the host down exactly for the endpoints that have a path: an endpoint without one also
      matches every longer host that begins with its authority. */
  lemma MatchPinsHostIff(route: Route)
    requires HasScheme(route.requestEndpoint)
    ensures (forall host, path :: '/' !in host && |path| > 0 && path[0] == '/' && Matches(route, host, path) ==>
               host == StripScheme(route.requestEndpoint)[..Find(StripScheme(route.requestEndpoint), '/')])
            <==> '/' in StripScheme(route.requestEndpoint)
  {
    var bare := StripScheme(route.requestEndpoint);
    if '/' in bare {
      forall host, path | '/' !in host && |path| > 0 && path[0] == '/' && Matches(route, host, path)
        ensures host == bare[..Find(bare, '/')]
      {
        MatchIsExact(route, host, path);
      }
    } else {
      var host := bare + "x";
      MatchesIff(route, host, "/");
      assert bare <= host + "/";
      assert '/' !in host && |host| > |bare|;
      assert bare[..Find(bare, '/')] != host;
      assert "/"[0] == '/' && Matches(route, host, "/");
    }
  }

  /** The upstream address always carries a port separator and never a path. */
  lemma UpstreamAddrShape(endpoint: string)
    ensures ':' in ExtractHostPort(endpoint) && '/' !in ExtractHostPort(endpoint)
    ensures |ExtractPath(endpoint)| > 0 && ExtractPath(endpoint)[0] == '/'
  {
    var bare := StripScheme(endpoint);
    var hostPort := bare[..Find(bare, '/')];
    assert ":443"[0] == ':' && ":80"[0] == ':';
    assert (hostPort + ":443")[|hostPort|] == ':' && (hostPort + ":80")[|hostPort|] == ':';
  }

  /** An endpoint put together from a scheme, which may be missing, an authority, and a path, which may be missing. */
  predicate Parts(endpoint: string, scheme: string, authority: string, path: string) {
    && endpoint == scheme + authority + path && '/' !in authority && (path == "" || path[0] == '/')
    && (scheme == "http://" || scheme == "https://" || (scheme == "" && !HasScheme(endpoint)))
  }

  function WithPort(scheme: string, authority: string): string {
    if ':' in authority then authority else authority + (if scheme == "https://" then ":443" else ":80")
  }

  function OrRoot(path: string): string {
    if path == "" then "/" else path
  }

  /** An endpoint falls apart into its parts again: the address is the authority, with the scheme's default port if it
      names none, and a missing path is the root. */
  lemma EndpointFallsApart(endpoint: string, scheme: string, authority: string, path: string)
    requires Parts(endpoint, scheme, authority, path)
    ensures ExtractHostPort(endpoint) == WithPort(scheme, authority)
    ensures ExtractPath(endpoint) == OrRoot(path)
  {
    var bare := authority + path;
    assert endpoint == scheme + bare;
    SchemeOf(endpoint, scheme, bare);
    if path != "" {
      assert bare[|authority|] == '/';
      FindUnique(bare, '/', |authority|);
    }
    assert Find(bare, '/') == |authority|;
    assert bare[..|authority|] == authority && bare[|authority|..] == path;
  }

  lemma SchemeOf(endpoint: string, scheme: string, bare: string)
    requires endpoint == scheme + bare
    requires scheme == "http://" || scheme == "https://" || (scheme == "" && !HasScheme(endpoint))
    ensures StripScheme(endpoint) == bare && (HTTPS <= endpoint <==> scheme == "https://")
  {
    if scheme != "" {
      assert endpoint[4] == scheme[4];
      assert HTTP <= endpoint <==> scheme == "http://";
    }
  }

  /** An endpoint with a scheme matches exactly the hosts and paths that begin with the rest of it, under either
      scheme. */
  lemma MatchesPrefix(route: Route, scheme: string, rest: string, host: string, path: string)
    requires route.requestEndpoint == scheme + rest && (scheme == "http://" || scheme == "https://")
    ensures Matches(route, host, path) <==> rest <= host + path
  {
    SchemeOf(route.requestEndpoint, scheme, rest);
    MatchesIff(route, host, path);
    assert HTTP <= route.requestEndpoint || HTTPS <= route.requestEndpoint;
  }

  /** What the first matching route decides: its flags are the result's, its upstream's authority is the address, and
      the path goes from its own path to its upstream's. */
  lemma FirstMatchDecides(routes: seq<Route>, host: string, path: string, i: nat,
                          scheme: string, authority: string, prefix: string,
                          upScheme: string, upAuthority: string, upPrefix: string)
    requires i < |routes| && IsFirstMatch(routes, host, path, i)
    requires Parts(routes[i].requestEndpoint, scheme, authority, prefix)
    requires Parts(routes[i].forwardEndpoint, upScheme, upAuthority, upPrefix)
    ensures MatchRoute(routes, host, path).Some?
    ensures var m := MatchRoute(routes, host, path).value;
      && m.authRequired == routes[i].authRequired && m.cache == routes[i].cache
      && m.interceptErrors == routes[i].interceptErrors
      && m.upstreamAddr == WithPort(upScheme, upAuthority)
      && m.rewrittenPath ==
           if OrRoot(prefix) <= path then OrRoot(upPrefix) + path[|OrRoot(prefix)|..] else path
  {
    hide Matches, ExtractHostPort, ExtractPath, MatchRoute;
    FirstMatchWins(routes, host, path);
    EndpointFallsApart(routes[i].requestEndpoint, scheme, authority, prefix);
    EndpointFallsApart(routes[i].forwardEndpoint, upScheme, upAuthority, upPrefix);
  }

  /** Every endpoint has parts. */
  lemma EndpointHasParts(endpoint: string) returns (scheme: string, authority: string, path: string)
    ensures Parts(endpoint, scheme, authority, path)
  {
    scheme := if HTTP <= endpoint then "http://" else if HTTPS <= endpoint then "https://" else "";
    SchemeIsFront(endpoint, scheme);
    var bare := StripScheme(endpoint);
    var n := Find(bare, '/');
    authority, path := bare[..n], bare[n..];
    hide Find, HasScheme, StripScheme, Parts;
    PartsAt(endpoint, scheme, bare);
  }

  lemma PartsAt(endpoint: string, scheme: string, bare: string)
    requires endpoint == scheme + bare
    requires scheme == "http://" || scheme == "https://" || (scheme == "" && !HasScheme(endpoint))
    ensures Parts(endpoint, scheme, bare[..Find(bare, '/')], bare[Find(bare, '/')..])
  {
    hide HasScheme;
    var n := Find(bare, '/');
    assert bare == bare[..n] + bare[n..];
  }

  lemma SchemeIsFront(endpoint: string, scheme: string)
    requires scheme == if HTTP <= endpoint then "http://" else if HTTPS <= endpoint then "https://" else ""
    ensures endpoint == scheme + StripScheme(endpoint) && (scheme == "" ==> !HasScheme(endpoint))
  {
  }
}
