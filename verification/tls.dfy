/** The TLS acceptor of a route table: `build_tls_acceptor` and its resolver in src/tls.rs. */
module Tls {
  import opened Basics
  import opened Text
  import opened Router

  /** Paths of a certificate and its key. */
  type KeyPair = (string, string)

  /** `extract_hostname_from_endpoint`: what stands between the scheme and the first slash or colon, if anything. */
  function HostName(endpoint: string): Option<string> {
    if !(HTTPS <= endpoint) then None
    else
      var rest := endpoint[|HTTPS|..];
      var authority := rest[..Find(rest, '/')];
      var host := authority[..Find(authority, ':')];
      if host == "" then None else Some(host)
  }

  /** The host name ends at the first colon or slash, so a port and a path do not belong to it. */
  lemma HostNameIs(host: string, rest: string)
    requires ':' !in host && '/' !in host && (rest == "" || rest[0] == ':' || rest[0] == '/')
    ensures HostName("https://" + host + rest) == if host == "" then None else Some(host)
  {
    var bare := host + rest;
    assert HTTPS + host + rest == HTTPS + bare && (HTTPS + bare)[|HTTPS|..] == bare;
    var n := Find(bare, '/');
    forall q | 0 <= q < |host| ensures bare[q] != '/' {
      assert bare[q] == host[q];
    }
    var authority := bare[..n];
    assert authority[..|host|] == host;
    if |host| < n {
      assert authority[|host|] == rest[0] == ':';
      FindUnique(authority, ':', |host|);
    } else {
      assert authority == host;
      assert Find(host, ':') == |host|;
    }
  }

  predicate IsHttps(route: Route) {
    HTTPS <= route.requestEndpoint
  }

  /** The route names a host, a certificate and a key, and the two files load. */
  predicate Usable(route: Route, loads: set<KeyPair>) {
    && HostName(route.requestEndpoint).Some? && route.certPath.Some? && route.keyPath.Some?
    && (route.certPath.value, route.keyPath.value) in loads
  }

  /** The acceptor can be built. */
  predicate Builds(routes: seq<Route>, loads: set<KeyPair>) {
    forall i :: 0 <= i < |routes| && IsHttps(routes[i]) ==> Usable(routes[i], loads)
  }

  predicate AnyHttps(routes: seq<Route>) {
    exists i :: 0 <= i < |routes| && IsHttps(routes[i])
  }

  /** Route `i` is the last one for `host`. */
  predicate IsLastFor(routes: seq<Route>, i: int, host: string) {
    && 0 <= i < |routes| && HostName(routes[i].requestEndpoint) == Some(host)
    && forall k :: i < k < |routes| ==> HostName(routes[k].requestEndpoint) != Some(host)
  }

  /** The resolver answers exactly the host names of the https routes, each with the files of its last route. */
  ghost predicate Resolves(certs: map<string, KeyPair>, routes: seq<Route>) {
    && (forall host :: host in certs ==> exists i :: IsLastFor(routes, i, host))
    && forall host, i :: IsLastFor(routes, i, host) ==>
         host in certs && Some(certs[host].0) == routes[i].certPath && Some(certs[host].1) == routes[i].keyPath
  }

  /** One more route. */
  lemma LastForStep(routes: seq<Route>, n: nat, host: string, i: int)
    requires n < |routes|
    ensures IsLastFor(routes[..n + 1], i, host) <==>
      if HostName(routes[n].requestEndpoint) == Some(host) then i == n else IsLastFor(routes[..n], i, host)
  {
    hide HostName;
    var more, less := routes[..n + 1], routes[..n];
    assert more[n] == routes[n];
    assert forall k :: 0 <= k < n ==> more[k] == less[k];
  }

  /** The resolver after one more route. */
  function Added(certs: map<string, KeyPair>, route: Route): map<string, KeyPair> {
    if HostName(route.requestEndpoint).Some? && route.certPath.Some? && route.keyPath.Some? then
      certs[HostName(route.requestEndpoint).value := (route.certPath.value, route.keyPath.value)]
    else certs
  }

  lemma ResolvesStep(certs: map<string, KeyPair>, routes: seq<Route>, n: nat)
    requires n < |routes| && Resolves(certs, routes[..n])
    requires HostName(routes[n].requestEndpoint).Some? ==> routes[n].certPath.Some? && routes[n].keyPath.Some?
    ensures Resolves(Added(certs, routes[n]), routes[..n + 1])
  {
    hide HostName;
    var certs', more := Added(certs, routes[n]), routes[..n + 1];
    forall host | host in certs' ensures exists i :: IsLastFor(more, i, host) {
      if HostName(routes[n].requestEndpoint) == Some(host) {
        LastForStep(routes, n, host, n);
        assert IsLastFor(more, n, host);
      } else {
        var i :| IsLastFor(routes[..n], i, host);
        LastForStep(routes, n, host, i);
        assert IsLastFor(more, i, host);
      }
    }
    forall host, i | IsLastFor(more, i, host)
      ensures host in certs' && Some(certs'[host].0) == more[i].certPath && Some(certs'[host].1) == more[i].keyPath
    {
      LastForStep(routes, n, host, i);
    }
  }

  /** Fails iff some https route is not usable; without https routes there is no acceptor. */
  method BuildTlsAcceptor(routes: seq<Route>, loads: set<KeyPair>)
    returns (r: Result<Option<map<string, KeyPair>>, string>)
    ensures r.Ok? <==> Builds(routes, loads)
    ensures r.Ok? ==> (r.value.Some? <==> AnyHttps(routes)) && (r.value.Some? ==> Resolves(r.value.value, routes))
  {
    hide HostName;
    if !AnyHttps(routes) {
      return Ok(None);
    }
    var certs: map<string, KeyPair> := map[];
    var i := 0;
    while i < |routes|
      invariant 0 <= i <= |routes|
      invariant Builds(routes[..i], loads) && Resolves(certs, routes[..i])
    {
      if IsHttps(routes[i]) {
        if !Usable(routes[i], loads) {
          return Err("Failed to initialise TLS");
        }
        ResolvesStep(certs, routes, i);
        certs := Added(certs, routes[i]);
      } else {
        PlainHasNoHost(routes[i]);
        ResolvesStep(certs, routes, i);
      }
      i := i + 1;
    }
    assert routes[..|routes|] == routes;
    return Ok(Some(certs));
  }

  lemma PlainHasNoHost(route: Route)
    requires !IsHttps(route)
    ensures HostName(route.requestEndpoint).None?
  {
  }
}
