/** Live configuration: building a snapshot (src/runtime_config.rs), publishing it, and the reload loop
    (src/server.rs), plus `handle_request` on one snapshot (src/proxy.rs). */
module Runtime {
  import opened Basics
  import opened Net
  import opened Cache
  import opened Security
  import opened Config
  import opened Router
  import opened Proxy
  import Tls

  /** A snapshot. Its parts never change; the manager and the engine it points to do. `certs` is the host table of
      its TLS acceptor, if it has one, `authUrl` the address its authentication provider asks. */
  class ActiveConfig {
    const generation: nat
    const routes: seq<Route>
    const certs: Option<map<string, Tls.KeyPair>>
    const logfile: Option<string>
    const security: Option<SecurityConfig>
    const manager: SecurityManager
    const authUrl: Option<string>
    const cacheConfig: Option<CacheConfig>
    const engine: LruCacheEngine?
    const interceptErrors: bool

    constructor (config: ProxyConfig, generation: nat, certs: Option<map<string, Tls.KeyPair>>,
                 manager: SecurityManager, engine: LruCacheEngine?)
      requires AcceptorOf(certs, config.routes)
      ensures this.generation == generation && this.manager == manager && this.engine == engine
      ensures DescribedBy(this, config)
    {
      this.generation, this.manager, this.engine := generation, manager, engine;
      this.routes, this.logfile, this.security, this.cacheConfig :=
        config.routes, config.logfile, config.security, config.cache;
      this.certs, this.authUrl := certs, ForwardAuth(config.security);
      this.interceptErrors := config.interceptErrors.GetOr(false);
    }
  }

  function ForwardAuth(security: Option<SecurityConfig>): Option<string> {
    match security
    case Some(s) => s.forwardAuth
    case None => None
  }

  /** There is an acceptor iff there are https routes, and it resolves their host names. */
  ghost predicate AcceptorOf(certs: Option<map<string, Tls.KeyPair>>, routes: seq<Route>) {
    (certs.Some? <==> Tls.AnyHttps(routes)) && (certs.Some? ==> Tls.Resolves(certs.value, routes))
  }

  /** The parts of a snapshot that are copied or computed from its configuration alone. */
  ghost predicate DescribedBy(active: ActiveConfig, config: ProxyConfig) {
    && active.routes == config.routes && active.logfile == config.logfile && active.security == config.security
    && active.cacheConfig == config.cache && active.interceptErrors == config.interceptErrors.GetOr(false)
    && AcceptorOf(active.certs, config.routes)
    && (active.authUrl.Some? <==> config.security.Some? && config.security.value.forwardAuth.Some?)
    && (active.authUrl.Some? ==> active.authUrl == config.security.value.forwardAuth)
  }

  function PolicyOf(security: Option<SecurityConfig>): Policy {
    match security
    case Some(s) => Policy(s.banDurationSec * NANOS_PER_SEC, s.maxTlsFailures, s.rateLimitRpm)
    case None => DEFAULT_POLICY
  }

  /** The engine a configuration asks for, if any; times in nanoseconds. */
  function LimitsOf(cache: Option<CacheConfig>): Option<Limits> {
    match cache
    case Some(c) =>
      if c.enabled then Some(Limits(c.maxCapacityBytes, c.maxFileSizeBytes, c.defaultTtlSec * NANOS_PER_SEC, 10_000))
      else None
    case None => None
  }

  /** There is an engine iff the cache is on. Empty, it takes exactly the bodies within the file limit and the capacity,
      and says which of the two a larger one exceeds. */
  lemma EngineTakes(cache: Option<CacheConfig>, key: string, status: nat, headers: Headers, body: seq<byte>, now: int)
    ensures LimitsOf(cache).Some? <==> cache.Some? && cache.value.enabled
    ensures LimitsOf(cache).Some? ==>
      var limits := LimitsOf(cache).value;
      InsertStep(limits, EMPTY, key, NewAsset(limits, status, headers, body, None, now)).1 ==
        if |body| > cache.value.maxFileSizeBytes then InsertResult(false, 0, 0, 0, Some(ExceedsMaxFileSize))
        else if |body| > cache.value.maxCapacityBytes then InsertResult(false, 0, 0, 0, Some(ExceedsMaxCapacity))
        else InsertResult(true, |body|, 0, 0, None)
  {
  }

  /** Is `active` the snapshot `config` describes, with a fresh empty cache of its own. */
  ghost predicate Built(active: ActiveConfig, config: ProxyConfig, generation: nat)
    reads active.engine
  {
    && active.generation == generation && DescribedBy(active, config)
    && (active.engine == null <==> LimitsOf(config.cache).None?)
    && (active.engine != null ==>
          Some(active.engine.limits) == LimitsOf(config.cache) && active.engine.Valid() &&
            active.engine.Value() == EMPTY)
  }

  /** Fails only on an https route. Without a manager handed in, a new one is made from the configuration. */
  method BuildActiveConfig(config: ProxyConfig, generation: nat, manager: SecurityManager?, loads: set<Tls.KeyPair>)
    returns (r: Result<ActiveConfig, string>)
    ensures r.Ok? <==> Tls.Builds(config.routes, loads)
    ensures r.Ok? ==> fresh(r.value) && Built(r.value, config, generation)
    ensures r.Ok? ==> r.value.engine != null ==> fresh(r.value.engine)
    ensures r.Ok? && manager != null ==> r.value.manager == manager
    ensures r.Ok? && manager == null ==>
      fresh(r.value.manager) && r.value.manager.policy == PolicyOf(config.security) &&
        r.value.manager.Value() == NO_TABLES
  {
    hide Tls.Builds, Tls.AnyHttps, Tls.Resolves;
    var certs := Tls.BuildTlsAcceptor(config.routes, loads);
    if certs.Err? {
      return Err(certs.error);
    }
    var shared: SecurityManager;
    if manager != null {
      shared := manager;
    } else {
      shared := new SecurityManager(PolicyOf(config.security));
    }
    var engine: LruCacheEngine? := null;
    if config.cache.Some? && config.cache.value.enabled {
      var c := config.cache.value;
      engine := new LruCacheEngine(c.maxCapacityBytes, c.maxFileSizeBytes, c.defaultTtlSec * NANOS_PER_SEC);
    }
    var active := new ActiveConfig(config, generation, certs.value, shared, engine);
    return Ok(active);
  }

  /** The shared cell: one writer stores, readers load. */
  class ConfigStore {
    var current: ActiveConfig

    constructor (initial: ActiveConfig)
      ensures current == initial
    {
      current := initial;
    }

    method Load() returns (active: ActiveConfig)
      ensures active == current
    {
      active := current;
    }

    method Store(active: ActiveConfig)
      modifies this
      ensures current == active
    {
      current := active;
    }
  }

  /** What one hang-up signal finds: the parsed file, and the certificates and keys that load. */
  datatype Signal = Signal(loaded: Result<ProxyConfig, string>, loads: set<Tls.KeyPair>)

  /** A file is accepted when it parses, keeps the port and the worker count of the startup, and its acceptor builds. */
  predicate Accepts(listenPort: nat, workers: nat, signal: Signal) {
    && signal.loaded.Ok? && Tls.Builds(signal.loaded.value.routes, signal.loads)
    && signal.loaded.value.listenPort == listenPort && signal.loaded.value.workers == workers
  }

  class ReloadThread {
    const store: ConfigStore
    const expectedListenPort: nat
    const expectedWorkers: nat
    var generation: nat

    constructor (store: ConfigStore, expectedListenPort: nat, expectedWorkers: nat)
      ensures this.store == store && generation == 0
      ensures this.expectedListenPort == expectedListenPort && this.expectedWorkers == expectedWorkers
    {
      this.store, this.expectedListenPort, this.expectedWorkers := store, expectedListenPort, expectedWorkers;
      generation := 0;
    }

    /** One round of the reload loop: a refused file changes nothing, an accepted one is published whole, under the
        next generation and with the manager that was live. */
    method Reload(signal: Signal)
      modifies this, store
      ensures Accepts(expectedListenPort, expectedWorkers, signal) ==>
        && generation == old(generation) + 1
        && fresh(store.current) && Built(store.current, signal.loaded.value, generation)
        && (store.current.engine != null ==> fresh(store.current.engine))
        && store.current.manager == old(store.current.manager)
      ensures !Accepts(expectedListenPort, expectedWorkers, signal) ==>
        generation == old(generation) && store.current == old(store.current)
    {
      var live := store.Load();
      var next := LoadActiveConfig(signal, generation + 1, live.manager);
      if next.Ok? {
        generation := next.value.generation;
        store.Store(next.value);
      }
    }

    method LoadActiveConfig(signal: Signal, generation: nat, manager: SecurityManager)
      returns (r: Result<ActiveConfig, string>)
      ensures r.Ok? <==>
        && signal.loaded.Ok? && Tls.Builds(signal.loaded.value.routes, signal.loads)
        && signal.loaded.value.listenPort == expectedListenPort && signal.loaded.value.workers == expectedWorkers
      ensures r.Ok? ==> fresh(r.value) && Built(r.value, signal.loaded.value, generation) && r.value.manager == manager
      ensures r.Ok? ==> r.value.engine != null ==> fresh(r.value.engine)
    {
      if signal.loaded.Err? {
        return Err(signal.loaded.error);
      }
      var config := signal.loaded.value;
      if config.listenPort != expectedListenPort {
        return Err("Reload rejected: listen port changed");
      }
      if config.workers != expectedWorkers {
        return Err("Reload rejected: workers changed");
      }
      r := BuildActiveConfig(config, generation, manager, signal.loads);
    }

    function AcceptedCount(signals: seq<Signal>): nat {
      if signals == [] then 0
      else
        AcceptedCount(signals[..|signals| - 1]) +
        (if Accepts(expectedListenPort, expectedWorkers, signals[|signals| - 1]) then 1 else 0)
    }

    /** The loop over all signals of a run: the generation counts the accepted reloads, the live snapshot carries
        it, and the manager is the one from startup. */
    method Run(signals: seq<Signal>)
      requires generation == 0 && store.current.generation == 0
      modifies this, store
      ensures generation == AcceptedCount(signals) && store.current.generation == generation
      ensures store.current.manager == old(store.current.manager)
      ensures AcceptedCount(signals) == 0 ==> store.current == old(store.current)
    {
      var i := 0;
      assert signals[..0] == [];
      while i < |signals|
        invariant 0 <= i <= |signals|
        invariant generation == AcceptedCount(signals[..i]) && store.current.generation == generation
        invariant store.current.manager == old(store.current.manager)
        invariant AcceptedCount(signals[..i]) == 0 ==> store.current == old(store.current)
      {
        assert signals[..i + 1][..i] == signals[..i];
        Reload(signals[i]);
        i := i + 1;
      }
      assert signals[..|signals|] == signals;
    }
  }

  // ---- one request on one snapshot ----

  datatype Outcome =
    | Dropped
    | Throttled(count: nat)
    | PayloadTooLarge
    | Hit(resp: HttpResponse)
    | NoRoute
    | Forward(route: MatchedRoute)

  /** The pipeline up to the upstream request. The three times are the readings of the clock by the ban check, the
      limiter and the cache. */
  method HandleRequest(active: ActiveConfig, req: HttpRequest, ip: IpAddr, banTime: int, rateTime: int, cacheTime: int)
    returns (out: Outcome)
    requires active.engine != null ==> active.engine.Valid()
    modifies active.manager, active.engine
    ensures active.engine != null ==> active.engine.Valid()
    ensures var (tables, gate) := GateStep(active.manager.policy, old(active.manager.Value()), ip, banTime, rateTime);
      && active.manager.Value() == tables
      && (gate == Blacklisted <==> out == Dropped)
      && (gate.RateLimited? <==> out.Throttled?) && (gate.RateLimited? ==> out.count == gate.count)
    ensures !out.Dropped? && !out.Throttled? ==> (out == PayloadTooLarge <==> TooLarge(active.security, req))
    ensures (active.engine != null && !out.Dropped? && !out.Throttled?
             && !TooLarge(active.security, req) && UsesCache(active.routes, req)) ==>
      var (state, found) := GetStep(old(active.engine.Value()), CacheKey(req.host, req.pathAndQuery), cacheTime);
      active.engine.Value() == state && (found.Some? <==> out.Hit?) &&
        (found.Some? ==> out.resp == HitResponse(found.value))
    ensures active.engine == null || !UsesCache(active.routes, req) ==> !out.Hit?
    ensures (active.engine != null
             && (out.Dropped? || out.Throttled? || out.PayloadTooLarge? || !UsesCache(active.routes, req))) ==>
      active.engine.Value() == old(active.engine.Value())
    ensures out.NoRoute? || out.Forward? ==>
      MatchRoute(active.routes, req.host, PathOf(req.pathAndQuery)) == if out.Forward? then Some(out.route) else None
  {
    hide MatchRoute, TooLarge, GetStep, Step, HitResponse;
    var banned := active.manager.CheckBlacklisted(ip, banTime);
    if banned {
      return Dropped;
    }
    var verdict := active.manager.CheckAndRecordRequest(ip, rateTime);
    if verdict.Err? {
      return Throttled(verdict.error);
    }
    if TooLarge(active.security, req) {
      return PayloadTooLarge;
    }
    var matched := MatchRoute(active.routes, req.host, PathOf(req.pathAndQuery));
    if active.engine != null && UsesCache(active.routes, req) {
      var cached := active.engine.Get(CacheKey(req.host, req.pathAndQuery), cacheTime);
      if cached.Some? {
        return Hit(HitResponse(cached.value));
      }
    }
    match matched
    case None => return NoRoute;
    case Some(route) => return Forward(route);
  }

  /** The cache after the store decision on a response: inserted under the request's key exactly when the request may
      use the cache and the response is storable. */
  function AfterResponse(limits: Limits, s: State, routes: seq<Route>, req: HttpRequest, resp: HttpResponse,
                         created: int): State
  {
    if UsesCache(routes, req) && Storable(limits, req, resp) then
      InsertStep(limits, s, CacheKey(req.host, req.pathAndQuery),
        NewAsset(limits, resp.status, resp.headers, resp.body, None, created)).0
    else s
  }

  /** The store decision on an upstream response whose body was read, on a snapshot with or without an engine. */
  method StoreResponse(active: ActiveConfig, req: HttpRequest, resp: HttpResponse, now: int)
    requires active.engine != null ==> active.engine.Valid()
    modifies active.engine
    ensures active.engine != null ==> active.engine.Valid()
    ensures active.engine != null ==>
      active.engine.Value() ==
        AfterResponse(active.engine.limits, old(active.engine.Value()), active.routes, req, resp, now)
  {
    hide UsesCache, Storable, InsertStep;
    if active.engine != null && UsesCache(active.routes, req) && Storable(active.engine.limits, req, resp) {
      var result := active.engine.Insert(CacheKey(req.host, req.pathAndQuery), resp.status, resp.headers, resp.body,
        None, now);
    }
  }
}
