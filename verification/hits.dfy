/** Exactly when a request can be answered from the cache, what such an answer skips, and which method it came from. */
module Hits {
  import opened Basics
  import opened Net
  import opened Cache
  import opened Security
  import opened Config
  import opened Router
  import opened StaticAssets
  import opened Proxy
  import opened Runtime
  import opened System
  import opened SystemRuns
  import Refinement

  // ---- the condition ----

  /** The snapshot has an engine with a positive TTL, route and method let the request use it, and its announced body is
      within the limit. */
  predicate CanHit(config: ProxyConfig, req: HttpRequest) {
    && LimitsOf(config.cache).Some? && LimitsOf(config.cache).value.defaultTtl > 0
    && UsesCache(config.routes, req) && !TooLarge(config.security, req)
  }

  predicate Delivers(http: Http, host: string, pathAndQuery: string) {
    Rooted(pathAndQuery) && http.delivers(host, pathAndQuery)
  }

  /** Requests for this resource can get an upstream response: they have a route, its upstream can be sent to, and so
      can the authentication provider if the route asks for one. */
  predicate Sendable(http: Http, config: ProxyConfig, host: string, pathAndQuery: string) {
    var route := MatchRoute(config.routes, host, PathOf(pathAndQuery));
    && route.Some? && http.sends(UpstreamUri(route.value, pathAndQuery))
    && (route.value.authRequired ==>
          ForwardAuth(config.security).Some? && http.sends(ForwardAuth(config.security).value))
  }

  /** At event `n` the upstream answers the request `req` under `snap`. */
  predicate RespondsTo(startup: ProxyConfig, trace: seq<Timed>, n: nat, snap: Snapshot, req: HttpRequest)
    requires n < |trace|
  {
    trace[n].event.Respond? && Awaits(Run(startup, trace[..n]), trace[n].event.id, snap, req)
  }

  /** A run that the HTTP library allows: every request is one it delivers, and every upstream response is one to a
      request that could be sent. */
  ghost predicate Possible(http: Http, startup: ProxyConfig, trace: seq<Timed>) {
    && (forall n :: 0 <= n < |trace| && trace[n].event.Begin? ==>
          Delivers(http, trace[n].event.req.host, trace[n].event.req.pathAndQuery))
    && (forall n, snap, req :: 0 <= n < |trace| && RespondsTo(startup, trace, n, snap, req) ==>
          Sendable(http, snap.config, req.host, req.pathAndQuery))
  }

  /** Responses for this resource can come and be stored: its route caches, and its path and query do not name an entry
      point. */
  predicate Feeds(http: Http, config: ProxyConfig, host: string, pathAndQuery: string) {
    && Delivers(http, host, pathAndQuery) && Sendable(http, config, host, pathAndQuery)
    && Cached(config.routes, host, pathAndQuery) && !IsEntrypoint(pathAndQuery)
  }

  /** The request can hit, and some resource with its key, split at the `n`-th character, can be stored. */
  predicate FedAt(http: Http, config: ProxyConfig, req: HttpRequest, n: nat) {
    n < |KeyOf(req)| && KeyOf(req)[n] == ':' && Feeds(http, config, KeyOf(req)[..n], KeyOf(req)[n + 1..])
  }

  predicate Hittable(http: Http, config: ProxyConfig, req: HttpRequest) {
    && Delivers(http, req.host, req.pathAndQuery) && CanHit(config, req)
    && exists n: nat :: n < |KeyOf(req)| && FedAt(http, config, req, n)
  }

  lemma KeySplits(source: HttpRequest)
    ensures var key, n := KeyOf(source), |source.host|;
      n < |key| && key[n] == ':' && key[..n] == source.host && key[n + 1..] == source.pathAndQuery
  {
  }

  lemma SplitHasKey(req: HttpRequest, n: nat, verb: string)
    requires n < |KeyOf(req)| && KeyOf(req)[n] == ':'
    ensures KeyOf(HttpRequest(verb, KeyOf(req)[..n], KeyOf(req)[n + 1..], [])) == KeyOf(req)
  {
    var key := KeyOf(req);
    assert key[..n] + [':'] + key[n + 1..] == key;
  }

  /** The request has a route, with a provider configured if the route asks for authentication. */
  predicate Routed(config: ProxyConfig, req: HttpRequest) {
    var route := MatchRoute(config.routes, req.host, PathOf(req.pathAndQuery));
    route.Some? && (route.value.authRequired ==> ForwardAuth(config.security).Some?)
  }

  function HitTask(startup: ProxyConfig, trace: seq<Timed>, i: nat, a: Asset): Task
    requires HitAt(startup, trace, i, a)
  {
    Run(startup, trace[..i]).tasks[trace[i].event.id]
  }

  lemma HitUsesCache(w: World, id: nat, now: int)
    requires id in w.tasks && LookUpStep(w, id, now).1.Some?
    ensures var t := w.tasks[id]; UsesCache(t.snap.config.routes, t.req) && !TooLarge(t.snap.config.security, t.req)
  {
    hide GetStep, UsesCache, TooLarge, AfterMiss, KeyOf;
  }

  /** Every hit in every run meets the condition, under whatever snapshot. */
  lemma HitMeansCanHit(startup: ProxyConfig, trace: seq<Timed>, i: nat, a: Asset)
    requires HitAt(startup, trace, i, a)
    ensures var t := HitTask(startup, trace, i, a); CanHit(t.snap.config, t.req)
  {
    var j, m, req, resp := HitProvenance(startup, trace, i, a);
    HitUsesCache(Run(startup, trace[..i]), trace[i].event.id, trace[i].now);
    hide Run, UsesCache, TooLarge, LookUpStep, RespondedAt;
  }

  lemma {:induction false} TasksDelivered(http: Http, startup: ProxyConfig, trace: seq<Timed>)
    requires Possible(http, startup, trace)
    ensures forall id :: id in Run(startup, trace).tasks ==>
      var req := Run(startup, trace).tasks[id].req; Delivers(http, req.host, req.pathAndQuery)
  {
    if trace != [] {
      var before, e := trace[..|trace| - 1], trace[|trace| - 1];
      PossiblePrefix(http, startup, trace, |trace| - 1);
      TasksDelivered(http, startup, before);
      RequestStep(startup, Run(startup, before), e);
      hide Next, Delivers;
    }
  }

  lemma PossiblePrefix(http: Http, startup: ProxyConfig, trace: seq<Timed>, i: nat)
    requires Possible(http, startup, trace) && i <= |trace|
    ensures Possible(http, startup, trace[..i])
  {
    hide Run, Delivers, Sendable, Awaits;
    forall n, snap, req | 0 <= n < i && RespondsTo(startup, trace[..i], n, snap, req)
      ensures Sendable(http, snap.config, req.host, req.pathAndQuery)
    {
      assert trace[..i][..n] == trace[..n];
      assert RespondsTo(startup, trace, n, snap, req);
    }
  }

  /** What an upstream response tells about its resource. */
  lemma RespondedFeeds(http: Http, startup: ProxyConfig, trace: seq<Timed>, j: nat, snap: Snapshot, req: HttpRequest,
                       resp: HttpResponse)
    requires Possible(http, startup, trace) && RespondedAt(startup, trace, j, snap, req, resp)
    ensures Feeds(http, snap.config, req.host, req.pathAndQuery) && CacheableMethod(req.verb)
  {
    NeverStaticIff(req.pathAndQuery);
    PossiblePrefix(http, startup, trace, j);
    TasksDelivered(http, startup, trace[..j]);
    hide Run, MatchRoute, NoStore, IsStaticAsset, IsEntrypoint, Delivers, Sendable, Cached;
    assert RespondsTo(startup, trace, j, snap, req);
  }

  /** Every hit in every run that the HTTP library allows is of a request that can hit, with a key under which a
      response can come and be stored. */
  lemma HitMeansHittable(http: Http, startup: ProxyConfig, trace: seq<Timed>, i: nat, a: Asset)
    requires HitAt(startup, trace, i, a) && Possible(http, startup, trace)
    ensures var t := HitTask(startup, trace, i, a); Hittable(http, t.snap.config, t.req)
  {
    PossiblePrefix(http, startup, trace, i);
    TasksDelivered(http, startup, trace[..i]);
    var t := HitTask(startup, trace, i, a);
    var j, m, req, resp := HitProvenance(startup, trace, i, a);
    HitMeansCanHit(startup, trace, i, a);
    RespondedFeeds(http, startup, trace[..i], j, t.snap, req, resp);
    KeySplits(req);
    hide CanHit, Feeds, KeyOf, RespondedAt, Possible, Delivers, LookUpStep, Run;
    assert FedAt(http, t.snap.config, t.req, |req.host|);
  }

  // ---- a hit comes before authentication ----

  predicate Late(phase: Phase) {
    phase.Missed? || phase.Storing? || phase.Finished?
  }

  lemma LateStep(startup: ProxyConfig, w: World, e: Timed, id: nat)
    requires id in w.tasks && Late(w.tasks[id].phase)
    ensures id in Next(startup, w, e).tasks && Late(Next(startup, w, e).tasks[id].phase)
  {
    hide Step, InsertStep, NewAsset, Storable, KeyOf, LimitsOf, NewEngines;
    match e.event
    case LookUp(other) =>
      if HasTask(w, other, Allowed) {
        LookUpElsewhere(w, other, e.now, id);
      }
      hide LookUpStep;
    case _ => hide LookUpStep, HasTask, CallManager;
  }

  lemma LookUpElsewhere(w: World, id: nat, now: int, other: nat)
    requires id in w.tasks && other in w.tasks && other != id
    ensures var w' := LookUpStep(w, id, now).0; other in w'.tasks && w'.tasks[other] == w.tasks[other]
  {
    hide GetStep, UsesCache, TooLarge, AfterMiss, KeyOf;
  }

  lemma {:induction false} LateStays(startup: ProxyConfig, trace: seq<Timed>, m: nat, id: nat)
    requires m <= |trace| && id in Run(startup, trace[..m]).tasks && Late(Run(startup, trace[..m]).tasks[id].phase)
    ensures id in Run(startup, trace).tasks && Late(Run(startup, trace).tasks[id].phase)
  {
    hide Next, Late;
    if m == |trace| {
      assert trace[..m] == trace;
    } else {
      var before := trace[..|trace| - 1];
      assert before[..m] == trace[..m];
      LateStays(startup, before, m, id);
      LateStep(startup, Run(startup, before), trace[|trace| - 1], id);
    }
  }

  /** No request answered from the cache was granted by the authentication provider before: the lookup comes first. */
  lemma HitIsUngranted(startup: ProxyConfig, trace: seq<Timed>, i: nat, a: Asset, m: nat)
    requires HitAt(startup, trace, i, a) && m < i
    ensures !GrantedAt(startup, trace, m, trace[i].event.id)
  {
    if GrantedAt(startup, trace, m, trace[i].event.id) {
      assert trace[..i][..m] == trace[..m];
      LateStays(startup, trace[..i], m, trace[i].event.id);
    }
  }

  // ---- a run with a hit ----

  const FIRST: IpAddr := V4(Ipv4(192, 0, 2, 1))
  const SECOND: IpAddr := V4(Ipv4(192, 0, 2, 2))

  const ANSWER := HttpResponse(200, [("content-type", IMAGE)], [])

  /** `source` is answered by the upstream and the answer stored, then `req` arrives from another address. */
  function HitTrace(source: HttpRequest, req: HttpRequest): seq<Timed> {
    [Timed(0, Begin(0, source, FIRST)), Timed(0, CheckBan(0)), Timed(0, CheckRate(0)), Timed(0, LookUp(0)),
     Timed(0, Authorize(0, true)), Timed(0, Respond(0, ANSWER)), Timed(0, Store(0, 0)),
     Timed(0, Begin(1, req, SECOND)), Timed(0, CheckBan(1)), Timed(0, CheckRate(1)), Timed(0, LookUp(1))]
  }

  /** No bans, and no request of `ip` on record. */
  predicate Unknown(t: Tables, ip: IpAddr) {
    t.bans == map[] && At(t.requests, ip) == []
  }

  lemma FreshGate(policy: Policy, t: Tables, ip: IpAddr, other: IpAddr)
    requires Unknown(t, ip)
    ensures var (t', gate) := GateStep(policy, t, ip, 0, 0);
      gate == Admitted && (ip != other && Unknown(t, other) ==> Unknown(t', other))
  {
    var t1 := t.(bans := t.bans - {ip});
    assert t1.bans == map[];
    assert Cleanup(t1, 0).bans == map[];
  }

  /** A new request from an unknown address gets to the cache lookup, with the snapshot that is published. */
  lemma Visit(startup: ProxyConfig, w: World, id: nat, req: HttpRequest, ip: IpAddr, other: IpAddr)
    requires id !in w.tasks && w.published.manager < |w.managers|
    requires Unknown(w.managers[w.published.manager].tables, ip)
    ensures var begun := Next(startup, w, Timed(0, Begin(id, req, ip)));
      var w' := Refinement.AfterGates(startup, begun, id, 0, 0);
      && w'.engines == w.engines && w'.published == w.published && |w'.managers| == |w.managers|
      && (ip != other && Unknown(w.managers[w.published.manager].tables, other) ==>
            Unknown(w'.managers[w.published.manager].tables, other))
      && w'.tasks == w.tasks[id := Task(w.published, req, ip, Allowed)]
  {
    var begun := Next(startup, w, Timed(0, Begin(id, req, ip)));
    var m := w.published.manager;
    FreshGate(w.managers[m].policy, w.managers[m].tables, ip, other);
    Refinement.GateEvents(startup, begun, id, 0, 0);
    GateFrame(startup, begun, id);
    hide GateStep, Refinement.AfterGates, Unknown;
  }

  lemma GateFrame(startup: ProxyConfig, w: World, id: nat)
    requires HasTask(w, id, Loaded)
    ensures var w' := Refinement.AfterGates(startup, w, id, 0, 0);
      w'.published == w.published && id in w'.tasks && w'.tasks == w.tasks[id := w'.tasks[id]]
  {
    hide Step;
  }

  /** The cell of the first engine, holding `ANSWER` under the resource's key. */
  function StoredState(limits: Limits, req: HttpRequest): State {
    State([Entry(KeyOf(req), AnswerAsset(limits))], 0, 0)
  }

  function AnswerAsset(limits: Limits): Asset {
    NewAsset(limits, ANSWER.status, ANSWER.headers, ANSWER.body, None, 0)
  }

  lemma AnswerIsStorable(limits: Limits, source: HttpRequest)
    requires !IsEntrypoint(source.pathAndQuery)
    ensures Storable(limits, source, ANSWER)
  {
    hide IsStaticAsset, IsEntrypoint, Header, NoStore;
    ImageIsStatic(source.pathAndQuery);
    assert FirstAt(ANSWER.headers, "content-type", IMAGE, 0);
    NoStoreIff(ANSWER.headers, "");
    StorableIff(limits, source, ANSWER, Some(IMAGE), None);
  }

  lemma FirstStore(limits: Limits, req: HttpRequest)
    ensures InsertStep(limits, EMPTY, KeyOf(req), AnswerAsset(limits)).0 == StoredState(limits, req)
  {
  }

  lemma StoredIsFound(limits: Limits, req: HttpRequest)
    requires limits.defaultTtl > 0
    ensures GetStep(StoredState(limits, req), KeyOf(req), 0).1 == Some(AnswerAsset(limits))
  {
  }

  /** A request without headers for a resource that can be stored. */
  predicate Stores(http: Http, config: ProxyConfig, source: HttpRequest) {
    && CacheableMethod(source.verb) && source.headers == []
    && Feeds(http, config, source.host, source.pathAndQuery)
  }

  lemma SourceUsesCache(http: Http, config: ProxyConfig, source: HttpRequest)
    requires Stores(http, config, source)
    ensures UsesCache(config.routes, source) && !TooLarge(config.security, source) && Routed(config, source)
  {
    hide MatchRoute, IsEntrypoint;
    assert Header([], "content-length") == None;
  }

  lemma EmptyMisses(key: string)
    ensures GetStep(EMPTY, key, 0) == (EMPTY, None)
  {
  }

  /** A world whose first task, a request for `req`, is in `phase`, and whose first engine is in `state`. */
  predicate FirstTask(w: World, v: World, req: HttpRequest, phase: Phase, limits: Limits, state: State) {
    && v.tasks.Keys == w.tasks.Keys && v.published == w.published && v.managers == w.managers
    && 0 in v.tasks && v.tasks[0] == Task(w.published, req, FIRST, phase)
    && |v.engines| == |w.engines| > 0 && v.engines[0].limits == limits && v.engines[0].state == state
  }

  /** A lookup in the empty cache, and the grant if the route asks for one. */
  lemma MissRun(startup: ProxyConfig, w: World, req: HttpRequest, limits: Limits)
    requires FirstTask(w, w, req, Allowed, limits, EMPTY) && w.published.manager < |w.managers| &&
      w.published.engine == Some(0)
    requires UsesCache(w.published.config.routes, req) && !TooLarge(w.published.config.security, req)
    requires Routed(w.published.config, req)
    ensures var v := Next(startup, Next(startup, w, Timed(0, LookUp(0))), Timed(0, Authorize(0, true)));
      FirstTask(w, v, req, Missed(Some(0), true), limits, EMPTY)
  {
    EmptyMisses(KeyOf(req));
    hide GetStep, UsesCache, TooLarge, KeyOf, MatchRoute;
  }

  /** The response arrives and is stored. */
  lemma StoreRun(startup: ProxyConfig, w: World, v: World, req: HttpRequest, limits: Limits)
    requires FirstTask(w, v, req, Missed(Some(0), true), limits, EMPTY) && !IsEntrypoint(req.pathAndQuery)
    ensures var v' := Next(startup, Next(startup, v, Timed(0, Respond(0, ANSWER))), Timed(0, Store(0, 0)));
      FirstTask(w, v', req, Finished, limits, StoredState(limits, req))
  {
    AnswerIsStorable(limits, req);
    FirstStore(limits, req);
    hide InsertStep, Storable, KeyOf, NewAsset, StoredState, IsEntrypoint;
  }

  /** The world of `HitTrace` after `n` events. */
  function WorldAt(startup: ProxyConfig, source: HttpRequest, req: HttpRequest, n: nat): World
    requires n <= 11
  {
    Run(startup, HitTrace(source, req)[..n])
  }

  lemma Unroll(startup: ProxyConfig, source: HttpRequest, req: HttpRequest, n: nat)
    requires n < 11
    ensures WorldAt(startup, source, req, n + 1) ==
      Next(startup, WorldAt(startup, source, req, n), HitTrace(source, req)[n])
    ensures WorldAt(startup, source, req, 0) == Start(startup)
  {
    hide Next;
    assert HitTrace(source, req)[..n + 1][..n] == HitTrace(source, req)[..n];
  }

  lemma StartIsFresh(startup: ProxyConfig)
    requires LimitsOf(startup.cache).Some?
    ensures var w := Start(startup);
      && w.published.manager == 0 && |w.managers| == 1 && w.tasks == map[] && w.published.engine == Some(0)
      && Unknown(w.managers[0].tables, FIRST) && Unknown(w.managers[0].tables, SECOND)
      && |w.engines| == 1 && Some(w.engines[0].limits) == LimitsOf(startup.cache) && w.engines[0].state == EMPTY
  {
  }

  lemma StoredKey(limits: Limits, req: HttpRequest, source: HttpRequest)
    requires KeyOf(req) == KeyOf(source)
    ensures StoredState(limits, req) == StoredState(limits, source)
  {
  }

  lemma FirstEvents(startup: ProxyConfig, source: HttpRequest, req: HttpRequest)
    ensures WorldAt(startup, source, req, 3) ==
      Refinement.AfterGates(startup, Next(startup, Start(startup), Timed(0, Begin(0, source, FIRST))), 0, 0, 0)
  {
    hide Next, WorldAt, Start;
    Unroll(startup, source, req, 0);
    Unroll(startup, source, req, 1);
    Unroll(startup, source, req, 2);
  }

  lemma MiddleEvents(startup: ProxyConfig, source: HttpRequest, req: HttpRequest)
    ensures var w := WorldAt(startup, source, req, 3);
      var w2 := Next(startup, Next(startup, w, Timed(0, LookUp(0))), Timed(0, Authorize(0, true)));
      && WorldAt(startup, source, req, 5) == w2
      && WorldAt(startup, source, req, 7) ==
           Next(startup, Next(startup, w2, Timed(0, Respond(0, ANSWER))), Timed(0, Store(0, 0)))
  {
    hide Next, WorldAt;
    Unroll(startup, source, req, 3);
    Unroll(startup, source, req, 4);
    Unroll(startup, source, req, 5);
    Unroll(startup, source, req, 6);
  }

  lemma LastEvents(startup: ProxyConfig, source: HttpRequest, req: HttpRequest)
    ensures WorldAt(startup, source, req, 10) ==
      Refinement.AfterGates(startup, Next(startup, WorldAt(startup, source, req, 7), Timed(0, Begin(1, req, SECOND))),
        1, 0, 0)
  {
    hide Next, WorldAt;
    Unroll(startup, source, req, 7);
    Unroll(startup, source, req, 8);
    Unroll(startup, source, req, 9);
  }

  /** After three events the first request waits for the lookup. */
  lemma FirstVisit(startup: ProxyConfig, source: HttpRequest, req: HttpRequest)
    requires LimitsOf(startup.cache).Some?
    ensures var w := WorldAt(startup, source, req, 3);
      && w.published == Start(startup).published && |w.managers| == 1 && Unknown(w.managers[0].tables, SECOND)
      && w.tasks == map[0 := Task(w.published, source, FIRST, Allowed)] && w.engines == Start(startup).engines
  {
    FirstEvents(startup, source, req);
    StartIsFresh(startup);
    hide Next, WorldAt, Start, LimitsOf, Unknown, Refinement.AfterGates;
    Visit(startup, Start(startup), 0, source, FIRST, SECOND);
  }

  /** After seven its response is stored. */
  lemma FirstHalf(http: Http, startup: ProxyConfig, source: HttpRequest, req: HttpRequest)
    requires CanHit(startup, req) && Stores(http, startup, source) && KeyOf(source) == KeyOf(req)
    ensures var w := WorldAt(startup, source, req, 7);
      && w.published == Start(startup).published && |w.managers| == 1 && Unknown(w.managers[0].tables, SECOND)
      && 1 !in w.tasks && |w.engines| == 1 && w.engines[0].state == StoredState(LimitsOf(startup.cache).value, req)
    ensures var w := WorldAt(startup, source, req, 5);
      0 in w.tasks && w.tasks[0].req == source && w.tasks[0].snap == Start(startup).published
  {
    var limits := LimitsOf(startup.cache).value;
    SourceUsesCache(http, startup, source);
    StartIsFresh(startup);
    StoredKey(limits, req, source);
    FirstVisit(startup, source, req);
    MiddleEvents(startup, source, req);
    StartConfig(startup);
    hide Next, WorldAt, Start, MatchRoute, UsesCache, TooLarge, LimitsOf, StoredState, Unknown, KeyOf, IsEntrypoint;
    var w := WorldAt(startup, source, req, 3);
    MissRun(startup, w, source, limits);
    StoreRun(startup, w, WorldAt(startup, source, req, 5), source, limits);
  }

  lemma StartConfig(startup: ProxyConfig)
    ensures Start(startup).published.config == startup
  {
  }

  /** After ten the second request waits for the lookup. */
  lemma SecondHalf(startup: ProxyConfig, source: HttpRequest, req: HttpRequest)
    requires var w := WorldAt(startup, source, req, 7);
      && w.published.manager == 0 && |w.managers| == 1 && Unknown(w.managers[0].tables, SECOND) && 1 !in w.tasks
    ensures var w, w' := WorldAt(startup, source, req, 7), WorldAt(startup, source, req, 10);
      w'.engines == w.engines && w'.tasks == w.tasks[1 := Task(w.published, req, SECOND, Allowed)] && |w'.managers| == 1
  {
    LastEvents(startup, source, req);
    hide Next, WorldAt, Unknown, Refinement.AfterGates;
    Visit(startup, WorldAt(startup, source, req, 7), 1, req, SECOND, SECOND);
  }

  lemma FinalLookUp(startup: ProxyConfig, w: World, req: HttpRequest, limits: Limits)
    requires 1 in w.tasks && w.tasks[1] == Task(Start(startup).published, req, SECOND, Allowed) && |w.managers| == 1
    requires CanHit(startup, req) && LimitsOf(startup.cache) == Some(limits) && |w.engines| == 1
    requires w.engines[0].state == StoredState(limits, req)
    ensures HasTask(w, 1, Allowed) && LookUpStep(w, 1, 0).1 == Some(AnswerAsset(limits))
  {
    StoredIsFound(limits, req);
    hide GetStep, UsesCache, TooLarge, StoredState, KeyOf, AfterMiss, AnswerAsset;
  }

  /** If `source` can be stored under the key of `req`, the trace ends in a hit on `req`. */
  lemma HitTraceHits(http: Http, startup: ProxyConfig, source: HttpRequest, req: HttpRequest)
    requires CanHit(startup, req) && Stores(http, startup, source) && KeyOf(source) == KeyOf(req)
    ensures var a := AnswerAsset(LimitsOf(startup.cache).value);
      && HitAt(startup, HitTrace(source, req), 10, a)
      && HitTask(startup, HitTrace(source, req), 10, a) == Task(Start(startup).published, req, SECOND, Allowed)
    ensures var w := WorldAt(startup, source, req, 5);
      0 in w.tasks && w.tasks[0].req == source && w.tasks[0].snap == Start(startup).published
  {
    var limits := LimitsOf(startup.cache).value;
    StartIsFresh(startup);
    FirstHalf(http, startup, source, req);
    SecondHalf(startup, source, req);
    FinalLookUp(startup, WorldAt(startup, source, req, 10), req, limits);
  }

  lemma OnlyResponse(source: HttpRequest, req: HttpRequest, j: nat)
    requires j < 11 && HitTrace(source, req)[j].event.Respond?
    ensures j == 5 && HitTrace(source, req)[j].event.id == 0
  {
  }

  /** The one response of the trace answers its first request. */
  lemma OnlySource(startup: ProxyConfig, source: HttpRequest, req: HttpRequest,
                   j: nat, snap: Snapshot, other: HttpRequest, resp: HttpResponse)
    requires |HitTrace(source, req)| == 11 && RespondedAt(startup, HitTrace(source, req)[..10], j, snap, other, resp)
    requires var w := WorldAt(startup, source, req, 5);
      0 in w.tasks && w.tasks[0].req == source && w.tasks[0].snap == Start(startup).published
    ensures other == source
  {
    hide HitTrace, MatchRoute, NoStore, IsStatic, Run;
    OnlyResponse(source, req, j);
    assert HitTrace(source, req)[..10][..5] == HitTrace(source, req)[..5];
  }

  lemma HitTraceBegins(source: HttpRequest, req: HttpRequest, n: nat)
    requires n < 11 && HitTrace(source, req)[n].event.Begin?
    ensures HitTrace(source, req)[n].event.req in {source, req}
  {
  }

  /** If the library delivers both requests and the first can be sent, it allows the trace. */
  lemma HitTracePossible(http: Http, startup: ProxyConfig, source: HttpRequest, req: HttpRequest)
    requires Delivers(http, source.host, source.pathAndQuery) && Delivers(http, req.host, req.pathAndQuery)
    requires Sendable(http, startup, source.host, source.pathAndQuery) && |HitTrace(source, req)| == 11
    requires var w := WorldAt(startup, source, req, 5);
      0 in w.tasks && w.tasks[0].req == source && w.tasks[0].snap == Start(startup).published
    ensures Possible(http, startup, HitTrace(source, req))
  {
    StartConfig(startup);
    hide HitTrace, Delivers, Sendable, Run, Start;
    var trace := HitTrace(source, req);
    forall n | 0 <= n < |trace| && trace[n].event.Begin?
      ensures Delivers(http, trace[n].event.req.host, trace[n].event.req.pathAndQuery)
    {
      HitTraceBegins(source, req, n);
    }
    forall n, snap, other | 0 <= n < |trace| && RespondsTo(startup, trace, n, snap, other)
      ensures Sendable(http, snap.config, other.host, other.pathAndQuery)
    {
      OnlyResponse(source, req, n);
    }
  }

  // ---- exactly when a request is answered from the cache ----

  /** At event `i` of a run that the HTTP library allows, the request `req` of the startup snapshot is answered from the
      cache, no grant for it having come before. */
  ghost predicate AnsweredFromCache(http: Http, startup: ProxyConfig, trace: seq<Timed>, i: nat, a: Asset,
                                    req: HttpRequest)
  {
    && Clocked(trace) && Possible(http, startup, trace) && HitAt(startup, trace, i, a)
    && HitTask(startup, trace, i, a).snap == Start(startup).published && HitTask(startup, trace, i, a).req == req
    && forall m: nat :: m < i ==> !GrantedAt(startup, trace, m, trace[i].event.id)
  }

  function StoredAnswer(startup: ProxyConfig): Asset
    requires LimitsOf(startup.cache).Some?
  {
    AnswerAsset(LimitsOf(startup.cache).value)
  }

  /** The trace answers `req` from the cache, and every response before the hit is one to `source`. */
  ghost predicate ServedFrom(http: Http, startup: ProxyConfig, source: HttpRequest, req: HttpRequest) {
    && LimitsOf(startup.cache).Some?
    && AnsweredFromCache(http, startup, HitTrace(source, req), 10, StoredAnswer(startup), req)
    && forall j: nat, snap, other, resp :: RespondedAt(startup, HitTrace(source, req)[..10], j, snap, other, resp) ==>
         other == source
  }

  lemma CanHitMeansGet(config: ProxyConfig, req: HttpRequest)
    requires CanHit(config, req)
    ensures CacheableMethod(req.verb) && LimitsOf(config.cache).Some?
  {
    hide MatchRoute;
  }

  /** Any two requests with one key, where the first can be stored and the second can hit. */
  lemma ServesOther(http: Http, startup: ProxyConfig, source: HttpRequest, req: HttpRequest)
    requires Delivers(http, req.host, req.pathAndQuery) && CanHit(startup, req) && KeyOf(source) == KeyOf(req)
    requires CacheableMethod(source.verb) && source.headers == []
    requires Feeds(http, startup, source.host, source.pathAndQuery)
    ensures ServedFrom(http, startup, source, req)
  {
    hide CanHit, Start, HitAt, GrantedAt, IsEntrypoint, MatchRoute, KeyOf, RespondedAt, WorldAt, LimitsOf,
      Routed;
    CanHitMeansGet(startup, req);
    HitTraceHits(http, startup, source, req);
    HitTracePossible(http, startup, source, req);
    var trace, a := HitTrace(source, req), StoredAnswer(startup);
    forall m: nat | m < 10 ensures !GrantedAt(startup, trace, m, trace[10].event.id) {
      HitIsUngranted(startup, trace, 10, a, m);
    }
    hide HitTrace;
    forall j: nat, snap, other, resp | RespondedAt(startup, trace[..10], j, snap, other, resp) ensures other == source {
      OnlySource(startup, source, req, j, snap, other, resp);
    }
  }

  /** The same for the resource that the key of `req` names when split at `n`. */
  lemma ServesSplit(http: Http, startup: ProxyConfig, req: HttpRequest, n: nat, verb: string)
    returns (source: HttpRequest)
    requires Delivers(http, req.host, req.pathAndQuery) && CanHit(startup, req) && FedAt(http, startup, req, n)
    requires CacheableMethod(verb)
    ensures source == HttpRequest(verb, KeyOf(req)[..n], KeyOf(req)[n + 1..], [])
    ensures ServedFrom(http, startup, source, req)
  {
    hide CanHit, ServedFrom, KeyOf, Feeds;
    source := HttpRequest(verb, KeyOf(req)[..n], KeyOf(req)[n + 1..], []);
    SplitHasKey(req, n, verb);
    ServesOther(http, startup, source, req);
  }

  /** Some run answers a request from the cache, without a grant, iff its snapshot has an engine with a positive TTL,
      its method is GET or HEAD, its route does not say `cache off`, its announced body is within the limit, and some
      resource with its key can be sent upstream, has a route that caches and is no entry point. A grant for the request
      itself is no part of the condition: the lookup comes before the authentication step. */
  lemma CachedAnswerIff(http: Http, startup: ProxyConfig, req: HttpRequest)
    ensures (exists trace, i: nat, a :: AnsweredFromCache(http, startup, trace, i, a, req)) <==>
      Hittable(http, startup, req)
  {
    StartConfig(startup);
    hide CanHit, FedAt, Start, HitAt, GrantedAt, HitTrace, RespondedAt;
    if Hittable(http, startup, req) {
      var n: nat :| n < |KeyOf(req)| && FedAt(http, startup, req, n);
      var source := ServesSplit(http, startup, req, n, "GET");
      assert AnsweredFromCache(http, startup, HitTrace(source, req), 10, StoredAnswer(startup), req);
    }
    if trace, i: nat, a :| AnsweredFromCache(http, startup, trace, i, a, req) {
      HitMeansHittable(http, startup, trace, i, a);
    }
  }

  /** A host without a slash, and no colon before a slash in path and query. */
  predicate PlainKey(req: HttpRequest) {
    && '/' !in req.host
    && forall k :: 0 <= k < |req.pathAndQuery| - 1 && req.pathAndQuery[k] == ':' ==> req.pathAndQuery[k + 1] != '/'
  }

  /** Only the resource's own host is followed by a colon and a slash in a plain key. */
  lemma PlainKeyIsOwn(req: HttpRequest, n: nat)
    requires PlainKey(req) && n + 1 < |KeyOf(req)| && KeyOf(req)[n] == ':' && n != |req.host|
    ensures KeyOf(req)[n + 1] != '/'
  {
    var key := KeyOf(req);
    if n < |req.host| {
      assert n + 1 < |req.host| ==> key[n + 1] == req.host[n + 1];
    } else {
      var k := n - |req.host| - 1;
      assert key[n] == req.pathAndQuery[k] && key[n + 1] == req.pathAndQuery[k + 1];
    }
  }

  lemma PlainKeyFedByOwn(http: Http, config: ProxyConfig, req: HttpRequest, n: nat)
    requires PlainKey(req) && FedAt(http, config, req, n)
    ensures n == |req.host|
  {
    hide Sendable, Cached, IsEntrypoint, KeyOf, PlainKey;
    assert KeyOf(req)[n + 1..][0] == KeyOf(req)[n + 1];
    if n != |req.host| {
      PlainKeyIsOwn(req, n);
    }
  }

  /** For a plain key, as of `GET /` with a port in its host, the resource is the request's own. */
  lemma PlainKeyAnswerIff(http: Http, startup: ProxyConfig, req: HttpRequest)
    requires PlainKey(req)
    ensures (exists trace, i: nat, a :: AnsweredFromCache(http, startup, trace, i, a, req)) <==>
      CanHit(startup, req) && Feeds(http, startup, req.host, req.pathAndQuery)
  {
    CachedAnswerIff(http, startup, req);
    KeySplits(req);
    FeedsDelivers(http, startup, req.host, req.pathAndQuery);
    hide CanHit, Feeds, KeyOf, AnsweredFromCache, Delivers, PlainKey;
    assert FedAt(http, startup, req, |req.host|) <==> Feeds(http, startup, req.host, req.pathAndQuery);
    if n: nat :| n < |KeyOf(req)| && FedAt(http, startup, req, n) {
      PlainKeyFedByOwn(http, startup, req, n);
    }
  }

  /** The root of a host without a slash is never answered from the cache. */
  lemma RootIsNotAnswered(http: Http, startup: ProxyConfig, req: HttpRequest)
    requires '/' !in req.host && req.pathAndQuery == "/"
    ensures !exists trace, i: nat, a :: AnsweredFromCache(http, startup, trace, i, a, req)
  {
    assert Lower("/") == "/";
    PlainKeyAnswerIff(http, startup, req);
    hide AnsweredFromCache, CanHit;
  }

  lemma FeedsDelivers(http: Http, config: ProxyConfig, host: string, pathAndQuery: string)
    ensures Feeds(http, config, host, pathAndQuery) ==> Delivers(http, host, pathAndQuery)
  {
  }

  // ---- well-shaped requests ----

  predicate AllWellShaped(trace: seq<Timed>) {
    forall n :: 0 <= n < |trace| && trace[n].event.Begin? ==> WellShaped(trace[n].event.req)
  }

  lemma HitTraceWellShaped(source: HttpRequest, req: HttpRequest)
    requires WellShaped(source) && WellShaped(req)
    ensures AllWellShaped(HitTrace(source, req))
  {
    hide WellShaped;
  }

  /** Among well-shaped requests the resource is the request's own: it is answered from the cache in some run iff it can
      hit, its route caches, and its path and query do not name an entry point. */
  lemma WellShapedAnswerIff(http: Http, startup: ProxyConfig, req: HttpRequest)
    requires WellShaped(req)
    ensures (exists trace, i: nat, a :: AllWellShaped(trace) && AnsweredFromCache(http, startup, trace, i, a, req)) <==>
      CanHit(startup, req) && Feeds(http, startup, req.host, req.pathAndQuery)
  {
    StartConfig(startup);
    hide CanHit, Feeds, Start, HitAt, GrantedAt, HitTrace, RespondedAt, AllWellShaped;
    FeedsDelivers(http, startup, req.host, req.pathAndQuery);
    if CanHit(startup, req) && Feeds(http, startup, req.host, req.pathAndQuery) {
      var source := HttpRequest("GET", req.host, req.pathAndQuery, []);
      ServesOther(http, startup, source, req);
      HitTraceWellShaped(source, req);
      assert AnsweredFromCache(http, startup, HitTrace(source, req), 10, StoredAnswer(startup), req);
    }
    if trace, i: nat, a :| AllWellShaped(trace) && AnsweredFromCache(http, startup, trace, i, a, req) {
      HitMeansCanHit(startup, trace, i, a);
      WellShapedHitFeeds(http, startup, trace, i, a);
    }
  }

  lemma WellShapedHitFeeds(http: Http, startup: ProxyConfig, trace: seq<Timed>, i: nat, a: Asset)
    requires HitAt(startup, trace, i, a) && AllWellShaped(trace) && Possible(http, startup, trace)
    ensures var t := HitTask(startup, trace, i, a); Feeds(http, t.snap.config, t.req.host, t.req.pathAndQuery)
  {
    var t := HitTask(startup, trace, i, a);
    HitIsForSameResource(startup, trace, i, a);
    PossiblePrefix(http, startup, trace, i);
    hide Possible, RespondedAt, Feeds, Cached, LookUpStep, Run;
    var j: nat, req, resp :| j < i && RespondedAt(startup, trace[..i], j, t.snap, req, resp)
      && req.host == t.req.host && req.pathAndQuery == t.req.pathAndQuery;
    RespondedFeeds(http, startup, trace[..i], j, t.snap, req, resp);
  }

  // ---- the resource behind a hit ----

  /** The answer of the hit is an earlier response to a request for `host` and `path` under its snapshot. */
  ghost predicate SameResourceSource(startup: ProxyConfig, trace: seq<Timed>, i: nat, a: Asset)
    requires HitAt(startup, trace, i, a)
  {
    var t := HitTask(startup, trace, i, a);
    exists j: nat, req, resp :: RespondedAt(startup, trace[..i], j, t.snap, req, resp)
      && req.host == t.req.host && req.pathAndQuery == t.req.pathAndQuery
      && a.status == resp.status && a.headers == resp.headers && a.body == resp.body
  }

  /** Some other resource shares the key and can be stored. */
  predicate FedByOther(http: Http, config: ProxyConfig, req: HttpRequest) {
    exists n: nat :: n < |KeyOf(req)| && n != |req.host| && FedAt(http, config, req, n)
  }

  /** Every hit on `req` in every run is a response for the same host, path and query iff no other resource that can be
      stored shares its key. */
  lemma SameResourceIff(http: Http, startup: ProxyConfig, req: HttpRequest)
    ensures (forall trace, i: nat, a :: AnsweredFromCache(http, startup, trace, i, a, req) ==>
               SameResourceSource(startup, trace, i, a))
            <==> !(Delivers(http, req.host, req.pathAndQuery) && CanHit(startup, req) && FedByOther(http, startup, req))
  {
    hide CanHit, FedAt, HitAt, GrantedAt, SameResourceSource, ServedFrom, HitTrace, Start;
    if Delivers(http, req.host, req.pathAndQuery) && CanHit(startup, req) && FedByOther(http, startup, req) {
      var n: nat :| n < |KeyOf(req)| && n != |req.host| && FedAt(http, startup, req, n);
      var source := ServesSplit(http, startup, req, n, "GET");
      ServedFromOther(http, startup, source, req);
      assert AnsweredFromCache(http, startup, HitTrace(source, req), 10, StoredAnswer(startup), req);
    } else {
      forall trace, i: nat, a | AnsweredFromCache(http, startup, trace, i, a, req)
        ensures SameResourceSource(startup, trace, i, a)
      {
        UnsharedKeyAgrees(http, startup, trace, i, a, req);
      }
    }
  }

  lemma ServedFromOther(http: Http, startup: ProxyConfig, source: HttpRequest, req: HttpRequest)
    requires ServedFrom(http, startup, source, req) && source.host != req.host
    ensures LimitsOf(startup.cache).Some?
    ensures AnsweredFromCache(http, startup, HitTrace(source, req), 10, StoredAnswer(startup), req)
    ensures !SameResourceSource(startup, HitTrace(source, req), 10, StoredAnswer(startup))
  {
    hide HitAt, RespondedAt, HitTrace, GrantedAt, LimitsOf, Start;
  }

  lemma UnsharedKeyAgrees(http: Http, startup: ProxyConfig, trace: seq<Timed>, i: nat, a: Asset, req: HttpRequest)
    requires AnsweredFromCache(http, startup, trace, i, a, req)
    requires !(Delivers(http, req.host, req.pathAndQuery) && CanHit(startup, req) && FedByOther(http, startup, req))
    ensures SameResourceSource(startup, trace, i, a)
  {
    var t := HitTask(startup, trace, i, a);
    StartConfig(startup);
    HitMeansHittable(http, startup, trace, i, a);
    PossiblePrefix(http, startup, trace, i);
    var j, m, source, resp := HitProvenance(startup, trace, i, a);
    RespondedFeeds(http, startup, trace[..i], j, t.snap, source, resp);
    KeySplits(source);
    KeySplits(req);
    hide HitAt, RespondedAt, GrantedAt, CanHit, Feeds, KeyOf, Start, HitTask, LimitsOf, Possible, Delivers;
    assert FedAt(http, startup, req, |source.host|);
  }

  const PLAIN_HOST := HttpRequest("GET", "a", "/x:/y.css", [])
  const SLASH_HOST := HttpRequest("GET", "a:/x", "/y.css", [])

  /** On a table whose first route is `http://a`, a request for host `a` is answered with the response for host
      `a:/x`. */
  lemma SlashHostAnswersOther(http: Http, startup: ProxyConfig)
    requires startup.routes != []
    requires startup.routes[0].requestEndpoint == "http://a" && startup.routes[0].cache.GetOr(true)
    requires LimitsOf(startup.cache).Some? && LimitsOf(startup.cache).value.defaultTtl > 0
    requires http.delivers(PLAIN_HOST.host, PLAIN_HOST.pathAndQuery)
    requires http.delivers(SLASH_HOST.host, SLASH_HOST.pathAndQuery)
    requires Sendable(http, startup, SLASH_HOST.host, SLASH_HOST.pathAndQuery)
    ensures AnsweredFromCache(http, startup, HitTrace(SLASH_HOST, PLAIN_HOST), 10, StoredAnswer(startup), PLAIN_HOST)
    ensures !SameResourceSource(startup, HitTrace(SLASH_HOST, PLAIN_HOST), 10, StoredAnswer(startup))
  {
    hide AnsweredFromCache, SameResourceSource, ServedFrom, KeyOf, MatchRoute, CanHit, Feeds, LimitsOf, HitTrace,
      Sendable;
    SlashHostFeeds(http, startup);
    PlainHostHits(startup);
    assert KeyOf(SLASH_HOST) == KeyOf(PLAIN_HOST) by {
      HostsCollide();
    }
    ServesOther(http, startup, SLASH_HOST, PLAIN_HOST);
    ServedFromOther(http, startup, SLASH_HOST, PLAIN_HOST);
  }

  lemma HostsCollide()
    ensures KeyOf(SLASH_HOST) == KeyOf(PLAIN_HOST)
  {
  }

  lemma SlashHostFeeds(http: Http, startup: ProxyConfig)
    requires startup.routes != []
    requires startup.routes[0].requestEndpoint == "http://a" && startup.routes[0].cache.GetOr(true)
    requires http.delivers(SLASH_HOST.host, SLASH_HOST.pathAndQuery)
    requires Sendable(http, startup, SLASH_HOST.host, SLASH_HOST.pathAndQuery)
    ensures Feeds(http, startup, SLASH_HOST.host, SLASH_HOST.pathAndQuery)
  {
    hide MatchRoute, IsEntrypoint, PathOf, Sendable;
    ShortHostMatches(startup.routes, "a:/x", PathOf("/y.css"));
    StyleSheetIsNoEntrypoint();
  }

  lemma PlainHostHits(startup: ProxyConfig)
    requires startup.routes != []
    requires startup.routes[0].requestEndpoint == "http://a" && startup.routes[0].cache.GetOr(true)
    requires LimitsOf(startup.cache).Some? && LimitsOf(startup.cache).value.defaultTtl > 0
    ensures CanHit(startup, PLAIN_HOST)
  {
    hide MatchRoute, PathOf, LimitsOf;
    ShortHostMatches(startup.routes, "a", PathOf("/x:/y.css"));
    assert Header([], "content-length") == None;
  }

  lemma ShortHostMatches(routes: seq<Route>, host: string, path: string)
    requires routes != [] && routes[0].requestEndpoint == "http://a" && host != "" && host[0] == 'a'
    ensures MatchRoute(routes, host, path).Some? && MatchRoute(routes, host, path).value.cache == routes[0].cache
  {
    assert (HTTP + host + path)[7] == 'a';
    assert "http://a" == HTTP + ['a'];
    assert routes[0].requestEndpoint <= HTTP + host + path;
  }

  lemma NoEntrypointSuffix()
    ensures !EndsWithAny("/y.css", ENTRYPOINT_SUFFIXES)
  {
    assert "/y.css"[1..] == "y.css" != ENTRYPOINT_SUFFIXES[0];
  }

  lemma StyleSheetIsNoEntrypoint()
    ensures !IsEntrypoint("/y.css")
  {
    assert Lower("/y.css") == "/y.css";
    hide ContainsAny, Lower, EndsWithAny;
    NoPart("/y.css");
    NoEntrypointSuffix();
  }

  // ---- the method behind a hit ----

  predicate BeginsWithin(trace: seq<Timed>, verbs: set<string>) {
    forall n :: 0 <= n < |trace| && trace[n].event.Begin? ==> trace[n].event.req.verb in verbs
  }

  lemma {:induction false} TaskVerbs(startup: ProxyConfig, trace: seq<Timed>, verbs: set<string>)
    requires BeginsWithin(trace, verbs)
    ensures forall id :: id in Run(startup, trace).tasks ==> Run(startup, trace).tasks[id].req.verb in verbs
  {
    if trace != [] {
      var before, e := trace[..|trace| - 1], trace[|trace| - 1];
      TaskVerbs(startup, before, verbs);
      RequestStep(startup, Run(startup, before), e);
      hide Next;
    }
  }

  /** The answer of the hit is an earlier response to a request with the hit's key and method, under its snapshot. */
  ghost predicate SameVerbSource(startup: ProxyConfig, trace: seq<Timed>, i: nat, a: Asset)
    requires HitAt(startup, trace, i, a)
  {
    var t := HitTask(startup, trace, i, a);
    exists j: nat, req, resp :: RespondedAt(startup, trace[..i], j, t.snap, req, resp)
      && KeyOf(req) == KeyOf(t.req) && req.verb == t.req.verb
      && a.status == resp.status && a.headers == resp.headers && a.body == resp.body
  }

  /** The key leaves the method out. In the runs over a set of methods every hit on `req` was answered to its own method
      iff GET and HEAD are not both among them or `req` is never hit. */
  lemma VerbsAgreeIff(http: Http, startup: ProxyConfig, req: HttpRequest, verbs: set<string>)
    ensures (forall trace, i: nat, a ::
               BeginsWithin(trace, verbs) && AnsweredFromCache(http, startup, trace, i, a, req) ==>
               SameVerbSource(startup, trace, i, a))
            <==> !("GET" in verbs && "HEAD" in verbs && Hittable(http, startup, req))
  {
    hide Hittable, HitAt, GrantedAt, SameVerbSource, BeginsWithin, HitTrace, Start;
    if "GET" in verbs && "HEAD" in verbs && Hittable(http, startup, req) {
      var source := OtherVerbAnswers(http, startup, req, verbs);
    } else {
      forall trace, i: nat, a | BeginsWithin(trace, verbs) && AnsweredFromCache(http, startup, trace, i, a, req)
        ensures SameVerbSource(startup, trace, i, a)
      {
        CachedAnswerIff(http, startup, req);
        OneVerbAgrees(http, startup, trace, i, a, req, verbs);
      }
    }
  }

  lemma OneVerbAgrees(http: Http, startup: ProxyConfig, trace: seq<Timed>, i: nat, a: Asset, req: HttpRequest,
                      verbs: set<string>)
    requires BeginsWithin(trace, verbs) && AnsweredFromCache(http, startup, trace, i, a, req) &&
      !("GET" in verbs && "HEAD" in verbs)
    ensures SameVerbSource(startup, trace, i, a)
  {
    var t := HitTask(startup, trace, i, a);
    var j, m, source, resp := HitProvenance(startup, trace, i, a);
    HitMeansCanHit(startup, trace, i, a);
    CanHitMeansGet(t.snap.config, t.req);
    TaskVerbs(startup, trace[..i], verbs);
    TaskVerbs(startup, trace[..i][..j], verbs);
    hide Run, MatchRoute, NoStore, IsStatic, LookUpStep, CanHit, GrantedAt, Start;
    assert source.verb == t.req.verb;
  }

  /** A GET answered with the response to a HEAD, or the other way round. */
  lemma OtherVerbAnswers(http: Http, startup: ProxyConfig, req: HttpRequest, verbs: set<string>)
    returns (source: HttpRequest)
    requires Hittable(http, startup, req) && "GET" in verbs && "HEAD" in verbs
    ensures source.verb == (if req.verb == "GET" then "HEAD" else "GET") && LimitsOf(startup.cache).Some?
    ensures BeginsWithin(HitTrace(source, req), verbs)
    ensures AnsweredFromCache(http, startup, HitTrace(source, req), 10, StoredAnswer(startup), req)
    ensures !SameVerbSource(startup, HitTrace(source, req), 10, StoredAnswer(startup))
  {
    hide CanHit, FedAt, ServedFrom, HitTrace, BeginsWithin;
    CanHitMeansGet(startup, req);
    var n: nat :| n < |KeyOf(req)| && FedAt(http, startup, req, n);
    source := ServesSplit(http, startup, req, n, if req.verb == "GET" then "HEAD" else "GET");
    HitTraceVerbs(source, req, verbs);
    ServedFromOtherVerb(http, startup, source, req);
  }

  lemma HitTraceVerbs(source: HttpRequest, req: HttpRequest, verbs: set<string>)
    requires req.verb in verbs && source.verb in verbs
    ensures BeginsWithin(HitTrace(source, req), verbs)
  {
  }

  lemma ServedFromOtherVerb(http: Http, startup: ProxyConfig, source: HttpRequest, req: HttpRequest)
    requires ServedFrom(http, startup, source, req) && source.verb != req.verb
    ensures LimitsOf(startup.cache).Some?
    ensures AnsweredFromCache(http, startup, HitTrace(source, req), 10, StoredAnswer(startup), req)
    ensures !SameVerbSource(startup, HitTrace(source, req), 10, StoredAnswer(startup))
  {
    hide HitAt, RespondedAt, HitTrace, GrantedAt, LimitsOf, Start, KeyOf;
  }
}
