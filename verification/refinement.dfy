/** The objects refine the state machine: building, reloading, handling a request and storing a response on the heap are
    events of the machine, so what holds in every trace holds of the objects. */
module Refinement {
  import opened Basics
  import opened Net
  import opened Cache
  import opened Security
  import opened Config
  import opened Router
  import opened Proxy
  import opened Runtime
  import opened System
  import Tls

  /** `active` is the object behind the snapshot `snap` of `w`: the same configuration, a manager with the tables of its
      cell, an engine with the state of its cell. */
  ghost predicate Represents(active: ActiveConfig, w: World, snap: Snapshot)
    reads active.manager, active.engine
  {
    && active.generation == snap.generation && DescribedBy(active, snap.config)
    && snap.manager < |w.managers|
    && active.manager.policy == w.managers[snap.manager].policy
    && active.manager.Value() == w.managers[snap.manager].tables
    && (active.engine == null <==> snap.engine.None?)
    && (active.engine != null ==> EngineIs(active.engine, w, snap.engine.value))
  }

  ghost predicate EngineIs(engine: LruCacheEngine, w: World, e: nat)
    reads engine
  {
    e < |w.engines| && engine.Valid() && engine.limits == w.engines[e].limits && engine.Value() == w.engines[e].state
  }

  // ---- startup and reload ----

  /** Two snapshots in use share the manager, and share an engine exactly when they are said to. */
  ghost predicate Aligned(active: ActiveConfig, snap: Snapshot, other: ActiveConfig, held: Snapshot) {
    && other.manager == active.manager && held.manager == snap.manager
    && (other.engine != null && active.engine != null ==>
          (other.engine == active.engine <==> held.engine == snap.engine))
  }

  /** Startup builds the object of the machine's first snapshot. */
  method StartRefines(config: ProxyConfig, loads: set<Tls.KeyPair>) returns (r: Result<ActiveConfig, string>)
    ensures r.Ok? <==> Tls.Builds(config.routes, loads)
    ensures r.Ok? ==> Represents(r.value, Start(config), Start(config).published)
  {
    r := BuildActiveConfig(config, 0, null, loads);
  }

  /** The reload thread stands where the machine's writer stands. */
  ghost predicate ThreadIs(thread: ReloadThread, startup: ProxyConfig, w: World)
    reads thread, thread.store, thread.store.current.manager, thread.store.current.engine
  {
    && thread.expectedListenPort == startup.listenPort && thread.expectedWorkers == startup.workers
    && thread.generation == w.generation && Represents(thread.store.current, w, w.published)
  }

  /** One round of the reload loop is one reload event, and leaves every snapshot a reader holds as it was, aligned with
      the published one. */
  method ReloadRefines(thread: ReloadThread, signal: Signal, reader: ActiveConfig,
                       ghost startup: ProxyConfig, ghost w: World, ghost held: Snapshot)
    requires ThreadIs(thread, startup, w) && Represents(reader, w, held)
    requires Aligned(thread.store.current, w.published, reader, held)
    modifies thread, thread.store
    ensures ThreadIs(thread, startup, ReloadStep(startup, w, signal))
    ensures Represents(reader, ReloadStep(startup, w, signal), held)
    ensures Aligned(thread.store.current, ReloadStep(startup, w, signal).published, reader, held)
  {
    hide LimitsOf;
    NewEnginesAre(startup, w, signal);
    hide NewEngines;
    thread.Reload(signal);
  }

  lemma NewEnginesAre(startup: ProxyConfig, w: World, signal: Signal)
    ensures var w' := ReloadStep(startup, w, signal);
      && |w.engines| <= |w'.engines| && w'.managers == w.managers
      && (forall e :: 0 <= e < |w.engines| ==> w'.engines[e] == w.engines[e])
      && (Accepts(startup.listenPort, startup.workers, signal) ==>
            && w'.published.manager == w.published.manager
            && (w'.published.engine.Some? <==> LimitsOf(signal.loaded.value.cache).Some?)
            && (w'.published.engine.Some? ==>
                  |w.engines| <= w'.published.engine.value < |w'.engines| &&
                    w'.engines[w'.published.engine.value].state == EMPTY &&
                  Some(w'.engines[w'.published.engine.value].limits) == LimitsOf(signal.loaded.value.cache)))
  {
  }

  // ---- a request ----

  /** Only the cell of engine `e`, if there is one, may differ. */
  predicate OthersStay(w: World, w': World, e: Option<nat>) {
    && |w'.engines| == |w.engines|
    && forall k: nat :: k < |w.engines| && Some(k) != e ==> w'.engines[k] == w.engines[k]
  }

  lemma LookUpElsewhere(startup: ProxyConfig, w: World, id: nat, now: int)
    requires id in w.tasks
    ensures OthersStay(w, Next(startup, w, Timed(now, LookUp(id))), w.tasks[id].snap.engine)
  {
    hide GetStep, TooLarge, MatchRoute, AfterMiss, KeyOf;
  }

  /** The world after the ban check, the limiter and the cache lookup of one request. */
  function AfterGates(startup: ProxyConfig, w: World, id: nat, banTime: int, rateTime: int): World {
    Next(startup, Next(startup, w, Timed(banTime, CheckBan(id))), Timed(rateTime, CheckRate(id)))
  }

  function AfterLookUp(startup: ProxyConfig, w: World, id: nat, banTime: int, rateTime: int, cacheTime: int): World {
    Next(startup, AfterGates(startup, w, id, banTime, rateTime), Timed(cacheTime, LookUp(id)))
  }

  lemma GateEvents(startup: ProxyConfig, w: World, id: nat, banTime: int, rateTime: int)
    requires HasTask(w, id, Loaded)
    ensures var w' := AfterGates(startup, w, id, banTime, rateTime);
      var m := w.tasks[id].snap.manager;
      var (tables, gate) := GateStep(w.managers[m].policy, w.managers[m].tables, w.tasks[id].ip, banTime, rateTime);
      && |w'.managers| == |w.managers| && w'.managers[m].tables == tables
      && w'.managers[m].policy == w.managers[m].policy
      && w'.engines == w.engines && id in w'.tasks
      && w'.tasks[id] == w.tasks[id].(phase := if gate == Admitted then Allowed else Finished)
  {
    hide Step;
  }

  lemma LookUpEvent(startup: ProxyConfig, w: World, id: nat, now: int)
    requires HasTask(w, id, Allowed)
    requires w.tasks[id].snap.engine.Some? ==> w.tasks[id].snap.engine.value < |w.engines|
    ensures var w', t := Next(startup, w, Timed(now, LookUp(id))), w.tasks[id];
      && w'.managers == w.managers && |w'.engines| == |w.engines| && id in w'.tasks && w'.tasks[id].snap == t.snap
      && (LookUpStep(w, id, now).1.Some? ==> w'.tasks[id].phase == Finished)
      && (TooLarge(t.snap.config.security, t.req) ==>
            w'.tasks[id].phase == Finished && w'.engines == w.engines && LookUpStep(w, id, now).1.None?)
      && (!TooLarge(t.snap.config.security, t.req) && LookUpStep(w, id, now).1.None? ==>
            w'.tasks[id].phase == AfterMiss(t))
      && (!TooLarge(t.snap.config.security, t.req) && EngineFor(t).None? ==>
            w'.engines == w.engines && LookUpStep(w, id, now).1.None?)
      && (!TooLarge(t.snap.config.security, t.req) && EngineFor(t).Some? ==>
            var e := t.snap.engine.value;
            var (state, found) := GetStep(w.engines[e].state, KeyOf(t.req), now);
            LookUpStep(w, id, now).1 == found && w'.engines[e].state == state &&
              w'.engines[e].limits == w.engines[e].limits)
  {
    hide GetStep, TooLarge, UsesCache, AfterMiss, KeyOf;
  }

  /** Handling a request on the heap is its three events: manager and engine end in the machine's state, every other
      snapshot in use still stands for its own, the request goes upstream exactly when its task waits for the upstream,
      and a hit is the machine's hit. */
  method HandleRequestRefines(active: ActiveConfig, req: HttpRequest, ip: IpAddr, banTime: int, rateTime: int,
                              cacheTime: int,
                              ghost startup: ProxyConfig, ghost w: World, ghost id: nat,
                              ghost other: ActiveConfig, ghost held: Snapshot)
    returns (out: Outcome)
    requires HasTask(w, id, Loaded) && w.tasks[id].req == req && w.tasks[id].ip == ip
    requires Represents(active, w, w.tasks[id].snap)
    requires Represents(other, w, held) && Aligned(active, w.tasks[id].snap, other, held)
    modifies active.manager, active.engine
    ensures var w' := AfterLookUp(startup, w, id, banTime, rateTime, cacheTime);
      && Represents(active, w', w.tasks[id].snap) && Represents(other, w', held) && id in w'.tasks
      && (out.Forward? <==> w'.tasks[id].phase.Missed?) && (!out.Forward? <==> w'.tasks[id].phase == Finished)
    ensures var gated := AfterGates(startup, w, id, banTime, rateTime);
      && (out.Hit? <==> HasTask(gated, id, Allowed) && LookUpStep(gated, id, cacheTime).1.Some?)
      && (out.Hit? ==> out.resp == HitResponse(LookUpStep(gated, id, cacheTime).1.value))
  {
    ghost var gated := AfterGates(startup, w, id, banTime, rateTime);
    GateEvents(startup, w, id, banTime, rateTime);
    if HasTask(gated, id, Allowed) {
      LookUpEvent(startup, gated, id, cacheTime);
      LookUpElsewhere(startup, gated, id, cacheTime);
    } else {
      NotAllowed(startup, gated, id, cacheTime);
    }
    hide AfterGates, Next, LookUpStep, GetStep, GateStep, MatchRoute, TooLarge, UsesCache, DescribedBy, HitResponse;
    SameConfig(active, w.tasks[id].snap);
    out := HandleRequest(active, req, ip, banTime, rateTime, cacheTime);
  }

  lemma SameConfig(active: ActiveConfig, snap: Snapshot)
    requires DescribedBy(active, snap.config)
    ensures active.routes == snap.config.routes && active.security == snap.config.security
  {
  }

  lemma NotAllowed(startup: ProxyConfig, w: World, id: nat, now: int)
    requires !HasTask(w, id, Allowed)
    ensures Next(startup, w, Timed(now, LookUp(id))) == w
  {
  }

  // ---- a response ----

  /** The world after the arrival of a response and its store; the asset's creation time was read in between. */
  function AfterStore(startup: ProxyConfig, w: World, id: nat, resp: HttpResponse, arrival: int, created: int,
                      stored: int): World
  {
    Next(startup, Next(startup, w, Timed(arrival, Respond(id, resp))), Timed(stored, Store(id, created)))
  }

  lemma ResponseEvents(startup: ProxyConfig, w: World, id: nat, resp: HttpResponse, arrival: int, created: int,
                       stored: int)
    requires id in w.tasks && w.tasks[id].phase == Missed(EngineFor(w.tasks[id]), true)
    requires w.tasks[id].snap.engine.Some? ==> w.tasks[id].snap.engine.value < |w.engines|
    requires created <= stored
    ensures var t := w.tasks[id];
      var w' := AfterStore(startup, w, id, resp, arrival, created, stored);
      && OthersStay(w, w', t.snap.engine)
      && w'.managers == w.managers && |w'.engines| == |w.engines| && id in w'.tasks
      && w'.tasks[id] == t.(phase := Finished)
      && (t.snap.engine.Some? ==>
            var cell, cell' := w.engines[t.snap.engine.value], w'.engines[t.snap.engine.value];
            cell'.limits == cell.limits &&
            cell'.state == AfterResponse(cell.limits, cell.state, t.snap.config.routes, t.req, resp, created))
  {
    hide InsertStep, UsesCache, Storable, NewAsset;
  }

  /** The store decision on the heap is the arrival of the response followed by its store, and every other snapshot in
      use still stands for its own. */
  method StoreResponseRefines(active: ActiveConfig, req: HttpRequest, resp: HttpResponse, created: int,
                              ghost startup: ProxyConfig, ghost w: World, ghost id: nat, ghost arrival: int,
                              ghost stored: int,
                              ghost other: ActiveConfig, ghost held: Snapshot)
    requires id in w.tasks && w.tasks[id].phase == Missed(EngineFor(w.tasks[id]), true) && w.tasks[id].req == req
    requires Represents(active, w, w.tasks[id].snap) && created <= stored
    requires Represents(other, w, held) && Aligned(active, w.tasks[id].snap, other, held)
    modifies active.engine
    ensures var w' := AfterStore(startup, w, id, resp, arrival, created, stored);
      && Represents(active, w', w.tasks[id].snap) && Represents(other, w', held)
      && id in w'.tasks && w'.tasks[id].phase == Finished
  {
    ResponseEvents(startup, w, id, resp, arrival, created, stored);
    SameConfig(active, w.tasks[id].snap);
    hide AfterStore, AfterResponse, DescribedBy, EngineFor;
    StoreResponse(active, req, resp, created);
  }
}
