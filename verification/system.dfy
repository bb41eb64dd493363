/** The whole proxy as a state machine: one reload writer, any number of requests in flight on the snapshots they
    loaded, one shared security manager, one cache engine per snapshot. Every step is one locked access to shared
    state, so a trace is any interleaving of the worker threads and the reload thread. */
module System {
  import opened Basics
  import opened Net
  import opened Cache
  import CacheRuns
  import opened Security
  import opened Config
  import opened Router
  import opened Proxy
  import opened Runtime

  datatype Snapshot = Snapshot(generation: nat, config: ProxyConfig, manager: nat, engine: Option<nat>)

  /** Shared objects with the calls made on them so far. */
  datatype ManagerCell = ManagerCell(policy: Policy, tables: Tables, log: seq<Call>)

  datatype EngineCell = EngineCell(owner: Snapshot, limits: Limits, state: State, log: seq<CacheRuns.Op>)

  /** Where a connection or a request is: after loading its snapshot, after the ban check, after the limiter, after a
      cache miss (with the engine it may store into, and whether it may go upstream), with a response to store, or
      answered. */
  datatype Phase =
    | Loaded
    | NotBanned
    | Allowed
    | Missed(engine: Option<nat>, authorized: bool)
    | Storing(target: nat, resp: HttpResponse)
    | Finished

  datatype Task = Task(snap: Snapshot, req: HttpRequest, ip: IpAddr, phase: Phase)

  datatype World = World(
    published: Snapshot, generation: nat, managers: seq<ManagerCell>, engines: seq<EngineCell>, tasks: map<nat, Task>)

  /** `CheckPeer` is the accept loop's ban check of a connection, by its peer's or its resolved address; `TlsFailed`
      its failed handshake. `CheckBan` and `CheckRate` are the gates of a request, `Authorize` the authentication
      provider's verdict on it. */
  datatype Event =
    | Reload(signal: Signal)
    | Begin(id: nat, req: HttpRequest, ip: IpAddr)
    | CheckPeer(id: nat, peer: IpAddr)
    | TlsFailed(id: nat)
    | CheckBan(id: nat)
    | CheckRate(id: nat)
    | LookUp(id: nat)
    | Authorize(id: nat, granted: bool)
    | Respond(id: nat, resp: HttpResponse)
    | Store(id: nat, created: int)

  datatype Timed = Timed(now: int, event: Event)

  // ---- steps ----

  /** `Server::new`: generation zero, a manager of its own. */
  function Start(config: ProxyConfig): World {
    var engine := if LimitsOf(config.cache).Some? then Some(0) else None;
    var snap := Snapshot(0, config, 0, engine);
    World(snap, 0, [ManagerCell(PolicyOf(config.security), NO_TABLES, [])], NewEngines(snap), map[])
  }

  function NewEngines(snap: Snapshot): seq<EngineCell> {
    match LimitsOf(snap.config.cache)
    case Some(limits) => [EngineCell(snap, limits, EMPTY, [])]
    case None => []
  }

  function ReloadStep(startup: ProxyConfig, w: World, signal: Signal): World {
    if !Accepts(startup.listenPort, startup.workers, signal) then w
    else
      var config := signal.loaded.value;
      var engine := if LimitsOf(config.cache).Some? then Some(|w.engines|) else None;
      var snap := Snapshot(w.generation + 1, config, w.published.manager, engine);
      w.(published := snap, generation := snap.generation, engines := w.engines + NewEngines(snap))
  }

  /** One call on the manager a snapshot points to. */
  function CallManager(w: World, m: nat, c: Call): (World, Answer)
    requires m < |w.managers|
  {
    var cell := w.managers[m];
    var (tables, answer) := Step(cell.policy, cell.tables, c);
    (w.(managers := w.managers[m := ManagerCell(cell.policy, tables, cell.log + [c])]), answer)
  }

  function SetPhase(w: World, id: nat, phase: Phase): World
    requires id in w.tasks
  {
    w.(tasks := w.tasks[id := w.tasks[id].(phase := phase)])
  }

  /** The engine a request may use. */
  function EngineFor(t: Task): Option<nat> {
    if UsesCache(t.snap.config.routes, t.req) then t.snap.engine else None
  }

  function KeyOf(req: HttpRequest): string {
    CacheKey(req.host, req.pathAndQuery)
  }

  function LookUpStep(w: World, id: nat, now: int): (World, Option<Asset>)
    requires id in w.tasks
  {
    var t := w.tasks[id];
    if TooLarge(t.snap.config.security, t.req) then (SetPhase(w, id, Finished), None)
    else
      match EngineFor(t)
      case None => (SetPhase(w, id, AfterMiss(t)), None)
      case Some(e) =>
        if e >= |w.engines| then (w, None)
        else
          var cell := w.engines[e];
          var (state, found) := GetStep(cell.state, KeyOf(t.req), now);
          var cell' := cell.(state := state, log := cell.log + [CacheRuns.Get(KeyOf(t.req), now)]);
          (SetPhase(w.(engines := w.engines[e := cell']), id, if found.Some? then Finished else AfterMiss(t)), found)
  }

  function RouteOf(t: Task): Option<MatchedRoute> {
    MatchRoute(t.snap.config.routes, t.req.host, PathOf(t.req.pathAndQuery))
  }

  /** Without a route the request is answered at once, else it goes upstream, after authentication if the route asks. */
  function AfterMiss(t: Task): Phase {
    match RouteOf(t)
    case None => Finished
    case Some(route) => Missed(EngineFor(t), !route.authRequired)
  }

  /** The authentication step of a route with `auth on`: it needs a provider and its grant, else the request is
      answered. */
  function AuthorizeStep(w: World, id: nat, granted: bool): World
    requires id in w.tasks && w.tasks[id].phase.Missed?
  {
    var t := w.tasks[id];
    if granted && ForwardAuth(t.snap.config.security).Some? then SetPhase(w, id, t.phase.(authorized := true))
    else SetPhase(w, id, Finished)
  }

  function RespondStep(w: World, id: nat, resp: HttpResponse): World
    requires id in w.tasks && w.tasks[id].phase.Missed?
  {
    var engine := w.tasks[id].phase.engine;
    if engine.Some? && engine.value < |w.engines|
       && Storable(w.engines[engine.value].limits, w.tasks[id].req, resp) then
      SetPhase(w, id, Storing(engine.value, resp))
    else SetPhase(w, id, Finished)
  }

  /** The asset's creation time is read before the engine is locked. */
  function StoreEvent(w: World, id: nat, created: int): World
    requires id in w.tasks && w.tasks[id].phase.Storing? && w.tasks[id].phase.target < |w.engines|
  {
    var t := w.tasks[id];
    var cell := w.engines[t.phase.target];
    var resp := t.phase.resp;
    var asset := NewAsset(cell.limits, resp.status, resp.headers, resp.body, None, created);
    var cell' := cell.(
      state := InsertStep(cell.limits, cell.state, KeyOf(t.req), asset).0,
      log := cell.log + [CacheRuns.Insert(KeyOf(t.req), asset)]);
    SetPhase(w.(engines := w.engines[t.phase.target := cell']), id, Finished)
  }

  predicate HasTask(w: World, id: nat, phase: Phase) {
    id in w.tasks && w.tasks[id].phase == phase && w.tasks[id].snap.manager < |w.managers|
  }

  /** One event; an event that is not enabled changes nothing. */
  function Next(startup: ProxyConfig, w: World, e: Timed): World {
    match e.event
    case Reload(signal) => ReloadStep(startup, w, signal)
    case Begin(id, req, ip) =>
      if id in w.tasks then w else w.(tasks := w.tasks[id := Task(w.published, req, ip, Loaded)])
    case CheckPeer(id, peer) =>
      if !HasTask(w, id, Loaded) then w
      else
        var (w', answer) := CallManager(w, w.tasks[id].snap.manager, IsBlacklisted(peer, e.now));
        if answer == Flag(true) then SetPhase(w', id, Finished) else w'
    case TlsFailed(id) =>
      if !HasTask(w, id, Loaded) then w
      else SetPhase(CallManager(w, w.tasks[id].snap.manager, TlsFailure(w.tasks[id].ip, e.now)).0, id, Finished)
    case CheckBan(id) =>
      if !HasTask(w, id, Loaded) then w
      else
        var (w', answer) := CallManager(w, w.tasks[id].snap.manager, IsBlacklisted(w.tasks[id].ip, e.now));
        SetPhase(w', id, if answer == Flag(true) then Finished else NotBanned)
    case CheckRate(id) =>
      if !HasTask(w, id, NotBanned) then w
      else
        var (w', answer) := CallManager(w, w.tasks[id].snap.manager, Call.Request(w.tasks[id].ip, e.now));
        SetPhase(w', id, if answer.Refused? then Finished else Allowed)
    case LookUp(id) => if HasTask(w, id, Allowed) then LookUpStep(w, id, e.now).0 else w
    case Authorize(id, granted) =>
      if id in w.tasks && w.tasks[id].phase.Missed? && !w.tasks[id].phase.authorized then AuthorizeStep(w, id, granted)
      else w
    case Respond(id, resp) =>
      if id in w.tasks && w.tasks[id].phase.Missed? && w.tasks[id].phase.authorized then RespondStep(w, id, resp) else w
    case Store(id, created) =>
      if id in w.tasks && w.tasks[id].phase.Storing? && w.tasks[id].phase.target < |w.engines| && created <= e.now then
        StoreEvent(w, id, created)
      else w
  }

  function Run(startup: ProxyConfig, trace: seq<Timed>): World {
    if trace == [] then Start(startup)
    else Next(startup, Run(startup, trace[..|trace| - 1]), trace[|trace| - 1])
  }

  predicate Clocked(trace: seq<Timed>) {
    forall i, j :: 0 <= i < j < |trace| ==> trace[i].now <= trace[j].now
  }

  predicate NotAfter(trace: seq<Timed>, now: int) {
    forall i :: 0 <= i < |trace| ==> trace[i].now <= now
  }
}
