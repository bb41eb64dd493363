/** What holds in every interleaving of requests and reloads. */
module SystemRuns {
  import opened Basics
  import opened Net
  import opened Cache
  import CacheRuns
  import opened Security
  import SecurityRuns
  import opened Config
  import opened Router
  import opened Proxy
  import opened Runtime
  import opened System
  import Parser
  import ParserImage
  import ParserText

  // ---- snapshots, generations and the one manager ----

  function AcceptedReloads(startup: ProxyConfig, trace: seq<Timed>): nat {
    if trace == [] then 0
    else
      var e := trace[|trace| - 1].event;
      AcceptedReloads(startup, trace[..|trace| - 1]) +
        (if e.Reload? && Accepts(startup.listenPort, startup.workers, e.signal) then 1 else 0)
  }

  /** A snapshot in use: fully built, from a file with the startup port and worker count, with the startup manager
      and, if it caches, an engine that belongs to it alone. */
  predicate SnapOk(startup: ProxyConfig, w: World, s: Snapshot) {
    && s.manager == 0
    && s.generation <= w.generation
    && s.config.listenPort == startup.listenPort && s.config.workers == startup.workers
    && (s.engine.Some? <==> LimitsOf(s.config.cache).Some?)
    && (s.engine.Some? ==>
          s.engine.value < |w.engines| && w.engines[s.engine.value].owner == s &&
          Some(w.engines[s.engine.value].limits) == LimitsOf(s.config.cache))
  }

  predicate SharedOk(startup: ProxyConfig, w: World) {
    && |w.managers| == 1 && w.managers[0].policy == PolicyOf(startup.security)
    && w.published.generation == w.generation && SnapOk(startup, w, w.published)
    && (forall id :: id in w.tasks ==> SnapOk(startup, w, w.tasks[id].snap))
    && (forall e :: 0 <= e < |w.engines| ==> w.engines[e].limits.maxEntries > 0)
  }

  /** Engines are only added, and keep their owner and limits. */
  predicate Extends(w: World, w': World) {
    && w.generation <= w'.generation
    && |w.engines| <= |w'.engines|
    && forall e :: 0 <= e < |w.engines| ==>
         w'.engines[e].owner == w.engines[e].owner && w'.engines[e].limits == w.engines[e].limits
  }

  lemma SnapStaysOk(startup: ProxyConfig, w: World, w': World, s: Snapshot)
    requires Extends(w, w') && SnapOk(startup, w, s)
    ensures SnapOk(startup, w', s)
  {
    hide LimitsOf;
  }

  /** Nothing changes but the phases of tasks and the contents of the shared objects. */
  predicate Frame(w: World, w': World) {
    && w'.published == w.published && w'.generation == w.generation
    && |w'.engines| == |w.engines| && Extends(w, w')
    && |w'.managers| == |w.managers|
    && (forall m :: 0 <= m < |w.managers| ==> w'.managers[m].policy == w.managers[m].policy)
    && w'.tasks.Keys == w.tasks.Keys
    && (forall id :: id in w.tasks ==> w'.tasks[id].(phase := w.tasks[id].phase) == w.tasks[id])
  }

  lemma PhaseFrame(w: World, v: World, id: nat, phase: Phase)
    requires Frame(w, v) && id in v.tasks
    ensures Frame(w, SetPhase(v, id, phase))
  {
  }

  lemma CallFrame(w: World, m: nat, c: Call)
    requires m < |w.managers|
    ensures Frame(w, CallManager(w, m, c).0)
  {
    hide Step;
  }

  lemma EngineFrame(w: World, e: nat, cell: EngineCell)
    requires e < |w.engines| && cell.owner == w.engines[e].owner && cell.limits == w.engines[e].limits
    ensures Frame(w, w.(engines := w.engines[e := cell]))
  {
  }

  lemma FrameRefl(w: World)
    ensures Frame(w, w)
  {
  }

  lemma LookUpFrame(w: World, id: nat, now: int)
    requires id in w.tasks
    ensures Frame(w, LookUpStep(w, id, now).0)
  {
    hide GetStep, UsesCache, TooLarge, AfterMiss, KeyOf, SetPhase, Frame;
    var t := w.tasks[id];
    FrameRefl(w);
    if TooLarge(t.snap.config.security, t.req) {
      PhaseFrame(w, w, id, Finished);
    } else if EngineFor(t).None? {
      PhaseFrame(w, w, id, AfterMiss(t));
    } else if EngineFor(t).value < |w.engines| {
      var e := EngineFor(t).value;
      var cell := w.engines[e];
      var (state, found) := GetStep(cell.state, KeyOf(t.req), now);
      var cell' := cell.(state := state, log := cell.log + [CacheRuns.Get(KeyOf(t.req), now)]);
      EngineFrame(w, e, cell');
      PhaseFrame(w, w.(engines := w.engines[e := cell']), id, if found.Some? then Finished else AfterMiss(t));
    }
  }

  lemma StoreFrame(w: World, id: nat, created: int)
    requires id in w.tasks && w.tasks[id].phase.Storing? && w.tasks[id].phase.target < |w.engines|
    ensures Frame(w, StoreEvent(w, id, created))
  {
    hide InsertStep, NewAsset, KeyOf, SetPhase, Frame;
    var t := w.tasks[id];
    var cell := w.engines[t.phase.target];
    var resp := t.phase.resp;
    var asset := NewAsset(cell.limits, resp.status, resp.headers, resp.body, None, created);
    var cell' := cell.(
      state := InsertStep(cell.limits, cell.state, KeyOf(t.req), asset).0,
      log := cell.log + [CacheRuns.Insert(KeyOf(t.req), asset)]);
    EngineFrame(w, t.phase.target, cell');
    PhaseFrame(w, w.(engines := w.engines[t.phase.target := cell']), id, Finished);
  }

  /** Every step but a reload and a new request keeps the frame. */
  lemma StepFrame(startup: ProxyConfig, w: World, e: Timed)
    requires !e.event.Reload? && !e.event.Begin?
    ensures Frame(w, Next(startup, w, e))
  {
    hide Step, GetStep, InsertStep, NewAsset, UsesCache, TooLarge, Storable, AfterMiss, KeyOf, SetPhase, CallManager,
      LookUpStep, StoreEvent, Frame;
    FrameRefl(w);
    match e.event
    case CheckPeer(id, peer) =>
      if HasTask(w, id, Loaded) {
        var c := IsBlacklisted(peer, e.now);
        CallFrame(w, w.tasks[id].snap.manager, c);
        SameTasks(w, w.tasks[id].snap.manager, c);
        PhaseFrame(w, CallManager(w, w.tasks[id].snap.manager, c).0, id, Finished);
      }
    case TlsFailed(id) =>
      if HasTask(w, id, Loaded) {
        var c := TlsFailure(w.tasks[id].ip, e.now);
        CallFrame(w, w.tasks[id].snap.manager, c);
        SameTasks(w, w.tasks[id].snap.manager, c);
        PhaseFrame(w, CallManager(w, w.tasks[id].snap.manager, c).0, id, Finished);
      }
    case CheckBan(id) =>
      if HasTask(w, id, Loaded) {
        var c := IsBlacklisted(w.tasks[id].ip, e.now);
        CallFrame(w, w.tasks[id].snap.manager, c);
        SameTasks(w, w.tasks[id].snap.manager, c);
        var (w', answer) := CallManager(w, w.tasks[id].snap.manager, c);
        PhaseFrame(w, w', id, if answer == Flag(true) then Finished else NotBanned);
      }
    case CheckRate(id) =>
      if HasTask(w, id, NotBanned) {
        var c := Call.Request(w.tasks[id].ip, e.now);
        CallFrame(w, w.tasks[id].snap.manager, c);
        SameTasks(w, w.tasks[id].snap.manager, c);
        var (w', answer) := CallManager(w, w.tasks[id].snap.manager, c);
        PhaseFrame(w, w', id, if answer.Refused? then Finished else Allowed);
      }
    case LookUp(id) =>
      if HasTask(w, id, Allowed) {
        LookUpFrame(w, id, e.now);
      }
    case Authorize(id, granted) =>
      if id in w.tasks && w.tasks[id].phase.Missed? {
        AuthorizeFrame(w, id, granted);
      }
    case Respond(id, resp) =>
      if id in w.tasks && w.tasks[id].phase.Missed? {
        RespondFrame(w, id, resp);
      }
    case Store(id, created) =>
      if id in w.tasks && w.tasks[id].phase.Storing? && w.tasks[id].phase.target < |w.engines| {
        StoreFrame(w, id, created);
      }
  }

  lemma SameTasks(w: World, m: nat, c: Call)
    requires m < |w.managers|
    ensures CallManager(w, m, c).0.tasks == w.tasks
  {
    hide Step;
  }

  lemma AuthorizeFrame(w: World, id: nat, granted: bool)
    requires id in w.tasks && w.tasks[id].phase.Missed?
    ensures Frame(w, AuthorizeStep(w, id, granted))
  {
  }

  lemma RespondFrame(w: World, id: nat, resp: HttpResponse)
    requires id in w.tasks && w.tasks[id].phase.Missed?
    ensures Frame(w, RespondStep(w, id, resp))
  {
    hide Storable;
  }

  lemma ReloadKeepsShared(startup: ProxyConfig, w: World, signal: Signal)
    requires SharedOk(startup, w)
    ensures SharedOk(startup, ReloadStep(startup, w, signal))
  {
    var w' := ReloadStep(startup, w, signal);
    if Accepts(startup.listenPort, startup.workers, signal) {
      NewEngineLimits(w'.published);
      hide LimitsOf, NewEngines;
      assert Extends(w, w');
      forall id | id in w'.tasks ensures SnapOk(startup, w', w'.tasks[id].snap) {
        SnapStaysOk(startup, w, w', w.tasks[id].snap);
      }
    }
  }

  lemma NewEngineLimits(snap: Snapshot)
    ensures |NewEngines(snap)| == if LimitsOf(snap.config.cache).Some? then 1 else 0
    ensures LimitsOf(snap.config.cache).Some? ==> NewEngines(snap)[0].owner == snap
    ensures LimitsOf(snap.config.cache).Some? ==> Some(NewEngines(snap)[0].limits) == LimitsOf(snap.config.cache)
    ensures LimitsOf(snap.config.cache).Some? ==> NewEngines(snap)[0].limits.maxEntries > 0
  {
  }

  lemma FrameKeepsShared(startup: ProxyConfig, w: World, w': World)
    requires SharedOk(startup, w) && Frame(w, w')
    ensures SharedOk(startup, w')
  {
    hide SnapOk;
    SnapStaysOk(startup, w, w', w.published);
    forall id | id in w'.tasks ensures SnapOk(startup, w', w'.tasks[id].snap) {
      assert id in w.tasks && w'.tasks[id].snap == w.tasks[id].snap;
      SnapStaysOk(startup, w, w', w.tasks[id].snap);
    }
  }

  lemma NextKeepsShared(startup: ProxyConfig, w: World, e: Timed)
    requires SharedOk(startup, w)
    ensures SharedOk(startup, Next(startup, w, e))
  {
    if e.event.Reload? {
      ReloadKeepsShared(startup, w, e.event.signal);
    } else if !e.event.Begin? {
      hide Frame, SharedOk, Next;
      StepFrame(startup, w, e);
      FrameKeepsShared(startup, w, Next(startup, w, e));
    } else {
      hide LimitsOf;
    }
  }

  lemma {:induction false} SharedInvariant(startup: ProxyConfig, trace: seq<Timed>)
    ensures SharedOk(startup, Run(startup, trace))
  {
    if trace == [] {
      NewEngineLimits(Start(startup).published);
    } else {
      hide SharedOk, Next;
      SharedInvariant(startup, trace[..|trace| - 1]);
      NextKeepsShared(startup, Run(startup, trace[..|trace| - 1]), trace[|trace| - 1]);
    }
  }

  lemma NextGeneration(startup: ProxyConfig, w: World, e: Timed)
    ensures Next(startup, w, e).generation ==
      w.generation + (if e.event.Reload? && Accepts(startup.listenPort, startup.workers, e.event.signal) then 1 else 0)
    ensures !e.event.Reload? ==> Next(startup, w, e).published == w.published
  {
    if !e.event.Reload? && !e.event.Begin? {
      hide Next;
      StepFrame(startup, w, e);
    }
  }

  /** In every run the live generation is the number of accepted reloads, and every snapshot in use was built whole
      from a file with the startup port and worker count. */
  lemma {:induction false} ReloadInvariant(startup: ProxyConfig, trace: seq<Timed>)
    ensures var w := Run(startup, trace);
      && w.generation == w.published.generation == AcceptedReloads(startup, trace)
      && SnapOk(startup, w, w.published)
      && forall id :: id in w.tasks ==> SnapOk(startup, w, w.tasks[id].snap)
  {
    hide SnapOk, Next;
    SharedInvariant(startup, trace);
    if trace != [] {
      ReloadInvariant(startup, trace[..|trace| - 1]);
      NextGeneration(startup, Run(startup, trace[..|trace| - 1]), trace[|trace| - 1]);
    }
  }

  // ---- which file a snapshot came from ----

  /** The startup configuration and those of the accepted reloads, in order. */
  function AcceptedConfigs(startup: ProxyConfig, trace: seq<Timed>): seq<ProxyConfig> {
    if trace == [] then [startup]
    else
      var e := trace[|trace| - 1].event;
      AcceptedConfigs(startup, trace[..|trace| - 1]) +
      (if e.Reload? && Accepts(startup.listenPort, startup.workers, e.signal) then [e.signal.loaded.value] else [])
  }

  /** The snapshots published so far, in order. */
  function History(startup: ProxyConfig, trace: seq<Timed>): seq<Snapshot> {
    if trace == [] then [Start(startup).published]
    else
      var e := trace[|trace| - 1].event;
      History(startup, trace[..|trace| - 1]) +
      (if e.Reload? && Accepts(startup.listenPort, startup.workers, e.signal) then [Run(startup, trace).published]
       else [])
  }

  /** A snapshot is the one published as generation `s.generation`. */
  predicate FromHistory(h: seq<Snapshot>, s: Snapshot) {
    s.generation < |h| && h[s.generation] == s
  }

  predicate HistoryOk(h: seq<Snapshot>, configs: seq<ProxyConfig>) {
    |h| == |configs| && forall g :: 0 <= g < |h| ==> h[g].generation == g && h[g].config == configs[g]
  }

  lemma PublishStep(startup: ProxyConfig, w: World, e: Timed)
    requires w.published.generation == w.generation
    ensures var w' := Next(startup, w, e);
      if e.event.Reload? && Accepts(startup.listenPort, startup.workers, e.event.signal) then
        w'.published.generation == w.generation + 1 && w'.published.config == e.event.signal.loaded.value &&
          w'.tasks == w.tasks
      else w'.published == w.published
  {
    if !e.event.Reload? && !e.event.Begin? {
      hide Next;
      StepFrame(startup, w, e);
    } else {
      hide LimitsOf, NewEngines;
    }
  }

  /** A task holds the snapshot that was published when it began. */
  lemma SnapStep(startup: ProxyConfig, w: World, e: Timed)
    ensures var w' := Next(startup, w, e);
      && (w'.published == w.published || (e.event.Reload? && e.event.signal.loaded == Ok(w'.published.config)))
      && forall id :: id in w'.tasks ==>
           w'.tasks[id].snap == w.published || (id in w.tasks && w'.tasks[id].snap == w.tasks[id].snap)
  {
    if !e.event.Reload? && !e.event.Begin? {
      hide Next;
      StepFrame(startup, w, e);
    }
  }

  /** In every interleaving the snapshot of generation g, published or held by a request, is the one built from the
      configuration of the g-th accepted reload, the startup's for g = 0; so equal generations are equal snapshots. */
  lemma {:induction false} SnapshotsAreHistory(startup: ProxyConfig, trace: seq<Timed>)
    ensures var w, h := Run(startup, trace), History(startup, trace);
      && |h| == w.generation + 1 && HistoryOk(h, AcceptedConfigs(startup, trace))
      && FromHistory(h, w.published) && w.published.generation == w.generation
      && forall id :: id in w.tasks ==> FromHistory(h, w.tasks[id].snap)
    ensures var w := Run(startup, trace);
      forall id, id' ::
        id in w.tasks && id' in w.tasks && w.tasks[id].snap.generation == w.tasks[id'].snap.generation ==>
        w.tasks[id].snap == w.tasks[id'].snap
  {
    hide Next, Accepts;
    ReloadInvariant(startup, trace);
    if trace != [] {
      var before, e := trace[..|trace| - 1], trace[|trace| - 1];
      ReloadInvariant(startup, before);
      SnapshotsAreHistory(startup, before);
      PublishStep(startup, Run(startup, before), e);
      SnapStep(startup, Run(startup, before), e);
    }
  }

  /** An accepted reload starts with an empty cache of its own: no entry survives it. */
  lemma ReloadEmptiesCache(startup: ProxyConfig, w: World, now: int, signal: Signal)
    requires Accepts(startup.listenPort, startup.workers, signal)
    ensures var w' := Next(startup, w, Timed(now, Reload(signal)));
      w'.published.engine.Some? ==>
        w'.published.engine.value == |w.engines| < |w'.engines| && w'.engines[|w.engines|].state == EMPTY
  {
    hide LimitsOf;
  }

  /** A reader that loads later never sees an older generation. */
  lemma {:induction false} GenerationsGrow(startup: ProxyConfig, trace: seq<Timed>, i: nat)
    requires i <= |trace|
    ensures Run(startup, trace[..i]).published.generation <= Run(startup, trace).published.generation
  {
    hide Next, SnapOk;
    if i == |trace| {
      assert trace[..i] == trace;
    } else {
      var before := trace[..|trace| - 1];
      assert before[..i] == trace[..i];
      GenerationsGrow(startup, before, i);
      ReloadInvariant(startup, before);
      ReloadInvariant(startup, trace);
    }
  }

  // ---- the limiter across workers and reloads ----

  /** The call an event makes on the manager, if it is enabled. */
  function CallOf(w: World, e: Timed): Option<Call> {
    match e.event
    case CheckPeer(id, peer) => if HasTask(w, id, Loaded) then Some(IsBlacklisted(peer, e.now)) else None
    case TlsFailed(id) => if HasTask(w, id, Loaded) then Some(TlsFailure(w.tasks[id].ip, e.now)) else None
    case CheckBan(id) => if HasTask(w, id, Loaded) then Some(IsBlacklisted(w.tasks[id].ip, e.now)) else None
    case CheckRate(id) => if HasTask(w, id, NotBanned) then Some(Call.Request(w.tasks[id].ip, e.now)) else None
    case _ => None
  }

  /** An event leaves the manager alone or makes exactly its call. */
  lemma ManagerStep(startup: ProxyConfig, w: World, e: Timed)
    requires SharedOk(startup, w)
    ensures var cell, cell' := w.managers[0], Next(startup, w, e).managers[0];
      match CallOf(w, e)
      case None => cell' == cell
      case Some(c) => cell' == ManagerCell(cell.policy, Step(cell.policy, cell.tables, c).0, cell.log + [c])
  {
    hide Step, GetStep, InsertStep, NewAsset, UsesCache, TooLarge, Storable, AfterMiss, KeyOf, LimitsOf, NewEngines;
    assert CallOf(w, e).Some? ==> SnapOk(startup, w, w.tasks[e.event.id].snap);
  }

  predicate LogOk(cell: ManagerCell, now: int) {
    && cell.tables == SecurityRuns.Run(cell.policy, cell.log)
    && SecurityRuns.Clocked(cell.log) && SecurityRuns.NotAfter(cell.log, now)
  }

  lemma LogExtends(cell: ManagerCell, c: Call, now: int)
    requires LogOk(cell, now) && now <= c.now
    ensures LogOk(ManagerCell(cell.policy, Step(cell.policy, cell.tables, c).0, cell.log + [c]), c.now)
  {
    hide Step;
    var log := cell.log + [c];
    assert log[..|log| - 1] == cell.log;
  }

  /** The one manager's tables are those of its call log, under a clock that never goes back. */
  lemma {:induction false} ManagerRuns(startup: ProxyConfig, trace: seq<Timed>, now: int)
    requires Clocked(trace) && NotAfter(trace, now)
    ensures |Run(startup, trace).managers| == 1 && LogOk(Run(startup, trace).managers[0], now)
  {
    hide Next, Step, CallOf, SharedOk;
    SharedOne(startup, trace);
    if trace != [] {
      var before, e := trace[..|trace| - 1], trace[|trace| - 1];
      SharedOne(startup, before);
      SharedInvariant(startup, before);
      ManagerRuns(startup, before, e.now);
      ManagerStep(startup, Run(startup, before), e);
      var cell := Run(startup, before).managers[0];
      if CallOf(Run(startup, before), e).Some? {
        CallTime(Run(startup, before), e);
        LogExtends(cell, CallOf(Run(startup, before), e).value, e.now);
      }
    }
  }

  lemma SharedOne(startup: ProxyConfig, trace: seq<Timed>)
    ensures |Run(startup, trace).managers| == 1 && Run(startup, trace).managers[0].policy == PolicyOf(startup.security)
  {
    SharedInvariant(startup, trace);
    hide Run;
  }

  lemma CallTime(w: World, e: Timed)
    ensures CallOf(w, e).Some? ==> CallOf(w, e).value.now == e.now
  {
  }

  /** At this event a request of `ip` gets through the limiter. */
  predicate Passes(startup: ProxyConfig, w: World, e: Timed, ip: IpAddr) {
    && e.event.CheckRate? && HasTask(w, e.event.id, NotBanned) && w.tasks[e.event.id].ip == ip
    && var w' := Next(startup, w, e); e.event.id in w'.tasks && w'.tasks[e.event.id].phase == Allowed
  }

  /** How many requests of `ip` get through the limiter between `lo` and `hi`. */
  function PassedIn(startup: ProxyConfig, trace: seq<Timed>, ip: IpAddr, lo: int, hi: int): nat {
    if trace == [] then 0
    else
      var e := trace[|trace| - 1];
      PassedIn(startup, trace[..|trace| - 1], ip, lo, hi) +
      (if lo <= e.now <= hi && Passes(startup, Run(startup, trace[..|trace| - 1]), e, ip) then 1 else 0)
  }

  lemma PassesIffAnswer(startup: ProxyConfig, w: World, e: Timed, ip: IpAddr)
    requires SharedOk(startup, w)
    ensures Passes(startup, w, e, ip) <==>
      && e.event.CheckRate? && CallOf(w, e) == Some(Call.Request(ip, e.now))
      && !Step(w.managers[0].policy, w.managers[0].tables, Call.Request(ip, e.now)).1.Refused?
  {
    hide Step;
    assert e.event.CheckRate? && HasTask(w, e.event.id, NotBanned) ==> SnapOk(startup, w, w.tasks[e.event.id].snap);
  }

  lemma PassedInExtend(policy: Policy, log: seq<Call>, c: Call, ip: IpAddr, lo: int, hi: int)
    ensures SecurityRuns.PassedIn(policy, log + [c], ip, lo, hi) ==
      SecurityRuns.PassedIn(policy, log, ip, lo, hi) +
      (if c == Call.Request(ip, c.now) && lo <= c.now <= hi
          && Step(policy, SecurityRuns.Run(policy, log), c).1.Passed? then 1
       else 0)
  {
    hide Step;
    var l := log + [c];
    assert l[..|l| - 1] == log && l[|l| - 1] == c;
  }

  lemma RequestAnswer(policy: Policy, t: Tables, ip: IpAddr, now: int)
    ensures var a := Step(policy, t, Call.Request(ip, now)).1; a.Passed? || a.Refused?
  {
  }

  lemma {:induction false} PassedMatchesLog(startup: ProxyConfig, trace: seq<Timed>, ip: IpAddr, lo: int, hi: int)
    requires Clocked(trace)
    ensures |Run(startup, trace).managers| == 1
    ensures PassedIn(startup, trace, ip, lo, hi) ==
      SecurityRuns.PassedIn(PolicyOf(startup.security), Run(startup, trace).managers[0].log, ip, lo, hi)
  {
    hide Next, Step, Passes, SharedOk, CallOf, PolicyOf;
    SharedOne(startup, trace);
    if trace != [] {
      var before, e := trace[..|trace| - 1], trace[|trace| - 1];
      var w := Run(startup, before);
      SharedOne(startup, before);
      SharedInvariant(startup, before);
      PassedMatchesLog(startup, before, ip, lo, hi);
      ManagerRuns(startup, before, e.now);
      PassedStep(startup, w, e, ip, lo, hi);
    }
  }

  lemma PassedStep(startup: ProxyConfig, w: World, e: Timed, ip: IpAddr, lo: int, hi: int)
    requires SharedOk(startup, w) && LogOk(w.managers[0], e.now)
    ensures |Next(startup, w, e).managers| == 1
    ensures var policy := PolicyOf(startup.security);
      SecurityRuns.PassedIn(policy, Next(startup, w, e).managers[0].log, ip, lo, hi) ==
      SecurityRuns.PassedIn(policy, w.managers[0].log, ip, lo, hi) +
        (if lo <= e.now <= hi && Passes(startup, w, e, ip) then 1 else 0)
  {
    ManagerStep(startup, w, e);
    NextKeepsShared(startup, w, e);
    PassesIffAnswer(startup, w, e, ip);
    CallTime(w, e);
    CallKind(w, e);
    hide Next, Step, Passes, CallOf, PolicyOf;
    var cell := w.managers[0];
    if CallOf(w, e).Some? {
      var c := CallOf(w, e).value;
      PassedInExtend(cell.policy, cell.log, c, ip, lo, hi);
      RequestAnswer(cell.policy, cell.tables, ip, e.now);
    }
  }

  lemma CallKind(w: World, e: Timed)
    ensures CallOf(w, e).Some? ==> (CallOf(w, e).value.Request? <==> e.event.CheckRate?)
  {
  }

  /** Whatever the workers and the reloads do, at most the startup limit of requests of one
      address get through in any closed minute. */
  lemma PolicyRateBound(startup: ProxyConfig, trace: seq<Timed>, ip: IpAddr, lo: int, hi: int)
    requires Clocked(trace) && PolicyOf(startup.security).rateLimitRpm != 0 && hi - lo <= ROLLING_WINDOW
    ensures PassedIn(startup, trace, ip, lo, hi) <= PolicyOf(startup.security).rateLimitRpm
  {
    hide Next, PolicyOf, PassedIn;
    PassedMatchesLog(startup, trace, ip, lo, hi);
    SharedOne(startup, trace);
    var now := if trace == [] then 0 else trace[|trace| - 1].now;
    ManagerRuns(startup, trace, now);
    SecurityRuns.RateBound(PolicyOf(startup.security), Run(startup, trace).managers[0].log, ip, lo, hi);
  }

  /** A request gets past the ban check exactly when no ban of its address in the whole history is in force, whichever
      snapshots the request and the failed handshakes used. */
  lemma PolicyBan(startup: ProxyConfig, trace: seq<Timed>, e: Timed)
    requires Clocked(trace) && NotAfter(trace, e.now)
    requires e.event.CheckBan? && HasTask(Run(startup, trace), e.event.id, Loaded)
    ensures var w := Run(startup, trace);
      var ip := w.tasks[e.event.id].ip;
      && |w.managers| == 1 && e.event.id in Next(startup, w, e).tasks
      && (Next(startup, w, e).tasks[e.event.id].phase == NotBanned <==>
            !SecurityRuns.BannedAt(PolicyOf(startup.security), w.managers[0].log, ip, e.now))
  {
    var w := Run(startup, trace);
    SharedInvariant(startup, trace);
    ManagerRuns(startup, trace, e.now);
    BanAnswer(w.managers[0], w.tasks[e.event.id].ip, e.now);
    hide Run, Step, SecurityRuns.BannedAt, PolicyOf;
    assert SnapOk(startup, w, w.tasks[e.event.id].snap);
  }

  lemma BanAnswer(cell: ManagerCell, ip: IpAddr, now: int)
    requires LogOk(cell, now)
    ensures Step(cell.policy, cell.tables, IsBlacklisted(ip, now)).1 ==
      Flag(SecurityRuns.BannedAt(cell.policy, cell.log, ip, now))
  {
    var c := IsBlacklisted(ip, now);
    var log := cell.log + [c];
    assert log[..|cell.log|] == cell.log;
    SecurityRuns.AnswersMatchHistory(cell.policy, log, |cell.log|);
    hide Step, SecurityRuns.BannedAt, SecurityRuns.Run;
  }

  // ---- where a cache hit comes from ----

  /** The operation an event makes on a cache engine, if it is enabled. */
  function OpOf(w: World, e: Timed): Option<(nat, CacheRuns.Op)> {
    match e.event
    case LookUp(id) =>
      if HasTask(w, id, Allowed) && !TooLarge(w.tasks[id].snap.config.security, w.tasks[id].req)
         && EngineFor(w.tasks[id]).Some? && EngineFor(w.tasks[id]).value < |w.engines|
      then Some((EngineFor(w.tasks[id]).value, CacheRuns.Get(KeyOf(w.tasks[id].req), e.now)))
      else None
    case Store(id, created) =>
      if id in w.tasks && w.tasks[id].phase.Storing? && w.tasks[id].phase.target < |w.engines| && created <= e.now then
        var cell, resp := w.engines[w.tasks[id].phase.target], w.tasks[id].phase.resp;
        Some((w.tasks[id].phase.target,
              CacheRuns.Insert(KeyOf(w.tasks[id].req),
                NewAsset(cell.limits, resp.status, resp.headers, resp.body, None, created))))
      else None
    case _ => None
  }

  lemma EngineStep(startup: ProxyConfig, w: World, e: Timed, k: nat)
    requires k < |w.engines|
    ensures k < |Next(startup, w, e).engines|
    ensures Next(startup, w, e).engines[k] ==
      if OpOf(w, e).Some? && OpOf(w, e).value.0 == k then
        w.engines[k].(
          state := CacheRuns.Apply(w.engines[k].limits, w.engines[k].state, OpOf(w, e).value.1),
          log := w.engines[k].log + [OpOf(w, e).value.1])
      else w.engines[k]
  {
    hide Step, GetStep, InsertStep, NewAsset, UsesCache, TooLarge, Storable, AfterMiss, KeyOf, LimitsOf, NewEngines;
  }

  /** An engine is new in this step: it is empty. */
  lemma NewEngineStep(startup: ProxyConfig, w: World, e: Timed, k: nat)
    requires |w.engines| <= k < |Next(startup, w, e).engines|
    ensures Next(startup, w, e).engines[k].log == [] && Next(startup, w, e).engines[k].state == EMPTY
  {
    if e.event.Reload? {
      hide LimitsOf;
    } else if !e.event.Begin? {
      hide Next;
      StepFrame(startup, w, e);
      assert false;
    }
  }

  lemma {:induction false} EngineRuns(startup: ProxyConfig, trace: seq<Timed>, k: nat)
    requires k < |Run(startup, trace).engines|
    ensures var cell := Run(startup, trace).engines[k]; cell.state == CacheRuns.Run(cell.limits, cell.log)
  {
    if trace == [] {
      hide LimitsOf;
    } else {
      hide Next, OpOf, CacheRuns.Apply;
      var before, e := trace[..|trace| - 1], trace[|trace| - 1];
      var w := Run(startup, before);
      if k < |w.engines| {
        EngineRuns(startup, before, k);
        EngineStep(startup, w, e, k);
        var log := w.engines[k].log;
        assert OpOf(w, e).Some? ==> (log + [OpOf(w, e).value.1])[..|log|] == log;
      } else {
        NewEngineStep(startup, w, e, k);
      }
    }
  }

  /** Task `id` waits for the upstream's answer to `req` under `snap`. */
  predicate Awaits(w: World, id: nat, snap: Snapshot, req: HttpRequest) {
    id in w.tasks && w.tasks[id].snap == snap && w.tasks[id].req == req && w.tasks[id].phase.Missed? &&
      w.tasks[id].phase.authorized
  }

  /** The resource has a route, and the route does not switch caching off. */
  predicate Cached(routes: seq<Route>, host: string, pathAndQuery: string) {
    var matched := MatchRoute(routes, host, PathOf(pathAndQuery));
    matched.Some? && matched.value.cache.GetOr(true)
  }

  /** At event `j` an upstream response arrived, storable, for a request of `snap` that may use the cache. */
  predicate RespondedAt(startup: ProxyConfig, trace: seq<Timed>, j: nat, snap: Snapshot, req: HttpRequest,
                        resp: HttpResponse)
  {
    && j < |trace| && trace[j].event.Respond? && trace[j].event.resp == resp
    && Awaits(Run(startup, trace[..j]), trace[j].event.id, snap, req)
    && CacheableMethod(req.verb) && Cached(snap.config.routes, req.host, req.pathAndQuery)
    && IsStatic(req, resp) && resp.status == 200 && !NoStore(resp.headers)
  }

  lemma RespondedLater(startup: ProxyConfig, trace: seq<Timed>, j: nat, snap: Snapshot, req: HttpRequest,
                       resp: HttpResponse)
    requires trace != [] && RespondedAt(startup, trace[..|trace| - 1], j, snap, req, resp)
    ensures RespondedAt(startup, trace, j, snap, req, resp)
  {
    hide Run, NoStore, IsStatic, MatchRoute;
    assert trace[..|trace| - 1][..j] == trace[..j];
  }

  /** A miss remembers the engine the request may use, and has a route. */
  predicate MissOk(t: Task) {
    t.phase.Missed? ==> t.phase.engine == EngineFor(t) && RouteOf(t).Some?
  }

  lemma MissStep(startup: ProxyConfig, w: World, e: Timed)
    requires forall id :: id in w.tasks ==> MissOk(w.tasks[id])
    ensures forall id :: id in Next(startup, w, e).tasks ==> MissOk(Next(startup, w, e).tasks[id])
  {
    hide Step, GetStep, InsertStep, NewAsset, UsesCache, TooLarge, Storable, KeyOf, LimitsOf, NewEngines, MatchRoute;
  }

  lemma {:induction false} MissesOk(startup: ProxyConfig, trace: seq<Timed>)
    ensures forall id :: id in Run(startup, trace).tasks ==> MissOk(Run(startup, trace).tasks[id])
  {
    if trace != [] {
      hide Next, MissOk;
      MissesOk(startup, trace[..|trace| - 1]);
      MissStep(startup, Run(startup, trace[..|trace| - 1]), trace[|trace| - 1]);
    }
  }

  /** A task is about to store only because it was before, or because a storable response just arrived for it. */
  predicate StoringFrom(t: Task, t': Task, e: Event, id: nat) {
    t'.phase.Storing? ==>
      t' == t ||
      (t'.(phase := t.phase) == t && e.Respond? && e.id == id && t.phase == Missed(Some(t'.phase.target), true) &&
       t'.phase.resp == e.resp && IsStatic(t.req, e.resp) && e.resp.status == 200 && !NoStore(e.resp.headers))
  }

  lemma StoringStep(startup: ProxyConfig, w: World, e: Timed, id: nat)
    requires id in Next(startup, w, e).tasks && Next(startup, w, e).tasks[id].phase.Storing?
    ensures id in w.tasks && StoringFrom(w.tasks[id], Next(startup, w, e).tasks[id], e.event, id)
  {
    hide Step, GetStep, InsertStep, NewAsset, UsesCache, TooLarge, KeyOf, LimitsOf, NewEngines, MatchRoute, NoStore,
      IsStatic;
    match e.event
    case LookUp(other) =>
      if HasTask(w, other, Allowed) {
        LookUpPhases(w, other, e.now, id);
        hide LookUpStep;
      }
    case Respond(_, _) =>
    case _ => hide LookUpStep, RespondStep, AfterMiss;
  }

  lemma LookUpPhases(w: World, id: nat, now: int, other: nat)
    requires id in w.tasks && other in LookUpStep(w, id, now).0.tasks
    ensures other in w.tasks
    ensures var t' := LookUpStep(w, id, now).0.tasks[other]; t' == w.tasks[other] || !t'.phase.Storing?
  {
    hide GetStep, UsesCache, TooLarge, KeyOf, MatchRoute;
  }

  lemma EngineForMeans(t: Task)
    requires EngineFor(t).Some?
    ensures t.snap.engine == EngineFor(t) && CacheableMethod(t.req.verb)
    ensures RouteOf(t).Some? ==> Cached(t.snap.config.routes, t.req.host, t.req.pathAndQuery)
  {
    hide MatchRoute;
  }

  /** Behind every response waiting to be stored is its arrival. */
  lemma {:induction false} StoringHasSource(startup: ProxyConfig, trace: seq<Timed>, id: nat) returns (j: nat)
    requires id in Run(startup, trace).tasks && Run(startup, trace).tasks[id].phase.Storing?
    ensures var t := Run(startup, trace).tasks[id];
      t.snap.engine == Some(t.phase.target) && RespondedAt(startup, trace, j, t.snap, t.req, t.phase.resp)
  {
    hide Next, MatchRoute, NoStore, IsStatic, EngineFor, RespondedAt;
    var before, e := trace[..|trace| - 1], trace[|trace| - 1];
    var w := Run(startup, before);
    var t' := Run(startup, trace).tasks[id];
    StoringStep(startup, w, e, id);
    var t := w.tasks[id];
    if t' == t {
      j := StoringHasSource(startup, before, id);
      RespondedLater(startup, trace, j, t.snap, t.req, t.phase.resp);
    } else {
      j := |trace| - 1;
      MissesOk(startup, before);
      assert MissOk(t);
      EngineForMeans(t);
      RespondedNow(startup, trace, t.snap, t.req);
    }
  }

  lemma RespondedNow(startup: ProxyConfig, trace: seq<Timed>, snap: Snapshot, req: HttpRequest)
    requires trace != [] && trace[|trace| - 1].event.Respond?
    requires Awaits(Run(startup, trace[..|trace| - 1]), trace[|trace| - 1].event.id, snap, req)
    requires CacheableMethod(req.verb) && Cached(snap.config.routes, req.host, req.pathAndQuery)
    requires IsStatic(req, trace[|trace| - 1].event.resp)
    requires trace[|trace| - 1].event.resp.status == 200 && !NoStore(trace[|trace| - 1].event.resp.headers)
    ensures RespondedAt(startup, trace, |trace| - 1, snap, req, trace[|trace| - 1].event.resp)
  {
  }

  /** The asset in the log of engine `k` came from the response at `j`, stored at event `m`. */
  predicate StoredFrom(startup: ProxyConfig, trace: seq<Timed>, j: nat, m: nat, cell: EngineCell, key: string, a: Asset,
                       req: HttpRequest, resp: HttpResponse)
  {
    && j < m < |trace| && trace[m].event.Store? && a.createdAt == trace[m].event.created <= trace[m].now
    && RespondedAt(startup, trace, j, cell.owner, req, resp)
    && KeyOf(req) == key
    && a == NewAsset(cell.limits, resp.status, resp.headers, resp.body, None, a.createdAt)
  }

  lemma StoredLater(startup: ProxyConfig, trace: seq<Timed>, j: nat, m: nat, cell: EngineCell, cell': EngineCell,
                    key: string, a: Asset, req: HttpRequest, resp: HttpResponse)
    requires trace != [] && StoredFrom(startup, trace[..|trace| - 1], j, m, cell, key, a, req, resp)
    requires cell'.owner == cell.owner && cell'.limits == cell.limits
    ensures StoredFrom(startup, trace, j, m, cell', key, a, req, resp)
  {
    hide RespondedAt, NewAsset;
    RespondedLater(startup, trace, j, cell.owner, req, resp);
  }

  /** Behind every insert in an engine's log is a response to a request of the engine's own snapshot. */
  lemma {:induction false} InsertHasSource(startup: ProxyConfig, trace: seq<Timed>, k: nat, n: nat)
    returns (j: nat, m: nat, req: HttpRequest, resp: HttpResponse)
    requires k < |Run(startup, trace).engines| && n < |Run(startup, trace).engines[k].log|
    requires Run(startup, trace).engines[k].log[n].Insert?
    ensures var cell := Run(startup, trace).engines[k];
      StoredFrom(startup, trace, j, m, cell, cell.log[n].key, cell.log[n].asset, req, resp)
  {
    hide Next, OpOf, StoredFrom, CacheRuns.Apply;
    if trace == [] {
      NoInsertsAtStart(startup, k);
    }
    var before, e := trace[..|trace| - 1], trace[|trace| - 1];
    var w := Run(startup, before);
    var cell' := Run(startup, trace).engines[k];
    if k >= |w.engines| {
      NewEngineStep(startup, w, e, k);
    }
    EngineStep(startup, w, e, k);
    if n < |w.engines[k].log| {
      j, m, req, resp := InsertHasSource(startup, before, k, n);
      StoredLater(startup, trace, j, m, w.engines[k], cell', cell'.log[n].key, cell'.log[n].asset, req, resp);
    } else {
      j, m, req, resp := InsertNow(startup, trace, k);
    }
  }

  lemma NoInsertsAtStart(startup: ProxyConfig, k: nat)
    requires k < |Start(startup).engines|
    ensures Start(startup).engines[k].log == []
  {
    hide LimitsOf;
  }

  /** The insert made by the last event of a trace. */
  lemma InsertNow(startup: ProxyConfig, trace: seq<Timed>, k: nat)
    returns (j: nat, m: nat, req: HttpRequest, resp: HttpResponse)
    requires trace != [] && k < |Run(startup, trace[..|trace| - 1]).engines|
    requires var op := OpOf(Run(startup, trace[..|trace| - 1]), trace[|trace| - 1]);
      op.Some? && op.value.0 == k && op.value.1.Insert?
    ensures k < |Run(startup, trace).engines|
    ensures var op := OpOf(Run(startup, trace[..|trace| - 1]), trace[|trace| - 1]).value.1;
      StoredFrom(startup, trace, j, m, Run(startup, trace).engines[k], op.key, op.asset, req, resp)
  {
    var before, e := trace[..|trace| - 1], trace[|trace| - 1];
    var w := Run(startup, before);
    EngineStep(startup, w, e, k);
    var t := w.tasks[e.event.id];
    j := StoringHasSource(startup, before, e.event.id);
    SharedInvariant(startup, before);
    assert SnapOk(startup, w, t.snap);
    m, req, resp := |trace| - 1, t.req, t.phase.resp;
    hide Next, RespondedAt, MatchRoute, NoStore, IsStatic, Run;
    RespondedLater(startup, trace, j, t.snap, t.req, t.phase.resp);
    assert RespondedAt(startup, before, j, t.snap, t.req, t.phase.resp);
    RespondedBefore(startup, before, j, t.snap, t.req, t.phase.resp);
  }

  lemma RespondedBefore(startup: ProxyConfig, trace: seq<Timed>, j: nat, snap: Snapshot, req: HttpRequest,
                        resp: HttpResponse)
    requires RespondedAt(startup, trace, j, snap, req, resp)
    ensures j < |trace|
  {
  }

  /** At event `i` a request is answered with `a` from the cache. */
  predicate HitAt(startup: ProxyConfig, trace: seq<Timed>, i: nat, a: Asset) {
    && i < |trace| && trace[i].event.LookUp?
    && HasTask(Run(startup, trace[..i]), trace[i].event.id, Allowed)
    && LookUpStep(Run(startup, trace[..i]), trace[i].event.id, trace[i].now).1 == Some(a)
  }

  lemma HitIsGet(w: World, id: nat, now: int, a: Asset)
    requires id in w.tasks && LookUpStep(w, id, now).1 == Some(a)
    ensures var k := w.tasks[id].snap.engine;
      && k.Some? && k.value < |w.engines|
      && GetStep(w.engines[k.value].state, KeyOf(w.tasks[id].req), now).1 == Some(a)
  {
    hide GetStep, UsesCache, TooLarge, AfterMiss, KeyOf;
  }

  /** Where a hit comes from: an earlier response with status 200 to a cacheable request with the same key under the
      same snapshot, stored less than the snapshot's TTL ago; status, headers and body are the response's. */
  lemma HitProvenance(startup: ProxyConfig, trace: seq<Timed>, i: nat, a: Asset)
    returns (j: nat, m: nat, req: HttpRequest, resp: HttpResponse)
    requires HitAt(startup, trace, i, a)
    ensures var t := Run(startup, trace[..i]).tasks[trace[i].event.id];
      && j < m < i && RespondedAt(startup, trace[..i], j, t.snap, req, resp)
      && trace[m].event.Store? && a.createdAt == trace[m].event.created <= trace[m].now
      && KeyOf(req) == KeyOf(t.req)
      && a.status == resp.status && a.headers == resp.headers && a.body == resp.body
      && t.snap.config.cache.Some? && t.snap.config.cache.value.enabled
      && Elapsed(a.createdAt, trace[i].now) < t.snap.config.cache.value.defaultTtlSec * 1_000_000_000
  {
    hide RespondedAt, LimitsOf, Next;
    var before := trace[..i];
    var w := Run(startup, before);
    var t := w.tasks[trace[i].event.id];
    HitIsGet(w, trace[i].event.id, trace[i].now, a);
    var k := t.snap.engine.value;
    SharedInvariant(startup, before);
    assert SnapOk(startup, w, t.snap);
    EngineRuns(startup, before, k);
    var cell := w.engines[k];
    CacheRuns.StoredIsLatest(cell.limits, cell.log, KeyOf(t.req));
    GetIsFresh(cell.state, KeyOf(t.req), trace[i].now, a);
    var n := CacheRuns.LatestIsLogged(cell.limits, cell.log, KeyOf(t.req));
    j, m, req, resp := InsertHasSource(startup, before, k, n);
    assert before[m] == trace[m];
    TtlOf(t.snap.config.cache);
  }

  lemma TtlOf(cache: Option<CacheConfig>)
    ensures LimitsOf(cache).Some? <==> cache.Some? && cache.value.enabled
    ensures LimitsOf(cache).Some? ==> LimitsOf(cache).value.defaultTtl == cache.value.defaultTtlSec * 1_000_000_000
  {
  }

  lemma GetIsFresh(s: State, key: string, now: int, a: Asset)
    requires GetStep(s, key, now).1 == Some(a)
    ensures Has(s.entries, key) && Lookup(s.entries, key) == Some(a) && Elapsed(a.createdAt, now) < a.ttl
  {
  }

  /** For well-shaped requests the key is host and path: a hit serves the response of an earlier request for the same
      host, path and query, and only to a request that has a route in its snapshot. */
  lemma HitIsForSameResource(startup: ProxyConfig, trace: seq<Timed>, i: nat, a: Asset)
    requires HitAt(startup, trace, i, a)
    requires forall n :: 0 <= n < i && trace[n].event.Begin? ==> WellShaped(trace[n].event.req)
    ensures var t := Run(startup, trace[..i]).tasks[trace[i].event.id];
      && Cached(t.snap.config.routes, t.req.host, t.req.pathAndQuery)
      && exists j: nat, req, resp :: j < i && RespondedAt(startup, trace[..i], j, t.snap, req, resp)
           && req.host == t.req.host && req.pathAndQuery == t.req.pathAndQuery
           && a.status == resp.status && a.headers == resp.headers && a.body == resp.body
  {
    var before := trace[..i];
    var t := Run(startup, before).tasks[trace[i].event.id];
    var j, m, req, resp := HitProvenance(startup, trace, i, a);
    TasksWellShaped(startup, before);
    assert before[..j] == trace[..j];
    TasksWellShaped(startup, before[..j]);
    hide Next, Run, MatchRoute, NoStore, IsStatic;
    assert RespondedAt(startup, before, j, t.snap, req, resp);
    CacheKeysInjective(req, t.req);
  }

  lemma {:induction false} TasksWellShaped(startup: ProxyConfig, trace: seq<Timed>)
    requires forall n :: 0 <= n < |trace| && trace[n].event.Begin? ==> WellShaped(trace[n].event.req)
    ensures forall id :: id in Run(startup, trace).tasks ==> WellShaped(Run(startup, trace).tasks[id].req)
  {
    if trace != [] {
      var before, e := trace[..|trace| - 1], trace[|trace| - 1];
      TasksWellShaped(startup, before);
      RequestStep(startup, Run(startup, before), e);
      hide Next, WellShaped;
    }
  }

  lemma RequestStep(startup: ProxyConfig, w: World, e: Timed)
    ensures forall id :: id in Next(startup, w, e).tasks ==>
      if id in w.tasks then Next(startup, w, e).tasks[id].req == w.tasks[id].req
      else e.event.Begin? && Next(startup, w, e).tasks[id].req == e.event.req
  {
    if !e.event.Reload? && !e.event.Begin? {
      hide Next;
      StepFrame(startup, w, e);
    }
  }

  // ---- what the parser guarantees about every snapshot ----

  /** The signal's configuration, if any, came out of the parser. */
  ghost predicate FromFile(env: Parser.Env, loaded: Result<ProxyConfig, string>) {
    loaded.Ok? ==> exists text :: Parser.ParseConfig(env, text) == Ok(loaded.value)
  }

  lemma FileIsWellFormed(env: Parser.Env, loaded: Result<ProxyConfig, string>)
    requires FromFile(env, loaded) && loaded.Ok?
    ensures ParserImage.WellFormed(env, loaded.value)
  {
    hide Parser.ParseConfig, ParserImage.WellFormed;
    ParserText.ImageIsWellFormed(env, loaded.value);
  }

  /** If the startup file and every reloaded file went through the parser, every snapshot in use in any run is well
      formed. */
  lemma {:induction false} SnapshotsWellFormed(env: Parser.Env, startup: ProxyConfig, trace: seq<Timed>)
    requires FromFile(env, Ok(startup))
    requires forall n :: 0 <= n < |trace| && trace[n].event.Reload? ==> FromFile(env, trace[n].event.signal.loaded)
    ensures var w := Run(startup, trace);
      && ParserImage.WellFormed(env, w.published.config)
      && forall id :: id in w.tasks ==> ParserImage.WellFormed(env, w.tasks[id].snap.config)
  {
    hide Next, FromFile, ParserImage.WellFormed;
    if trace == [] {
      FileIsWellFormed(env, Ok(startup));
    } else {
      var e := trace[|trace| - 1];
      SnapshotsWellFormed(env, startup, trace[..|trace| - 1]);
      SnapStep(startup, Run(startup, trace[..|trace| - 1]), e);
      if e.event.Reload? && e.event.signal.loaded.Ok? {
        FileIsWellFormed(env, e.event.signal.loaded);
      }
    }
  }

  /** Route `k` of the snapshot is the first to match the request, and asks for authentication. */
  predicate AuthMatch(snap: Snapshot, req: HttpRequest, k: nat) {
    && k < |snap.config.routes| && IsFirstMatch(snap.config.routes, req.host, PathOf(req.pathAndQuery), k)
    && snap.config.routes[k].authRequired
  }

  /** A request whose first matching route says `auth on` always finds an authentication provider configured in its
      snapshot, so the handler's misconfiguration answer is never given. */
  lemma AuthRoutesHaveProvider(env: Parser.Env, startup: ProxyConfig, trace: seq<Timed>, id: nat, k: nat)
    requires FromFile(env, Ok(startup))
    requires forall n :: 0 <= n < |trace| && trace[n].event.Reload? ==> FromFile(env, trace[n].event.signal.loaded)
    requires id in Run(startup, trace).tasks &&
      AuthMatch(Run(startup, trace).tasks[id].snap, Run(startup, trace).tasks[id].req, k)
    ensures var t := Run(startup, trace).tasks[id];
      t.snap.config.security.Some? && t.snap.config.security.value.forwardAuth.Some?
  {
    SnapshotsWellFormed(env, startup, trace);
    var t := Run(startup, trace).tasks[id];
    assert Parser.AnyAuth(t.snap.config.routes);
    hide Run, IsFirstMatch, FromFile, ParserImage.SecurityOk, ParserImage.RoutesOk, ParserImage.CacheOk;
  }

  // ---- authentication comes before the upstream ----

  /** At event `m` the provider grants the request of task `id`. */
  predicate GrantedAt(startup: ProxyConfig, trace: seq<Timed>, m: nat, id: nat) {
    && m < |trace| && trace[m].event == Authorize(id, true)
    && id in Run(startup, trace[..m]).tasks && Run(startup, trace[..m]).tasks[id].phase.Missed?
    && !Run(startup, trace[..m]).tasks[id].phase.authorized
  }

  /** A waiting request may go upstream only because its route asks for nothing, because it already might, or because
      this event grants it. */
  lemma AuthorizedStep(startup: ProxyConfig, w: World, e: Timed, id: nat)
    requires id in Next(startup, w, e).tasks
    requires var t' := Next(startup, w, e).tasks[id]; t'.phase.Missed? && t'.phase.authorized
    ensures var t' := Next(startup, w, e).tasks[id];
      || (RouteOf(t').Some? && !RouteOf(t').value.authRequired)
      || (id in w.tasks && w.tasks[id] == t')
      || (id in w.tasks && e.event == Authorize(id, true) && w.tasks[id].phase.Missed? && !w.tasks[id].phase.authorized
          && ForwardAuth(t'.snap.config.security).Some?)
  {
    hide Step, GetStep, InsertStep, NewAsset, UsesCache, TooLarge, Storable, KeyOf, LimitsOf, NewEngines, MatchRoute;
  }

  lemma {:induction false} AuthorizedWasGranted(startup: ProxyConfig, trace: seq<Timed>, id: nat) returns (m: nat)
    requires id in Run(startup, trace).tasks
    requires var t := Run(startup, trace).tasks[id];
      t.phase.Missed? && t.phase.authorized && RouteOf(t).Some? && RouteOf(t).value.authRequired
    ensures GrantedAt(startup, trace, m, id) && ForwardAuth(Run(startup, trace).tasks[id].snap.config.security).Some?
  {
    hide Next, RouteOf;
    var last := |trace| - 1;
    AuthorizedStep(startup, Run(startup, trace[..last]), trace[last], id);
    var w := Run(startup, trace[..last]);
    if id in w.tasks && w.tasks[id] == Run(startup, trace).tasks[id] {
      m := AuthorizedWasGranted(startup, trace[..last], id);
      assert trace[..last][..m] == trace[..m];
    } else {
      m := last;
    }
  }

  /** Every upstream response to a request whose first matching route says `auth on` comes after the provider granted
      that request, and there is a provider configured. */
  lemma UpstreamNeedsGrant(startup: ProxyConfig, trace: seq<Timed>, j: nat, snap: Snapshot, req: HttpRequest, k: nat)
    requires j < |trace| && trace[j].event.Respond? && Awaits(Run(startup, trace[..j]), trace[j].event.id, snap, req)
    requires AuthMatch(snap, req, k)
    ensures snap.config.security.Some? && snap.config.security.value.forwardAuth.Some?
    ensures exists m: nat :: m < j && GrantedAt(startup, trace, m, trace[j].event.id)
  {
    hide Run, MatchRoute, AuthMatch;
    var id := trace[j].event.id;
    AuthMatchRoute(snap, req, k);
    var m := AuthorizedWasGranted(startup, trace[..j], id);
    assert trace[..j][..m] == trace[..m];
    assert GrantedAt(startup, trace, m, id);
  }

  lemma AuthMatchRoute(snap: Snapshot, req: HttpRequest, k: nat)
    requires AuthMatch(snap, req, k)
    ensures var route := MatchRoute(snap.config.routes, req.host, PathOf(req.pathAndQuery));
      route.Some? && route.value.authRequired
  {
    FirstMatchWins(snap.config.routes, req.host, PathOf(req.pathAndQuery));
    hide MatchRoute, Matches;
  }
}
