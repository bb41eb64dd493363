/** A stored response is served for exactly its time: the converse of where a hit comes from. */
module Freshness {
  import opened Basics
  import opened Cache
  import CacheRuns
  import opened Config
  import opened Proxy
  import opened Runtime
  import opened System
  import opened SystemRuns

  /** The entry of a key in an engine. */
  function EntryOf(w: World, k: nat, key: string): Option<Asset>
    requires k < |w.engines|
  {
    Lookup(w.engines[k].state.entries, key)
  }

  /** At event `m` a response for `key` under `snap` goes into its engine, and is accepted. */
  predicate StoredAt(startup: ProxyConfig, trace: seq<Timed>, m: nat, snap: Snapshot, key: string, resp: HttpResponse,
                     created: int)
  {
    && m < |trace| && trace[m].event.Store? && trace[m].event.created == created <= trace[m].now
    && var w, id := Run(startup, trace[..m]), trace[m].event.id;
    && id in w.tasks && w.tasks[id].snap == snap && KeyOf(w.tasks[id].req) == key
    && w.tasks[id].phase.Storing? && w.tasks[id].phase.resp == resp
    && snap.engine == Some(w.tasks[id].phase.target) && w.tasks[id].phase.target < |w.engines|
    && var cell := w.engines[w.tasks[id].phase.target];
    InsertStep(cell.limits, cell.state, key,
      NewAsset(cell.limits, resp.status, resp.headers, resp.body, None, created)).1.inserted
  }

  /** A store at event `n` pushes `key` out of engine `k`, or replaces its entry. */
  predicate ChangedAt(startup: ProxyConfig, trace: seq<Timed>, n: nat, k: nat, key: string)
    requires n < |trace|
  {
    && trace[n].event.Store?
    && var w, w' := Run(startup, trace[..n]), Run(startup, trace[..n + 1]);
    k < |w.engines| && k < |w'.engines| && EntryOf(w, k, key).Some? && EntryOf(w', k, key) != EntryOf(w, k, key)
  }

  lemma RunExtends(startup: ProxyConfig, trace: seq<Timed>, n: nat)
    requires n < |trace|
    ensures Run(startup, trace[..n + 1]) == Next(startup, Run(startup, trace[..n]), trace[n])
  {
    hide Next;
    assert trace[..n + 1][..n] == trace[..n];
  }

  lemma EngineIsTidy(startup: ProxyConfig, trace: seq<Timed>, k: nat)
    requires k < |Run(startup, trace).engines|
    ensures DistinctKeys(Run(startup, trace).engines[k].state.entries)
  {
    hide Run;
    SharedInvariant(startup, trace);
    EngineRuns(startup, trace, k);
    var cell := Run(startup, trace).engines[k];
    assert cell.limits.maxEntries > 0;
    CacheRuns.RunConserves(cell.limits, cell.log);
  }

  lemma StoreEnters(startup: ProxyConfig, trace: seq<Timed>, m: nat, snap: Snapshot, key: string, resp: HttpResponse,
                    created: int)
    requires StoredAt(startup, trace, m, snap, key, resp, created)
    ensures var w' := Run(startup, trace[..m + 1]);
      var k := snap.engine.value;
      && k < |w'.engines| && EntryOf(w', k, key).Some?
      && var a := EntryOf(w', k, key).value;
      && a.status == resp.status && a.headers == resp.headers && a.body == resp.body && a.createdAt == created
      && a.ttl == w'.engines[k].limits.defaultTtl
  {
    hide Run, Next, InsertStep, KeyOf, IndexOf, Lookup, CacheRuns.Apply;
    var w, k := Run(startup, trace[..m]), snap.engine.value;
    RunExtends(startup, trace, m);
    EngineStep(startup, w, trace[m], k);
    EngineIsTidy(startup, trace[..m], k);
    CacheRuns.ApplyLookup(w.engines[k].limits, w.engines[k].state, OpOf(w, trace[m]).value.1, key);
  }

  /** An entry that is fresh enough stays until a store changes it. */
  lemma EntryStays(startup: ProxyConfig, trace: seq<Timed>, n: nat, k: nat, key: string, now: int)
    requires n < |trace| && k < |Run(startup, trace[..n]).engines| && EntryOf(Run(startup, trace[..n]), k, key).Some?
    requires !Expired(EntryOf(Run(startup, trace[..n]), k, key).value, now) && trace[n].now <= now
    requires !ChangedAt(startup, trace, n, k, key)
    ensures k < |Run(startup, trace[..n + 1]).engines|
    ensures EntryOf(Run(startup, trace[..n + 1]), k, key) == EntryOf(Run(startup, trace[..n]), k, key)
  {
    var w := Run(startup, trace[..n]);
    RunExtends(startup, trace, n);
    EngineStep(startup, w, trace[n], k);
    EngineIsTidy(startup, trace[..n], k);
    OpKind(w, trace[n]);
    if OpOf(w, trace[n]).Some? && OpOf(w, trace[n]).value.0 == k {
      var op := OpOf(w, trace[n]).value.1;
      CacheRuns.ApplyLookup(w.engines[k].limits, w.engines[k].state, op, key);
      if op.Get? {
        OlderIsFresh(EntryOf(w, k, key).value, op.now, now);
      }
    }
    hide Run, Next, OpOf, CacheRuns.Apply, IndexOf, Expired;
  }

  lemma OpKind(w: World, e: Timed)
    ensures OpOf(w, e).Some? ==>
      if OpOf(w, e).value.1.Get? then OpOf(w, e).value.1.now == e.now else e.event.Store?
  {
  }

  lemma OlderIsFresh(a: Asset, early: int, late: int)
    requires early <= late && !Expired(a, late)
    ensures !Expired(a, early)
  {
  }

  lemma {:induction false} EntryLasts(startup: ProxyConfig, trace: seq<Timed>, m: nat, i: nat, k: nat, key: string,
                                      now: int)
    requires m <= i <= |trace| && k < |Run(startup, trace[..m]).engines| &&
      EntryOf(Run(startup, trace[..m]), k, key).Some?
    requires !Expired(EntryOf(Run(startup, trace[..m]), k, key).value, now)
    requires forall n: nat :: m <= n < i ==> trace[n].now <= now && !ChangedAt(startup, trace, n, k, key)
    ensures k < |Run(startup, trace[..i]).engines|
    ensures EntryOf(Run(startup, trace[..i]), k, key) == EntryOf(Run(startup, trace[..m]), k, key)
    decreases i - m
  {
    hide Run, ChangedAt, EntryOf, Expired;
    if m < i {
      EntryStays(startup, trace, m, k, key, now);
      EntryLasts(startup, trace, m + 1, i, k, key, now);
    }
  }

  /** A request that may use the cache, of a snapshot under which its key was stored less than the configured number of
      seconds ago, is answered from the cache with that response, unless a store pushed it out or replaced it since. */
  lemma StoredIsServed(startup: ProxyConfig, trace: seq<Timed>, m: nat, i: nat, snap: Snapshot, resp: HttpResponse,
                       created: int)
    requires Clocked(trace) && m < i < |trace| && trace[i].event.LookUp?
    requires HasTask(Run(startup, trace[..i]), trace[i].event.id, Allowed)
    requires var t := Run(startup, trace[..i]).tasks[trace[i].event.id];
      && t.snap == snap && UsesCache(snap.config.routes, t.req) && !TooLarge(snap.config.security, t.req)
      && StoredAt(startup, trace, m, snap, KeyOf(t.req), resp, created)
      && forall n: nat :: m < n < i ==> !ChangedAt(startup, trace, n, snap.engine.value, KeyOf(t.req))
    ensures snap.config.cache.Some?
    ensures Elapsed(created, trace[i].now) < snap.config.cache.value.defaultTtlSec * 1_000_000_000 ==>
      exists a :: HitAt(startup, trace, i, a) && a.status == resp.status && a.headers == resp.headers &&
        a.body == resp.body
  {
    var w, now := Run(startup, trace[..i]), trace[i].now;
    var t := w.tasks[trace[i].event.id];
    var k, key := snap.engine.value, KeyOf(t.req);
    SharedInvariant(startup, trace[..i]);
    assert SnapOk(startup, w, snap);
    StoreEnters(startup, trace, m, snap, key, resp, created);
    var a := EntryOf(Run(startup, trace[..m + 1]), k, key).value;
    SameLimits(startup, trace, m + 1, i, k);
    hide Run, Next, UsesCache, TooLarge, KeyOf, StoredAt, ChangedAt;
    if Elapsed(created, now) < snap.config.cache.value.defaultTtlSec * 1_000_000_000 {
      EntryLasts(startup, trace, m + 1, i, k, key, now);
      LookUpFinds(w, trace[i].event.id, now, a);
      assert HitAt(startup, trace, i, a);
    }
  }

  lemma LookUpFinds(w: World, id: nat, now: int, a: Asset)
    requires id in w.tasks && w.tasks[id].snap.engine.Some? && w.tasks[id].snap.engine.value < |w.engines|
    requires var t := w.tasks[id]; UsesCache(t.snap.config.routes, t.req) && !TooLarge(t.snap.config.security, t.req)
    requires EntryOf(w, w.tasks[id].snap.engine.value, KeyOf(w.tasks[id].req)) == Some(a) && !Expired(a, now)
    ensures LookUpStep(w, id, now).1 == Some(a)
  {
    hide UsesCache, TooLarge, KeyOf, AfterMiss, IndexOf;
  }

  lemma {:induction false} SameLimits(startup: ProxyConfig, trace: seq<Timed>, m: nat, i: nat, k: nat)
    requires m <= i <= |trace| && k < |Run(startup, trace[..m]).engines|
    ensures k < |Run(startup, trace[..i]).engines|
    ensures Run(startup, trace[..i]).engines[k].limits == Run(startup, trace[..m]).engines[k].limits
    decreases i - m
  {
    if m < i {
      RunExtends(startup, trace, m);
      EngineStep(startup, Run(startup, trace[..m]), trace[m], k);
      hide Run, Next, OpOf, CacheRuns.Apply;
      SameLimits(startup, trace, m + 1, i, k);
    }
  }
}
