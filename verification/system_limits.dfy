/** The limiter and the bans of the whole proxy, from the numbers in the configuration file. */
module SystemLimits {
  import opened Basics
  import opened Net
  import opened Security
  import SecurityRuns
  import opened Config
  import opened Proxy
  import opened Runtime
  import opened System
  import opened SystemRuns

  // ---- what happened in a run ----

  /** At this event the limiter sees a request of `ip`. */
  predicate AsksLimiter(w: World, e: Timed, ip: IpAddr) {
    e.event.CheckRate? && HasTask(w, e.event.id, NotBanned) && w.tasks[e.event.id].ip == ip
  }

  /** At this event a handshake of `ip` fails. */
  predicate FailsHandshake(w: World, e: Timed, ip: IpAddr) {
    e.event.TlsFailed? && HasTask(w, e.event.id, Loaded) && w.tasks[e.event.id].ip == ip
  }

  /** How many requests of `ip` the limiter saw between `lo` and `hi`. */
  function RequestsIn(startup: ProxyConfig, trace: seq<Timed>, ip: IpAddr, lo: int, hi: int): nat {
    if trace == [] then 0
    else
      var before, e := trace[..|trace| - 1], trace[|trace| - 1];
      RequestsIn(startup, before, ip, lo, hi) +
      (if lo <= e.now <= hi && AsksLimiter(Run(startup, before), e, ip) then 1 else 0)
  }

  /** How many handshakes of `ip` failed between `lo` and `hi`. */
  function FailuresIn(startup: ProxyConfig, trace: seq<Timed>, ip: IpAddr, lo: int, hi: int): nat {
    if trace == [] then 0
    else
      var before, e := trace[..|trace| - 1], trace[|trace| - 1];
      FailuresIn(startup, before, ip, lo, hi) +
      (if lo <= e.now <= hi && FailsHandshake(Run(startup, before), e, ip) then 1 else 0)
  }

  /** At event `j` a handshake of `ip` fails, and more than `max` failed in the minute up to it. */
  predicate TripsAt(startup: ProxyConfig, trace: seq<Timed>, j: nat, ip: IpAddr, max: nat) {
    && j < |trace| && FailsHandshake(Run(startup, trace[..j]), trace[j], ip)
    && FailuresIn(startup, trace[..j + 1], ip, trace[j].now - 60_000_000_000, trace[j].now) > max
  }

  /** Such a failure is less than `duration` before `t`. */
  predicate BannedInRun(startup: ProxyConfig, trace: seq<Timed>, ip: IpAddr, t: int, max: nat, duration: nat) {
    exists j: nat ::
      j < |trace| && TripsAt(startup, trace, j, ip, max) && trace[j].now <= t < trace[j].now + duration
  }

  // ---- the log of the manager is the run ----

  lemma CallIs(startup: ProxyConfig, w: World, e: Timed, ip: IpAddr)
    requires SharedOk(startup, w)
    ensures AsksLimiter(w, e, ip) <==> CallOf(w, e) == Some(Call.Request(ip, e.now))
    ensures FailsHandshake(w, e, ip) <==> CallOf(w, e) == Some(TlsFailure(ip, e.now))
    ensures CallOf(w, e).Some? ==> CallOf(w, e).value.now == e.now && !CallOf(w, e).value.AddToBlacklist?
  {
  }

  lemma LogStep(startup: ProxyConfig, before: seq<Timed>, e: Timed)
    ensures |Run(startup, before).managers| == 1 && |Next(startup, Run(startup, before), e).managers| == 1
    ensures var w := Run(startup, before);
      Next(startup, w, e).managers[0].log ==
        if CallOf(w, e).Some? then w.managers[0].log + [CallOf(w, e).value] else w.managers[0].log
  {
    hide Run, Next, CallOf;
    SharedInvariant(startup, before);
    ManagerStep(startup, Run(startup, before), e);
    NextKeepsShared(startup, Run(startup, before), e);
  }

  lemma CountExtends(log: seq<Call>, c: Call, kind: SecurityRuns.Kind, ip: IpAddr, lo: int, hi: int)
    ensures SecurityRuns.CountIn(log + [c], kind, ip, lo, hi) ==
      SecurityRuns.CountIn(log, kind, ip, lo, hi) +
        (if SecurityRuns.IsEvent(c, kind, ip) && lo <= c.now <= hi then 1 else 0)
  {
    assert (log + [c])[..|log|] == log;
  }

  lemma CountsStep(startup: ProxyConfig, before: seq<Timed>, e: Timed, ip: IpAddr, lo: int, hi: int)
    requires |Run(startup, before).managers| == 1
    ensures |Next(startup, Run(startup, before), e).managers| == 1
    ensures var w := Run(startup, before);
      var log, log' := w.managers[0].log, Next(startup, w, e).managers[0].log;
      && SecurityRuns.CountIn(log', SecurityRuns.Http, ip, lo, hi) ==
           SecurityRuns.CountIn(log, SecurityRuns.Http, ip, lo, hi) +
             (if AsksLimiter(w, e, ip) && lo <= e.now <= hi then 1 else 0)
      && SecurityRuns.CountIn(log', SecurityRuns.Tls, ip, lo, hi) ==
           SecurityRuns.CountIn(log, SecurityRuns.Tls, ip, lo, hi) +
             (if FailsHandshake(w, e, ip) && lo <= e.now <= hi then 1 else 0)
  {
    hide Run, Next, CallOf, AsksLimiter, FailsHandshake, SharedOk, SecurityRuns.CountIn;
    var w := Run(startup, before);
    LogStep(startup, before, e);
    SharedInvariant(startup, before);
    CallIs(startup, w, e, ip);
    if CallOf(w, e).Some? {
      CountExtends(w.managers[0].log, CallOf(w, e).value, SecurityRuns.Http, ip, lo, hi);
      CountExtends(w.managers[0].log, CallOf(w, e).value, SecurityRuns.Tls, ip, lo, hi);
    }
  }

  lemma {:induction false} CountsMatchLog(startup: ProxyConfig, trace: seq<Timed>, ip: IpAddr, lo: int, hi: int)
    ensures |Run(startup, trace).managers| == 1
    ensures var log := Run(startup, trace).managers[0].log;
      && RequestsIn(startup, trace, ip, lo, hi) == SecurityRuns.CountIn(log, SecurityRuns.Http, ip, lo, hi)
      && FailuresIn(startup, trace, ip, lo, hi) == SecurityRuns.CountIn(log, SecurityRuns.Tls, ip, lo, hi)
  {
    hide Next, CallOf, AsksLimiter, FailsHandshake, SharedOk;
    SharedOne(startup, trace);
    if trace != [] {
      var before, e := trace[..|trace| - 1], trace[|trace| - 1];
      CountsMatchLog(startup, before, ip, lo, hi);
      LogStep(startup, before, e);
      CountsStep(startup, before, e, ip, lo, hi);
      hide SecurityRuns.CountIn;
    } else {
      assert SecurityRuns.CountIn([], SecurityRuns.Http, ip, lo, hi) == 0;
    }
  }

  /** A ban of the log in force at `t` is a failure of the run that trips. */
  lemma {:induction false} BansMatchLog(startup: ProxyConfig, trace: seq<Timed>, policy: Policy, ip: IpAddr, t: int)
    ensures |Run(startup, trace).managers| == 1
    ensures SecurityRuns.BannedAt(policy, Run(startup, trace).managers[0].log, ip, t) <==>
      BannedInRun(startup, trace, ip, t, policy.maxTlsFailures, policy.banDuration)
  {
    SharedOne(startup, trace);
    if trace != [] {
      var last := |trace| - 1;
      var before, e := trace[..last], trace[last];
      var w := Run(startup, before);
      hide Next, CallOf, FailsHandshake, SecurityRuns.BannedAt, TripsAt, SecurityRuns.Bans, BannedInRun;
      BansMatchLog(startup, before, policy, ip, t);
      LogStep(startup, before, e);
      BannedInRunExtends(startup, trace, ip, t, policy.maxTlsFailures, policy.banDuration);
      LastTrips(startup, trace, policy, ip);
      if CallOf(w, e).Some? {
        var log := w.managers[0].log + [CallOf(w, e).value];
        assert log[..|log| - 1] == w.managers[0].log;
        SecurityRuns.BannedAtExtends(policy, log, ip, t);
      }
    } else {
      assert !SecurityRuns.BannedAt(policy, [], ip, t);
    }
  }

  lemma BannedInRunExtends(startup: ProxyConfig, trace: seq<Timed>, ip: IpAddr, t: int, max: nat, duration: nat)
    requires trace != []
    ensures var last := |trace| - 1;
      BannedInRun(startup, trace, ip, t, max, duration) <==>
        || BannedInRun(startup, trace[..last], ip, t, max, duration)
        || (TripsAt(startup, trace, last, ip, max) && trace[last].now <= t < trace[last].now + duration)
  {
    hide TripsAt;
    TripsPrefix(startup, trace, ip, max);
    var before := trace[..|trace| - 1];
    if j: nat :| j < |before| && TripsAt(startup, before, j, ip, max) && before[j].now <= t < before[j].now + duration {
      assert TripsAt(startup, trace, j, ip, max);
    }
  }

  lemma TripsPrefix(startup: ProxyConfig, trace: seq<Timed>, ip: IpAddr, max: nat)
    requires trace != []
    ensures forall j: nat :: j < |trace| - 1 ==>
      (TripsAt(startup, trace, j, ip, max) <==> TripsAt(startup, trace[..|trace| - 1], j, ip, max))
  {
    hide Run, FailuresIn, FailsHandshake;
    var before := trace[..|trace| - 1];
    forall j: nat | j < |trace| - 1
      ensures TripsAt(startup, trace, j, ip, max) <==> TripsAt(startup, before, j, ip, max)
    {
      assert before[..j] == trace[..j] && before[..j + 1] == trace[..j + 1];
    }
  }

  /** The last event trips iff it makes a call that bans. */
  lemma LastTrips(startup: ProxyConfig, trace: seq<Timed>, policy: Policy, ip: IpAddr)
    requires trace != []
    ensures |Run(startup, trace[..|trace| - 1]).managers| == 1
    ensures var w, e := Run(startup, trace[..|trace| - 1]), trace[|trace| - 1];
      TripsAt(startup, trace, |trace| - 1, ip, policy.maxTlsFailures) <==>
        && CallOf(w, e).Some? && CallOf(w, e).value.ip == ip
        && SecurityRuns.Bans(policy, w.managers[0].log + [CallOf(w, e).value], |w.managers[0].log|)
    ensures CallOf(Run(startup, trace[..|trace| - 1]), trace[|trace| - 1]).Some? ==>
      CallOf(Run(startup, trace[..|trace| - 1]), trace[|trace| - 1]).value.now == trace[|trace| - 1].now
  {
    hide Next, CallOf, FailsHandshake, SecurityRuns.CountIn, RequestsIn, SecurityRuns.Bans, SharedOk;
    var last := |trace| - 1;
    var before, e := trace[..last], trace[last];
    var w := Run(startup, before);
    assert trace[..last + 1] == trace;
    SharedInvariant(startup, before);
    CallIs(startup, w, e, ip);
    LogStep(startup, before, e);
    CountsMatchLog(startup, trace, ip, e.now - 60_000_000_000, e.now);
    hide FailuresIn, Run;
    if CallOf(w, e).Some? {
      LastBans(policy, w.managers[0].log, CallOf(w, e).value);
      CallIs(startup, w, e, CallOf(w, e).value.ip);
      OnlyFailuresBan(w, e);
    }
  }

  lemma LastBans(policy: Policy, log: seq<Call>, c: Call)
    ensures SecurityRuns.Bans(policy, log + [c], |log|) <==>
      || c.AddToBlacklist?
      || (c.TlsFailure? &&
          policy.maxTlsFailures <
            SecurityRuns.CountIn(log + [c], SecurityRuns.Tls, c.ip, c.now - 60_000_000_000, c.now))
  {
    hide SecurityRuns.CountIn;
    assert (log + [c])[..|log| + 1] == log + [c];
  }

  lemma OnlyFailuresBan(w: World, e: Timed)
    requires CallOf(w, e).Some?
    ensures CallOf(w, e).value.TlsFailure? ==> CallOf(w, e) == Some(TlsFailure(CallOf(w, e).value.ip, e.now))
    ensures !CallOf(w, e).value.AddToBlacklist?
  {
  }

  // ---- the limits ----

  /** The number in `rate_limit_rpm`, 60 without a security block; zero switches the limiter off. */
  function RateLimitOf(startup: ProxyConfig): nat {
    if startup.security.Some? then startup.security.value.rateLimitRpm else 60
  }

  lemma PolicyFields(startup: ProxyConfig)
    ensures PolicyOf(startup.security).rateLimitRpm == RateLimitOf(startup)
    ensures PolicyOf(startup.security).maxTlsFailures ==
      if startup.security.Some? then startup.security.value.maxTlsFailures else 5
    ensures PolicyOf(startup.security).banDuration ==
      if startup.security.Some? then startup.security.value.banDurationSec * 1_000_000_000 else 3_600_000_000_000
  {
  }

  /** A request passes the limiter iff the limiter is off or, with this one, it saw no more requests of the address in
      the last minute than the configured limit, whatever workers and reloads did. */
  lemma RequestPassesIff(startup: ProxyConfig, trace: seq<Timed>, e: Timed, ip: IpAddr)
    requires Clocked(trace) && NotAfter(trace, e.now) && AsksLimiter(Run(startup, trace), e, ip)
    ensures e.event.id in Next(startup, Run(startup, trace), e).tasks
    ensures var seen := RequestsIn(startup, trace, ip, e.now - 60_000_000_000, e.now) + 1;
      var limit := if startup.security.Some? then startup.security.value.rateLimitRpm else 60;
      Next(startup, Run(startup, trace), e).tasks[e.event.id].phase == Allowed <==> limit == 0 || seen <= limit
  {
    hide Run, Step, SecurityRuns.CountIn, RequestsIn, FailuresIn, PolicyOf, CallOf, LogOk;
    var w := Run(startup, trace);
    SharedInvariant(startup, trace);
    ManagerRuns(startup, trace, e.now);
    CountsMatchLog(startup, trace, ip, e.now - 60_000_000_000, e.now);
    LimiterAnswer(w.managers[0], ip, e.now);
    PolicyFields(startup);
    PassesIffAnswer(startup, w, e, ip);
    CallIs(startup, w, e, ip);
    TaskStays(startup, w, e);
    hide Next;
  }

  lemma TaskStays(startup: ProxyConfig, w: World, e: Timed)
    requires e.event.CheckRate? && e.event.id in w.tasks
    ensures e.event.id in Next(startup, w, e).tasks
  {
    hide Step;
  }

  lemma LimiterAnswer(cell: ManagerCell, ip: IpAddr, now: int)
    requires LogOk(cell, now)
    ensures var n := SecurityRuns.CountIn(cell.log, SecurityRuns.Http, ip, now - 60_000_000_000, now) + 1;
      Step(cell.policy, cell.tables, Call.Request(ip, now)).1 ==
        if cell.policy.rateLimitRpm == 0 then Passed(0)
        else if n > cell.policy.rateLimitRpm then Refused(n)
        else Passed(n)
  {
    var c := Call.Request(ip, now);
    var log := cell.log + [c];
    assert log[..|cell.log|] == cell.log && log[..|cell.log| + 1] == log;
    SecurityRuns.AnswersMatchHistory(cell.policy, log, |cell.log|);
    CountExtends(cell.log, c, SecurityRuns.Http, ip, now - 60_000_000_000, now);
    hide Step, SecurityRuns.Run, SecurityRuns.CountIn;
  }

  /** The rate bound: at most the configured limit of requests of one address get through in any closed minute, whatever
      workers and reloads do. */
  lemma SystemRateBound(startup: ProxyConfig, trace: seq<Timed>, ip: IpAddr, lo: int, hi: int)
    requires Clocked(trace) && hi - lo <= 60_000_000_000
    ensures startup.security.Some? && startup.security.value.rateLimitRpm != 0 ==>
      PassedIn(startup, trace, ip, lo, hi) <= startup.security.value.rateLimitRpm
    ensures startup.security.None? ==> PassedIn(startup, trace, ip, lo, hi) <= 60
  {
    PolicyFields(startup);
    hide PolicyOf, PassedIn;
    if RateLimitOf(startup) != 0 {
      PolicyRateBound(startup, trace, ip, lo, hi);
    }
  }

  /** A request gets past the ban check iff no failed handshake of its address that was one too many within its minute
      is less than the ban duration ago, whichever snapshots the request and the handshakes used. */
  lemma SystemBan(startup: ProxyConfig, trace: seq<Timed>, e: Timed)
    requires Clocked(trace) && NotAfter(trace, e.now)
    requires e.event.CheckBan? && HasTask(Run(startup, trace), e.event.id, Loaded)
    ensures e.event.id in Next(startup, Run(startup, trace), e).tasks
    ensures var ip := Run(startup, trace).tasks[e.event.id].ip;
      var max := if startup.security.Some? then startup.security.value.maxTlsFailures else 5;
      var seconds := if startup.security.Some? then startup.security.value.banDurationSec else 3600;
      Next(startup, Run(startup, trace), e).tasks[e.event.id].phase == NotBanned <==>
        !BannedInRun(startup, trace, ip, e.now, max, seconds * 1_000_000_000)
  {
    PolicyFields(startup);
    PolicyBan(startup, trace, e);
    hide PolicyOf, TripsAt, Next;
    BansMatchLog(startup, trace, PolicyOf(startup.security), Run(startup, trace).tasks[e.event.id].ip, e.now);
  }

  /** The gate in front of a request, from the whole history of the manager: dropped under a ban in force, throttled
      with the number of requests seen in the last minute if that exceeds the limit, else admitted. */
  lemma GateFromHistory(policy: Policy, log: seq<Call>, ip: IpAddr, banTime: int, rateTime: int)
    requires SecurityRuns.Clocked(log) && SecurityRuns.NotAfter(log, banTime) && banTime <= rateTime
    ensures var seen := SecurityRuns.CountIn(log, SecurityRuns.Http, ip, rateTime - 60_000_000_000, rateTime) + 1;
      GateStep(policy, SecurityRuns.Run(policy, log), ip, banTime, rateTime).1 ==
        if SecurityRuns.BannedAt(policy, log, ip, banTime) then Blacklisted
        else if policy.rateLimitRpm != 0 && seen > policy.rateLimitRpm then RateLimited(seen)
        else Admitted
  {
    hide Step, SecurityRuns.CountIn, SecurityRuns.BannedAt, SecurityRuns.Clocked;
    GateAnswers(policy, log, ip, banTime, rateTime);
  }

  lemma GateAnswers(policy: Policy, log: seq<Call>, ip: IpAddr, banTime: int, rateTime: int)
    requires SecurityRuns.Clocked(log) && SecurityRuns.NotAfter(log, banTime) && banTime <= rateTime
    ensures var t := SecurityRuns.Run(policy, log);
      var seen := SecurityRuns.CountIn(log, SecurityRuns.Http, ip, rateTime - 60_000_000_000, rateTime) + 1;
      var (t1, banned) := Step(policy, t, IsBlacklisted(ip, banTime));
      && banned == Flag(SecurityRuns.BannedAt(policy, log, ip, banTime))
      && Step(policy, t1, Call.Request(ip, rateTime)).1 ==
           (if policy.rateLimitRpm == 0 then Passed(0)
            else if seen > policy.rateLimitRpm then Refused(seen) else Passed(seen))
  {
    var ban := IsBlacklisted(ip, banTime);
    var cell := ManagerCell(policy, SecurityRuns.Run(policy, log), log);
    hide Step, SecurityRuns.CountIn, SecurityRuns.BannedAt, SecurityRuns.Run;
    BanAnswer(cell, ip, banTime);
    LogExtends(cell, ban, banTime);
    CountExtends(log, ban, SecurityRuns.Http, ip, rateTime - 60_000_000_000, rateTime);
    LimiterAnswer(ManagerCell(policy, Step(policy, cell.tables, ban).0, log + [ban]), ip, rateTime);
  }

  // ---- the limit is reached ----

  /** `n` requests at one instant, each let through to the limiter at once. */
  function Burst(ip: IpAddr, req: HttpRequest, n: nat): seq<Timed> {
    if n == 0 then []
    else Burst(ip, req, n - 1) + [Timed(0, Begin(n, req, ip)), Timed(0, CheckBan(n)), Timed(0, CheckRate(n))]
  }

  lemma {:induction false} BurstEvents(ip: IpAddr, req: HttpRequest, n: nat)
    ensures Instant(Burst(ip, req, n))
  {
    if n > 0 {
      BurstEvents(ip, req, n - 1);
    }
  }

  lemma {:induction false} BurstTasks(startup: ProxyConfig, ip: IpAddr, req: HttpRequest, n: nat)
    ensures forall id :: id in Run(startup, Burst(ip, req, n)).tasks ==> id <= n
  {
    if n > 0 {
      hide Run, Next, Burst;
      BurstTasks(startup, ip, req, n - 1);
      BurstUnfolds(ip, req, n);
      var b := Burst(ip, req, n - 1);
      ThreeTasks(startup, b, Timed(0, Begin(n, req, ip)), Timed(0, CheckBan(n)), Timed(0, CheckRate(n)));
    } else {
      assert Run(startup, []) == Start(startup);
    }
  }

  lemma ThreeTasks(startup: ProxyConfig, trace: seq<Timed>, e1: Timed, e2: Timed, e3: Timed)
    requires e1.event.Begin? && !e2.event.Begin? && !e3.event.Begin?
    ensures forall id :: id in Run(startup, trace + [e1, e2, e3]).tasks ==>
      id in Run(startup, trace).tasks || id == e1.event.id
  {
    hide Run, Next;
    RunThree(startup, trace, e1, e2, e3);
    var w := Run(startup, trace);
    BeginAdds(startup, w, e1);
    RequestStep(startup, Next(startup, w, e1), e2);
    RequestStep(startup, Next(startup, Next(startup, w, e1), e2), e3);
  }

  lemma BeginAdds(startup: ProxyConfig, w: World, e: Timed)
    requires e.event.Begin?
    ensures forall id :: id in Next(startup, w, e).tasks ==> id in w.tasks || id == e.event.id
  {
  }

  lemma BurstUnfolds(ip: IpAddr, req: HttpRequest, n: nat)
    requires n > 0
    ensures Burst(ip, req, n) ==
      Burst(ip, req, n - 1) + [Timed(0, Begin(n, req, ip)), Timed(0, CheckBan(n)), Timed(0, CheckRate(n))]
  {
  }

  lemma RunOne(startup: ProxyConfig, trace: seq<Timed>, e: Timed)
    ensures Run(startup, trace + [e]) == Next(startup, Run(startup, trace), e)
  {
    hide Next;
    assert (trace + [e])[..|trace|] == trace;
  }

  lemma RunThree(startup: ProxyConfig, trace: seq<Timed>, e1: Timed, e2: Timed, e3: Timed)
    ensures Run(startup, trace + [e1, e2, e3]) ==
      Next(startup, Next(startup, Next(startup, Run(startup, trace), e1), e2), e3)
  {
    hide Run, Next;
    RunOne(startup, trace, e1);
    RunOne(startup, trace + [e1], e2);
    RunOne(startup, trace + [e1] + [e2], e3);
    assert trace + [e1, e2, e3] == trace + [e1] + [e2] + [e3];
  }

  /** A request that begins waits for the ban check. */
  lemma NewTask(startup: ProxyConfig, trace: seq<Timed>, id: nat, req: HttpRequest, ip: IpAddr)
    requires id !in Run(startup, trace).tasks
    ensures var w := Run(startup, trace + [Timed(0, Begin(id, req, ip))]);
      HasTask(w, id, Loaded) && w.tasks[id].ip == ip
  {
    var t := trace + [Timed(0, Begin(id, req, ip))];
    RunOne(startup, trace, Timed(0, Begin(id, req, ip)));
    SharedInvariant(startup, t);
    assert SnapOk(startup, Run(startup, t), Run(startup, t).tasks[id].snap);
    hide Run;
  }

  lemma NoneTrips(startup: ProxyConfig, trace: seq<Timed>, ip: IpAddr, max: nat, j: nat)
    requires forall i :: 0 <= i < |trace| ==> !trace[i].event.TlsFailed?
    ensures !TripsAt(startup, trace, j, ip, max)
  {
  }

  /** Behind the ban check the request is the same. */
  lemma SameAddress(startup: ProxyConfig, trace: seq<Timed>, e: Timed)
    requires e.event.CheckBan? && e.event.id in Run(startup, trace).tasks
    ensures var w, w' := Run(startup, trace), Run(startup, trace + [e]);
      && e.event.id in w'.tasks && w'.tasks[e.event.id].ip == w.tasks[e.event.id].ip
      && w'.tasks[e.event.id].snap.manager < |w'.managers|
  {
    RunOne(startup, trace, e);
    SharedInvariant(startup, trace + [e]);
    StepFrame(startup, Run(startup, trace), e);
    hide Run, Next;
    var w' := Run(startup, trace + [e]);
    assert e.event.id in w'.tasks;
    assert SnapOk(startup, w', w'.tasks[e.event.id].snap);
  }

  lemma CountOne(startup: ProxyConfig, trace: seq<Timed>, e: Timed, ip: IpAddr, lo: int, hi: int)
    ensures RequestsIn(startup, trace + [e], ip, lo, hi) ==
      RequestsIn(startup, trace, ip, lo, hi) +
        (if lo <= e.now <= hi && AsksLimiter(Run(startup, trace), e, ip) then 1 else 0)
    ensures PassedIn(startup, trace + [e], ip, lo, hi) ==
      PassedIn(startup, trace, ip, lo, hi) +
        (if lo <= e.now <= hi && Passes(startup, Run(startup, trace), e, ip) then 1 else 0)
  {
    hide Run, Passes, AsksLimiter;
    assert (trace + [e])[..|trace|] == trace;
  }

  predicate Instant(trace: seq<Timed>) {
    forall i :: 0 <= i < |trace| ==> trace[i].now == 0 && !trace[i].event.TlsFailed?
  }

  lemma InstantGrows(trace: seq<Timed>, e: Timed)
    requires Instant(trace) && e.now == 0 && !e.event.TlsFailed?
    ensures Instant(trace + [e])
  {
  }

  lemma InstantIsClocked(trace: seq<Timed>)
    requires Instant(trace)
    ensures Clocked(trace) && NotAfter(trace, 0)
  {
  }

  /** A request asks the limiter at the instant of all others, and gets through while the limit allows it. */
  lemma OneMoreAsks(startup: ProxyConfig, trace: seq<Timed>, ip: IpAddr, id: nat, n: nat)
    requires Instant(trace) && n > 0 && (RateLimitOf(startup) == 0 || n <= RateLimitOf(startup))
    requires RequestsIn(startup, trace, ip, -60_000_000_000, 0) == n - 1
    requires AsksLimiter(Run(startup, trace), Timed(0, CheckRate(id)), ip)
    ensures var t := trace + [Timed(0, CheckRate(id))];
      && RequestsIn(startup, t, ip, -60_000_000_000, 0) == n
      && PassedIn(startup, t, ip, 0, 0) == PassedIn(startup, trace, ip, 0, 0) + 1
  {
    var e := Timed(0, CheckRate(id));
    hide Run, Next, RequestsIn, PassedIn, AsksLimiter, Passes, Instant, Clocked, NotAfter;
    InstantIsClocked(trace);
    CountOne(startup, trace, e, ip, -60_000_000_000, 0);
    CountOne(startup, trace, e, ip, 0, 0);
    RequestPassesIff(startup, trace, e, ip);
    AllowedPasses(startup, Run(startup, trace), e, ip);
  }

  /** One more request of the burst gets through while the limit allows it. */
  lemma OneMore(startup: ProxyConfig, ip: IpAddr, req: HttpRequest, n: nat)
    requires n > 0 && (RateLimitOf(startup) == 0 || n <= RateLimitOf(startup))
    requires RequestsIn(startup, Burst(ip, req, n - 1), ip, -60_000_000_000, 0) == n - 1
    ensures RequestsIn(startup, Burst(ip, req, n), ip, -60_000_000_000, 0) == n
    ensures PassedIn(startup, Burst(ip, req, n), ip, 0, 0) == PassedIn(startup, Burst(ip, req, n - 1), ip, 0, 0) + 1
  {
    hide Run, Burst, RequestsIn, PassedIn, AsksLimiter, Instant, RateLimitOf;
    var b, e1, e2 := Burst(ip, req, n - 1), Timed(0, Begin(n, req, ip)), Timed(0, CheckBan(n));
    BurstUnfolds(ip, req, n);
    assert Burst(ip, req, n) == b + [e1] + [e2] + [Timed(0, CheckRate(n))];
    BurstEvents(ip, req, n - 1);
    BurstTasks(startup, ip, req, n - 1);
    NewTask(startup, b, n, req, ip);
    InstantGrows(b, e1);
    InstantGrows(b + [e1], e2);
    PassesBan(startup, b + [e1], n, ip);
    CountTwo(startup, b, e1, e2, ip, -60_000_000_000, 0);
    CountTwo(startup, b, e1, e2, ip, 0, 0);
    OneMoreAsks(startup, b + [e1] + [e2], ip, n, n);
  }

  lemma AllowedPasses(startup: ProxyConfig, w: World, e: Timed, ip: IpAddr)
    requires AsksLimiter(w, e, ip) && e.event.id in Next(startup, w, e).tasks
    requires Next(startup, w, e).tasks[e.event.id].phase == Allowed
    ensures Passes(startup, w, e, ip)
  {
  }

  /** Events that do not ask the limiter are not counted. */
  lemma CountTwo(startup: ProxyConfig, trace: seq<Timed>, e1: Timed, e2: Timed, ip: IpAddr, lo: int, hi: int)
    requires !e1.event.CheckRate? && !e2.event.CheckRate?
    ensures RequestsIn(startup, trace + [e1] + [e2], ip, lo, hi) == RequestsIn(startup, trace, ip, lo, hi)
    ensures PassedIn(startup, trace + [e1] + [e2], ip, lo, hi) == PassedIn(startup, trace, ip, lo, hi)
  {
    hide Run, Next, RequestsIn, PassedIn;
    CountOne(startup, trace, e1, ip, lo, hi);
    CountOne(startup, trace + [e1], e2, ip, lo, hi);
  }

  lemma PassesBan(startup: ProxyConfig, trace: seq<Timed>, id: nat, ip: IpAddr)
    requires Instant(trace)
    requires HasTask(Run(startup, trace), id, Loaded) && Run(startup, trace).tasks[id].ip == ip
    ensures AsksLimiter(Run(startup, trace + [Timed(0, CheckBan(id))]), Timed(0, CheckRate(id)), ip)
  {
    hide Run, Next, TripsAt;
    var e := Timed(0, CheckBan(id));
    forall j: nat, max: nat ensures !TripsAt(startup, trace, j, ip, max) {
      NoneTrips(startup, trace, ip, max, j);
    }
    SystemBan(startup, trace, e);
    RunOne(startup, trace, e);
    SameAddress(startup, trace, e);
  }

  /** The limit is reached: a burst of as many requests as it allows gets through, and of any number when the limiter is
      off. */
  lemma {:induction false} LimitIsReached(startup: ProxyConfig, ip: IpAddr, req: HttpRequest, n: nat)
    requires var limit := if startup.security.Some? then startup.security.value.rateLimitRpm else 60;
      limit == 0 || n <= limit
    ensures PassedIn(startup, Burst(ip, req, n), ip, 0, 0) == n
    ensures RequestsIn(startup, Burst(ip, req, n), ip, -60_000_000_000, 0) == n
  {
    hide Run;
    if n > 0 {
      LimitIsReached(startup, ip, req, n - 1);
      OneMore(startup, ip, req, n);
    }
  }
}
