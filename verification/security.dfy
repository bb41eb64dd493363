/** The sliding-window limiter and ban table of src/security.rs.

    Times are nanoseconds of the monotonic clock. `Tables` is the content of the three hash maps;
    `Step` is one locked call on them; the class `SecurityManager` updates its maps in place. */
module Security {
  import opened Basics
  import opened Net

  const NANOS_PER_SEC := 1_000_000_000
  const ROLLING_WINDOW := 60 * NANOS_PER_SEC

  datatype Policy = Policy(banDuration: nat, maxTlsFailures: nat, rateLimitRpm: nat)

  const DEFAULT_POLICY := Policy(3600 * NANOS_PER_SEC, 5, 60)

  type Stamps = map<IpAddr, seq<int>>

  datatype Tables = Tables(tls: Stamps, requests: Stamps, bans: map<IpAddr, int>)

  const NO_TABLES := Tables(map[], map[], map[])

  datatype Call =
    | TlsFailure(ip: IpAddr, now: int)
    | Request(ip: IpAddr, now: int)
    | IsBlacklisted(ip: IpAddr, now: int)
    | FailureCount(ip: IpAddr, now: int)
    | AddToBlacklist(ip: IpAddr, now: int)

  datatype Answer = Flag(yes: bool) | Passed(count: nat) | Refused(count: nat) | Count(n: nat) | Done

  /** `now.duration_since(t) <= ROLLING_WINDOW`; the duration is zero for a later `t`. */
  predicate Recent(t: int, now: int) {
    t > now || now - t <= ROLLING_WINDOW
  }

  /** `Vec::retain` of the recent timestamps. */
  function Retain(ts: seq<int>, now: int): (r: seq<int>)
    ensures forall i :: 0 <= i < |r| ==> Recent(r[i], now)
  {
    if ts == [] then []
    else if Recent(ts[0], now) then [ts[0]] + Retain(ts[1..], now)
    else Retain(ts[1..], now)
  }

  function At(m: Stamps, ip: IpAddr): seq<int> {
    if ip in m then m[ip] else []
  }

  /** `HashMap::retain` in `cleanup`: prune every list, drop the addresses left with none. */
  function RetainAll(m: Stamps, now: int): Stamps {
    map ip | ip in m && Retain(m[ip], now) != [] :: Retain(m[ip], now)
  }

  function Cleanup(t: Tables, now: int): Tables {
    Tables(RetainAll(t.tls, now), RetainAll(t.requests, now), map ip | ip in t.bans && now < t.bans[ip] :: t.bans[ip])
  }

  /** Prune one address's list and append the current instant. */
  function Record(m: Stamps, ip: IpAddr, now: int): Stamps {
    m[ip := Retain(At(m, ip), now) + [now]]
  }

  function Step(policy: Policy, t: Tables, c: Call): (Tables, Answer) {
    match c
    case TlsFailure(ip, now) =>
      var t' := Cleanup(t, now);
      var tls := Record(t'.tls, ip, now);
      if |tls[ip]| > policy.maxTlsFailures then
        (t'.(tls := tls, bans := t'.bans[ip := now + policy.banDuration]), Flag(true))
      else (t'.(tls := tls), Flag(false))
    case Request(ip, now) =>
      var t' := Cleanup(t, now);
      if policy.rateLimitRpm == 0 then (t', Passed(0))
      else
        var requests := Record(t'.requests, ip, now);
        var count := |requests[ip]|;
        (t'.(requests := requests), if count > policy.rateLimitRpm then Refused(count) else Passed(count))
    case IsBlacklisted(ip, now) =>
      if ip in t.bans && now < t.bans[ip] then (t, Flag(true))
      else (t.(bans := t.bans - {ip}), Flag(false))
    case FailureCount(ip, now) =>
      var kept := Retain(At(t.tls, ip), now);
      (t.(tls := if kept == [] then t.tls - {ip} else t.tls[ip := kept]), Count(|kept|))
    case AddToBlacklist(ip, now) =>
      (t.(bans := t.bans[ip := now + policy.banDuration]), Done)
  }

  class SecurityManager {
    const policy: Policy
    var tlsFailures: Stamps
    var requestTracker: Stamps
    var blacklist: map<IpAddr, int>

    ghost function Value(): Tables
      reads this
    {
      Tables(tlsFailures, requestTracker, blacklist)
    }

    constructor (policy: Policy)
      ensures this.policy == policy && Value() == NO_TABLES
    {
      this.policy := policy;
      tlsFailures, requestTracker, blacklist := map[], map[], map[];
    }

    /** Drops expired bans and timestamps; right after it only timestamps within the window remain. */
    method DoCleanup(now: int)
      modifies this
      ensures Value() == Cleanup(old(Value()), now)
      ensures forall ip :: ip in tlsFailures ==>
        tlsFailures[ip] != [] && forall t :: t in tlsFailures[ip] ==> Recent(t, now)
      ensures forall ip :: ip in requestTracker ==>
        requestTracker[ip] != [] && forall t :: t in requestTracker[ip] ==> Recent(t, now)
      ensures forall ip :: ip in blacklist ==> now < blacklist[ip]
    {
      blacklist := map ip | ip in blacklist && now < blacklist[ip] :: blacklist[ip];
      tlsFailures := RetainAll(tlsFailures, now);
      requestTracker := RetainAll(requestTracker, now);
    }

    /** True when this failure makes it more than `maxTlsFailures` within the window. */
    method RecordTlsFailure(ip: IpAddr, now: int) returns (banned: bool)
      modifies this
      ensures (Value(), Flag(banned)) == Step(policy, old(Value()), TlsFailure(ip, now))
    {
      DoCleanup(now);
      var failures := Retain(At(tlsFailures, ip), now) + [now];
      tlsFailures := tlsFailures[ip := failures];
      if |failures| > policy.maxTlsFailures {
        blacklist := blacklist[ip := now + policy.banDuration];
        return true;
      }
      return false;
    }

    /** A refused request is recorded as well. */
    method CheckAndRecordRequest(ip: IpAddr, now: int) returns (r: Result<nat, nat>)
      modifies this
      ensures Value() == Step(policy, old(Value()), Request(ip, now)).0
      ensures (match r case Ok(n) => Passed(n) case Err(n) => Refused(n)) ==
        Step(policy, old(Value()), Request(ip, now)).1
    {
      DoCleanup(now);
      if policy.rateLimitRpm == 0 {
        return Ok(0);
      }
      var requests := Retain(At(requestTracker, ip), now) + [now];
      requestTracker := requestTracker[ip := requests];
      if |requests| > policy.rateLimitRpm {
        return Err(|requests|);
      }
      return Ok(|requests|);
    }

    /** An expired ban found on the way is removed. */
    method CheckBlacklisted(ip: IpAddr, now: int) returns (banned: bool)
      modifies this
      ensures (Value(), Flag(banned)) == Step(policy, old(Value()), IsBlacklisted(ip, now))
    {
      if ip in blacklist {
        if now < blacklist[ip] {
          return true;
        }
        blacklist := blacklist - {ip};
      }
      assert blacklist == old(blacklist) - {ip};
      return false;
    }

    method GetTlsFailureCount(ip: IpAddr, now: int) returns (count: nat)
      modifies this
      ensures (Value(), Count(count)) == Step(policy, old(Value()), FailureCount(ip, now))
    {
      if ip in tlsFailures {
        var failures := Retain(tlsFailures[ip], now);
        tlsFailures := tlsFailures[ip := failures];
        count := |failures|;
        if count == 0 {
          tlsFailures := tlsFailures - {ip};
          assert tlsFailures == old(tlsFailures) - {ip};
        }
        return;
      }
      assert tlsFailures == tlsFailures - {ip};
      return 0;
    }

    method Blacklist(ip: IpAddr, now: int)
      modifies this
      ensures (Value(), Done) == Step(policy, old(Value()), AddToBlacklist(ip, now))
    {
      blacklist := blacklist[ip := now + policy.banDuration];
    }
  }
}

/** Whole runs of the manager under a non-decreasing clock. */
module SecurityRuns {
  import opened Basics
  import opened Net
  import opened Security

  function Run(policy: Policy, log: seq<Call>): Tables {
    if log == [] then NO_TABLES
    else Step(policy, Run(policy, log[..|log| - 1]), log[|log| - 1]).0
  }

  predicate Clocked(log: seq<Call>) {
    forall i, j :: 0 <= i < j < |log| ==> log[i].now <= log[j].now
  }

  /** The answer the run's `i`-th call returns. */
  function AnswerAt(policy: Policy, log: seq<Call>, i: nat): Answer
    requires i < |log|
  {
    Step(policy, Run(policy, log[..i]), log[i]).1
  }

  // ---- the reference: answers computed from the full, never pruned log ----

  datatype Kind = Tls | Http

  predicate IsEvent(c: Call, kind: Kind, ip: IpAddr) {
    c.ip == ip && (if kind == Tls then c.TlsFailure? else c.Request?)
  }

  /** How many events of `kind` for `ip` the log has in the closed interval from `lo` to `hi`. */
  function CountIn(log: seq<Call>, kind: Kind, ip: IpAddr, lo: int, hi: int): nat {
    if log == [] then 0
    else
      var c := log[|log| - 1];
      CountIn(log[..|log| - 1], kind, ip, lo, hi) + (if IsEvent(c, kind, ip) && lo <= c.now <= hi then 1 else 0)
  }

  /** Events of the last minute, the newest call included. */
  function InWindow(log: seq<Call>, kind: Kind, ip: IpAddr, now: int): nat {
    CountIn(log, kind, ip, now - ROLLING_WINDOW, now)
  }

  /** The `i`-th call bans its address: by hand, or as one failure too many within the window. */
  predicate Bans(policy: Policy, log: seq<Call>, i: nat)
    requires i < |log|
  {
    log[i].AddToBlacklist? ||
    (log[i].TlsFailure? && InWindow(log[..i + 1], Tls, log[i].ip, log[i].now) > policy.maxTlsFailures)
  }

  /** Some ban of `ip` in the log is in force at `t`. */
  predicate BannedAt(policy: Policy, log: seq<Call>, ip: IpAddr, t: int) {
    exists i :: 0 <= i < |log| && Bans(policy, log, i) && log[i].ip == ip &&
      log[i].now <= t < log[i].now + policy.banDuration
  }

  function Reference(policy: Policy, log: seq<Call>, i: nat): Answer
    requires i < |log|
  {
    var c := log[i];
    match c
    case TlsFailure(ip, now) => Flag(InWindow(log[..i + 1], Tls, ip, now) > policy.maxTlsFailures)
    case Request(ip, now) =>
      var n := InWindow(log[..i + 1], Http, ip, now);
      if policy.rateLimitRpm == 0 then Passed(0)
      else if n > policy.rateLimitRpm then Refused(n) else Passed(n)
    case IsBlacklisted(ip, now) => Flag(BannedAt(policy, log[..i], ip, now))
    case FailureCount(ip, now) => Count(InWindow(log[..i], Tls, ip, now))
    case AddToBlacklist(_, _) => Done
  }

  // ---- pruning is invisible ----

  lemma {:induction false} RetainAppend(a: seq<int>, b: seq<int>, now: int)
    ensures Retain(a + b, now) == Retain(a, now) + Retain(b, now)
  {
    if a == [] {
      assert a + b == b;
    } else {
      assert (a + b)[1..] == a[1..] + b;
      RetainAppend(a[1..], b, now);
    }
  }

  /** Pruning early does not change what a later pruning leaves. */
  lemma {:induction false} RetainTwice(ts: seq<int>, early: int, late: int)
    requires early <= late
    ensures Retain(Retain(ts, early), late) == Retain(ts, late)
  {
    if ts != [] {
      RetainTwice(ts[1..], early, late);
    }
  }

  function Times(log: seq<Call>, kind: Kind, ip: IpAddr): seq<int> {
    if log == [] then []
    else
      var c := log[|log| - 1];
      Times(log[..|log| - 1], kind, ip) + (if IsEvent(c, kind, ip) then [c.now] else [])
  }

  function StampsOf(t: Tables, kind: Kind): Stamps {
    if kind == Tls then t.tls else t.requests
  }

  predicate NotAfter(log: seq<Call>, now: int) {
    forall i :: 0 <= i < |log| ==> log[i].now <= now
  }

  lemma RetainAllAt(m: Stamps, ip: IpAddr, now: int)
    ensures At(RetainAll(m, now), ip) == Retain(At(m, ip), now)
    ensures ip in RetainAll(m, now) <==> Retain(At(m, ip), now) != []
  {
  }

  /** A call leaves an address's list alone or prunes it, and appends the instant of its own event. */
  lemma StepStamps(policy: Policy, t: Tables, c: Call, kind: Kind, ip: IpAddr)
    requires kind == Http ==> policy.rateLimitRpm != 0
    ensures var before, after := At(StampsOf(t, kind), ip), At(StampsOf(Step(policy, t, c).0, kind), ip);
      || (after == before && !IsEvent(c, kind, ip))
      || after == Retain(before, c.now) + (if IsEvent(c, kind, ip) then [c.now] else [])
  {
    var m := StampsOf(t, kind);
    RetainAllAt(m, ip, c.now);
    RetainTwice(At(m, ip), c.now, c.now);
    RecordAt(RetainAll(m, c.now), c.ip, c.now, ip);
    hide Retain, RetainAll, Record;
  }

  lemma RecordAt(m: Stamps, ip: IpAddr, now: int, other: IpAddr)
    ensures At(Record(m, ip, now), other) == if other == ip then Retain(At(m, ip), now) + [now] else At(m, other)
  {
  }

  lemma {:induction false} StampsTrackLog(policy: Policy, log: seq<Call>, kind: Kind, ip: IpAddr, now: int)
    requires NotAfter(log, now)
    requires kind == Http ==> policy.rateLimitRpm != 0
    ensures Retain(At(StampsOf(Run(policy, log), kind), ip), now) == Retain(Times(log, kind, ip), now)
  {
    if log != [] {
      var before, c := log[..|log| - 1], log[|log| - 1];
      StampsTrackLog(policy, before, kind, ip, now);
      StepStamps(policy, Run(policy, before), c, kind, ip);
      var own := if IsEvent(c, kind, ip) then [c.now] else [];
      var stamps := At(StampsOf(Run(policy, before), kind), ip);
      RetainAppend(Retain(stamps, c.now), own, now);
      RetainTwice(stamps, c.now, now);
      RetainAppend(Times(before, kind, ip), own, now);
    }
  }

  lemma {:induction false} TimesCount(log: seq<Call>, kind: Kind, ip: IpAddr, now: int)
    requires NotAfter(log, now)
    ensures |Retain(Times(log, kind, ip), now)| == InWindow(log, kind, ip, now)
  {
    if log != [] {
      var before, c := log[..|log| - 1], log[|log| - 1];
      TimesCount(before, kind, ip, now);
      RetainAppend(Times(before, kind, ip), if IsEvent(c, kind, ip) then [c.now] else [], now);
    }
  }

  /** The length of a pruned list is the number of logged events in the window. */
  lemma PrunedCount(policy: Policy, log: seq<Call>, kind: Kind, ip: IpAddr, now: int)
    requires NotAfter(log, now)
    requires kind == Http ==> policy.rateLimitRpm != 0
    ensures |Retain(At(StampsOf(Run(policy, log), kind), ip), now)| == InWindow(log, kind, ip, now)
  {
    StampsTrackLog(policy, log, kind, ip, now);
    TimesCount(log, kind, ip, now);
  }

  /** The list a recording call leaves has one element per logged event in the window. */
  lemma {:induction false} RecordedCount(policy: Policy, log: seq<Call>, c: Call, kind: Kind)
    requires NotAfter(log, c.now) && IsEvent(c, kind, c.ip)
    requires kind == Http ==> policy.rateLimitRpm != 0
    ensures var cleaned := StampsOf(Cleanup(Run(policy, log), c.now), kind);
      |Record(cleaned, c.ip, c.now)[c.ip]| == InWindow(log + [c], kind, c.ip, c.now)
  {
    var m := StampsOf(Run(policy, log), kind);
    RetainAllAt(m, c.ip, c.now);
    RetainTwice(At(m, c.ip), c.now, c.now);
    PrunedCount(policy, log, kind, c.ip, c.now);
    assert (log + [c])[..|log|] == log;
  }

  // ---- bans ----

  function LastBan(policy: Policy, log: seq<Call>, ip: IpAddr): Option<int> {
    if log == [] then None
    else if Bans(policy, log, |log| - 1) && log[|log| - 1].ip == ip then Some(log[|log| - 1].now)
    else LastBan(policy, log[..|log| - 1], ip)
  }

  /** The table holds the expiry of the latest ban, unless that ban is over. */
  predicate BanTracked(policy: Policy, bans: map<IpAddr, int>, last: Option<int>, ip: IpAddr, now: int) {
    if ip in bans then last.Some? && bans[ip] == last.value + policy.banDuration
    else last.Some? ==> last.value + policy.banDuration <= now
  }

  /** What one call does to the ban of one address. */
  lemma BanStep(policy: Policy, t: Tables, c: Call, ip: IpAddr)
    ensures var (t', answer) := Step(policy, t, c);
      if c.ip == ip && (c.AddToBlacklist? || (c.TlsFailure? && answer == Flag(true))) then
        ip in t'.bans && t'.bans[ip] == c.now + policy.banDuration
      else if ip in t'.bans then ip in t.bans && t'.bans[ip] == t.bans[ip]
      else ip in t.bans ==> t.bans[ip] <= c.now
  {
    hide Record, RetainAll;
  }

  lemma {:induction false} BansTrackLog(policy: Policy, log: seq<Call>, ip: IpAddr, now: int)
    requires Clocked(log) && NotAfter(log, now)
    ensures BanTracked(policy, Run(policy, log).bans, LastBan(policy, log, ip), ip, now)
  {
    if log != [] {
      var before, c := log[..|log| - 1], log[|log| - 1];
      BansTrackLog(policy, before, ip, c.now);
      BanStep(policy, Run(policy, before), c, ip);
      BansIffAnswer(policy, log);
      hide Step, Bans;
    }
  }

  /** The last call bans its address exactly when it is a manual ban or is answered with true. */
  lemma BansIffAnswer(policy: Policy, log: seq<Call>)
    requires log != [] && NotAfter(log, log[|log| - 1].now)
    ensures var c := log[|log| - 1];
      Bans(policy, log, |log| - 1) <==>
        c.AddToBlacklist? || (c.TlsFailure? && Step(policy, Run(policy, log[..|log| - 1]), c).1 == Flag(true))
  {
    var before, c := log[..|log| - 1], log[|log| - 1];
    if c.TlsFailure? {
      RecordedCount(policy, before, c, Tls);
      assert before + [c] == log == log[..|log|];
    }
    hide InWindow, Retain, RetainAll;
  }

  lemma BansPrefix(policy: Policy, log: seq<Call>, i: nat)
    requires i < |log| - 1
    ensures Bans(policy, log, i) == Bans(policy, log[..|log| - 1], i)
  {
    assert log[..|log| - 1][..i + 1] == log[..i + 1];
  }

  /** Only the latest ban matters: earlier ones end no later. */
  lemma {:induction false} LatestBanDecides(policy: Policy, log: seq<Call>, ip: IpAddr, t: int)
    requires Clocked(log) && NotAfter(log, t)
    ensures BannedAt(policy, log, ip, t) <==>
      LastBan(policy, log, ip).Some? && t < LastBan(policy, log, ip).value + policy.banDuration
    ensures LastBan(policy, log, ip).Some? ==> NotBeforeBans(policy, log, ip, LastBan(policy, log, ip).value)
  {
    hide Bans;
    if log != [] {
      var before, last := log[..|log| - 1], |log| - 1;
      LatestBanDecides(policy, before, ip, t);
      forall i | 0 <= i < last ensures Bans(policy, log, i) == Bans(policy, before, i) {
        BansPrefix(policy, log, i);
      }
      BannedAtExtends(policy, log, ip, t);
    }
  }

  /** A ban in force is one of the earlier calls or the last one. */
  lemma BannedAtExtends(policy: Policy, log: seq<Call>, ip: IpAddr, t: int)
    requires log != []
    ensures var c := log[|log| - 1];
      BannedAt(policy, log, ip, t) <==>
        BannedAt(policy, log[..|log| - 1], ip, t) ||
        (Bans(policy, log, |log| - 1) && c.ip == ip && c.now <= t < c.now + policy.banDuration)
  {
    hide Bans;
    var before := log[..|log| - 1];
    forall i | 0 <= i < |before| ensures Bans(policy, log, i) == Bans(policy, before, i) {
      BansPrefix(policy, log, i);
    }
    if BannedAt(policy, before, ip, t) {
      var i :| 0 <= i < |before| && Bans(policy, before, i) && before[i].ip == ip &&
        before[i].now <= t < before[i].now + policy.banDuration;
      assert Bans(policy, log, i) && log[i] == before[i];
    }
  }

  predicate NotBeforeBans(policy: Policy, log: seq<Call>, ip: IpAddr, b: int) {
    forall i :: 0 <= i < |log| && Bans(policy, log, i) && log[i].ip == ip ==> log[i].now <= b
  }

  // ---- the main results ----

  /** Every answer of every run equals the one computed from the full, never pruned history. */
  lemma AnswersMatchHistory(policy: Policy, log: seq<Call>, i: nat)
    requires Clocked(log) && i < |log|
    ensures AnswerAt(policy, log, i) == Reference(policy, log, i)
  {
    var before, c := log[..i], log[i];
    assert before + [c] == log[..i + 1];
    match c
    case TlsFailure(ip, now) => RecordedCount(policy, before, c, Tls);
    case Request(ip, now) =>
      if policy.rateLimitRpm != 0 {
        RecordedCount(policy, before, c, Http);
      }
    case IsBlacklisted(ip, now) =>
      BansTrackLog(policy, before, ip, now);
      LatestBanDecides(policy, before, ip, now);
    case FailureCount(ip, now) => PrunedCount(policy, before, Tls, ip, now);
    case AddToBlacklist(_, _) =>
  }

  /** How many requests of `ip` between `lo` and `hi` the limiter let pass. */
  function PassedIn(policy: Policy, log: seq<Call>, ip: IpAddr, lo: int, hi: int): nat {
    if log == [] then 0
    else
      var c := log[|log| - 1];
      PassedIn(policy, log[..|log| - 1], ip, lo, hi) +
      (if IsEvent(c, Http, ip) && lo <= c.now <= hi && AnswerAt(policy, log, |log| - 1).Passed? then 1 else 0)
  }

  lemma {:induction false} PassedWereRecorded(policy: Policy, log: seq<Call>, ip: IpAddr, lo: int, hi: int)
    ensures PassedIn(policy, log, ip, lo, hi) <= CountIn(log, Http, ip, lo, hi)
  {
    if log != [] {
      PassedWereRecorded(policy, log[..|log| - 1], ip, lo, hi);
    }
  }

  lemma {:induction false} CountWidens(log: seq<Call>, kind: Kind, ip: IpAddr, lo: int, hi: int, lo': int, hi': int)
    requires lo' <= lo
    requires NotAfter(log, hi')
    ensures CountIn(log, kind, ip, lo, hi) <= CountIn(log, kind, ip, lo', hi')
  {
    if log != [] {
      CountWidens(log[..|log| - 1], kind, ip, lo, hi, lo', hi');
    }
  }

  /** At most `rateLimitRpm` requests of one address pass in any closed interval of one minute. */
  lemma {:induction false} RateBound(policy: Policy, log: seq<Call>, ip: IpAddr, lo: int, hi: int)
    requires Clocked(log) && policy.rateLimitRpm != 0 && hi - lo <= ROLLING_WINDOW
    ensures PassedIn(policy, log, ip, lo, hi) <= policy.rateLimitRpm
  {
    hide Run, Step;
    if log != [] {
      var c := log[|log| - 1];
      RateBound(policy, log[..|log| - 1], ip, lo, hi);
      if IsEvent(c, Http, ip) && lo <= c.now <= hi && AnswerAt(policy, log, |log| - 1).Passed? {
        AnswersMatchHistory(policy, log, |log| - 1);
        assert log[..|log|] == log;
        PassedWereRecorded(policy, log, ip, lo, hi);
        CountWidens(log, Http, ip, lo, hi, c.now - ROLLING_WINDOW, c.now);
        hide CountIn, PassedIn, AnswerAt;
      }
    }
  }

  /** Some closed interval of at most one minute holds more failures of `ip` than allowed. */
  ghost predicate Burst(policy: Policy, log: seq<Call>, ip: IpAddr) {
    exists lo, hi :: hi - lo <= ROLLING_WINDOW && CountIn(log, Tls, ip, lo, hi) > policy.maxTlsFailures
  }

  predicate TriggersAt(policy: Policy, log: seq<Call>, i: nat, ip: IpAddr)
    requires i < |log|
  {
    log[i].TlsFailure? && log[i].ip == ip && AnswerAt(policy, log, i) == Flag(true)
  }

  lemma {:induction false} BurstTriggers(policy: Policy, log: seq<Call>, ip: IpAddr, lo: int, hi: int) returns (i: nat)
    requires Clocked(log) && hi - lo <= ROLLING_WINDOW && CountIn(log, Tls, ip, lo, hi) > policy.maxTlsFailures
    ensures i < |log| && TriggersAt(policy, log, i, ip)
  {
    i := |log| - 1;
    var c := log[i];
    if IsEvent(c, Tls, ip) && lo <= c.now <= hi {
      AnswersMatchHistory(policy, log, i);
      assert log[..|log|] == log;
      CountWidens(log, Tls, ip, lo, hi, c.now - ROLLING_WINDOW, c.now);
    } else {
      i := BurstTriggers(policy, log[..i], ip, lo, hi);
      assert log[..|log| - 1][..i] == log[..i];
    }
  }

  lemma {:induction false} CountPrefix(log: seq<Call>, i: nat, kind: Kind, ip: IpAddr, lo: int, hi: int)
    requires i <= |log|
    ensures CountIn(log[..i], kind, ip, lo, hi) <= CountIn(log, kind, ip, lo, hi)
  {
    if i == |log| {
      assert log[..i] == log;
    } else {
      assert log[..|log| - 1][..i] == log[..i];
      CountPrefix(log[..|log| - 1], i, kind, ip, lo, hi);
    }
  }

  lemma TriggerIsBurst(policy: Policy, log: seq<Call>, i: nat, ip: IpAddr)
    requires Clocked(log) && i < |log| && TriggersAt(policy, log, i, ip)
    ensures Burst(policy, log, ip)
  {
    hide CountIn, AnswerAt;
    AnswersMatchHistory(policy, log, i);
    var hi := log[i].now;
    CountPrefix(log, i + 1, Tls, ip, hi - ROLLING_WINDOW, hi);
  }

  /** An automatic ban happens in a run exactly when some minute holds more failures than allowed. */
  lemma TriggeredIffBurst(policy: Policy, log: seq<Call>, ip: IpAddr)
    requires Clocked(log)
    ensures (exists i :: 0 <= i < |log| && TriggersAt(policy, log, i, ip)) <==> Burst(policy, log, ip)
  {
    hide CountIn, TriggersAt;
    if i :| 0 <= i < |log| && TriggersAt(policy, log, i, ip) {
      TriggerIsBurst(policy, log, i, ip);
    }
    if Burst(policy, log, ip) {
      var lo, hi :| hi - lo <= ROLLING_WINDOW && CountIn(log, Tls, ip, lo, hi) > policy.maxTlsFailures;
      var i := BurstTriggers(policy, log, ip, lo, hi);
    }
  }

  /** Nothing moves an address's ban expiry to an earlier instant while that ban is in force. */
  lemma ExpiryNeverEarlier(policy: Policy, log: seq<Call>, c: Call, ip: IpAddr)
    requires Clocked(log) && NotAfter(log, c.now)
    requires ip in Run(policy, log).bans && c.now < Run(policy, log).bans[ip]
    ensures var bans := Step(policy, Run(policy, log), c).0.bans;
      ip in bans && Run(policy, log).bans[ip] <= bans[ip]
  {
    BansTrackLog(policy, log, ip, c.now);
    LatestBanDecides(policy, log, ip, c.now);
    LastBanLogged(policy, log, ip);
  }

  lemma {:induction false} LastBanLogged(policy: Policy, log: seq<Call>, ip: IpAddr)
    ensures LastBan(policy, log, ip).Some? ==>
      exists i :: 0 <= i < |log| && log[i].now == LastBan(policy, log, ip).value
  {
    if log != [] {
      LastBanLogged(policy, log[..|log| - 1], ip);
    }
  }

  // ---- the tables at rest ----

  predicate Sorted(ts: seq<int>) {
    forall i, j :: 0 <= i < j < |ts| ==> ts[i] <= ts[j]
  }

  /** Every stored list is non-empty, sorted and not in the future. */
  predicate Tidy(m: Stamps, now: int) {
    forall ip :: ip in m ==> m[ip] != [] && Sorted(m[ip]) && forall i :: 0 <= i < |m[ip]| ==> m[ip][i] <= now
  }

  lemma {:induction false} RetainSorted(ts: seq<int>, now: int, bound: int)
    requires Sorted(ts) && forall i :: 0 <= i < |ts| ==> ts[i] <= bound
    ensures Sorted(Retain(ts, now)) && forall i :: 0 <= i < |Retain(ts, now)| ==> Retain(ts, now)[i] <= bound
    ensures ts != [] ==> forall i :: 0 <= i < |Retain(ts, now)| ==> ts[0] <= Retain(ts, now)[i]
  {
    if ts != [] {
      RetainSorted(ts[1..], now, bound);
    }
  }

  lemma CleanupTidy(m: Stamps, now: int)
    requires Tidy(m, now)
    ensures Tidy(RetainAll(m, now), now)
  {
    forall ip | ip in m
      ensures Sorted(Retain(m[ip], now)) && forall i :: 0 <= i < |Retain(m[ip], now)| ==> Retain(m[ip], now)[i] <= now
    {
      RetainSorted(m[ip], now, now);
    }
  }

  lemma RecordTidy(m: Stamps, ip: IpAddr, now: int)
    requires Tidy(m, now)
    ensures Tidy(Record(m, ip, now), now)
    ensures Retain(At(m, ip), now) != [] ==> Tidy(m[ip := Retain(At(m, ip), now)], now)
  {
    RetainSorted(At(m, ip), now, now);
  }

  lemma {:induction false} TidyLater(m: Stamps, now: int, later: int)
    requires Tidy(m, now) && now <= later
    ensures Tidy(m, later)
  {
  }

  lemma StepTidy(policy: Policy, t: Tables, c: Call)
    requires Tidy(t.tls, c.now) && Tidy(t.requests, c.now)
    ensures var t' := Step(policy, t, c).0; Tidy(t'.tls, c.now) && Tidy(t'.requests, c.now)
  {
    CleanupTidy(t.tls, c.now);
    CleanupTidy(t.requests, c.now);
    RecordTidy(RetainAll(t.tls, c.now), c.ip, c.now);
    RecordTidy(RetainAll(t.requests, c.now), c.ip, c.now);
    RecordTidy(t.tls, c.ip, c.now);
  }

  /** Between calls every stored list is sorted and non-empty. */
  lemma {:induction false} TablesStayTidy(policy: Policy, log: seq<Call>, now: int)
    requires Clocked(log) && NotAfter(log, now)
    ensures Tidy(Run(policy, log).tls, now) && Tidy(Run(policy, log).requests, now)
  {
    if log != [] {
      var before, c := log[..|log| - 1], log[|log| - 1];
      TablesStayTidy(policy, before, c.now);
      StepTidy(policy, Run(policy, before), c);
      TidyLater(Run(policy, log).tls, c.now, now);
      TidyLater(Run(policy, log).requests, c.now, now);
    }
  }
}
