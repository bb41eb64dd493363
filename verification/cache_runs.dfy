/** Whole runs of the cache engine: byte conservation, agreement with a simple map, exact LRU order. */
module CacheRuns {
  import opened Basics
  import opened Cache
  import Text

  datatype Op =
    | Get(key: string, now: int)
    | Insert(key: string, asset: Asset)

  function Apply(limits: Limits, s: State, op: Op): State {
    match op
    case Get(key, now) => GetStep(s, key, now).0
    case Insert(key, asset) => InsertStep(limits, s, key, asset).0
  }

  function Run(limits: Limits, ops: seq<Op>): State {
    if ops == [] then EMPTY
    else Apply(limits, Run(limits, ops[..|ops| - 1]), ops[|ops| - 1])
  }

  /** The state right before the operation at index `i`. */
  function Before(limits: Limits, ops: seq<Op>, i: nat): State
    requires i <= |ops|
  {
    Run(limits, ops[..i])
  }

  predicate Inserts(limits: Limits, s: State, op: Op, k: string) {
    op.Insert? && op.key == k && InsertStep(limits, s, k, op.asset).1.inserted
  }

  /** The simple map: for each key, the asset of its latest successful insert. */
  function Latest(limits: Limits, ops: seq<Op>, k: string): Option<Asset> {
    if ops == [] then None
    else
      var before, op := ops[..|ops| - 1], ops[|ops| - 1];
      if Inserts(limits, Run(limits, before), op, k) then Some(op.asset) else Latest(limits, before, k)
  }

  /** An operation uses a key when it finds it or stores it. */
  predicate Touches(limits: Limits, s: State, op: Op, k: string) {
    Inserts(limits, s, op, k) || (op.Get? && op.key == k && Has(s.entries, k))
  }

  /** One more than the index of the last operation that used `k`, or zero. */
  function LastTouch(limits: Limits, ops: seq<Op>, k: string): (t: nat)
    ensures t <= |ops|
  {
    if ops == [] then 0
    else if Touches(limits, Run(limits, ops[..|ops| - 1]), ops[|ops| - 1], k) then |ops|
    else LastTouch(limits, ops[..|ops| - 1], k)
  }

  /** Byte conservation over every run: counter = live bytes + displaced bytes <= capacity. */
  lemma {:induction false} RunConserves(limits: Limits, ops: seq<Op>)
    requires limits.maxEntries > 0
    ensures Conserved(limits, Run(limits, ops))
  {
    if ops != [] {
      var before, op := ops[..|ops| - 1], ops[|ops| - 1];
      RunConserves(limits, before);
      ApplyConserves(limits, Run(limits, before), op);
    }
  }

  lemma ApplyConserves(limits: Limits, s: State, op: Op)
    requires limits.maxEntries > 0 && Conserved(limits, s)
    ensures Conserved(limits, Apply(limits, s, op))
    ensures s.displaced <= Apply(limits, s, op).displaced
  {
    match op
    case Get(key, now) => GetKeepsValid(limits, s, key, now);
    case Insert(key, asset) =>
      if asset.sizeBytes <= limits.maxFileSize && asset.sizeBytes <= limits.maxCapacity {
        StoreKeepsValid(limits, s, key, asset);
      }
  }

  /** What one operation does to the entry of one key. */
  lemma ApplyLookup(limits: Limits, s: State, op: Op, k: string)
    requires DistinctKeys(s.entries)
    ensures var t := Apply(limits, s, op);
      && (Inserts(limits, s, op, k) ==> Lookup(t.entries, k) == Some(op.asset))
      && (!Inserts(limits, s, op, k) ==> Lookup(t.entries, k) == Lookup(s.entries, k) || Lookup(t.entries, k) == None)
      && (op.Get? && Has(s.entries, k) && !Has(t.entries, k) ==> Expired(Lookup(s.entries, k).value, op.now))
  {
    hide IndexOf, Without, Put, Size, EvictCount, EvictCounter, DistinctKeys, Displaces, SaturatingSub;
    match op
    case Get(key, now) =>
      LookupWithout(s.entries, key, k);
      LookupWithout(s.entries, key, key);
      if Has(s.entries, key) {
        LookupAppend(Without(s.entries, key), Entry(key, Lookup(s.entries, key).value), k);
      }
    case Insert(key, asset) =>
      var n := EvictCount(limits, s.entries, s.counter, asset.sizeBytes);
      LookupSuffix(s.entries, n, k);
      PutLookup(limits, s.entries[n..], key, asset, k);
  }

  /** A stored asset is always the one of the latest successful insert. */
  lemma {:induction false} StoredIsLatest(limits: Limits, ops: seq<Op>, k: string)
    requires limits.maxEntries > 0
    ensures Has(Run(limits, ops).entries, k) ==> Lookup(Run(limits, ops).entries, k) == Latest(limits, ops, k)
  {
    if ops != [] {
      var before, op := ops[..|ops| - 1], ops[|ops| - 1];
      StoredIsLatest(limits, before, k);
      RunConserves(limits, before);
      ApplyLookup(limits, Run(limits, before), op, k);
    }
  }

  lemma {:induction false} LatestIsLogged(limits: Limits, ops: seq<Op>, k: string) returns (n: nat)
    requires Latest(limits, ops, k).Some?
    ensures n < |ops| && ops[n] == Insert(k, Latest(limits, ops, k).value)
  {
    n := |ops| - 1;
    if !Inserts(limits, Run(limits, ops[..n]), ops[n], k) {
      n := LatestIsLogged(limits, ops[..n], k);
    }
  }

  /** The insert at index `i` pushed `k` out of the cache. */
  predicate PushedOut(limits: Limits, ops: seq<Op>, i: nat, k: string)
    requires i < |ops|
  {
    && ops[i].Insert?
    && Has(Before(limits, ops, i).entries, k)
    && !Has(Before(limits, ops, i + 1).entries, k)
  }

  /** No operation from index `i` on stores `k` again. */
  predicate NotStoredSince(limits: Limits, ops: seq<Op>, i: nat, k: string)
    decreases |ops|
  {
    |ops| <= i ||
    (!Inserts(limits, Run(limits, ops[..|ops| - 1]), ops[|ops| - 1], k) &&
      NotStoredSince(limits, ops[..|ops| - 1], i, k))
  }

  /** A fresh latest asset is missing only because an insert pushed it out since it was stored. */
  lemma {:induction false} MissingWasPushedOut(limits: Limits, ops: seq<Op>, k: string, now: int) returns (i: nat)
    requires limits.maxEntries > 0
    requires forall m :: 0 <= m < |ops| && ops[m].Get? ==> ops[m].now <= now
    requires Latest(limits, ops, k).Some? && !Expired(Latest(limits, ops, k).value, now)
    requires !Has(Run(limits, ops).entries, k)
    ensures i < |ops| && PushedOut(limits, ops, i, k) && NotStoredSince(limits, ops, i, k)
  {
    hide Apply, Inserts;
    var last := |ops| - 1;
    var before, op := ops[..last], ops[last];
    assert ops[..|ops|] == ops;
    RunConserves(limits, before);
    ApplyLookup(limits, Run(limits, before), op, k);
    if Has(Run(limits, before).entries, k) {
      StoredIsLatest(limits, before, k);
      i := last;
      assert NotStoredSince(limits, before, last, k);
    } else {
      i := MissingWasPushedOut(limits, before, k, now);
      assert before[..i] == ops[..i] && before[..i + 1] == ops[..i + 1];
    }
  }

  /** `get` agrees with the simple map: it returns only the latest stored asset, younger than its TTL, and
      misses a fresh one only if an insert pushed it out since. */
  lemma GetAgreesWithMap(limits: Limits, ops: seq<Op>, k: string, now: int)
    requires limits.maxEntries > 0
    requires forall m :: 0 <= m < |ops| && ops[m].Get? ==> ops[m].now <= now
    ensures var r := GetStep(Run(limits, ops), k, now).1;
      && (r.Some? ==> r == Latest(limits, ops, k) && Elapsed(r.value.createdAt, now) < r.value.ttl)
      && (r.None? && Latest(limits, ops, k).Some? && !Expired(Latest(limits, ops, k).value, now) ==>
            exists i :: 0 <= i < |ops| && PushedOut(limits, ops, i, k) && NotStoredSince(limits, ops, i, k))
  {
    StoredIsLatest(limits, ops, k);
    var latest := Latest(limits, ops, k);
    if latest.Some? && !Expired(latest.value, now) && !Has(Run(limits, ops).entries, k) {
      var i := MissingWasPushedOut(limits, ops, k, now);
    }
  }

  /** The insert at `n` stored `k`, and no later operation stores it again or pushes it out. */
  predicate LastStored(limits: Limits, ops: seq<Op>, n: nat, k: string) {
    && n < |ops| && Inserts(limits, Before(limits, ops, n), ops[n], k)
    && forall m: nat :: n < m < |ops| ==>
         !Inserts(limits, Before(limits, ops, m), ops[m], k) && !PushedOut(limits, ops, m, k)
  }

  lemma {:induction false} LastStoredIsLatest(limits: Limits, ops: seq<Op>, n: nat, k: string)
    requires LastStored(limits, ops, n, k)
    ensures Latest(limits, ops, k) == Some(ops[n].asset)
  {
    hide Inserts, Run, PushedOut;
    var last := |ops| - 1;
    assert Before(limits, ops, last) == Run(limits, ops[..last]);
    if n < last {
      var before := ops[..last];
      forall m: nat | n <= m < last ensures Before(limits, before, m) == Before(limits, ops, m) {
        assert before[..m] == ops[..m];
      }
      forall m: nat | n < m < last ensures !PushedOut(limits, before, m, k) {
        PushedOutPrefix(limits, ops, last, m, k);
      }
      LastStoredIsLatest(limits, before, n, k);
    }
  }

  lemma PushedOutPrefix(limits: Limits, ops: seq<Op>, last: nat, m: nat, k: string)
    requires m < last <= |ops|
    ensures PushedOut(limits, ops[..last], m, k) <==> PushedOut(limits, ops, m, k)
  {
    hide Run;
    assert ops[..last][..m] == ops[..m] && ops[..last][..m + 1] == ops[..m + 1];
  }

  lemma {:induction false} StoredSince(limits: Limits, ops: seq<Op>, i: nat, n: nat, k: string)
    requires NotStoredSince(limits, ops, i, k) && i <= n < |ops|
    ensures !Inserts(limits, Before(limits, ops, n), ops[n], k)
    decreases |ops|
  {
    hide Inserts, Run;
    if n < |ops| - 1 {
      var before := ops[..|ops| - 1];
      StoredSince(limits, before, i, n, k);
      assert before[..n] == ops[..n];
    }
  }

  lemma NotPushedOut(limits: Limits, ops: seq<Op>, n: nat, i: nat, k: string)
    requires limits.maxEntries > 0 && LastStored(limits, ops, n, k) && i < |ops|
    ensures !(PushedOut(limits, ops, i, k) && NotStoredSince(limits, ops, i, k))
  {
    if i < n {
      hide PushedOut, Inserts, Run;
      if NotStoredSince(limits, ops, i, k) {
        StoredSince(limits, ops, i, n, k);
      }
    } else if i == n {
      RunConserves(limits, ops[..n]);
      ApplyLookup(limits, Run(limits, ops[..n]), ops[n], k);
      assert ops[..n + 1][..n] == ops[..n];
      hide Apply, IndexOf, Inserts;
    }
  }

  lemma LatestIsFoundIff(limits: Limits, ops: seq<Op>, n: nat, k: string, now: int)
    requires limits.maxEntries > 0 && (forall m :: 0 <= m < |ops| && ops[m].Get? ==> ops[m].now <= now)
    requires LastStored(limits, ops, n, k)
    ensures GetStep(Run(limits, ops), k, now).1 == if Expired(ops[n].asset, now) then None else Some(ops[n].asset)
  {
    hide GetStep, PushedOut, NotStoredSince, Run, Inserts;
    LastStoredIsLatest(limits, ops, n, k);
    GetAgreesWithMap(limits, ops, k, now);
    forall i: nat | i < |ops| ensures !(PushedOut(limits, ops, i, k) && NotStoredSince(limits, ops, i, k)) {
      NotPushedOut(limits, ops, n, i, k);
    }
  }

  /** An asset is found for exactly its time to live, the default or the one given with it, unless it was stored again
      or pushed out: with its status, headers and body while younger, and not at all afterwards. */
  lemma FoundUntilTtl(limits: Limits, ops: seq<Op>, n: nat, k: string, status: nat, headers: Headers, body: seq<byte>,
                      ttl: Option<nat>, created: int, now: int)
    requires limits.maxEntries > 0 && (forall m :: 0 <= m < |ops| && ops[m].Get? ==> ops[m].now <= now)
    requires LastStored(limits, ops, n, k) && ops[n] == Insert(k, NewAsset(limits, status, headers, body, ttl, created))
    ensures var r := GetStep(Run(limits, ops), k, now).1;
      var life := if ttl.Some? then ttl.value else limits.defaultTtl;
      if (if created <= now then now - created else 0) < life then
        r.Some? && r.value.status == status && r.value.headers == headers && r.value.body == body
      else r.None?
  {
    LatestIsFoundIff(limits, ops, n, k, now);
    hide GetStep, Run, LastStored;
  }

  // ---- exact LRU order ----

  predicate Increasing(es: seq<Entry>, rank: string -> nat) {
    forall i, j :: 0 <= i < j < |es| ==> rank(es[i].key) < rank(es[j].key)
  }

  function Touched(limits: Limits, s: State, op: Op): Option<string> {
    if Touches(limits, s, op, op.key) then Some(op.key) else None
  }

  lemma {:induction false} IncreasingWithout(es: seq<Entry>, key: string, rank: string -> nat)
    requires Increasing(es, rank)
    ensures Increasing(Without(es, key), rank)
  {
    var w, p := Without(es, key), IndexOf(es, key);
    if p < |es| {
      assert forall q :: 0 <= q < |w| ==> w[q] == es[if p <= q then q + 1 else q];
    }
  }

  /** Using a key moves it behind all the others and leaves the others in order. */
  lemma {:induction false} TouchKeepsOrder(base: seq<Entry>, e: Entry, rank: string -> nat, newRank: string -> nat)
    requires Increasing(base, rank)
    requires forall q :: 0 <= q < |base| ==> newRank(base[q].key) == rank(base[q].key) < newRank(e.key)
    ensures Increasing(base + [e], newRank) && Increasing(base, newRank)
  {
  }

  lemma {:induction false} MoveKeepsOrder(es: seq<Entry>, e: Entry, rank: string -> nat, newRank: string -> nat)
    requires DistinctKeys(es) && Increasing(es, rank)
    requires forall k :: k != e.key ==> newRank(k) == rank(k) < newRank(e.key)
    ensures Increasing(Without(es, e.key) + [e], newRank) && Increasing(Without(es, e.key), newRank)
  {
    IncreasingWithout(es, e.key, rank);
    WithoutEntries(es, e.key);
    TouchKeepsOrder(Without(es, e.key), e, rank, newRank);
  }

  lemma {:induction false} GetKeepsOrder(s: State, key: string, now: int, rank: string -> nat, newRank: string -> nat)
    requires DistinctKeys(s.entries) && Increasing(s.entries, rank) && Has(s.entries, key)
    requires forall k :: k != key ==> newRank(k) == rank(k) < newRank(key)
    ensures Increasing(GetStep(s, key, now).0.entries, newRank)
  {
    MoveKeepsOrder(s.entries, Entry(key, Lookup(s.entries, key).value), rank, newRank);
  }

  lemma {:induction false} PutKeepsOrder(limits: Limits, es: seq<Entry>, e: Entry, rank: string -> nat,
                                         newRank: string -> nat)
    requires DistinctKeys(es) && Increasing(es, rank)
    requires forall k :: k != e.key ==> newRank(k) == rank(k) < newRank(e.key)
    ensures Increasing(Put(limits, es, e.key, e.asset), newRank)
  {
    MoveKeepsOrder(es, e, rank, newRank);
    if Displaces(limits, es, e.key) {
      TouchKeepsOrder(es[1..], e, rank, newRank);
    }
  }

  lemma {:induction false} StepKeepsOrder(limits: Limits, s: State, op: Op, rank: string -> nat, newRank: string -> nat)
    requires DistinctKeys(s.entries) && Increasing(s.entries, rank)
    requires Touched(limits, s, op).None? ==> forall k :: newRank(k) == rank(k)
    requires Touched(limits, s, op).Some? ==> forall k :: k != op.key ==> newRank(k) == rank(k) < newRank(op.key)
    ensures Increasing(Apply(limits, s, op).entries, newRank)
  {
    match op
    case Get(key, now) =>
      if Has(s.entries, key) {
        GetKeepsOrder(s, key, now, rank, newRank);
      }
    case Insert(key, asset) =>
      var n := EvictCount(limits, s.entries, s.counter, asset.sizeBytes);
      if Touched(limits, s, op).Some? {
        PutKeepsOrder(limits, s.entries[n..], Entry(key, asset), rank, newRank);
      }
  }

  /** The list is always ordered by last use, oldest first, so `pop_lru` evicts the least recently used. */
  lemma {:induction false} ListIsLastTouchOrder(limits: Limits, ops: seq<Op>)
    requires limits.maxEntries > 0
    ensures Increasing(Run(limits, ops).entries, k => LastTouch(limits, ops, k))
  {
    if ops != [] {
      var before, op := ops[..|ops| - 1], ops[|ops| - 1];
      ListIsLastTouchOrder(limits, before);
      RunConserves(limits, before);
      StepKeepsOrder(limits, Run(limits, before), op, k => LastTouch(limits, before, k),
        k => LastTouch(limits, ops, k));
    }
  }

  /** In any run, a size-admissible `insert` pops exactly the least recently used entries it needs to: every
      popped key was last used before every kept key, one entry fewer would not have made room, and the
      reported counts are those of the popped entries. */
  lemma {:induction false} InsertEvictsLeastRecent(limits: Limits, ops: seq<Op>, key: string, a: Asset)
    requires limits.maxEntries > 0
    requires a.sizeBytes <= limits.maxFileSize && a.sizeBytes <= limits.maxCapacity
    ensures var s := Run(limits, ops);
      var r := InsertStep(limits, s, key, a).1;
      var n := r.itemsEvicted;
      && n <= |s.entries|
      && r.bytesEvicted == Size(s.entries[..n]) <= s.counter
      && (n == |s.entries| || s.counter - r.bytesEvicted + a.sizeBytes <= limits.maxCapacity)
      && (forall m :: 0 <= m < n ==>
            Size(s.entries[..m]) <= s.counter && s.counter - Size(s.entries[..m]) + a.sizeBytes > limits.maxCapacity)
      && (forall i, j :: 0 <= i < n <= j < |s.entries| ==>
            LastTouch(limits, ops, s.entries[i].key) < LastTouch(limits, ops, s.entries[j].key))
  {
    RunConserves(limits, ops);
    ListIsLastTouchOrder(limits, ops);
    var s := Run(limits, ops);
    EvictionIsShortest(limits, s.entries, s.counter, a.sizeBytes);
    StoreReports(limits, s, key, a);
    var rank := k => LastTouch(limits, ops, k);
    assert forall i, j :: 0 <= i < j < |s.entries| ==> rank(s.entries[i].key) < rank(s.entries[j].key);
  }

  lemma StoreReports(limits: Limits, s: State, key: string, a: Asset)
    requires a.sizeBytes <= limits.maxFileSize && a.sizeBytes <= limits.maxCapacity
    ensures var r := InsertStep(limits, s, key, a).1;
      && r.itemsEvicted == EvictCount(limits, s.entries, s.counter, a.sizeBytes)
      && r.bytesEvicted == Size(s.entries[..r.itemsEvicted])
  {
  }

  // ---- when the counter is exact ----

  /** The bytes an operation makes the crate drop behind the engine's back. */
  function DroppedBytes(limits: Limits, s: State, op: Op): nat {
    if op.Insert? && Inserts(limits, s, op, op.key) then
      var kept := s.entries[EvictCount(limits, s.entries, s.counter, op.asset.sizeBytes)..];
      if Displaces(limits, kept, op.key) then kept[0].asset.sizeBytes else 0
    else 0
  }

  /** No operation of the run puts a fresh key into a full list whose oldest entry holds bytes. */
  predicate NeverDrops(limits: Limits, ops: seq<Op>) {
    ops == [] ||
    (NeverDrops(limits, ops[..|ops| - 1]) && DroppedBytes(limits, Run(limits, ops[..|ops| - 1]), ops[|ops| - 1]) == 0)
  }

  lemma ApplyDisplaces(limits: Limits, s: State, op: Op)
    ensures Apply(limits, s, op).displaced == s.displaced + DroppedBytes(limits, s, op)
  {
  }

  /** The counter equals the live bytes exactly in the runs in which the entry limit never drops bytes. */
  lemma {:induction false} CounterExactIff(limits: Limits, ops: seq<Op>)
    requires limits.maxEntries > 0
    ensures Run(limits, ops).counter == Size(Run(limits, ops).entries) <==> NeverDrops(limits, ops)
  {
    RunConserves(limits, ops);
    if ops != [] {
      CounterExactIff(limits, ops[..|ops| - 1]);
      RunConserves(limits, ops[..|ops| - 1]);
      ApplyDisplaces(limits, Run(limits, ops[..|ops| - 1]), ops[|ops| - 1]);
    }
  }

  function InsertedKeys(ops: seq<Op>): set<string> {
    if ops == [] then {}
    else InsertedKeys(ops[..|ops| - 1]) + (if ops[|ops| - 1].Insert? then {ops[|ops| - 1].key} else {})
  }

  lemma {:induction false} LiveKeysWereInserted(limits: Limits, ops: seq<Op>, k: string)
    requires limits.maxEntries > 0
    ensures Has(Run(limits, ops).entries, k) ==> k in InsertedKeys(ops)
  {
    if ops != [] {
      LiveKeysWereInserted(limits, ops[..|ops| - 1], k);
      RunConserves(limits, ops[..|ops| - 1]);
      ApplyLookup(limits, Run(limits, ops[..|ops| - 1]), ops[|ops| - 1], k);
    }
  }

  lemma {:induction false} KeyCount(es: seq<Entry>, keys: set<string>)
    requires DistinctKeys(es)
    requires forall i :: 0 <= i < |es| ==> es[i].key in keys
    ensures |es| <= |keys|
  {
    if es != [] {
      KeyCount(es[1..], keys - {es[0].key});
    }
  }

  /** A caller that stores at most `maxEntries` different keys keeps the counter exact. */
  lemma {:induction false} FewKeysNeverDrop(limits: Limits, ops: seq<Op>)
    requires limits.maxEntries > 0 && |InsertedKeys(ops)| <= limits.maxEntries
    ensures NeverDrops(limits, ops)
  {
    if ops != [] {
      var before, op := ops[..|ops| - 1], ops[|ops| - 1];
      var s := Run(limits, before);
      assert InsertedKeys(before) <= InsertedKeys(ops);
      SubsetCount(InsertedKeys(before), InsertedKeys(ops));
      FewKeysNeverDrop(limits, before);
      RunConserves(limits, before);
      if op.Insert? {
        var n := EvictCount(limits, s.entries, s.counter, op.asset.sizeBytes);
        var kept := s.entries[n..];
        if Displaces(limits, kept, op.key) {
          FreshKeyCount(limits, before, kept, n, op.key);
          SubsetCount(InsertedKeys(before) + {op.key}, InsertedKeys(ops));
        }
      }
    }
  }

  lemma SubsetCount(a: set<string>, b: set<string>)
    requires a <= b
    ensures |a| <= |b|
  {
    assert b == a + (b - a);
  }

  lemma {:induction false} FreshKeyCount(limits: Limits, ops: seq<Op>, kept: seq<Entry>, n: nat, key: string)
    requires limits.maxEntries > 0
    requires n <= |Run(limits, ops).entries| && kept == Run(limits, ops).entries[n..]
    requires !Has(kept, key)
    ensures |kept| < |InsertedKeys(ops) + {key}|
  {
    var es := Run(limits, ops).entries;
    RunConserves(limits, ops);
    forall i | 0 <= i < |kept| ensures kept[i].key in InsertedKeys(ops) && kept[i].key != key {
      LookupEntry(es, n + i);
      LiveKeysWereInserted(limits, ops, kept[i].key);
      LookupEntry(kept, i);
    }
    KeyCount(kept, (InsertedKeys(ops) + {key}) - {key});
  }

  /** Displaced bytes never come back: an insert that finds too little room is refused in every continuation. */
  lemma {:induction false} RefusalIsPermanent(limits: Limits, ops: seq<Op>, more: seq<Op>, key: string, a: Asset)
    requires limits.maxEntries > 0
    requires InsertStep(limits, Run(limits, ops), key, a).1.reason == Some(CapacityFullAfterEviction)
    ensures InsertStep(limits, Run(limits, ops + more), key, a).1.reason == Some(CapacityFullAfterEviction)
  {
    RunConserves(limits, ops);
    RunConserves(limits, ops + more);
    InsertSucceedsIff(limits, Run(limits, ops), key, a);
    InsertSucceedsIff(limits, Run(limits, ops + more), key, a);
    assert (ops + more)[..|ops|] == ops;
    DisplacedGrows(limits, ops + more, |ops|);
  }

  lemma {:induction false} DisplacedGrows(limits: Limits, ops: seq<Op>, i: nat)
    requires limits.maxEntries > 0 && i <= |ops|
    ensures Run(limits, ops[..i]).displaced <= Run(limits, ops).displaced
  {
    if i == |ops| {
      assert ops[..i] == ops;
    } else {
      var before := ops[..|ops| - 1];
      assert before[..i] == ops[..i];
      DisplacedGrows(limits, before, i);
      RunConserves(limits, before);
      ApplyConserves(limits, Run(limits, before), ops[|ops| - 1]);
    }
  }

  // ---- the drift is real, at any entry limit ----

  /** Stores `n` different keys. */
  function Fill(n: nat, a: Asset): seq<Op> {
    if n == 0 then [] else Fill(n - 1, a) + [Insert(Text.Print(n), a)]
  }

  /** Every entry holds one byte under a number of at most `n`. */
  predicate Numbered(es: seq<Entry>, n: nat) {
    forall i :: 0 <= i < |es| ==> Text.AllDigits(es[i].key) && Text.Value(es[i].key) <= n && es[i].asset.sizeBytes == 1
  }

  lemma {:induction false} NumberedSize(es: seq<Entry>, n: nat)
    requires Numbered(es, n)
    ensures Size(es) == |es|
  {
    if es != [] {
      NumberedSize(es[1..], n);
    }
  }

  lemma NextKeyIsFresh(es: seq<Entry>, n: nat)
    requires Numbered(es, n)
    ensures !Has(es, Text.Print(n + 1))
  {
    Text.PrintValue(n + 1);
  }

  /** A fresh one-byte key that fits is appended, and the oldest entry makes place if the list is full. */
  lemma FreshStore(limits: Limits, s: State, n: nat, a: Asset)
    requires limits.maxEntries > 0 && limits.maxFileSize >= 1 && a.sizeBytes == 1
    requires Numbered(s.entries, n) && s.counter + 1 <= limits.maxCapacity && |s.entries| <= limits.maxEntries
    ensures var t := Apply(limits, s, Insert(Text.Print(n + 1), a));
      && t.counter == s.counter + 1 && Numbered(t.entries, n + 1)
      && |t.entries| == if |s.entries| == limits.maxEntries then limits.maxEntries else |s.entries| + 1
  {
    NextKeyIsFresh(s.entries, n);
    Text.PrintValue(n + 1);
    hide Text.Print, IndexOf, Size;
    assert s.entries[0..] == s.entries;
    assert EvictCount(limits, s.entries, s.counter, 1) == 0;
    assert EvictCounter(limits, s.entries, s.counter, 1) == s.counter;
  }

  /** As long as the counter stays within the capacity, it counts every store, while the list stops growing. */
  lemma {:induction false} FillCounts(limits: Limits, n: nat, a: Asset)
    requires limits.maxEntries > 0 && limits.maxFileSize >= 1 && a.sizeBytes == 1 && n <= limits.maxCapacity
    ensures var s := Run(limits, Fill(n, a));
      && s.counter == n && Numbered(s.entries, n)
      && |s.entries| == if n <= limits.maxEntries then n else limits.maxEntries
  {
    hide Apply, Numbered;
    if n == 0 {
      assert Numbered([], 0) by {
        NumberedEmpty();
      }
    } else {
      FillCounts(limits, n - 1, a);
      FreshStore(limits, Run(limits, Fill(n - 1, a)), n - 1, a);
      assert Fill(n, a)[..|Fill(n, a)| - 1] == Fill(n - 1, a);
    }
  }

  lemma NumberedEmpty()
    ensures Numbered([], 0)
  {
  }

  /** At every entry limit below the capacity, a run that stores more keys than the limit leaves the counter above the
      live bytes, by one byte for each key too many. */
  lemma CounterCanDrift(limits: Limits, n: nat, a: Asset)
    requires 0 < limits.maxEntries <= n <= limits.maxCapacity && limits.maxFileSize >= 1 && a.sizeBytes == 1
    ensures var s := Run(limits, Fill(n, a));
      s.counter == n && Size(s.entries) == limits.maxEntries && s.displaced == n - limits.maxEntries
  {
    FillCounts(limits, n, a);
    NumberedSize(Run(limits, Fill(n, a)).entries, n);
    RunConserves(limits, Fill(n, a));
  }

  /** After such a run, and in every continuation of it, an asset is refused for lack of capacity although it passes
      both size checks and an empty engine would take it, exactly when it does not fit beside the bytes of the dropped
      keys; right after the run this decides every insert. */
  lemma DriftRefuses(limits: Limits, n: nat, a: Asset, more: seq<Op>, key: string, big: Asset)
    requires 0 < limits.maxEntries <= n <= limits.maxCapacity && limits.maxFileSize >= 1 && a.sizeBytes == 1
    requires big.sizeBytes <= limits.maxFileSize && big.sizeBytes <= limits.maxCapacity
    ensures InsertStep(limits, EMPTY, key, big).1.inserted
    ensures InsertStep(limits, Run(limits, Fill(n, a)), key, big).1.inserted <==>
      n - limits.maxEntries + big.sizeBytes <= limits.maxCapacity
    ensures n - limits.maxEntries + big.sizeBytes > limits.maxCapacity ==>
      InsertStep(limits, Run(limits, Fill(n, a) + more), key, big).1.reason == Some(CapacityFullAfterEviction)
  {
    hide Fill, InsertStep;
    CounterCanDrift(limits, n, a);
    RunConserves(limits, []);
    RunConserves(limits, Fill(n, a));
    InsertSucceedsIff(limits, Run(limits, []), key, big);
    InsertSucceedsIff(limits, Run(limits, Fill(n, a)), key, big);
    if n - limits.maxEntries + big.sizeBytes > limits.maxCapacity {
      AdmissibleReason(limits, Run(limits, Fill(n, a)), key, big);
      RefusalIsPermanent(limits, Fill(n, a), more, key, big);
    }
  }

  lemma AdmissibleReason(limits: Limits, s: State, key: string, a: Asset)
    requires a.sizeBytes <= limits.maxFileSize && a.sizeBytes <= limits.maxCapacity
    ensures var r := InsertStep(limits, s, key, a).1; r.inserted || r.reason == Some(CapacityFullAfterEviction)
  {
  }

  /** The engine the proxy builds, with its 10,000 entries: once as many one-byte assets are stored as the capacity has
      bytes, every asset of more than 10,000 bytes is refused for good, and every smaller one is still taken. */
  lemma NewEngineDrifts(maxCapacity: nat, maxFileSize: nat, ttl: nat, a: Asset, more: seq<Op>, key: string, big: Asset)
    requires 10_000 <= maxCapacity && maxFileSize >= 1 && a.sizeBytes == 1
    requires big.sizeBytes <= maxFileSize && big.sizeBytes <= maxCapacity
    ensures var limits := Limits(maxCapacity, maxFileSize, ttl, 10_000);
      var ops := Fill(maxCapacity, a);
      && Run(limits, ops).counter == maxCapacity && Size(Run(limits, ops).entries) == 10_000
      && (InsertStep(limits, Run(limits, ops), key, big).1.inserted <==> big.sizeBytes <= 10_000)
      && (big.sizeBytes > 10_000 ==>
            InsertStep(limits, Run(limits, ops + more), key, big).1.reason == Some(CapacityFullAfterEviction))
  {
    hide Fill, InsertStep, Run;
    var limits := Limits(maxCapacity, maxFileSize, ttl, 10_000);
    CounterCanDrift(limits, maxCapacity, a);
    DriftRefuses(limits, maxCapacity, a, more, key, big);
  }

  // ---- machine words ----

  /** The sum of counter and size that `insert` computes first, its largest, is a 64-bit word. */
  predicate SumFits(limits: Limits, ops: seq<Op>, a: Asset) {
    a.sizeBytes <= limits.maxFileSize && a.sizeBytes <= limits.maxCapacity ==>
      Run(limits, ops).counter + a.sizeBytes <= USIZE_MAX
  }

  /** No run overflows that sum exactly when the capacity and the largest admissible asset fit a word together. */
  lemma SumsFitIff(limits: Limits)
    requires limits.maxEntries > 0 && limits.maxCapacity <= USIZE_MAX
    ensures (forall ops, a :: SumFits(limits, ops, a)) <==>
      limits.maxCapacity +
        (if limits.maxFileSize < limits.maxCapacity then limits.maxFileSize else limits.maxCapacity) <= USIZE_MAX
  {
    var largest := if limits.maxFileSize < limits.maxCapacity then limits.maxFileSize else limits.maxCapacity;
    if limits.maxCapacity + largest <= USIZE_MAX {
      forall ops, a ensures SumFits(limits, ops, a) {
        RunConserves(limits, ops);
      }
    } else {
      var one := Asset(200, [], [], 0, 0, 1);
      FillCounts(limits, limits.maxCapacity, one);
      assert !SumFits(limits, Fill(limits.maxCapacity, one), one.(sizeBytes := largest));
    }
  }
}
