/** The byte-budgeted LRU cache of src/cache.rs.

    The list of the `lru` crate is a sequence of entries, least recently used first.
    `State` is the engine's state as a value; the class `LruCacheEngine` updates its
    fields in place and each of its methods is proved to perform one step on that value. */
module Cache {
  import opened Basics

  type Headers = seq<(string, string)>

  datatype Asset = Asset(
    status: nat, headers: Headers, body: seq<byte>, createdAt: int, ttl: nat, sizeBytes: nat)

  datatype Entry = Entry(key: string, asset: Asset)

  /** The constants of one engine; `maxEntries` is the capacity of the crate's list. */
  datatype Limits = Limits(maxCapacity: nat, maxFileSize: nat, defaultTtl: nat, maxEntries: nat)

  /** `counter` is `current_memory_bytes`. `displaced` is a history variable: the total size of the
      entries the crate dropped because a fresh key was put into a full list. */
  datatype State = State(entries: seq<Entry>, counter: nat, displaced: nat)

  datatype Reason = ExceedsMaxFileSize | ExceedsMaxCapacity | CapacityFullAfterEviction

  datatype InsertResult = InsertResult(
    inserted: bool, bytesInserted: nat, bytesEvicted: nat, itemsEvicted: nat, reason: Option<Reason>)

  const EMPTY := State([], 0, 0)

  /** `Instant::elapsed`, which is zero for an instant in the future. */
  function Elapsed(since: int, now: int): nat {
    if since <= now then now - since else 0
  }

  predicate Expired(a: Asset, now: int) {
    Elapsed(a.createdAt, now) >= a.ttl
  }

  // ---- the crate's list ----

  function IndexOf(es: seq<Entry>, key: string): (p: nat)
    ensures p <= |es|
    ensures p < |es| ==> es[p].key == key
    ensures forall q :: 0 <= q < p ==> es[q].key != key
  {
    if es == [] || es[0].key == key then 0 else 1 + IndexOf(es[1..], key)
  }

  predicate Has(es: seq<Entry>, key: string) {
    IndexOf(es, key) < |es|
  }

  function Lookup(es: seq<Entry>, key: string): Option<Asset> {
    if Has(es, key) then Some(es[IndexOf(es, key)].asset) else None
  }

  function Without(es: seq<Entry>, key: string): seq<Entry> {
    var p := IndexOf(es, key);
    if p < |es| then es[..p] + es[p + 1..] else es
  }

  /** `get_mut`: a key that is found becomes the most recently used one. */
  function Promoted(es: seq<Entry>, key: string): seq<Entry> {
    match Lookup(es, key)
    case None => es
    case Some(a) => Without(es, key) + [Entry(key, a)]
  }

  /** A fresh key put into a full list silently drops the least recently used entry. */
  predicate Displaces(limits: Limits, es: seq<Entry>, key: string) {
    !Has(es, key) && es != [] && |es| >= limits.maxEntries
  }

  function Put(limits: Limits, es: seq<Entry>, key: string, a: Asset): seq<Entry> {
    if Displaces(limits, es, key) then es[1..] + [Entry(key, a)]
    else Without(es, key) + [Entry(key, a)]
  }

  function Size(es: seq<Entry>): nat {
    if es == [] then 0 else es[0].asset.sizeBytes + Size(es[1..])
  }

  // ---- the engine's operations ----

  function GetStep(s: State, key: string, now: int): (State, Option<Asset>) {
    match Lookup(s.entries, key)
    case None => (s, None)
    case Some(a) =>
      if Expired(a, now) then
        (s.(entries := Without(s.entries, key), counter := SaturatingSub(s.counter, a.sizeBytes)), None)
      else
        (s.(entries := Promoted(s.entries, key)), Some(a))
  }

  /** How many entries `insert` pops from the old end before it tries to store `size` bytes. */
  function EvictCount(limits: Limits, es: seq<Entry>, counter: nat, size: nat): (n: nat)
    ensures n <= |es|
  {
    if counter + size > limits.maxCapacity && es != [] then
      1 + EvictCount(limits, es[1..], SaturatingSub(counter, es[0].asset.sizeBytes), size)
    else 0
  }

  /** The counter after the eviction loop. */
  function EvictCounter(limits: Limits, es: seq<Entry>, counter: nat, size: nat): nat {
    if counter + size > limits.maxCapacity && es != [] then
      EvictCounter(limits, es[1..], SaturatingSub(counter, es[0].asset.sizeBytes), size)
    else counter
  }

  function NewAsset(limits: Limits, status: nat, headers: Headers, body: seq<byte>, ttl: Option<nat>, now: int): Asset {
    Asset(status, headers, body, now, ttl.GetOr(limits.defaultTtl), |body|)
  }

  /** `insert` of an asset whose size passed both size checks. */
  function StoreStep(limits: Limits, s: State, key: string, a: Asset): (State, InsertResult) {
    var n := EvictCount(limits, s.entries, s.counter, a.sizeBytes);
    var counter := EvictCounter(limits, s.entries, s.counter, a.sizeBytes);
    var kept := s.entries[n..];
    var evicted := Size(s.entries[..n]);
    if counter + a.sizeBytes <= limits.maxCapacity then
      var freed := if Has(kept, key) then Lookup(kept, key).value.sizeBytes else 0;
      var lost := if Displaces(limits, kept, key) then kept[0].asset.sizeBytes else 0;
      (State(Put(limits, kept, key, a), SaturatingSub(counter, freed) + a.sizeBytes, s.displaced + lost),
       InsertResult(true, a.sizeBytes, evicted, n, None))
    else
      (State(kept, counter, s.displaced),
       InsertResult(false, 0, evicted, n, Some(CapacityFullAfterEviction)))
  }

  function InsertStep(limits: Limits, s: State, key: string, a: Asset): (State, InsertResult) {
    if a.sizeBytes > limits.maxFileSize then
      (s, InsertResult(false, 0, 0, 0, Some(ExceedsMaxFileSize)))
    else if a.sizeBytes > limits.maxCapacity then
      (s, InsertResult(false, 0, 0, 0, Some(ExceedsMaxCapacity)))
    else StoreStep(limits, s, key, a)
  }

  // ---- what every operation keeps ----

  predicate DistinctKeys(es: seq<Entry>) {
    forall i, j :: 0 <= i < j < |es| ==> es[i].key != es[j].key
  }

  /** Byte conservation: the counter is the live bytes plus the displaced bytes. */
  predicate Conserved(limits: Limits, s: State) {
    && DistinctKeys(s.entries)
    && |s.entries| <= limits.maxEntries
    && s.counter == Size(s.entries) + s.displaced
    && s.counter <= limits.maxCapacity
  }

  lemma {:induction false} SizeSplit(a: seq<Entry>, b: seq<Entry>)
    ensures Size(a + b) == Size(a) + Size(b)
  {
    if a == [] {
      assert a + b == b;
    } else {
      assert (a + b)[1..] == a[1..] + b;
      SizeSplit(a[1..], b);
    }
  }

  lemma SizeWithout(es: seq<Entry>, key: string)
    ensures Has(es, key) ==> Size(es) == Size(Without(es, key)) + Lookup(es, key).value.sizeBytes
    ensures !Has(es, key) ==> Without(es, key) == es
  {
    var p := IndexOf(es, key);
    if p < |es| {
      assert es == es[..p] + ([es[p]] + es[p + 1..]);
      SizeSplit(es[..p], [es[p]] + es[p + 1..]);
      SizeSplit([es[p]], es[p + 1..]);
      SizeSplit(es[..p], es[p + 1..]);
    }
  }

  /** Looking a key up means what it should: with distinct keys, `Lookup` finds the asset of any entry. */
  lemma LookupEntry(es: seq<Entry>, i: nat)
    requires DistinctKeys(es) && i < |es|
    ensures IndexOf(es, es[i].key) == i && Lookup(es, es[i].key) == Some(es[i].asset)
  {
    var p := IndexOf(es, es[i].key);
    assert p <= i;
  }

  lemma WithoutEntries(es: seq<Entry>, key: string)
    requires DistinctKeys(es)
    ensures DistinctKeys(Without(es, key))
    ensures forall q :: 0 <= q < |Without(es, key)| ==> Without(es, key)[q].key != key && Without(es, key)[q] in es
  {
    var w, p := Without(es, key), IndexOf(es, key);
    if p < |es| {
      assert forall q :: 0 <= q < |w| ==> w[q] == es[if p <= q then q + 1 else q];
    }
  }

  lemma {:induction false} LookupWithout(es: seq<Entry>, key: string, k: string)
    requires DistinctKeys(es)
    ensures DistinctKeys(Without(es, key))
    ensures Lookup(Without(es, key), k) == if k == key then None else Lookup(es, k)
  {
    var w, p := Without(es, key), IndexOf(es, key);
    WithoutEntries(es, key);
    if k != key && Has(es, k) {
      var q := IndexOf(es, k);
      LookupEntry(w, if p < q then q - 1 else q);
    }
  }

  lemma LookupAppend(es: seq<Entry>, e: Entry, k: string)
    requires !Has(es, e.key)
    requires DistinctKeys(es)
    ensures DistinctKeys(es + [e])
    ensures Lookup(es + [e], k) == if k == e.key then Some(e.asset) else Lookup(es, k)
  {
    var t := es + [e];
    assert t[|es|] == e;
    forall i | 0 <= i < |es| ensures es[i].key != e.key {
      LookupEntry(es, i);
    }
    if Has(es, k) {
      LookupEntry(t, IndexOf(es, k));
    } else if k == e.key {
      LookupEntry(t, |es|);
    }
  }

  /** Dropping old entries forgets exactly the keys in the dropped part. */
  lemma LookupSuffix(es: seq<Entry>, n: nat, k: string)
    requires DistinctKeys(es) && n <= |es|
    ensures DistinctKeys(es[n..])
    ensures Lookup(es[n..], k) == if IndexOf(es, k) < n then None else Lookup(es, k)
  {
    hide IndexOf;
    SuffixDistinct(es, n);
    if Has(es, k) && IndexOf(es, k) >= n {
      var p := IndexOf(es, k);
      assert es[n..][p - n] == es[p];
      LookupEntry(es[n..], p - n);
    } else {
      SuffixLacks(es, n, k);
    }
  }

  lemma SuffixDistinct(es: seq<Entry>, n: nat)
    requires DistinctKeys(es) && n <= |es|
    ensures DistinctKeys(es[n..])
  {
  }

  lemma SuffixLacks(es: seq<Entry>, n: nat, k: string)
    requires DistinctKeys(es) && n <= |es| && !(Has(es, k) && IndexOf(es, k) >= n)
    ensures !Has(es[n..], k)
  {
    forall q | n <= q < |es| ensures es[q].key != k {
      LookupEntry(es, q);
    }
  }

  lemma PutLookup(limits: Limits, es: seq<Entry>, key: string, a: Asset, k: string)
    requires DistinctKeys(es)
    ensures DistinctKeys(Put(limits, es, key, a))
    ensures Lookup(Put(limits, es, key, a), k) ==
      if k == key then Some(a)
      else if Displaces(limits, es, key) && k == es[0].key then None
      else Lookup(es, k)
  {
    if Displaces(limits, es, key) {
      LookupSuffix(es, 1, k);
      LookupSuffix(es, 1, key);
      LookupEntry(es, 0);
      LookupAppend(es[1..], Entry(key, a), k);
    } else {
      LookupWithout(es, key, k);
      LookupWithout(es, key, key);
      LookupAppend(Without(es, key), Entry(key, a), k);
    }
  }

  /** Eviction pops the shortest prefix, oldest first, that makes room, and no subtraction truncates. */
  lemma {:induction false} EvictionIsShortest(limits: Limits, es: seq<Entry>, counter: nat, size: nat)
    requires Size(es) <= counter
    ensures var n := EvictCount(limits, es, counter, size);
      && Size(es[..n]) <= counter
      && EvictCounter(limits, es, counter, size) == counter - Size(es[..n])
      && (counter - Size(es[..n]) + size <= limits.maxCapacity || n == |es|)
    ensures forall m :: 0 <= m < EvictCount(limits, es, counter, size) ==>
      Size(es[..m]) <= counter && counter - Size(es[..m]) + size > limits.maxCapacity
  {
    if counter + size > limits.maxCapacity && es != [] {
      var rest := counter - es[0].asset.sizeBytes;
      EvictionIsShortest(limits, es[1..], rest, size);
      var n := EvictCount(limits, es[1..], rest, size);
      assert EvictCount(limits, es, counter, size) == n + 1;
      forall m | 0 < m <= n + 1 ensures Size(es[..m]) == es[0].asset.sizeBytes + Size(es[1..][..m - 1]) {
        assert es[..m][1..] == es[1..][..m - 1];
      }
    }
  }

  lemma GetKeepsValid(limits: Limits, s: State, key: string, now: int)
    requires Conserved(limits, s)
    ensures Conserved(limits, GetStep(s, key, now).0)
    ensures GetStep(s, key, now).0.displaced == s.displaced
    ensures Has(s.entries, key) ==> Lookup(s.entries, key).value.sizeBytes <= s.counter
  {
    SizeWithout(s.entries, key);
    LookupWithout(s.entries, key, key);
    if Has(s.entries, key) && !Expired(Lookup(s.entries, key).value, now) {
      var e := Entry(key, Lookup(s.entries, key).value);
      SizeSplit(Without(s.entries, key), [e]);
      LookupAppend(Without(s.entries, key), e, key);
    }
  }

  lemma PutSize(limits: Limits, es: seq<Entry>, key: string, a: Asset)
    requires DistinctKeys(es) && |es| <= limits.maxEntries && limits.maxEntries > 0
    ensures |Put(limits, es, key, a)| <= limits.maxEntries
    ensures Size(Put(limits, es, key, a)) + (if Has(es, key) then Lookup(es, key).value.sizeBytes else 0)
         + (if Displaces(limits, es, key) then es[0].asset.sizeBytes else 0) == Size(es) + a.sizeBytes
  {
    SizeWithout(es, key);
    if Displaces(limits, es, key) {
      SizeSplit(es[1..], [Entry(key, a)]);
    } else {
      SizeSplit(Without(es, key), [Entry(key, a)]);
    }
  }

  /** What is left in front of `put`: the counter still covers the kept entries and the displaced bytes. */
  lemma EvictionConserves(limits: Limits, s: State, size: nat)
    requires Conserved(limits, s)
    ensures var n := EvictCount(limits, s.entries, s.counter, size);
      && DistinctKeys(s.entries[n..])
      && EvictCounter(limits, s.entries, s.counter, size) == Size(s.entries[n..]) + s.displaced <= s.counter
      && (Size(s.entries[n..]) + s.displaced + size <= limits.maxCapacity <==> s.displaced + size <= limits.maxCapacity)
  {
    var n := EvictCount(limits, s.entries, s.counter, size);
    EvictionIsShortest(limits, s.entries, s.counter, size);
    assert s.entries == s.entries[..n] + s.entries[n..];
    SizeSplit(s.entries[..n], s.entries[n..]);
  }

  lemma PutConserves(limits: Limits, kept: seq<Entry>, displaced: nat, key: string, a: Asset)
    requires DistinctKeys(kept) && |kept| <= limits.maxEntries && limits.maxEntries > 0
    requires Size(kept) + displaced + a.sizeBytes <= limits.maxCapacity
    ensures var freed := if Has(kept, key) then Lookup(kept, key).value.sizeBytes else 0;
      var lost := if Displaces(limits, kept, key) then kept[0].asset.sizeBytes else 0;
      freed <= Size(kept) + displaced &&
      Conserved(limits,
        State(Put(limits, kept, key, a), Size(kept) + displaced - freed + a.sizeBytes, displaced + lost))
  {
    PutSize(limits, kept, key, a);
    PutLookup(limits, kept, key, a, key);
    SizeWithout(kept, key);
  }

  /** `insert` conserves bytes, and what it reports is what it did. */
  lemma StoreKeepsValid(limits: Limits, s: State, key: string, a: Asset)
    requires Conserved(limits, s) && limits.maxEntries > 0
    requires a.sizeBytes <= limits.maxCapacity
    ensures Conserved(limits, StoreStep(limits, s, key, a).0)
    ensures s.displaced <= StoreStep(limits, s, key, a).0.displaced
    ensures StoreStep(limits, s, key, a).1.inserted <==> s.displaced + a.sizeBytes <= limits.maxCapacity
  {
    EvictionConserves(limits, s, a.sizeBytes);
    if s.displaced + a.sizeBytes <= limits.maxCapacity {
      PutConserves(limits, s.entries[EvictCount(limits, s.entries, s.counter, a.sizeBytes)..], s.displaced, key, a);
    }
  }

  /** A size-admissible insert succeeds exactly when the displaced bytes leave room for it, so with
      nothing displaced `CapacityFullAfterEviction` is unreachable. */
  lemma InsertSucceedsIff(limits: Limits, s: State, key: string, a: Asset)
    requires Conserved(limits, s) && limits.maxEntries > 0
    ensures var r := InsertStep(limits, s, key, a).1;
      && (r.inserted <==> a.sizeBytes <= limits.maxFileSize && s.displaced + a.sizeBytes <= limits.maxCapacity)
      && (s.displaced == 0 ==> r.reason != Some(CapacityFullAfterEviction))
  {
    if a.sizeBytes <= limits.maxCapacity {
      StoreKeepsValid(limits, s, key, a);
    }
  }

  class LruCacheEngine {
    const limits: Limits
    var inner: seq<Entry>
    var currentMemoryBytes: nat
    ghost var displaced: nat

    ghost predicate Valid()
      reads this
    {
      limits.maxEntries > 0 && Conserved(limits, Value())
    }

    ghost function Value(): State
      reads this
    {
      State(inner, currentMemoryBytes, displaced)
    }

    constructor (maxCapacityBytes: nat, maxFileSizeBytes: nat, defaultTtl: nat)
      ensures Valid() && Value() == EMPTY
      ensures limits == Limits(maxCapacityBytes, maxFileSizeBytes, defaultTtl, 10_000)
    {
      limits := Limits(maxCapacityBytes, maxFileSizeBytes, defaultTtl, 10_000);
      inner, currentMemoryBytes, displaced := [], 0, 0;
    }

    /** A hit returns the stored asset and makes it the most recent; an expired entry is dropped. */
    method Get(key: string, now: int) returns (r: Option<Asset>)
      requires Valid()
      modifies this
      ensures Valid()
      ensures (Value(), r) == GetStep(old(Value()), key, now)
      ensures r.Some? ==> r == Lookup(old(inner), key) && !Expired(r.value, now)
    {
      GetKeepsValid(limits, Value(), key, now);
      var found := Lookup(inner, key);
      if found.None? {
        return None;
      }
      var item := found.value;
      if Expired(item, now) {
        inner := Without(inner, key);
        currentMemoryBytes := SaturatingSub(currentMemoryBytes, item.sizeBytes);
        return None;
      }
      inner := Promoted(inner, key);
      return Some(item);
    }

    /** The eviction loop: pops from the old end while the new bytes do not fit. */
    method MakeRoom(size: nat) returns (bytesEvicted: nat, itemsEvicted: nat)
      requires Valid()
      modifies this`inner, this`currentMemoryBytes
      ensures itemsEvicted == EvictCount(limits, old(inner), old(currentMemoryBytes), size)
      ensures bytesEvicted == Size(old(inner)[..itemsEvicted])
      ensures inner == old(inner)[itemsEvicted..]
      ensures currentMemoryBytes == EvictCounter(limits, old(inner), old(currentMemoryBytes), size)
    {
      ghost var s := Value();
      bytesEvicted, itemsEvicted := 0, 0;
      while currentMemoryBytes + size > limits.maxCapacity && inner != []
        invariant itemsEvicted <= |s.entries| && inner == s.entries[itemsEvicted..]
        invariant itemsEvicted + EvictCount(limits, inner, currentMemoryBytes, size) ==
                  EvictCount(limits, s.entries, s.counter, size)
        invariant EvictCounter(limits, inner, currentMemoryBytes, size) ==
                  EvictCounter(limits, s.entries, s.counter, size)
        invariant bytesEvicted == Size(s.entries[..itemsEvicted])
        decreases |inner|
      {
        var evicted := inner[0];
        assert s.entries[..itemsEvicted + 1] == s.entries[..itemsEvicted] + [evicted];
        SizeSplit(s.entries[..itemsEvicted], [evicted]);
        inner := inner[1..];
        currentMemoryBytes := SaturatingSub(currentMemoryBytes, evicted.asset.sizeBytes);
        bytesEvicted := bytesEvicted + evicted.asset.sizeBytes;
        itemsEvicted := itemsEvicted + 1;
      }
    }

    /** The crate's `put`, and the counter's correction for the value it replaces. */
    method Place(key: string, asset: Asset)
      modifies this
      ensures inner == Put(limits, old(inner), key, asset)
      ensures currentMemoryBytes ==
        SaturatingSub(
          old(currentMemoryBytes), if Has(old(inner), key) then Lookup(old(inner), key).value.sizeBytes else 0)
        + asset.sizeBytes
      ensures displaced == old(displaced) +
        if Displaces(limits, old(inner), key) then old(inner)[0].asset.sizeBytes else 0
    {
      if Displaces(limits, inner, key) {
        displaced := displaced + inner[0].asset.sizeBytes;
      }
      var previous := Lookup(inner, key);
      inner := Put(limits, inner, key, asset);
      if previous.Some? {
        currentMemoryBytes := SaturatingSub(currentMemoryBytes, previous.value.sizeBytes);
      }
      currentMemoryBytes := currentMemoryBytes + asset.sizeBytes;
    }

    /** Makes room, then puts the asset if the new bytes fit. */
    method Insert(key: string, status: nat, headers: Headers, body: seq<byte>, ttlOverride: Option<nat>, now: int)
      returns (r: InsertResult)
      requires Valid()
      modifies this
      ensures Valid()
      ensures var ttl := if ttlOverride.Some? then ttlOverride.value else limits.defaultTtl;
        (Value(), r) == InsertStep(limits, old(Value()), key, Asset(status, headers, body, now, ttl, |body|))
      ensures r.itemsEvicted <= |old(inner)| && r.bytesEvicted == Size(old(inner)[..r.itemsEvicted])
    {
      var sizeBytes := |body|;
      if sizeBytes > limits.maxFileSize {
        return InsertResult(false, 0, 0, 0, Some(ExceedsMaxFileSize));
      }
      if sizeBytes > limits.maxCapacity {
        return InsertResult(false, 0, 0, 0, Some(ExceedsMaxCapacity));
      }
      var asset := NewAsset(limits, status, headers, body, ttlOverride, now);
      r := InsertAdmissible(key, asset);
    }

    method InsertAdmissible(key: string, asset: Asset) returns (r: InsertResult)
      requires Valid() && asset.sizeBytes <= limits.maxCapacity
      modifies this
      ensures Valid()
      ensures (Value(), r) == StoreStep(limits, old(Value()), key, asset)
      ensures r.itemsEvicted <= |old(inner)| && r.bytesEvicted == Size(old(inner)[..r.itemsEvicted])
    {
      StoreKeepsValid(limits, Value(), key, asset);
      var bytesEvicted, itemsEvicted := MakeRoom(asset.sizeBytes);
      hide Conserved, EvictCount, EvictCounter, Size, Put, Lookup, Has, IndexOf, Displaces, SaturatingSub;
      if currentMemoryBytes + asset.sizeBytes <= limits.maxCapacity {
        Place(key, asset);
        return InsertResult(true, asset.sizeBytes, bytesEvicted, itemsEvicted, None);
      }
      return InsertResult(false, 0, bytesEvicted, itemsEvicted, Some(CapacityFullAfterEviction));
    }
  }
}
