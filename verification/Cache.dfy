/** Store of `Stateful` values with an optional time to live. */
module Cache {
  import opened Model

  datatype CacheKey = CacheKey(space: nat, epoch: nat, entity: Option<nat>, channel: nat, component: nat)

  datatype CacheEntry = CacheEntry(sequence: nat, payload: Bytes)

  datatype StoredEntry = StoredEntry(entry: CacheEntry, ttl: Option<nat>, lastTouched: nat)
  {
    predicate ExpiredAt(now: nat) {
      ttl.Some? && (if now >= lastTouched then now - lastTouched else 0) >= ttl.value
    }
  }

  type Store = map<CacheKey, StoredEntry>

  /** Total stored payload bytes, in whatever order the entries are visited. */
  ghost function ByteLen(s: Store): nat
    decreases |s|
  {
    if s == map[] then 0
    else
      var k :| k in s;
      |s[k].entry.payload| + ByteLen(s - {k})
  }

  lemma {:induction false} ByteLenRemove(s: Store, k: CacheKey)
    requires k in s
    ensures ByteLen(s) == |s[k].entry.payload| + ByteLen(s - {k})
    decreases |s|
  {
    var j :| j in s && ByteLen(s) == |s[j].entry.payload| + ByteLen(s - {j});
    if j != k {
      ByteLenRemove(s - {j}, k);
      ByteLenRemove(s - {k}, j);
      assert s - {j} - {k} == s - {k} - {j};
    }
  }

  lemma ByteLenPut(s: Store, k: CacheKey, e: StoredEntry)
    ensures ByteLen(s[k := e]) + (if k in s then |s[k].entry.payload| else 0) == ByteLen(s) + |e.entry.payload|
  {
    ByteLenRemove(s[k := e], k);
    assert s[k := e] - {k} == s - {k};
    if k in s { ByteLenRemove(s, k); } else { assert s - {k} == s; }
  }

  lemma PutSize(s: Store, k: CacheKey, e: StoredEntry)
    ensures |s[k := e]| == if k in s then |s| else |s| + 1
  {
    assert s[k := e].Keys == s.Keys + {k};
  }

  function Sweep(s: Store, now: nat): Store { map k | k in s && !s[k].ExpiredAt(now) :: s[k] }

  /** Adds up the stored payload lengths. */
  method SumBytes(store: Store) returns (total: nat)
    ensures total == ByteLen(store)
  {
    total := 0;
    var rest := store;
    while rest != map[]
      invariant total + ByteLen(rest) == ByteLen(store)
      decreases |rest|
    {
      var k :| k in rest;
      ByteLenRemove(rest, k);
      total := total + |rest[k].entry.payload|;
      assert (rest - {k}).Keys == rest.Keys - {k};
      rest := rest - {k};
    }
  }

  /** The store as the session holds it, updated in place. */
  class InMemoryCacheService {
    var entries: Store

    constructor ()
      ensures entries == map[]
    {
      entries := map[];
    }

    method Put(key: CacheKey, entry: CacheEntry, ttl: Option<nat>, now: nat) returns (previous: Option<CacheEntry>)
      modifies this
      ensures entries == old(entries)[key := StoredEntry(entry, ttl, now)]
      ensures previous == if key in old(entries) then Some(old(entries)[key].entry) else None
      ensures ByteLen(entries) + (if previous.Some? then |previous.value.payload| else 0)
           == ByteLen(old(entries)) + |entry.payload|
    {
      ByteLenPut(entries, key, StoredEntry(entry, ttl, now));
      previous := if key in entries then Some(entries[key].entry) else None;
      entries := entries[key := StoredEntry(entry, ttl, now)];
    }

    method Evict(key: CacheKey) returns (previous: Option<CacheEntry>)
      modifies this
      ensures entries == old(entries) - {key}
      ensures previous == if key in old(entries) then Some(old(entries)[key].entry) else None
      ensures ByteLen(entries) + (if previous.Some? then |previous.value.payload| else 0) == ByteLen(old(entries))
    {
      previous := if key in entries then Some(entries[key].entry) else None;
      if key in entries { ByteLenRemove(entries, key); } else { assert entries - {key} == entries; }
      entries := entries - {key};
    }

    method SweepExpired(now: nat) returns (removed: nat)
      modifies this
      ensures entries == Sweep(old(entries), now) && removed == |old(entries)| - |entries|
    {
      var before := |entries|;
      SweepSize(entries, now);
      entries := map k | k in entries && !entries[k].ExpiredAt(now) :: entries[k];
      removed := before - |entries|;
    }

    method ByteLength() returns (total: nat)
      ensures total == ByteLen(entries)
    {
      total := SumBytes(entries);
    }
  }

  lemma SweepSize(s: Store, now: nat)
    ensures |Sweep(s, now)| <= |s|
    ensures |Sweep(s, now)| == |s| ==> Sweep(s, now) == s
  {
    var kept := Sweep(s, now);
    SubsetSize(kept.Keys, s.Keys);
  }

  lemma SubsetSize<T>(a: set<T>, b: set<T>)
    requires a <= b
    ensures |a| <= |b| && (|a| == |b| ==> a == b)
  {
    assert b == a + (b - a);
  }
}
