/** The LRU cache with time-to-live of cache_strategies.py and two of the
    strategies built on it: cache-aside reads and write-behind writes.

    The clock (`datetime.now()`) is an integer number of seconds passed in as
    `now`; the `OrderedDict` of access order is the sequence of its keys. */
module Caching {
  import opened Common

  /** Cached and stored values; the source accepts any object. */
  type Value = string

  /** The dictionary `{'value', 'expires_at', 'created_at'}` kept per key. */
  datatype Entry = Entry(value: Value, expiresAt: int, createdAt: int)

  /** The three maps of a `Cache`. */
  datatype CacheState = CacheState(data: map<string, Entry>, accessOrder: seq<string>, accessCount: map<string, int>)

  /** The empty cache. */
  function EmptyCache(): CacheState
  {
    CacheState(map[], [], map[])
  }

  /** `access_order` and `data` hold the same keys, each once in the order;
      only cached keys have an access count; and the cache holds at most
      `max_size` keys, or one when `max_size` is below one. */
  ghost predicate CacheInv(s: CacheState, maxSize: int)
  {
    && (forall k :: k in s.data <==> k in s.accessOrder)
    && Distinct(s.accessOrder)
    && (forall k :: k in s.accessCount ==> k in s.data)
    && |s.accessOrder| <= Max(1, maxSize)
  }

  /** `s` with `x` removed, as `OrderedDict.pop(x, None)` does to its keys. */
  function Without(s: seq<string>, x: string): (r: seq<string>)
    ensures forall y :: y in r <==> y in s && y != x
    ensures x !in s ==> r == s
    ensures |r| <= |s|
  {
    if s == [] then []
    else if s[0] == x then Without(s[1..], x)
    else [s[0]] + Without(s[1..], x)
  }

  lemma {:induction false} WithoutDistinct(s: seq<string>, x: string)
    requires Distinct(s)
    ensures Distinct(Without(s, x))
    ensures x in s ==> |Without(s, x)| == |s| - 1
  {
    if s != [] {
      WithoutDistinct(s[1..], x);
      assert s[0] !in s[1..];
    }
  }

  /** A duplicate-free key order and a map over the same keys have the same size. */
  lemma {:induction false} OrderSize<V>(order: seq<string>, m: map<string, V>)
    requires Distinct(order) && forall k :: k in m <==> k in order
    ensures |m| == |order|
  {
    if order != [] {
      var x := order[|order| - 1];
      var rest := order[..|order| - 1];
      assert forall k :: k in rest <==> k in order && k != x;
      OrderSize(rest, m - {x});
    }
  }

  /** `access_count.get(key, 0)`. */
  function CountOf(m: map<string, int>, key: string): int
  {
    if key in m then m[key] else 0
  }

  /** `custom_ttl or self.ttl_seconds`: `None` and `0` are falsy. */
  function Ttl(customTtl: Option<int>, ttlSeconds: int): (t: int)
    ensures customTtl == None || customTtl == Some(0) ==> t == ttlSeconds
    ensures customTtl.Some? && customTtl.value != 0 ==> t == customTtl.value
  {
    if customTtl.Some? && customTtl.value != 0 then customTtl.value else ttlSeconds
  }

  /** `delete`: the key leaves all three maps; absent keys are ignored. */
  function DeleteStep(s: CacheState, key: string): CacheState
  {
    CacheState(s.data - {key}, Without(s.accessOrder, key), s.accessCount - {key})
  }

  /** `_evict_lru`: deletes the first key in access order, if any. */
  function EvictStep(s: CacheState): CacheState
  {
    if s.accessOrder == [] then s else DeleteStep(s, s.accessOrder[0])
  }

  /** `set`: a new key at capacity first evicts; then the entry is written and
      the key becomes the most recently used. */
  function SetStep(s: CacheState, maxSize: int, ttlSeconds: int,
                   key: string, value: Value, customTtl: Option<int>, now: int): CacheState
  {
    var s1 := MadeRoom(s, maxSize, key);
    CacheState(s1.data[key := Entry(value, now + Ttl(customTtl, ttlSeconds), now)],
               Without(s1.accessOrder, key) + [key],
               s1.accessCount)
  }

  /** `get`: a missing key answers `None`; an expired one is deleted and
      answers `None`; a live one becomes the most recently used, has its access
      count incremented, and answers its value. */
  function GetStep(s: CacheState, key: string, now: int): (CacheState, Option<Value>)
  {
    if key !in s.data then (s, None)
    else if now > s.data[key].expiresAt then (DeleteStep(s, key), None)
    else
      var order := if key in s.accessOrder then Without(s.accessOrder, key) + [key] else s.accessOrder + [key];
      (s.(accessOrder := order, accessCount := s.accessCount[key := CountOf(s.accessCount, key) + 1]),
       Some(s.data[key].value))
  }

  // ---------------------------------------------------------------------------
  // Properties of the steps
  // ---------------------------------------------------------------------------

  lemma DeleteKeepsInv(s: CacheState, maxSize: int, key: string)
    requires CacheInv(s, maxSize)
    ensures CacheInv(DeleteStep(s, key), maxSize)
    ensures key !in DeleteStep(s, key).data
    ensures forall k :: k != key ==> (k in DeleteStep(s, key).data <==> k in s.data)
  {
    WithoutDistinct(s.accessOrder, key);
  }

  /** Deleting twice is deleting once. */
  lemma DeleteIdempotent(s: CacheState, key: string)
    ensures DeleteStep(DeleteStep(s, key), key) == DeleteStep(s, key)
  {
  }

  /** Eviction removes exactly the least recently used key. */
  lemma EvictRemovesFirst(s: CacheState, maxSize: int)
    requires CacheInv(s, maxSize) && s.accessOrder != []
    ensures CacheInv(EvictStep(s), maxSize)
    ensures EvictStep(s).data == s.data - {s.accessOrder[0]}
    ensures EvictStep(s).accessOrder == s.accessOrder[1..]
  {
    DeleteKeepsInv(s, maxSize, s.accessOrder[0]);
    assert s.accessOrder == [s.accessOrder[0]] + s.accessOrder[1..];
    assert s.accessOrder[0] !in s.accessOrder[1..];
  }

  /** Writing `key` and making it the most recent keeps the invariant when
      the key is cached already or there is room for it. */
  lemma TouchKeepsInv(s: CacheState, maxSize: int, key: string, e: Entry)
    requires CacheInv(s, maxSize) && (key in s.data || |s.accessOrder| < Max(1, maxSize))
    ensures CacheInv(CacheState(s.data[key := e], Without(s.accessOrder, key) + [key], s.accessCount), maxSize)
  {
    WithoutDistinct(s.accessOrder, key);
  }

  /** The state `set` writes into: after the eviction, if there is one. */
  function MadeRoom(s: CacheState, maxSize: int, key: string): CacheState
  {
    if |s.data| >= maxSize && key !in s.data then EvictStep(s) else s
  }

  /** Before a new key is written there is room for it. */
  lemma MadeRoomFits(s: CacheState, maxSize: int, key: string)
    requires CacheInv(s, maxSize)
    ensures var s1 := MadeRoom(s, maxSize, key);
            CacheInv(s1, maxSize) && (key in s1.data || |s1.accessOrder| < Max(1, maxSize))
            && (key in s.data ==> s1 == s)
            && (key !in s.data && |s.data| >= maxSize && s.accessOrder != [] ==>
                  s1.data == s.data - {s.accessOrder[0]})
            && (key !in s.data && |s.data| < maxSize ==> s1 == s)
  {
    OrderSize(s.accessOrder, s.data);
    if |s.data| >= maxSize && key !in s.data && s.accessOrder != [] {
      EvictRemovesFirst(s, maxSize);
    }
  }

  /** `set` keeps the invariant, so the cache never grows past `max_size`
      (past one when `max_size` is below one), and leaves the key most
      recently used. */
  lemma SetKeepsInv(s: CacheState, maxSize: int, ttlSeconds: int,
                    key: string, value: Value, customTtl: Option<int>, now: int)
    requires CacheInv(s, maxSize)
    ensures var r := SetStep(s, maxSize, ttlSeconds, key, value, customTtl, now);
            CacheInv(r, maxSize) && r.accessOrder[|r.accessOrder| - 1] == key
  {
    MadeRoomFits(s, maxSize, key);
    var s1 := MadeRoom(s, maxSize, key);
    TouchKeepsInv(s1, maxSize, key, Entry(value, now + Ttl(customTtl, ttlSeconds), now));
  }

  /** Overwriting a cached key never evicts; a new key at capacity evicts the
      least recently used one; a new key below capacity evicts nothing. */
  lemma SetEvictsOnlyWhenFull(s: CacheState, maxSize: int, ttlSeconds: int,
                              key: string, value: Value, customTtl: Option<int>, now: int)
    requires CacheInv(s, maxSize)
    ensures var r := SetStep(s, maxSize, ttlSeconds, key, value, customTtl, now);
            && (key in s.data ==> forall k :: k in r.data <==> k in s.data)
            && (key !in s.data && |s.data| >= maxSize && s.accessOrder != [] ==>
                  forall k :: k in r.data <==> (k in s.data && k != s.accessOrder[0]) || k == key)
            && (key !in s.data && |s.data| < maxSize ==> forall k :: k in r.data <==> k in s.data || k == key)
  {
    MadeRoomFits(s, maxSize, key);
  }

  /** `get` keeps the invariant; a hit leaves the key most recently used with
      one more access. */
  lemma GetKeepsInv(s: CacheState, maxSize: int, key: string, now: int)
    requires CacheInv(s, maxSize)
    ensures CacheInv(GetStep(s, key, now).0, maxSize)
    ensures GetStep(s, key, now).1.Some? ==>
              var r := GetStep(s, key, now).0;
              && r.data == s.data
              && r.accessOrder[|r.accessOrder| - 1] == key
              && r.accessCount[key] == CountOf(s.accessCount, key) + 1
  {
    if key in s.data {
      if now > s.data[key].expiresAt {
        DeleteKeepsInv(s, maxSize, key);
      } else {
        WithoutDistinct(s.accessOrder, key);
      }
    }
  }

  /** A value written with `set` is read back by `get` until it expires, and
      is gone from then on. */
  lemma SetThenGet(s: CacheState, maxSize: int, ttlSeconds: int,
                   key: string, value: Value, customTtl: Option<int>, now: int, later: int)
    ensures var r := SetStep(s, maxSize, ttlSeconds, key, value, customTtl, now);
            GetStep(r, key, later).1 == if later <= now + Ttl(customTtl, ttlSeconds) then Some(value) else None
  {
  }

  // ---------------------------------------------------------------------------
  // The cache object
  // ---------------------------------------------------------------------------

  /** `Cache`: an LRU cache with a time-to-live per entry. */
  class Cache {
    var data: map<string, Entry>
    var accessOrder: seq<string>
    var accessCount: map<string, int>
    const maxSize: int
    const ttlSeconds: int

    function View(): CacheState
      reads this
    {
      CacheState(data, accessOrder, accessCount)
    }

    ghost predicate Valid()
      reads this
    {
      CacheInv(View(), maxSize)
    }

    constructor(maxSize: int, ttlSeconds: int)
      ensures Valid() && View() == EmptyCache()
      ensures this.maxSize == maxSize && this.ttlSeconds == ttlSeconds
    {
      data := map[];
      accessOrder := [];
      accessCount := map[];
      this.maxSize := maxSize;
      this.ttlSeconds := ttlSeconds;
    }

    method Get(key: string, now: int) returns (r: Option<Value>)
      requires Valid()
      modifies this
      ensures Valid()
      ensures (View(), r) == GetStep(old(View()), key, now)
    {
      GetKeepsInv(View(), maxSize, key, now);
      if key !in data {
        return None;
      }
      var item := data[key];
      if now > item.expiresAt {
        Delete(key);
        return None;
      }
      accessOrder := if key in accessOrder then Without(accessOrder, key) + [key] else accessOrder + [key];
      accessCount := accessCount[key := CountOf(accessCount, key) + 1];
      r := Some(item.value);
    }

    method Set(key: string, value: Value, customTtl: Option<int>, now: int)
      requires Valid()
      modifies this
      ensures Valid()
      ensures View() == SetStep(old(View()), maxSize, ttlSeconds, key, value, customTtl, now)
    {
      SetKeepsInv(View(), maxSize, ttlSeconds, key, value, customTtl, now);
      var expiresAt := now + Ttl(customTtl, ttlSeconds);
      if |data| >= maxSize && key !in data {
        EvictLru();
      }
      data := data[key := Entry(value, expiresAt, now)];
      accessOrder := Without(accessOrder, key) + [key];
    }

    method Delete(key: string)
      requires Valid()
      modifies this
      ensures Valid()
      ensures View() == DeleteStep(old(View()), key)
    {
      DeleteKeepsInv(View(), maxSize, key);
      data := data - {key};
      accessOrder := Without(accessOrder, key);
      accessCount := accessCount - {key};
    }

    method EvictLru()
      requires Valid()
      modifies this
      ensures Valid()
      ensures View() == EvictStep(old(View()))
    {
      if accessOrder != [] {
        Delete(accessOrder[0]);
      }
    }

    method Clear()
      modifies this
      ensures Valid() && View() == EmptyCache()
    {
      data := map[];
      accessOrder := [];
      accessCount := map[];
    }

    /** `size`: the number of cached keys, which never exceeds `max_size`
        once `max_size` is at least one. */
    method Size() returns (n: int)
      requires Valid()
      ensures n == |data| == |accessOrder|
      ensures maxSize >= 1 ==> n <= maxSize
    {
      OrderSize(accessOrder, data);
      n := |data|;
    }
  }

  // ---------------------------------------------------------------------------
  // The database and the strategies
  // ---------------------------------------------------------------------------

  /** `MockDatabase`, without its latency. */
  class MockDatabase {
    var data: map<string, Value>

    constructor()
      ensures data == map[]
    {
      data := map[];
    }

    method Get(key: string) returns (r: Option<Value>)
      ensures r == if key in data then Some(data[key]) else None
    {
      r := if key in data then Some(data[key]) else None;
    }

    method Set(key: string, value: Value)
      modifies this
      ensures data == old(data)[key := value]
    {
      data := data[key := value];
    }

    method Delete(key: string)
      modifies this
      ensures data == old(data) - {key}
    {
      data := data - {key};
    }
  }

  /** `CacheAside`: reads go to the cache first and fill it from the database. */
  class CacheAside {
    const cache: Cache
    const database: MockDatabase

    constructor(cache: Cache, database: MockDatabase)
      ensures this.cache == cache && this.database == database
    {
      this.cache := cache;
      this.database := database;
    }

    /** `get`: a cache hit answers the cached value; a miss answers the
        database's value and caches it only when there is one. */
    method Get(key: string, now: int) returns (r: Option<Value>)
      requires cache.Valid()
      modifies cache
      ensures cache.Valid() && database.data == old(database.data)
      ensures var (afterGet, hit) := GetStep(old(cache.View()), key, now);
              if hit.Some? then
                r == hit && cache.View() == afterGet
              else
                && r == (if key in database.data then Some(database.data[key]) else None)
                && cache.View() == (if r.Some? then SetStep(afterGet, cache.maxSize, cache.ttlSeconds, key, r.value, None, now)
                                    else afterGet)
    {
      r := cache.Get(key, now);
      if r.Some? {
        return;
      }
      r := database.Get(key);
      if r.Some? {
        cache.Set(key, r.value, None, now);
      }
    }
  }

  /** One record of the write-behind queue: a write of `value`, or a deletion. */
  datatype WriteRecord = Write(key: string, value: Value, timestamp: int) | Deletion(key: string, timestamp: int)

  /** The database after applying `writes` in queue order. */
  function ApplyWrites(db: map<string, Value>, writes: seq<WriteRecord>): map<string, Value>
  {
    if writes == [] then db
    else
      var last := writes[|writes| - 1];
      var before := ApplyWrites(db, writes[..|writes| - 1]);
      match last
      case Write(k, v, _) => before[k := v]
      case Deletion(k, _) => before - {k}
  }

  /** The index of the last record for `key` in `writes`, or -1. */
  function LastWriteTo(writes: seq<WriteRecord>, key: string): (i: int)
    ensures -1 <= i < |writes|
    ensures i >= 0 ==> writes[i].key == key
    ensures forall j :: i < j < |writes| ==> writes[j].key != key
  {
    if writes == [] then -1
    else if writes[|writes| - 1].key == key then |writes| - 1
    else LastWriteTo(writes[..|writes| - 1], key)
  }

  /** Flushing the queue leaves every key as its last queued record says, and
      untouched keys as they were. */
  lemma {:induction false} LastWriteWins(db: map<string, Value>, writes: seq<WriteRecord>, key: string)
    ensures var i := LastWriteTo(writes, key);
            var after := ApplyWrites(db, writes);
            if i < 0 then
              (key in after <==> key in db) && (key in db ==> after[key] == db[key])
            else
              match writes[i]
              case Write(_, v, _) => key in after && after[key] == v
              case Deletion(_, _) => key !in after
  {
    if writes != [] {
      LastWriteWins(db, writes[..|writes| - 1], key);
    }
  }

  /** `WriteBehind`: writes go to the cache at once and to the database when
      the queue is flushed. */
  class WriteBehind {
    const cache: Cache
    const database: MockDatabase
    var writeQueue: seq<WriteRecord>
    var flushing: bool

    constructor(cache: Cache, database: MockDatabase)
      ensures this.cache == cache && this.database == database
      ensures writeQueue == [] && !flushing
    {
      this.cache := cache;
      this.database := database;
      writeQueue := [];
      flushing := false;
    }

    method Set(key: string, value: Value, now: int) returns (r: Value)
      requires cache.Valid()
      modifies cache, this
      ensures cache.Valid() && r == value && flushing == old(flushing)
      ensures cache.View() == SetStep(old(cache.View()), cache.maxSize, cache.ttlSeconds, key, value, None, now)
      ensures writeQueue == old(writeQueue) + [Write(key, value, now)]
    {
      cache.Set(key, value, None, now);
      writeQueue := writeQueue + [Write(key, value, now)];
      r := value;
    }

    method Delete(key: string, now: int)
      requires cache.Valid()
      modifies cache, this
      ensures cache.Valid() && flushing == old(flushing)
      ensures cache.View() == DeleteStep(old(cache.View()), key)
      ensures writeQueue == old(writeQueue) + [Deletion(key, now)]
    {
      cache.Delete(key);
      writeQueue := writeQueue + [Deletion(key, now)];
    }

    /** `flush`: nothing happens while a flush is running or the queue is
        empty; otherwise the queue is emptied and its records applied to the
        database in order. */
    method Flush()
      modifies this, database
      ensures old(flushing) || old(writeQueue) == [] ==>
                writeQueue == old(writeQueue) && database.data == old(database.data) && flushing == old(flushing)
      ensures !old(flushing) && old(writeQueue) != [] ==>
                writeQueue == [] && !flushing && database.data == ApplyWrites(old(database.data), old(writeQueue))
    {
      if flushing || writeQueue == [] {
        return;
      }
      flushing := true;
      var writes := writeQueue;
      writeQueue := [];
      var i := 0;
      while i < |writes|
        invariant 0 <= i <= |writes|
        invariant writeQueue == [] && flushing
        invariant database.data == ApplyWrites(old(database.data), writes[..i])
      {
        assert writes[..i + 1][..i] == writes[..i];
        match writes[i] {
          case Write(k, v, _) => database.Set(k, v);
          case Deletion(k, _) => database.Delete(k);
        }
        i := i + 1;
      }
      assert writes[..i] == writes;
      flushing := false;
    }
  }
}
