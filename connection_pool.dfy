/** The database connection pool of connection_pool.py.

    Times are integer seconds passed in by the caller. A connection's id is
    the value of the `created` counter when it was made, so ids are distinct,
    and the caller names a connection by its id. `acquire` is one pass of its
    wait loop: it answers `None` where the source would sleep and try again. */
module ConnectionPooling {
  import opened Common

  /** `Connection`. */
  datatype Connection = Connection(id: nat, createdAt: int, lastUsed: int, inUse: bool)

  /** The pool's configuration, with the defaults of `config.get`. */
  datatype PoolConfig = PoolConfig(minSize: int, maxSize: int, idleTimeout: int, maxLifetime: int)

  const DefaultPoolConfig := PoolConfig(2, 10, 30, 3600)

  /** `get_stats`. The source never adds a waiter, so `waiting_requests` is 0. */
  datatype PoolStats = PoolStats(created: nat, acquired: nat, released: nat, destroyed: nat, timeout: nat,
                                 poolSize: nat, activeConnections: nat, idleConnections: int,
                                 waitingRequests: nat, minSize: int, maxSize: int)

  function Idle(c: Connection): bool { !c.inUse }

  /** No two pooled connections share an id. */
  predicate DistinctIds(s: seq<Connection>)
  {
    forall i, j :: 0 <= i < j < |s| ==> s[i].id != s[j].id
  }

  /** The ids of the connections in use. */
  function InUseIds(s: seq<Connection>): set<nat>
  {
    if s == [] then {}
    else InUseIds(s[..|s| - 1]) + (if s[|s| - 1].inUse then {s[|s| - 1].id} else {})
  }

  lemma {:induction false} InUseIdsConcat(a: seq<Connection>, b: seq<Connection>)
    ensures InUseIds(a + b) == InUseIds(a) + InUseIds(b)
  {
    if b == [] {
      assert a + b == a;
    } else {
      assert (a + b)[..|a + b| - 1] == a + b[..|b| - 1];
      InUseIdsConcat(a, b[..|b| - 1]);
    }
  }

  lemma {:induction false} NotInUseIds(s: seq<Connection>, x: nat)
    requires forall i :: 0 <= i < |s| ==> s[i].id != x
    ensures x !in InUseIds(s)
  {
    if s != [] {
      NotInUseIds(s[..|s| - 1], x);
    }
  }

  /** A connection whose id occurs nowhere else contributes exactly its own
      id, if it is in use. */
  lemma InUseIdsSplit(pre: seq<Connection>, c: Connection, post: seq<Connection>)
    requires forall i :: 0 <= i < |pre| ==> pre[i].id != c.id
    requires forall i :: 0 <= i < |post| ==> post[i].id != c.id
    ensures InUseIds(pre + [c] + post) == InUseIds(pre + post) + (if c.inUse then {c.id} else {})
    ensures c.id !in InUseIds(pre + post)
  {
    InUseIdsConcat(pre + [c], post);
    InUseIdsConcat(pre, [c]);
    InUseIdsConcat(pre, post);
    assert [c][..0] == [];
    NotInUseIds(pre, c.id);
    NotInUseIds(post, c.id);
  }

  /** With distinct ids, no connection before or after position `k` has
      the id of `s[k]`. */
  lemma DistinctAround(s: seq<Connection>, k: nat, pre: seq<Connection>, post: seq<Connection>)
    requires DistinctIds(s) && k < |s| && pre == s[..k] && post == s[k + 1..]
    ensures s == pre + [s[k]] + post
    ensures forall i :: 0 <= i < |pre| ==> pre[i].id != s[k].id
    ensures forall i :: 0 <= i < |post| ==> post[i].id != s[k].id
  {
    assert forall i :: 0 <= i < |post| ==> post[i] == s[k + 1 + i];
  }

  /** Replacing a connection by one with the same id changes only that id's
      membership. */
  lemma InUseIdsUpdate(s: seq<Connection>, k: nat, c: Connection)
    requires DistinctIds(s) && k < |s| && c.id == s[k].id
    ensures InUseIds(s[k := c]) == InUseIds(s) - {c.id} + (if c.inUse then {c.id} else {})
  {
    DistinctAround(s, k, s[..k], s[k + 1..]);
    assert s[k := c] == s[..k] + [c] + s[k + 1..];
    InUseIdsSplit(s[..k], s[k], s[k + 1..]);
    InUseIdsSplit(s[..k], c, s[k + 1..]);
  }

  /** Removing a connection removes exactly its id. */
  lemma InUseIdsRemove(s: seq<Connection>, k: nat)
    requires DistinctIds(s) && k < |s|
    ensures InUseIds(s[..k] + s[k + 1..]) == InUseIds(s) - {s[k].id}
  {
    DistinctAround(s, k, s[..k], s[k + 1..]);
    InUseIdsSplit(s[..k], s[k], s[k + 1..]);
  }

  /** With distinct ids, the pool size less the in-use ids counts the idle
      connections. */
  lemma {:induction false} IdleCount(s: seq<Connection>)
    requires DistinctIds(s)
    ensures |s| - |InUseIds(s)| == CountWhere(s, Idle)
  {
    if s != [] {
      var init := s[..|s| - 1];
      IdleCount(init);
      NotInUseIds(init, s[|s| - 1].id);
    }
  }

  /** `next(conn for conn in pool if not conn.in_use)`, as an index. */
  function FirstIdle(s: seq<Connection>): (r: Option<nat>)
    ensures r.Some? ==> r.value < |s| && !s[r.value].inUse && forall j :: 0 <= j < r.value ==> s[j].inUse
    ensures r.None? ==> forall j :: 0 <= j < |s| ==> s[j].inUse
  {
    if s == [] then None
    else if !s[0].inUse then Some(0)
    else
      var rest := FirstIdle(s[1..]);
      if rest.Some? then Some(rest.value + 1) else None
  }

  /** The position of the connection with id `id`, if it is pooled. */
  function IndexOfId(s: seq<Connection>, id: nat): (r: Option<nat>)
    ensures r.Some? ==> r.value < |s| && s[r.value].id == id
    ensures r.None? ==> forall j :: 0 <= j < |s| ==> s[j].id != id
  {
    if s == [] then None
    else if s[0].id == id then Some(0)
    else
      var rest := IndexOfId(s[1..], id);
      if rest.Some? then Some(rest.value + 1) else None
  }

  /** The connections whose id is not in `d`, in pool order. */
  function Without(s: seq<Connection>, d: set<nat>): (r: seq<Connection>)
    ensures |r| <= |s|
  {
    if s == [] then []
    else Without(s[..|s| - 1], d) + (if s[|s| - 1].id in d then [] else [s[|s| - 1]])
  }

  /** Every connection kept is one of `s` whose id is not in `d`. */
  lemma {:induction false} WithoutMember(s: seq<Connection>, d: set<nat>, c: Connection)
    requires c in Without(s, d)
    ensures c in s && c.id !in d
  {
    var init := s[..|s| - 1];
    if c in Without(init, d) {
      WithoutMember(init, d, c);
      assert init == s[..|s| - 1];
    }
  }

  lemma {:induction false} WithoutNothing(s: seq<Connection>)
    ensures Without(s, {}) == s
  {
    if s != [] {
      WithoutNothing(s[..|s| - 1]);
    }
  }

  lemma {:induction false} WithoutAbsent(s: seq<Connection>, x: nat)
    requires forall j :: 0 <= j < |s| ==> s[j].id != x
    ensures Without(s, {x}) == s
  {
    if s != [] {
      WithoutAbsent(s[..|s| - 1], x);
    }
  }

  lemma {:induction false} WithoutConcat(a: seq<Connection>, b: seq<Connection>, d: set<nat>)
    ensures Without(a + b, d) == Without(a, d) + Without(b, d)
  {
    if b == [] {
      assert a + b == a;
    } else {
      assert (a + b)[..|a + b| - 1] == a + b[..|b| - 1];
      WithoutConcat(a, b[..|b| - 1], d);
    }
  }

  lemma Split<T>(s: seq<T>, k: nat)
    requires k < |s|
    ensures s == s[..k] + [s[k]] + s[k + 1..]
  {
  }

  /** Dropping the id of one connection that no other connection shares
      leaves the others. */
  lemma {:induction false} WithoutOne(pre: seq<Connection>, c: Connection, post: seq<Connection>)
    requires forall j :: 0 <= j < |pre| ==> pre[j].id != c.id
    requires forall j :: 0 <= j < |post| ==> post[j].id != c.id
    ensures Without(pre + [c] + post, {c.id}) == pre + post
  {
    WithoutAbsent(pre, c.id);
    WithoutAbsent(post, c.id);
    assert Without([c], {c.id}) == [] by {
      assert [c][..0] == [];
    }
    WithoutConcat(pre, [c], {c.id});
    WithoutConcat(pre + [c], post, {c.id});
  }

  /** `pool.remove(conn)` with distinct ids drops just that id. */
  lemma RemoveIsWithout(s: seq<Connection>, k: nat)
    requires DistinctIds(s) && k < |s|
    ensures s[..k] + s[k + 1..] == Without(s, {s[k].id})
  {
    var pre, post := s[..k], s[k + 1..];
    assert forall j :: 0 <= j < |pre| ==> pre[j].id != s[k].id by {
      forall j | 0 <= j < |pre| ensures pre[j].id != s[k].id { assert pre[j] == s[j]; }
    }
    assert forall j :: 0 <= j < |post| ==> post[j].id != s[k].id by {
      forall j | 0 <= j < |post| ensures post[j].id != s[k].id { assert post[j] == s[k + 1 + j]; }
    }
    Split(s, k);
    WithoutOne(pre, s[k], post);
  }

  /** Removing a connection keeps the others' ids distinct and bounded. */
  lemma RemoveKeepsIds(s: seq<Connection>, k: nat, bound: nat, rest: seq<Connection>)
    requires DistinctIds(s) && k < |s| && forall i :: 0 <= i < |s| ==> s[i].id < bound
    requires rest == s[..k] + s[k + 1..]
    ensures DistinctIds(rest) && forall i :: 0 <= i < |rest| ==> rest[i].id < bound
  {
    assert forall i :: 0 <= i < |rest| ==> rest[i] == if i < k then s[i] else s[i + 1];
  }

  /** Dropping ids one set after another is dropping their union. */
  lemma {:induction false} WithoutTwice(s: seq<Connection>, d: set<nat>, x: nat)
    ensures Without(Without(s, d), {x}) == Without(s, d + {x})
  {
    if s != [] {
      var init := s[..|s| - 1];
      WithoutTwice(init, d, x);
      WithoutConcat(Without(init, d), if s[|s| - 1].id in d then [] else [s[|s| - 1]], {x});
    }
  }

  /** The ids of a longer prefix are those of the shorter one and one more. */
  lemma PrefixSetStep(t: seq<nat>, j: nat, done: set<nat>)
    requires j < |t| && forall x :: x in done <==> x in t[..j]
    ensures forall x :: x in done + {t[j]} <==> x in t[..j + 1]
  {
    assert t[..j + 1] == t[..j] + [t[j]];
  }

  /** The ids of the whole sequence, collected one by one, are the set it
      stands for. */
  lemma PrefixSetAll(t: seq<nat>, done: set<nat>, ids: set<nat>)
    requires forall x :: x in done <==> x in t[..|t|]
    requires forall x :: x in ids <==> x in t
    ensures done == ids
  {
    assert t[..|t|] == t;
  }

  /** Whether `_cleanup` collects a connection: an idle one that has been
      unused too long while the pool, measured before any removal, is above
      its minimum, or one older than the maximum lifetime. */
  predicate Doomed(c: Connection, now: int, sizeBefore: int, config: PoolConfig)
  {
    !c.inUse && ((now - c.lastUsed > config.idleTimeout && sizeBefore > config.minSize)
                 || now - c.createdAt > config.maxLifetime)
  }

  /** The ids `_cleanup` collects from `s`. */
  function DoomedIds(s: seq<Connection>, now: int, sizeBefore: int, config: PoolConfig): set<nat>
  {
    if s == [] then {}
    else DoomedIds(s[..|s| - 1], now, sizeBefore, config)
         + (if Doomed(s[|s| - 1], now, sizeBefore, config) then {s[|s| - 1].id} else {})
  }

  lemma {:induction false} DoomedIdsHas(s: seq<Connection>, now: int, sizeBefore: int, config: PoolConfig, i: nat)
    requires i < |s| && Doomed(s[i], now, sizeBefore, config)
    ensures s[i].id in DoomedIds(s, now, sizeBefore, config)
  {
    if i < |s| - 1 {
      DoomedIdsHas(s[..|s| - 1], now, sizeBefore, config, i);
    }
  }

  lemma {:induction false} DoomedIdsFrom(s: seq<Connection>, now: int, sizeBefore: int, config: PoolConfig, x: nat)
    requires x in DoomedIds(s, now, sizeBefore, config)
    ensures exists j :: 0 <= j < |s| && s[j].id == x && Doomed(s[j], now, sizeBefore, config)
  {
    var init := s[..|s| - 1];
    if x in DoomedIds(init, now, sizeBefore, config) {
      DoomedIdsFrom(init, now, sizeBefore, config, x);
      var j :| 0 <= j < |init| && init[j].id == x && Doomed(init[j], now, sizeBefore, config);
      assert s[j] == init[j];
    } else {
      assert Doomed(s[|s| - 1], now, sizeBefore, config);
    }
  }

  lemma {:induction false} WithoutKeeps(s: seq<Connection>, d: set<nat>, i: nat)
    requires i < |s| && s[i].id !in d
    ensures s[i] in Without(s, d)
  {
    if i < |s| - 1 {
      WithoutKeeps(s[..|s| - 1], d, i);
    }
  }

  /** `_cleanup` never destroys a connection in use. */
  lemma CleanupKeepsInUse(s: seq<Connection>, now: int, config: PoolConfig, i: nat)
    requires DistinctIds(s) && i < |s| && s[i].inUse
    ensures s[i] in Without(s, DoomedIds(s, now, |s|, config))
  {
    if s[i].id in DoomedIds(s, now, |s|, config) {
      DoomedIdsFrom(s, now, |s|, config, s[i].id);
    }
    WithoutKeeps(s, DoomedIds(s, now, |s|, config), i);
  }

  /** `_cleanup` destroys every idle connection past its maximum lifetime,
      and every one idle too long while the pool was above its minimum. */
  lemma CleanupDestroysDoomed(s: seq<Connection>, now: int, config: PoolConfig, i: nat)
    requires i < |s| && Doomed(s[i], now, |s|, config)
    ensures s[i] !in Without(s, DoomedIds(s, now, |s|, config))
  {
    DoomedIdsHas(s, now, |s|, config, i);
    if s[i] in Without(s, DoomedIds(s, now, |s|, config)) {
      WithoutMember(s, DoomedIds(s, now, |s|, config), s[i]);
    }
  }

  /** Because the size is measured before any removal, a cleanup can leave
      the pool below its minimum: three connections idle too long under a
      minimum of two are all destroyed. */
  lemma CleanupCanEmptyPool()
    ensures var s := [Connection(0, 0, 0, false), Connection(1, 0, 0, false), Connection(2, 0, 0, false)];
            Without(s, DoomedIds(s, 100, |s|, DefaultPoolConfig)) == []
  {
    var s := [Connection(0, 0, 0, false), Connection(1, 0, 0, false), Connection(2, 0, 0, false)];
    var s1, s2 := s[..1], s[..2];
    assert s2[..1] == s1 && s1[..0] == [] && s[..|s| - 1] == s2 && s2[..|s2| - 1] == s1;
    var d := DoomedIds(s, 100, 3, DefaultPoolConfig);
    assert DoomedIds(s1, 100, 3, DefaultPoolConfig) == {0};
    assert DoomedIds(s2, 100, 3, DefaultPoolConfig) == {0, 1};
    assert d == {0, 1, 2};
    assert Without(s1, d) == [];
    assert Without(s2, d) == [];
  }

  /** `ConnectionPool`. */
  class ConnectionPool {
    const config: PoolConfig
    var pool: seq<Connection>
    var active: set<nat>
    var created: nat
    var acquired: nat
    var released: nat
    var destroyed: nat
    var timeout: nat

    /** The pool holds at most `max(min_size, max_size)` connections with
        distinct ids below `created`, and `active` is the set of ids of the
        connections in use. */
    ghost predicate Valid()
      reads this
    {
      && |pool| <= Max(0, Max(config.minSize, config.maxSize))
      && (forall i :: 0 <= i < |pool| ==> pool[i].id < created)
      && DistinctIds(pool)
      && active == InUseIds(pool)
    }

    constructor(config: PoolConfig)
      ensures Valid() && this.config == config && pool == [] && active == {}
      ensures created == 0 && acquired == 0 && released == 0 && destroyed == 0 && timeout == 0
    {
      this.config := config;
      pool := [];
      active := {};
      created, acquired, released, destroyed, timeout := 0, 0, 0, 0, 0;
    }

    /** `_create_connection`: appends a new idle connection. */
    method CreateConnection(now: int) returns (c: Connection)
      requires Valid() && |pool| < Max(config.minSize, config.maxSize)
      modifies this
      ensures Valid()
      ensures c == Connection(old(created), now, now, false)
      ensures pool == old(pool) + [c] && created == old(created) + 1
      ensures active == old(active) && acquired == old(acquired) && released == old(released)
      ensures destroyed == old(destroyed) && timeout == old(timeout)
    {
      c := Connection(created, now, now, false);
      InUseIdsConcat(pool, [c]);
      assert [c][..0] == [];
      pool := pool + [c];
      created := created + 1;
    }

    /** `initialize`: creates `min_size` connections in a fresh pool. */
    method Initialize(now: int)
      requires Valid() && pool == []
      modifies this
      ensures Valid() && |pool| == Max(0, config.minSize) && active == {}
      ensures forall i :: 0 <= i < |pool| ==> pool[i] == Connection(old(created) + i, now, now, false)
      ensures created == old(created) + |pool|
      ensures acquired == old(acquired) && released == old(released)
      ensures destroyed == old(destroyed) && timeout == old(timeout)
    {
      var k := 0;
      while k < config.minSize
        invariant Valid() && 0 <= k == |pool| <= Max(0, config.minSize) && active == {}
        invariant forall i :: 0 <= i < |pool| ==> pool[i] == Connection(old(created) + i, now, now, false)
        invariant created == old(created) + |pool|
        invariant acquired == old(acquired) && released == old(released)
        invariant destroyed == old(destroyed) && timeout == old(timeout)
      {
        var _ := CreateConnection(now);
        k := k + 1;
      }
    }

    /** One pass of `acquire`: takes the first idle connection, or creates
        one if none is idle and the pool is below `max_size`; the connection
        is marked in use and active. `None` means the caller would wait. */
    method Acquire(now: int) returns (r: Option<Connection>)
      requires Valid()
      modifies this
      ensures Valid()
      ensures released == old(released) && destroyed == old(destroyed) && timeout == old(timeout)
      ensures FirstIdle(old(pool)).Some? ==>
                var k := FirstIdle(old(pool)).value;
                && r == Some(old(pool)[k].(inUse := true, lastUsed := now))
                && pool == old(pool)[k := r.value] && created == old(created)
      ensures FirstIdle(old(pool)).None? && |old(pool)| < config.maxSize ==>
                && r == Some(Connection(old(created), now, now, true))
                && pool == old(pool) + [r.value] && created == old(created) + 1
      ensures r.Some? ==> active == old(active) + {r.value.id} && acquired == old(acquired) + 1
      ensures FirstIdle(old(pool)).None? && |old(pool)| >= config.maxSize ==>
                r == None && pool == old(pool) && active == old(active)
                && created == old(created) && acquired == old(acquired)
    {
      var idle := FirstIdle(pool);
      var k: nat;
      if idle.Some? {
        k := idle.value;
      } else if |pool| < config.maxSize {
        var _ := CreateConnection(now);
        k := |pool| - 1;
      } else {
        return None;
      }
      var c := pool[k].(inUse := true, lastUsed := now);
      InUseIdsUpdate(pool, k, c);
      pool := pool[k := c];
      active := active + {c.id};
      acquired := acquired + 1;
      r := Some(c);
    }

    /** `release`: an unknown connection is ignored; otherwise it is marked
        idle and no longer active. */
    method Release(id: nat, now: int)
      requires Valid()
      modifies this
      ensures Valid()
      ensures created == old(created) && acquired == old(acquired)
      ensures destroyed == old(destroyed) && timeout == old(timeout)
      ensures IndexOfId(old(pool), id).None? ==>
                pool == old(pool) && active == old(active) && released == old(released)
      ensures IndexOfId(old(pool), id).Some? ==>
                var k := IndexOfId(old(pool), id).value;
                && pool == old(pool)[k := old(pool)[k].(inUse := false, lastUsed := now)]
                && active == old(active) - {id} && released == old(released) + 1
    {
      var found := IndexOfId(pool, id);
      if found.None? {
        return;
      }
      var k := found.value;
      var c := pool[k].(inUse := false, lastUsed := now);
      InUseIdsUpdate(pool, k, c);
      pool := pool[k := c];
      active := active - {id};
      released := released + 1;
    }

    /** `destroy`: removes the connection and its id from the pool and
        `active` only if it is pooled. */
    method Destroy(id: nat)
      requires Valid()
      modifies this
      ensures Valid()
      ensures pool == Without(old(pool), {id}) && active == old(active) - {id}
      ensures destroyed == old(destroyed) + (if IndexOfId(old(pool), id).Some? then 1 else 0)
      ensures destroyed == old(destroyed) + (|old(pool)| - |pool|)
      ensures created == old(created) && acquired == old(acquired)
      ensures released == old(released) && timeout == old(timeout)
    {
      var found := IndexOfId(pool, id);
      if found.None? {
        WithoutAbsent(pool, id);
        NotInUseIds(pool, id);
        return;
      }
      var k := found.value;
      RemoveIsWithout(pool, k);
      InUseIdsRemove(pool, k);
      RemoveKeepsIds(pool, k, created, pool[..k] + pool[k + 1..]);
      pool := pool[..k] + pool[k + 1..];
      active := active - {id};
      destroyed := destroyed + 1;
    }

    /** `_cleanup`: collects the doomed connections, then destroys them. */
    method Cleanup(now: int)
      requires Valid()
      modifies this
      ensures Valid()
      ensures pool == Without(old(pool), DoomedIds(old(pool), now, |old(pool)|, config))
      ensures destroyed == old(destroyed) + (|old(pool)| - |pool|)
      ensures created == old(created) && acquired == old(acquired)
      ensures released == old(released) && timeout == old(timeout)
    {
      var toDestroy := CollectDoomed(now);
      DestroyAll(toDestroy, DoomedIds(pool, now, |pool|, config));
    }

    /** The first loop of `_cleanup`: the ids to destroy, judged against the
        pool size before any is destroyed. */
    method CollectDoomed(now: int) returns (toDestroy: seq<nat>)
      ensures forall x :: x in toDestroy <==> x in DoomedIds(pool, now, |pool|, config)
    {
      var size := |pool|;
      toDestroy := [];
      var i := 0;
      while i < |pool|
        invariant 0 <= i <= |pool|
        invariant forall x :: x in toDestroy <==> x in DoomedIds(pool[..i], now, size, config)
      {
        var c := pool[i];
        assert pool[..i + 1][..i] == pool[..i];
        if !c.inUse {
          if now - c.lastUsed > config.idleTimeout && size > config.minSize {
            toDestroy := toDestroy + [c.id];
          }
          if now - c.createdAt > config.maxLifetime {
            toDestroy := toDestroy + [c.id];
          }
        }
        i := i + 1;
      }
      assert pool[..i] == pool;
    }

    /** The second loop of `_cleanup`: `destroy` each collected id in turn. */
    method DestroyAll(toDestroy: seq<nat>, ghost ids: set<nat>)
      requires Valid() && forall x :: x in ids <==> x in toDestroy
      modifies this
      ensures Valid() && pool == Without(old(pool), ids)
      ensures destroyed == old(destroyed) + (|old(pool)| - |pool|)
      ensures created == old(created) && acquired == old(acquired)
      ensures released == old(released) && timeout == old(timeout)
    {
      ghost var p0 := pool;
      ghost var done: set<nat> := {};
      WithoutNothing(pool);
      var j := 0;
      while j < |toDestroy|
        invariant 0 <= j <= |toDestroy| && Valid()
        invariant forall x :: x in done <==> x in toDestroy[..j]
        invariant pool == Without(p0, done)
        invariant destroyed == old(destroyed) + (|p0| - |pool|)
        invariant created == old(created) && acquired == old(acquired)
        invariant released == old(released) && timeout == old(timeout)
      {
        WithoutTwice(p0, done, toDestroy[j]);
        PrefixSetStep(toDestroy, j, done);
        Destroy(toDestroy[j]);
        done := done + {toDestroy[j]};
        j := j + 1;
      }
      PrefixSetAll(toDestroy, done, ids);
    }

    /** `get_stats`: `idle_connections` is the number of idle pooled
        connections. */
    function GetStats(): (r: PoolStats)
      reads this
      requires Valid()
      ensures r.poolSize == |pool| && r.activeConnections == |active|
      ensures r.idleConnections == CountWhere(pool, Idle) && r.waitingRequests == 0
    {
      IdleCount(pool);
      PoolStats(created, acquired, released, destroyed, timeout, |pool|, |active|, |pool| - |active|,
                0, config.minSize, config.maxSize)
    }
  }
}
