/** The sharding strategies of sharding.py: modulo sharding of integer keys
    (range-based) and of hashed string keys (hash-based), a directory that
    records each key's shard, and a consistent-hash ring with virtual nodes.

    The md5 digest is an arbitrary function `hash` from strings to naturals,
    and the random shard choice of the directory is a parameter `choice`.
    A `KeyError` or `IndexError` raised by the source is an `Err` result. */
module Sharding {
  import opened Common

  /** The values stored in a shard; the source accepts any object. */
  type Value = string

  /** The `{'shard_id', 'key', 'value'}` dictionary returned by `set`. */
  datatype Placement<K> = Placement(shardId: int, key: K, value: Value)

  /** The `{'key', 'old_shard_id', 'new_shard_id'}` dictionary returned by `rebalance`. */
  datatype Move = Move(key: string, oldShardId: int, newShardId: int)

  const KeyError := "KeyError"
  const IndexError := "list index out of range"
  /** The `ZeroDivisionError` of `key % 0`. */
  const ModuloByZero := "integer modulo by zero"
  /** The `ValueError` of `random.randint(0, n - 1)` for `n <= 0`. */
  const EmptyRange := "empty range for randrange"

  /** Python's `len(range(n))`. */
  function Nat(n: int): nat
  {
    if n < 0 then 0 else n
  }

  /** The shard ids of `range(n)`. */
  function ShardIds(n: int): (r: set<int>)
    ensures forall i :: i in r <==> 0 <= i < n
  {
    if n <= 0 then {} else ShardIds(n - 1) + {n - 1}
  }

  /** `{i: {} for i in range(n)}`. */
  function EmptyShards<K>(n: int): (r: map<int, map<K, Value>>)
    ensures forall i :: i in r <==> 0 <= i < n
    ensures forall i :: i in r ==> r[i] == map[]
  {
    map i | i in ShardIds(n) :: map[]
  }

  /** `shards[id].get(key)`. */
  function Lookup<K>(shards: map<int, map<K, Value>>, id: int, key: K): Option<Value>
    requires id in shards
  {
    if key in shards[id] then Some(shards[id][key]) else None
  }

  /** `shards[id][key] = value`. */
  function Place<K>(shards: map<int, map<K, Value>>, id: int, key: K, value: Value): (r: map<int, map<K, Value>>)
    requires id in shards
    ensures r.Keys == shards.Keys
  {
    shards[id := shards[id][key := value]]
  }

  /** Storing a value makes exactly that key of that shard read it back. */
  lemma PlaceThenLookup<K>(shards: map<int, map<K, Value>>, id: int, key: K, value: Value, id': int, key': K)
    requires id in shards && id' in shards
    ensures Lookup(Place(shards, id, key, value), id', key')
            == if id' == id && key' == key then Some(value) else Lookup(shards, id', key')
  {
  }

  // ---------------------------------------------------------------------------
  // Range- and hash-based sharding
  // ---------------------------------------------------------------------------

  /** Python's `h % n` for a positive `n`: the residue of `h` in `[0, n)`, also
      for negative `h` (Dafny's `%` agrees with Python's when `n > 0`). */
  function ModShard(h: int, n: int): (r: int)
    requires n > 0
    ensures 0 <= r < n
  {
    h % n
  }

  /** The residue is the unique `r` in `[0, n)` with `h == q * n + r`. */
  lemma ModShardUnique(h: int, n: int, q: int, r: int)
    requires n > 0 && 0 <= r < n && h == q * n + r
    ensures ModShard(h, n) == r
  {
    DivModUnique(h, n, q, r);
  }

  /** Keys `n` apart land on the same shard. */
  lemma ModShardPeriodic(h: int, n: int)
    requires n > 0
    ensures ModShard(h + n, n) == ModShard(h, n)
  {
    assert h + n == (h / n + 1) * n + h % n;
    ModShardUnique(h + n, n, h / n + 1, h % n);
  }

  /** Python's `h % n` for any non-zero `n`: the result has the sign of `n`,
      so a negative `n` gives a value in `(n, 0]`. */
  function PyMod(h: int, n: int): (r: int)
    requires n != 0
    ensures n > 0 ==> r == ModShard(h, n)
    ensures n < 0 ==> n < r <= 0 && r == -ModShard(-h, -n)
  {
    if n > 0 then ModShard(h, n) else -ModShard(-h, -n)
  }

  /** With a negative modulus the residue differs from `h` by a multiple of
      `n`, as Python's floored modulo requires. */
  lemma PyModNegative(h: int, n: int)
    requires n < 0
    ensures exists q :: h == q * n + PyMod(h, n)
  {
    var m := -n;
    var q := (-h) / m;
    assert -h == q * m + (-h) % m;
    assert h == q * n + PyMod(h, n);
  }

  /** Keys in `[0, n)` are their own shard, and key `-1` lands on the last one. */
  lemma ModShardSmallKeys(n: int)
    requires n > 0
    ensures forall h :: 0 <= h < n ==> ModShard(h, n) == h
    ensures ModShard(-1, n) == n - 1
  {
  }

  /** `RangeBasedSharding` (with `shardKey` the identity on integer keys) and
      `HashBasedSharding` (with `shardKey` the md5 digest of string keys): the
      shard of a key is `shardKey(key) % num_shards`. A count of 0 makes every
      lookup raise `ZeroDivisionError`; a negative count creates no shard, so
      every lookup raises `KeyError`. */
  class ModuloSharding<K(==,!new)> {
    const numShards: int
    const shardKey: K -> int
    var shards: map<int, map<K, Value>>

    /** The shards are `range(num_shards)`. */
    ghost predicate Valid()
      reads this
    {
      forall i :: i in shards <==> 0 <= i < numShards
    }

    constructor(numShards: int, shardKey: K -> int)
      ensures Valid()
      ensures this.numShards == numShards && this.shardKey == shardKey
      ensures shards == EmptyShards(numShards)
    {
      this.numShards := numShards;
      this.shardKey := shardKey;
      shards := EmptyShards(numShards);
    }

    /** `get_shard`: the key's residue, an existing shard iff there are any. */
    function GetShard(key: K): (r: Result<int>)
      requires Valid()
      reads this
      ensures r.Err? <==> numShards == 0
      ensures r.Err? ==> r.message == ModuloByZero
      ensures r.Ok? ==> (r.value in shards <==> numShards > 0)
    {
      if numShards == 0 then Err(ModuloByZero) else Ok(PyMod(shardKey(key), numShards))
    }

    /** `set`: stores the value in the key's shard; with no shards the lookup
        raises and nothing changes. */
    method Set(key: K, value: Value) returns (r: Result<Placement<K>>)
      requires Valid()
      modifies this
      ensures Valid()
      ensures numShards <= 0 ==> r == Err(if numShards == 0 then ModuloByZero else KeyError) && shards == old(shards)
      ensures numShards > 0 ==>
                && r == Ok(Placement(GetShard(key).value, key, value))
                && shards == Place(old(shards), GetShard(key).value, key, value)
                && Get(key) == Ok(Some(value))
                && forall k :: k != key ==> Get(k) == old(Get(k))
    {
      var id := GetShard(key);
      if id.Err? {
        return Err(id.message);
      }
      if id.value !in shards {
        return Err(KeyError);
      }
      shards := Place(shards, id.value, key, value);
      r := Ok(Placement(id.value, key, value));
    }

    /** `get`: the value stored under the key in its shard, if any; with no
        shards the lookup raises. */
    function Get(key: K): (r: Result<Option<Value>>)
      requires Valid()
      reads this
      ensures r.Ok? <==> numShards > 0
      ensures numShards <= 0 ==> r == Err(if numShards == 0 then ModuloByZero else KeyError)
    {
      var id := GetShard(key);
      if id.Err? then Err(id.message)
      else if id.value !in shards then Err(KeyError)
      else Ok(Lookup(shards, id.value, key))
    }
  }

  // ---------------------------------------------------------------------------
  // Directory-based sharding
  // ---------------------------------------------------------------------------

  /** `DirectoryBasedSharding`: a key is assigned a shard the first time it is
      looked up, and the directory remembers it. */
  class DirectorySharding {
    const numShards: int
    var shards: map<int, map<string, Value>>
    var directory: map<string, int>

    /** The shards are `0 .. numShards - 1`, the directory points into them, and
        every stored key sits in the shard the directory records for it. */
    ghost predicate Valid()
      reads this
    {
      && (forall i :: i in shards <==> 0 <= i < numShards)
      && (forall k :: k in directory ==> directory[k] in shards)
      && (forall i, k :: i in shards && k in shards[i] ==> k in directory && directory[k] == i)
    }

    constructor(numShards: int)
      ensures Valid()
      ensures this.numShards == numShards
      ensures shards == EmptyShards(numShards) && directory == map[]
    {
      this.numShards := numShards;
      shards := EmptyShards(numShards);
      directory := map[];
    }

    /** `get_shard`, with `choice` the value of `random.randint(0, num_shards - 1)`;
        with no shards that draw raises `ValueError` (no key can be in the
        directory then). */
    method GetShard(key: string, choice: int) returns (r: Result<int>)
      requires Valid() && (numShards > 0 ==> 0 <= choice < numShards)
      modifies this
      ensures Valid() && shards == old(shards)
      ensures key in old(directory) ==> r == Ok(old(directory)[key]) && directory == old(directory)
      ensures key !in old(directory) && numShards <= 0 ==> r == Err(EmptyRange) && directory == old(directory)
      ensures key !in old(directory) && numShards > 0 ==> r == Ok(choice) && directory == old(directory)[key := choice]
      ensures r.Err? <==> numShards <= 0
      ensures r.Ok? ==> r.value in shards && key in directory && directory[key] == r.value
    {
      if key in directory {
        assert 0 <= directory[key] < numShards;
        return Ok(directory[key]);
      }
      if numShards <= 0 {
        return Err(EmptyRange);
      }
      directory := directory[key := choice];
      r := Ok(choice);
    }

    /** `set`: stores the value in the key's recorded or newly drawn shard. */
    method Set(key: string, value: Value, choice: int) returns (r: Result<Placement<string>>)
      requires Valid() && (numShards > 0 ==> 0 <= choice < numShards)
      modifies this
      ensures Valid()
      ensures numShards <= 0 ==> r == Err(EmptyRange) && shards == old(shards) && directory == old(directory)
      ensures numShards > 0 ==>
                && r.Ok?
                && (key in old(directory) ==> r.value.shardId == old(directory)[key])
                && (key !in old(directory) ==> r.value.shardId == choice)
                && directory == old(directory)[key := r.value.shardId]
                && r.value == Placement(directory[key], key, value)
                && shards == Place(old(shards), r.value.shardId, key, value)
                && Get(key) == Some(value)
                && forall k :: k != key ==> Get(k) == old(Get(k))
    {
      var id := GetShard(key, choice);
      if id.Err? {
        return Err(id.message);
      }
      shards := Place(shards, id.value, key, value);
      r := Ok(Placement(id.value, key, value));
    }

    /** `get`: `None` for a key the directory has never seen. */
    function Get(key: string): (r: Option<Value>)
      requires Valid()
      reads this
      ensures key !in directory ==> r == None
    {
      if key in directory then Lookup(shards, directory[key], key) else None
    }

    /** `rebalance`. A key the directory knows but whose shard does not hold it
        makes `pop` raise before anything changes; an unknown target shard
        raises after the value has been popped from its old shard. */
    method Rebalance(key: string, newShardId: int) returns (r: Result<Option<Move>>)
      requires Valid()
      modifies this
      ensures Valid()
      ensures key !in old(directory) ==> r == Ok(None) && unchanged(this)
      ensures key in old(directory) && key !in old(shards)[old(directory)[key]] ==>
                r.Err? && unchanged(this)
      ensures key in old(directory) && key in old(shards)[old(directory)[key]] && newShardId !in old(shards) ==>
                r.Err? && directory == old(directory)
                && shards == old(shards)[old(directory)[key] := old(shards)[old(directory)[key]] - {key}]
      ensures r.Ok? && r.value.Some? ==>
                && r.value.value == Move(key, old(directory)[key], newShardId)
                && directory == old(directory)[key := newShardId]
                && (forall k :: Get(k) == old(Get(k)))
      ensures r.Ok? <==> key !in old(directory) || (key in old(shards)[old(directory)[key]] && newShardId in old(shards))
    {
      if key !in directory {
        return Ok(None);
      }
      var oldShardId := directory[key];
      if key !in shards[oldShardId] {
        return Err(KeyError);
      }
      var value := shards[oldShardId][key];
      shards := shards[oldShardId := shards[oldShardId] - {key}];
      if newShardId !in shards {
        return Err(KeyError);
      }
      shards := Place(shards, newShardId, key, value);
      directory := directory[key := newShardId];
      r := Ok(Some(Move(key, oldShardId, newShardId)));
    }
  }

  // ---------------------------------------------------------------------------
  // Consistent hashing: the ring
  // ---------------------------------------------------------------------------

  /** The label `f'{shard_id}-{v}'` of virtual node `v` of a shard. */
  function Label(shard: nat, v: nat): string
  {
    DecimalString(shard) + "-" + DecimalString(v)
  }

  /** The ring positions of virtual nodes `0 .. v - 1` of `shard`, in loop order. */
  function ShardPoints(hash: string -> nat, shard: nat, v: nat): (r: seq<int>)
    ensures |r| == v
    ensures forall i :: 0 <= i < v ==> r[i] == hash(Label(shard, i))
  {
    if v == 0 then [] else ShardPoints(hash, shard, v - 1) + [hash(Label(shard, v - 1))]
  }

  /** The positions appended to `sorted_keys` for shards `0 .. shards - 1`,
      before sorting. */
  function RingPoints(hash: string -> nat, shards: nat, vnodes: nat): seq<int>
  {
    if shards == 0 then [] else RingPoints(hash, shards - 1, vnodes) + ShardPoints(hash, shards - 1, vnodes)
  }

  /** `ring` after the inner loop has placed virtual nodes `0 .. v - 1` of
      `shard` over `m`; a later node overwrites an earlier one at the same
      position. */
  function ShardRing(m: map<int, int>, hash: string -> nat, shard: nat, v: nat): map<int, int>
  {
    if v == 0 then m else ShardRing(m, hash, shard, v - 1)[hash(Label(shard, v - 1)) := shard]
  }

  /** `ring` after `_build_ring` has placed shards `0 .. shards - 1`. */
  function Ring(hash: string -> nat, shards: nat, vnodes: nat): map<int, int>
  {
    if shards == 0 then map[] else ShardRing(Ring(hash, shards - 1, vnodes), hash, shards - 1, vnodes)
  }

  lemma {:induction false} ShardRingCovers(m: map<int, int>, hash: string -> nat, shard: nat, v: nat)
    ensures forall h :: h in ShardRing(m, hash, shard, v) <==> h in m || h in ShardPoints(hash, shard, v)
    ensures forall h :: h in ShardRing(m, hash, shard, v) && h !in ShardPoints(hash, shard, v) ==>
              ShardRing(m, hash, shard, v)[h] == m[h]
    ensures forall h :: h in ShardPoints(hash, shard, v) ==> ShardRing(m, hash, shard, v)[h] == shard
  {
    if v > 0 {
      ShardRingCovers(m, hash, shard, v - 1);
    }
  }

  /** The ring holds exactly the positions appended to `sorted_keys`, each
      mapped to a shard that was placed. */
  lemma {:induction false} RingDomain(hash: string -> nat, shards: nat, vnodes: nat)
    ensures forall h :: h in Ring(hash, shards, vnodes) <==> h in RingPoints(hash, shards, vnodes)
    ensures forall h :: h in Ring(hash, shards, vnodes) ==> 0 <= Ring(hash, shards, vnodes)[h] < shards
  {
    if shards > 0 {
      var prev := Ring(hash, shards - 1, vnodes);
      RingDomain(hash, shards - 1, vnodes);
      ShardRingCovers(prev, hash, shards - 1, vnodes);
      assert RingPoints(hash, shards, vnodes) == RingPoints(hash, shards - 1, vnodes) + ShardPoints(hash, shards - 1, vnodes);
    }
  }

  /** The node of `shard` at a position is overwritten only by a later shard. */
  lemma {:induction false} RingLabels(hash: string -> nat, shards: nat, vnodes: nat)
    ensures forall s, v :: 0 <= s < shards && 0 <= v < vnodes ==>
              hash(Label(s, v)) in Ring(hash, shards, vnodes) && s <= Ring(hash, shards, vnodes)[hash(Label(s, v))]
  {
    if shards > 0 {
      var prev := Ring(hash, shards - 1, vnodes);
      RingLabels(hash, shards - 1, vnodes);
      ShardRingCovers(prev, hash, shards - 1, vnodes);
      forall s, v | 0 <= s < shards && 0 <= v < vnodes
        ensures hash(Label(s, v)) in Ring(hash, shards, vnodes) && s <= Ring(hash, shards, vnodes)[hash(Label(s, v))]
      {
        if s == shards - 1 {
          assert ShardPoints(hash, shards - 1, vnodes)[v] == hash(Label(s, v));
        }
      }
    }
  }

  /** Both facts about the ring together. */
  lemma RingCovers(hash: string -> nat, shards: nat, vnodes: nat)
    ensures forall h :: h in Ring(hash, shards, vnodes) <==> h in RingPoints(hash, shards, vnodes)
    ensures forall h :: h in Ring(hash, shards, vnodes) ==> 0 <= Ring(hash, shards, vnodes)[h] < shards
    ensures forall s, v :: 0 <= s < shards && 0 <= v < vnodes ==>
              hash(Label(s, v)) in Ring(hash, shards, vnodes) && s <= Ring(hash, shards, vnodes)[hash(Label(s, v))]
  {
    RingDomain(hash, shards, vnodes);
    RingLabels(hash, shards, vnodes);
  }

  // ---------------------------------------------------------------------------
  // Sorting (`list.sort()` on the ring positions)
  // ---------------------------------------------------------------------------

  predicate IsSorted(s: seq<int>)
  {
    forall i, j :: 0 <= i < j < |s| ==> s[i] <= s[j]
  }

  /** Inserts `x` before the first element it does not exceed. */
  function Insert(x: int, s: seq<int>): seq<int>
  {
    if s == [] || x <= s[0] then [x] + s else [s[0]] + Insert(x, s[1..])
  }

  /** The insertion sort of `s`. */
  function SortInts(s: seq<int>): seq<int>
  {
    if s == [] then [] else Insert(s[|s| - 1], SortInts(s[..|s| - 1]))
  }

  lemma {:induction false} InsertPermutes(x: int, s: seq<int>)
    ensures multiset(Insert(x, s)) == multiset(s) + multiset{x}
  {
    if s != [] && x > s[0] {
      InsertPermutes(x, s[1..]);
      assert s == [s[0]] + s[1..];
    }
  }

  lemma {:induction false} InsertSorted(x: int, s: seq<int>)
    requires IsSorted(s)
    ensures IsSorted(Insert(x, s))
  {
    if s != [] && x > s[0] {
      var tail := s[1..];
      InsertSorted(x, tail);
      InsertPermutes(x, tail);
      var t := Insert(x, tail);
      forall i | 0 <= i < |t|
        ensures s[0] <= t[i]
      {
        assert t[i] in multiset(t);
        if t[i] != x {
          assert t[i] in multiset(tail);
          var j :| 0 <= j < |tail| && tail[j] == t[i];
          assert s[j + 1] == t[i];
        }
      }
      assert Insert(x, s) == [s[0]] + t;
    }
  }

  /** `SortInts` sorts: its result is ordered and a permutation of its input. */
  lemma {:induction false} SortIntsSorts(s: seq<int>)
    ensures IsSorted(SortInts(s)) && multiset(SortInts(s)) == multiset(s)
  {
    if s != [] {
      SortIntsSorts(s[..|s| - 1]);
      InsertSorted(s[|s| - 1], SortInts(s[..|s| - 1]));
      InsertPermutes(s[|s| - 1], SortInts(s[..|s| - 1]));
      assert s == s[..|s| - 1] + [s[|s| - 1]];
    }
  }

  /** Every sorted ring position is a key of the ring. */
  lemma SortedPointsInRing(hash: string -> nat, shards: nat, vnodes: nat)
    ensures var keys := SortInts(RingPoints(hash, shards, vnodes));
            forall i :: 0 <= i < |keys| ==> keys[i] in Ring(hash, shards, vnodes)
  {
    RingCovers(hash, shards, vnodes);
    var points := RingPoints(hash, shards, vnodes);
    var keys := SortInts(points);
    SortIntsSorts(points);
    forall i | 0 <= i < |keys|
      ensures keys[i] in Ring(hash, shards, vnodes)
    {
      assert keys[i] in multiset(points);
    }
  }

  // ---------------------------------------------------------------------------
  // Consistent hashing: lookup
  // ---------------------------------------------------------------------------

  /** The index of the first position `>= h`, or `|keys|` if there is none. */
  function FirstAtLeast(keys: seq<int>, h: int): (r: nat)
    ensures r <= |keys|
    ensures forall j :: 0 <= j < r ==> keys[j] < h
    ensures r < |keys| ==> keys[r] >= h
  {
    if keys == [] then 0
    else if keys[0] >= h then 0
    else 1 + FirstAtLeast(keys[1..], h)
  }

  /** `get_shard`'s answer on a ring: the shard of the first position at or
      after the key's hash, wrapping to the first position; an empty ring
      raises `IndexError`. */
  function RingShard(keys: seq<int>, ring: map<int, int>, h: int): Result<int>
    requires forall i :: 0 <= i < |keys| ==> keys[i] in ring
  {
    if keys == [] then Err(IndexError)
    else
      var i := FirstAtLeast(keys, h);
      Ok(ring[keys[if i < |keys| then i else 0]])
  }

  /** `p` is the least position of `ring` at or after `h`, or, when every
      position is before `h`, the least position of all. */
  predicate IsSuccessor(ring: set<int>, h: int, p: int)
  {
    && p in ring
    && (p >= h || forall q :: q in ring ==> q < h)
    && (forall q :: q in ring && q >= h ==> p <= q)
    && (p < h ==> forall q :: q in ring ==> p <= q)
  }

  /** On sorted positions that are exactly the keys of the ring, the lookup
      picks the successor of `h` on the ring. */
  lemma RingShardIsSuccessor(keys: seq<int>, ring: map<int, int>, h: int)
    requires IsSorted(keys) && keys != []
    requires forall i :: 0 <= i < |keys| ==> keys[i] in ring
    requires forall q :: q in ring ==> q in keys
    ensures exists p :: p in ring && RingShard(keys, ring, h) == Ok(ring[p]) && IsSuccessor(ring.Keys, h, p)
  {
    var i := FirstAtLeast(keys, h);
    var p := keys[if i < |keys| then i else 0];
    assert IsSuccessor(ring.Keys, h, p);
  }

  /** Whether `remove_shard` copies `key` of the removed shard `from` into shard
      `j`, given the route `targets[key]` that `get_shard` computes for it. */
  predicate Receives(targets: map<string, Result<int>>, key: string, from: int, j: int)
  {
    key in targets && targets[key] == Ok(j) && j != from
  }

  /** `ConsistentHashing`. `builtFor` is the value `num_shards` had when the
      ring was last built: `remove_shard` builds the ring before it decrements
      `num_shards`. */
  class ConsistentHashing {
    var numShards: int
    const virtualNodes: int
    const hash: string -> nat
    var shards: map<int, map<string, Value>>
    var ring: map<int, int>
    var sortedKeys: seq<int>
    ghost var builtFor: int

    /** The ring and its sorted positions are those `_build_ring` produced
        for `builtFor` shards. */
    ghost predicate Valid()
      reads this`ring, this`sortedKeys, this`builtFor
    {
      && ring == Ring(hash, Nat(builtFor), Nat(virtualNodes))
      && sortedKeys == SortInts(RingPoints(hash, Nat(builtFor), Nat(virtualNodes)))
      && KeysInRing()
    }

    ghost predicate KeysInRing()
      reads this`ring, this`sortedKeys
    {
      forall i :: 0 <= i < |sortedKeys| ==> sortedKeys[i] in ring
    }

    constructor(numShards: int, virtualNodes: int, hash: string -> nat)
      ensures Valid()
      ensures this.numShards == numShards && this.virtualNodes == virtualNodes && this.hash == hash
      ensures shards == EmptyShards(numShards) && builtFor == numShards
    {
      this.numShards := numShards;
      this.virtualNodes := virtualNodes;
      this.hash := hash;
      shards := EmptyShards(numShards);
      ring := map[];
      sortedKeys := [];
      builtFor := numShards;
      new;
      BuildRing();
    }

    /** `_build_ring`: one ring position per virtual node of every shard in
        `range(num_shards)`, with `sorted_keys` the positions in order. */
    method BuildRing()
      modifies this
      ensures Valid()
      ensures builtFor == numShards
      ensures ring == Ring(hash, Nat(numShards), Nat(virtualNodes))
      ensures sortedKeys == SortInts(RingPoints(hash, Nat(numShards), Nat(virtualNodes)))
      ensures numShards == old(numShards) && shards == old(shards)
    {
      ring := map[];
      sortedKeys := [];
      var vnodes := Nat(virtualNodes);
      var shard: nat := 0;
      while shard < Nat(numShards)
        invariant shard <= Nat(numShards)
        invariant ring == Ring(hash, shard, vnodes)
        invariant sortedKeys == RingPoints(hash, shard, vnodes)
        invariant numShards == old(numShards) && shards == old(shards)
      {
        PlaceShard(shard, vnodes);
        shard := shard + 1;
      }
      sortedKeys := SortInts(sortedKeys);
      SortedPointsInRing(hash, shard, vnodes);
      builtFor := numShards;
    }

    /** The inner loop of `_build_ring`: places the virtual nodes of `shard`. */
    method PlaceShard(shard: nat, vnodes: nat)
      requires ring == Ring(hash, shard, vnodes) && sortedKeys == RingPoints(hash, shard, vnodes)
      modifies this
      ensures ring == Ring(hash, shard + 1, vnodes) && sortedKeys == RingPoints(hash, shard + 1, vnodes)
      ensures numShards == old(numShards) && shards == old(shards) && builtFor == old(builtFor)
    {
      var v: nat := 0;
      while v < vnodes
        invariant v <= vnodes
        invariant ring == ShardRing(Ring(hash, shard, vnodes), hash, shard, v)
        invariant sortedKeys == RingPoints(hash, shard, vnodes) + ShardPoints(hash, shard, v)
        invariant numShards == old(numShards) && shards == old(shards) && builtFor == old(builtFor)
      {
        var h := hash(Label(shard, v));
        ring := ring[h := shard];
        sortedKeys := sortedKeys + [h];
        v := v + 1;
      }
    }

    /** The shard `get_shard` picks for `key`. */
    ghost function RouteOf(key: string): Result<int>
      requires KeysInRing()
      reads this`ring, this`sortedKeys
    {
      RingShard(sortedKeys, ring, hash(key))
    }

    /** Routing in terms of the ring alone: a key goes to the shard of the
        least ring position at or after its hash, or, past the last position,
        of the least position overall. */
    lemma RoutesToSuccessor(key: string)
      requires Valid() && ring != map[]
      ensures exists p :: p in ring && RouteOf(key) == Ok(ring[p]) && IsSuccessor(ring.Keys, hash(key), p)
    {
      var points := RingPoints(hash, Nat(builtFor), Nat(virtualNodes));
      RingCovers(hash, Nat(builtFor), Nat(virtualNodes));
      SortIntsSorts(points);
      forall q | q in ring
        ensures q in sortedKeys
      {
        assert q in multiset(sortedKeys);
      }
      RingShardIsSuccessor(sortedKeys, ring, hash(key));
    }

    /** `get_shard`: scans the sorted positions for the first one `>= hash(key)`. */
    method GetShard(key: string) returns (r: Result<int>)
      requires KeysInRing()
      ensures r == RouteOf(key)
    {
      var keyHash := hash(key);
      var i := 0;
      while i < |sortedKeys|
        invariant 0 <= i <= |sortedKeys|
        invariant forall j :: 0 <= j < i ==> sortedKeys[j] < keyHash
      {
        if sortedKeys[i] >= keyHash {
          return Ok(ring[sortedKeys[i]]);
        }
        i := i + 1;
      }
      if |sortedKeys| == 0 {
        return Err(IndexError);
      }
      return Ok(ring[sortedKeys[0]]);
    }

    /** `set`: raises when the ring is empty or routes to a shard that is gone. */
    method Set(key: string, value: Value) returns (r: Result<Placement<string>>)
      requires Valid()
      modifies this
      ensures Valid() && numShards == old(numShards)
      ensures ring == old(ring) && sortedKeys == old(sortedKeys) && builtFor == old(builtFor)
      ensures r.Ok? <==> RouteOf(key).Ok? && RouteOf(key).value in old(shards)
      ensures r.Ok? ==> r.value == Placement(RouteOf(key).value, key, value)
                        && shards == Place(old(shards), RouteOf(key).value, key, value)
      ensures r.Err? ==> shards == old(shards)
    {
      var id := GetShard(key);
      if id.Err? {
        return Err(id.message);
      }
      if id.value !in shards {
        return Err(KeyError);
      }
      shards := Place(shards, id.value, key, value);
      r := Ok(Placement(id.value, key, value));
    }

    /** `get`: raises like `set`, otherwise the value in the routed shard. */
    method Get(key: string) returns (r: Result<Option<Value>>)
      requires Valid()
      ensures r.Ok? <==> RouteOf(key).Ok? && RouteOf(key).value in shards
      ensures r.Ok? ==> r.value == Lookup(shards, RouteOf(key).value, key)
    {
      var id := GetShard(key);
      if id.Err? {
        return Err(id.message);
      }
      if id.value !in shards {
        return Err(KeyError);
      }
      r := Ok(Lookup(shards, id.value, key));
    }

    /** `add_shard`: the new shard gets id `num_shards`, replacing any shard
        already stored under that id, and the ring is rebuilt. */
    method AddShard() returns (id: int)
      requires Valid()
      modifies this
      ensures Valid()
      ensures id == old(numShards) && numShards == old(numShards) + 1
      ensures shards == old(shards)[id := map[]]
      ensures builtFor == numShards
    {
      id := numShards;
      numShards := numShards + 1;
      shards := shards[id := map[]];
      BuildRing();
    }

    /** `remove_shard`. Each key of the removed shard is copied to the shard
        `get_shard` routes it to, on the ring as it was before the removal,
        unless that is the removed shard itself; the shard is then deleted, the
        ring rebuilt over the not yet decremented `num_shards`, and `num_shards`
        decremented. A route that raises stops the copying part-way. */
    method RemoveShard(shardId: int) returns (r: Result<()>)
      requires Valid()
      modifies this
      ensures Valid()
      ensures shardId !in old(shards) ==> r == Ok(()) && unchanged(this)
      ensures shardId in old(shards) ==>
                (r.Ok? <==> forall k :: k in old(shards)[shardId] ==> old(Placeable(k, shardId, shards)))
      ensures shardId in old(shards) && r.Ok? ==>
                && shards.Keys == old(shards).Keys - {shardId}
                && numShards == old(numShards) - 1 && builtFor == old(numShards)
                && (old(builtFor) == old(numShards) ==> ring == old(ring) && sortedKeys == old(sortedKeys))
                && (var after := shards; old(Moved(after, shards, shardId)))
      ensures r.Err? ==> shards.Keys == old(shards).Keys && numShards == old(numShards)
    {
      if shardId !in shards {
        return Ok(());
      }
      r := CopyOut(shardId);
      if r.Err? {
        return;
      }
      ghost var kept := shards - {shardId};
      assert Moved(kept, old(shards), shardId);
      DropShard(shardId);
    }

    /** The end of `remove_shard`: deletes the shard, rebuilds the ring over the
        current `num_shards` and only then decrements it. */
    method DropShard(shardId: int)
      requires Valid()
      modifies this
      ensures Valid()
      ensures shards == old(shards) - {shardId}
      ensures numShards == old(numShards) - 1 && builtFor == old(numShards)
      ensures old(builtFor) == old(numShards) ==> ring == old(ring) && sortedKeys == old(sortedKeys)
    {
      shards := shards - {shardId};
      BuildRing();
      numShards := numShards - 1;
    }

    /** Whether `remove_shard` of shard `from` copies `key` into shard `j`. */
    ghost predicate CopiedTo(key: string, from: int, j: int)
      requires KeysInRing()
      reads this`ring, this`sortedKeys
    {
      RouteOf(key) == Ok(j) && j != from
    }

    /** Whether `remove_shard` of shard `from` can place `key`: it is routed
        either to `from` itself or to a shard of `s0`. */
    ghost predicate Placeable(key: string, from: int, s0: map<int, map<string, Value>>)
      requires KeysInRing()
      reads this`ring, this`sortedKeys
    {
      RouteOf(key).Ok? && (RouteOf(key).value == from || RouteOf(key).value in s0)
    }

    /** The shards after the keys in `done` of `data`, the contents of shard
        `from`, have been copied out of `s0`. */
    ghost predicate CopiedOut(s0: map<int, map<string, Value>>, data: map<string, Value>, from: int, done: set<string>)
      requires KeysInRing()
      reads this`ring, this`sortedKeys, this`shards
    {
      && shards.Keys == s0.Keys
      && (forall j, k :: j in shards ==>
            Lookup(shards, j, k)
            == if k in done && k in data && CopiedTo(k, from, j) then Some(data[k]) else Lookup(s0, j, k))
    }

    /** The shards `after` hold each key of shard `from` of `s0` in the shard
        it is copied to, and otherwise what `s0` held. */
    ghost predicate Moved(after: map<int, map<string, Value>>, s0: map<int, map<string, Value>>, from: int)
      requires KeysInRing() && from in s0
      reads this`ring, this`sortedKeys
    {
      && after.Keys <= s0.Keys
      && forall j, k :: j in after ==>
        Lookup(after, j, k)
        == if k in s0[from] && CopiedTo(k, from, j) then Some(s0[from][k]) else Lookup(s0, j, k)
    }

    /** The copying loop of `remove_shard`, over the keys of the removed shard. */
    method CopyOut(shardId: int) returns (r: Result<()>)
      requires KeysInRing() && shardId in shards
      modifies this`shards
      ensures shardId in shards && shards.Keys == old(shards).Keys && shards[shardId] == old(shards)[shardId]
      ensures r.Ok? <==> forall k :: k in old(shards)[shardId] ==> Placeable(k, shardId, old(shards))
      ensures r.Ok? ==> Moved(shards, old(shards), shardId)
    {
      var data := shards[shardId];
      ghost var s0 := shards;
      var pending := data.Keys;
      ghost var done: set<string> := {};
      while pending != {}
        invariant pending <= data.Keys && done == data.Keys - pending
        invariant shardId in shards && shards[shardId] == data && CopiedOut(s0, data, shardId, done)
        invariant forall k :: k in done ==> Placeable(k, shardId, s0)
        decreases |pending|
      {
        var key :| key in pending;
        r := CopyKey(shardId, data, key, s0, done);
        if r.Err? {
          return;
        }
        pending := pending - {key};
        done := done + {key};
      }
      r := Ok(());
    }

    /** One iteration of the copying loop: copies `key` to the shard it is
        routed to, unless that is the removed shard. */
    method CopyKey(shardId: int, data: map<string, Value>, key: string,
                   ghost s0: map<int, map<string, Value>>, ghost done: set<string>) returns (r: Result<()>)
      requires KeysInRing() && shardId in shards && shards[shardId] == data
      requires key in data && key !in done && CopiedOut(s0, data, shardId, done)
      modifies this`shards
      ensures shardId in shards && shards[shardId] == data
      ensures r.Ok? <==> Placeable(key, shardId, s0)
      ensures r.Ok? ==> CopiedOut(s0, data, shardId, done + {key})
      ensures r.Err? ==> shards == old(shards)
    {
      var id := GetShard(key);
      if id.Err? {
        return Err(id.message);
      }
      if id.value != shardId {
        if id.value !in shards {
          return Err(KeyError);
        }
        ghost var before := shards;
        shards := Place(shards, id.value, key, data[key]);
        forall j, k | j in shards
          ensures Lookup(shards, j, k)
                  == if k in done + {key} && k in data && CopiedTo(k, shardId, j) then Some(data[k]) else Lookup(s0, j, k)
        {
          PlaceThenLookup(before, id.value, key, data[key], j, k);
        }
      }
      r := Ok(());
    }
  }
}
