/** The three single-store systems of cap_theorem.py that illustrate the
    CAP trade-offs.

    Replication to other nodes only prints and sleeps in the source, so it is
    not modelled beyond the list of writes `resolve_partition` replays. The
    clock is an integer parameter. */
module CapTheorem {
  import opened Common

  /** The message of the exception a CP system raises while partitioned. */
  const Unavailable := "System unavailable due to partition"

  /** `data.get(key)`. */
  function Lookup(data: map<string, string>, key: string): (r: Option<string>)
    ensures r.Some? <==> key in data
    ensures r.Some? ==> r.value == data[key]
  {
    if key in data then Some(data[key]) else None
  }

  // ---------------------------------------------------------------------------
  // CPSystem
  // ---------------------------------------------------------------------------

  /** `CPSystem.write` on the store: rejected while partitioned. */
  function CPWriteStep(data: map<string, string>, partitioned: bool, key: string, value: string): (r: Result<map<string, string>>)
    ensures r.Err? <==> partitioned
    ensures r.Err? ==> r.message == Unavailable
    ensures r.Ok? ==> r.value.Keys == data.Keys + {key} && r.value[key] == value
                      && forall k :: k in data && k != key ==> r.value[k] == data[k]
  {
    if partitioned then Err(Unavailable) else Ok(data[key := value])
  }

  /** `CPSystem.read`: rejected while partitioned. */
  function CPReadOf(data: map<string, string>, partitioned: bool, key: string): (r: Result<Option<string>>)
    ensures r.Err? <==> partitioned
    ensures r.Ok? ==> r.value == Lookup(data, key)
  {
    if partitioned then Err(Unavailable) else Ok(Lookup(data, key))
  }

  /** Consistency: when not partitioned, a read after a write returns the
      written value, and a read of another key is unaffected. */
  lemma CPReadAfterWrite(data: map<string, string>, key: string, value: string, other: string)
    ensures var after := CPWriteStep(data, false, key, value).value;
            && CPReadOf(after, false, key) == Ok(Some(value))
            && (other != key ==> CPReadOf(after, false, other) == CPReadOf(data, false, other))
  {
  }

  /** `{'success': True, 'key': key, 'value': value}`, with the
      `consistent` flag the AP and CA systems add. */
  datatype WriteAck = WriteAck(key: string, value: string, consistent: bool)

  /** `CPSystem`. */
  class CPSystem {
    var data: map<string, string>
    var isPartitioned: bool

    constructor()
      ensures data == map[] && !isPartitioned
    {
      data := map[];
      isPartitioned := false;
    }

    /** `set_partitioned`. */
    method SetPartitioned(partitioned: bool)
      modifies this
      ensures isPartitioned == partitioned && data == old(data)
    {
      isPartitioned := partitioned;
    }

    /** `write`: stores the value, or raises while partitioned with the
        store unchanged. */
    method Write(key: string, value: string) returns (r: Result<WriteAck>)
      modifies this
      ensures var step := CPWriteStep(old(data), old(isPartitioned), key, value);
              && (r.Err? <==> step.Err?)
              && (step.Err? ==> r == Err(step.message) && data == old(data))
              && (step.Ok? ==> r == Ok(WriteAck(key, value, true)) && data == step.value)
      ensures isPartitioned == old(isPartitioned)
    {
      if isPartitioned {
        return Err(Unavailable);
      }
      data := data[key := value];
      r := Ok(WriteAck(key, value, true));
    }

    /** `read`. */
    function Read(key: string): (r: Result<Option<string>>)
      reads this
      ensures r == CPReadOf(data, isPartitioned, key)
      ensures r.Err? <==> isPartitioned
    {
      CPReadOf(data, isPartitioned, key)
    }
  }

  // ---------------------------------------------------------------------------
  // APSystem
  // ---------------------------------------------------------------------------

  /** A queued entry of `pending_writes`. */
  datatype PendingWrite = PendingWrite(key: string, value: string, timestamp: int)

  /** `APSystem.read`'s answer. */
  datatype APReadResult = APReadResult(value: Option<string>, consistent: bool, note: string)

  /** `APSystem.read`: always answers, flagged inconsistent while
      partitioned. */
  function APReadOf(data: map<string, string>, partitioned: bool, key: string): (r: APReadResult)
    ensures r.value == Lookup(data, key) && r.consistent == !partitioned
    ensures r.note == if partitioned then "Data may be stale due to partition" else "Data is consistent"
  {
    APReadResult(Lookup(data, key), !partitioned,
                 if partitioned then "Data may be stale due to partition" else "Data is consistent")
  }

  /** Availability: whatever the partition state, a read after a write on
      the same node returns the written value. */
  lemma APReadAfterWrite(data: map<string, string>, partitioned: bool, key: string, value: string)
    ensures APReadOf(data[key := value], partitioned, key).value == Some(value)
    ensures APReadOf(data[key := value], partitioned, key).consistent == !partitioned
  {
  }

  /** `APSystem`. */
  class APSystem {
    var data: map<string, string>
    var pendingWrites: seq<PendingWrite>
    var isPartitioned: bool

    constructor()
      ensures data == map[] && pendingWrites == [] && !isPartitioned
    {
      data := map[];
      pendingWrites := [];
      isPartitioned := false;
    }

    /** `set_partitioned`. */
    method SetPartitioned(partitioned: bool)
      modifies this
      ensures isPartitioned == partitioned && data == old(data) && pendingWrites == old(pendingWrites)
    {
      isPartitioned := partitioned;
    }

    /** `write`: always stores the value; while partitioned it is also
        queued for later replication. */
    method Write(key: string, value: string, now: int) returns (ack: WriteAck)
      modifies this
      ensures data == old(data)[key := value] && isPartitioned == old(isPartitioned)
      ensures isPartitioned ==> pendingWrites == old(pendingWrites) + [PendingWrite(key, value, now)]
      ensures !isPartitioned ==> pendingWrites == old(pendingWrites)
      ensures ack == WriteAck(key, value, !isPartitioned)
    {
      data := data[key := value];
      if isPartitioned {
        pendingWrites := pendingWrites + [PendingWrite(key, value, now)];
      }
      ack := WriteAck(key, value, !isPartitioned);
    }

    /** `read`. */
    function Read(key: string): (r: APReadResult)
      reads this
      ensures r == APReadOf(data, isPartitioned, key)
      ensures r.consistent <==> !isPartitioned
    {
      APReadOf(data, isPartitioned, key)
    }

    /** `resolve_partition`: replays every queued write in order (returned
        as key and value pairs), then empties the queue and clears the
        partition flag; the store itself is unchanged. */
    method ResolvePartition() returns (replayed: seq<(string, string)>)
      modifies this
      ensures |replayed| == |old(pendingWrites)|
      ensures forall i :: 0 <= i < |replayed| ==>
                replayed[i] == (old(pendingWrites)[i].key, old(pendingWrites)[i].value)
      ensures pendingWrites == [] && !isPartitioned && data == old(data)
    {
      replayed := [];
      for i := 0 to |pendingWrites|
        invariant |replayed| == i
        invariant forall j :: 0 <= j < i ==> replayed[j] == (pendingWrites[j].key, pendingWrites[j].value)
      {
        replayed := replayed + [(pendingWrites[i].key, pendingWrites[i].value)];
      }
      pendingWrites := [];
      isPartitioned := false;
    }
  }

  // ---------------------------------------------------------------------------
  // CASystem
  // ---------------------------------------------------------------------------

  /** `CASystem.read`'s answer. */
  datatype CAReadResult = CAReadResult(value: Option<string>, consistent: bool)

  /** `CASystem`: a single node, always consistent. */
  class CASystem {
    var data: map<string, string>

    constructor()
      ensures data == map[]
    {
      data := map[];
    }

    /** `write`. */
    method Write(key: string, value: string) returns (ack: WriteAck)
      modifies this
      ensures data == old(data)[key := value] && ack == WriteAck(key, value, true)
    {
      data := data[key := value];
      ack := WriteAck(key, value, true);
    }

    /** `read`. */
    function Read(key: string): (r: CAReadResult)
      reads this
      ensures r.value == Lookup(data, key) && r.consistent
    {
      CAReadResult(Lookup(data, key), true)
    }
  }

  /** A CA write followed by a read returns the written value, flagged
      consistent. */
  method CAReadAfterWrite(ca: CASystem, key: string, value: string) returns (r: CAReadResult)
    modifies ca
    ensures r == CAReadResult(Some(value), true)
  {
    var _ := ca.Write(key, value);
    r := ca.Read(key);
  }
}
