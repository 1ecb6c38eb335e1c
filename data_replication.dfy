/** Master-slave and master-master replication of data_replication.py.

    Times are real seconds passed in by the caller. The replication that the
    source schedules as a background task after each write is a separate
    step, `ReplicateToSlaves` or `ReplicateToOtherMasters`, which the caller
    runs after the network delay. */
module DataReplication {
  import opened Common

  /** A stored value; a `Dict` is what the `merge` policy combines. */
  datatype Value = Scalar(s: string) | Dict(fields: map<string, Value>)

  /** An entry of a master's `write_log`; `masterId` is only logged by
      master-master writes. */
  datatype WriteRecord = WriteRecord(key: string, value: Value, timestamp: real, masterId: Option<string>)

  /** `Master`. */
  datatype Master = Master(id: string, data: map<string, Value>, writeLog: seq<WriteRecord>)

  /** `Slave`. */
  datatype Slave = Slave(id: string, data: map<string, Value>, replicationLag: real, lastReplicated: real)

  /** `{'success': True, 'key', 'value'}`, with `master_id` for master-master writes. */
  datatype WriteAck = WriteAck(key: string, value: Value, masterId: Option<string>)

  /** A read's answer: the value, where it came from and, for master-slave
      reads, the replication lag in milliseconds. */
  datatype ReadResult = ReadResult(value: Value, source: string, lag: Option<real>)

  /** The position of the first slave with the given id. */
  function FindSlave(slaves: seq<Slave>, id: string): (r: Option<nat>)
    ensures r.Some? ==> r.value < |slaves| && slaves[r.value].id == id
                        && forall j :: 0 <= j < r.value ==> slaves[j].id != id
    ensures r.None? ==> forall j :: 0 <= j < |slaves| ==> slaves[j].id != id
  {
    if slaves == [] then None
    else if slaves[0].id == id then Some(0)
    else
      var rest := FindSlave(slaves[1..], id);
      if rest.Some? then Some(rest.value + 1) else None
  }

  /** The position of the first master with the given id. */
  function FindMaster(masters: seq<Master>, id: string): (r: Option<nat>)
    ensures r.Some? ==> r.value < |masters| && masters[r.value].id == id
                        && forall j :: 0 <= j < r.value ==> masters[j].id != id
    ensures r.None? ==> forall j :: 0 <= j < |masters| ==> masters[j].id != id
  {
    if masters == [] then None
    else if masters[0].id == id then Some(0)
    else
      var rest := FindMaster(masters[1..], id);
      if rest.Some? then Some(rest.value + 1) else None
  }

  // ---------------------------------------------------------------------------
  // Master-slave
  // ---------------------------------------------------------------------------

  /** `read` on a state whose read counter has already been incremented to
      `readCount`: the round-robin slave if it has the key, else the master. */
  function SlaveRead(master: Master, slaves: seq<Slave>, readCount: nat, key: string, preferSlave: bool): (r: Option<ReadResult>)
    ensures preferSlave && slaves != [] && key in slaves[readCount % |slaves|].data ==>
              r == Some(ReadResult(slaves[readCount % |slaves|].data[key], slaves[readCount % |slaves|].id,
                                   Some(slaves[readCount % |slaves|].replicationLag)))
    ensures !(preferSlave && slaves != [] && key in slaves[readCount % |slaves|].data) ==>
              r == if key in master.data then Some(ReadResult(master.data[key], "master", Some(0.0))) else None
  {
    if preferSlave && slaves != [] && key in slaves[readCount % |slaves|].data then
      var s := slaves[readCount % |slaves|];
      Some(ReadResult(s.data[key], s.id, Some(s.replicationLag)))
    else if key in master.data then Some(ReadResult(master.data[key], "master", Some(0.0)))
    else None
  }

  /** Once a write has reached the master and every slave, every read of the
      key returns the written value, whichever slave the round robin picks. */
  lemma ReadAfterReplication(master: Master, slaves: seq<Slave>, readCount: nat, key: string, preferSlave: bool, v: Value)
    requires key in master.data && master.data[key] == v
    requires forall i :: 0 <= i < |slaves| ==> key in slaves[i].data && slaves[i].data[key] == v
    ensures SlaveRead(master, slaves, readCount, key, preferSlave).Some?
    ensures SlaveRead(master, slaves, readCount, key, preferSlave).value.value == v
  {
    if preferSlave && slaves != [] {
      var i := readCount % |slaves|;
      assert key in slaves[i].data;
    }
  }

  /** `MasterSlaveReplication`. */
  class MasterSlaveReplication {
    var master: Master
    var slaves: seq<Slave>
    const replicationDelay: real
    var writes: nat
    var readCount: nat
    var replications: nat

    /** `num_slaves` slaves named `slave-0`, `slave-1`, ..., and an empty
        master. */
    constructor(numSlaves: int, replicationDelay: real, now: real)
      ensures master == Master("master", map[], []) && |slaves| == Max(0, numSlaves)
      ensures forall i :: 0 <= i < |slaves| ==> slaves[i] == Slave("slave-" + DecimalString(i), map[], 0.0, now)
      ensures this.replicationDelay == replicationDelay && writes == 0 && readCount == 0 && replications == 0
    {
      master := Master("master", map[], []);
      slaves := seq(Max(0, numSlaves), i requires 0 <= i => Slave("slave-" + DecimalString(i), map[], 0.0, now));
      this.replicationDelay := replicationDelay;
      writes, readCount, replications := 0, 0, 0;
    }

    /** `write`: sets the master's value and logs the write. */
    method Write(key: string, value: Value, now: real) returns (ack: WriteAck)
      modifies this
      ensures master == old(master).(data := old(master).data[key := value],
                                     writeLog := old(master).writeLog + [WriteRecord(key, value, now, None)])
      ensures writes == old(writes) + 1 && ack == WriteAck(key, value, None)
      ensures slaves == old(slaves) && readCount == old(readCount) && replications == old(replications)
    {
      master := master.(data := master.data[key := value],
                        writeLog := master.writeLog + [WriteRecord(key, value, now, None)]);
      writes := writes + 1;
      ack := WriteAck(key, value, None);
    }

    /** `_replicate_to_slaves`: every slave gets the key, and its lag is
        measured against the master's latest write. */
    method ReplicateToSlaves(key: string, value: Value, now: real)
      modifies this
      ensures |slaves| == |old(slaves)| && replications == old(replications) + |slaves|
      ensures forall i :: 0 <= i < |slaves| ==>
                slaves[i] == old(slaves)[i].(data := old(slaves)[i].data[key := value], lastReplicated := now,
                                             replicationLag := if master.writeLog == [] then old(slaves)[i].replicationLag
                                                               else (now - master.writeLog[|master.writeLog| - 1].timestamp) * 1000.0)
      ensures master == old(master) && writes == old(writes) && readCount == old(readCount)
    {
      for i := 0 to |slaves|
        invariant |slaves| == |old(slaves)| && replications == old(replications) + i
        invariant master == old(master) && writes == old(writes) && readCount == old(readCount)
        invariant forall j :: i <= j < |slaves| ==> slaves[j] == old(slaves)[j]
        invariant forall j :: 0 <= j < i ==>
                    slaves[j] == old(slaves)[j].(data := old(slaves)[j].data[key := value], lastReplicated := now,
                                                 replicationLag := if master.writeLog == [] then old(slaves)[j].replicationLag
                                                                   else (now - master.writeLog[|master.writeLog| - 1].timestamp) * 1000.0)
      {
        var s := slaves[i].(data := slaves[i].data[key := value], lastReplicated := now);
        if master.writeLog != [] {
          s := s.(replicationLag := (now - master.writeLog[|master.writeLog| - 1].timestamp) * 1000.0);
        }
        slaves := slaves[i := s];
        replications := replications + 1;
      }
    }

    /** `read`: counts the read, then answers as `SlaveRead` with the new
        count. */
    method Read(key: string, preferSlave: bool) returns (r: Option<ReadResult>)
      modifies this
      ensures readCount == old(readCount) + 1
      ensures r == SlaveRead(master, slaves, readCount, key, preferSlave)
      ensures master == old(master) && slaves == old(slaves)
      ensures writes == old(writes) && replications == old(replications)
    {
      readCount := readCount + 1;
      if preferSlave && |slaves| > 0 {
        var slave := slaves[readCount % |slaves|];
        if key in slave.data {
          return Some(ReadResult(slave.data[key], slave.id, Some(slave.replicationLag)));
        }
      }
      if key in master.data {
        return Some(ReadResult(master.data[key], "master", Some(0.0)));
      }
      r := None;
    }

    /** `promote_slave`: an unknown id raises; otherwise the slave becomes the
        master, keeping its data and the old master's write log, and leaves
        the slave list. */
    method PromoteSlave(slaveId: string) returns (r: Result<Master>)
      modifies this
      ensures FindSlave(old(slaves), slaveId).None? ==>
                r == Err("Slave " + slaveId + " not found") && master == old(master) && slaves == old(slaves)
      ensures FindSlave(old(slaves), slaveId).Some? ==>
                var k := FindSlave(old(slaves), slaveId).value;
                && master == Master(slaveId, old(slaves)[k].data, old(master).writeLog) && r == Ok(master)
                && slaves == old(slaves)[..k] + old(slaves)[k + 1..] && |slaves| == |old(slaves)| - 1
      ensures writes == old(writes) && readCount == old(readCount) && replications == old(replications)
    {
      var found := FindSlave(slaves, slaveId);
      if found.None? {
        return Err("Slave " + slaveId + " not found");
      }
      var k := found.value;
      var slave := slaves[k];
      master := Master(slave.id, slave.data, master.writeLog);
      slaves := slaves[..k] + slaves[k + 1..];
      r := Ok(master);
    }
  }

  // ---------------------------------------------------------------------------
  // Master-master
  // ---------------------------------------------------------------------------

  /** `_check_conflict`'s finding. */
  datatype Conflict = Conflict(key: string, existingValue: Value, newValue: Value, existingMaster: string, newMaster: string)

  /** `next(w for w in write_log if w['key'] == key)`: the FIRST logged write
      of the key. */
  function FirstWrite(log: seq<WriteRecord>, key: string): (r: Option<WriteRecord>)
    ensures r.Some? ==> r.value in log && r.value.key == key
    ensures r.Some? ==> exists i :: 0 <= i < |log| && log[i] == r.value
                                    && forall j :: 0 <= j < i ==> log[j].key != key
    ensures r.None? ==> forall j :: 0 <= j < |log| ==> log[j].key != key
  {
    if log == [] then None
    else if log[0].key == key then Some(log[0])
    else FirstWrite(log[1..], key)
  }

  /** `_check_conflict`: the first other master, in list order, that holds
      the key and whose first logged write of it is less than twice the
      replication delay old. */
  function CheckConflict(masters: seq<Master>, key: string, newValue: Value, writerId: string,
                         now: real, replicationDelay: real): (r: Option<Conflict>)
    ensures r.Some? ==> exists i :: 0 <= i < |masters| && masters[i].id != writerId && key in masters[i].data
                                    && r.value == Conflict(key, masters[i].data[key], newValue, masters[i].id, writerId)
    ensures r.None? ==> forall i :: 0 <= i < |masters| && masters[i].id != writerId && key in masters[i].data ==>
                          var w := FirstWrite(masters[i].writeLog, key);
                          w.None? || now - w.value.timestamp >= replicationDelay * 2.0
  {
    if masters == [] then None
    else
      var m := masters[0];
      var w := FirstWrite(m.writeLog, key);
      if m.id != writerId && key in m.data && w.Some? && now - w.value.timestamp < replicationDelay * 2.0 then
        Some(Conflict(key, m.data[key], newValue, m.id, writerId))
      else
        CheckConflict(masters[1..], key, newValue, writerId, now, replicationDelay)
  }

  /** Because only the first logged write of a key is looked at, a write
      made just now by another master goes unnoticed once that master's
      first write of the key is old. */
  lemma ConflictUsesFirstWrite()
    ensures var a := Master("master-0", map["k" := Scalar("new")],
                            [WriteRecord("k", Scalar("old"), 0.0, Some("master-0")),
                             WriteRecord("k", Scalar("new"), 10.0, Some("master-0"))]);
            CheckConflict([a, Master("master-1", map[], [])], "k", Scalar("x"), "master-1", 10.05, 0.1).None?
  {
    var a := Master("master-0", map["k" := Scalar("new")],
                    [WriteRecord("k", Scalar("old"), 0.0, Some("master-0")),
                     WriteRecord("k", Scalar("new"), 10.0, Some("master-0"))]);
    var masters := [a, Master("master-1", map[], [])];
    assert FirstWrite(a.writeLog, "k") == Some(a.writeLog[0]);
    assert masters[1..] == [Master("master-1", map[], [])];
    assert masters[1..][1..] == [];
  }

  /** `_resolve_conflict`. */
  function ResolveConflict(policy: string, existing: Value, newValue: Value): (r: Value)
    ensures policy == "last-write-wins" ==> r == newValue
    ensures policy == "first-write-wins" ==> r == existing
    ensures policy == "merge" && existing.Dict? && newValue.Dict? ==>
              r.Dict? && r.fields.Keys == existing.fields.Keys + newValue.fields.Keys
              && (forall k :: k in newValue.fields ==> r.fields[k] == newValue.fields[k])
              && (forall k :: k in existing.fields && k !in newValue.fields ==> r.fields[k] == existing.fields[k])
    ensures policy == "merge" && !(existing.Dict? && newValue.Dict?) ==> r == newValue
    ensures policy != "last-write-wins" && policy != "first-write-wins" && policy != "merge" ==> r == newValue
  {
    if policy == "last-write-wins" then newValue
    else if policy == "first-write-wins" then existing
    else if policy == "merge" then
      if existing.Dict? && newValue.Dict? then Dict(existing.fields + newValue.fields) else newValue
    else newValue
  }

  /** The position of the first master, in list order, holding the key. */
  function FirstHolding(masters: seq<Master>, key: string): (r: Option<nat>)
    ensures r.Some? ==> r.value < |masters| && key in masters[r.value].data
                        && forall j :: 0 <= j < r.value ==> key !in masters[j].data
    ensures r.None? ==> forall j :: 0 <= j < |masters| ==> key !in masters[j].data
  {
    if masters == [] then None
    else if key in masters[0].data then Some(0)
    else
      var rest := FirstHolding(masters[1..], key);
      if rest.Some? then Some(rest.value + 1) else None
  }

  /** `MasterMasterReplication.read`: the preferred master if it holds the
      key (an empty id prefers none), else the first master holding it. */
  function MasterRead(masters: seq<Master>, key: string, masterId: Option<string>): (r: Option<ReadResult>)
    ensures masterId.Some? && masterId.value != "" && FindMaster(masters, masterId.value).Some?
            && key in masters[FindMaster(masters, masterId.value).value].data ==>
              r == Some(ReadResult(masters[FindMaster(masters, masterId.value).value].data[key], masterId.value, None))
    ensures r.Some? ==> exists i :: 0 <= i < |masters| && key in masters[i].data
                                    && r.value == ReadResult(masters[i].data[key], masters[i].id, None)
    ensures !(masterId.Some? && masterId.value != "" && FindMaster(masters, masterId.value).Some?
              && key in masters[FindMaster(masters, masterId.value).value].data)
            && FirstHolding(masters, key).Some? ==>
              var first := FirstHolding(masters, key).value;
              r == Some(ReadResult(masters[first].data[key], masters[first].id, None))
    ensures r.None? <==> FirstHolding(masters, key).None?
  {
    var preferred := if masterId.Some? && masterId.value != "" then FindMaster(masters, masterId.value) else None;
    if preferred.Some? && key in masters[preferred.value].data then
      Some(ReadResult(masters[preferred.value].data[key], masters[preferred.value].id, None))
    else
      var first := FirstHolding(masters, key);
      if first.Some? then Some(ReadResult(masters[first.value].data[key], masters[first.value].id, None)) else None
  }

  /** `MasterMasterReplication`. */
  class MasterMasterReplication {
    var masters: seq<Master>
    const replicationDelay: real
    const conflictResolution: string
    var writes: nat
    var conflicts: nat
    var replications: nat

    /** `num_masters` empty masters named `master-0`, `master-1`, .... */
    constructor(numMasters: int, replicationDelay: real, conflictResolution: string)
      ensures |masters| == Max(0, numMasters)
      ensures forall i :: 0 <= i < |masters| ==> masters[i] == Master("master-" + DecimalString(i), map[], [])
      ensures this.replicationDelay == replicationDelay && this.conflictResolution == conflictResolution
      ensures writes == 0 && conflicts == 0 && replications == 0
    {
      masters := seq(Max(0, numMasters), i requires 0 <= i => Master("master-" + DecimalString(i), map[], []));
      this.replicationDelay := replicationDelay;
      this.conflictResolution := conflictResolution;
      writes, conflicts, replications := 0, 0, 0;
    }

    /** `write`: an unknown master raises; otherwise a conflicting value is
        resolved by the policy, and the (resolved) value is stored and logged
        on the writing master only. */
    method Write(masterId: string, key: string, value: Value, now: real) returns (r: Result<WriteAck>)
      modifies this
      ensures FindMaster(old(masters), masterId).None? ==>
                r == Err("Master " + masterId + " not found") && masters == old(masters)
                && writes == old(writes) && conflicts == old(conflicts)
      ensures FindMaster(old(masters), masterId).Some? ==>
                var k := FindMaster(old(masters), masterId).value;
                var c := CheckConflict(old(masters), key, value, masterId, now, replicationDelay);
                var v := if c.Some? then ResolveConflict(conflictResolution, c.value.existingValue, value) else value;
                && r == Ok(WriteAck(key, v, Some(masterId)))
                && masters == old(masters)[k := old(masters)[k].(data := old(masters)[k].data[key := v],
                                 writeLog := old(masters)[k].writeLog + [WriteRecord(key, v, now, Some(masterId))])]
                && writes == old(writes) + 1 && conflicts == old(conflicts) + (if c.Some? then 1 else 0)
      ensures replications == old(replications)
    {
      var found := FindMaster(masters, masterId);
      if found.None? {
        return Err("Master " + masterId + " not found");
      }
      var k := found.value;
      var v := value;
      var conflict := CheckConflict(masters, key, value, masterId, now, replicationDelay);
      if conflict.Some? {
        conflicts := conflicts + 1;
        v := ResolveConflict(conflictResolution, conflict.value.existingValue, value);
      }
      var m := masters[k];
      masters := masters[k := m.(data := m.data[key := v], writeLog := m.writeLog + [WriteRecord(key, v, now, Some(masterId))])];
      writes := writes + 1;
      r := Ok(WriteAck(key, v, Some(masterId)));
    }

    /** `_replicate_to_other_masters`: every master other than the writer
        gets the key; the writer and the logs are untouched. */
    method ReplicateToOtherMasters(writerId: string, key: string, value: Value)
      modifies this
      ensures |masters| == |old(masters)|
      ensures forall i :: 0 <= i < |masters| ==>
                masters[i] == if old(masters)[i].id != writerId
                              then old(masters)[i].(data := old(masters)[i].data[key := value])
                              else old(masters)[i]
      ensures replications == old(replications) + CountWhere(old(masters), (m: Master) => m.id != writerId)
      ensures writes == old(writes) && conflicts == old(conflicts)
    {
      for i := 0 to |masters|
        invariant |masters| == |old(masters)|
        invariant forall j :: i <= j < |masters| ==> masters[j] == old(masters)[j]
        invariant forall j :: 0 <= j < i ==>
                    masters[j] == if old(masters)[j].id != writerId
                                  then old(masters)[j].(data := old(masters)[j].data[key := value])
                                  else old(masters)[j]
        invariant replications == old(replications) + CountWhere(old(masters)[..i], (m: Master) => m.id != writerId)
        invariant writes == old(writes) && conflicts == old(conflicts)
      {
        assert old(masters)[..i + 1][..i] == old(masters)[..i];
        if masters[i].id != writerId {
          masters := masters[i := masters[i].(data := masters[i].data[key := value])];
          replications := replications + 1;
        }
      }
      assert old(masters)[..|masters|] == old(masters);
    }

    /** `read`. */
    method Read(key: string, masterId: Option<string>) returns (r: Option<ReadResult>)
      ensures r == MasterRead(masters, key, masterId)
    {
      r := MasterRead(masters, key, masterId);
    }
  }

  /** After a write on one master has been replicated, every master holds
      the value, so any read of the key returns it. */
  lemma MasterReadAfterReplication(masters: seq<Master>, key: string, masterId: Option<string>, v: Value)
    requires masters != []
    requires forall i :: 0 <= i < |masters| ==> key in masters[i].data && masters[i].data[key] == v
    ensures MasterRead(masters, key, masterId).Some? && MasterRead(masters, key, masterId).value.value == v
  {
    assert key in masters[0].data;
  }
}
