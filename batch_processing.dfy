/** The batch processor and the database batch operations of
    batch_processing.py.

    Times are integers passed in by the caller. Each step runs to completion
    before the next starts, so no flush is in progress when an item is added;
    the `processing` flag is still modelled. Processing an entry cannot fail
    in the source (the simulated work only sleeps), so every result is a
    success and `errors` stays 0. */
module BatchProcessing {
  import opened Common

  /** `BatchEntry`. */
  datatype BatchEntry<T> = BatchEntry(item: T, timestamp: int)

  /** `{'success': True, 'item': ...}`. */
  datatype ItemResult<T> = ItemResult(success: bool, item: T)

  /** The processor's configuration, with the defaults of `config.get`. */
  datatype BatchConfig = BatchConfig(batchSize: int, flushInterval: int)

  const DefaultBatchConfig := BatchConfig(10, 5)

  /** `get_stats`. */
  datatype BatchStats = BatchStats(processed: nat, batches: nat, errors: nat, pendingItems: nat, processing: bool)

  /** The items of a batch, in order. */
  function Items<T>(batch: seq<BatchEntry<T>>): (r: seq<T>)
    ensures |r| == |batch| && forall i :: 0 <= i < |r| ==> r[i] == batch[i].item
  {
    if batch == [] then [] else Items(batch[..|batch| - 1]) + [batch[|batch| - 1].item]
  }

  /** `BatchProcessor`. */
  class BatchProcessor<T> {
    const config: BatchConfig
    var batch: seq<BatchEntry<T>>
    var processing: bool
    var processed: nat
    var batches: nat
    var errors: nat
    /** Every item ever added, and every item processed, in order. */
    ghost var received: seq<T>
    ghost var done: seq<T>

    /** Between steps no flush is in progress and a full batch has been
        flushed, so fewer than `batch_size` items are pending; no item is
        lost or reordered: the processed items followed by the pending ones
        are the items received. */
    ghost predicate Valid()
      reads this
    {
      && !processing && |batch| < Max(1, config.batchSize)
      && done + Items(batch) == received && |done| == processed
    }

    constructor(config: BatchConfig)
      ensures Valid() && this.config == config && batch == [] && received == []
      ensures processed == 0 && batches == 0 && errors == 0
    {
      received, done := [], [];
      this.config := config;
      batch := [];
      processing := false;
      processed, batches, errors := 0, 0, 0;
    }

    /** `process_batch`: one successful result per entry, in order. */
    method ProcessBatch(entries: seq<BatchEntry<T>>) returns (results: seq<ItemResult<T>>)
      modifies this
      ensures |results| == |entries|
      ensures forall i :: 0 <= i < |results| ==> results[i] == ItemResult(true, entries[i].item)
      ensures processed == old(processed) + |entries|
      ensures batch == old(batch) && processing == old(processing)
      ensures batches == old(batches) && errors == old(errors)
      ensures received == old(received) && done == old(done)
    {
      results := [];
      for i := 0 to |entries|
        invariant |results| == i
        invariant forall j :: 0 <= j < i ==> results[j] == ItemResult(true, entries[j].item)
        invariant processed == old(processed) + i
        invariant batch == old(batch) && processing == old(processing)
        invariant batches == old(batches) && errors == old(errors)
        invariant received == old(received) && done == old(done)
      {
        results := results + [ItemResult(true, entries[i].item)];
        processed := processed + 1;
      }
    }

    /** `flush`: nothing happens while a flush is in progress or when the
        batch is empty; otherwise the whole batch is processed in order and
        the processor is left empty and idle. */
    method Flush() returns (r: Option<seq<ItemResult<T>>>)
      modifies this
      ensures old(processing) || old(batch) == [] ==>
                r == None && batch == old(batch) && processing == old(processing)
                && processed == old(processed) && batches == old(batches) && done == old(done)
      ensures !old(processing) && old(batch) != [] ==>
                && r.Some? && |r.value| == |old(batch)|
                && (forall i :: 0 <= i < |r.value| ==> r.value[i] == ItemResult(true, old(batch)[i].item))
                && batch == [] && !processing
                && processed == old(processed) + |old(batch)| && batches == old(batches) + 1
                && done == old(done) + Items(old(batch))
      ensures errors == old(errors) && received == old(received)
    {
      if processing || batch == [] {
        return None;
      }
      processing := true;
      var toProcess := batch;
      batch := [];
      var results := ProcessBatch(toProcess);
      done := done + Items(toProcess);
      batches := batches + 1;
      processing := false;
      r := Some(results);
    }

    /** `add`: appends the item and flushes once `batch_size` items are
        pending. */
    method Add(item: T, now: int) returns (flushed: Option<seq<ItemResult<T>>>)
      requires Valid()
      modifies this
      ensures Valid() && errors == old(errors) && received == old(received) + [item]
      ensures |old(batch)| + 1 < config.batchSize ==>
                && flushed == None && batch == old(batch) + [BatchEntry(item, now)]
                && processed == old(processed) && batches == old(batches)
      ensures |old(batch)| + 1 >= config.batchSize ==>
                && flushed.Some? && |flushed.value| == |old(batch)| + 1
                && (forall i :: 0 <= i < |old(batch)| ==> flushed.value[i] == ItemResult(true, old(batch)[i].item))
                && flushed.value[|old(batch)|] == ItemResult(true, item)
                && batch == [] && processed == old(processed) + |old(batch)| + 1 && batches == old(batches) + 1
    {
      assert Items(batch + [BatchEntry(item, now)]) == Items(batch) + [item] by {
        assert (batch + [BatchEntry(item, now)])[..|batch|] == batch;
      }
      batch := batch + [BatchEntry(item, now)];
      received := received + [item];
      flushed := None;
      if |batch| >= config.batchSize {
        flushed := Flush();
      }
    }

    /** `get_stats`: the counters and the number of pending items. */
    function GetStats(): (r: BatchStats)
      reads this
      ensures r.pendingItems == |batch| && r.processing == processing
      ensures Valid() ==> r.pendingItems < Max(1, config.batchSize) && !r.processing
    {
      BatchStats(processed, batches, errors, |batch|, processing)
    }
  }

  // ---------------------------------------------------------------------------
  // DatabaseBatchOperations
  // ---------------------------------------------------------------------------

  /** A field value of a record. */
  datatype Value = Int(i: int) | Str(s: string) | Bool(b: bool)

  /** A record: Python's `Dict[str, Any]`. */
  type Record = map<string, Value>

  /** `batch_insert`: `{'id': now_ms + i, **item, 'inserted': True}` for
      each item, where `clock(i)` is the time in milliseconds read for the
      `i`-th item; a key of the item itself overrides the generated `id`. */
  function BatchInsert(items: seq<Record>, clock: nat -> int): (r: seq<Record>)
    ensures items == [] ==> r == []
    ensures |r| == |items|
    ensures forall i :: 0 <= i < |r| ==>
              && "inserted" in r[i] && r[i]["inserted"] == Bool(true)
              && r[i].Keys == items[i].Keys + {"id", "inserted"}
              && (forall k :: k in items[i] && k != "inserted" ==> r[i][k] == items[i][k])
              && ("id" !in items[i] ==> r[i]["id"] == Int(clock(i) + i))
  {
    seq(|items|, i requires 0 <= i < |items| => (map["id" := Int(clock(i) + i)] + items[i])["inserted" := Bool(true)])
  }

  /** With a clock that never runs backwards, the generated ids strictly
      increase, so items without their own `id` get distinct ids. */
  lemma GeneratedIdsIncrease(items: seq<Record>, clock: nat -> int, i: nat, j: nat)
    requires i < j < |items| && "id" !in items[i] && "id" !in items[j]
    requires clock(i) <= clock(j)
    ensures BatchInsert(items, clock)[i]["id"].i < BatchInsert(items, clock)[j]["id"].i
  {
  }

  /** `batch_update`: each update with `updated` set and `updated_at` the
      time read for it. */
  function BatchUpdate(updates: seq<Record>, clock: nat -> int): (r: seq<Record>)
    ensures updates == [] ==> r == []
    ensures |r| == |updates|
    ensures forall i :: 0 <= i < |r| ==>
              && r[i].Keys == updates[i].Keys + {"updated", "updated_at"}
              && "updated" in r[i] && r[i]["updated"] == Bool(true)
              && "updated_at" in r[i] && r[i]["updated_at"] == Int(clock(i))
              && (forall k :: k in updates[i] && k != "updated" && k != "updated_at" ==> r[i][k] == updates[i][k])
  {
    seq(|updates|, i requires 0 <= i < |updates| =>
      updates[i]["updated" := Bool(true)]["updated_at" := Int(clock(i))])
  }

  /** `batch_delete`: `{'id': id, 'deleted': True}` per id, in order. */
  function BatchDelete(ids: seq<int>): (r: seq<Record>)
    ensures ids == [] ==> r == []
    ensures |r| == |ids|
    ensures forall i :: 0 <= i < |r| ==> r[i] == map["id" := Int(ids[i]), "deleted" := Bool(true)]
  {
    seq(|ids|, i requires 0 <= i < |ids| => map["id" := Int(ids[i]), "deleted" := Bool(true)])
  }
}
