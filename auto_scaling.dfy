/** The horizontal auto-scaler of auto_scaling.py.

    Metrics are real numbers and times are real seconds passed in by the
    caller. An instance's id in the source is built from the clock and the
    scaler's object identity; here the caller supplies it. */
module AutoScaling {
  import opened Common

  /** An instance's `metrics` dictionary. */
  datatype Metrics = Metrics(cpu: real, memory: real, requests: real)

  const ZeroMetrics := Metrics(0.0, 0.0, 0.0)

  /** `Instance`. */
  datatype Instance = Instance(id: string, createdAt: real, metrics: Metrics)

  /** The scaler's configuration, with the defaults of `config.get`. */
  datatype ScalerConfig = ScalerConfig(minInstances: int, maxInstances: int,
                                       targetCpu: real, targetMemory: real,
                                       scaleUpThreshold: real, scaleDownThreshold: real,
                                       cooldownPeriod: real)

  const DefaultScalerConfig := ScalerConfig(1, 10, 70.0, 80.0, 80.0, 30.0, 300.0)

  /** A metric of `metrics`. */
  datatype Field = Cpu | Memory | Requests

  function Get(m: Metrics, f: Field): real
  {
    match f
    case Cpu => m.cpu
    case Memory => m.memory
    case Requests => m.requests
  }

  /** The sum of one metric over the instances. */
  function Sum(s: seq<Instance>, f: Field): real
  {
    if s == [] then 0.0 else Sum(s[..|s| - 1], f) + Get(s[|s| - 1].metrics, f)
  }

  /** `get_average_metrics`: zeros when there are no instances, otherwise
      each metric's sum divided by the number of instances. */
  function AverageOf(s: seq<Instance>): (r: Metrics)
    ensures s == [] ==> r == ZeroMetrics
    ensures s != [] ==> forall f :: Get(r, f) * (|s| as real) == Sum(s, f)
  {
    if s == [] then ZeroMetrics
    else
      var n := |s| as real;
      Metrics(Sum(s, Cpu) / n, Sum(s, Memory) / n, Sum(s, Requests) / n)
  }

  /** When every instance's metric exceeds `t`, so does their sum over
      `|s| * t`. */
  lemma {:induction false} SumAbove(s: seq<Instance>, f: Field, t: real)
    requires s != [] && forall i :: 0 <= i < |s| ==> Get(s[i].metrics, f) > t
    ensures Sum(s, f) > (|s| as real) * t
    decreases |s|
  {
    if |s| > 1 {
      SumAbove(s[..|s| - 1], f, t);
    }
  }

  /** When every instance's metric is below `t`, so is their sum under
      `|s| * t`. */
  lemma {:induction false} SumBelow(s: seq<Instance>, f: Field, t: real)
    requires s != [] && forall i :: 0 <= i < |s| ==> Get(s[i].metrics, f) < t
    ensures Sum(s, f) < (|s| as real) * t
    decreases |s|
  {
    if |s| > 1 {
      SumBelow(s[..|s| - 1], f, t);
    }
  }

  /** The average exceeds a strict lower bound on every instance. */
  lemma AverageAbove(s: seq<Instance>, f: Field, lo: real)
    requires s != [] && forall i :: 0 <= i < |s| ==> Get(s[i].metrics, f) > lo
    ensures Get(AverageOf(s), f) > lo
  {
    SumAbove(s, f, lo);
    var n := |s| as real;
    assert Get(AverageOf(s), f) * n > lo * n;
  }

  /** The average stays under a strict upper bound on every instance. */
  lemma AverageBelow(s: seq<Instance>, f: Field, hi: real)
    requires s != [] && forall i :: 0 <= i < |s| ==> Get(s[i].metrics, f) < hi
    ensures Get(AverageOf(s), f) < hi
  {
    SumBelow(s, f, hi);
    var n := |s| as real;
    assert Get(AverageOf(s), f) * n < hi * n;
  }

  /** `(cpu + memory) / 2`, the load `_remove_instance` sorts by. */
  function Load(i: Instance): real
  {
    (i.metrics.cpu + i.metrics.memory) / 2.0
  }

  /** The position of the first instance of lowest load: what a stable sort
      by load puts first. */
  function LowestLoadIndex(s: seq<Instance>): (r: nat)
    requires s != []
    ensures r < |s|
    ensures forall j :: 0 <= j < |s| ==> Load(s[r]) <= Load(s[j])
    ensures forall j :: 0 <= j < r ==> Load(s[j]) > Load(s[r])
  {
    if |s| == 1 then 0
    else
      var k := LowestLoadIndex(s[..|s| - 1]);
      if Load(s[|s| - 1]) < Load(s[k]) then |s| - 1 else k
  }

  /** The message of the exception `sorted(...)[0]` raises on an empty list. */
  const IndexError := "list index out of range"

  /** `check_scaling`'s answer. */
  datatype Decision =
    | Cooldown
    | ScaleUp(metrics: Metrics)
    | ScaleDown(metrics: Metrics)
    | Hold(metrics: Metrics)

  /** `check_scaling`, on the instance count and the average metrics. */
  function Decide(config: ScalerConfig, count: nat, avg: Metrics, sinceLastScale: real): (d: Decision)
    ensures sinceLastScale < config.cooldownPeriod <==> d == Cooldown
    ensures d.ScaleUp? <==> sinceLastScale >= config.cooldownPeriod && count < config.maxInstances
                            && (avg.cpu > config.scaleUpThreshold || avg.memory > config.scaleUpThreshold)
    ensures d.ScaleDown? <==> sinceLastScale >= config.cooldownPeriod && !d.ScaleUp? && count > config.minInstances
                              && avg.cpu < config.scaleDownThreshold && avg.memory < config.scaleDownThreshold
    ensures d != Cooldown ==> d.metrics == avg
  {
    if sinceLastScale < config.cooldownPeriod then Cooldown
    else if count < config.maxInstances
            && (avg.cpu > config.scaleUpThreshold || avg.memory > config.scaleUpThreshold) then ScaleUp(avg)
    else if count > config.minInstances
            && avg.cpu < config.scaleDownThreshold && avg.memory < config.scaleDownThreshold then ScaleDown(avg)
    else Hold(avg)
  }

  /** Out of cooldown and below the maximum, a scaler whose every instance
      runs its cpu above the scale-up threshold scales up. */
  lemma AllHotScalesUp(config: ScalerConfig, s: seq<Instance>, sinceLastScale: real)
    requires s != [] && |s| < config.maxInstances && sinceLastScale >= config.cooldownPeriod
    requires forall i :: 0 <= i < |s| ==> s[i].metrics.cpu > config.scaleUpThreshold
    ensures Decide(config, |s|, AverageOf(s), sinceLastScale).ScaleUp?
  {
    AverageAbove(s, Cpu, config.scaleUpThreshold);
  }

  /** Out of cooldown and above the minimum, a scaler whose every instance
      runs cpu and memory below the scale-down threshold scales down,
      provided that threshold does not exceed the scale-up one. */
  lemma AllIdleScalesDown(config: ScalerConfig, s: seq<Instance>, sinceLastScale: real)
    requires s != [] && |s| > config.minInstances && sinceLastScale >= config.cooldownPeriod
    requires config.scaleDownThreshold <= config.scaleUpThreshold
    requires forall i :: 0 <= i < |s| ==> s[i].metrics.cpu < config.scaleDownThreshold
    requires forall i :: 0 <= i < |s| ==> s[i].metrics.memory < config.scaleDownThreshold
    ensures Decide(config, |s|, AverageOf(s), sinceLastScale).ScaleDown?
  {
    AverageBelow(s, Cpu, config.scaleDownThreshold);
    AverageBelow(s, Memory, config.scaleDownThreshold);
  }

  /** An entry of `scaling_history`. */
  datatype ScaleEvent = ScaleEvent(action: string, timestamp: real, instanceCount: nat, metrics: Metrics)

  /** `execute_scaling`'s answer. */
  datatype Outcome = ScaledUp(instance: Instance) | ScaledDown(instance: Instance) | NoAction(decision: Decision)

  /** `get_state`. */
  datatype ScalerState = ScalerState(instanceCount: nat, minInstances: int, maxInstances: int,
                                     averageMetrics: Metrics, scalingHistory: seq<ScaleEvent>)

  /** Partial new metrics for `update_metrics`: a present field replaces the
      old value. */
  datatype MetricsUpdate = MetricsUpdate(cpu: Option<real>, memory: Option<real>, requests: Option<real>)

  function Updated(m: Metrics, u: MetricsUpdate): (r: Metrics)
    ensures r.cpu == (if u.cpu.Some? then u.cpu.value else m.cpu)
    ensures r.memory == (if u.memory.Some? then u.memory.value else m.memory)
    ensures r.requests == (if u.requests.Some? then u.requests.value else m.requests)
  {
    Metrics(if u.cpu.Some? then u.cpu.value else m.cpu,
            if u.memory.Some? then u.memory.value else m.memory,
            if u.requests.Some? then u.requests.value else m.requests)
  }

  /** `HorizontalAutoScaler`. */
  class HorizontalAutoScaler {
    const config: ScalerConfig
    var instances: seq<Instance>
    var lastScaleTime: real
    var scalingHistory: seq<ScaleEvent>

    /** The count never drops below the initial `min_instances` (or 0) and
        never rises past the larger of that and `max_instances`. */
    ghost predicate Valid()
      reads this
    {
      Max(0, config.minInstances) <= |instances| <= Max(Max(0, config.minInstances), config.maxInstances)
    }

    /** The constructor and `_initialize`: exactly `min_instances`
        instances (none when it is negative), the `i`-th named `ids(i)`. */
    constructor(config: ScalerConfig, now: real, ids: nat -> string)
      ensures Valid() && this.config == config && lastScaleTime == now && scalingHistory == []
      ensures |instances| == Max(0, config.minInstances)
      ensures forall i :: 0 <= i < |instances| ==> instances[i] == Instance(ids(i), now, ZeroMetrics)
    {
      this.config := config;
      lastScaleTime := now;
      scalingHistory := [];
      instances := [];
      new;
      for i := 0 to Max(0, config.minInstances)
        invariant |instances| == i && lastScaleTime == now && scalingHistory == []
        invariant forall j :: 0 <= j < i ==> instances[j] == Instance(ids(j), now, ZeroMetrics)
      {
        var _ := AddInstance(ids(i), now);
      }
    }

    /** `_add_instance`. */
    method AddInstance(id: string, now: real) returns (instance: Instance)
      modifies this
      ensures instance == Instance(id, now, ZeroMetrics) && instances == old(instances) + [instance]
      ensures lastScaleTime == old(lastScaleTime) && scalingHistory == old(scalingHistory)
    {
      instance := Instance(id, now, ZeroMetrics);
      instances := instances + [instance];
    }

    /** `_remove_instance`: nothing at or below `min_instances`; otherwise
        the first instance of lowest load is taken out, the rest keeping
        their order. With a negative `min_instances` and no instances, the
        lookup of the first sorted element raises. */
    method RemoveInstance() returns (removed: Result<Option<Instance>>)
      modifies this
      ensures |old(instances)| <= config.minInstances ==> removed == Ok(None) && instances == old(instances)
      ensures config.minInstances < 0 && old(instances) == [] ==>
                removed == Err(IndexError) && instances == old(instances)
      ensures |old(instances)| > config.minInstances && old(instances) != [] ==>
                var k := LowestLoadIndex(old(instances));
                && removed == Ok(Some(old(instances)[k]))
                && instances == old(instances)[..k] + old(instances)[k + 1..]
      ensures lastScaleTime == old(lastScaleTime) && scalingHistory == old(scalingHistory)
    {
      if |instances| <= config.minInstances {
        return Ok(None);
      }
      if instances == [] {
        return Err(IndexError);
      }
      var k := LowestLoadIndex(instances);
      removed := Ok(Some(instances[k]));
      instances := instances[..k] + instances[k + 1..];
    }

    /** `update_metrics`: the first instance with that id takes the new
        values; an unknown id changes nothing. */
    method UpdateMetrics(id: string, update: MetricsUpdate)
      modifies this
      ensures |instances| == |old(instances)|
      ensures (forall i :: 0 <= i < |instances| ==> old(instances)[i].id != id) ==> instances == old(instances)
      ensures forall i :: (0 <= i < |instances| && old(instances)[i].id == id
                             && forall j :: 0 <= j < i ==> old(instances)[j].id != id) ==>
                instances == old(instances)[i := old(instances)[i].(metrics := Updated(old(instances)[i].metrics, update))]
      ensures lastScaleTime == old(lastScaleTime) && scalingHistory == old(scalingHistory)
    {
      var i := 0;
      while i < |instances|
        invariant 0 <= i <= |instances|
        invariant forall j :: 0 <= j < i ==> instances[j].id != id
      {
        if instances[i].id == id {
          instances := instances[i := instances[i].(metrics := Updated(instances[i].metrics, update))];
          return;
        }
        i := i + 1;
      }
    }

    /** `get_average_metrics`: the running totals, then one division each. */
    method GetAverageMetrics() returns (avg: Metrics)
      ensures avg == AverageOf(instances)
    {
      if instances == [] {
        return ZeroMetrics;
      }
      var cpu, memory, requests := 0.0, 0.0, 0.0;
      for i := 0 to |instances|
        invariant cpu == Sum(instances[..i], Cpu) && memory == Sum(instances[..i], Memory)
        invariant requests == Sum(instances[..i], Requests)
      {
        assert instances[..i + 1][..i] == instances[..i];
        cpu := cpu + instances[i].metrics.cpu;
        memory := memory + instances[i].metrics.memory;
        requests := requests + instances[i].metrics.requests;
      }
      assert instances[..|instances|] == instances;
      var n := |instances| as real;
      avg := Metrics(cpu / n, memory / n, requests / n);
    }

    /** `check_scaling` at time `now`. */
    function CheckScaling(now: real): (d: Decision)
      reads this
      ensures d == Decide(config, |instances|, AverageOf(instances), now - lastScaleTime)
      ensures d.ScaleUp? ==> |instances| < config.maxInstances
      ensures d.ScaleDown? ==> |instances| > config.minInstances
    {
      Decide(config, |instances|, AverageOf(instances), now - lastScaleTime)
    }

    /** `execute_scaling`: adds an instance named `newId` on a scale-up,
        removes the least loaded one on a scale-down; only an actual change
        moves `last_scale_time` and is recorded in the history. */
    method ExecuteScaling(now: real, newId: string) returns (outcome: Result<Outcome>)
      requires Valid()
      modifies this
      ensures Valid()
      ensures var d := old(CheckScaling(now));
              && (d.ScaleUp? ==>
                    && outcome == Ok(ScaledUp(Instance(newId, now, ZeroMetrics)))
                    && instances == old(instances) + [outcome.value.instance]
                    && lastScaleTime == now
                    && scalingHistory == old(scalingHistory) + [ScaleEvent("scale-up", now, |instances|, d.metrics)])
              && (d.ScaleDown? && old(instances) != [] ==>
                    var k := LowestLoadIndex(old(instances));
                    && outcome == Ok(ScaledDown(old(instances)[k]))
                    && instances == old(instances)[..k] + old(instances)[k + 1..]
                    && lastScaleTime == now
                    && scalingHistory == old(scalingHistory) + [ScaleEvent("scale-down", now, |instances|, d.metrics)])
              && (d.ScaleDown? && old(instances) == [] ==> outcome == Err(IndexError))
              && (!d.ScaleUp? && !d.ScaleDown? ==> outcome == Ok(NoAction(d)))
              && (!d.ScaleUp? && !(d.ScaleDown? && old(instances) != []) ==>
                    instances == old(instances)
                    && lastScaleTime == old(lastScaleTime) && scalingHistory == old(scalingHistory))
      ensures old(|instances|) - 1 <= |instances| <= old(|instances|) + 1
      ensures 0 <= config.minInstances <= config.maxInstances ==>
                outcome.Ok? && config.minInstances <= |instances| <= config.maxInstances
    {
      var decision := CheckScaling(now);
      if decision.ScaleUp? {
        var instance := AddInstance(newId, now);
        lastScaleTime := now;
        scalingHistory := scalingHistory + [ScaleEvent("scale-up", now, |instances|, decision.metrics)];
        return Ok(ScaledUp(instance));
      }
      if decision.ScaleDown? {
        var removed := RemoveInstance();
        if removed.Err? {
          return Err(removed.message);
        }
        if removed.value.Some? {
          lastScaleTime := now;
          scalingHistory := scalingHistory + [ScaleEvent("scale-down", now, |instances|, decision.metrics)];
          return Ok(ScaledDown(removed.value.value));
        }
      }
      outcome := Ok(NoAction(decision));
    }

    /** `get_state`: at most the last ten history entries. */
    function GetState(): (r: ScalerState)
      reads this
      ensures r.instanceCount == |instances| && r.averageMetrics == AverageOf(instances)
      ensures |r.scalingHistory| == Min(10, |scalingHistory|)
      ensures r.scalingHistory == scalingHistory[|scalingHistory| - |r.scalingHistory|..]
    {
      ScalerState(|instances|, config.minInstances, config.maxInstances, AverageOf(instances), PyLast(scalingHistory, 10))
    }
  }
}
