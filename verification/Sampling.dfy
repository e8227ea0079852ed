/** The guard's sampling tick: counter deltas over a set of pods in 64-bit arithmetic, and what is fed to the
    temperature machine. */
module Sampling {
  import opened Wrappers
  import opened Text
  import opened Hysteresis

  type Usage = map<string, nat>

  ghost function SumDelta(previous: Usage, current: Usage, keys: set<string>): int
    requires keys <= previous.Keys && keys <= current.Keys
    decreases keys
  {
    if keys == {} then 0
    else
      var k :| k in keys;
      current[k] - previous[k] + SumDelta(previous, current, keys - {k})
  }

  /** Any key may be taken first. */
  lemma {:induction false} SumDeltaTake(previous: Usage, current: Usage, keys: set<string>, k: string)
    requires keys <= previous.Keys && keys <= current.Keys && k in keys
    ensures SumDelta(previous, current, keys) == current[k] - previous[k] + SumDelta(previous, current, keys - {k})
    decreases keys
  {
    var c :| c in keys &&
            SumDelta(previous, current, keys) == current[c] - previous[c] + SumDelta(previous, current, keys - {c});
    if c != k {
      SumDeltaTake(previous, current, keys - {c}, k);
      SumDeltaTake(previous, current, keys - {k}, c);
      assert keys - {c} - {k} == keys - {k} - {c};
    }
  }

  ghost predicate Monotone(previous: Usage, current: Usage, keys: set<string>)
    requires keys <= previous.Keys && keys <= current.Keys
  {
    forall k :: k in keys ==> previous[k] <= current[k]
  }

  lemma {:induction false} SumDeltaNonNegative(previous: Usage, current: Usage, keys: set<string>)
    requires keys <= previous.Keys && keys <= current.Keys && Monotone(previous, current, keys)
    ensures SumDelta(previous, current, keys) >= 0
    decreases keys
  {
    if keys != {} {
      var k :| k in keys;
      SumDeltaTake(previous, current, keys, k);
      SumDeltaNonNegative(previous, current, keys - {k});
    }
  }

  /** The counters of exactly the same pods, none of which ran backwards, and a sum that fits. */
  ghost predicate Complete(previous: Usage, current: Usage) {
    && previous.Keys == current.Keys
    && Monotone(previous, current, current.Keys)
    && SumDelta(previous, current, current.Keys) <= MAX_UINT64
  }

  lemma SameSizeSubset(a: set<string>, b: set<string>)
    requires a <= b && |a| == |b|
    ensures a == b
  {
    if a != b {
      var x :| x in b && x !in a;
      assert a <= b - {x} && |b - {x}| == |b| - 1;
      SubsetSize(a, b - {x});
    }
  }

  lemma {:induction false} SubsetSize(a: set<string>, b: set<string>)
    requires a <= b
    ensures |a| <= |b|
  {
    if a != {} {
      var x :| x in a;
      SubsetSize(a - {x}, b - {x});
    }
  }

  /** stableUsageDelta. The map is walked in any order; the answer does not depend on it. */
  method StableUsageDelta(previous: Usage, current: Usage) returns (total: nat, complete: bool)
    ensures complete <==> Complete(previous, current)
    ensures complete ==> total == SumDelta(previous, current, current.Keys)
    ensures !complete ==> total == 0
  {
    if |previous| != |current| {
      assert previous.Keys != current.Keys;
      return 0, false;
    }
    total := 0;
    var rest := current.Keys;
    while rest != {}
      invariant rest <= current.Keys
      invariant current.Keys - rest <= previous.Keys
      invariant Monotone(previous, current, current.Keys - rest)
      invariant total <= MAX_UINT64
      invariant current.Keys <= previous.Keys ==>
        SumDelta(previous, current, current.Keys) == total + SumDelta(previous, current, rest)
      decreases rest
    {
      var uid :| uid in rest;
      var usage := current[uid];
      if uid !in previous || usage < previous[uid] { return 0, false; }
      var delta := usage - previous[uid];
      if current.Keys <= previous.Keys {
        SumDeltaTake(previous, current, rest, uid);
        if Monotone(previous, current, current.Keys) {
          SumDeltaNonNegative(previous, current, rest - {uid});
        }
      }
      if delta > MAX_UINT64 - total { return 0, false; }
      total := total + delta;
      rest := rest - {uid};
    }
    SameSizeSubset(current.Keys, previous.Keys);
    return total, true;
  }

  /** One tick's readings. `None` is a failed read; times are in microseconds. */
  datatype Reading = Reading(idle: Option<Usage>, total: Option<nat>, now: int, cpus: int)

  /** The baseline a tick leaves for the next one. */
  datatype Baseline = Baseline(total: nat, idle: Usage, sampled: int)

  /** The tick may be trusted: both reads succeeded, there is a baseline, time passed, the counters are
      complete, and the idle pods did not use more than the whole node. */
  ghost predicate Trusted(b: Option<Baseline>, r: Reading) {
    && r.idle.Some? && r.total.Some? && b.Some?
    && b.value.total <= r.total.value && b.value.sampled < r.now && r.cpus > 0
    && Complete(b.value.idle, r.idle.value)
    && SumDelta(b.value.idle, r.idle.value, r.idle.value.Keys) <= r.total.value - b.value.total
  }

  /** The share of the node's CPU time that non-idle work used. */
  ghost function NonIdleUtil(b: Baseline, r: Reading): real
    requires Trusted(Some(b), r)
  {
    var nonIdle := r.total.value - b.total - SumDelta(b.idle, r.idle.value, r.idle.value.Keys);
    nonIdle as real / (r.now - b.sampled) as real / r.cpus as real
  }

  class Sampler {
    const high: real
    const low: real
    var decider: Decider
    var baseline: Option<Baseline>
    ghost var samples: seq<real>    // every utilisation ever fed to the machine

    ghost predicate Valid()
      reads this
    {
      low < high && decider == Observed(samples, high, low)
    }

    constructor (high: real, low: real)
      requires low < high
      ensures Valid() && samples == [] && !decider.hot && baseline == None
    {
      this.high, this.low := high, low;
      decider, baseline, samples := COLD, None, [];
    }

    /** tick, up to the temperature it hands to converge. A sample is fed only from a trusted reading, and is
        then exactly the non-idle share; any other tick leaves temperature and streak alone. A failed read
        also drops the baseline, every other tick renews it. A tick that finds its context done or cannot list the
        pods changes nothing and converges nothing: it hands on no temperature. */
    method Tick(cancelled: bool, listFails: bool, r: Reading) returns (temperature: Option<bool>)
      requires Valid()
      modifies this
      ensures Valid() && (temperature.None? <==> cancelled || listFails)
      ensures temperature.None? ==> decider == old(decider) && baseline == old(baseline) && samples == old(samples)
      ensures temperature.Some? ==>
                && temperature.value == decider.hot == Hot(samples, high, low)
                && samples == (if Trusted(old(baseline), r) then old(samples) + [NonIdleUtil(old(baseline).value, r)]
                               else old(samples))
                && (!Trusted(old(baseline), r) ==> decider == old(decider))
                && baseline == (if r.idle.Some? && r.total.Some? then Some(Baseline(r.total.value, r.idle.value, r.now))
                                else None)
    {
      if cancelled || listFails { return None; }
      DeciderMeansHistory(samples, high, low);
      temperature := Some(decider.hot);
      if r.idle.None? || r.total.None? {
        baseline := None;
        return;
      }
      if baseline.Some? && r.total.value >= baseline.value.total {
        var elapsed := r.now - baseline.value.sampled;
        var idleDelta, complete := StableUsageDelta(baseline.value.idle, r.idle.value);
        if elapsed > 0 && r.cpus > 0 && complete {
          var totalDelta := r.total.value - baseline.value.total;
          if idleDelta <= totalDelta {
            var util := (totalDelta - idleDelta) as real / elapsed as real / r.cpus as real;
            decider := Observe(decider, util, high, low);
            temperature := Some(decider.hot);
            samples := samples + [util];
            assert samples[..|samples| - 1] == old(samples);
            DeciderMeansHistory(samples, high, low);
          }
        }
      }
      baseline := Some(Baseline(r.total.value, r.idle.value, r.now));
    }
  }
}
