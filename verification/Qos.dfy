/** A pod's QoS class and its CPU quota prediction, from its spec. */
module Qos {
  import opened Wrappers

  datatype Class = Guaranteed | Burstable | BestEffort

  /** Requests and limits, in any unit; an absent entry is zero. */
  datatype Resources = Resources(cpuRequest: nat, cpuLimit: nat, memRequest: nat, memLimit: nat)

  datatype Spec = Spec(podLevel: Option<Resources>, containers: seq<Resources>, initContainers: seq<Resources>)

  // ---- what the classes mean ----

  predicate AllSet(r: Resources) {
    r.cpuRequest == r.cpuLimit > 0 && r.memRequest == r.memLimit > 0
  }

  predicate NothingSet(r: Resources) {
    r == Resources(0, 0, 0, 0)
  }

  /** The resources that decide the class: the pod-level ones if present, else every container's. */
  function Deciding(spec: Spec): seq<Resources> {
    if spec.podLevel.Some? then [spec.podLevel.value] else spec.containers + spec.initContainers
  }

  /** Guaranteed: something decides, and all of it is fully and equally set. BestEffort: nothing is set
      anywhere. Burstable: everything else. */
  ghost function Meaning(rs: seq<Resources>): Class {
    if forall i :: 0 <= i < |rs| ==> NothingSet(rs[i]) then BestEffort
    else if forall i :: 0 <= i < |rs| ==> AllSet(rs[i]) then Guaranteed
    else Burstable
  }

  // ---- the computation ----

  function ResourceClass(request: nat, limit: nat): Class {
    if request != limit then Burstable else if request == 0 then BestEffort else Guaranteed
  }

  /** requirementsClass, over cpu and memory. */
  function RequirementsClass(r: Resources): (c: Class)
    ensures c.Guaranteed? <==> AllSet(r)
    ensures c.BestEffort? <==> NothingSet(r)
  {
    var cpu, mem := ResourceClass(r.cpuRequest, r.cpuLimit), ResourceClass(r.memRequest, r.memLimit);
    if cpu.Burstable? || mem.Burstable? || cpu != mem then Burstable else cpu
  }

  /** ClassOf: the first disagreement already decides. */
  method ClassOf(spec: Spec) returns (c: Class)
    ensures c == Meaning(Deciding(spec))
  {
    if spec.podLevel.Some? {
      assert Deciding(spec)[0] == spec.podLevel.value;
      return RequirementsClass(spec.podLevel.value);
    }
    var all := spec.containers + spec.initContainers;
    var soFar: Option<Class> := None;
    for i := 0 to |all|
      invariant soFar.None? <==> i == 0
      invariant soFar.Some? ==> !soFar.value.Burstable?
      invariant soFar == Some(Guaranteed) ==> forall j :: 0 <= j < i ==> AllSet(all[j])
      invariant soFar == Some(BestEffort) ==> forall j :: 0 <= j < i ==> NothingSet(all[j])
    {
      var container := RequirementsClass(all[i]);
      if container.Burstable? {
        assert !AllSet(all[i]) && !NothingSet(all[i]);
        return Burstable;
      }
      if soFar.None? {
        soFar := Some(container);
      } else if soFar.value != container {
        assert !AllSet(all[0]) || !AllSet(all[i]);
        assert !NothingSet(all[0]) || !NothingSet(all[i]);
        return Burstable;
      }
    }
    if soFar.None? { return BestEffort; }
    assert !(AllSet(all[0]) && NothingSet(all[0]));
    return soFar.value;
  }

  /** A finite quota is predicted for a pod that is not BestEffort and whose CPU limit is set at pod level, or
      else on every single container, init containers included. */
  ghost predicate Quota(spec: Spec) {
    && !Meaning(Deciding(spec)).BestEffort?
    && (|| (spec.podLevel.Some? && spec.podLevel.value.cpuLimit > 0)
        || forall i :: 0 <= i < |spec.containers + spec.initContainers| ==>
             (spec.containers + spec.initContainers)[i].cpuLimit > 0)
  }

  method HasCpuQuota(spec: Spec) returns (quota: bool)
    ensures quota <==> Quota(spec)
  {
    var computed := ClassOf(spec);
    if computed.BestEffort? { return false; }
    if spec.podLevel.Some? && spec.podLevel.value.cpuLimit > 0 { return true; }
    ghost var all := spec.containers + spec.initContainers;
    for i := 0 to |spec.containers|
      invariant forall j :: 0 <= j < i ==> all[j].cpuLimit > 0
    {
      assert all[i] == spec.containers[i];
      if spec.containers[i].cpuLimit <= 0 { return false; }
    }
    for i := 0 to |spec.initContainers|
      invariant forall j :: 0 <= j < |spec.containers| + i ==> all[j].cpuLimit > 0
    {
      assert all[|spec.containers| + i] == spec.initContainers[i];
      if spec.initContainers[i].cpuLimit <= 0 { return false; }
    }
    return true;
  }

  /** A Guaranteed pod always has a quota predicted, so the guard never lifts one of its limits. */
  lemma GuaranteedHasQuota(spec: Spec)
    requires Meaning(Deciding(spec)).Guaranteed?
    ensures Quota(spec)
  {
    if spec.podLevel.Some? {
      assert AllSet(Deciding(spec)[0]);
    }
  }
}
