/** The one-shot revert of every pod on the node, run before the operator is removed. */
module RevertAll {
  import opened Wrappers
  import opened Plan
  import opened Transaction
  import opened Applying

  /** How one pod's revert was reported; only `Trouble` counts as a failure. */
  datatype Status = Reverted | NothingActive | PodGone | Trouble

  datatype PodSpec = PodSpec(uid: Uid, weight: nat)

  /** What goes wrong for one pod: no path, unreadable snapshots, a context that is done when Revert starts, write
      answers, and the cgroup going away before the verifying read. */
  datatype Script = Script(noPath: bool, readFails: bool, broken: bool, answers: Answers,
                           vanishes: bool, verifyFails: bool)

  datatype Reported = Reported(l: Ledger, status: Status)

  /** revertPod: read, revert, then read again and refuse to report success over remaining work. */
  function RevertOne(l: Ledger, weight: nat, idleWeight: nat, s: Script): Reported {
    if s.noPath || (s.readFails && l.cg.Some?) then Reported(l, Trouble)
    else if l.cg.None? then Reported(l, PodGone)
    else if BuildPlan(NO_TIER, l.cg.value, weight) == [] then Reported(l, NothingActive)
    else
      var r := Revert(l, l.cg.value, weight, idleWeight, s.broken, s.answers);
      if r.end == Failed then Reported(r.l, Trouble)
      else
        var l' := if s.vanishes then r.l.(cg := None) else r.l;
        if l'.cg.None? then Reported(l', PodGone)
        else if s.verifyFails || BuildPlan(NO_TIER, l'.cg.value, weight) != [] then Reported(l', Trouble)
        else Reported(l', Status.Reverted)
  }

  /** A pod the kernel could show: knobs it allows, weights in range, and no journal entry over an idle pod. */
  predicate Sound(l: Ledger, weight: nat, idleWeight: nat) {
    && Range(weight, idleWeight)
    && (l.cg.Some? ==> Legal(l.cg.value) && (l.pending ==> !l.cg.value.idle))
  }

  /** The cgroup is gone, or both tiers are off and a pod that was idle has its weight back. */
  predicate TiersOff(before: Ledger, after: Ledger, weight: nat) {
    after.cg.Some? ==>
      && !after.cg.value.idle && after.cg.value.burst == 0
      && (before.cg.Some? && before.cg.value.idle ==> after.cg.value.weight == weight)
  }

  /** An untroubled report is honest: the cgroup is gone, or neither tier is active any more, and a pod
      this pass took out of idle has its weight back. Swallowed refusals cannot hide behind it. */
  lemma ReportIsHonest(l: Ledger, weight: nat, idleWeight: nat, s: Script)
    requires Sound(l, weight, idleWeight)
    ensures var o := RevertOne(l, weight, idleWeight, s); o.status != Trouble ==> TiersOff(l, o.l, weight)
  {
    if l.cg.Some? {
      var k := l.cg.value;
      var l' := Checked(l, k, weight);
      assert Inv(l, false, weight);
      JournalPlanFits(l, NO_TIER, false, weight);
      var plan := Transaction.JournalPlan(l', NO_TIER, k, weight);
      ExecuteKeeps(l', plan, false, weight, idleWeight, s.answers, 0);
      if k.idle {
        assert plan == BuildPlan(NO_TIER, k, weight);
        IdlePodIsRestored(l', k, weight, idleWeight, s.answers);
      }
    }
  }

  /** What each word of the report means. `NothingActive`: both tiers were off and nothing was touched. `PodGone`: there
      is no cgroup. `Reverted`: a tier was on, and a second reading shows both off. */
  lemma StatusMeans(l: Ledger, weight: nat, idleWeight: nat, s: Script)
    ensures var o := RevertOne(l, weight, idleWeight, s);
            && (o.status == NothingActive <==>
                  !s.noPath && !s.readFails && l.cg.Some? && !l.cg.value.idle && l.cg.value.burst == 0)
            && (o.status == NothingActive ==> o.l == l)
            && (o.status == PodGone ==> !s.noPath && o.l.cg.None?)
            && (o.status == Status.Reverted ==>
                  && !s.noPath && !s.readFails && !s.verifyFails && o.l.cg.Some?
                  && !o.l.cg.value.idle && o.l.cg.value.burst == 0
                  && l.cg.Some? && (l.cg.value.idle || l.cg.value.burst > 0))
            && (s.noPath || (s.readFails && l.cg.Some?) ==> o == Reported(l, Trouble))
  {
    if l.cg.Some? {
      EmptyRevertPlan(l.cg.value, weight);
    }
    var o := RevertOne(l, weight, idleWeight, s);
    if o.l.cg.Some? {
      EmptyRevertPlan(o.l.cg.value, weight);
    }
  }

  /** An idle pod that a revert pass leaves not idle, without an error, has been given its weight. */
  lemma IdlePodIsRestored(l: Ledger, k: Knobs, weight: nat, idleWeight: nat, answers: Answers)
    requires l.cg == Some(k) && k.idle && 1 <= weight <= MAX_WEIGHT
    ensures var r := Execute(l, BuildPlan(NO_TIER, k, weight), idleWeight, answers, 0);
            r.end != Failed && r.l.cg.Some? && !r.l.cg.value.idle ==> r.l.cg.value.weight == weight
  {
    var plan := BuildPlan(NO_TIER, k, weight);
    var rest := plan[1..];
    assert plan[0] == SetIdle(false) && rest[0] == SetWeight(weight);
    var k' := k.(idle := false, weight := DEFAULT_WEIGHT);
    if answers(0) == Through && answers(1) == Through {
      var l2 := Ledger(Some(k'.(weight := weight)), false);
      var last := rest[1..];
      assert last == [] || (last == [SetBurst(0)] && last[1..] == []);
      assert Execute(l, plan, idleWeight, answers, 0).l ==
             Execute(Ledger(Some(k'), true), rest, idleWeight, answers, 1).l ==
             Execute(l2, last, idleWeight, answers, 2).l;
      if last != [] {
        var reply := WriteReply(l2.cg, last[0], idleWeight, answers(2));
        assert reply.Accepted? && answers(2) != Cancelled ==>
            Execute(l2, last, idleWeight, answers, 2).l ==
            Execute(Ledger(Some(reply.knobs), false), [], idleWeight, answers, 3).l;
      }
    }
  }

  /** A pod nothing goes wrong for is reverted, or had nothing active, or is gone. */
  lemma QuietRevertSucceeds(l: Ledger, weight: nat, idleWeight: nat, s: Script)
    requires Sound(l, weight, idleWeight)
    requires !s.noPath && !s.readFails && !s.broken && !s.verifyFails && forall j :: s.answers(j) == Through
    ensures RevertOne(l, weight, idleWeight, s).status != Trouble
  {
    if l.cg.Some? {
      QuietPassRestores(l, NO_TIER, false, weight, idleWeight, s.answers);
    }
  }

  method RevertPod(applier: Applier, pod: PodSpec, s: Script) returns (status: Status)
    modifies applier
    ensures Reported(applier.View(pod.uid), status) ==
            RevertOne(old(applier.View(pod.uid)), pod.weight, applier.idleWeight, s)
    ensures applier.OthersAre(pod.uid, old(applier.pendingRestores), old(applier.cgroups))
  {
    var before := applier.View(pod.uid);
    if s.noPath || (s.readFails && before.cg.Some?) { return Trouble; }
    if before.cg.None? { return PodGone; }
    if BuildPlan(NO_TIER, before.cg.value, pod.weight) == [] { return NothingActive; }
    var log, end := applier.Revert(pod.uid, before.cg.value, pod.weight, s.broken, s.answers);
    if end == Failed { return Trouble; }
    if s.vanishes {
      applier.cgroups := applier.cgroups - {pod.uid};
    }
    var after := applier.View(pod.uid);
    if after.cg.None? { return PodGone; }
    if s.verifyFails || BuildPlan(NO_TIER, after.cg.value, pod.weight) != [] { return Trouble; }
    return Status.Reverted;
  }

  /** RunRevertAll's loop and outcome: every listed pod is attempted exactly as if it were alone, whatever
      the others did; the run succeeds exactly when no pod, the guard recovery and the table failed; and when it
      succeeds no listed pod has a tier left. */
  method RunRevertAll(applier: Applier, pods: seq<PodSpec>, script: Uid -> Script, guardOk: bool, tableOk: bool)
    returns (results: seq<Status>, ok: bool)
    requires forall i, j :: 0 <= i < j < |pods| ==> pods[i].uid != pods[j].uid
    modifies applier
    ensures |results| == |pods|
    ensures forall i :: 0 <= i < |pods| ==>
              Reported(applier.View(pods[i].uid), results[i]) ==
              RevertOne(old(applier.View(pods[i].uid)), pods[i].weight, applier.idleWeight, script(pods[i].uid))
    ensures ok <==> guardOk && tableOk && Trouble !in results
    ensures ok ==> forall i :: 0 <= i < |pods| ==>
              Sound(old(applier.View(pods[i].uid)), pods[i].weight, applier.idleWeight) ==>
              TiersOff(old(applier.View(pods[i].uid)), applier.View(pods[i].uid), pods[i].weight)
  {
    results := [];
    var failures := 0;
    for n := 0 to |pods|
      invariant |results| == n
      invariant failures == 0 <==> Trouble !in results
      invariant failures >= 0
      invariant forall i :: 0 <= i < n ==>
        Reported(applier.View(pods[i].uid), results[i]) ==
        RevertOne(old(applier.View(pods[i].uid)), pods[i].weight, applier.idleWeight, script(pods[i].uid))
      invariant forall i :: n <= i < |pods| ==> applier.View(pods[i].uid) == old(applier.View(pods[i].uid))
    {
      label before:
      var status := RevertPod(applier, pods[n], script(pods[n].uid));
      forall i | 0 <= i < |pods| && i != n
        ensures applier.View(pods[i].uid) == old@before(applier.View(pods[i].uid))
      {
        var u := pods[i].uid;
        assert u in applier.pendingRestores <==> u in applier.pendingRestores - {pods[n].uid};
        assert u in applier.cgroups <==> u in applier.cgroups - {pods[n].uid};
        assert u in applier.cgroups ==> applier.cgroups[u] == (applier.cgroups - {pods[n].uid})[u];
      }
      if status == Trouble {
        failures := failures + 1;
      }
      results := results + [status];
    }
    ok := failures == 0 && guardOk && tableOk;
    forall i | 0 <= i < |pods| && ok && Sound(old(applier.View(pods[i].uid)), pods[i].weight, applier.idleWeight)
      ensures TiersOff(old(applier.View(pods[i].uid)), applier.View(pods[i].uid), pods[i].weight)
    {
      ReportIsHonest(old(applier.View(pods[i].uid)), pods[i].weight, applier.idleWeight, script(pods[i].uid));
      assert results[i] in results;
    }
  }
}
