/**
 The idle-off transaction of one pod: clearing cpu.idle costs the pod its cpu.weight, so the process
 journals the pod until the weight is written back. `Ledger` is the pod's live knobs and its journal
 entry; every pass is a function of it and of how each write is answered.
 */
module Transaction {
  import opened Wrappers
  import opened Plan
  import CpuMax

  datatype Ledger = Ledger(cg: Option<Knobs>, pending: bool)

  /** What happens to one write. `Through` leaves the verdict to the kernel. */
  datatype Answer = Through | Gone | Refused | NotPod | Broken | Cancelled

  /** The answer to the i-th write of a pass. */
  type Answers = nat -> Answer

  datatype Reply = Accepted(knobs: Knobs) | CgroupGone | Einval | Error

  function WriteReply(cg: Option<Knobs>, w: Write, idleWeight: nat, answer: Answer): Reply {
    if answer == NotPod then Error
    else if answer == Gone || cg.None? then CgroupGone
    else if answer == Refused then Einval
    else if answer != Through then Error
    else
      var next := KernelWrite(cg.value, w, idleWeight);
      if next.Some? then Accepted(next.value) else Einval
  }

  /** A write that was tried: the live knobs and the journal entry it met, and whether it took. */
  datatype Attempt = Attempt(w: Write, live: Option<Knobs>, pending: bool, ok: bool)

  /** How a pass ends. Only `Failed` returns an error; `Swallowed` is EINVAL on a tier knob. */
  datatype End = Finished | Vanished | Swallowed | Failed

  datatype Result = Result(l: Ledger, log: seq<Attempt>, end: End)

  /** recordCompletedWrite. */
  function Journaled(pending: bool, w: Write): bool {
    if w == SetIdle(false) then true else if w.SetWeight? then false else pending
  }

  /** The write loop shared by Apply and Revert, from the i-th answer on. */
  function Execute(l: Ledger, plan: seq<Write>, idleWeight: nat, answers: Answers, i: nat): Result
    decreases |plan|
  {
    if plan == [] then Result(l, [], Finished)
    else if answers(i) == Cancelled then Result(l, [], Failed)
    else
      var w := plan[0];
      match WriteReply(l.cg, w, idleWeight, answers(i))
      case Accepted(k) =>
        var rest := Execute(Ledger(Some(k), Journaled(l.pending, w)), plan[1..], idleWeight, answers, i + 1);
        rest.(log := [Attempt(w, l.cg, l.pending, true)] + rest.log)
      case CgroupGone => Result(Ledger(None, false), [Attempt(w, l.cg, l.pending, false)], Vanished)
      case Einval =>
        Result(l, [Attempt(w, l.cg, l.pending, false)], if w.SetWeight? then Failed else Swallowed)
      case Error => Result(l, [Attempt(w, l.cg, l.pending, false)], Failed)
  }

  /** The writes tried are a prefix of the plan, all but the last of them took, and none was tried after a
      cancellation. The pass finished exactly when every write took; it forgot a pod whose cgroup is gone; it hid a
      refusal only on a tier knob. */
  predicate Stopped(r: Result, plan: seq<Write>, answers: Answers, i: nat) {
    && |r.log| <= |plan|
    && (forall j :: 0 <= j < |r.log| ==> r.log[j].w == plan[j])
    && (forall n :: i <= n < i + |r.log| ==> answers(n) != Cancelled)
    && (forall j :: 0 <= j < |r.log| - 1 ==> r.log[j].ok)
    && (r.end == Finished <==> |r.log| == |plan| && (plan == [] || r.log[|plan| - 1].ok))
    && (r.end == Vanished ==> r.l == Ledger(None, false))
    && (r.end == Swallowed ==> r.log != [] && !r.log[|r.log| - 1].w.SetWeight? && !r.log[|r.log| - 1].ok)
  }

  lemma StoppedLater(a: Attempt, rest: Result, plan: seq<Write>, answers: Answers, i: nat)
    requires plan != [] && a.ok && a.w == plan[0] && answers(i) != Cancelled
    requires Stopped(rest, plan[1..], answers, i + 1)
    ensures Stopped(rest.(log := [a] + rest.log), plan, answers, i)
  {
    var log := [a] + rest.log;
    assert log[1..] == rest.log;
    assert rest.log != [] ==> log[|log| - 1] == rest.log[|rest.log| - 1];
    forall j | 1 <= j < |log|
      ensures log[j] == rest.log[j - 1] && log[j].w == plan[j]
    {
      assert plan[1..][j - 1] == plan[j];
      assert rest.log[j - 1].w == plan[1..][j - 1];
    }
    forall j | 0 <= j < |log| - 1
      ensures log[j].ok
    {
      assert j > 0 ==> log[j] == rest.log[j - 1];
    }
  }

  /** The write loop stops at the first write that does not take, or at a cancellation. */
  lemma {:induction false} ExecuteStopsAtFailure(l: Ledger, plan: seq<Write>, idleWeight: nat, answers: Answers, i: nat)
    ensures Stopped(Execute(l, plan, idleWeight, answers, i), plan, answers, i)
    decreases |plan|
  {
    if plan != [] && answers(i) != Cancelled {
      var reply := WriteReply(l.cg, plan[0], idleWeight, answers(i));
      if reply.Accepted? {
        var l' := Ledger(Some(reply.knobs), Journaled(l.pending, plan[0]));
        ExecuteStopsAtFailure(l', plan[1..], idleWeight, answers, i + 1);
        StoppedLater(Attempt(plan[0], l.cg, l.pending, true),
                     Execute(l', plan[1..], idleWeight, answers, i + 1), plan, answers, i);
      }
    }
  }

  /** How the write loop ends, exactly: finished when every write took; a failure when the context ended before a write;
      otherwise by what the last write met: a vanished cgroup, a refusal, which is hidden on a tier knob and an error
      on the weight, or any other error. A write that did not take changes nothing. */
  predicate EndsBy(r: Result, plan: seq<Write>, idleWeight: nat, answers: Answers, i: nat) {
    var n := |r.log|;
    if n == 0 || r.log[n - 1].ok then
      if n == |plan| then r.end == Finished else r.end == Failed && answers(i + n) == Cancelled
    else
      match WriteReply(r.log[n - 1].live, r.log[n - 1].w, idleWeight, answers(i + n - 1))
      case Accepted(_) => false
      case CgroupGone => r.end == Vanished && r.l == Ledger(None, false)
      case Einval =>
        && r.end == (if r.log[n - 1].w.SetWeight? then Failed else Swallowed)
        && r.l == Ledger(r.log[n - 1].live, r.log[n - 1].pending)
      case Error => r.end == Failed && r.l == Ledger(r.log[n - 1].live, r.log[n - 1].pending)
  }

  lemma {:induction false} ExecuteEndsBy(l: Ledger, plan: seq<Write>, idleWeight: nat, answers: Answers, i: nat)
    ensures EndsBy(Execute(l, plan, idleWeight, answers, i), plan, idleWeight, answers, i)
    decreases |plan|
  {
    if plan != [] && answers(i) != Cancelled {
      var reply := WriteReply(l.cg, plan[0], idleWeight, answers(i));
      if reply.Accepted? {
        var l' := Ledger(Some(reply.knobs), Journaled(l.pending, plan[0]));
        ExecuteEndsBy(l', plan[1..], idleWeight, answers, i + 1);
        var rest := Execute(l', plan[1..], idleWeight, answers, i + 1);
        var r := Execute(l, plan, idleWeight, answers, i);
        assert rest.log != [] ==> r.log[|r.log| - 1] == rest.log[|rest.log| - 1];
      }
    }
  }

  /** NeedsWeightRepair's answer, and the journal it leaves behind. */
  predicate NeedsRepair(l: Ledger, snapshot: Knobs, weight: nat) {
    !snapshot.idle && l.pending && snapshot.weight != weight
  }

  function Checked(l: Ledger, snapshot: Knobs, weight: nat): Ledger {
    if !snapshot.idle && l.pending && snapshot.weight == weight then l.(pending := false) else l
  }

  /** The Applier's own plan: an interrupted transaction is finished before anything new is started. */
  function JournalPlan(l: Ledger, desired: Tier, snapshot: Knobs, weight: nat): seq<Write> {
    (if NeedsRepair(l, snapshot, weight) then [SetWeight(weight)] else []) + BuildPlan(desired, snapshot, weight)
  }

  /** `broken`: the context is done or the path cannot be computed; then not even the journal is looked at. */
  function Revert(l: Ledger, snapshot: Knobs, weight: nat, idleWeight: nat, broken: bool, answers: Answers): Result {
    if broken then Result(l, [], Failed)
    else
      var l' := Checked(l, snapshot, weight);
      Execute(l', JournalPlan(l', NO_TIER, snapshot, weight), idleWeight, answers, 0)
  }

  /** `broken`: the context is done, the path cannot be computed or the snapshot cannot be read. */
  function Apply(l: Ledger, desired: Tier, weight: nat, idleWeight: nat, broken: bool, answers: Answers): Result {
    if broken then Result(l, [], Failed)
    else if l.cg.None? then Result(l.(pending := false), [], Vanished)
    else
      var l' := Checked(l, l.cg.value, weight);
      var r := Execute(l', JournalPlan(l', desired, l.cg.value, weight), idleWeight, answers, 0);
      if r.end == Finished && answers(|r.log|) == Cancelled then r.(end := Failed) else r
  }

  /** How Apply and Revert end around the write loop: an entry failure touches nothing, not even the journal; a cgroup
      that is gone is forgotten; and Apply succeeds only if the context is still alive after the last write. */
  lemma ApplyEndsBy(l: Ledger, desired: Tier, weight: nat, idleWeight: nat, broken: bool, answers: Answers)
    ensures var r := Apply(l, desired, weight, idleWeight, broken, answers);
            if broken then r == Result(l, [], Failed)
            else if l.cg.None? then r == Result(Ledger(None, false), [], Vanished)
            else
              var plan := JournalPlan(Checked(l, l.cg.value, weight), desired, l.cg.value, weight);
              var ran := Execute(Checked(l, l.cg.value, weight), plan, idleWeight, answers, 0);
              && r.l == ran.l && r.log == ran.log && EndsBy(ran, plan, idleWeight, answers, 0)
              && (r.end == Finished <==> ran.end == Finished && answers(|plan|) != Cancelled)
              && (ran.end != Finished ==> r.end == ran.end)
              && (r.end == Finished || r.end == Failed || r.end == ran.end)
    ensures forall snapshot :: broken ==>
              Revert(l, snapshot, weight, idleWeight, broken, answers) == Result(l, [], Failed)
  {
    if l.cg.Some? {
      var l' := Checked(l, l.cg.value, weight);
      var plan := JournalPlan(l', desired, l.cg.value, weight);
      ExecuteEndsBy(l', plan, idleWeight, answers, 0);
      ExecuteStopsAtFailure(l', plan, idleWeight, answers, 0);
    }
  }

  // ---- the invariant ----

  /** `cleared`: this process took the pod out of idle. While journaled the pod is not idle; once the
      journal entry is gone, a pod this process took out of idle shows its restored weight. */
  predicate Inv(l: Ledger, cleared: bool, weight: nat) {
    l.cg.Some? ==>
      && Legal(l.cg.value)
      && (l.pending ==> !l.cg.value.idle)
      && (cleared && !l.cg.value.idle && !l.pending ==> l.cg.value.weight == weight)
  }

  /** A weight write meets a journaled pod that is not idle and writes its restore weight; idle is never
      switched on over an open journal entry. */
  predicate Proper(a: Attempt, weight: nat) {
    && (a.w.SetWeight? ==> a.w.weight == weight && a.pending && a.live.Some? && !a.live.value.idle)
    && (a.w == SetIdle(true) ==> !a.pending)
  }

  predicate Clears(log: seq<Attempt>) {
    exists i :: 0 <= i < |log| && log[i].ok && log[i].w == SetIdle(false)
  }

  /** The plan is one this transaction allows from here. */
  predicate Fits(idle: bool, pending: bool, plan: seq<Write>, weight: nat)
    decreases |plan|
  {
    plan == [] ||
    match plan[0]
    case SetWeight(n) => n == weight && pending && !idle && Fits(idle, false, plan[1..], weight)
    case SetIdle(on) => (on ==> !pending) && Fits(on, !on, plan[1..], weight)
    case SetBurst(_) => Fits(idle, pending, plan[1..], weight)
  }

  predicate Range(weight: nat, idleWeight: nat) {
    1 <= weight <= MAX_WEIGHT && idleWeight <= 1
  }

  lemma {:induction false} ExecuteKeeps(l: Ledger, plan: seq<Write>, cleared: bool, weight: nat, idleWeight: nat,
                                        answers: Answers, i: nat)
    requires Range(weight, idleWeight) && Inv(l, cleared, weight) && l.cg.Some?
    requires Fits(l.cg.value.idle, l.pending, plan, weight)
    ensures var r := Execute(l, plan, idleWeight, answers, i);
            && (forall j :: 0 <= j < |r.log| ==> Proper(r.log[j], weight))
            && Inv(r.l, cleared || Clears(r.log), weight)
    decreases |plan|
  {
    var r := Execute(l, plan, idleWeight, answers, i);
    if plan != [] && answers(i) != Cancelled {
      var w := plan[0];
      var reply := WriteReply(l.cg, w, idleWeight, answers(i));
      if reply.Accepted? {
        var l' := Ledger(Some(reply.knobs), Journaled(l.pending, w));
        var cleared' := cleared || w == SetIdle(false);
        ExecuteKeeps(l', plan[1..], cleared', weight, idleWeight, answers, i + 1);
        var rest := Execute(l', plan[1..], idleWeight, answers, i + 1);
        assert r.log[0] == Attempt(w, l.cg, l.pending, true) && r.log[1..] == rest.log;
        assert Clears(r.log) ==> Clears(rest.log) || w == SetIdle(false) by {
          if Clears(r.log) {
            var j :| 0 <= j < |r.log| && r.log[j].ok && r.log[j].w == SetIdle(false);
            if j > 0 { assert rest.log[j - 1] == r.log[j]; }
          }
        }
        assert Clears(rest.log) ==> Clears(r.log) by {
          if Clears(rest.log) {
            var j :| 0 <= j < |rest.log| && rest.log[j].ok && rest.log[j].w == SetIdle(false);
            assert r.log[j + 1] == rest.log[j];
          }
        }
      }
    }
  }

  /** The Applier's own plan always fits its journal. */
  lemma JournalPlanFits(l: Ledger, desired: Tier, cleared: bool, weight: nat)
    requires l.cg.Some? && Inv(l, cleared, weight)
    ensures var l' := Checked(l, l.cg.value, weight);
            && Inv(l', cleared, weight)
            && Fits(l.cg.value.idle, l'.pending, JournalPlan(l', desired, l.cg.value, weight), weight)
  {
    var k := l.cg.value;
    var l' := Checked(l, k, weight);
    var repair := NeedsRepair(l', k, weight);
    var plan := BuildPlan(desired, k, weight);
    var whole := JournalPlan(l', desired, k, weight);
    PlanFits(desired, k, weight);
    if repair {
      assert whole[1..] == plan;
    } else {
      assert whole == plan;
    }
  }

  lemma PlanFits(desired: Tier, k: Knobs, weight: nat)
    ensures Fits(k.idle, false, BuildPlan(desired, k, weight), weight)
  {
    var plan := BuildPlan(desired, k, weight);
    if |plan| > 0 {
      var rest := plan[1..];
      if |rest| > 0 {
        assert rest[0] == plan[1];
        var last := rest[1..];
        if |last| > 0 {
          assert last[0] == plan[2] && last[1..] == [];
        }
        assert rest[0].SetWeight? ==> Fits(false, true, rest, weight);
        assert plan[0].SetBurst? ==> Fits(k.idle, false, rest, weight);
      }
    }
  }

  // ---- runs ----

  datatype Event =
    | ApplyPass(desired: Tier, broken: bool, answers: Answers)
    | RevertPass(broken: bool, answers: Answers)
    | CheckRepair                       // the reconciler asks NeedsWeightRepair
    | Resize(limit: CpuMax.Limit)       // kubelet rewrites cpu.max
    | Vanish                            // the cgroup goes away
    | Forget                            // ForgetPod

  datatype Run = Run(l: Ledger, cleared: bool)

  /** A pass reads its snapshot itself; Revert is handed the one just read. */
  function Pass(r: Run, ev: Event, weight: nat, idleWeight: nat): Result {
    match ev
    case ApplyPass(desired, broken, answers) => Apply(r.l, desired, weight, idleWeight, broken, answers)
    case RevertPass(broken, answers) =>
      if r.l.cg.None? then Result(r.l, [], Finished) else Revert(r.l, r.l.cg.value, weight, idleWeight, broken, answers)
    case CheckRepair =>
      Result(if r.l.cg.None? then r.l else Checked(r.l, r.l.cg.value, weight), [], Finished)
    case Resize(limit) =>
      if r.l.cg.Some? && Legal(r.l.cg.value.(limit := limit))
      then Result(r.l.(cg := Some(r.l.cg.value.(limit := limit))), [], Finished)
      else Result(r.l, [], Finished)
    case Vanish => Result(r.l.(cg := None), [], Finished)
    case Forget => Result(r.l.(pending := false), [], Finished)
  }

  function Advance(r: Run, ev: Event, weight: nat, idleWeight: nat): Run {
    var p := Pass(r, ev, weight, idleWeight);
    Run(p.l, !ev.Forget? && (r.cleared || Clears(p.log)))
  }

  /** Over the whole run every attempt is proper and the invariant holds after every event. */
  predicate ProperRun(r: Run, evs: seq<Event>, weight: nat, idleWeight: nat)
    decreases |evs|
  {
    && Inv(r.l, r.cleared, weight)
    && (evs != [] ==>
          && (forall j :: 0 <= j < |Pass(r, evs[0], weight, idleWeight).log| ==>
                Proper(Pass(r, evs[0], weight, idleWeight).log[j], weight))
          && ProperRun(Advance(r, evs[0], weight, idleWeight), evs[1..], weight, idleWeight))
  }

  lemma PassKeeps(r: Run, ev: Event, weight: nat, idleWeight: nat)
    requires Range(weight, idleWeight) && Inv(r.l, r.cleared, weight)
    ensures var p := Pass(r, ev, weight, idleWeight);
            && Inv(p.l, !ev.Forget? && (r.cleared || Clears(p.log)), weight)
            && (forall j :: 0 <= j < |p.log| ==> Proper(p.log[j], weight))
  {
    if r.l.cg.Some? && (ev.ApplyPass? || ev.RevertPass?) {
      var desired := if ev.ApplyPass? then ev.desired else NO_TIER;
      var l' := Checked(r.l, r.l.cg.value, weight);
      JournalPlanFits(r.l, desired, r.cleared, weight);
      ExecuteKeeps(l', JournalPlan(l', desired, r.l.cg.value, weight), r.cleared, weight, idleWeight, ev.answers, 0);
    }
  }

  /** Main result: over any sequence of passes with any write failures, cancellations, resizes and
      disappearances, for a pod whose spec does not change, cpu.weight is only ever tried on a journaled
      pod that is not idle, and a pod taken out of idle is journaled or already restored. */
  lemma {:induction false} RunsAreProper(r: Run, evs: seq<Event>, weight: nat, idleWeight: nat)
    requires Range(weight, idleWeight) && Inv(r.l, r.cleared, weight)
    ensures ProperRun(r, evs, weight, idleWeight)
    decreases |evs|
  {
    if evs != [] {
      PassKeeps(r, evs[0], weight, idleWeight);
      RunsAreProper(Advance(r, evs[0], weight, idleWeight), evs[1..], weight, idleWeight);
    }
  }

  // ---- one pass without failures ----

  lemma {:induction false} ExecuteFollowsKernel(l: Ledger, plan: seq<Write>, idleWeight: nat, answers: Answers, i: nat)
    requires l.cg.Some? && KernelRun(l.cg.value, plan, idleWeight).Some? && forall j :: answers(j) == Through
    ensures var r := Execute(l, plan, idleWeight, answers, i);
            r.end == Finished && r.l.cg == KernelRun(l.cg.value, plan, idleWeight)
    ensures Execute(l, plan, idleWeight, answers, i).l.pending == JournaledAll(l.pending, plan)
    decreases |plan|
  {
    if plan != [] {
      var k := KernelWrite(l.cg.value, plan[0], idleWeight).value;
      ExecuteFollowsKernel(Ledger(Some(k), Journaled(l.pending, plan[0])), plan[1..], idleWeight, answers, i + 1);
    }
  }

  function JournaledAll(pending: bool, plan: seq<Write>): bool
    decreases |plan|
  {
    if plan == [] then pending else JournaledAll(Journaled(pending, plan[0]), plan[1..])
  }

  lemma PlanClosesJournal(desired: Tier, k: Knobs, weight: nat)
    ensures !JournaledAll(false, BuildPlan(desired, k, weight))
  {
    var plan := BuildPlan(desired, k, weight);
    if |plan| > 0 {
      var rest := plan[1..];
      if |rest| > 0 {
        assert rest[0] == plan[1];
        var last := rest[1..];
        if |last| > 0 {
          assert last[0] == plan[2] && last[1..] == [];
          assert forall p :: JournaledAll(p, last) == JournaledAll(Journaled(p, last[0]), []);
        }
        assert forall p :: JournaledAll(p, rest) == JournaledAll(Journaled(p, rest[0]), last);
      }
    }
  }

  /** One failure-free pass closes the transaction whatever is requested by then: the journal entry is
      gone, the tiers are as requested, and a pod that ends up not idle shows its restored weight. */
  lemma QuietPassRestores(l: Ledger, desired: Tier, cleared: bool, weight: nat, idleWeight: nat, answers: Answers)
    requires Range(weight, idleWeight) && Inv(l, cleared, weight) && l.cg.Some?
    requires forall j :: answers(j) == Through
    ensures var r := Apply(l, desired, weight, idleWeight, false, answers);
            && r.end == Finished && !r.l.pending && r.l.cg.Some?
            && var k := r.l.cg.value;
               && Legal(k) && k.idle == desired.idleRequested && k.limit == l.cg.value.limit
               && k.burst == (if desired.burstActive && k.limit.Finite? then k.limit.quota else 0)
               && (!k.idle && (cleared || l.pending || l.cg.value.idle) ==> k.weight == weight)
  {
    var l' := Checked(l, l.cg.value, weight);
    JournalPlanRuns(l', desired, l.cg.value, weight, idleWeight);
    ExecuteFollowsKernel(l', JournalPlan(l', desired, l.cg.value, weight), idleWeight, answers, 0);
  }

  /** The knobs once an interrupted transaction is finished. */
  function Repaired(l: Ledger, k: Knobs, weight: nat): Knobs {
    if NeedsRepair(l, k, weight) then k.(weight := weight) else k
  }

  /** The kernel takes the Applier's own plan to its goal, and the journal entry is closed by it. */
  lemma JournalPlanRuns(l: Ledger, desired: Tier, k: Knobs, weight: nat, idleWeight: nat)
    requires Range(weight, idleWeight) && Legal(k) && (l.pending ==> NeedsRepair(l, k, weight))
    ensures var plan := JournalPlan(l, desired, k, weight);
            && KernelRun(k, plan, idleWeight) == Some(Goal(desired, Repaired(l, k, weight), weight, idleWeight))
            && Legal(Goal(desired, Repaired(l, k, weight), weight, idleWeight))
            && !JournaledAll(l.pending, plan)
  {
    var plan, whole := BuildPlan(desired, k, weight), JournalPlan(l, desired, k, weight);
    PlanConverges(desired, Repaired(l, k, weight), weight, idleWeight);
    PlanClosesJournal(desired, k, weight);
    assert BuildPlan(desired, Repaired(l, k, weight), weight) == plan;
    if NeedsRepair(l, k, weight) {
      assert whole[0] == SetWeight(weight) && whole[1..] == plan;
    } else {
      assert whole == plan;
    }
  }

  // ---- the reconciler and the Applier see the same work ----

  /** Reconcile's own test for cgroup work. */
  predicate HasCgroupWork(l: Ledger, desired: Tier, snapshot: Knobs, weight: nat) {
    var target := if desired.idleRequested || desired.burstRequested then desired else NO_TIER;
    || BuildPlan(target, snapshot, weight) != []
    || (!desired.idleRequested && NeedsRepair(l, snapshot, weight))
  }

  /** The reconciler sees work exactly when the Applier would write something, and for a pod that asks for
      no tier Apply and Revert plan the same writes, journal repair included. */
  lemma ReconcilerSeesApplierWork(l: Ledger, desired: Tier, snapshot: Knobs, weight: nat)
    requires desired.burstActive ==> desired.burstRequested
    ensures HasCgroupWork(l, desired, snapshot, weight)
       <==> JournalPlan(Checked(l, snapshot, weight), desired, snapshot, weight) != []
    ensures !desired.idleRequested && !desired.burstRequested ==>
              JournalPlan(l, desired, snapshot, weight) == JournalPlan(l, NO_TIER, snapshot, weight)
  {
  }

  /** A pod that asks for no tier may go through Apply or through Revert: under every script of answers the same
      writes are tried and the same knobs and journal entry are left. Only a context that ends after the last write
      is reported by Apply alone. */
  lemma ApplyIsRevertWithoutTier(l: Ledger, desired: Tier, weight: nat, idleWeight: nat, broken: bool, answers: Answers)
    requires l.cg.Some? && !desired.idleRequested && !desired.burstRequested && !desired.burstActive
    ensures var a := Apply(l, desired, weight, idleWeight, broken, answers);
            var r := Revert(l, l.cg.value, weight, idleWeight, broken, answers);
            && a.l == r.l && a.log == r.log
            && (a.end == r.end || (r.end == Finished && a.end == Failed && answers(|r.log|) == Cancelled))
  {
    ReconcilerSeesApplierWork(Checked(l, l.cg.value, weight), desired, l.cg.value, weight);
  }
}
