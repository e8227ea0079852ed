/** The kernel's rules for the CPU knobs of one pod cgroup, the snapshot read from them, and the plan of
    writes that converges them. */
module Plan {
  import opened Wrappers
  import opened Text
  import opened CpuMax

  const MAX_WEIGHT := 10_000
  const DEFAULT_WEIGHT := 100

  /** Live knob values; it is also what a successful ReadSnapshot returns. */
  datatype Knobs = Knobs(idle: bool, weight: nat, limit: Limit, burst: nat)

  /** The states a kernel can be in. An idle group shows the kernel's idle weight, 0 or 1. */
  predicate Legal(k: Knobs) {
    && (if k.idle then k.weight <= 1 else 1 <= k.weight <= MAX_WEIGHT)
    && (k.limit.Finite? ==> MIN_PERIOD <= k.limit.quota <= MAX_UINT64 && k.burst <= k.limit.quota)
    && k.burst <= MAX_UINT64
  }

  // ---- reading ----

  /** The four knob files. */
  datatype Files = Files(idle: string, weight: string, max: string, burst: string)

  /** What the kernel shows in the files. */
  function Show(k: Knobs, period: nat): Files {
    Files(if k.idle then "1" else "0", FormatUint(k.weight), Spell(k.limit, period), FormatUint(k.burst))
  }

  /** ReadSnapshot's validation; `None` is its error. */
  function ReadSnapshot(f: Files): Option<Knobs> {
    var weight, burst, limit := ParseUint(f.weight), ParseUint(f.burst), ParseLimit(f.max);
    if f.idle != "0" && f.idle != "1" then None
    else if weight.None? then None
    else if !(f.idle == "1" && weight.value == 0) && (weight.value < 1 || weight.value > MAX_WEIGHT) then None
    else if burst.None? || limit.None? then None
    else Some(Knobs(f.idle == "1", weight.value, limit.value, burst.value))
  }

  /** Every legal kernel state reads back as itself. */
  lemma SnapshotReadsBack(k: Knobs, period: nat)
    requires Legal(k) && MIN_PERIOD <= period <= MAX_PERIOD
    ensures ReadSnapshot(Show(k, period)) == Some(k)
  {
    ParseOfFormat(k.weight);
    ParseOfFormat(k.burst);
    SpellReadsBack(k.limit, period);
  }

  /** A snapshot is taken exactly of files that hold a truth value, a weight the kernel can show (0 only while idle), a
      readable limit and a burst; and it says what they say. */
  lemma SnapshotReadsExactly(f: Files, k: Knobs)
    ensures ReadSnapshot(f) == Some(k) <==>
            && f.idle == (if k.idle then "1" else "0")
            && ParseUint(f.weight) == Some(k.weight) && (1 <= k.weight <= 10000 || (k.idle && k.weight == 0))
            && ParseLimit(f.max) == Some(k.limit) && ParseUint(f.burst) == Some(k.burst)
  {
  }

  // ---- writing ----

  datatype Write = SetIdle(on: bool) | SetWeight(weight: nat) | SetBurst(burst: nat)

  /** Whether the kernel takes the write (`None` is EINVAL) and what it leaves. Clearing cpu.idle resets
      cpu.weight; an idle group refuses any weight; burst may not exceed a finite quota. */
  function KernelWrite(k: Knobs, w: Write, idleWeight: nat): Option<Knobs> {
    match w
    case SetIdle(on) =>
      if k.idle == on then Some(k)
      else if on then Some(k.(idle := true, weight := idleWeight))
      else Some(k.(idle := false, weight := DEFAULT_WEIGHT))
    case SetWeight(n) =>
      if k.idle || n < 1 || n > MAX_WEIGHT then None else Some(k.(weight := n))
    case SetBurst(n) =>
      if n > MAX_UINT64 || (k.limit.Finite? && n > k.limit.quota) then None else Some(k.(burst := n))
  }

  /** Run a plan; `None` as soon as the kernel refuses a write. */
  function KernelRun(k: Knobs, plan: seq<Write>, idleWeight: nat): Option<Knobs>
    decreases |plan|
  {
    if plan == [] then Some(k)
    else
      var next := KernelWrite(k, plan[0], idleWeight);
      if next.None? then None else KernelRun(next.value, plan[1..], idleWeight)
  }

  // ---- planning ----

  /** tier.State without the identity it carries along. */
  datatype Tier = Tier(idleRequested: bool, burstRequested: bool, burstActive: bool)

  const NO_TIER := Tier(false, false, false)

  /** Burst is requested and predicted to work, but the live cgroup has no quota. */
  predicate QuotaMissing(desired: Tier, actual: Knobs) {
    desired.burstRequested && desired.burstActive && actual.limit.Unlimited?
  }

  function BurstTarget(desired: Tier, actual: Knobs): nat {
    if desired.burstActive && actual.limit.Finite? then actual.limit.quota else 0
  }

  /** BuildPlan: what turns on before what turns off, bandwidth outside selection, weight right after
      the write that clears idle. */
  function BuildPlan(desired: Tier, actual: Knobs, restoreWeight: nat): seq<Write> {
    var target := BurstTarget(desired, actual);
    var burst := if target == actual.burst then [] else [SetBurst(target)];
    var idle := if desired.idleRequested == actual.idle then [] else [SetIdle(desired.idleRequested)];
    var weight := if idle != [] && !desired.idleRequested then [SetWeight(restoreWeight)] else [];
    (if target > 0 then burst else []) + idle + weight + (if target > 0 then [] else burst)
  }

  predicate Installs(w: Write) {
    match w
    case SetIdle(on) => on
    case SetWeight(_) => false
    case SetBurst(n) => n > 0
  }

  /** The ordering rule, for every snapshot: installs come before removals, a weight write directly
      follows the write that clears idle, and no knob is written twice. */
  lemma PlanOrder(desired: Tier, actual: Knobs, restoreWeight: nat)
    ensures var plan := BuildPlan(desired, actual, restoreWeight);
            && (forall i, j :: 0 <= i < j < |plan| ==> Installs(plan[i]) || !Installs(plan[j]))
            && (forall i :: 0 <= i < |plan| && plan[i].SetWeight? ==>
                  i > 0 && plan[i - 1] == SetIdle(false) && plan[i].weight == restoreWeight)
            && (forall i :: 0 <= i < |plan| && plan[i] == SetIdle(false) ==>
                  i + 1 < |plan| && plan[i + 1].SetWeight?)
            && (forall i, j :: 0 <= i < j < |plan| ==>
                  && !(plan[i].SetIdle? && plan[j].SetIdle?)
                  && !(plan[i].SetWeight? && plan[j].SetWeight?)
                  && !(plan[i].SetBurst? && plan[j].SetBurst?))
  {
  }

  /** The state a plan is meant to reach. */
  function Goal(desired: Tier, actual: Knobs, restoreWeight: nat, idleWeight: nat): Knobs {
    Knobs(desired.idleRequested,
          if desired.idleRequested == actual.idle then actual.weight
          else if desired.idleRequested then idleWeight else restoreWeight,
          actual.limit, if desired.burstActive && actual.limit.Finite? then actual.limit.quota else 0)
  }

  /** From every legal state the kernel accepts every write of the plan, in order; the result is the goal,
      it is legal, and planning again finds nothing to do. */
  lemma PlanConverges(desired: Tier, actual: Knobs, restoreWeight: nat, idleWeight: nat)
    requires Legal(actual) && 1 <= restoreWeight <= MAX_WEIGHT && idleWeight <= 1
    ensures var goal := Goal(desired, actual, restoreWeight, idleWeight);
            && KernelRun(actual, BuildPlan(desired, actual, restoreWeight), idleWeight) == Some(goal)
            && Legal(goal)
            && BuildPlan(desired, goal, restoreWeight) == []
  {
    var plan := BuildPlan(desired, actual, restoreWeight);
    if plan != [] {
      var k := KernelWrite(actual, plan[0], idleWeight).value;
      var rest := plan[1..];
      assert KernelRun(actual, plan, idleWeight) == KernelRun(k, rest, idleWeight);
      if rest != [] {
        assert rest[0] == plan[1];
        var k' := KernelWrite(k, rest[0], idleWeight).value;
        var last := rest[1..];
        assert KernelRun(k, rest, idleWeight) == KernelRun(k', last, idleWeight);
        if last != [] {
          assert last == [plan[2]] && last[1..] == [];
          var k'' := KernelWrite(k', last[0], idleWeight).value;
          assert KernelRun(k', last, idleWeight) == KernelRun(k'', [], idleWeight) == Some(k'');
        }
      }
    }
  }

  /** An empty plan means that the knobs are as requested. */
  lemma EmptyPlanMeans(desired: Tier, actual: Knobs, restoreWeight: nat)
    ensures BuildPlan(desired, actual, restoreWeight) == [] <==>
            && actual.idle == desired.idleRequested
            && actual.burst == (if desired.burstActive && actual.limit.Finite? then actual.limit.quota else 0)
  {
  }

  /** Nothing to do means nothing active: an empty plan for no tier shows both tiers cleared. */
  lemma EmptyRevertPlan(actual: Knobs, restoreWeight: nat)
    ensures BuildPlan(NO_TIER, actual, restoreWeight) == [] <==> !actual.idle && actual.burst == 0
  {
  }
}
