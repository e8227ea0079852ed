/**
 The guard's own passes as runs of the node: whatever others do in the meantime, a pass of converge or of Recover keeps
 every pod's invariant, as long as the list it starts from is no older than the guard's own last clears.
 */
module NodePasses {
  import opened Ownership
  import opened OwnershipRuns
  import opened GuardMaps
  import opened NodeRuns

  /** The pod's invariant holds before and after, and no cut through what it sees of any turn is unsafe. */
  predicate SafeRun(q: PodRef, w: Watch, turns: seq<Turn>) {
    && Holds(q, w) && Holds(q, Watched(q, w, turns))
    && forall n :: 0 <= n < |turns| ==> SafeTurn(q, Watched(q, w, turns[..n]), turns[n])
  }

  lemma FitsIsSafe(q: PodRef, w: Watch, turns: seq<Turn>)
    requires Holds(q, w) && FitsRun(q, w, turns)
    ensures SafeRun(q, w, turns)
  {
    NodeRunsAreSafe(q, w.m, w.h, turns);
  }

  /** Safe runs join to safe runs. */
  lemma SafeRunsJoin(q: PodRef, w: Watch, a: seq<Turn>, b: seq<Turn>)
    requires SafeRun(q, w, a) && SafeRun(q, Watched(q, w, a), b)
    ensures SafeRun(q, w, a + b) && Watched(q, w, a + b) == Watched(q, Watched(q, w, a), b)
  {
    var turns := a + b;
    FoldBoth(Observer(q), w, a, b);
    forall n | 0 <= n < |turns|
      ensures SafeTurn(q, Watched(q, w, turns[..n]), turns[n])
    {
      TurnOfBoth(q, w, a, b, n);
    }
  }

  lemma TurnOfBoth(q: PodRef, w: Watch, a: seq<Turn>, b: seq<Turn>, n: nat)
    requires n < |a + b|
    ensures var k := n - |a|;
            if n < |a| then (a + b)[..n] == a[..n] && (a + b)[n] == a[n]
            else Watched(q, w, (a + b)[..n]) == Watched(q, Watched(q, w, a), b[..k]) && (a + b)[n] == b[k]
  {
    if n < |a| {
      assert (a + b)[..n] == a[..n];
    } else {
      assert (a + b)[..n] == a + b[..n - |a|];
      FoldBoth(Observer(q), w, a, b[..n - |a|]);
    }
  }

  // ---- turns and visits ----

  lemma {:induction false} VisitAt(turns: seq<Turn>, n: nat)
    requires n < |turns| && !turns[n].act.Meddle?
    ensures var k := |Visits(turns[..n])|; k < |Visits(turns)| && Visits(turns)[k] == turns[n].act
    decreases |turns|
  {
    var init := turns[..|turns| - 1];
    if n < |init| {
      VisitAt(init, n);
      assert init[..n] == turns[..n];
    }
  }

  predicate DistinctVisits(acts: seq<Act>) {
    forall i, j :: 0 <= i < j < |acts| ==> acts[i].p.pod.uid != acts[j].p.pod.uid
  }

  /** No pod is visited twice. */
  lemma OnlyVisit(turns: seq<Turn>, i: nat, j: nat)
    requires i < j < |turns| && !turns[i].act.Meddle? && !turns[j].act.Meddle? && DistinctVisits(Visits(turns))
    ensures turns[i].act.p.pod.uid != turns[j].act.p.pod.uid
  {
    VisitAt(turns, i);
    VisitAt(turns, j);
    VisitAt(turns[..j], i);
    assert turns[..j][..i] == turns[..i];
  }

  lemma {:induction false} EligibleWasFound(m: Maps, turns: seq<Turn>, p: PodRef) returns (n: nat)
    requires p in EligibleIn(m, turns)
    ensures n < |turns| && turns[n].act.p == p && FindsEligible(End(m, turns[..n]), turns[n].act)
    decreases |turns|
  {
    var init, last := turns[..|turns| - 1], turns[|turns| - 1];
    if p in EligibleIn(m, init) {
      n := EligibleWasFound(m, init, p);
      assert init[..n] == turns[..n];
    } else {
      n := |init|;
    }
  }

  // ---- what keeps a cached marker recent ----

  predicate Patchless(fx: seq<Effect>) {
    forall i :: 0 <= i < |fx| ==> !fx[i].Patched?
  }

  lemma {:induction false} AfterKeepsRecent(uid: Uid, w: World, fx: seq<Effect>)
    requires Patchless(fx)
    ensures w.h.recent <= After(uid, w, fx).h.recent
    decreases |fx|
  {
    if fx != [] {
      assert !fx[0].Patched?;
      AfterKeepsRecent(uid, Next(uid, w, fx[0]), fx[1..]);
    }
  }

  /** Only the guard's own patch of this pod can make a marker it showed an old one. */
  lemma RunKeepsRecent(q: PodRef, w: Watch, turns: seq<Turn>)
    requires forall n :: 0 <= n < |turns| ==> Patchless(SeenBy(q, End(w.m, turns[..n]), turns[n]))
    ensures w.h.recent <= Watched(q, w, turns).h.recent
  {
    var step, inv, fits := Observer(q), (w': Watch) => w.h.recent <= w'.h.recent,
                           (w': Watch, t: Turn) => Patchless(SeenBy(q, w'.m, t));
    forall w', t | inv(w') && fits(w', t)
      ensures inv(step(w', t))
    {
      AfterKeepsRecent(q.pod.uid, World(View(w'.m, q).d, w'.h), SeenBy(q, w'.m, t));
    }
    forall n | 0 <= n < |turns|
      ensures fits(Fold(step, w, turns[..n]), turns[n])
    {
      WatchedMaps(q, w, turns[..n]);
    }
    FoldKeeps(step, w, turns, inv, fits);
  }

  /** A turn the guard does not spend on this pod, or a sweep that finds the pod eligible, patches nothing of it. */
  lemma PatchlessTurn(q: PodRef, m: Maps, t: Turn)
    requires t.act.p.pod.uid != q.pod.uid || t.act.Meddle? || FindsEligible(m, t.act)
    ensures Patchless(SeenBy(q, m, t))
  {
    if t.act.p.pod.uid == q.pod.uid && !t.act.Meddle? {
      assert ActOn(View(m, t.act.p), t.act).fx == [];
    }
  }

  // ---- the passes ----

  /** What others guarantee to pod `q` during a run: its UID stays under its name and is not used again. */
  predicate NameKept(q: PodRef, m: Maps, turns: seq<Turn>) {
    forall n :: 0 <= n < |turns| ==>
      if turns[n].act.p.pod.uid == q.pod.uid then turns[n].act.p.key == q.key
      else NeverCreates(q.pod.uid, Performed(End(m, turns[..n]), turns[n]))
  }

  lemma FitsWithoutSuppression(q: PodRef, w: Watch, turns: seq<Turn>)
    requires NameKept(q, w.m, turns) && forall a :: a in Visits(turns) ==> !a.SuppressOf?
    ensures FitsRun(q, w, turns)
  {
    forall n | 0 <= n < |turns|
      ensures Fits(q, Watched(q, w, turns[..n]), turns[n])
    {
      WatchedMaps(q, w, turns[..n]);
      if !turns[n].act.Meddle? {
        VisitAt(turns, n);
        assert turns[n].act in Visits(turns);
      }
    }
  }

  /** A sweep in which the pod is found eligible leaves its cached marker as recent as it was. */
  lemma SweepKeepsRecent(q: PodRef, w: Watch, turns: seq<Turn>, p: PodRef)
    requires DistinctVisits(Visits(turns)) && p in EligibleIn(w.m, turns) && p.pod.uid == q.pod.uid
    ensures w.h.recent <= Watched(q, w, turns).h.recent
  {
    var found := EligibleWasFound(w.m, turns, p);
    forall n | 0 <= n < |turns|
      ensures Patchless(SeenBy(q, End(w.m, turns[..n]), turns[n]))
    {
      if turns[n].act.p.pod.uid == q.pod.uid && !turns[n].act.Meddle? && n != found {
        OnlyVisit(turns, if n < found then n else found, if n < found then found else n);
      }
      PatchlessTurn(q, End(w.m, turns[..n]), turns[n]);
    }
    RunKeepsRecent(q, w, turns);
  }

  /** So the suppressions are shown nothing older than the pass was. */
  lemma SuppressionsFit(q: PodRef, w: Watch, turns: seq<Turn>)
    requires NameKept(q, w.m, turns) && DistinctVisits(Visits(turns))
    requires forall a :: a in Visits(turns) && a.p.pod.uid == q.pod.uid ==> a.p.pod.cached in w.h.recent
    ensures FitsRun(q, w, turns)
  {
    forall n | 0 <= n < |turns|
      ensures Fits(q, Watched(q, w, turns[..n]), turns[n])
    {
      WatchedMaps(q, w, turns[..n]);
      var t := turns[n];
      if t.act.p.pod.uid == q.pod.uid && t.act.SuppressOf? {
        VisitAt(turns, n);
        assert t.act in Visits(turns);
        forall k | 0 <= k < n
          ensures Patchless(SeenBy(q, End(w.m, turns[..n][..k]), turns[..n][k]))
        {
          assert turns[..n][..k] == turns[..k];
          if !turns[k].act.Meddle? {
            OnlyVisit(turns, k, n);
          }
          PatchlessTurn(q, End(w.m, turns[..k]), turns[k]);
        }
        RunKeepsRecent(q, w, turns[..n]);
      }
    }
  }

  lemma ListVisits(all: seq<PodRef>, hot: bool, candidates: set<Uid>, script: Uid -> Script)
    requires DistinctUids(all)
    ensures DistinctVisits(Sweeps(all, hot, candidates, script)) && DistinctVisits(Suppressions(all, script))
    ensures forall a :: a in Sweeps(all, hot, candidates, script) + Recoveries(all, script) + Restores(all, script) ==>
              !a.SuppressOf?
  {
  }

  lemma {:induction false} EligibleDistinct(m: Maps, turns: seq<Turn>)
    requires DistinctVisits(Visits(turns))
    ensures DistinctUids(EligibleIn(m, turns))
    decreases |turns|
  {
    if turns != [] {
      var init, last := turns[..|turns| - 1], turns[|turns| - 1];
      assert Visits(init) == Visits(turns)[..|Visits(init)|];
      assert forall k :: 0 <= k < |Visits(init)| ==> Visits(init)[k] == Visits(turns)[k];
      EligibleDistinct(m, init);
      var before := EligibleIn(m, init);
      if FindsEligible(End(m, init), last.act) {
        forall k | 0 <= k < |before|
          ensures before[k].pod.uid != last.act.p.pod.uid
        {
          var n := EligibleWasFound(m, init, before[k]);
          OnlyVisit(turns, n, |init|);
        }
      }
    }
  }

  /** The pods found eligible are pods of the list, each once. */
  lemma EligibleAreChosen(m: Maps, turns: seq<Turn>, all: seq<PodRef>, hot: bool, candidates: set<Uid>,
                          script: Uid -> Script)
    requires Visits(turns) == Sweeps(all, hot, candidates, script) && DistinctUids(all)
    ensures Chosen(EligibleIn(m, turns), all)
  {
    ListVisits(all, hot, candidates, script);
    EligibleDistinct(m, turns);
    forall p | p in EligibleIn(m, turns)
      ensures p in all
    {
      var n := EligibleWasFound(m, turns, p);
      VisitAt(turns, n);
    }
  }

  /** The list shows pod `q` under its name, with a marker it has carried since the guard last cleared it. */
  predicate FreshFor(q: PodRef, all: seq<PodRef>, h: History) {
    forall i :: 0 <= i < |all| && all[i].pod.uid == q.pod.uid ==> all[i].pod.cached in h.recent
  }

  /** What others guarantee during each loop of a pass. */
  predicate PassKeepsName(q: PodRef, m: Maps, pass: Pass) {
    && NameKept(q, m, pass.first) && NameKept(q, End(m, pass.first), pass.second)
    && NameKept(q, End(m, pass.first + pass.second), pass.third)
  }

  /** A pass of converge over a list that is fresh for the pod. */
  predicate ConvergeFits(q: PodRef, w: Watch, pass: Pass, hot: bool, all: seq<PodRef>, candidates: set<Uid>,
                         script: Uid -> Script)
  {
    && DistinctUids(all) && FreshFor(q, all, w.h)
    && ConvergeVisits(w.m, pass, hot, all, candidates, script) && PassKeepsName(q, w.m, pass)
  }

  /** A pass of Recover over any list. */
  predicate RecoverFits(q: PodRef, w: Watch, pass: Pass, all: seq<PodRef>, script: Uid -> Script) {
    RecoverVisits(w.m, pass, all, script) && PassKeepsName(q, w.m, pass)
  }

  /** Both can be met: a node without pods is passed over without a visit. */
  lemma EmptyPassFits(q: PodRef, w: Watch, hot: bool, script: Uid -> Script)
    requires w.m.owned == map[]
    ensures ConvergeFits(q, w, Pass([], [], [], []), hot, [], {}, script)
    ensures RecoverFits(q, w, Pass([], [], [], []), [], script)
  {
    assert End(w.m, []) == w.m && EligibleIn(w.m, []) == [] && Uids([]) == {};
    var none: seq<Turn> := [];
    assert none + none == none;
  }

  lemma SuppressLoopIsSafe(q: PodRef, w: Watch, pass: Pass, hot: bool, all: seq<PodRef>, candidates: set<Uid>,
                           script: Uid -> Script)
    requires ConvergeFits(q, w, pass, hot, all, candidates, script) && Holds(q, Watched(q, w, pass.first))
    ensures SafeRun(q, Watched(q, w, pass.first), pass.second)
  {
    var w1, eligible := Watched(q, w, pass.first), EligibleIn(w.m, pass.first);
    WatchedMaps(q, w, pass.first);
    EligibleAreChosen(w.m, pass.first, all, hot, candidates, script);
    ListVisits(all, hot, candidates, script);
    ListVisits(eligible, hot, candidates, script);
    forall a | a in Visits(pass.second) && a.p.pod.uid == q.pod.uid
      ensures a.p.pod.cached in w1.h.recent
    {
      assert a.p in eligible;
      SweepKeepsRecent(q, w, pass.first, a.p);
      assert a.p in all;
    }
    SuppressionsFit(q, w1, pass.second);
    FitsIsSafe(q, w1, pass.second);
  }

  /** Main result for converge: a pass over any list, with any failures, and with others acting before and within every
      visit, keeps every pod's invariant and is safe at every cut, listed or not. */
  lemma ConvergeIsSafe(q: PodRef, w: Watch, pass: Pass, hot: bool, all: seq<PodRef>, candidates: set<Uid>,
                       script: Uid -> Script)
    requires Holds(q, w) && ConvergeFits(q, w, pass, hot, all, candidates, script)
    ensures SafeRun(q, w, TurnsOf(pass))
  {
    ListVisits(all, hot, candidates, script);
    FitsWithoutSuppression(q, w, pass.first);
    FitsIsSafe(q, w, pass.first);
    SuppressLoopIsSafe(q, w, pass, hot, all, candidates, script);
    SafeRunsJoin(q, w, pass.first, pass.second);
    RestoreLoopIsSafe(q, w, pass, script);
    SafeRunsJoin(q, w, pass.first + pass.second, pass.third);
  }

  lemma RestoreLoopIsSafe(q: PodRef, w: Watch, pass: Pass, script: Uid -> Script)
    requires SafeRun(q, w, pass.first + pass.second) && PassKeepsName(q, w.m, pass)
    requires Visits(pass.third) == Restores(pass.gone, script)
    ensures SafeRun(q, Watched(q, w, pass.first + pass.second), pass.third)
  {
    var w2 := Watched(q, w, pass.first + pass.second);
    WatchedMaps(q, w, pass.first + pass.second);
    FitsWithoutSuppression(q, w2, pass.third);
    FitsIsSafe(q, w2, pass.third);
  }

  /** Main result for Recover: likewise, and its list may be as old as it likes. */
  lemma RecoverIsSafe(q: PodRef, w: Watch, pass: Pass, all: seq<PodRef>, script: Uid -> Script)
    requires Holds(q, w) && RecoverFits(q, w, pass, all, script)
    ensures SafeRun(q, w, TurnsOf(pass))
  {
    assert pass.first + pass.second == pass.first;
    FitsWithoutSuppression(q, w, pass.first);
    FitsIsSafe(q, w, pass.first);
    RestoreLoopIsSafe(q, w, pass, script);
    SafeRunsJoin(q, w, pass.first + pass.second, pass.third);
  }

  // ---- everything a node goes through ----

  /** A pass, completed; or any turns on the way: edits by others, or a visit during which the process dies. */
  datatype Stage =
    | ConvergePass(pass: Pass, hot: bool, all: seq<PodRef>, candidates: set<Uid>, script: Uid -> Script)
    | RecoverPass(pass: Pass, all: seq<PodRef>, script: Uid -> Script)
    | Between(turns: seq<Turn>)

  function StageTurns(stage: Stage): seq<Turn> {
    match stage
    case ConvergePass(pass, _, _, _, _) => TurnsOf(pass)
    case RecoverPass(pass, _, _) => TurnsOf(pass)
    case Between(turns) => turns
  }

  predicate StageFits(q: PodRef, w: Watch, stage: Stage) {
    match stage
    case ConvergePass(pass, hot, all, candidates, script) => ConvergeFits(q, w, pass, hot, all, candidates, script)
    case RecoverPass(pass, all, script) => RecoverFits(q, w, pass, all, script)
    case Between(turns) => FitsRun(q, w, turns)
  }

  function AllTurns(stages: seq<Stage>): seq<Turn> {
    if stages == [] then [] else AllTurns(stages[..|stages| - 1]) + StageTurns(stages[|stages| - 1])
  }

  predicate LifeFits(q: PodRef, w: Watch, stages: seq<Stage>) {
    stages == [] ||
    (&& LifeFits(q, w, stages[..|stages| - 1])
     && StageFits(q, Watched(q, w, AllTurns(stages[..|stages| - 1])), stages[|stages| - 1]))
  }

  lemma StageIsSafe(q: PodRef, w: Watch, stage: Stage)
    requires Holds(q, w) && StageFits(q, w, stage)
    ensures SafeRun(q, w, StageTurns(stage))
  {
    match stage
    case ConvergePass(pass, hot, all, candidates, script) =>
      ConvergeIsSafe(q, w, pass, hot, all, candidates, script);
    case RecoverPass(pass, all, script) => RecoverIsSafe(q, w, pass, all, script);
    case Between(turns) => FitsIsSafe(q, w, turns);
  }

  /** Over any sequence of converge and Recover passes, edits by others, and deaths of the process, every pod keeps its
      invariant, and no durable state it goes through shows a guard freeze without its marker. */
  lemma {:induction false} NodesAreSafe(q: PodRef, w: Watch, stages: seq<Stage>)
    requires Holds(q, w) && LifeFits(q, w, stages)
    ensures SafeRun(q, w, AllTurns(stages))
    decreases |stages|
  {
    if stages == [] {
      FitsIsSafe(q, w, []);
    } else {
      var init, last := stages[..|stages| - 1], stages[|stages| - 1];
      NodesAreSafe(q, w, init);
      StageIsSafe(q, Watched(q, w, AllTurns(init)), last);
      SafeRunsJoin(q, w, AllTurns(init), StageTurns(last));
    }
  }
}
