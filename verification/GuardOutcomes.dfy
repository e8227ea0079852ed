/** What passes over the whole list leave behind, read off the maps, and how they project onto the one-pod runs. */
module GuardOutcomes {
  import opened Wrappers
  import opened Markers
  import opened Ownership
  import opened OwnershipRuns
  import opened OwnershipOutcomes
  import opened GuardMaps

  // ---- one quiet pass ----

  /** Any listed pod after a quiet convergence of the whole list: a hot claimable candidate is frozen, and marked
      unless its object is gone; any other marked pod is let go; any other pod is as it was. No pod had more than
      one knob written. */
  lemma QuietConvergeSettles(m0: Maps, m: Maps, r: Report, p: PodRef, hot: bool,
                             candidates: set<Uid>, script: Uid -> Script)
    requires Reached(m, r, p, ListedOutcome(m0, p, hot, candidates, script))
    requires Quiet(script(p.pod.uid)) && Agrees(View(m0, p), p.pod)
    ensures var uid, before, after := p.pod.uid, View(m0, p), View(m, p);
            var marked := StateForPod(before, p.pod).Marked?;
            if hot && uid in candidates && Claimable(before, p.pod) then
              if Mine(uid, before.d) then Frozen(uid, after) && uid !in r.failed
              else if marked then
                && uid !in r.failed && after.owned == before.owned && !Mine(uid, after.d)
                && after.d.cg == Some(before.d.cg.value.(freeze := FROZEN))
              else Same(uid, before, after) && r.fx[uid] == [] && uid in r.failed
            else if marked then LetGo(uid, before, after) && uid !in r.failed
            else Same(uid, before, after) && r.fx[uid] == []
    ensures |Writes(r.fx[p.pod.uid])| <= 1
  {
    var s, candidate := script(p.pod.uid), p.pod.uid in candidates;
    QuietPassSettles(View(m0, p), p.pod, hot, candidate, s);
    PassWrites(View(m0, p), p.pod, hot, candidate, s);
  }

  /** Every owned pod that left the list holds the freeze record, and its object, if any, agrees. */
  predicate VanishedAgree(m0: Maps, all: seq<PodRef>) {
    forall u :: u in m0.owned && u !in Uids(all) ==>
      && m0.owned[u].entry.rec == FREEZE_RECORD
      && (Mine(u, View(m0, m0.owned[u].podRef).d) ==> MarksFreeze(View(m0, m0.owned[u].podRef).d.at.value.marker))
  }

  /** When the node is cool nothing stays marked, frozen by the guard or owned, on the list or off it: the ownership
      map is empty, no pod failed, every marked or owned pod was let go, every other pod is as it was. */
  lemma CoolConvergeReleasesAll(m0: Maps, m: Maps, r: Report, all: seq<PodRef>,
                                candidates: set<Uid>, script: Uid -> Script)
    requires ListConverged(m0, m, r, false, all, candidates, script) && OwnCopies(m0) && VanishedAgree(m0, all)
    requires forall u :: Quiet(script(u))
    requires forall i :: 0 <= i < |all| ==> Agrees(View(m0, all[i]), all[i].pod)
    ensures m.owned == map[] && r.failed == {}
    ensures forall i :: 0 <= i < |all| ==>
              if StateForPod(View(m0, all[i]), all[i].pod).Marked?
              then LetGo(all[i].pod.uid, View(m0, all[i]), View(m, all[i]))
              else Same(all[i].pod.uid, View(m0, all[i]), View(m, all[i]))
    ensures forall u :: u in m0.owned && u !in Uids(all) ==>
              LetGo(u, View(m0, m0.owned[u].podRef), View(m, m0.owned[u].podRef))
  {
    forall i | 0 <= i < |all|
      ensures all[i].pod.uid !in m.owned && all[i].pod.uid !in r.failed
      ensures if StateForPod(View(m0, all[i]), all[i].pod).Marked?
              then LetGo(all[i].pod.uid, View(m0, all[i]), View(m, all[i]))
              else Same(all[i].pod.uid, View(m0, all[i]), View(m, all[i]))
    {
      QuietConvergeSettles(m0, m, r, all[i], false, candidates, script);
    }
    forall u | u in m0.owned && u !in Uids(all)
      ensures u !in m.owned && u !in r.failed
      ensures LetGo(u, View(m0, m0.owned[u].podRef), View(m, m0.owned[u].podRef))
    {
      QuietVanishedSettles(View(m0, m0.owned[u].podRef), u, script(u));
    }
    forall u: Uid
      ensures u !in m.owned && u !in r.failed
    {
      NobodyLeft(m0, m, r, all, u);
    }
  }

  lemma NobodyLeft(m0: Maps, m: Maps, r: Report, all: seq<PodRef>, u: Uid)
    requires KeptOutside(m0, Report(map[], {}), m, r, Uids(all) + m0.owned.Keys)
    requires forall i :: 0 <= i < |all| ==> all[i].pod.uid !in m.owned && all[i].pod.uid !in r.failed
    requires forall v :: v in m0.owned && v !in Uids(all) ==> v !in m.owned && v !in r.failed
    ensures u !in m.owned && u !in r.failed
  {
    if u !in Uids(all) && u !in m0.owned {
      assert Kept(m0, Report(map[], {}), m, r, PodRef("", Pod(u, Empty, false)));
    }
  }

  // ---- passes as one-pod events ----

  /** The invariant does not look at a foreign object under the pod's name. */
  lemma InvSame(uid: Uid, a: Local, b: Local, h: History)
    requires Same(uid, a, b) && Inv(uid, a, h)
    ensures Inv(uid, b, h)
  {
  }

  /** If nobody interferes, a whole-list pass is, for each listed pod, one Converge event of its own run: the maps end
      where the event ends, the pod's invariant survives, and no cut through its effects is unsafe. */
  lemma PassIsEvent(m0: Maps, m: Maps, r: Report, p: PodRef, h: History, hot: bool,
                    candidates: set<Uid>, script: Uid -> Script)
    requires Reached(m, r, p, ListedOutcome(m0, p, hot, candidates, script))
    requires Inv(p.pod.uid, View(m0, p), h) && p.pod.cached in h.recent
    ensures var uid, w := p.pod.uid, World(View(m0, p).d, h);
            var ev := Converge(p.pod, hot, uid in candidates, script(uid), None);
            var next := Advance(uid, Run(View(m0, p), h), ev);
            && Same(uid, next.l, View(m, p)) && next.h == After(uid, w, r.fx[uid]).h
            && Inv(uid, View(m, p), next.h) && SafeCuts(uid, w, r.fx[uid])
  {
    var uid := p.pod.uid;
    var run := Run(View(m0, p), h);
    var ev := Converge(p.pod, hot, uid in candidates, script(uid), None);
    AdvanceKeeps(uid, run, ev);
    InvSame(uid, Advance(uid, run, ev).l, View(m, p), Advance(uid, run, ev).h);
  }

  /** Likewise for an owned pod that left the list. */
  lemma VanishedPassIsEvent(m0: Maps, m: Maps, r: Report, uid: Uid, h: History, script: Uid -> Script)
    requires uid in m0.owned && OwnCopies(m0)
    requires Reached(m, r, m0.owned[uid].podRef, VanishedOutcome(m0, uid, script))
    requires Inv(uid, View(m0, m0.owned[uid].podRef), h)
    ensures var p := m0.owned[uid].podRef;
            var w := World(View(m0, p).d, h);
            var next := Advance(uid, Run(View(m0, p), h), Vanished(script(uid), None));
            && Same(uid, next.l, View(m, p)) && next.h == After(uid, w, r.fx[uid]).h
            && Inv(uid, View(m, p), next.h) && SafeCuts(uid, w, r.fx[uid])
  {
    var p := m0.owned[uid].podRef;
    var run, ev := Run(View(m0, p), h), Vanished(script(uid), None);
    AdvanceKeeps(uid, run, ev);
    InvSame(uid, Advance(uid, run, ev).l, View(m, p), Advance(uid, run, ev).h);
  }

  /** Likewise for a listed pod and a pass of Recover. */
  lemma RecoverPassIsEvent(m0: Maps, m: Maps, r: Report, p: PodRef, h: History, script: Uid -> Script)
    requires Reached(m, r, p, RecoverOutcome(m0, p, script)) && Inv(p.pod.uid, View(m0, p), h)
    ensures var uid, w := p.pod.uid, World(View(m0, p).d, h);
            var next := Advance(uid, Run(View(m0, p), h), Recover(p.pod, script(uid), None));
            && Same(uid, next.l, View(m, p)) && next.h == After(uid, w, r.fx[uid]).h
            && Inv(uid, View(m, p), next.h) && SafeCuts(uid, w, r.fx[uid])
  {
    var uid, run, ev := p.pod.uid, Run(View(m0, p), h), Recover(p.pod, script(p.pod.uid), None);
    AdvanceKeeps(uid, run, ev);
    InvSame(uid, Advance(uid, run, ev).l, View(m, p), Advance(uid, run, ev).h);
  }

  // ---- recovery of a whole list ----

  /** Recovery is a cool convergence, for the whole list. */
  lemma RecoveringIsConverging(m0: Maps, m: Maps, r: Report, all: seq<PodRef>, script: Uid -> Script)
    ensures ListRecovered(m0, m, r, all, script) <==> ListConverged(m0, m, r, false, all, {}, script)
  {
    forall i | 0 <= i < |all|
      ensures RecoverOutcome(m0, all[i], script) == ListedOutcome(m0, all[i], false, {}, script)
    {
      RecoverIsCoolConverge(View(m0, all[i]), all[i].pod, false, script(all[i].pod.uid));
    }
  }

  /** The list shows every pod with the marker its object carries. */
  predicate FreshList(m: Maps, all: seq<PodRef>) {
    forall i :: 0 <= i < |all| ==> all[i].pod.cached == Listed(all[i].pod.uid, View(m, all[i]).d)
  }

  /** A restarted process's first failure-free recovery over a fresh list: every freeze-marked pod is let go without an
      error, and nothing is owned. */
  lemma QuietRecoverReleasesAll(m0: Maps, m: Maps, r: Report, all: seq<PodRef>, script: Uid -> Script)
    requires ListRecovered(m0, m, r, all, script) && m0.owned == map[] && FreshList(m0, all)
    requires forall u :: Quiet(script(u))
    ensures m.owned == map[]
    ensures forall i :: 0 <= i < |all| && MarksFreeze(all[i].pod.cached) ==>
              all[i].pod.uid !in r.failed && LetGo(all[i].pod.uid, View(m0, all[i]), View(m, all[i]))
  {
    forall i | 0 <= i < |all|
      ensures all[i].pod.uid !in m.owned
      ensures MarksFreeze(all[i].pod.cached) ==>
                all[i].pod.uid !in r.failed && LetGo(all[i].pod.uid, View(m0, all[i]), View(m, all[i]))
    {
      RecoverOwnsNothing(View(m0, all[i]), all[i].pod, script(all[i].pod.uid));
      if MarksFreeze(all[i].pod.cached) {
        RecoverLetsGo(View(m0, all[i]), all[i].pod, script(all[i].pod.uid));
      }
    }
    forall u: Uid
      ensures u !in m.owned
    {
      if u !in Uids(all) {
        assert Kept(m0, Report(map[], {}), m, r, PodRef("", Pod(u, Empty, false)));
      }
    }
  }

  lemma RecoverOwnsNothing(l: Local, pod: Pod, s: Script)
    requires l.owned.None?
    ensures RecoverPod(l, pod, s).l.owned.None?
  {
    match StateForPod(l, pod)
    case Invalid => PatchKeepsOwned(pod.uid, l, ClearRaw(pod.cached), s.api);
    case Unmarked =>
    case Marked(rec) =>
      PatchKeepsOwned(pod.uid, l, ClearRecord(rec), s.api);
      PatchKeepsOwned(pod.uid, WriteKnob(pod.uid, l, rec.knob, rec.restore, s).l, ClearRecord(rec), s.api);
  }

  /** The same pods again, each with the marker it showed before or the one it carries now. */
  predicate ListedAgain(m: Maps, all: seq<PodRef>, again: seq<PodRef>) {
    |again| == |all| && forall i :: 0 <= i < |all| ==>
      && again[i].key == all[i].key && again[i].pod.uid == all[i].pod.uid && again[i].pod.quota == all[i].pod.quota
      && (again[i].pod.cached == all[i].pod.cached || again[i].pod.cached == Listed(all[i].pod.uid, View(m, all[i]).d))
  }

  /** A second failure-free recovery does nothing to any pod, even over the stale list of the first. */
  lemma SecondRecoverIsSilent(m0: Maps, m1: Maps, r1: Report, m2: Maps, r2: Report, all: seq<PodRef>,
                              again: seq<PodRef>, script: Uid -> Script, script': Uid -> Script)
    requires m0.owned == map[] && FreshList(m0, all) && (forall u :: Quiet(script(u)) && Quiet(script'(u)))
    requires ListRecovered(m0, m1, r1, all, script) && ListedAgain(m1, all, again)
    requires ListRecovered(m1, m2, r2, again, script')
    ensures forall i :: 0 <= i < |again| ==> r2.fx[again[i].pod.uid] == []
    ensures m2.owned == map[]
  {
    QuietRecoverReleasesAll(m0, m1, r1, all, script);
    forall i | 0 <= i < |again|
      ensures r2.fx[again[i].pod.uid] == [] && again[i].pod.uid !in m2.owned
    {
      var uid, first := again[i].pod.uid, RecoverOutcome(m0, all[i], script);
      assert Quiet(script(uid)) && Quiet(script'(uid));
      SecondRecoveryIsSilent(View(m0, all[i]).d, all[i].pod, again[i].pod, script(uid), script'(uid));
      RecoverAlike(View(m1, again[i]), first.l, again[i].pod, script'(uid));
      RecoverOwnsNothing(View(m1, again[i]), again[i].pod, script'(uid));
    }
    forall u: Uid
      ensures u !in m2.owned
    {
      if u !in Uids(again) {
        assert Kept(m1, Report(map[], {}), m2, r2, PodRef("", Pod(u, Empty, false)));
      }
    }
  }
}
