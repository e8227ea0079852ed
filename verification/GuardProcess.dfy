/**
 The running guard and the methods that change the maps. Each method is proved equal, pod by pod, to the one-pod
 functions of `Ownership`.
 */
module GuardProcess {
  import opened Wrappers
  import opened Markers
  import opened Ownership
  import opened GuardMaps
  import opened NodeRuns

  /** Nobody else acts during the pass. */
  ghost predicate Calm(script: Uid -> Script, others: Interference) {
    (forall u :: Undisturbed(script(u))) && forall n :: others(n) == []
  }

  class Guard {
    var api: map<Key, ApiPod>
    var cgroups: map<Uid, Cgroup>
    var owned: map<Uid, OwnedPod>

    constructor (api: map<Key, ApiPod>, cgroups: map<Uid, Cgroup>)
      ensures State() == Maps(api, cgroups, map[]) && OwnCopies(State())
    {
      this.api, this.cgroups, this.owned := api, cgroups, map[];
    }

    function State(): Maps
      reads this
    {
      Maps(api, cgroups, owned)
    }

    /** Other actors take their turn on this pod. */
    method Interfere(p: PodRef, edits: seq<Edit>)
      modifies this`api, this`cgroups
      ensures State() == Put(old(State()), p,
                old(View(State(), p)).(d := Replay(p.pod.uid, old(View(State(), p)).d, Others(edits))))
    {
      ghost var start := View(State(), p).d;
      ghost var d := start;
      PutView(State(), p);
      var i := 0;
      while i < |edits|
        invariant 0 <= i <= |edits|
        invariant owned == old(owned) && View(State(), p).d == d
        invariant api == With(old(api), p.key, d.at) && cgroups == With(old(cgroups), p.pod.uid, d.cg)
        invariant Replay(p.pod.uid, d, Others(edits[i..])) == Replay(p.pod.uid, start, Others(edits))
      {
        var next := Edited(p.pod.uid, View(State(), p).d, edits[i]);
        assert Others(edits[i..])[0] == Other(edits[i]) && Others(edits[i..])[1..] == Others(edits[i + 1..]);
        WithWith(old(api), p.key, d.at, next.at);
        WithWith(old(cgroups), p.pod.uid, d.cg, next.cg);
        api := With(api, p.key, next.at);
        cgroups := With(cgroups, p.pod.uid, next.cg);
        d := next;
        i := i + 1;
      }
    }

    /** patchMarker: GET, compare, PATCH. */
    method PatchMarker(p: PodRef, want: Want, s: ApiScript) returns (fx: seq<Effect>, err: Error)
      modifies this`api, this`cgroups
      ensures var o := Ownership.PatchMarker(p.pod.uid, old(View(State(), p)), want, s);
              State() == Put(old(State()), p, o.l) && fx == o.fx && err == o.err
    {
      PutView(State(), p);
      fx := [];
      if s.getFails { return [], Failed; }
      if p.key !in api || api[p.key].uid != p.pod.uid {
        return [], if want.SetTo? then CgroupGone else Ok;
      }
      var current := api[p.key];
      if want.SetTo? {
        if current.marker != Empty { return [], MarkerChanged; }
      } else {
        if current.marker == Empty { return [], Ok; }
        if !MayPatch(current.marker, want) { return [], MarkerChanged; }
      }
      PatchSends(p.pod.uid, View(State(), p), want, s);
      fx, err := SendPatch(p, current, want, s);
    }

    /** The second half: the PATCH, against whatever the object is by then. */
    method SendPatch(p: PodRef, current: ApiPod, want: Want, s: ApiScript) returns (fx: seq<Effect>, err: Error)
      requires current.uid == p.pod.uid
      modifies this`api, this`cgroups
      ensures var o := Sent(p.pod.uid, old(View(State(), p)), current.version, want, s);
              State() == Put(old(State()), p, o.l) && fx == o.fx && err == o.err
    {
      Interfere(p, s.between);
      fx := Others(s.between);
      if s.patchFails { return fx, Failed; }
      var now := Get(api, p.key);
      if now.None? { return fx, if want.SetTo? then CgroupGone else Ok; }
      if now.value.uid != current.uid || (current.version != 0 && now.value.version != current.version) {
        return fx, Failed;
      }
      var value := if want.SetTo? then Encode(want.rec) else Empty;
      api := api[p.key := ApiPod(now.value.uid, now.value.version + 1, value)];
      return fx + [Patched(value)], Ok;
    }

    /** WriteKnob on the pod's cgroup. */
    method WriteKnob(p: PodRef, knob: string, value: string, s: Script) returns (fx: seq<Effect>, err: Error)
      modifies this`api, this`cgroups
      ensures var o := Ownership.WriteKnob(p.pod.uid, old(View(State(), p)), knob, value, s);
              State() == Put(old(State()), p, o.l) && fx == o.fx && err == o.err
    {
      Interfere(p, s.gap);
      fx := Others(s.gap);
      if s.writeFails { return fx, Failed; }
      if p.pod.uid !in cgroups { return fx, CgroupGone; }
      cgroups := cgroups[p.pod.uid := WithKnob(cgroups[p.pod.uid], knob, value)];
      return fx + [Wrote(knob, value)], Ok;
    }

    /** suppressPod: persist the marker, take ownership, then freeze. */
    method SuppressPod(p: PodRef, s: Script) returns (fx: seq<Effect>, err: Error)
      modifies this
      ensures var o := Ownership.SuppressPod(old(View(State(), p)), p.pod, s);
              State() == Put(old(State()), p, o.l) && fx == o.fx && err == o.err
    {
      PutView(State(), p);
      ghost var start := View(State(), p);
      if s.cancelled || s.noPath || s.readFails { return [], Failed; }
      if p.pod.uid !in cgroups { return [], CgroupGone; }
      var current := cgroups[p.pod.uid].freeze;
      var look := StateForPod(View(State(), p), p.pod);
      if look.Invalid? { return [], Failed; }
      fx := [];
      var rec := FREEZE_RECORD;
      if look.Unmarked? {
        if current != THAWED { return [], Ok; }
        ghost var mark := Ownership.PatchMarker(p.pod.uid, start, SetTo(rec), s.api);
        fx, err := PatchMarker(p, SetTo(rec), s.api);
        if err != Ok { return; }
        owned := owned[p.pod.uid := OwnedPod(p, Owned(rec, true, p.pod.quota))];
        assert State() == Put(old(State()), p, mark.l.(owned := Some(Owned(rec, true, p.pod.quota))));
      } else {
        rec := look.rec;
        if rec.knob != FREEZE || (current != rec.restore && current != rec.suppressed) { return [], Ok; }
      }
      if current == rec.suppressed { return fx, Ok; }
      if s.cancelledLate { return fx, Failed; }
      ghost var marked := View(State(), p);
      assert State() == Put(old(State()), p, marked);
      var more;
      more, err := WriteKnob(p, rec.knob, rec.suppressed, s);
      PutPut(old(State()), p, marked, Ownership.WriteKnob(p.pod.uid, marked, rec.knob, rec.suppressed, s).l);
      fx := fx + more;
    }

    /** The end of restorePod: clear the marker, then drop ownership unless the clear can be retried. */
    method Release(p: PodRef, rec: Record, s: ApiScript) returns (fx: seq<Effect>, err: Error)
      modifies this
      ensures var o := Ownership.Release(p.pod.uid, old(View(State(), p)), rec, s);
              State() == Put(old(State()), p, o.l) && fx == o.fx && err == o.err
    {
      fx, err := PatchMarker(p, ClearRecord(rec), s);
      if err == Ok || err == MarkerChanged {
        owned := owned - {p.pod.uid};
      }
    }

    /** restorePod: undo the recorded transition if it is still in force, then release it. */
    method RestorePod(p: PodRef, rec: Record, s: Script) returns (fx: seq<Effect>, err: Error)
      modifies this
      ensures var o := Ownership.RestorePod(old(View(State(), p)), p.pod, rec, s);
              State() == Put(old(State()), p, o.l) && fx == o.fx && err == o.err
    {
      PutView(State(), p);
      if s.cancelled || !Valid(rec) || s.noPath || s.readFails { return [], Failed; }
      if p.pod.uid in cgroups && Knob(cgroups[p.pod.uid], rec.knob) == rec.suppressed {
        if rec.version == 1 && !MayRestoreUnbounded(View(State(), p), p.pod, rec) { return [], Failed; }
        if s.cancelledLate { return [], Failed; }
        fx, err := UndoThenRelease(p, rec, s);
      } else {
        fx, err := Release(p, rec, s.api);
      }
    }

    /** The writing half of restorePod. */
    method UndoThenRelease(p: PodRef, rec: Record, s: Script) returns (fx: seq<Effect>, err: Error)
      modifies this
      ensures var write := Ownership.WriteKnob(p.pod.uid, old(View(State(), p)), rec.knob, rec.restore, s);
              var o := if write.err != Ok then write
                       else Then(write, Ownership.Release(p.pod.uid, write.l, rec, s.api));
              State() == Put(old(State()), p, o.l) && fx == o.fx && err == o.err
    {
      fx, err := WriteKnob(p, rec.knob, rec.restore, s);
      if err != Ok { return; }
      ghost var undone := View(State(), p);
      assert State() == Put(old(State()), p, undone);
      var more;
      more, err := Release(p, rec, s.api);
      PutPut(old(State()), p, undone, Ownership.Release(p.pod.uid, undone, rec, s.api).l);
      fx := fx + more;
    }

    /** The body of converge's first loop: clear an invalid marker, restore what must not stay. */
    method SweepPod(p: PodRef, hot: bool, candidate: bool, s: Script)
      returns (fx: seq<Effect>, err: Error, eligible: bool)
      modifies this
      ensures var o := Sweep(old(View(State(), p)), p.pod, hot, candidate, s);
              State() == Put(old(State()), p, o.l) && fx == o.fx && err == o.err
      ensures eligible == Eligible(old(View(State(), p)), p.pod, hot, candidate, s)
    {
      PutView(State(), p);
      eligible := false;
      var look := StateForPod(View(State(), p), p.pod);
      if look.Invalid? {
        fx, err := PatchMarker(p, ClearRaw(p.pod.cached), s.api);
        return;
      }
      fx, err := [], Ok;
      if hot && candidate && (look.Unmarked? || look.rec.knob == FREEZE) {
        eligible := FreezeAllows(View(State(), p), look, s);
        if ProbeError(View(State(), p), look, s) {
          err := Failed;
        }
      }
      if look.Marked? && !eligible {
        fx, err := RestorePod(p, look.rec, s);
      }
    }

    /** Other actors act, before the n-th visit of a pass. */
    method MeddleAll(n: nat, others: Interference, ghost m0: Maps, ghost turns: seq<Turn>)
      returns (ghost turns': seq<Turn>)
      requires State() == End(m0, turns) && Among(turns, others)
      modifies this`api, this`cgroups
      ensures State() == End(m0, turns') && Among(turns', others)
      ensures Visits(turns') == Visits(turns) && EligibleIn(m0, turns') == EligibleIn(m0, turns)
      ensures others(n) == [] ==> State() == old(State())
    {
      turns' := turns;
      var edits := others(n);
      for i := 0 to |edits|
        invariant State() == End(m0, turns') && Among(turns', others)
        invariant Visits(turns') == Visits(turns) && EligibleIn(m0, turns') == EligibleIn(m0, turns)
        invariant i == 0 ==> State() == old(State())
      {
        var p, edit := edits[i].p, edits[i].edit;
        assert Meddling(p, edit) in others(n);
        TurnTaken(m0, turns', Meddle(p, edit), others);
        OneEdit(p.pod.uid, View(State(), p).d, edit);
        Interfere(p, [edit]);
        turns' := turns' + [Turn(Meddle(p, edit), None)];
      }
    }

    /** A visit of converge's first loop, after whatever others do first. `met` is what it finds. */
    method SweepTurn(n: nat, p: PodRef, hot: bool, candidate: bool, s: Script, others: Interference,
                     ghost m0: Maps, ghost turns: seq<Turn>)
      returns (fx: seq<Effect>, err: Error, eligible: bool, ghost met: Maps, ghost turns': seq<Turn>)
      requires OwnCopies(State()) && State() == End(m0, turns) && Among(turns, others)
      modifies this
      ensures OwnCopies(State()) && State() == End(m0, turns') && Among(turns', others)
      ensures Visits(turns') == Visits(turns) + [SweepOf(p, hot, candidate, s)]
      ensures EligibleIn(m0, turns') == EligibleIn(m0, turns) + (if eligible then [p] else [])
      ensures var o := Sweep(View(met, p), p.pod, hot, candidate, s);
              State() == Put(met, p, o.l) && fx == o.fx && err == o.err
      ensures eligible == Eligible(View(met, p), p.pod, hot, candidate, s)
      ensures others(n) == [] ==> met == old(State())
    {
      turns' := MeddleAll(n, others, m0, turns);
      met := State();
      TurnTaken(m0, turns', SweepOf(p, hot, candidate, s), others);
      SweepOwnsCopy(View(met, p), p.pod, hot, candidate, s);
      PutOwnsCopy(met, p, Sweep(View(met, p), p.pod, hot, candidate, s).l);
      fx, err, eligible := SweepPod(p, hot, candidate, s);
      turns' := turns' + [Turn(SweepOf(p, hot, candidate, s), None)];
    }

    /** converge's first loop. */
    method SweepAll(hot: bool, all: seq<PodRef>, candidates: set<Uid>, script: Uid -> Script, others: Interference)
      returns (r: Report, eligible: seq<PodRef>, ghost turns: seq<Turn>)
      requires DistinctUids(all) && OwnCopies(State())
      modifies this
      ensures OwnCopies(State()) && State() == End(old(State()), turns) && Among(turns, others)
      ensures Visits(turns) == Sweeps(all, hot, candidates, script) && eligible == EligibleIn(old(State()), turns)
      ensures Chosen(eligible, all)
      ensures Calm(script, others) ==>
                && AllSwept(old(State()), State(), r, all, hot, candidates, script)
                && KeptOutside(old(State()), Report(map[], {}), State(), r, Uids(all))
                && RightlyChosen(old(State()), eligible, all, hot, candidates, script)
    {
      ghost var m0, r0, calm := State(), Report(map[], {}), Calm(script, others);
      ghost var done: seq<PodRef> := [];
      r, eligible, turns := Report(map[], {}), [], [];
      for i := 0 to |all|
        invariant done == all[..i] && OwnCopies(State()) && State() == End(m0, turns) && Among(turns, others)
        invariant Visits(turns) == Sweeps(done, hot, candidates, script)
        invariant eligible == EligibleIn(m0, turns) && Chosen(eligible, done)
        invariant calm ==> AllSwept(m0, State(), r, done, hot, candidates, script)
        invariant calm ==> KeptOutside(m0, r0, State(), r, Uids(done))
        invariant calm ==> RightlyChosen(m0, eligible, done, hot, candidates, script)
      {
        var p := all[i];
        var fx, err, ok;
        ghost var met;
        PrefixGrows(all, i);
        ChosenGrows(eligible, done, p);
        if calm {
          assert others(i) == [];
          SweepReaches(m0, r0, State(), r, done, p, hot, candidates, script);
          RightlyChosenGrows(m0, eligible, done, p, hot, candidates, script);
        }
        fx, err, ok, met, turns :=
          SweepTurn(i, p, hot, p.pod.uid in candidates, script(p.pod.uid), others, m0, turns);
        SweepsGrow(done, p, hot, candidates, script);
        done := done + [p];
        r := Noted(r, p.pod.uid, fx, err);
        if ok {
          eligible := eligible + [p];
        }
      }
      assert done == all;
    }

    /** A visit of the second loop. */
    method SuppressTurn(n: nat, p: PodRef, s: Script, others: Interference, ghost m0: Maps, ghost turns: seq<Turn>)
      returns (fx: seq<Effect>, err: Error, ghost met: Maps, ghost turns': seq<Turn>)
      requires OwnCopies(State()) && State() == End(m0, turns) && Among(turns, others)
      modifies this
      ensures OwnCopies(State()) && State() == End(m0, turns') && Among(turns', others)
      ensures Visits(turns') == Visits(turns) + [SuppressOf(p, s)]
      ensures var o := Ownership.SuppressPod(View(met, p), p.pod, s);
              State() == Put(met, p, o.l) && fx == o.fx && err == o.err
      ensures others(n) == [] ==> met == old(State())
    {
      turns' := MeddleAll(n, others, m0, turns);
      met := State();
      TurnTaken(m0, turns', SuppressOf(p, s), others);
      SuppressOwnsCopy(View(met, p), p.pod, s);
      PutOwnsCopy(met, p, Ownership.SuppressPod(View(met, p), p.pod, s).l);
      fx, err := SuppressPod(p, s);
      turns' := turns' + [Turn(SuppressOf(p, s), None)];
    }

    /** converge's second loop, from the n-th visit of the pass on. */
    method SuppressAll(n: nat, r0: Report, eligible: seq<PodRef>, script: Uid -> Script, others: Interference)
      returns (r: Report, ghost turns: seq<Turn>)
      requires DistinctUids(eligible) && OwnCopies(State())
      modifies this
      ensures OwnCopies(State()) && State() == End(old(State()), turns) && Among(turns, others)
      ensures Visits(turns) == Suppressions(eligible, script)
      ensures Calm(script, others) ==>
                && AllSuppressed(old(State()), State(), r, eligible, script)
                && KeptOutside(old(State()), r0, State(), r, Uids(eligible))
    {
      ghost var m0, calm := State(), Calm(script, others);
      ghost var done: seq<PodRef> := [];
      r, turns := r0, [];
      for i := 0 to |eligible|
        invariant done == eligible[..i] && OwnCopies(State()) && State() == End(m0, turns) && Among(turns, others)
        invariant Visits(turns) == Suppressions(done, script)
        invariant calm ==> AllSuppressed(m0, State(), r, done, script)
        invariant calm ==> KeptOutside(m0, r0, State(), r, Uids(done))
      {
        var p := eligible[i];
        var fx, err;
        ghost var met;
        PrefixGrows(eligible, i);
        if calm {
          assert others(n + i) == [];
          SuppressReaches(m0, r0, State(), r, done, p, script);
        }
        fx, err, met, turns := SuppressTurn(n + i, p, script(p.pod.uid), others, m0, turns);
        SuppressionsGrow(done, p, script);
        done := done + [p];
        r := Noted(r, p.pod.uid, fx, err);
      }
      assert done == eligible;
    }

    /** A visit of the last loop: restore an owned pod from the copy kept with its entry. */
    method RestoreTurn(n: nat, u: Uid, s: Script, others: Interference, ghost m0: Maps, ghost turns: seq<Turn>)
      returns (fx: seq<Effect>, err: Error, ghost met: Maps, ghost turns': seq<Turn>)
      requires OwnCopies(State()) && u in owned && State() == End(m0, turns) && Among(turns, others)
      modifies this
      ensures OwnCopies(State()) && State() == End(m0, turns') && Among(turns', others)
      ensures Visits(turns') == Visits(turns) + [RestoreOf(old(owned)[u].podRef, s)]
      ensures met.owned == old(owned) && owned - {u} == old(owned) - {u}
      ensures var p := met.owned[u].podRef;
              var o := Ownership.RestorePod(View(met, p), p.pod, met.owned[u].entry.rec, s);
              State() == Put(met, p, o.l) && fx == o.fx && err == o.err
      ensures others(n) == [] ==> met == old(State())
    {
      turns' := MeddleAll(n, others, m0, turns);
      met := State();
      var entry := owned[u];
      ghost var p := entry.podRef;
      TurnTaken(m0, turns', RestoreOf(p, s), others);
      RestoreOwnsCopy(View(met, p), p.pod, entry.entry.rec, s);
      ghost var o := Ownership.RestorePod(View(met, p), p.pod, entry.entry.rec, s);
      assert ActOn(View(met, p), RestoreOf(p, s)) == o;
      PutOwnsCopy(met, p, o.l);
      PutLeavesEntries(met, p, o.l);
      fx, err := RestorePod(entry.podRef, entry.entry.rec, s);
      turns' := turns' + [Turn(RestoreOf(p, s), None)];
    }

    /** The last loop of converge and of Recover, over a map in no particular order. */
    method RestoreVanished(n: nat, r0: Report, seen: set<Uid>, script: Uid -> Script, others: Interference)
      returns (r: Report, ghost turns: seq<Turn>, ghost gone: seq<PodRef>)
      requires OwnCopies(State())
      modifies this
      ensures OwnCopies(State()) && State() == End(old(State()), turns) && Among(turns, others)
      ensures Visits(turns) == Restores(gone, script) && GoneFrom(old(State()), gone, seen)
      ensures Calm(script, others) ==>
                && AllCopiesReached(old(State()), State(), r, gone, script)
                && KeptOutside(old(State()), r0, State(), r, old(owned).Keys - seen)
    {
      ghost var m0, calm := State(), Calm(script, others);
      ghost var visited: set<Uid> := {};
      r, turns, gone := r0, [], [];
      var rest, visits := owned.Keys - seen, n;
      while rest != {}
        invariant OwnCopies(State()) && State() == End(m0, turns) && Among(turns, others)
        invariant Visits(turns) == Restores(gone, script) && AreCopies(m0, gone) && DistinctUids(gone)
        invariant visited == Uids(gone) && visited !! rest && visited + rest == m0.owned.Keys - seen
        invariant forall u :: u in rest ==> Get(owned, u) == Some(m0.owned[u])
        invariant calm ==> AllCopiesReached(m0, State(), r, gone, script)
        invariant calm ==> KeptOutside(m0, r0, State(), r, visited)
        decreases rest
      {
        var u :| u in rest;
        var fx, err;
        ghost var p, met := m0.owned[u].podRef, m0;
        if calm {
          assert others(visits) == [];
          CopyReaches(m0, r0, State(), r, gone, u, script);
        }
        ghost var before := owned;
        fx, err, met, turns := RestoreTurn(visits, u, script(u), others, m0, turns);
        StillOwned(before, owned, u, rest);
        r := Noted(r, u, fx, err);
        CopiesGrow(m0, gone, u);
        UidsJoin(gone, p);
        DistinctMore(gone, p);
        RestoresGrow(gone, p, script);
        gone, visited := gone + [p], visited + {u};
        rest, visits := rest - {u}, visits + 1;
      }
      assert visited == m0.owned.Keys - seen;
    }

    /** converge: restore what is no longer desired, freeze the eligible, then restore owned pods that have left the
        list. Whatever other actors do before each visit and in its middle, the pass is these visits, each exactly the
        one-pod function on what it meets. If nobody interferes, every pod comes out exactly as its own one-pod
        convergence, whatever the other pods, their order and their failures are. */
    method Converge(hot: bool, all: seq<PodRef>, candidates: set<Uid>, script: Uid -> Script, others: Interference)
      returns (r: Report, ghost pass: Pass)
      requires DistinctUids(all) && OwnCopies(State())
      modifies this
      ensures OwnCopies(State()) && State() == End(old(State()), TurnsOf(pass)) && Among(TurnsOf(pass), others)
      ensures ConvergeVisits(old(State()), pass, hot, all, candidates, script)
      ensures Calm(script, others) ==> ListConverged(old(State()), State(), r, hot, all, candidates, script)
    {
      ghost var m0, r0, calm := State(), Report(map[], {}), Calm(script, others);
      var eligible;
      ghost var first, second, third, gone;
      r, eligible, first := SweepAll(hot, all, candidates, script, others);
      ghost var m1, r1 := State(), r;
      second := [];
      if hot {
        r, second := SuppressAll(|all|, r, eligible, script, others);
      }
      ghost var m2, r2 := State(), r;
      RunsJoin(m0, first, second);
      r, third, gone := RestoreVanished(|all| + |eligible|, r, Uids(all), script, others);
      RunsJoin(m0, first + second, third);
      pass := Pass(first, second, third, gone);
      if calm {
        CopiesReached(m2, State(), r, gone, script);
        LoopsConverge(m0, m1, r1, m2, r2, State(), r, eligible, hot, all, candidates, script);
      }
    }

    /** Recover: restore every marked pod on the list, then every owned pod that left it. */
    method Recover(all: seq<PodRef>, script: Uid -> Script, others: Interference) returns (r: Report, ghost pass: Pass)
      requires DistinctUids(all) && OwnCopies(State())
      modifies this
      ensures OwnCopies(State()) && State() == End(old(State()), TurnsOf(pass)) && Among(TurnsOf(pass), others)
      ensures RecoverVisits(old(State()), pass, all, script)
      ensures Calm(script, others) ==> ListRecovered(old(State()), State(), r, all, script)
    {
      ghost var m0, calm := State(), Calm(script, others);
      ghost var first, third, gone;
      r, first := RecoverAll(all, script, others);
      ghost var m1, r1 := State(), r;
      r, third, gone := RestoreVanished(|all|, r, Uids(all), script, others);
      RunsJoin(m0, first, third);
      pass := Pass(first, [], third, gone);
      assert first + [] == first;
      if calm {
        CopiesReached(m1, State(), r, gone, script);
        LoopsRecover(m0, m1, r1, State(), r, all, script);
      }
    }

    /** A visit of Recover's first loop. */
    method RecoverTurn(n: nat, p: PodRef, s: Script, others: Interference, ghost m0: Maps, ghost turns: seq<Turn>)
      returns (fx: seq<Effect>, err: Error, ghost met: Maps, ghost turns': seq<Turn>)
      requires OwnCopies(State()) && State() == End(m0, turns) && Among(turns, others)
      modifies this
      ensures OwnCopies(State()) && State() == End(m0, turns') && Among(turns', others)
      ensures Visits(turns') == Visits(turns) + [RecoverOf(p, s)]
      ensures var o := Ownership.RecoverPod(View(met, p), p.pod, s);
              State() == Put(met, p, o.l) && fx == o.fx && err == o.err
      ensures others(n) == [] ==> met == old(State())
    {
      turns' := MeddleAll(n, others, m0, turns);
      met := State();
      TurnTaken(m0, turns', RecoverOf(p, s), others);
      SweepOwnsCopy(View(met, p), p.pod, true, true, s);
      PutOwnsCopy(met, p, Ownership.RecoverPod(View(met, p), p.pod, s).l);
      fx, err := RecoverPod(p, s);
      turns' := turns' + [Turn(RecoverOf(p, s), None)];
    }

    /** Recover's first loop. */
    method RecoverAll(all: seq<PodRef>, script: Uid -> Script, others: Interference)
      returns (r: Report, ghost turns: seq<Turn>)
      requires DistinctUids(all) && OwnCopies(State())
      modifies this
      ensures OwnCopies(State()) && State() == End(old(State()), turns) && Among(turns, others)
      ensures Visits(turns) == Recoveries(all, script)
      ensures Calm(script, others) ==>
                && AllRecovered(old(State()), State(), r, all, script)
                && KeptOutside(old(State()), Report(map[], {}), State(), r, Uids(all))
    {
      ghost var m0, r0, calm := State(), Report(map[], {}), Calm(script, others);
      ghost var done: seq<PodRef> := [];
      r, turns := Report(map[], {}), [];
      for i := 0 to |all|
        invariant done == all[..i] && OwnCopies(State()) && State() == End(m0, turns) && Among(turns, others)
        invariant Visits(turns) == Recoveries(done, script)
        invariant calm ==> AllRecovered(m0, State(), r, done, script)
        invariant calm ==> KeptOutside(m0, r0, State(), r, Uids(done))
      {
        var p := all[i];
        var fx, err;
        ghost var met;
        PrefixGrows(all, i);
        if calm {
          assert others(i) == [];
          RecoverReaches(m0, r0, State(), r, done, p, script);
        }
        fx, err, met, turns := RecoverTurn(i, p, script(p.pod.uid), others, m0, turns);
        RecoveriesGrow(done, p, script);
        done := done + [p];
        r := Noted(r, p.pod.uid, fx, err);
      }
      assert done == all;
    }

    /** The body of that loop: clear an invalid marker, restore a marked pod. */
    method RecoverPod(p: PodRef, s: Script) returns (fx: seq<Effect>, err: Error)
      modifies this
      ensures var o := Ownership.RecoverPod(old(View(State(), p)), p.pod, s);
              State() == Put(old(State()), p, o.l) && fx == o.fx && err == o.err
    {
      PutView(State(), p);
      fx, err := [], Ok;
      var look := StateForPod(View(State(), p), p.pod);
      if look.Invalid? {
        fx, err := PatchMarker(p, ClearRaw(p.pod.cached), s.api);
      } else if look.Marked? {
        fx, err := RestorePod(p, look.rec, s);
      }
    }
  }
}
