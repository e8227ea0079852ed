/** What one pass achieves: marker compare-and-patch, settled pods, recovery, and which assumptions it takes. */
module OwnershipOutcomes {
  import opened Wrappers
  import opened Markers
  import opened CpuMax
  import opened Ownership
  import opened OwnershipRuns

  // ---- compare and patch ----

  predicate Landed(fx: seq<Effect>) {
    fx != [] && fx[|fx| - 1].Patched?
  }

  /** A patch lands exactly when nothing failed, the object under the name is still the pod's own, its
      marker is what the caller inspected, and no other writer touched the object between GET and
      PATCH. So a set never overwrites a marker and a clear removes nothing but the inspected one. */
  lemma PatchLandsExactly(uid: Uid, l: Local, want: Want, s: ApiScript)
    requires Mine(uid, l.d) ==> l.d.at.value.version >= 1
    ensures var o := PatchMarker(uid, l, want, s);
            Landed(o.fx) <==>
              && !s.getFails && !s.patchFails
              && Mine(uid, l.d) && MayPatch(l.d.at.value.marker, want)
              && (want.SetTo? || l.d.at.value.marker != Empty)
              && Replay(uid, l.d, Others(s.between)).at == l.d.at
    ensures var o := PatchMarker(uid, l, want, s);
            Landed(o.fx) ==>
              && o.err == Ok
              && o.fx == Others(s.between) + [Patched(Value(want))]
              && (match want
                  case SetTo(_) => l.d.at.value.marker == Empty
                  case ClearRecord(expected) => Decode(l.d.at.value.marker) == Some(expected)
                  case ClearRaw(bytes) => l.d.at.value.marker == bytes)
              && o.l.d.at == Some(ApiPod(uid, l.d.at.value.version + 1, Value(want)))
    ensures var o := PatchMarker(uid, l, want, s);
            !Landed(o.fx) ==> (o.fx == [] || o.fx == Others(s.between)) && o.l.d == Replay(uid, l.d, o.fx)
  {
    var w := World(l.d, History(false, false, {}));
    assert Safe(uid, w);
    OthersKeep(uid, w, s.between);
  }

  /** Without a resourceVersion the patch is no longer a compare: a marker written in between is lost. */
  lemma EmptyVersionLosesMarker(uid: Uid, theirs: Raw)
    requires theirs != Empty
    ensures var l := Local(Durable(Some(ApiPod(uid, 0, Empty)), None), None);
            var o := PatchMarker(uid, l, SetTo(FREEZE_RECORD), ApiScript(false, [Tamper(theirs)], false));
            && o.fx == [Other(Tamper(theirs)), Patched(Encode(FREEZE_RECORD))]
            && o.l.d.at == Some(ApiPod(uid, 2, Encode(FREEZE_RECORD)))
  {
    var d := Durable(Some(ApiPod(uid, 0, Empty)), None);
    var fx := Others([Tamper(theirs)]);
    assert fx == [Other(Tamper(theirs))] && fx[1..] == [];
    assert Replay(uid, d, fx) == Step(uid, d, Other(Tamper(theirs)));
  }

  // ---- which knobs are ever written ----

  /** The one case in which the guard writes cpu.max: a valid legacy marker, a spec that predicts no
      quota, the live value exactly the recorded finite one, and a canonical unbounded value to write. */
  predicate LegacyRestore(l: Local, pod: Pod, value: string) {
    && !pod.quota && l.owned.None? && l.d.cg.Some?
    && Decode(pod.cached).Some?
    && var rec := Decode(pod.cached).value;
       && rec.version == 1 && value == rec.restore && l.d.cg.value.cpuMax == rec.suppressed
       && ParseLimit(rec.suppressed).Some? && ParseLimit(rec.suppressed).value.Finite?
       && ParseLimit(value) == Some(Unlimited) && value == Spell(Unlimited, Period(value))
  }

  /** The knob writes among the effects, in order. */
  function Writes(fx: seq<Effect>): (r: seq<Effect>)
    ensures forall i :: 0 <= i < |r| ==> r[i].Wrote?
  {
    if fx == [] then [] else (if fx[0].Wrote? then [fx[0]] else []) + Writes(fx[1..])
  }

  predicate LegalWrites(l: Local, pod: Pod, fx: seq<Effect>) {
    var writes := Writes(fx);
    writes == [] || (|writes| == 1 &&
      var w := writes[0];
      || (w.knob == FREEZE && (w.value == FROZEN || w.value == THAWED))
      || (w.knob == CPU_MAX && LegacyRestore(l, pod, w.value)))
  }

  lemma {:induction false} WritesJoin(a: seq<Effect>, b: seq<Effect>)
    ensures Writes(a + b) == Writes(a) + Writes(b)
  {
    if a == [] {
      assert a + b == b;
    } else {
      WritesJoin(a[1..], b);
      assert (a + b)[1..] == a[1..] + b;
    }
  }

  lemma {:induction false} OthersWriteNothing(edits: seq<Edit>)
    ensures Writes(Others(edits)) == []
  {
    if edits != [] {
      OthersWriteNothing(edits[1..]);
      assert Others(edits)[1..] == Others(edits[1..]);
    }
  }

  lemma PatchWritesNothing(uid: Uid, l: Local, want: Want, s: ApiScript)
    ensures Writes(PatchMarker(uid, l, want, s).fx) == []
  {
    OthersWriteNothing(s.between);
    WritesJoin(Others(s.between), [Patched(Value(want))]);
  }

  lemma WriteWritesOne(uid: Uid, l: Local, knob: string, value: string, s: Script)
    ensures var writes := Writes(WriteKnob(uid, l, knob, value, s).fx);
            writes == [] || writes == [Wrote(knob, value)]
  {
    OthersWriteNothing(s.gap);
    WritesJoin(Others(s.gap), [Wrote(knob, value)]);
  }

  lemma RestoreWrites(l: Local, pod: Pod, rec: Record, s: Script)
    requires l.owned.Some? ==> l.owned.value.rec == FREEZE_RECORD && rec == FREEZE_RECORD
    requires l.owned.None? ==> Decode(pod.cached) == Some(rec)
    ensures LegalWrites(l, pod, RestorePod(l, pod, rec, s).fx)
  {
    ValidRecords(rec);
    PatchWritesNothing(pod.uid, l, ClearRecord(rec), s.api);
    if l.d.cg.Some? && Knob(l.d.cg.value, rec.knob) == rec.suppressed {
      var write := WriteKnob(pod.uid, l, rec.knob, rec.restore, s);
      WriteWritesOne(pod.uid, l, rec.knob, rec.restore, s);
      PatchWritesNothing(pod.uid, write.l, ClearRecord(rec), s.api);
      WritesJoin(write.fx, Release(pod.uid, write.l, rec, s.api).fx);
    }
  }

  lemma SuppressWrites(l: Local, pod: Pod, s: Script)
    requires l.owned.Some? ==> l.owned.value.rec == FREEZE_RECORD
    ensures var writes := Writes(SuppressPod(l, pod, s).fx);
            writes == [] || writes == [Wrote(FREEZE, FROZEN)]
  {
    match StateForPod(l, pod)
    case Invalid =>
    case Unmarked =>
      var mark := PatchMarker(pod.uid, l, SetTo(FREEZE_RECORD), s.api);
      PatchWritesNothing(pod.uid, l, SetTo(FREEZE_RECORD), s.api);
      var l' := mark.l.(owned := Some(Owned(FREEZE_RECORD, true, pod.quota)));
      WriteWritesOne(pod.uid, l', FREEZE, FROZEN, s);
      WritesJoin(mark.fx, WriteKnob(pod.uid, l', FREEZE, FROZEN, s).fx);
    case Marked(rec) =>
      ValidRecords(rec);
      WriteWritesOne(pod.uid, l, rec.knob, rec.suppressed, s);
  }

  /** In every state that owns only freeze records, a pass over a pod writes at most one knob, and only
      cgroup.freeze unless it undoes a legacy throttle. Every script, every interleaving. */
  lemma PassWrites(l: Local, pod: Pod, hot: bool, candidate: bool, s: Script)
    requires l.owned.Some? ==> l.owned.value.rec == FREEZE_RECORD
    ensures LegalWrites(l, pod, ConvergePod(l, pod, hot, candidate, s).fx)
  {
    var look := StateForPod(l, pod);
    if Eligible(l, pod, hot, candidate, s) {
      var l' := l.(d := Replay(pod.uid, l.d, Others(s.pause)));
      OthersWriteNothing(s.pause);
      SuppressWrites(l', pod, s);
      WritesJoin(Others(s.pause), SuppressPod(l', pod, s).fx);
    } else if look.Invalid? {
      PatchWritesNothing(pod.uid, l, ClearRaw(pod.cached), s.api);
    } else if look.Marked? {
      RestoreWrites(l, pod, look.rec, s);
    }
  }

  /** Once the context is done no knob is written, whichever of the two checks sees it. */
  lemma CancelledWritesNothing(l: Local, pod: Pod, hot: bool, candidate: bool, s: Script)
    requires s.cancelled || s.cancelledLate
    ensures Writes(ConvergePod(l, pod, hot, candidate, s).fx) == []
  {
    var look := StateForPod(l, pod);
    if Eligible(l, pod, hot, candidate, s) {
      var l' := l.(d := Replay(pod.uid, l.d, Others(s.pause)));
      OthersWriteNothing(s.pause);
      CancelledSuppress(l', pod, s);
      WritesJoin(Others(s.pause), SuppressPod(l', pod, s).fx);
    } else if look.Invalid? {
      PatchWritesNothing(pod.uid, l, ClearRaw(pod.cached), s.api);
    } else if look.Marked? {
      CancelledRestore(l, pod, look.rec, s);
    }
  }

  lemma CancelledSuppress(l: Local, pod: Pod, s: Script)
    requires s.cancelled || s.cancelledLate
    ensures Writes(SuppressPod(l, pod, s).fx) == []
  {
    PatchWritesNothing(pod.uid, l, SetTo(FREEZE_RECORD), s.api);
  }

  lemma CancelledRestore(l: Local, pod: Pod, rec: Record, s: Script)
    requires s.cancelled || s.cancelledLate
    ensures Writes(RestorePod(l, pod, rec, s).fx) == []
  {
    PatchWritesNothing(pod.uid, l, ClearRecord(rec), s.api);
  }

  /** The pod copy an event hands to the protocol. */
  function Handed(uid: Uid, r: Run, ev: Event): Pod {
    match ev
    case Converge(pod, _, _, _, _) => pod
    case Recover(pod, _, _) => pod
    case _ => Pod(uid, Empty, r.l.owned.Some? && r.l.owned.value.quota)
  }

  predicate WritesLegally(uid: Uid, r: Run, evs: seq<Event>)
    decreases |evs|
  {
    evs == [] ||
    (&& LegalWrites(r.l, Handed(uid, r, evs[0]), Perform(uid, r, evs[0]).fx)
     && WritesLegally(uid, Advance(uid, r, evs[0]), evs[1..]))
  }

  lemma EventWrites(uid: Uid, r: Run, ev: Event)
    requires r.l.owned.Some? ==> r.l.owned.value.rec == FREEZE_RECORD
    ensures LegalWrites(r.l, Handed(uid, r, ev), Perform(uid, r, ev).fx)
  {
    match ev
    case Env(edit) => assert [Other(edit)][1..] == [];
    case Converge(pod, hot, candidate, s, _) => PassWrites(r.l, pod, hot, candidate, s);
    case Recover(pod, s, _) =>
      RecoverIsCoolConverge(r.l, pod, false, s);
      PassWrites(r.l, pod, false, false, s);
    case Vanished(s, _) =>
      if r.l.owned.Some? {
        RestoreWrites(r.l, Handed(uid, r, ev), r.l.owned.value.rec, s);
      }
    case Crash =>
  }

  /** Over every admissible run only freeze transitions are ever owned, and hence each event writes at most one
      knob: cgroup.freeze, or cpu.max back from a recorded finite value to a canonical unbounded one on a pod
      whose spec predicts no quota. */
  lemma {:induction false} RunsWriteLegally(uid: Uid, r: Run, evs: seq<Event>)
    requires Inv(uid, r.l, r.h) && AdmissibleRun(uid, r, evs)
    ensures WritesLegally(uid, r, evs)
    decreases |evs|
  {
    if evs != [] {
      EventWrites(uid, r, evs[0]);
      AdvanceKeeps(uid, r, evs[0]);
      RunsWriteLegally(uid, Advance(uid, r, evs[0]), evs[1..]);
    }
  }

  // ---- a pass without failures or interference ----

  predicate Quiet(s: Script) {
    && !s.cancelled && !s.noPath && !s.probeFails && !s.readFails && !s.cancelledLate && !s.writeFails
    && s.pause == [] && s.gap == []
    && !s.api.getFails && !s.api.patchFails && s.api.between == []
  }

  /** The pod is unmarked or carries the freeze record, and the API object agrees. */
  predicate Agrees(l: Local, pod: Pod) {
    match StateForPod(l, pod)
    case Invalid => false
    case Unmarked => Mine(pod.uid, l.d) ==> l.d.at.value.marker == Empty
    case Marked(rec) => rec == FREEZE_RECORD && (Mine(pod.uid, l.d) ==> MarksFreeze(l.d.at.value.marker))
  }

  /** The live freeze is the guard's to set: thawed, or a frozen pod the guard has marked. */
  predicate Claimable(l: Local, pod: Pod) {
    && l.d.cg.Some?
    && (|| l.d.cg.value.freeze == THAWED
        || (l.d.cg.value.freeze == FROZEN && StateForPod(l, pod).Marked?))
  }

  predicate Frozen(uid: Uid, l: Local) {
    && l.d.cg.Some? && l.d.cg.value.freeze == FROZEN
    && Mine(uid, l.d) && MarksFreeze(l.d.at.value.marker)
  }

  /** Nothing left of the guard: not owned, not marked, thawed unless someone else chose otherwise. */
  predicate LetGo(uid: Uid, before: Local, l: Local) {
    && l.owned.None?
    && (Mine(uid, before.d) ==> Mine(uid, l.d) && l.d.at.value.marker == Empty)
    && (l.d.cg.Some? <==> before.d.cg.Some?)
    && (l.d.cg.Some? ==>
          && l.d.cg.value.cpuMax == before.d.cg.value.cpuMax
          && l.d.cg.value.freeze ==
             if before.d.cg.value.freeze == FROZEN then THAWED else before.d.cg.value.freeze)
  }

  lemma QuietRestore(l: Local, pod: Pod, s: Script)
    requires Quiet(s) && (Mine(pod.uid, l.d) ==> MarksFreeze(l.d.at.value.marker))
    ensures var o := RestorePod(l, pod, FREEZE_RECORD, s);
            o.err == Ok && LetGo(pod.uid, l, o.l) && (!Mine(pod.uid, l.d) ==> o.l.d.at == l.d.at)
  {
  }

  /** A quiet pass settles the pod: a hot candidate whose freeze is claimable ends frozen and marked,
      any other marked pod is let go, and an unmarked pod that is not claimable is not touched. If the API object
      is already gone, an unmarked candidate is left alone but a marked one is still frozen. */
  lemma QuietPassSettles(l: Local, pod: Pod, hot: bool, candidate: bool, s: Script)
    requires Quiet(s) && Agrees(l, pod)
    ensures var o := ConvergePod(l, pod, hot, candidate, s);
            var marked := StateForPod(l, pod).Marked?;
            if hot && candidate && Claimable(l, pod) then
              && (Mine(pod.uid, l.d) ==> o.err == Ok && Frozen(pod.uid, o.l) && (!marked ==> o.l.owned.Some?))
              && (!Mine(pod.uid, l.d) && !marked ==> o.fx == [] && o.l == l && o.err == CgroupGone)
              && (!Mine(pod.uid, l.d) && marked ==>
                    o.err == Ok && o.l == l.(d := l.d.(cg := Some(l.d.cg.value.(freeze := FROZEN)))))
            else if marked then
              o.err == Ok && LetGo(pod.uid, l, o.l) && (!Mine(pod.uid, l.d) ==> o.l.d.at == l.d.at)
            else o.fx == [] && o.l == l
  {
    if StateForPod(l, pod).Marked? {
      QuietRestore(l, pod, s);
    }
  }

  lemma QuietVanishedSettles(l: Local, uid: Uid, s: Script)
    requires Quiet(s) && l.owned.Some? && l.owned.value.rec == FREEZE_RECORD
    requires Mine(uid, l.d) ==> MarksFreeze(l.d.at.value.marker)
    ensures var o := RestoreVanished(l, uid, s);
            o.err == Ok && LetGo(uid, l, o.l) && (!Mine(uid, l.d) ==> o.l.d.at == l.d.at)
  {
    QuietRestore(l, Pod(uid, Empty, l.owned.value.quota), s);
  }

  /** A quiet pass removes a marker it cannot accept, and nothing else. */
  lemma QuietPassDropsInvalid(l: Local, pod: Pod, hot: bool, candidate: bool, s: Script)
    requires Quiet(s) && StateForPod(l, pod).Invalid? && Mine(pod.uid, l.d) && l.d.at.value.marker == pod.cached
    ensures var o := ConvergePod(l, pod, hot, candidate, s);
            && o.err == Ok && o.fx == [Patched(Empty)] && o.l.owned == l.owned && o.l.d.cg == l.d.cg
            && Mine(pod.uid, o.l.d) && o.l.d.at.value.marker == Empty
  {
    assert Others([]) == [];
  }

  /** If another actor replaced the marker of an owned pod, a restoring pass still thaws what it froze, leaves the
      foreign marker where it is, reports the conflict and stops owning the pod. */
  lemma ConflictEndsOwnership(l: Local, pod: Pod, s: Script)
    requires Quiet(s) && l.owned.Some? && l.owned.value.rec == FREEZE_RECORD
    requires Mine(pod.uid, l.d) && l.d.at.value.marker != Empty && !MarksFreeze(l.d.at.value.marker)
    ensures var o := ConvergePod(l, pod, false, false, s);
            && o.err == MarkerChanged && o.l.owned.None? && o.l.d.at == l.d.at
            && (l.d.cg.Some? ==> o.l.d.cg.Some? && o.l.d.cg.value.freeze != FROZEN)
  {
    assert Others([]) == [];
  }

  // ---- crash recovery ----

  /** The marker a freshly listed pod shows. */
  function Listed(uid: Uid, d: Durable): Raw {
    if Mine(uid, d) then d.at.value.marker else Empty
  }

  /** What a restarted process's first quiet recovery makes of the state a run left behind. */
  predicate Recovered(uid: Uid, end: Run, pod: Pod, s: Script) {
    var restarted := end.l.(owned := None);
    var o := RecoverPod(restarted, pod, s);
    && (MarksFreeze(pod.cached) ==> o.err == Ok && LetGo(uid, restarted, o.l))
    && (end.h.guardFroze && !end.h.tampered && Mine(uid, end.l.d) ==>
          && MarksFreeze(pod.cached)
          && o.l.d.cg.Some? && o.l.d.cg.value.freeze == THAWED
          && Mine(uid, o.l.d) && o.l.d.at.value.marker == Empty)
  }

  /** After any run and a crash anywhere in it, one quiet recovery over a fresh list leaves no guard
      freeze behind, unless the pod's object is gone or someone else edited its marker. */
  lemma RecoveryUndoesEveryRun(uid: Uid, r: Run, evs: seq<Event>, pod: Pod, s: Script)
    requires Inv(uid, r.l, r.h) && AdmissibleRun(uid, r, evs) && Quiet(s)
    requires pod.uid == uid && pod.cached == Listed(uid, EndOf(uid, r, evs).l.d)
    ensures Recovered(uid, EndOf(uid, r, evs), pod, s)
  {
    EndKeeps(uid, r, evs);
    RecoveryUndoes(uid, EndOf(uid, r, evs), pod, s);
  }

  lemma RecoveryUndoes(uid: Uid, end: Run, pod: Pod, s: Script)
    requires Inv(uid, end.l, end.h) && Quiet(s)
    requires pod.uid == uid && pod.cached == Listed(uid, end.l.d)
    ensures Recovered(uid, end, pod, s)
  {
    if MarksFreeze(pod.cached) {
      RecoverLetsGo(end.l.(owned := None), pod, s);
    }
  }

  lemma RecoverLetsGo(l: Local, pod: Pod, s: Script)
    requires Quiet(s) && l.owned.None? && pod.cached == Listed(pod.uid, l.d) && MarksFreeze(pod.cached)
    ensures var o := RecoverPod(l, pod, s); o.err == Ok && LetGo(pod.uid, l, o.l)
  {
    QuietRestore(l, pod, s);
  }

  function EndOf(uid: Uid, r: Run, evs: seq<Event>): Run
    decreases |evs|
  {
    if evs == [] then r else EndOf(uid, Advance(uid, r, evs[0]), evs[1..])
  }

  lemma {:induction false} EndKeeps(uid: Uid, r: Run, evs: seq<Event>)
    requires Inv(uid, r.l, r.h) && AdmissibleRun(uid, r, evs)
    ensures var end := EndOf(uid, r, evs); Inv(uid, end.l, end.h)
    decreases |evs|
  {
    if evs != [] {
      AdvanceKeeps(uid, r, evs[0]);
      EndKeeps(uid, Advance(uid, r, evs[0]), evs[1..]);
    }
  }

  /** A second quiet recovery has nothing to do: no knob write, no patch, whatever the marker was and
      even if its list still shows the marker the first one removed. */
  lemma SecondRecoveryIsSilent(d: Durable, pod: Pod, again: Pod, s: Script, s': Script)
    requires Quiet(s) && Quiet(s')
    requires pod.cached == Listed(pod.uid, d) && again.uid == pod.uid && again.quota == pod.quota
    requires var l' := RecoverPod(Local(d, None), pod, s).l;
             again.cached == pod.cached || again.cached == Listed(pod.uid, l'.d)
    ensures RecoverPod(RecoverPod(Local(d, None), pod, s).l, again, s').fx == []
  {
    var l := Local(d, None);
    match StateForPod(l, pod) {
      case Invalid =>
        assert Others([]) == [];
      case Unmarked =>
      case Marked(rec) =>
        QuietRestoreEnds(l, pod, rec, s);
        var l' := RestorePod(l, pod, rec, s).l;
        if l' != l {
          DoneIsSilent(l', again, rec, s');
        }
    }
  }

  /** Nothing is left of `rec`: no marker, no ownership, and not its suppressed value. */
  predicate Done(l: Local, uid: Uid, rec: Record) {
    && l.owned.None? && Listed(uid, l.d) == Empty
    && (l.d.cg.Some? ==> Knob(l.d.cg.value, rec.knob) != rec.suppressed)
  }

  lemma QuietRelease(uid: Uid, l: Local, rec: Record, s: Script)
    requires Quiet(s) && Decode(Listed(uid, l.d)) == Some(rec)
    ensures var o := Release(uid, l, rec, s.api);
            o.err == Ok && o.l.owned.None? && o.l.d.cg == l.d.cg && Listed(uid, o.l.d) == Empty
  {
    assert Others([]) == [];
  }

  lemma QuietRestoreEnds(l: Local, pod: Pod, rec: Record, s: Script)
    requires Quiet(s) && l.owned.None? && Valid(rec) && Decode(Listed(pod.uid, l.d)) == Some(rec)
    ensures var o := RestorePod(l, pod, rec, s);
            if rec.version == 1 && pod.quota && l.d.cg.Some? && l.d.cg.value.cpuMax == rec.suppressed
            then o == Outcome(l, [], Failed)
            else Done(o.l, pod.uid, rec)
  {
    ValidRecords(rec);
    if l.d.cg.Some? && Knob(l.d.cg.value, rec.knob) == rec.suppressed {
      var write := WriteKnob(pod.uid, l, rec.knob, rec.restore, s);
      assert write.l.d == Step(pod.uid, l.d, Wrote(rec.knob, rec.restore)) by {
        assert Others([]) == [];
      }
      QuietRelease(pod.uid, write.l, rec, s);
    } else {
      QuietRelease(pod.uid, l, rec, s);
    }
  }

  /** A pod that still carries a legacy throttle is never suppressed: every quiet pass, hot or cool, candidate or not,
      takes the throttle back and clears its marker, or, where the spec expects a quota, fails and touches nothing. */
  lemma QuietPassUndoesLegacy(l: Local, pod: Pod, hot: bool, candidate: bool, s: Script)
    requires Quiet(s) && l.owned.None? && pod.cached == Listed(pod.uid, l.d)
    requires Decode(pod.cached).Some? && Decode(pod.cached).value.version == 1
    ensures var o, rec := ConvergePod(l, pod, hot, candidate, s), Decode(pod.cached).value;
            if pod.quota && l.d.cg.Some? && l.d.cg.value.cpuMax == rec.suppressed then o == Outcome(l, [], Failed)
            else
              && Done(o.l, pod.uid, rec) && (o.l.d.cg.Some? <==> l.d.cg.Some?)
              && (l.d.cg.Some? ==> o.l.d.cg.value == Cgroup(l.d.cg.value.freeze,
                    if l.d.cg.value.cpuMax == rec.suppressed then rec.restore else l.d.cg.value.cpuMax))
  {
    var rec := Decode(pod.cached).value;
    LegacyIsRestored(l, pod, hot, candidate, s);
    QuietRestoreEnds(l, pod, rec, s);
    if l.d.cg.Some? && !(pod.quota && l.d.cg.value.cpuMax == rec.suppressed) {
      QuietRestoreKnobs(l, pod, rec, s);
    }
  }

  lemma LegacyIsRestored(l: Local, pod: Pod, hot: bool, candidate: bool, s: Script)
    requires l.owned.None? && Decode(pod.cached).Some? && Decode(pod.cached).value.version == 1
    ensures Decode(pod.cached).value.knob == CPU_MAX
    ensures ConvergePod(l, pod, hot, candidate, s) == RestorePod(l, pod, Decode(pod.cached).value, s)
  {
    ValidRecords(Decode(pod.cached).value);
  }

  lemma QuietRestoreKnobs(l: Local, pod: Pod, rec: Record, s: Script)
    requires Quiet(s) && Decode(Listed(pod.uid, l.d)) == Some(rec) && l.d.cg.Some? && rec.knob == CPU_MAX
    requires !(rec.version == 1 && pod.quota && l.d.cg.value.cpuMax == rec.suppressed)
    ensures RestorePod(l, pod, rec, s).l.d.cg == Some(Cgroup(l.d.cg.value.freeze,
              if l.d.cg.value.cpuMax == rec.suppressed then rec.restore else l.d.cg.value.cpuMax))
  {
    if l.d.cg.value.cpuMax == rec.suppressed {
      var write := WriteKnob(pod.uid, l, rec.knob, rec.restore, s);
      assert write.l.d == Step(pod.uid, l.d, Wrote(rec.knob, rec.restore)) by {
        assert Others([]) == [];
      }
      QuietRelease(pod.uid, write.l, rec, s);
    } else {
      QuietRelease(pod.uid, l, rec, s);
    }
  }

  lemma DoneIsSilent(l: Local, pod: Pod, rec: Record, s: Script)
    requires Quiet(s) && Done(l, pod.uid, rec)
    requires pod.cached == Empty || Decode(pod.cached) == Some(rec)
    ensures RecoverPod(l, pod, s).fx == []
  {
  }

  // ---- the assumptions are needed ----

  /** A thawed pod whose own, untampered object carries no freeze marker. */
  predicate Bare(uid: Uid, w: World) {
    && Mine(uid, w.d) && !w.h.tampered && !MarksFreeze(w.d.at.value.marker)
    && w.d.cg.Some? && w.d.cg.value.freeze == THAWED
  }

  lemma FreezeOfBareBreaks(uid: Uid, w: World)
    requires Bare(uid, w)
    ensures !WriteAhead(uid, After(uid, w, [Wrote(FREEZE, FROZEN)]))
  {
    var fx := [Wrote(FREEZE, FROZEN)];
    assert fx[1..] == [];
  }

  /** A cached freeze marker that the object no longer carries, such as one older than the guard's own clear,
      makes every hot quiet pass freeze the pod without a marker. The state itself may be perfectly sound. */
  lemma StaleCacheBreaksWriteAhead(uid: Uid, l: Local, h: History, pod: Pod, s: Script)
    requires Quiet(s) && pod.uid == uid && Bare(uid, World(l.d, h)) && l.owned.None?
    requires MarksFreeze(pod.cached)
    ensures var o := ConvergePod(l, pod, true, true, s); !WriteAhead(uid, After(uid, World(l.d, h), o.fx))
    ensures Inv(uid, l, h) ==> pod.cached !in h.recent
  {
    assert Others([]) == [];
    assert ConvergePod(l, pod, true, true, s).fx == [Wrote(FREEZE, FROZEN)];
    FreezeOfBareBreaks(uid, World(l.d, h));
  }

  /** A clear that lands while its success reply is lost: the effects happen, the caller sees a failure and
      keeps what it owns. */
  function ReleaseReplyLost(uid: Uid, l: Local, rec: Record, s: ApiScript): Outcome {
    PatchMarker(uid, l, ClearRecord(rec), s).(err := Failed)
  }

  /** From every sound state in which the guard owns a thawed pod, a clear whose reply is lost leads to a state
      that is still safe but from which the next hot quiet pass freezes the pod without a marker. */
  lemma LostReplyBreaksWriteAhead(uid: Uid, l: Local, h: History, pod: Pod, s: Script, s': Script)
    requires Inv(uid, l, h) && Quiet(s) && Quiet(s') && pod.uid == uid
    requires l.owned.Some? && Mine(uid, l.d) && !h.tampered && l.d.cg.Some? && l.d.cg.value.freeze == THAWED
    ensures var lost := ReleaseReplyLost(uid, l, FREEZE_RECORD, s.api);
            var w := After(uid, World(l.d, h), lost.fx);
            && Landed(lost.fx) && lost.l.owned == l.owned && w.d == lost.l.d && Safe(uid, w)
            && !WriteAhead(uid, After(uid, w, ConvergePod(lost.l, pod, true, true, s').fx))
  {
    assert Others([]) == [];
    var lost := ReleaseReplyLost(uid, l, FREEZE_RECORD, s.api);
    var fx := [Patched(Empty)];
    assert lost.fx == fx && fx[1..] == [];
    var w := After(uid, World(l.d, h), fx);
    assert w == Next(uid, World(l.d, h), Patched(Empty));
    StepIsSafe(uid, World(l.d, h), Patched(Empty));
    assert ConvergePod(lost.l, pod, true, true, s').fx == [Wrote(FREEZE, FROZEN)];
    FreezeOfBareBreaks(uid, w);
  }
}
