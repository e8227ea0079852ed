/**
 When ownership begins and ends, and what an answer without an error is worth. Whatever fails and whoever interferes,
 the guard does not forget a pod that still carries its marker, does not claim a freeze it did not set, and does not
 report success for a pass that did less than a failure-free one.
 */
module OwnershipLaws {
  import opened Wrappers
  import opened Markers
  import opened Ownership
  import opened OwnershipRuns
  import opened OwnershipOutcomes

  // ---- what patchMarker answers ----

  /** The marker is what the caller inspected. */
  predicate AsInspected(marker: Raw, want: Want) {
    match want
    case SetTo(_) => marker == Empty
    case ClearRecord(expected) => marker.Json? && marker.rec == expected && Valid(expected)
    case ClearRaw(bytes) => marker == bytes
  }

  /** patchMarker's answers, each exactly. A set succeeds only by landing; a clear also where there is nothing left to
      clear; a failed GET or PATCH and a lost race are plain failures, never an answer that ends ownership. */
  lemma PatchAnswers(uid: Uid, l: Local, want: Want, s: ApiScript)
    ensures var o := PatchMarker(uid, l, want, s);
            var mine := Mine(uid, l.d);
            var cleared := !want.SetTo? && mine && l.d.at.value.marker == Empty;
            var same := mine && AsInspected(l.d.at.value.marker, want);
            var gone := !mine || (same && !cleared && !s.patchFails && Replay(uid, l.d, Others(s.between)).at.None?);
            && (o.err == Ok <==> Landed(o.fx) || (!s.getFails && !want.SetTo? && (cleared || gone)))
            && (o.err == CgroupGone <==> !s.getFails && want.SetTo? && gone)
            && (o.err == MarkerChanged <==> !s.getFails && mine && !cleared && !same)
            && o.l.owned == l.owned
  {
    OthersPatchLast(s.between);
  }

  lemma OthersPatchLast(edits: seq<Edit>)
    ensures !Landed(Others(edits))
  {
  }

  // ---- who may be frozen, and when nothing is tried ----

  /** actualFreezeAllowsSuppression and its callers, in plain values: while hot, a candidate whose cgroup.freeze can be
      read is eligible if it is "0" and nobody marked the pod, or "0" or "1" and the marker is this guard's freeze. */
  lemma EligibleExactly(l: Local, pod: Pod, hot: bool, candidate: bool, s: Script)
    ensures Eligible(l, pod, hot, candidate, s) <==>
            && hot && candidate && !s.noPath && !s.probeFails && l.d.cg.Some?
            && match StateForPod(l, pod)
               case Invalid => false
               case Unmarked => l.d.cg.value.freeze == "0"
               case Marked(rec) =>
                 rec.knob == "cgroup.freeze" && l.d.cg.value.freeze in {"0", "1"} &&
                 l.d.cg.value.freeze in {rec.restore, rec.suppressed}
  {
  }

  /** A visit that finds its context done, or cannot name or read the cgroup, does nothing and says so. */
  lemma NothingTried(l: Local, pod: Pod, rec: Record, s: Script)
    requires s.cancelled || s.noPath || s.readFails
    ensures SuppressPod(l, pod, s) == Outcome(l, [], Failed) && RestorePod(l, pod, rec, s) == Outcome(l, [], Failed)
  {
  }

  // ---- ownership begins with the marker and ends with it ----

  /** The guard's own freeze marker landed. */
  predicate Marks(fx: seq<Effect>) {
    Patched(Encode(FREEZE_RECORD)) in fx
  }

  predicate CarriesMarker(uid: Uid, d: Durable) {
    Mine(uid, d) && MarksFreeze(d.at.value.marker)
  }

  lemma OthersMarkNothing(edits: seq<Edit>)
    ensures forall e :: e in Others(edits) ==> e.Other?
  {
  }

  /** The ownership entry a landed marker comes with. */
  function FreezeEntry(pod: Pod): Option<Owned> {
    Some(Owned(FREEZE_RECORD, true, pod.quota))
  }

  lemma SetMarks(uid: Uid, l: Local, s: ApiScript)
    ensures var o := PatchMarker(uid, l, SetTo(FREEZE_RECORD), s);
            o.l.owned == l.owned && (o.err == Ok <==> Marks(o.fx))
  {
    OthersMarkNothing(s.between);
  }

  lemma FreezeMarksNothing(l: Local, pod: Pod, s: Script)
    ensures var o := WriteKnob(pod.uid, l, FREEZE, FROZEN, s); o.l.owned == l.owned && !Marks(o.fx)
  {
    OthersMarkNothing(s.gap);
  }

  /** suppressPod takes ownership exactly when its marker lands, whatever fails afterwards, and marks and freezes only
      a pod it found thawed: a freeze that somebody else set is never claimed. */
  lemma SuppressOwnsExactly(l: Local, pod: Pod, s: Script)
    requires l.owned.Some? ==> l.owned.value.rec == FREEZE_RECORD
    ensures var o := SuppressPod(l, pod, s);
            && o.l.owned == (if l.owned.None? && Marks(o.fx) then FreezeEntry(pod) else l.owned)
            && (o.fx != [] ==> l.d.cg.Some? && l.d.cg.value.freeze == THAWED)
            && (Marks(o.fx) ==> l.owned.None? && pod.cached == Empty)
  {
    match StateForPod(l, pod)
    case Invalid =>
    case Unmarked =>
      var mark := PatchMarker(pod.uid, l, SetTo(FREEZE_RECORD), s.api);
      SetMarks(pod.uid, l, s.api);
      FreezeMarksNothing(mark.l.(owned := FreezeEntry(pod)), pod, s);
    case Marked(rec) =>
      ValidRecords(rec);
      if rec == FREEZE_RECORD {
        FreezeMarksNothing(l, pod, s);
      }
  }

  /** restorePod keeps the entry or drops it, and drops it only when the record is off the pod's object: nothing that
      merely failed makes the guard forget a pod it has yet to clear. */
  lemma RestoreDisownsExactly(l: Local, pod: Pod, rec: Record, s: Script)
    ensures var o := RestorePod(l, pod, rec, s);
            && o.l.owned == (if o.err == Ok || o.err == MarkerChanged then None else l.owned)
            && (o.err == Ok || o.err == MarkerChanged ==>
                  !(Mine(pod.uid, o.l.d) && Decode(o.l.d.at.value.marker) == Some(rec)))
  {
    if l.d.cg.Some? && Knob(l.d.cg.value, rec.knob) == rec.suppressed {
      var write := WriteKnob(pod.uid, l, rec.knob, rec.restore, s);
      ReleaseDisownsExactly(pod.uid, write.l, rec, s.api);
    } else {
      ReleaseDisownsExactly(pod.uid, l, rec, s.api);
    }
  }

  lemma ReleaseDisownsExactly(uid: Uid, l: Local, rec: Record, s: ApiScript)
    ensures var o := Release(uid, l, rec, s);
            && o.l.owned == (if o.err == Ok || o.err == MarkerChanged then None else l.owned)
            && (o.err == Ok || o.err == MarkerChanged ==>
                  !(Mine(uid, o.l.d) && Decode(o.l.d.at.value.marker) == Some(rec)))
  {
    PatchAnswers(uid, l, ClearRecord(rec), s);
  }

  // ---- over runs ----

  /** A pod the process owns, or marks in this event, is still owned afterwards unless its object no longer carries the
      marker. */
  predicate Remembers(uid: Uid, l: Local, o: Outcome) {
    l.owned.Some? || Marks(o.fx) ==> o.l.owned.Some? || !CarriesMarker(uid, o.l.d)
  }

  lemma RestoreMarksNothing(l: Local, pod: Pod, rec: Record, s: Script)
    ensures !Marks(RestorePod(l, pod, rec, s).fx)
  {
    ReleaseMarksNothing(pod.uid, l, rec, s.api);
    if l.d.cg.Some? && Knob(l.d.cg.value, rec.knob) == rec.suppressed {
      var write := WriteKnob(pod.uid, l, rec.knob, rec.restore, s);
      ReleaseMarksNothing(pod.uid, write.l, rec, s.api);
      WriteMarksNothing(pod.uid, l, rec.knob, rec.restore, s);
    }
  }

  lemma ReleaseMarksNothing(uid: Uid, l: Local, rec: Record, s: ApiScript)
    ensures !Marks(Release(uid, l, rec, s).fx)
  {
    OthersMarkNothing(s.between);
  }

  lemma WriteMarksNothing(uid: Uid, l: Local, knob: string, value: string, s: Script)
    ensures !Marks(WriteKnob(uid, l, knob, value, s).fx)
  {
    OthersMarkNothing(s.gap);
  }

  lemma SuppressRemembers(l: Local, pod: Pod, s: Script)
    requires l.owned.Some? ==> l.owned.value.rec == FREEZE_RECORD
    ensures Remembers(pod.uid, l, SuppressPod(l, pod, s))
  {
    SuppressOwnsExactly(l, pod, s);
  }

  lemma RestoreRemembers(l: Local, pod: Pod, rec: Record, s: Script)
    requires l.owned.Some? ==> rec == FREEZE_RECORD
    ensures Remembers(pod.uid, l, RestorePod(l, pod, rec, s))
  {
    RestoreDisownsExactly(l, pod, rec, s);
    RestoreMarksNothing(l, pod, rec, s);
  }

  lemma SweepRemembers(l: Local, pod: Pod, hot: bool, candidate: bool, s: Script)
    requires l.owned.Some? ==> l.owned.value.rec == FREEZE_RECORD
    ensures Remembers(pod.uid, l, Sweep(l, pod, hot, candidate, s)) && Remembers(pod.uid, l, RecoverPod(l, pod, s))
  {
    match StateForPod(l, pod)
    case Invalid => OthersMarkNothing(s.api.between);
    case Unmarked =>
    case Marked(rec) => RestoreRemembers(l, pod, rec, s);
  }

  lemma ConvergeRemembers(l: Local, pod: Pod, hot: bool, candidate: bool, s: Script)
    requires l.owned.Some? ==> l.owned.value.rec == FREEZE_RECORD
    ensures Remembers(pod.uid, l, ConvergePod(l, pod, hot, candidate, s))
  {
    if Eligible(l, pod, hot, candidate, s) {
      var l' := l.(d := Replay(pod.uid, l.d, Others(s.pause)));
      OthersMarkNothing(s.pause);
      SuppressRemembers(l', pod, s);
    } else {
      SweepRemembers(l, pod, hot, candidate, s);
    }
  }

  lemma EventRemembers(uid: Uid, r: Run, ev: Event)
    requires Inv(uid, r.l, r.h) && Admissible(uid, r, ev) && !ev.Crash?
    ensures Remembers(uid, r.l, Perform(uid, r, ev))
  {
    match ev
    case Env(edit) =>
    case Converge(pod, hot, candidate, s, _) => ConvergeRemembers(r.l, pod, hot, candidate, s);
    case Recover(pod, s, _) => SweepRemembers(r.l, pod, false, false, s);
    case Vanished(s, _) =>
      if r.l.owned.Some? {
        RestoreRemembers(r.l, Pod(uid, Empty, r.l.owned.value.quota), r.l.owned.value.rec, s);
      }
  }

  predicate RemembersThroughout(uid: Uid, r: Run, evs: seq<Event>)
    decreases |evs|
  {
    evs == [] ||
    (&& (evs[0].Crash? || Remembers(uid, r.l, Perform(uid, r, evs[0])))
     && RemembersThroughout(uid, Advance(uid, r, evs[0]), evs[1..]))
  }

  /** Over every admissible run, with any failures and interference, no event makes a living process forget a pod whose
      object carries the guard's marker. */
  lemma {:induction false} RunsRemember(uid: Uid, r: Run, evs: seq<Event>)
    requires Inv(uid, r.l, r.h) && AdmissibleRun(uid, r, evs)
    ensures RemembersThroughout(uid, r, evs)
    decreases |evs|
  {
    if evs != [] {
      if !evs[0].Crash? {
        EventRemembers(uid, r, evs[0]);
      }
      AdvanceKeeps(uid, r, evs[0]);
      RunsRemember(uid, Advance(uid, r, evs[0]), evs[1..]);
    }
  }

  // ---- success is honest ----

  const QUIET := Script(false, false, false, [], false, ApiScript(false, [], false), false, [], false)

  predicate Uninterrupted(s: Script) {
    s.pause == [] && s.gap == [] && s.api.between == []
  }

  lemma HonestRestore(l: Local, pod: Pod, rec: Record, s: Script)
    requires Uninterrupted(s) && RestorePod(l, pod, rec, s).err == Ok
    ensures RestorePod(l, pod, rec, s) == RestorePod(l, pod, rec, QUIET)
  {
  }

  lemma HonestSuppress(l: Local, pod: Pod, s: Script)
    requires Uninterrupted(s) && SuppressPod(l, pod, s).err == Ok
    ensures SuppressPod(l, pod, s) == SuppressPod(l, pod, QUIET)
  {
  }

  /** A pass that returns no error did all that a failure-free pass does: the one that was asked for, or, where the
      eligibility of a marked pod could not be read, the cool one, which lets the pod go. */
  lemma HonestPass(l: Local, pod: Pod, hot: bool, candidate: bool, s: Script)
    requires Uninterrupted(s) && ConvergePod(l, pod, hot, candidate, s).err == Ok
    ensures var o := ConvergePod(l, pod, hot, candidate, s);
            || o == ConvergePod(l, pod, hot, candidate, QUIET)
            || (&& o == ConvergePod(l, pod, false, candidate, QUIET)
                && StateForPod(l, pod).Marked? && s.probeFails)
  {
    assert Others([]) == [];
    if Eligible(l, pod, hot, candidate, s) {
      HonestSuppress(l, pod, s);
    } else if StateForPod(l, pod).Marked? {
      HonestRestore(l, pod, StateForPod(l, pod).rec, s);
    }
  }
}
