/**
 The maps the guard and its surroundings share, one pod's share of them, and what a pass over a list of pods comes to,
 pod by pod.
 */
module GuardMaps {
  import opened Wrappers
  import opened Markers
  import opened Ownership

  type Key = string

  /** A pod as the informer hands it out: its namespace/name and the copy itself. */
  datatype PodRef = PodRef(key: Key, pod: Pod)

  datatype OwnedPod = OwnedPod(podRef: PodRef, entry: Owned)

  datatype Maps = Maps(api: map<Key, ApiPod>, cgroups: map<Uid, Cgroup>, owned: map<Uid, OwnedPod>)

  function With<K, V>(m: map<K, V>, k: K, v: Option<V>): map<K, V> {
    if v.Some? then m[k := v.value] else m - {k}
  }

  lemma WithWith<K, V>(m: map<K, V>, k: K, a: Option<V>, b: Option<V>)
    ensures With(With(m, k, a), k, b) == With(m, k, b) && Get(With(m, k, b), k) == b
  {
  }

  function OwnedEntry(m: map<Uid, OwnedPod>, uid: Uid): Option<Owned> {
    if uid in m then Some(m[uid].entry) else None
  }

  /** One pod's share of the maps. */
  function View(m: Maps, p: PodRef): Local {
    Local(Durable(Get(m.api, p.key), Get(m.cgroups, p.pod.uid)), OwnedEntry(m.owned, p.pod.uid))
  }

  /** The maps with one pod's share replaced; an ownership entry keeps the pod copy it was made with. */
  function Put(m: Maps, p: PodRef, l: Local): Maps {
    Maps(With(m.api, p.key, l.d.at), With(m.cgroups, p.pod.uid, l.d.cg),
      if l.owned.None? then m.owned - {p.pod.uid}
      else if OwnedEntry(m.owned, p.pod.uid) == l.owned then m.owned
      else m.owned[p.pod.uid := OwnedPod(p, l.owned.value)])
  }

  lemma PutView(m: Maps, p: PodRef)
    ensures Put(m, p, View(m, p)) == m
  {
  }

  lemma PutPut(m: Maps, p: PodRef, a: Local, b: Local)
    requires a.owned == View(m, p).owned || a.owned == b.owned || b.owned.None?
    ensures Put(Put(m, p, a), p, b) == Put(m, p, b) && View(Put(m, p, a), p) == a
  {
  }

  /** Equal as far as this pod is concerned: a foreign object under its name is not its business. */
  predicate Same(uid: Uid, a: Local, b: Local) {
    && a.d.cg == b.d.cg && a.owned == b.owned
    && (Mine(uid, a.d) <==> Mine(uid, b.d))
    && (Mine(uid, a.d) ==> a.d.at == b.d.at)
  }

  /** The operation left a foreign object under the pod's name alone. */
  predicate Gentle(uid: Uid, a: Local, b: Local) {
    a.d.at == b.d.at || (Mine(uid, a.d) && Mine(uid, b.d))
  }

  lemma PutFrame(m: Maps, p: PodRef, l: Local, q: PodRef)
    requires Gentle(p.pod.uid, View(m, p), l) && q.pod.uid != p.pod.uid
    ensures Same(q.pod.uid, View(m, q), View(Put(m, p, l), q))
    ensures q.pod.uid in m.owned <==> q.pod.uid in Put(m, p, l).owned
    ensures q.pod.uid in m.owned ==> m.owned[q.pod.uid] == Put(m, p, l).owned[q.pod.uid]
  {
  }

  /** The PATCH of patchMarker, built from an object of that version. */
  function Sent(uid: Uid, l: Local, version: nat, want: Want, s: ApiScript): Outcome {
    var fx := Others(s.between);
    var l' := l.(d := Replay(uid, l.d, fx));
    if s.patchFails then Outcome(l', fx, Failed)
    else match ServerReply(l'.d, uid, version)
      case NotFound => Outcome(l', fx, Missing(want))
      case Conflict => Outcome(l', fx, Failed)
      case Accepted => Outcome(l'.(d := Step(uid, l'.d, Patched(Value(want)))), fx + [Patched(Value(want))], Ok)
  }

  lemma PatchSends(uid: Uid, l: Local, want: Want, s: ApiScript)
    requires !s.getFails && Mine(uid, l.d) && MayPatch(l.d.at.value.marker, want)
    requires want.SetTo? || l.d.at.value.marker != Empty
    ensures PatchMarker(uid, l, want, s) == Sent(uid, l, l.d.at.value.version, want, s)
  {
  }

  /** No other actor gets in between: what one pass over the whole list assumes. */
  predicate Undisturbed(s: Script) {
    s.pause == [] && s.gap == [] && s.api.between == []
  }

  predicate Alike(uid: Uid, a: Outcome, b: Outcome) {
    a.fx == b.fx && a.err == b.err && Same(uid, a.l, b.l)
  }

  lemma PatchAlike(uid: Uid, a: Local, b: Local, want: Want, s: ApiScript)
    requires Same(uid, a, b) && s.between == []
    ensures Alike(uid, PatchMarker(uid, a, want, s), PatchMarker(uid, b, want, s))
    ensures Gentle(uid, a, PatchMarker(uid, a, want, s).l)
  {
    assert Others([]) == [];
  }

  lemma ReleaseAlike(uid: Uid, a: Local, b: Local, rec: Record, s: ApiScript)
    requires Same(uid, a, b) && s.between == []
    ensures Alike(uid, Release(uid, a, rec, s), Release(uid, b, rec, s))
    ensures Gentle(uid, a, Release(uid, a, rec, s).l)
  {
    PatchAlike(uid, a, b, ClearRecord(rec), s);
  }

  lemma WriteAlike(uid: Uid, a: Local, b: Local, knob: string, value: string, s: Script)
    requires Same(uid, a, b) && s.gap == []
    ensures Alike(uid, WriteKnob(uid, a, knob, value, s), WriteKnob(uid, b, knob, value, s))
    ensures WriteKnob(uid, a, knob, value, s).l.d.at == a.d.at
  {
    assert Others([]) == [];
  }

  lemma RestoreAlike(a: Local, b: Local, pod: Pod, rec: Record, s: Script)
    requires Same(pod.uid, a, b) && Undisturbed(s)
    ensures Alike(pod.uid, RestorePod(a, pod, rec, s), RestorePod(b, pod, rec, s))
    ensures Gentle(pod.uid, a, RestorePod(a, pod, rec, s).l)
  {
    if a.d.cg.Some? && Knob(a.d.cg.value, rec.knob) == rec.suppressed {
      WriteAlike(pod.uid, a, b, rec.knob, rec.restore, s);
      var a', b' := WriteKnob(pod.uid, a, rec.knob, rec.restore, s), WriteKnob(pod.uid, b, rec.knob, rec.restore, s);
      ReleaseAlike(pod.uid, a'.l, b'.l, rec, s.api);
    } else {
      ReleaseAlike(pod.uid, a, b, rec, s.api);
    }
  }

  lemma SuppressAlike(a: Local, b: Local, pod: Pod, s: Script)
    requires Same(pod.uid, a, b) && Undisturbed(s)
    ensures Alike(pod.uid, SuppressPod(a, pod, s), SuppressPod(b, pod, s))
    ensures Gentle(pod.uid, a, SuppressPod(a, pod, s).l)
  {
    match StateForPod(a, pod)
    case Invalid =>
    case Unmarked =>
      PatchAlike(pod.uid, a, b, SetTo(FREEZE_RECORD), s.api);
      var entry := Some(Owned(FREEZE_RECORD, true, pod.quota));
      var a', b' := PatchMarker(pod.uid, a, SetTo(FREEZE_RECORD), s.api).l.(owned := entry),
                    PatchMarker(pod.uid, b, SetTo(FREEZE_RECORD), s.api).l.(owned := entry);
      WriteAlike(pod.uid, a', b', FREEZE, FROZEN, s);
    case Marked(rec) =>
      WriteAlike(pod.uid, a, b, rec.knob, rec.suppressed, s);
  }

  lemma SweepAlike(a: Local, b: Local, pod: Pod, hot: bool, candidate: bool, s: Script)
    requires Same(pod.uid, a, b) && Undisturbed(s)
    ensures Alike(pod.uid, Sweep(a, pod, hot, candidate, s), Sweep(b, pod, hot, candidate, s))
    ensures Eligible(a, pod, hot, candidate, s) == Eligible(b, pod, hot, candidate, s)
    ensures Gentle(pod.uid, a, Sweep(a, pod, hot, candidate, s).l)
  {
    match StateForPod(a, pod)
    case Invalid => PatchAlike(pod.uid, a, b, ClearRaw(pod.cached), s.api);
    case Unmarked =>
    case Marked(rec) => RestoreAlike(a, b, pod, rec, s);
  }

  lemma RecoverAlike(a: Local, b: Local, pod: Pod, s: Script)
    requires Same(pod.uid, a, b) && Undisturbed(s)
    ensures Alike(pod.uid, RecoverPod(a, pod, s), RecoverPod(b, pod, s))
    ensures Gentle(pod.uid, a, RecoverPod(a, pod, s).l)
  {
    RecoverIsCoolConverge(a, pod, false, s);
    RecoverIsCoolConverge(b, pod, false, s);
    SweepAlike(a, b, pod, false, false, s);
  }

  lemma UndisturbedConverge(l: Local, pod: Pod, hot: bool, candidate: bool, s: Script)
    requires Undisturbed(s)
    ensures ConvergePod(l, pod, hot, candidate, s) ==
            if Eligible(l, pod, hot, candidate, s) then SuppressPod(l, pod, s) else Sweep(l, pod, hot, candidate, s)
    ensures Eligible(l, pod, hot, candidate, s) ==> Sweep(l, pod, hot, candidate, s) == Outcome(l, [], Ok)
  {
    assert Others([]) == [];
    assert [] + SuppressPod(l, pod, s).fx == SuppressPod(l, pod, s).fx;
  }

  /** A pass's report: the effects on each pod it visited, and the pods whose handling returned an error. */
  datatype Report = Report(fx: map<Uid, seq<Effect>>, failed: set<Uid>)

  function Noted(r: Report, uid: Uid, fx: seq<Effect>, err: Error): Report {
    Report(r.fx[uid := fx], if err == Ok then r.failed - {uid} else r.failed + {uid})
  }

  /** The maps and the report show outcome `o` for pod `p`. */
  predicate Reached(m: Maps, r: Report, p: PodRef, o: Outcome) {
    var uid := p.pod.uid;
    Same(uid, o.l, View(m, p)) && uid in r.fx && r.fx[uid] == o.fx && (uid in r.failed <==> o.err != Ok)
  }

  predicate AllReached(m: Maps, r: Report, ps: seq<PodRef>, outcome: PodRef -> Outcome) {
    forall i :: 0 <= i < |ps| ==> Reached(m, r, ps[i], outcome(ps[i]))
  }

  /** Maps and report still show for `q` what they showed before. */
  predicate Kept(m: Maps, r: Report, m': Maps, r': Report, q: PodRef) {
    var uid := q.pod.uid;
    && Same(uid, View(m, q), View(m', q)) && Get(m.owned, uid) == Get(m'.owned, uid)
    && Get(r.fx, uid) == Get(r'.fx, uid) && (uid in r.failed <==> uid in r'.failed)
  }

  ghost predicate KeptOutside(m: Maps, r: Report, m': Maps, r': Report, touched: set<Uid>) {
    forall q: PodRef :: q.pod.uid !in touched ==> Kept(m, r, m', r', q)
  }

  lemma ReachedLasts(m: Maps, r: Report, m': Maps, r': Report, p: PodRef, o: Outcome, o': Outcome)
    requires Reached(m, r, p, o) && Kept(m, r, m', r', p) && Alike(p.pod.uid, o, o')
    ensures Reached(m', r', p, o')
  {
  }

  lemma PutKeeps(m: Maps, r: Report, p: PodRef, o: Outcome, q: PodRef)
    requires Gentle(p.pod.uid, View(m, p), o.l) && q.pod.uid != p.pod.uid
    ensures Kept(m, r, Put(m, p, o.l), Noted(r, p.pod.uid, o.fx, o.err), q)
  {
    PutFrame(m, p, o.l, q);
  }

  lemma PutReaches(m: Maps, r: Report, p: PodRef, o: Outcome, o': Outcome)
    requires Alike(p.pod.uid, o, o')
    ensures Reached(Put(m, p, o.l), Noted(r, p.pod.uid, o.fx, o.err), p, o')
  {
  }

  /** One loop iteration: visiting `p` reaches its outcome and disturbs no pod visited or to come. */
  lemma Visit(m0: Maps, r0: Report, m: Maps, r: Report, ps: seq<PodRef>, p: PodRef,
              o: Outcome, outcome: PodRef -> Outcome)
    requires AllReached(m, r, ps, outcome) && KeptOutside(m0, r0, m, r, Uids(ps))
    requires p.pod.uid !in Uids(ps) && Alike(p.pod.uid, o, outcome(p)) && Gentle(p.pod.uid, View(m, p), o.l)
    ensures var m', r' := Put(m, p, o.l), Noted(r, p.pod.uid, o.fx, o.err);
            AllReached(m', r', ps + [p], outcome) && KeptOutside(m0, r0, m', r', Uids(ps + [p]))
  {
    var m', r' := Put(m, p, o.l), Noted(r, p.pod.uid, o.fx, o.err);
    forall i | 0 <= i < |ps| + 1
      ensures Reached(m', r', (ps + [p])[i], outcome((ps + [p])[i]))
    {
      if i < |ps| {
        assert ps[i].pod.uid in Uids(ps);
        PutKeeps(m, r, p, o, ps[i]);
        ReachedLasts(m, r, m', r', ps[i], outcome(ps[i]), outcome(ps[i]));
      } else {
        PutReaches(m, r, p, o, outcome(p));
      }
    }
    UidsJoin(ps, p);
    forall q: PodRef | q.pod.uid !in Uids(ps + [p])
      ensures Kept(m0, r0, m', r', q)
    {
      PutKeeps(m, r, p, o, q);
      KeptTwice(m0, r0, m, r, m', r', q);
    }
  }

  lemma KeptTwice(m0: Maps, r0: Report, m1: Maps, r1: Report, m2: Maps, r2: Report, q: PodRef)
    requires Kept(m0, r0, m1, r1, q) && Kept(m1, r1, m2, r2, q)
    ensures Kept(m0, r0, m2, r2, q)
  {
  }

  lemma UidsJoin(ps: seq<PodRef>, p: PodRef)
    ensures Uids(ps + [p]) == Uids(ps) + {p.pod.uid}
  {
    assert forall i :: 0 <= i < |ps| ==> (ps + [p])[i] == ps[i];
    assert (ps + [p])[|ps|] == p;
  }

  predicate DistinctUids(ps: seq<PodRef>) {
    forall i, j :: 0 <= i < j < |ps| ==> ps[i].pod.uid != ps[j].pod.uid
  }

  lemma PrefixGrows(all: seq<PodRef>, i: nat)
    requires i < |all| && DistinctUids(all)
    ensures all[..i + 1] == all[..i] + [all[i]] && all[i].pod.uid !in Uids(all[..i])
  {
  }

  function Uids(ps: seq<PodRef>): set<Uid> {
    set i | 0 <= i < |ps| :: ps[i].pod.uid
  }

  /** Every ownership entry holds a copy of its own pod. */
  predicate OwnCopies(m: Maps) {
    forall u :: u in m.owned ==>
      m.owned[u].podRef.pod.uid == u && m.owned[u].entry.quota == m.owned[u].podRef.pod.quota
  }

  /** An outcome leaves the pod's ownership as it was, drops it, or takes it with the copy at hand. */
  predicate OwnsCopy(pod: Pod, l: Local, l': Local) {
    l'.owned.None? || l'.owned == l.owned || l'.owned.value.quota == pod.quota
  }

  lemma PutOwnsCopy(m: Maps, p: PodRef, l: Local)
    requires OwnCopies(m) && OwnsCopy(p.pod, View(m, p), l)
    ensures OwnCopies(Put(m, p, l))
  {
  }

  lemma PatchKeepsOwned(uid: Uid, l: Local, want: Want, s: ApiScript)
    ensures PatchMarker(uid, l, want, s).l.owned == l.owned
  {
  }

  lemma SuppressOwnsCopy(l: Local, pod: Pod, s: Script)
    ensures OwnsCopy(pod, l, SuppressPod(l, pod, s).l)
  {
    PatchKeepsOwned(pod.uid, l, SetTo(FREEZE_RECORD), s.api);
  }

  lemma RestoreOwnsCopy(l: Local, pod: Pod, rec: Record, s: Script)
    ensures OwnsCopy(pod, l, RestorePod(l, pod, rec, s).l)
  {
    PatchKeepsOwned(pod.uid, l, ClearRecord(rec), s.api);
    PatchKeepsOwned(pod.uid, WriteKnob(pod.uid, l, rec.knob, rec.restore, s).l, ClearRecord(rec), s.api);
  }

  lemma SweepOwnsCopy(l: Local, pod: Pod, hot: bool, candidate: bool, s: Script)
    ensures OwnsCopy(pod, l, Sweep(l, pod, hot, candidate, s).l)
    ensures OwnsCopy(pod, l, RecoverPod(l, pod, s).l)
  {
    match StateForPod(l, pod)
    case Invalid => PatchKeepsOwned(pod.uid, l, ClearRaw(pod.cached), s.api);
    case Unmarked =>
    case Marked(rec) => RestoreOwnsCopy(l, pod, rec, s);
  }

  function SweepOutcome(m0: Maps, p: PodRef, hot: bool, candidates: set<Uid>, script: Uid -> Script): Outcome {
    Sweep(View(m0, p), p.pod, hot, p.pod.uid in candidates, script(p.pod.uid))
  }

  predicate IsEligible(m0: Maps, p: PodRef, hot: bool, candidates: set<Uid>, script: Uid -> Script) {
    Eligible(View(m0, p), p.pod, hot, p.pod.uid in candidates, script(p.pod.uid))
  }

  function SuppressOutcome(m0: Maps, p: PodRef, script: Uid -> Script): Outcome {
    SuppressPod(View(m0, p), p.pod, script(p.pod.uid))
  }

  /** What restoring the copy kept with an ownership entry comes to. */
  function CopyOutcome(m0: Maps, p: PodRef, script: Uid -> Script): Outcome {
    var l := View(m0, p);
    if l.owned.None? then Outcome(l, [], Ok) else RestorePod(l, p.pod, l.owned.value.rec, script(p.pod.uid))
  }

  function RecoverOutcome(m0: Maps, p: PodRef, script: Uid -> Script): Outcome {
    RecoverPod(View(m0, p), p.pod, script(p.pod.uid))
  }

  /** The pass, as each listed pod and each owned pod that left the list sees it. */
  function ListedOutcome(m0: Maps, p: PodRef, hot: bool, candidates: set<Uid>, script: Uid -> Script): Outcome {
    ConvergePod(View(m0, p), p.pod, hot, p.pod.uid in candidates, script(p.pod.uid))
  }

  function VanishedOutcome(m0: Maps, uid: Uid, script: Uid -> Script): Outcome
    requires uid in m0.owned
  {
    RestoreVanished(View(m0, m0.owned[uid].podRef), uid, script(uid))
  }

  /** Restoring uses nothing of the pod copy but its identity and its quota prediction. */
  lemma CopyIsVanished(m0: Maps, uid: Uid, script: Uid -> Script)
    requires uid in m0.owned && OwnCopies(m0)
    ensures CopyOutcome(m0, m0.owned[uid].podRef, script) == VanishedOutcome(m0, uid, script)
  {
  }

  lemma CopyAlike(m0: Maps, p: PodRef, v: Local, script: Uid -> Script)
    requires Same(p.pod.uid, View(m0, p), v) && v.owned.Some? && Undisturbed(script(p.pod.uid))
    ensures var o := RestorePod(v, p.pod, v.owned.value.rec, script(p.pod.uid));
            Alike(p.pod.uid, o, CopyOutcome(m0, p, script)) && Gentle(p.pod.uid, v, o.l) && OwnsCopy(p.pod, v, o.l)
  {
    RestoreOwnsCopy(v, p.pod, v.owned.value.rec, script(p.pod.uid));
    RestoreAlike(v, View(m0, p), p.pod, v.owned.value.rec, script(p.pod.uid));
  }

  predicate AllCopiesReached(m0: Maps, m: Maps, r: Report, ps: seq<PodRef>, script: Uid -> Script) {
    forall i :: 0 <= i < |ps| ==> Reached(m, r, ps[i], CopyOutcome(m0, ps[i], script))
  }

  predicate AreCopies(m0: Maps, ps: seq<PodRef>) {
    forall i :: 0 <= i < |ps| ==> ps[i].pod.uid in m0.owned && ps[i] == m0.owned[ps[i].pod.uid].podRef
  }

  lemma CopiesGrow(m0: Maps, ps: seq<PodRef>, u: Uid)
    requires OwnCopies(m0) && AreCopies(m0, ps) && u in m0.owned
    ensures AreCopies(m0, ps + [m0.owned[u].podRef])
  {
  }

  lemma CopiesReached(m0: Maps, m: Maps, r: Report, ps: seq<PodRef>, script: Uid -> Script)
    requires OwnCopies(m0) && AreCopies(m0, ps) && AllCopiesReached(m0, m, r, ps, script)
    ensures forall u :: u in Uids(ps) ==>
              u in m0.owned && Reached(m, r, m0.owned[u].podRef, VanishedOutcome(m0, u, script))
  {
    forall u | u in Uids(ps)
      ensures u in m0.owned && Reached(m, r, m0.owned[u].podRef, VanishedOutcome(m0, u, script))
    {
      var i :| 0 <= i < |ps| && ps[i].pod.uid == u;
      assert Reached(m, r, ps[i], CopyOutcome(m0, ps[i], script));
      CopyIsVanished(m0, u, script);
    }
  }

  lemma KeptJoins(m0: Maps, r0: Report, m1: Maps, r1: Report, m2: Maps, r2: Report, a: set<Uid>, b: set<Uid>)
    requires KeptOutside(m0, r0, m1, r1, a) && KeptOutside(m1, r1, m2, r2, b)
    ensures KeptOutside(m0, r0, m2, r2, a + b)
  {
    forall q: PodRef | q.pod.uid !in a + b
      ensures Kept(m0, r0, m2, r2, q)
    {
      assert Kept(m0, r0, m1, r1, q) && Kept(m1, r1, m2, r2, q);
    }
  }

  lemma EntriesLast(m0: Maps, r0: Report, m: Maps, r: Report, seen: set<Uid>)
    requires KeptOutside(m0, r0, m, r, seen)
    ensures m.owned.Keys - seen == m0.owned.Keys - seen
    ensures forall u :: u in m.owned && u !in seen ==> u in m0.owned && m.owned[u] == m0.owned[u]
  {
    forall u: Uid | u !in seen
      ensures Get(m0.owned, u) == Get(m.owned, u)
    {
      assert Kept(m0, r0, m, r, PodRef("", Pod(u, Empty, false)));
    }
  }

  /** Sweeping and then suppressing the eligible amounts to each pod's own convergence. */
  lemma SweepThenSuppress(m0: Maps, m1: Maps, r1: Report, m2: Maps, r2: Report, p: PodRef, eligible: seq<PodRef>,
                          hot: bool, candidates: set<Uid>, script: Uid -> Script)
    requires Reached(m1, r1, p, SweepOutcome(m0, p, hot, candidates, script)) && Undisturbed(script(p.pod.uid))
    requires KeptOutside(m1, r1, m2, r2, Uids(eligible))
    requires p in eligible <==> IsEligible(m0, p, hot, candidates, script)
    requires p in eligible <==> p.pod.uid in Uids(eligible)
    requires p in eligible ==> Reached(m2, r2, p, SuppressOutcome(m1, p, script))
    ensures Reached(m2, r2, p, ListedOutcome(m0, p, hot, candidates, script))
  {
    var s := script(p.pod.uid);
    UndisturbedConverge(View(m0, p), p.pod, hot, p.pod.uid in candidates, s);
    if p in eligible {
      SuppressAlike(View(m1, p), View(m0, p), p.pod, s);
      ReachedLasts(m2, r2, m2, r2, p, SuppressOutcome(m1, p, script), SuppressOutcome(m0, p, script));
    } else {
      assert Kept(m1, r1, m2, r2, p);
    }
  }

  /** Restoring a pod that left the list does not depend on what was done to the listed ones. */
  lemma VanishedLast(m0: Maps, r0: Report, m: Maps, r: Report, m': Maps, r': Report,
                     seen: set<Uid>, u: Uid, script: Uid -> Script)
    requires KeptOutside(m0, r0, m, r, seen) && u in m0.owned && u !in seen && u in m.owned
    requires m.owned[u] == m0.owned[u] && m0.owned[u].podRef.pod.uid == u && Undisturbed(script(u))
    requires Reached(m', r', m.owned[u].podRef, VanishedOutcome(m, u, script))
    ensures Reached(m', r', m0.owned[u].podRef, VanishedOutcome(m0, u, script))
  {
    var p := m0.owned[u].podRef;
    assert Kept(m0, r0, m, r, p);
    var l := View(m, p);
    RestoreAlike(l, View(m0, p), Pod(u, Empty, l.owned.value.quota), l.owned.value.rec, script(u));
    ReachedLasts(m', r', m', r', p, VanishedOutcome(m, u, script), VanishedOutcome(m0, u, script));
  }

  lemma EligibleUids(all: seq<PodRef>, eligible: seq<PodRef>)
    requires DistinctUids(all) && forall p :: p in eligible ==> p in all
    ensures Uids(eligible) <= Uids(all)
    ensures forall p :: p in all && p.pod.uid in Uids(eligible) ==> p in eligible
  {
    forall u | u in Uids(eligible)
      ensures exists q :: q in eligible && q in all && q.pod.uid == u
    {
      var i :| 0 <= i < |eligible| && eligible[i].pod.uid == u;
      assert eligible[i] in eligible;
    }
  }

  /** What restoring an owned pod from its own copy comes to. */
  function RestoredEntry(m: Maps, u: Uid, script: Uid -> Script): Outcome
    requires u in m.owned
  {
    var p := m.owned[u].podRef;
    RestorePod(View(m, p), p.pod, m.owned[u].entry.rec, script(u))
  }

  lemma OneEdit(uid: Uid, d: Durable, edit: Edit)
    ensures Replay(uid, d, Others([edit])) == Edited(uid, d, edit)
  {
    assert Others([edit]) == [Other(edit)] && [Other(edit)][1..] == [];
  }

  lemma PutLeavesEntries(m: Maps, p: PodRef, l: Local)
    ensures Put(m, p, l).owned - {p.pod.uid} == m.owned - {p.pod.uid}
  {
  }

  /** Some of these pods, each once. */
  predicate Chosen(some: seq<PodRef>, ps: seq<PodRef>) {
    DistinctUids(some) && forall p :: p in some ==> p in ps
  }

  lemma ChosenGrows(some: seq<PodRef>, ps: seq<PodRef>, p: PodRef)
    requires Chosen(some, ps) && p.pod.uid !in Uids(ps)
    ensures Chosen(some, ps + [p]) && Chosen(some + [p], ps + [p])
  {
    forall k | 0 <= k < |some|
      ensures some[k].pod.uid != p.pod.uid
    {
      assert some[k] in some;
    }
  }

  /** Exactly the pods of the list that are eligible. */
  ghost predicate RightlyChosen(m0: Maps, some: seq<PodRef>, ps: seq<PodRef>, hot: bool, candidates: set<Uid>,
                          script: Uid -> Script)
  {
    forall p :: p in some <==> p in ps && IsEligible(m0, p, hot, candidates, script)
  }

  lemma RightlyChosenGrows(m0: Maps, some: seq<PodRef>, ps: seq<PodRef>, p: PodRef, hot: bool, candidates: set<Uid>,
                           script: Uid -> Script)
    requires RightlyChosen(m0, some, ps, hot, candidates, script)
    ensures RightlyChosen(m0, if IsEligible(m0, p, hot, candidates, script) then some + [p] else some, ps + [p], hot,
                          candidates, script)
  {
  }

  lemma StillOwned(a: map<Uid, OwnedPod>, b: map<Uid, OwnedPod>, u: Uid, rest: set<Uid>)
    requires b - {u} == a - {u}
    ensures forall v :: v in rest - {u} ==> Get(b, v) == Get(a, v)
  {
    forall v | v in rest - {u}
      ensures Get(b, v) == Get(a, v)
    {
      assert Get(b, v) == Get(b - {u}, v) && Get(a, v) == Get(a - {u}, v);
    }
  }

  lemma DistinctMore(ps: seq<PodRef>, p: PodRef)
    requires DistinctUids(ps) && p.pod.uid !in Uids(ps)
    ensures DistinctUids(ps + [p])
  {
  }

  // ---- whole passes that nobody interferes with ----

  predicate AllSwept(m0: Maps, m: Maps, r: Report, ps: seq<PodRef>, hot: bool, candidates: set<Uid>,
                     script: Uid -> Script)
  {
    forall i :: 0 <= i < |ps| ==> Reached(m, r, ps[i], SweepOutcome(m0, ps[i], hot, candidates, script))
  }

  predicate AllSuppressed(m0: Maps, m: Maps, r: Report, ps: seq<PodRef>, script: Uid -> Script) {
    forall i :: 0 <= i < |ps| ==> Reached(m, r, ps[i], SuppressOutcome(m0, ps[i], script))
  }

  predicate AllRecovered(m0: Maps, m: Maps, r: Report, ps: seq<PodRef>, script: Uid -> Script) {
    forall i :: 0 <= i < |ps| ==> Reached(m, r, ps[i], RecoverOutcome(m0, ps[i], script))
  }

  lemma SweepReaches(m0: Maps, r0: Report, m: Maps, r: Report, done: seq<PodRef>, p: PodRef, hot: bool,
                     candidates: set<Uid>, script: Uid -> Script)
    requires AllSwept(m0, m, r, done, hot, candidates, script) && KeptOutside(m0, r0, m, r, Uids(done))
    requires p.pod.uid !in Uids(done) && Undisturbed(script(p.pod.uid))
    ensures var o := SweepOutcome(m, p, hot, candidates, script);
            var m', r' := Put(m, p, o.l), Noted(r, p.pod.uid, o.fx, o.err);
            && AllSwept(m0, m', r', done + [p], hot, candidates, script)
            && KeptOutside(m0, r0, m', r', Uids(done + [p]))
    ensures IsEligible(m, p, hot, candidates, script) == IsEligible(m0, p, hot, candidates, script)
  {
    assert Kept(m0, r0, m, r, p);
    SweepAlike(View(m, p), View(m0, p), p.pod, hot, p.pod.uid in candidates, script(p.pod.uid));
    Visit(m0, r0, m, r, done, p, SweepOutcome(m, p, hot, candidates, script),
          q => SweepOutcome(m0, q, hot, candidates, script));
  }

  lemma SuppressReaches(m0: Maps, r0: Report, m: Maps, r: Report, done: seq<PodRef>, p: PodRef, script: Uid -> Script)
    requires AllSuppressed(m0, m, r, done, script) && KeptOutside(m0, r0, m, r, Uids(done))
    requires p.pod.uid !in Uids(done) && Undisturbed(script(p.pod.uid))
    ensures var o := SuppressOutcome(m, p, script);
            var m', r' := Put(m, p, o.l), Noted(r, p.pod.uid, o.fx, o.err);
            AllSuppressed(m0, m', r', done + [p], script) && KeptOutside(m0, r0, m', r', Uids(done + [p]))
  {
    assert Kept(m0, r0, m, r, p);
    SuppressAlike(View(m, p), View(m0, p), p.pod, script(p.pod.uid));
    Visit(m0, r0, m, r, done, p, SuppressOutcome(m, p, script), q => SuppressOutcome(m0, q, script));
  }

  lemma RecoverReaches(m0: Maps, r0: Report, m: Maps, r: Report, done: seq<PodRef>, p: PodRef, script: Uid -> Script)
    requires AllRecovered(m0, m, r, done, script) && KeptOutside(m0, r0, m, r, Uids(done))
    requires p.pod.uid !in Uids(done) && Undisturbed(script(p.pod.uid))
    ensures var o := RecoverOutcome(m, p, script);
            var m', r' := Put(m, p, o.l), Noted(r, p.pod.uid, o.fx, o.err);
            AllRecovered(m0, m', r', done + [p], script) && KeptOutside(m0, r0, m', r', Uids(done + [p]))
  {
    assert Kept(m0, r0, m, r, p);
    RecoverAlike(View(m, p), View(m0, p), p.pod, script(p.pod.uid));
    Visit(m0, r0, m, r, done, p, RecoverOutcome(m, p, script), q => RecoverOutcome(m0, q, script));
  }

  lemma CopyReaches(m0: Maps, r0: Report, m: Maps, r: Report, done: seq<PodRef>, u: Uid, script: Uid -> Script)
    requires OwnCopies(m0) && u in m0.owned && Get(m.owned, u) == Some(m0.owned[u])
    requires AllCopiesReached(m0, m, r, done, script) && KeptOutside(m0, r0, m, r, Uids(done))
    requires u !in Uids(done) && Undisturbed(script(u))
    ensures var p, o := m0.owned[u].podRef, RestoredEntry(m, u, script);
            var m', r' := Put(m, p, o.l), Noted(r, u, o.fx, o.err);
            AllCopiesReached(m0, m', r', done + [p], script) && KeptOutside(m0, r0, m', r', Uids(done + [p]))
  {
    var p := m0.owned[u].podRef;
    assert Kept(m0, r0, m, r, p);
    CopyAlike(m0, p, View(m, p), script);
    Visit(m0, r0, m, r, done, p, RestoredEntry(m, u, script), q => CopyOutcome(m0, q, script));
  }

  /** Every listed pod has come out as its own convergence, every owned pod off the list as its own restoring, and every
      other pod as it was. */
  ghost predicate ListConverged(m0: Maps, m: Maps, r: Report, hot: bool, all: seq<PodRef>, candidates: set<Uid>,
                            script: Uid -> Script)
  {
    && (forall i :: 0 <= i < |all| ==> Reached(m, r, all[i], ListedOutcome(m0, all[i], hot, candidates, script)))
    && (forall u :: u in m0.owned && u !in Uids(all) ==>
          Reached(m, r, m0.owned[u].podRef, VanishedOutcome(m0, u, script)))
    && KeptOutside(m0, Report(map[], {}), m, r, Uids(all) + m0.owned.Keys)
  }

  ghost predicate ListRecovered(m0: Maps, m: Maps, r: Report, all: seq<PodRef>, script: Uid -> Script) {
    && (forall i :: 0 <= i < |all| ==> Reached(m, r, all[i], RecoverOutcome(m0, all[i], script)))
    && (forall u :: u in m0.owned && u !in Uids(all) ==>
          Reached(m, r, m0.owned[u].podRef, VanishedOutcome(m0, u, script)))
    && KeptOutside(m0, Report(map[], {}), m, r, Uids(all) + m0.owned.Keys)
  }

  /** The last loop leaves what the earlier ones did to the listed pods, and treats the others as if alone. */
  lemma LastLoop(m0: Maps, m1: Maps, r1: Report, m: Maps, r: Report, all: seq<PodRef>, outcome: PodRef -> Outcome,
                 script: Uid -> Script)
    requires OwnCopies(m0) && forall u :: Undisturbed(script(u))
    requires AllReached(m1, r1, all, outcome) && KeptOutside(m0, Report(map[], {}), m1, r1, Uids(all))
    requires forall u :: u in m1.owned && u !in Uids(all) ==>
               Reached(m, r, m1.owned[u].podRef, VanishedOutcome(m1, u, script))
    requires KeptOutside(m1, r1, m, r, m1.owned.Keys - Uids(all))
    ensures AllReached(m, r, all, outcome)
    ensures forall u :: u in m0.owned && u !in Uids(all) ==>
              Reached(m, r, m0.owned[u].podRef, VanishedOutcome(m0, u, script))
    ensures KeptOutside(m0, Report(map[], {}), m, r, Uids(all) + m0.owned.Keys)
  {
    var r0 := Report(map[], {});
    EntriesLast(m0, r0, m1, r1, Uids(all));
    KeptJoins(m0, r0, m1, r1, m, r, Uids(all), m1.owned.Keys - Uids(all));
    assert Uids(all) + (m1.owned.Keys - Uids(all)) == Uids(all) + m0.owned.Keys;
    forall i | 0 <= i < |all|
      ensures Reached(m, r, all[i], outcome(all[i]))
    {
      assert all[i].pod.uid in Uids(all);
      ReachedLasts(m1, r1, m, r, all[i], outcome(all[i]), outcome(all[i]));
    }
    forall u | u in m0.owned && u !in Uids(all)
      ensures Reached(m, r, m0.owned[u].podRef, VanishedOutcome(m0, u, script))
    {
      VanishedLast(m0, r0, m1, r1, m, r, Uids(all), u, script);
    }
  }

  /** The three loops of a pass that nobody interferes with amount to each pod's own convergence. */
  lemma LoopsConverge(m0: Maps, m1: Maps, r1: Report, m2: Maps, r2: Report, m: Maps, r: Report, eligible: seq<PodRef>,
                      hot: bool, all: seq<PodRef>, candidates: set<Uid>, script: Uid -> Script)
    requires DistinctUids(all) && OwnCopies(m0) && forall u :: Undisturbed(script(u))
    requires AllSwept(m0, m1, r1, all, hot, candidates, script)
    requires KeptOutside(m0, Report(map[], {}), m1, r1, Uids(all))
    requires RightlyChosen(m0, eligible, all, hot, candidates, script)
    requires if hot then AllSuppressed(m1, m2, r2, eligible, script) else m2 == m1 && r2 == r1
    requires KeptOutside(m1, r1, m2, r2, Uids(eligible))
    requires forall u :: u in m2.owned && u !in Uids(all) ==>
               Reached(m, r, m2.owned[u].podRef, VanishedOutcome(m2, u, script))
    requires KeptOutside(m2, r2, m, r, m2.owned.Keys - Uids(all))
    ensures ListConverged(m0, m, r, hot, all, candidates, script)
  {
    var r0 := Report(map[], {});
    var f := p => ListedOutcome(m0, p, hot, candidates, script);
    EligibleUids(all, eligible);
    KeptJoins(m0, r0, m1, r1, m2, r2, Uids(all), Uids(eligible));
    assert Uids(all) + Uids(eligible) == Uids(all);
    forall i | 0 <= i < |all|
      ensures Reached(m2, r2, all[i], f(all[i]))
    {
      assert all[i] in eligible ==> exists j :: 0 <= j < |eligible| && eligible[j] == all[i];
      SweepThenSuppress(m0, m1, r1, m2, r2, all[i], eligible, hot, candidates, script);
    }
    LastLoop(m0, m2, r2, m, r, all, f, script);
    assert forall i :: 0 <= i < |all| ==> Reached(m, r, all[i], f(all[i]));
  }

  lemma LoopsRecover(m0: Maps, m1: Maps, r1: Report, m: Maps, r: Report, all: seq<PodRef>, script: Uid -> Script)
    requires OwnCopies(m0) && forall u :: Undisturbed(script(u))
    requires AllRecovered(m0, m1, r1, all, script)
    requires KeptOutside(m0, Report(map[], {}), m1, r1, Uids(all))
    requires forall u :: u in m1.owned && u !in Uids(all) ==>
               Reached(m, r, m1.owned[u].podRef, VanishedOutcome(m1, u, script))
    requires KeptOutside(m1, r1, m, r, m1.owned.Keys - Uids(all))
    ensures ListRecovered(m0, m, r, all, script)
  {
    var f := p => RecoverOutcome(m0, p, script);
    assert forall i :: 0 <= i < |all| ==> Reached(m1, r1, all[i], f(all[i]));
    LastLoop(m0, m1, r1, m, r, all, f, script);
    assert forall i :: 0 <= i < |all| ==> Reached(m, r, all[i], f(all[i]));
  }
}
