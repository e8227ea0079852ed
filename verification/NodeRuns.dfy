/**
 The whole node. The guard visits its pods one after another, and before, between and within those visits other actors
 act and the process may die. A run is a sequence of such turns on the shared maps; every pod, whatever happens to the
 others, sees a run of its own in which write-ahead ownership holds.
 */
module NodeRuns {
  import opened Wrappers
  import opened Markers
  import opened Ownership
  import opened OwnershipRuns
  import opened OwnershipLaws
  import opened GuardMaps

  /** One visit to one pod, or one edit by somebody else. */
  datatype Act =
    | Meddle(p: PodRef, edit: Edit)
    | SweepOf(p: PodRef, hot: bool, candidate: bool, s: Script)
    | SuppressOf(p: PodRef, s: Script)
    | RecoverOf(p: PodRef, s: Script)
    | RestoreOf(p: PodRef, s: Script)   // an owned pod off the list, from the copy kept with its entry

  function ActOn(l: Local, a: Act): Outcome {
    match a
    case Meddle(p, edit) => Outcome(l.(d := Edited(p.pod.uid, l.d, edit)), [Other(edit)], Ok)
    case SweepOf(p, hot, candidate, s) => Sweep(l, p.pod, hot, candidate, s)
    case SuppressOf(p, s) => SuppressPod(l, p.pod, s)
    case RecoverOf(p, s) => RecoverPod(l, p.pod, s)
    case RestoreOf(p, s) =>
      if l.owned.None? then Outcome(l, [], Ok) else RestorePod(l, p.pod, l.owned.value.rec, s)
  }

  /** An act, and after how many of its effects the process dies, if it does. */
  datatype Turn = Turn(act: Act, dies: Option<nat>)

  /** The effects that happen. */
  function Performed(m: Maps, t: Turn): seq<Effect> {
    var fx := ActOn(View(m, t.act.p), t.act).fx;
    if t.dies.Some? && t.dies.value < |fx| then fx[..t.dies.value] else fx
  }

  /** A death keeps what is durable and loses every ownership entry. */
  function Play(m: Maps, t: Turn): Maps {
    var p := t.act.p;
    var l := View(m, p);
    if t.dies.None? then Put(m, p, ActOn(l, t.act).l)
    else Put(m, p, l.(d := Replay(p.pod.uid, l.d, Performed(m, t)))).(owned := map[])
  }

  /** Steps taken one after another. */
  function Fold<S, T>(step: (S, T) -> S, s: S, ts: seq<T>): S {
    if ts == [] then s else step(Fold(step, s, ts[..|ts| - 1]), ts[|ts| - 1])
  }

  lemma FoldNext<S, T>(step: (S, T) -> S, s: S, ts: seq<T>, t: T)
    ensures Fold(step, s, ts + [t]) == step(Fold(step, s, ts), t)
  {
    assert (ts + [t])[..|ts|] == ts;
  }

  lemma {:induction false} FoldBoth<S, T>(step: (S, T) -> S, s: S, a: seq<T>, b: seq<T>)
    ensures Fold(step, s, a + b) == Fold(step, Fold(step, s, a), b)
    decreases |b|
  {
    if b == [] {
      assert a + b == a;
    } else {
      FoldBoth(step, s, a, b[..|b| - 1]);
      assert (a + b)[..|a + b| - 1] == a + b[..|b| - 1];
    }
  }

  /** What every fitting step keeps holds at the end. */
  lemma {:induction false} FoldKeeps<S(!new), T(!new)>(step: (S, T) -> S, s: S, ts: seq<T>,
                                                     inv: S -> bool, fits: (S, T) -> bool)
    requires inv(s) && forall n :: 0 <= n < |ts| ==> fits(Fold(step, s, ts[..n]), ts[n])
    requires forall s', t :: inv(s') && fits(s', t) ==> inv(step(s', t))
    ensures inv(Fold(step, s, ts))
    decreases |ts|
  {
    if ts != [] {
      var init := ts[..|ts| - 1];
      forall n | 0 <= n < |init|
        ensures fits(Fold(step, s, init[..n]), init[n])
      {
        assert init[..n] == ts[..n] && init[n] == ts[n];
      }
      FoldKeeps(step, s, init, inv, fits);
    }
  }

  /** Where a run leads. */
  function End(m: Maps, turns: seq<Turn>): Maps {
    Fold(Play, m, turns)
  }

  /** Runs join: passes, edits and deaths in a row are one run. */
  lemma RunsJoin(m: Maps, a: seq<Turn>, b: seq<Turn>)
    ensures End(m, a + b) == End(End(m, a), b)
  {
    FoldBoth(Play, m, a, b);
  }

  // ---- the turns of a pass ----

  /** Something another actor does while a pass is under way. */
  datatype Meddling = Meddling(p: PodRef, edit: Edit)

  /** What other actors do before each visit of a pass. */
  type Interference = nat -> seq<Meddling>

  /** The visits of a run, without what others do. */
  function Visits(turns: seq<Turn>): seq<Act> {
    if turns == [] then []
    else
      var t := turns[|turns| - 1];
      Visits(turns[..|turns| - 1]) + (if t.act.Meddle? then [] else [t.act])
  }

  /** The pods whose sweep found them eligible, each by what it met. */
  function EligibleIn(m: Maps, turns: seq<Turn>): seq<PodRef> {
    if turns == [] then []
    else
      var before, t := turns[..|turns| - 1], turns[|turns| - 1];
      EligibleIn(m, before) + (if FindsEligible(End(m, before), t.act) then [t.act.p] else [])
  }

  predicate FindsEligible(m: Maps, a: Act) {
    a.SweepOf? && Eligible(View(m, a.p), a.p.pod, a.hot, a.candidate, a.s)
  }

  /** Nobody dies, and every edit is one of these. */
  ghost predicate Among(turns: seq<Turn>, others: Interference) {
    forall t :: t in turns ==>
      t.dies.None? && (t.act.Meddle? ==> exists n :: Meddling(t.act.p, t.act.edit) in others(n))
  }

  function Sweeps(ps: seq<PodRef>, hot: bool, candidates: set<Uid>, script: Uid -> Script): seq<Act> {
    seq(|ps|, i requires 0 <= i < |ps| => SweepOf(ps[i], hot, ps[i].pod.uid in candidates, script(ps[i].pod.uid)))
  }

  function Suppressions(ps: seq<PodRef>, script: Uid -> Script): seq<Act> {
    seq(|ps|, i requires 0 <= i < |ps| => SuppressOf(ps[i], script(ps[i].pod.uid)))
  }

  function Recoveries(ps: seq<PodRef>, script: Uid -> Script): seq<Act> {
    seq(|ps|, i requires 0 <= i < |ps| => RecoverOf(ps[i], script(ps[i].pod.uid)))
  }

  function Restores(ps: seq<PodRef>, script: Uid -> Script): seq<Act> {
    seq(|ps|, i requires 0 <= i < |ps| => RestoreOf(ps[i], script(ps[i].pod.uid)))
  }

  lemma SweepsGrow(ps: seq<PodRef>, p: PodRef, hot: bool, candidates: set<Uid>, script: Uid -> Script)
    ensures Sweeps(ps + [p], hot, candidates, script) ==
            Sweeps(ps, hot, candidates, script) + [SweepOf(p, hot, p.pod.uid in candidates, script(p.pod.uid))]
  {
  }

  lemma SuppressionsGrow(ps: seq<PodRef>, p: PodRef, script: Uid -> Script)
    ensures Suppressions(ps + [p], script) == Suppressions(ps, script) + [SuppressOf(p, script(p.pod.uid))]
  {
  }

  lemma RecoveriesGrow(ps: seq<PodRef>, p: PodRef, script: Uid -> Script)
    ensures Recoveries(ps + [p], script) == Recoveries(ps, script) + [RecoverOf(p, script(p.pod.uid))]
  {
  }

  lemma RestoresGrow(ps: seq<PodRef>, p: PodRef, script: Uid -> Script)
    ensures Restores(ps + [p], script) == Restores(ps, script) + [RestoreOf(p, script(p.pod.uid))]
  {
  }

  /** The three loops of a pass, and the owned pods off the list that the last one restores. */
  datatype Pass = Pass(first: seq<Turn>, second: seq<Turn>, third: seq<Turn>, gone: seq<PodRef>)

  function TurnsOf(pass: Pass): seq<Turn> {
    pass.first + pass.second + pass.third
  }

  /** `gone` are the copies kept for the owned pods that are not on the list, each once. */
  predicate GoneFrom(m: Maps, gone: seq<PodRef>, listed: set<Uid>) {
    AreCopies(m, gone) && DistinctUids(gone) && Uids(gone) == m.owned.Keys - listed
  }

  /** The visits of converge: a sweep over the list, then the suppression of the pods found eligible, in that order and
      only while hot, then the restoring of every owned pod that is off the list. */
  predicate ConvergeVisits(m: Maps, pass: Pass, hot: bool, all: seq<PodRef>,
                           candidates: set<Uid>, script: Uid -> Script)
  {
    && Visits(pass.first) == Sweeps(all, hot, candidates, script)
    && Visits(pass.second) == (if hot then Suppressions(EligibleIn(m, pass.first), script) else [])
    && GoneFrom(End(m, pass.first + pass.second), pass.gone, Uids(all))
    && Visits(pass.third) == Restores(pass.gone, script)
  }

  /** The visits of Recover. */
  predicate RecoverVisits(m: Maps, pass: Pass, all: seq<PodRef>, script: Uid -> Script) {
    && Visits(pass.first) == Recoveries(all, script) && pass.second == []
    && GoneFrom(End(m, pass.first), pass.gone, Uids(all))
    && Visits(pass.third) == Restores(pass.gone, script)
  }

  /** One more turn. */
  lemma TurnTaken(m: Maps, turns: seq<Turn>, a: Act, others: Interference)
    requires Among(turns, others)
    requires a.Meddle? ==> exists n :: Meddling(a.p, a.edit) in others(n)
    ensures var now, turns' := End(m, turns), turns + [Turn(a, None)];
            && End(m, turns') == Put(now, a.p, ActOn(View(now, a.p), a).l)
            && Visits(turns') == Visits(turns) + (if a.Meddle? then [] else [a])
            && EligibleIn(m, turns') == EligibleIn(m, turns) + (if FindsEligible(now, a) then [a.p] else [])
            && Among(turns', others)
  {
    FoldNext(Play, m, turns, Turn(a, None));
    assert (turns + [Turn(a, None)])[..|turns|] == turns;
  }

  // ---- what one pod sees ----

  /** An edit made on behalf of one pod that another pod of the same name sees: it is about the object. */
  predicate Visible(uid: Uid, e: Edit) {
    e.Touch? || e.Tamper? || e.DeletePod? || (e.CreatePod? && e.uid != uid)
  }

  function ObjectEdits(uid: Uid, fx: seq<Effect>): seq<Edit>
    decreases |fx|
  {
    if fx == [] then []
    else (if fx[0].Other? && Visible(uid, fx[0].edit) then [fx[0].edit] else []) + ObjectEdits(uid, fx[1..])
  }

  /** A turn, as pod `q` sees it: its own effects, or what others do to the object under its name. */
  function SeenBy(q: PodRef, m: Maps, t: Turn): seq<Effect> {
    var p, fx := t.act.p, Performed(m, t);
    if p.pod.uid == q.pod.uid then fx
    else if p.key == q.key then Others(ObjectEdits(p.pod.uid, fx))
    else []
  }

  /** The pod's own history after a turn. */
  function HistoryAfter(q: PodRef, m: Maps, h: History, t: Turn): History {
    After(q.pod.uid, World(View(m, q).d, h), SeenBy(q, m, t)).h
  }

  /** The maps, and what one pod's history has been. */
  datatype Watch = Watch(m: Maps, h: History)

  function Observe(q: PodRef, w: Watch, t: Turn): Watch {
    Watch(Play(w.m, t), HistoryAfter(q, w.m, w.h, t))
  }

  function Observer(q: PodRef): (Watch, Turn) -> Watch {
    (w, t) => Observe(q, w, t)
  }

  /** A run as pod `q` watches it. */
  function Watched(q: PodRef, w: Watch, turns: seq<Turn>): Watch {
    Fold(Observer(q), w, turns)
  }

  predicate NeverCreates(uid: Uid, fx: seq<Effect>) {
    forall i :: 0 <= i < |fx| && fx[i].Other? && fx[i].edit.CreatePod? ==> fx[i].edit.uid != uid
  }

  /** What the surroundings guarantee to pod `q`: its UID is under one name and is not used again, and a suppression is
      never shown a marker older than the guard's own last clear. */
  predicate Fits(q: PodRef, w: Watch, t: Turn) {
    var p := t.act.p;
    if p.pod.uid == q.pod.uid then p.key == q.key && (t.act.SuppressOf? ==> p.pod.cached in w.h.recent)
    else NeverCreates(q.pod.uid, Performed(w.m, t))
  }

  predicate FitsRun(q: PodRef, w: Watch, turns: seq<Turn>) {
    forall n :: 0 <= n < |turns| ==> Fits(q, Watched(q, w, turns[..n]), turns[n])
  }

  // ---- effects account for all changes, and patches hit the pod's own object ----

  predicate OwnPatches(uid: Uid, d: Durable, fx: seq<Effect>)
    decreases |fx|
  {
    fx == [] || ((fx[0].Patched? ==> Mine(uid, d)) && OwnPatches(uid, Step(uid, d, fx[0]), fx[1..]))
  }

  predicate Traced(uid: Uid, l: Local, o: Outcome) {
    o.l.d == Replay(uid, l.d, o.fx) && OwnPatches(uid, l.d, o.fx)
  }

  lemma {:induction false} TracedJoin(uid: Uid, d: Durable, a: seq<Effect>, b: seq<Effect>)
    requires OwnPatches(uid, d, a) && OwnPatches(uid, Replay(uid, d, a), b)
    ensures OwnPatches(uid, d, a + b) && Replay(uid, d, a + b) == Replay(uid, Replay(uid, d, a), b)
    decreases |a|
  {
    if a == [] {
      assert a + b == b;
    } else {
      TracedJoin(uid, Step(uid, d, a[0]), a[1..], b);
      assert (a + b)[1..] == a[1..] + b;
    }
  }

  lemma {:induction false} OwnPatchesCut(uid: Uid, d: Durable, fx: seq<Effect>, k: nat)
    requires OwnPatches(uid, d, fx) && k <= |fx|
    ensures OwnPatches(uid, d, fx[..k])
    decreases |fx|
  {
    if k > 0 {
      OwnPatchesCut(uid, Step(uid, d, fx[0]), fx[1..], k - 1);
      assert fx[..k][1..] == fx[1..][..k - 1];
    }
  }

  lemma {:induction false} OthersPatchNothing(uid: Uid, d: Durable, edits: seq<Edit>)
    ensures OwnPatches(uid, d, Others(edits))
    decreases |edits|
  {
    if edits != [] {
      OthersPatchNothing(uid, Step(uid, d, Other(edits[0])), edits[1..]);
      assert Others(edits)[1..] == Others(edits[1..]);
    }
  }

  lemma OneMore(uid: Uid, d: Durable, edits: seq<Edit>, e: Effect)
    requires e.Patched? ==> Mine(uid, Replay(uid, d, Others(edits)))
    ensures var fx := Others(edits) + [e];
            OwnPatches(uid, d, fx) && Replay(uid, d, fx) == Step(uid, Replay(uid, d, Others(edits)), e)
  {
    OthersPatchNothing(uid, d, edits);
    var mid := Replay(uid, d, Others(edits));
    assert [e][1..] == [] && Replay(uid, mid, [e]) == Step(uid, mid, e);
    TracedJoin(uid, d, Others(edits), [e]);
  }

  lemma PatchTraced(uid: Uid, l: Local, want: Want, s: ApiScript)
    ensures Traced(uid, l, PatchMarker(uid, l, want, s))
  {
    OthersPatchNothing(uid, l.d, s.between);
    if Mine(uid, Replay(uid, l.d, Others(s.between))) {
      OneMore(uid, l.d, s.between, Patched(Value(want)));
    }
  }

  lemma WriteTraced(uid: Uid, l: Local, knob: string, value: string, s: Script)
    ensures Traced(uid, l, WriteKnob(uid, l, knob, value, s))
  {
    OthersPatchNothing(uid, l.d, s.gap);
    OneMore(uid, l.d, s.gap, Wrote(knob, value));
  }

  lemma ThenTraced(uid: Uid, l: Local, first: Outcome, second: Outcome)
    requires Traced(uid, l, first) && Traced(uid, first.l, second)
    ensures Traced(uid, l, Then(first, second))
  {
    TracedJoin(uid, l.d, first.fx, second.fx);
  }

  lemma RestoreTraced(l: Local, pod: Pod, rec: Record, s: Script)
    ensures Traced(pod.uid, l, RestorePod(l, pod, rec, s))
  {
    PatchTraced(pod.uid, l, ClearRecord(rec), s.api);
    if l.d.cg.Some? && Knob(l.d.cg.value, rec.knob) == rec.suppressed {
      var write := WriteKnob(pod.uid, l, rec.knob, rec.restore, s);
      WriteTraced(pod.uid, l, rec.knob, rec.restore, s);
      PatchTraced(pod.uid, write.l, ClearRecord(rec), s.api);
      ThenTraced(pod.uid, l, write, Release(pod.uid, write.l, rec, s.api));
    }
  }

  lemma SuppressTraced(l: Local, pod: Pod, s: Script)
    ensures Traced(pod.uid, l, SuppressPod(l, pod, s))
  {
    match StateForPod(l, pod)
    case Invalid =>
    case Unmarked =>
      var mark := PatchMarker(pod.uid, l, SetTo(FREEZE_RECORD), s.api);
      var l' := mark.l.(owned := Some(Owned(FREEZE_RECORD, true, pod.quota)));
      PatchTraced(pod.uid, l, SetTo(FREEZE_RECORD), s.api);
      WriteTraced(pod.uid, l', FREEZE, FROZEN, s);
      ThenTraced(pod.uid, l, mark.(l := l'), WriteKnob(pod.uid, l', FREEZE, FROZEN, s));
    case Marked(rec) =>
      WriteTraced(pod.uid, l, rec.knob, rec.suppressed, s);
  }

  lemma SweepTraced(l: Local, pod: Pod, hot: bool, candidate: bool, s: Script)
    ensures Traced(pod.uid, l, Sweep(l, pod, hot, candidate, s)) && Traced(pod.uid, l, RecoverPod(l, pod, s))
  {
    match StateForPod(l, pod)
    case Invalid => PatchTraced(pod.uid, l, ClearRaw(pod.cached), s.api);
    case Unmarked =>
    case Marked(rec) => RestoreTraced(l, pod, rec, s);
  }

  lemma ActTraced(l: Local, a: Act)
    ensures Traced(a.p.pod.uid, l, ActOn(l, a))
  {
    match a
    case Meddle(p, edit) => assert [Other(edit)][1..] == [];
    case SweepOf(p, hot, candidate, s) => SweepTraced(l, p.pod, hot, candidate, s);
    case SuppressOf(p, s) => SuppressTraced(l, p.pod, s);
    case RecoverOf(p, s) => SweepTraced(l, p.pod, true, true, s);
    case RestoreOf(p, s) =>
      if l.owned.Some? {
        RestoreTraced(l, p.pod, l.owned.value.rec, s);
      }
  }

  /** What a turn does to durable state is what its effects do. */
  lemma PerformedTraced(m: Maps, t: Turn)
    ensures var p := t.act.p;
            && OwnPatches(p.pod.uid, View(m, p).d, Performed(m, t))
            && View(Play(m, t), p).d == Replay(p.pod.uid, View(m, p).d, Performed(m, t))
  {
    var p := t.act.p;
    var l := View(m, p);
    ActTraced(l, t.act);
    var fx := ActOn(l, t.act).fx;
    if t.dies.Some? && t.dies.value < |fx| {
      OwnPatchesCut(p.pod.uid, l.d, fx, t.dies.value);
    }
  }

  // ---- a turn on another pod ----

  /** The same object, or two objects that are both not this pod's. */
  predicate SameObject(uid: Uid, a: Option<ApiPod>, b: Option<ApiPod>) {
    a == b || (a.Some? && b.Some? && a.value.uid != uid && b.value.uid != uid)
  }

  /** Replaying what is visible of another pod's effects gives the object this pod would see. */
  lemma {:induction false} VisibleReplay(uid: Uid, d: Durable, other: Uid, d': Durable, fx: seq<Effect>)
    requires uid != other && SameObject(uid, d.at, d'.at) && OwnPatches(other, d', fx) && NeverCreates(uid, fx)
    ensures var end := Replay(uid, d, Others(ObjectEdits(other, fx)));
            SameObject(uid, end.at, Replay(other, d', fx).at) && end.cg == d.cg
    decreases |fx|
  {
    if fx == [] {
      assert Others(ObjectEdits(other, fx)) == [];
    } else {
      var edits := ObjectEdits(other, fx);
      var next := if fx[0].Other? && Visible(other, fx[0].edit) then Step(uid, d, fx[0]) else d;
      VisibleReplay(uid, next, other, Step(other, d', fx[0]), fx[1..]);
      if fx[0].Other? && Visible(other, fx[0].edit) {
        assert edits[1..] == ObjectEdits(other, fx[1..]);
        assert Others(edits)[0] == fx[0] && Others(edits)[1..] == Others(edits[1..]);
      } else {
        assert edits == ObjectEdits(other, fx[1..]);
      }
    }
  }

  /** Another pod's turn reaches this one only through the object under a common name, and through a death. */
  lemma OtherTurn(q: PodRef, m: Maps, t: Turn)
    requires t.act.p.pod.uid != q.pod.uid && NeverCreates(q.pod.uid, Performed(m, t))
    ensures var l, l' := View(m, q), View(Play(m, t), q);
            && l'.d.cg == l.d.cg && l'.owned == (if t.dies.Some? then None else l.owned)
            && SameObject(q.pod.uid, Replay(q.pod.uid, l.d, SeenBy(q, m, t)).at, l'.d.at)
            && Replay(q.pod.uid, l.d, SeenBy(q, m, t)).cg == l.d.cg
  {
    PerformedTraced(m, t);
    if t.act.p.key == q.key {
      VisibleReplay(q.pod.uid, View(m, q).d, t.act.p.pod.uid, View(m, t.act.p).d, Performed(m, t));
    }
  }

  // ---- every turn keeps every pod's invariant ----

  lemma SweepKeeps(uid: Uid, l: Local, h: History, pod: Pod, hot: bool, candidate: bool, s: Script)
    requires Inv(uid, l, h) && pod.uid == uid
    ensures Keeps(uid, l, h, Sweep(l, pod, hot, candidate, s))
  {
    RecoverKeeps(uid, l, h, pod, s);
  }

  lemma ActKeeps(uid: Uid, l: Local, h: History, a: Act)
    requires Inv(uid, l, h) && a.p.pod.uid == uid && (a.SuppressOf? ==> a.p.pod.cached in h.recent)
    ensures Keeps(uid, l, h, ActOn(l, a))
  {
    match a
    case Meddle(p, edit) =>
      OthersKeep(uid, World(l.d, h), [edit]);
      assert Others([edit]) == [Other(edit)];
    case SweepOf(p, hot, candidate, s) => SweepKeeps(uid, l, h, p.pod, hot, candidate, s);
    case SuppressOf(p, s) => SuppressKeeps(uid, l, h, p.pod, s);
    case RecoverOf(p, s) => RecoverKeeps(uid, l, h, p.pod, s);
    case RestoreOf(p, s) =>
      if l.owned.Some? {
        RestoreKeeps(uid, l, h, p.pod, l.owned.value.rec, s);
      }
  }

  lemma OrderlyCuts(uid: Uid, w: World, all: seq<Effect>, fx: seq<Effect>)
    requires Safe(uid, w) && Orderly(uid, w, all) && fx <= all
    ensures SafeCuts(uid, w, fx)
  {
    forall k | 0 <= k <= |fx|
      ensures Safe(uid, After(uid, w, fx[..k]))
    {
      OrderlyIsSafe(uid, w, all, k);
      assert fx[..k] == all[..k];
    }
  }

  /** The invariant does not look at a foreign object under the pod's name. */
  lemma InvSame(uid: Uid, l: Local, l': Local, h: History)
    requires Inv(uid, l, h) && SameObject(uid, l.d.at, l'.d.at) && l'.d.cg == l.d.cg
    requires l'.owned == l.owned || l'.owned.None?
    ensures Inv(uid, l', h)
  {
  }

  lemma OwnTurnKeeps(q: PodRef, m: Maps, h: History, t: Turn)
    requires Inv(q.pod.uid, View(m, q), h) && Fits(q, Watch(m, h), t) && t.act.p.pod.uid == q.pod.uid
    ensures var w := World(View(m, q).d, h);
            && Inv(q.pod.uid, View(Play(m, t), q), After(q.pod.uid, w, SeenBy(q, m, t)).h)
            && SafeCuts(q.pod.uid, w, SeenBy(q, m, t))
  {
    var uid, l, w := q.pod.uid, View(m, q), World(View(m, q).d, h);
    assert View(m, t.act.p) == l;
    ActKeeps(uid, l, h, t.act);
    var o, fx := ActOn(l, t.act), Performed(m, t);
    OrderlyCuts(uid, w, o.fx, fx);
    assert fx[..|fx|] == fx;
    PerformedTraced(m, t);
  }

  lemma OtherTurnKeeps(q: PodRef, m: Maps, h: History, t: Turn)
    requires Inv(q.pod.uid, View(m, q), h) && Fits(q, Watch(m, h), t) && t.act.p.pod.uid != q.pod.uid
    ensures var w := World(View(m, q).d, h);
            && Inv(q.pod.uid, View(Play(m, t), q), After(q.pod.uid, w, SeenBy(q, m, t)).h)
            && SafeCuts(q.pod.uid, w, SeenBy(q, m, t))
  {
    var uid, l, w, seen := q.pod.uid, View(m, q), World(View(m, q).d, h), SeenBy(q, m, t);
    var edits := if t.act.p.key == q.key then ObjectEdits(t.act.p.pod.uid, Performed(m, t)) else [];
    assert seen == Others(edits);
    OthersKeep(uid, w, edits);
    OrderlyCuts(uid, w, seen, seen);
    OtherTurn(q, m, t);
    InvSame(uid, l.(d := Replay(uid, l.d, seen)), View(Play(m, t), q), After(uid, w, seen).h);
  }

  /** The pod's invariant holds. */
  predicate Holds(q: PodRef, w: Watch) {
    Inv(q.pod.uid, View(w.m, q), w.h)
  }

  /** No cut through what the pod sees of the turn is unsafe; and unless the process dies in it, a pod it owns or marks
      in this turn is not forgotten while its object carries the marker. */
  predicate SafeTurn(q: PodRef, w: Watch, t: Turn) {
    && SafeCuts(q.pod.uid, World(View(w.m, q).d, w.h), SeenBy(q, w.m, t))
    && (t.dies.None? ==> Remembers(q.pod.uid, View(w.m, q), Outcome(View(Play(w.m, t), q), SeenBy(q, w.m, t), Ok)))
  }

  lemma ActRemembers(uid: Uid, l: Local, h: History, a: Act)
    requires Inv(uid, l, h) && a.p.pod.uid == uid
    ensures Remembers(uid, l, ActOn(l, a))
  {
    match a
    case Meddle(p, edit) =>
    case SweepOf(p, hot, candidate, s) => SweepRemembers(l, p.pod, hot, candidate, s);
    case SuppressOf(p, s) => SuppressRemembers(l, p.pod, s);
    case RecoverOf(p, s) => SweepRemembers(l, p.pod, false, false, s);
    case RestoreOf(p, s) =>
      if l.owned.Some? {
        RestoreRemembers(l, p.pod, l.owned.value.rec, s);
      }
  }

  lemma TurnRemembers(q: PodRef, w: Watch, t: Turn)
    requires Holds(q, w) && Fits(q, w, t) && t.dies.None?
    ensures Remembers(q.pod.uid, View(w.m, q), Outcome(View(Play(w.m, t), q), SeenBy(q, w.m, t), Ok))
  {
    if t.act.p.pod.uid == q.pod.uid {
      assert View(w.m, t.act.p) == View(w.m, q);
      ActRemembers(q.pod.uid, View(w.m, q), w.h, t.act);
    } else {
      OtherTurn(q, w.m, t);
      assert !Marks(SeenBy(q, w.m, t));
    }
  }

  lemma TurnKeeps(q: PodRef, w: Watch, t: Turn)
    requires Holds(q, w) && Fits(q, w, t)
    ensures Holds(q, Observe(q, w, t)) && SafeTurn(q, w, t)
  {
    if t.dies.None? {
      TurnRemembers(q, w, t);
    }
    if t.act.p.pod.uid == q.pod.uid {
      OwnTurnKeeps(q, w.m, w.h, t);
    } else {
      OtherTurnKeeps(q, w.m, w.h, t);
    }
  }

  lemma RunHolds(q: PodRef, w: Watch, turns: seq<Turn>)
    requires Holds(q, w) && FitsRun(q, w, turns)
    ensures Holds(q, Watched(q, w, turns))
  {
    var step, inv, fits := Observer(q), (w': Watch) => Holds(q, w'), (w': Watch, t: Turn) => Fits(q, w', t);
    forall w', t | inv(w') && fits(w', t)
      ensures inv(step(w', t))
    {
      TurnKeeps(q, w', t);
    }
    FoldKeeps(step, w, turns, inv, fits);
  }

  lemma {:induction false} WatchedMaps(q: PodRef, w: Watch, turns: seq<Turn>)
    ensures Watched(q, w, turns).m == End(w.m, turns)
    decreases |turns|
  {
    if turns != [] {
      WatchedMaps(q, w, turns[..|turns| - 1]);
    }
  }

  /** Main result for the node: whatever the guard and others do, turn by turn, to any of its pods, in any order, and
      wherever the process dies, every pod keeps its invariant, and no cut through what it sees
      of any turn is unsafe. */
  lemma NodeRunsAreSafe(q: PodRef, m: Maps, h: History, turns: seq<Turn>)
    requires Holds(q, Watch(m, h)) && FitsRun(q, Watch(m, h), turns)
    ensures var end := Watched(q, Watch(m, h), turns); end.m == End(m, turns) && Inv(q.pod.uid, View(end.m, q), end.h)
    ensures forall n :: 0 <= n < |turns| ==> SafeTurn(q, Watched(q, Watch(m, h), turns[..n]), turns[n])
  {
    var w := Watch(m, h);
    RunHolds(q, w, turns);
    WatchedMaps(q, w, turns);
    forall n | 0 <= n < |turns|
      ensures SafeTurn(q, Watched(q, w, turns[..n]), turns[n])
    {
      FitsPrefix(q, w, turns, n);
      RunHolds(q, w, turns[..n]);
      TurnKeeps(q, Watched(q, w, turns[..n]), turns[n]);
    }
  }

  lemma FitsPrefix(q: PodRef, w: Watch, turns: seq<Turn>, n: nat)
    requires FitsRun(q, w, turns) && n <= |turns|
    ensures FitsRun(q, w, turns[..n])
  {
    forall k | 0 <= k < n
      ensures Fits(q, Watched(q, w, turns[..n][..k]), turns[..n][k])
    {
      assert turns[..n][..k] == turns[..k] && turns[..n][k] == turns[k];
    }
  }
}
