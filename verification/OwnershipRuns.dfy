/**
 Write-ahead ownership over whole runs: every interleaving of other actors, every failure and every
 crash point of the protocol in `Ownership`.
 */
module OwnershipRuns {
  import opened Wrappers
  import opened Markers
  import opened Ownership

  /** What the durable state alone does not tell.
      `guardFroze`: cgroup.freeze is 1 and the guard's own write was the last one to it.
      `tampered`:   another actor has edited the marker of this pod's object since the guard last set its own.
      `recent`:     every marker the object has carried since the guard last cleared it. */
  datatype History = History(guardFroze: bool, tampered: bool, recent: set<Raw>)

  datatype World = World(d: Durable, h: History)

  function Next(uid: Uid, w: World, e: Effect): World {
    World(Step(uid, w.d, e),
      match e
      case Other(Tamper(raw)) =>
        if Mine(uid, w.d) then w.h.(tampered := true, recent := w.h.recent + {raw}) else w.h
      case Other(SetKnob(knob, _)) => if knob == FREEZE then w.h.(guardFroze := false) else w.h
      case Other(RemoveCgroup) => w.h.(guardFroze := false)
      case Other(_) => w.h
      case Patched(raw) =>
        w.h.(recent := if raw == Empty then {Empty} else w.h.recent + {raw},
             tampered := w.h.tampered && !(Mine(uid, w.d) && MarksFreeze(raw)))
      case Wrote(knob, value) =>
        if knob == FREEZE && w.d.cg.Some? then w.h.(guardFroze := value == FROZEN) else w.h)
  }

  function After(uid: Uid, w: World, fx: seq<Effect>): (r: World)
    ensures r.d == Replay(uid, w.d, fx)
    decreases |fx|
  {
    if fx == [] then w else After(uid, Next(uid, w, fx[0]), fx[1..])
  }

  // ---- what every durable state satisfies ----

  /** Either the pod's object is gone or edited by someone else, or it carries the freeze record. */
  predicate Backed(uid: Uid, w: World) {
    Mine(uid, w.d) && !w.h.tampered ==> MarksFreeze(w.d.at.value.marker)
  }

  predicate Unfrozen(uid: Uid, w: World) {
    Mine(uid, w.d) && !w.h.tampered ==> !w.h.guardFroze
  }

  /** Write-ahead ownership: a freeze the guard left behind is backed by the durable marker. */
  predicate WriteAhead(uid: Uid, w: World) {
    w.h.guardFroze ==> Backed(uid, w)
  }

  predicate Safe(uid: Uid, w: World) {
    && WriteAhead(uid, w)
    && ((exists raw :: raw in w.h.recent && MarksFreeze(raw)) ==> Backed(uid, w))
    && (w.h.guardFroze ==> w.d.cg.Some? && w.d.cg.value.freeze == FROZEN)
    && (Mine(uid, w.d) ==> w.d.at.value.version >= 1)
  }

  /** The order the protocol keeps: mark before freezing, thaw before unmarking. */
  predicate InOrder(uid: Uid, w: World, e: Effect) {
    match e
    case Other(_) => true
    case Patched(raw) => if raw == Empty then Unfrozen(uid, w) else MarksFreeze(raw)
    case Wrote(knob, value) => knob == FREEZE && value == FROZEN ==> Backed(uid, w)
  }

  predicate Orderly(uid: Uid, w: World, fx: seq<Effect>)
    decreases |fx|
  {
    fx == [] || (InOrder(uid, w, fx[0]) && Orderly(uid, Next(uid, w, fx[0]), fx[1..]))
  }

  lemma StepIsSafe(uid: Uid, w: World, e: Effect)
    requires Safe(uid, w) && InOrder(uid, w, e)
    ensures Safe(uid, Next(uid, w, e))
  {
  }

  /** Every cut through an orderly sequence of effects is safe: there is no bad moment to crash. */
  lemma {:induction false} OrderlyIsSafe(uid: Uid, w: World, fx: seq<Effect>, k: nat)
    requires Safe(uid, w) && Orderly(uid, w, fx) && k <= |fx|
    ensures Safe(uid, After(uid, w, fx[..k]))
    decreases |fx|
  {
    if k > 0 {
      StepIsSafe(uid, w, fx[0]);
      OrderlyIsSafe(uid, Next(uid, w, fx[0]), fx[1..], k - 1);
      assert fx[..k][1..] == fx[1..][..k - 1];
    }
  }

  lemma {:induction false} OrderlyJoin(uid: Uid, w: World, a: seq<Effect>, b: seq<Effect>)
    requires Orderly(uid, w, a) && Orderly(uid, After(uid, w, a), b)
    ensures Orderly(uid, w, a + b) && After(uid, w, a + b) == After(uid, After(uid, w, a), b)
    decreases |a|
  {
    if a == [] {
      assert a + b == b;
    } else {
      OrderlyJoin(uid, Next(uid, w, a[0]), a[1..], b);
      assert (a + b)[1..] == a[1..] + b;
    }
  }

  /** Something the guard relies on was taken away, or the pod's object changed without its version. */
  predicate Undermined(uid: Uid, w: World, w': World) {
    || (Backed(uid, w) && !Backed(uid, w'))
    || (Unfrozen(uid, w) && !Unfrozen(uid, w'))
    || !(w.h.recent <= w'.h.recent)
    || (Mine(uid, w'.d) && !(Mine(uid, w.d) && w.d.at.value.version <= w'.d.at.value.version))
    || (Mine(uid, w'.d) && w.d.at.value.version == w'.d.at.value.version && w.d.at != w'.d.at)
  }

  lemma OtherKeeps(uid: Uid, w: World, edit: Edit)
    requires Safe(uid, w)
    ensures Safe(uid, Next(uid, w, Other(edit))) && !Undermined(uid, w, Next(uid, w, Other(edit)))
  {
    StepIsSafe(uid, w, Other(edit));
  }

  /** Other actors cannot take away what the guard relies on, and cannot change the object without
      changing its version. */
  lemma {:induction false} OthersKeep(uid: Uid, w: World, edits: seq<Edit>)
    requires Safe(uid, w)
    ensures var w' := After(uid, w, Others(edits));
            Orderly(uid, w, Others(edits)) && Safe(uid, w') && !Undermined(uid, w, w')
    decreases |edits|
  {
    if edits != [] {
      OtherKeeps(uid, w, edits[0]);
      var next := Next(uid, w, Other(edits[0]));
      OthersKeep(uid, next, edits[1..]);
      assert Others(edits)[0] == Other(edits[0]) && Others(edits)[1..] == Others(edits[1..]);
      assert After(uid, w, Others(edits)) == After(uid, next, Others(edits[1..]));
    }
  }

  // ---- the operations keep the order ----

  /** The invariant of a live process. Only the freeze record is ever owned. */
  predicate Inv(uid: Uid, l: Local, h: History) {
    && Safe(uid, World(l.d, h))
    && (l.owned.Some? ==>
          && l.owned.value.rec == FREEZE_RECORD && l.owned.value.trusted
          && Backed(uid, World(l.d, h)))
  }

  /** An operation took `l` to `o.l` by exactly the effects it reports, all of them in order. */
  predicate Keeps(uid: Uid, l: Local, h: History, o: Outcome) {
    var w' := After(uid, World(l.d, h), o.fx);
    Orderly(uid, World(l.d, h), o.fx) && o.l.d == w'.d && Inv(uid, o.l, w'.h)
  }

  lemma PatchSetKeeps(uid: Uid, l: Local, h: History, s: ApiScript)
    requires Inv(uid, l, h)
    ensures var o := PatchMarker(uid, l, SetTo(FREEZE_RECORD), s);
            && Keeps(uid, l, h, o) && o.l.owned == l.owned
            && (o.err == Ok ==> Backed(uid, After(uid, World(l.d, h), o.fx)))
  {
    var w := World(l.d, h);
    OthersKeep(uid, w, s.between);
    var mid := After(uid, w, Others(s.between));
    var e := Patched(Encode(FREEZE_RECORD));
    StepIsSafe(uid, mid, e);
    assert After(uid, mid, [e]) == Next(uid, mid, e);
    OrderlyJoin(uid, w, Others(s.between), [e]);
  }

  /** A clear lands only when no guard freeze can be lost by it. */
  lemma PatchClearKeeps(uid: Uid, l: Local, h: History, want: Want, s: ApiScript)
    requires Inv(uid, l, h) && !want.SetTo?
    requires Unfrozen(uid, World(l.d, h)) || forall raw :: MayPatch(raw, want) ==> !MarksFreeze(raw)
    ensures var o := PatchMarker(uid, l, want, s);
            && Keeps(uid, l, h, o.(l := o.l.(owned := None)))
            && (o.err != Ok && o.err != MarkerChanged ==> Keeps(uid, l, h, o))
            && o.l.owned == l.owned
  {
    ClearShapeKeeps(uid, l, h, want, s.between, PatchMarker(uid, l, want, s));
  }

  /** The ways a clear can end: without a patch attempted, with the patch refused, or with it landed. */
  predicate ClearShape(uid: Uid, l: Local, want: Want, between: seq<Edit>, o: Outcome) {
    && o.l.owned == l.owned
    && (|| (o.fx == [] && o.l.d == l.d)
        || (&& Mine(uid, l.d) && MayPatch(l.d.at.value.marker, want)
            && (|| (o.fx == Others(between) && o.l.d == Replay(uid, l.d, o.fx))
                || (&& o.fx == Others(between) + [Patched(Empty)] && o.err == Ok
                    && o.l.d == Step(uid, Replay(uid, l.d, Others(between)), Patched(Empty))))))
  }

  lemma ClearShapeKeeps(uid: Uid, l: Local, h: History, want: Want, between: seq<Edit>, o: Outcome)
    requires Inv(uid, l, h) && ClearShape(uid, l, want, between, o)
    requires Unfrozen(uid, World(l.d, h)) || forall raw :: MayPatch(raw, want) ==> !MarksFreeze(raw)
    ensures Keeps(uid, l, h, o.(l := o.l.(owned := None)))
    ensures o.err != Ok && o.err != MarkerChanged ==> Keeps(uid, l, h, o)
  {
    var w := World(l.d, h);
    if !(o.fx == [] && o.l.d == l.d) {
      assert Unfrozen(uid, w);
      OthersKeep(uid, w, between);
      if o.fx != Others(between) {
        ClearLands(uid, w, between);
      }
    }
  }

  lemma ClearLands(uid: Uid, w: World, between: seq<Edit>)
    requires Safe(uid, w) && Unfrozen(uid, w)
    ensures var fx := Others(between) + [Patched(Empty)];
            Orderly(uid, w, fx) && Safe(uid, After(uid, w, fx))
            && After(uid, w, fx).d == Step(uid, Replay(uid, w.d, Others(between)), Patched(Empty))
  {
    OthersKeep(uid, w, between);
    var mid := After(uid, w, Others(between));
    StepIsSafe(uid, mid, Patched(Empty));
    assert After(uid, mid, [Patched(Empty)]) == Next(uid, mid, Patched(Empty));
    OrderlyJoin(uid, w, Others(between), [Patched(Empty)]);
  }

  lemma ReleaseKeeps(uid: Uid, l: Local, h: History, rec: Record, s: ApiScript)
    requires Inv(uid, l, h)
    requires Unfrozen(uid, World(l.d, h)) || rec != FREEZE_RECORD
    ensures Keeps(uid, l, h, Release(uid, l, rec, s))
  {
    PatchClearKeeps(uid, l, h, ClearRecord(rec), s);
  }

  lemma WriteKeeps(uid: Uid, l: Local, h: History, knob: string, value: string, s: Script)
    requires Inv(uid, l, h)
    requires knob == FREEZE && value == FROZEN ==> Backed(uid, World(l.d, h))
    ensures var o := WriteKnob(uid, l, knob, value, s);
            && Keeps(uid, l, h, o) && o.l.owned == l.owned
            && (o.err == Ok && knob == FREEZE && value != FROZEN ==>
                  Unfrozen(uid, After(uid, World(l.d, h), o.fx)))
  {
    var w := World(l.d, h);
    OthersKeep(uid, w, s.gap);
    var mid := After(uid, w, Others(s.gap));
    var e := Wrote(knob, value);
    StepIsSafe(uid, mid, e);
    assert After(uid, mid, [e]) == Next(uid, mid, e);
    OrderlyJoin(uid, w, Others(s.gap), [e]);
  }

  lemma ThenKeeps(uid: Uid, l: Local, h: History, first: Outcome, second: Outcome)
    requires Keeps(uid, l, h, first)
    requires Keeps(uid, first.l, After(uid, World(l.d, h), first.fx).h, second)
    ensures Keeps(uid, l, h, Then(first, second))
  {
    OrderlyJoin(uid, World(l.d, h), first.fx, second.fx);
  }

  /** Mark, own, freeze: the heart of the protocol. */
  lemma MarkThenFreezeKeeps(uid: Uid, l: Local, h: History, pod: Pod, s: Script)
    requires Inv(uid, l, h) && PatchMarker(uid, l, SetTo(FREEZE_RECORD), s.api).err == Ok
    ensures var mark := PatchMarker(uid, l, SetTo(FREEZE_RECORD), s.api);
            var l' := mark.l.(owned := Some(Owned(FREEZE_RECORD, true, pod.quota)));
            && Keeps(uid, l, h, mark.(l := l'))
            && Keeps(uid, l, h, Then(mark, WriteKnob(uid, l', FREEZE, FROZEN, s)))
  {
    var mark := PatchMarker(uid, l, SetTo(FREEZE_RECORD), s.api);
    PatchSetKeeps(uid, l, h, s.api);
    var l' := mark.l.(owned := Some(Owned(FREEZE_RECORD, true, pod.quota)));
    WriteKeeps(uid, l', After(uid, World(l.d, h), mark.fx).h, FREEZE, FROZEN, s);
    ThenKeeps(uid, l, h, mark.(l := l'), WriteKnob(uid, l', FREEZE, FROZEN, s));
  }

  lemma SuppressKeeps(uid: Uid, l: Local, h: History, pod: Pod, s: Script)
    requires Inv(uid, l, h) && pod.uid == uid && pod.cached in h.recent
    ensures Keeps(uid, l, h, SuppressPod(l, pod, s))
  {
    match StateForPod(l, pod)
    case Invalid =>
    case Unmarked =>
      PatchSetKeeps(uid, l, h, s.api);
      if PatchMarker(uid, l, SetTo(FREEZE_RECORD), s.api).err == Ok {
        MarkThenFreezeKeeps(uid, l, h, pod, s);
      }
    case Marked(rec) =>
      if rec.knob == FREEZE && l.owned.None? {
        ValidRecords(rec);
        assert MarksFreeze(pod.cached);
      }
      if rec.knob == FREEZE {
        WriteKeeps(uid, l, h, rec.knob, rec.suppressed, s);
      }
  }

  lemma RestoreKeeps(uid: Uid, l: Local, h: History, pod: Pod, rec: Record, s: Script)
    requires Inv(uid, l, h) && pod.uid == uid && (l.owned.Some? ==> rec == l.owned.value.rec)
    ensures Keeps(uid, l, h, RestorePod(l, pod, rec, s))
  {
    var w := World(l.d, h);
    if Valid(rec) {
      ValidRecords(rec);
      if l.d.cg.Some? && Knob(l.d.cg.value, rec.knob) == rec.suppressed {
        WriteKeeps(uid, l, h, rec.knob, rec.restore, s);
        var write := WriteKnob(uid, l, rec.knob, rec.restore, s);
        if write.err == Ok {
          ReleaseKeeps(uid, write.l, After(uid, w, write.fx).h, rec, s.api);
          ThenKeeps(uid, l, h, write, Release(uid, write.l, rec, s.api));
        }
      } else {
        ReleaseKeeps(uid, l, h, rec, s.api);
      }
    }
  }

  lemma RecoverKeeps(uid: Uid, l: Local, h: History, pod: Pod, s: Script)
    requires Inv(uid, l, h) && pod.uid == uid
    ensures Keeps(uid, l, h, RecoverPod(l, pod, s))
  {
    match StateForPod(l, pod)
    case Invalid => PatchClearKeeps(uid, l, h, ClearRaw(pod.cached), s.api);
    case Unmarked =>
    case Marked(rec) => RestoreKeeps(uid, l, h, pod, rec, s);
  }

  lemma ConvergeKeeps(uid: Uid, l: Local, h: History, pod: Pod, hot: bool, candidate: bool, s: Script)
    requires Inv(uid, l, h) && pod.uid == uid && pod.cached in h.recent
    ensures Keeps(uid, l, h, ConvergePod(l, pod, hot, candidate, s))
  {
    if Eligible(l, pod, hot, candidate, s) {
      OthersKeep(uid, World(l.d, h), s.pause);
      var w' := After(uid, World(l.d, h), Others(s.pause));
      var paused := Outcome(l.(d := w'.d), Others(s.pause), Ok);
      SuppressKeeps(uid, paused.l, w'.h, pod, s);
      ThenKeeps(uid, l, h, paused, SuppressPod(paused.l, pod, s));
    } else {
      RecoverKeeps(uid, l, h, pod, s);
    }
  }

  lemma VanishedKeeps(uid: Uid, l: Local, h: History, s: Script)
    requires Inv(uid, l, h)
    ensures Keeps(uid, l, h, RestoreVanished(l, uid, s))
  {
    if l.owned.Some? {
      RestoreKeeps(uid, l, h, Pod(uid, Empty, l.owned.value.quota), l.owned.value.rec, s);
    }
  }

  // ---- runs ----

  /** Where a pass over the pod is cut short by a crash: after that many effects. */
  type Cut = Option<nat>

  datatype Event =
    | Env(edit: Edit)
    | Converge(pod: Pod, hot: bool, candidate: bool, s: Script, cut: Cut)
    | Recover(pod: Pod, s: Script, cut: Cut)
    | Vanished(s: Script, cut: Cut)
    | Crash

  datatype Run = Run(l: Local, h: History)

  function Perform(uid: Uid, r: Run, ev: Event): Outcome {
    match ev
    case Env(edit) => Outcome(r.l.(d := Step(uid, r.l.d, Other(edit))), [Other(edit)], Ok)
    case Converge(pod, hot, candidate, s, _) => ConvergePod(r.l, pod, hot, candidate, s)
    case Recover(pod, s, _) => RecoverPod(r.l, pod, s)
    case Vanished(s, _) => RestoreVanished(r.l, uid, s)
    case Crash => Outcome(r.l.(owned := None), [], Ok)
  }

  predicate Crashes(ev: Event, fx: seq<Effect>) {
    !ev.Env? && !ev.Crash? && ev.cut.Some? && ev.cut.value <= |fx|
  }

  /** The effects the event performs before it ends or the process dies. */
  function Effects(uid: Uid, r: Run, ev: Event): seq<Effect> {
    var o := Perform(uid, r, ev);
    if Crashes(ev, o.fx) then o.fx[..ev.cut.value] else o.fx
  }

  /** A crash keeps durable state and loses ownership. */
  function Advance(uid: Uid, r: Run, ev: Event): Run {
    var o := Perform(uid, r, ev);
    var w := After(uid, World(r.l.d, r.h), Effects(uid, r, ev));
    Run(if Crashes(ev, o.fx) then Local(w.d, None) else o.l, w.h)
  }

  /** To a convergence the informer never shows a marker older than the guard's own last clear; a recovery
      may see anything. */
  predicate Admissible(uid: Uid, r: Run, ev: Event) {
    match ev
    case Converge(pod, _, _, _, _) => pod.uid == uid && pod.cached in r.h.recent
    case Recover(pod, _, _) => pod.uid == uid
    case _ => true
  }

  predicate AdmissibleRun(uid: Uid, r: Run, evs: seq<Event>)
    decreases |evs|
  {
    evs == [] || (Admissible(uid, r, evs[0]) && AdmissibleRun(uid, Advance(uid, r, evs[0]), evs[1..]))
  }

  /** Every cut through the effects is safe. */
  predicate SafeCuts(uid: Uid, w: World, fx: seq<Effect>) {
    forall k :: 0 <= k <= |fx| ==> Safe(uid, After(uid, w, fx[..k]))
  }

  /** Every durable state the run passes through is safe, between any two effects of any event. */
  predicate SafeThroughout(uid: Uid, r: Run, evs: seq<Event>)
    decreases |evs|
  {
    && Safe(uid, World(r.l.d, r.h))
    && (evs != [] ==>
          && SafeCuts(uid, World(r.l.d, r.h), Effects(uid, r, evs[0]))
          && SafeThroughout(uid, Advance(uid, r, evs[0]), evs[1..]))
  }

  lemma AdvanceKeeps(uid: Uid, r: Run, ev: Event)
    requires Inv(uid, r.l, r.h) && Admissible(uid, r, ev)
    ensures var r' := Advance(uid, r, ev); Inv(uid, r'.l, r'.h)
    ensures SafeCuts(uid, World(r.l.d, r.h), Effects(uid, r, ev))
  {
    var w := World(r.l.d, r.h);
    match ev {
      case Env(edit) =>
        OthersKeep(uid, w, [edit]);
        assert Others([edit]) == [Other(edit)];
      case Converge(pod, hot, candidate, s, _) => ConvergeKeeps(uid, r.l, r.h, pod, hot, candidate, s);
      case Recover(pod, s, _) => RecoverKeeps(uid, r.l, r.h, pod, s);
      case Vanished(s, _) => VanishedKeeps(uid, r.l, r.h, s);
      case Crash =>
    }
    var all := Perform(uid, r, ev).fx;
    var fx := Effects(uid, r, ev);
    forall k | 0 <= k <= |fx|
      ensures Safe(uid, After(uid, w, fx[..k]))
    {
      OrderlyIsSafe(uid, w, all, k);
      assert fx[..k] == all[..k];
    }
    assert fx[..|fx|] == fx;
  }

  /** Main result: from any safe start, over every admissible run of convergence, recovery, crashes,
      restarts and other actors, no durable state ever shows a guard freeze without its marker. */
  lemma {:induction false} RunsAreSafe(uid: Uid, r: Run, evs: seq<Event>)
    requires Inv(uid, r.l, r.h) && AdmissibleRun(uid, r, evs)
    ensures SafeThroughout(uid, r, evs)
    decreases |evs|
  {
    if evs != [] {
      AdvanceKeeps(uid, r, evs[0]);
      RunsAreSafe(uid, Advance(uid, r, evs[0]), evs[1..]);
    }
  }

  /** A process that has just started over any cluster state is such a start. */
  lemma StartIsSafe(uid: Uid, d: Durable)
    requires Mine(uid, d) ==> d.at.value.version >= 1
    ensures Inv(uid, Local(d, None), History(false, false, {if Mine(uid, d) then d.at.value.marker else Empty}))
  {
  }
}
