/**
 The guard's ownership protocol, seen from one pod.

 Everything the protocol does to a pod touches three places: the API object under the pod's name,
 the pod's live cgroup, and the process-local ownership record. `Local` holds the three. Each
 operation is a function of `Local` and of a script that says which calls fail, where the context is
 cancelled, and what other actors do in the middle; it returns the new state together with the
 outward effects in the order they happened, so that a crash is a cut through that sequence.
 */
module Ownership {
  import opened Wrappers
  import opened Markers

  type Uid = string

  /** The API object under a name. Version 0 stands for an empty resourceVersion. */
  datatype ApiPod = ApiPod(uid: Uid, version: nat, marker: Raw)

  /** The two knobs of a pod cgroup the guard ever touches. */
  datatype Cgroup = Cgroup(freeze: string, cpuMax: string)

  /** What survives a crash. */
  datatype Durable = Durable(at: Option<ApiPod>, cg: Option<Cgroup>)

  /** ownedState; `quota` is HasCPUQuota of the pod copy kept with it. */
  datatype Owned = Owned(rec: Record, trusted: bool, quota: bool)

  datatype Local = Local(d: Durable, owned: Option<Owned>)

  /** The informer's copy of the pod: identity, cached marker, and HasCPUQuota of its spec. */
  datatype Pod = Pod(uid: Uid, cached: Raw, quota: bool)

  /** What actors other than this guard may do. */
  datatype Edit =
    | Touch                                     // any update that leaves the marker alone
    | Tamper(raw: Raw)                          // rewrite or remove the marker
    | DeletePod
    | CreatePod(uid: Uid, raw: Raw)             // reuse the name
    | SetKnob(knob: string, value: string)      // another writer, kubelet included
    | RemoveCgroup
    | MakeCgroup(cg: Cgroup)

  datatype Effect =
    | Other(edit: Edit)
    | Patched(raw: Raw)
    | Wrote(knob: string, value: string)

  datatype Error = Ok | CgroupGone | MarkerChanged | Failed

  datatype Outcome = Outcome(l: Local, fx: seq<Effect>, err: Error)

  // ---- the environment ----

  function Knob(cg: Cgroup, knob: string): string {
    if knob == FREEZE then cg.freeze else cg.cpuMax
  }

  function WithKnob(cg: Cgroup, knob: string, value: string): Cgroup {
    if knob == FREEZE then cg.(freeze := value) else cg.(cpuMax := value)
  }

  function Edited(uid: Uid, d: Durable, e: Edit): Durable {
    match e
    case Touch =>
      if d.at.Some? then d.(at := Some(d.at.value.(version := d.at.value.version + 1))) else d
    case Tamper(raw) =>
      if d.at.Some? then d.(at := Some(ApiPod(d.at.value.uid, d.at.value.version + 1, raw))) else d
    case DeletePod => d.(at := None)
    case CreatePod(u, raw) =>
      // UIDs are never reused, and a name is free only once its object is gone.
      if d.at.None? && u != uid then d.(at := Some(ApiPod(u, 1, raw))) else d
    case SetKnob(knob, value) =>
      if d.cg.Some? then d.(cg := Some(WithKnob(d.cg.value, knob, value))) else d
    case RemoveCgroup => d.(cg := None)
    case MakeCgroup(cg) => if d.cg.None? then d.(cg := Some(cg)) else d
  }

  /** One effect on durable state. */
  function Step(uid: Uid, d: Durable, e: Effect): Durable {
    match e
    case Other(edit) => Edited(uid, d, edit)
    case Patched(raw) =>
      if d.at.Some? then d.(at := Some(ApiPod(d.at.value.uid, d.at.value.version + 1, raw))) else d
    case Wrote(knob, value) =>
      if d.cg.Some? then d.(cg := Some(WithKnob(d.cg.value, knob, value))) else d
  }

  function Replay(uid: Uid, d: Durable, fx: seq<Effect>): Durable
    decreases |fx|
  {
    if fx == [] then d else Replay(uid, Step(uid, d, fx[0]), fx[1..])
  }

  /** Other actors' edits as effects. */
  function Others(edits: seq<Edit>): (fx: seq<Effect>)
    ensures |fx| == |edits| && forall i :: 0 <= i < |fx| ==> fx[i] == Other(edits[i])
  {
    seq(|edits|, i requires 0 <= i < |edits| => Other(edits[i]))
  }

  /** The pod's own API object still exists. */
  predicate Mine(uid: Uid, d: Durable) {
    d.at.Some? && d.at.value.uid == uid
  }

  datatype Reply = NotFound | Conflict | Accepted

  /** A merge patch that names the UID and, unless it is empty, the resourceVersion it was built from. */
  function ServerReply(d: Durable, uid: Uid, version: nat): Reply {
    if d.at.None? then NotFound
    else if d.at.value.uid != uid || (version != 0 && d.at.value.version != version) then Conflict
    else Accepted
  }

  // ---- patchMarker ----

  datatype ApiScript = ApiScript(getFails: bool, between: seq<Edit>, patchFails: bool)

  /** What the caller wants of the marker, and what it inspected before. */
  datatype Want = SetTo(rec: Record) | ClearRecord(expected: Record) | ClearRaw(bytes: Raw)

  predicate MayPatch(marker: Raw, want: Want) {
    match want
    case SetTo(_) => marker == Empty
    case ClearRecord(expected) => Decode(marker) == Some(expected)
    case ClearRaw(bytes) => marker == bytes
  }

  function Value(want: Want): Raw {
    if want.SetTo? then Encode(want.rec) else Empty
  }

  /** The answer when the object is gone: a clear is done, a set must not happen. */
  function Missing(want: Want): Error {
    if want.SetTo? then CgroupGone else Ok
  }

  function PatchMarker(uid: Uid, l: Local, want: Want, s: ApiScript): Outcome {
    if s.getFails then Outcome(l, [], Failed)
    else if !Mine(uid, l.d) then Outcome(l, [], Missing(want))
    else
      var current := l.d.at.value;
      if !want.SetTo? && current.marker == Empty then Outcome(l, [], Ok)
      else if !MayPatch(current.marker, want) then Outcome(l, [], MarkerChanged)
      else
        var fx := Others(s.between);
        var l' := l.(d := Replay(uid, l.d, fx));
        if s.patchFails then Outcome(l', fx, Failed)
        else match ServerReply(l'.d, uid, current.version)
          case NotFound => Outcome(l', fx, Missing(want))
          case Conflict => Outcome(l', fx, Failed)
          case Accepted =>
            Outcome(l'.(d := Step(uid, l'.d, Patched(Value(want)))), fx + [Patched(Value(want))], Ok)
  }

  // ---- stateForPod ----

  datatype Lookup = Invalid | Unmarked | Marked(rec: Record)

  function StateForPod(l: Local, pod: Pod): Lookup {
    if l.owned.Some? then Marked(l.owned.value.rec)
    else if pod.cached == Empty then Unmarked
    else if Decode(pod.cached).None? then Invalid
    else Marked(Decode(pod.cached).value)
  }

  // ---- suppressPod and restorePod ----

  /** Which calls of one pass over one pod fail, and what others do in between. */
  datatype Script = Script(
    cancelled: bool,        // context done on entry
    noPath: bool,           // the cgroup path cannot be computed
    probeFails: bool,       // the eligibility read of cgroup.freeze
    pause: seq<Edit>,       // other actors between the eligibility check and the suppression
    readFails: bool,
    api: ApiScript,
    cancelledLate: bool,    // context done just before the knob write
    gap: seq<Edit>,         // other actors just before the knob write
    writeFails: bool)

  function WriteKnob(uid: Uid, l: Local, knob: string, value: string, s: Script): Outcome {
    var fx := Others(s.gap);
    var l' := l.(d := Replay(uid, l.d, fx));
    if s.writeFails then Outcome(l', fx, Failed)
    else if l'.d.cg.None? then Outcome(l', fx, CgroupGone)
    else Outcome(l'.(d := Step(uid, l'.d, Wrote(knob, value))), fx + [Wrote(knob, value)], Ok)
  }

  function Then(first: Outcome, second: Outcome): Outcome {
    Outcome(second.l, first.fx + second.fx, second.err)
  }

  function SuppressPod(l: Local, pod: Pod, s: Script): Outcome {
    if s.cancelled || s.noPath || s.readFails then Outcome(l, [], Failed)
    else if l.d.cg.None? then Outcome(l, [], CgroupGone)
    else
      var current := l.d.cg.value.freeze;
      match StateForPod(l, pod)
      case Invalid => Outcome(l, [], Failed)
      case Unmarked =>
        if current != THAWED then Outcome(l, [], Ok)
        else
          var mark := PatchMarker(pod.uid, l, SetTo(FREEZE_RECORD), s.api);
          if mark.err != Ok then mark
          else
            var l' := mark.l.(owned := Some(Owned(FREEZE_RECORD, true, pod.quota)));
            if s.cancelledLate then Outcome(l', mark.fx, Failed)
            else Then(mark, WriteKnob(pod.uid, l', FREEZE, FROZEN, s))
      case Marked(rec) =>
        if rec.knob != FREEZE || (current != rec.restore && current != rec.suppressed) then Outcome(l, [], Ok)
        else if current == rec.suppressed then Outcome(l, [], Ok)
        else if s.cancelledLate then Outcome(l, [], Failed)
        else WriteKnob(pod.uid, l, rec.knob, rec.suppressed, s)
  }

  predicate MayRestoreUnbounded(l: Local, pod: Pod, rec: Record) {
    !pod.quota || (l.owned.Some? && l.owned.value.trusted && l.owned.value.rec == rec)
  }

  /** clearMarker, then the bookkeeping restorePod does with its result. */
  function Release(uid: Uid, l: Local, rec: Record, s: ApiScript): Outcome {
    var clear := PatchMarker(uid, l, ClearRecord(rec), s);
    if clear.err == Ok || clear.err == MarkerChanged then clear.(l := clear.l.(owned := None)) else clear
  }

  function RestorePod(l: Local, pod: Pod, rec: Record, s: Script): Outcome {
    if s.cancelled || !Valid(rec) || s.noPath || s.readFails then Outcome(l, [], Failed)
    else if l.d.cg.None? then Release(pod.uid, l, rec, s.api)
    else if Knob(l.d.cg.value, rec.knob) == rec.suppressed then
      if rec.version == 1 && !MayRestoreUnbounded(l, pod, rec) then Outcome(l, [], Failed)
      else if s.cancelledLate then Outcome(l, [], Failed)
      else
        var write := WriteKnob(pod.uid, l, rec.knob, rec.restore, s);
        if write.err != Ok then write else Then(write, Release(pod.uid, write.l, rec, s.api))
    else Release(pod.uid, l, rec, s.api)
  }

  // ---- one pod's share of converge and Recover ----

  /** actualFreezeAllowsSuppression; a failed probe is never eligible. */
  predicate FreezeAllows(l: Local, look: Lookup, s: Script) {
    && !s.noPath && !s.probeFails && l.d.cg.Some?
    && var current := l.d.cg.value.freeze;
       && (current == THAWED || current == FROZEN)
       && match look
          case Invalid => false
          case Unmarked => current == THAWED
          case Marked(rec) => rec.knob == FREEZE && (current == rec.restore || current == rec.suppressed)
  }

  /** Whether a failed eligibility probe is reported: only for an unmarked pod whose cgroup exists. */
  predicate ProbeError(l: Local, look: Lookup, s: Script) {
    && look.Unmarked?
    && (|| s.noPath || s.probeFails
        || (l.d.cg.Some? && l.d.cg.value.freeze != THAWED && l.d.cg.value.freeze != FROZEN))
  }

  predicate Eligible(l: Local, pod: Pod, hot: bool, candidate: bool, s: Script) {
    var look := StateForPod(l, pod);
    && hot && candidate && !look.Invalid?
    && (look.Marked? ==> look.rec.knob == FREEZE)
    && FreezeAllows(l, look, s)
  }

  /** What converge's first loop does to a listed pod. */
  function Sweep(l: Local, pod: Pod, hot: bool, candidate: bool, s: Script): Outcome {
    match StateForPod(l, pod)
    case Invalid => PatchMarker(pod.uid, l, ClearRaw(pod.cached), s.api)
    case Unmarked =>
      Outcome(l, [], if hot && candidate && ProbeError(l, Unmarked, s) then Failed else Ok)
    case Marked(rec) =>
      if Eligible(l, pod, hot, candidate, s) then Outcome(l, [], Ok) else RestorePod(l, pod, rec, s)
  }

  /** converge, for a listed pod: the sweep, then the suppression of an eligible pod. */
  function ConvergePod(l: Local, pod: Pod, hot: bool, candidate: bool, s: Script): Outcome {
    if Eligible(l, pod, hot, candidate, s) then
      var paused := Outcome(l.(d := Replay(pod.uid, l.d, Others(s.pause))), Others(s.pause), Ok);
      Then(paused, SuppressPod(paused.l, pod, s))
    else Sweep(l, pod, hot, candidate, s)
  }

  /** converge and Recover, for a pod that has left the lister but is still owned. */
  function RestoreVanished(l: Local, uid: Uid, s: Script): Outcome {
    if l.owned.None? then Outcome(l, [], Ok)
    else RestorePod(l, Pod(uid, Empty, l.owned.value.quota), l.owned.value.rec, s)
  }

  /** Recover, for a listed pod. */
  function RecoverPod(l: Local, pod: Pod, s: Script): Outcome {
    match StateForPod(l, pod)
    case Invalid => PatchMarker(pod.uid, l, ClearRaw(pod.cached), s.api)
    case Unmarked => Outcome(l, [], Ok)
    case Marked(rec) => RestorePod(l, pod, rec, s)
  }

  /** Recovery is a cool convergence: same effects, same state, same error, for every script. */
  lemma RecoverIsCoolConverge(l: Local, pod: Pod, candidate: bool, s: Script)
    ensures RecoverPod(l, pod, s) == ConvergePod(l, pod, false, candidate, s)
  {
  }
}
