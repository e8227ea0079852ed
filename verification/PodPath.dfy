/** Pod cgroup paths under both drivers: the slice expansion, the outer-prefix strip, and their closed form. */
module PodPath {
  import opened Wrappers
  import opened PathText

  datatype Driver = Systemd | Cgroupfs
  datatype QoS = Guaranteed | Burstable | BestEffort

  const SLICE := ".slice"

  function QosName(q: QoS): string {
    match q
    case Guaranteed => "guaranteed"
    case Burstable => "burstable"
    case BestEffort => "besteffort"
  }

  predicate HasPrefix(s: string, prefix: string) {
    prefix <= s
  }

  predicate HasSuffix(s: string, suffix: string) {
    |suffix| <= |s| && s[|s| - |suffix|..] == suffix
  }

  function TrimPrefix(s: string, prefix: string): string {
    if HasPrefix(s, prefix) then s[|prefix|..] else s
  }

  function TrimSuffix(s: string, suffix: string): string {
    if HasSuffix(s, suffix) then s[..|s| - |suffix|] else s
  }

  // ---- slices ----

  /** The nested slices of a dash-separated name: one level per component, each named by the components up
      to and including it. */
  function Levels(components: seq<string>): (r: seq<string>)
    ensures |r| == |components|
    ensures forall i :: 0 <= i < |r| ==> r[i] == Join(components[..i + 1], '-') + SLICE
  {
    seq(|components|, i requires 0 <= i < |components| => Join(components[..i + 1], '-') + SLICE)
  }

  predicate NoneEmpty(components: seq<string>) {
    forall i :: 0 <= i < |components| ==> components[i] != ""
  }

  /** What expandSystemdSlice promises, in closed form; `None` is its error. */
  function Expanded(slice: string): Option<string> {
    if !HasSuffix(slice, SLICE) || !Free(slice, '/') then None
    else
      var name := TrimSuffix(slice, SLICE);
      if name == "-" then Some("/")
      else if !NoneEmpty(Split(name, '-')) then None
      else Some(Text(Levels(Split(name, '-'))))
  }

  /** The text of the first i levels, and the running prefix of the next one. */
  function ExpandedTo(components: seq<string>, i: nat): string
    requires i <= |components|
  {
    if i == 0 then "" else Text(Levels(components[..i]))
  }

  function PrefixTo(components: seq<string>, i: nat): string
    requires i <= |components|
  {
    if i == 0 then "" else Join(components[..i], '-') + "-"
  }

  /** expandSystemdSlice: the loop builds each level from the running prefix. */
  method ExpandSystemdSlice(slice: string) returns (r: Option<string>)
    ensures r == Expanded(slice)
  {
    if !HasSuffix(slice, SLICE) || !Free(slice, '/') { return None; }
    var name := TrimSuffix(slice, SLICE);
    if name == "-" { return Some("/"); }
    var components := Split(name, '-');
    var levels := ExpandComponents(components);
    return levels;
  }

  method ExpandComponents(components: seq<string>) returns (r: Option<string>)
    requires components != []
    ensures r == if NoneEmpty(components) then Some(Text(Levels(components))) else None
  {
    var expanded, prefix := "", "";
    var i := 0;
    while i < |components|
      invariant 0 <= i <= |components|
      invariant forall j :: 0 <= j < i ==> components[j] != ""
      invariant expanded == ExpandedTo(components, i) && prefix == PrefixTo(components, i)
    {
      var component := components[i];
      if component == "" { return None; }
      LevelsGrow(components, i);
      expanded := expanded + "/" + prefix + component + SLICE;
      prefix := prefix + component + "-";
      i := i + 1;
    }
    assert components[..|components|] == components;
    return Some(expanded);
  }

  /** One more component adds one more level, below the ones already there. */
  lemma LevelsGrow(components: seq<string>, i: nat)
    requires i < |components|
    ensures PrefixTo(components, i + 1) == PrefixTo(components, i) + components[i] + "-"
    ensures ExpandedTo(components, i + 1) ==
            ExpandedTo(components, i) + "/" + PrefixTo(components, i) + components[i] + SLICE
  {
    var a, b := components[..i], components[..i + 1];
    var level := Join(b, '-') + SLICE;
    assert b == a + [components[i]];
    if i == 0 {
      assert Levels(b) == [level];
      assert Text([level]) == "/" + level;
    } else {
      JoinAppend(a, [components[i]], '-');
      LevelsOfLonger(a, components[i]);
      TextAppend(Levels(a), [level]);
      assert Text([level]) == "/" + level;
      Associate(Text(Levels(a)), Join(a, '-') + "-", components[i]);
    }
  }

  lemma Associate(text: string, prefix: string, component: string)
    ensures text + ("/" + (prefix + component + SLICE)) == text + "/" + prefix + component + SLICE
  {
  }

  lemma LevelsOfLonger(a: seq<string>, component: string)
    ensures Levels(a + [component]) == Levels(a) + [Join(a + [component], '-') + SLICE]
  {
    var b := a + [component];
    LevelsPrefix(b, |a|);
    assert b[..|a|] == a && b[..|a| + 1] == b;
    assert Levels(b) == Levels(b)[..|a|] + [Levels(b)[|a|]];
  }

  lemma LevelsPrefix(components: seq<string>, n: nat)
    requires n <= |components|
    ensures Levels(components)[..n] == Levels(components[..n])
  {
    forall i | 0 <= i < n
      ensures Levels(components)[i] == Levels(components[..n])[i]
    {
      assert components[..n][..i + 1] == components[..i + 1];
    }
  }

  // ---- the two drivers ----

  /** UID dashes become underscores before systemd sees the name. */
  function Escape(uid: string): (r: string)
    ensures |r| == |uid| && Free(r, '-')
    ensures forall i :: 0 <= i < |r| ==> r[i] == if uid[i] == '-' then '_' else uid[i]
  {
    seq(|uid|, i requires 0 <= i < |uid| => if uid[i] == '-' then '_' else uid[i])
  }

  function PathDir(path: string): string {
    var parts := Parts(path);
    Text(if parts == [] then [] else parts[..|parts| - 1])
  }

  /** systemdPodCgroupPath. */
  function SystemdPath(root: string, name: string, qos: QoS, uid: string): Option<string> {
    var podName := "pod" + Escape(uid);
    var sliceName := if qos.Guaranteed? then name + "-" + podName + SLICE
                     else name + "-" + QosName(qos) + "-" + podName + SLICE;
    var expanded := Expanded(sliceName);
    var outer := Expanded(name + SLICE);
    if expanded.None? || outer.None? then None
    else
      var outerPrefix := PathDir(outer.value);
      if outerPrefix == "/" then Some(PathJoin([root, expanded.value]))
      else
        var trimmed := TrimPrefix(expanded.value, outerPrefix);
        if trimmed == expanded.value then None else Some(PathJoin([root, trimmed]))
  }

  function CgroupfsPath(root: string, name: string, qos: QoS, uid: string): string {
    if qos.Guaranteed? then PathJoin([root, name, "pod" + uid])
    else PathJoin([root, name, QosName(qos), "pod" + uid])
  }

  function PodCgroupPath(root: string, name: string, driver: Driver, qos: QoS, uid: string): Option<string> {
    if uid == "" || name == "" then None
    else if driver.Systemd? then SystemdPath(root, name, qos, uid)
    else Some(CgroupfsPath(root, name, qos, uid))
  }

  // ---- closed form ----

  function QosStem(name: string, qos: QoS): string {
    name + "-" + QosName(qos)
  }

  function PodStem(name: string, qos: QoS, uid: string): string {
    (if qos.Guaranteed? then name else QosStem(name, qos)) + "-" + ("pod" + Escape(uid))
  }

  /** The directories below the root, one by one. */
  function PodParts(name: string, driver: Driver, qos: QoS, uid: string): seq<string> {
    if driver.Systemd? then
      [name + SLICE]
      + (if qos.Guaranteed? then [] else [QosStem(name, qos) + SLICE])
      + [PodStem(name, qos, uid) + SLICE]
    else
      [name] + (if qos.Guaranteed? then [] else [QosName(qos)]) + ["pod" + uid]
  }

  /** A kubepods name is one path component. */
  predicate ValidName(name: string) {
    Normal(name)
  }

  /** ... and under systemd it must nest: no empty dash component. */
  predicate Nests(name: string) {
    NoneEmpty(Split(name, '-'))
  }

  predicate Placed(name: string, driver: Driver) {
    driver.Cgroupfs? || Nests(name)
  }

  lemma SliceIsNormal(s: string)
    requires Free(s, '/')
    ensures Normal(s + SLICE)
  {
    assert |s + SLICE| >= 6;
    FreeConcat(s, SLICE, '/');
  }

  lemma FreeConcat(a: string, b: string, c: char)
    requires Free(a, c) && Free(b, c)
    ensures Free(a + b, c)
  {
  }

  lemma StemsAreFree(name: string, qos: QoS, uid: string)
    requires Free(name, '/') && Free(uid, '/')
    ensures Free(QosStem(name, qos), '/') && Free(PodStem(name, qos, uid), '/')
  {
    FreeConcat(name, "-", '/');
    FreeConcat(name + "-", QosName(qos), '/');
    FreeConcat(QosStem(name, qos), "-", '/');
    var pod := "pod" + Escape(uid);
    FreeConcat("pod", Escape(uid), '/');
    FreeConcat(name + "-", pod, '/');
    FreeConcat(QosStem(name, qos) + "-", pod, '/');
  }

  lemma PodPartsNormal(name: string, driver: Driver, qos: QoS, uid: string)
    requires ValidName(name) && Free(uid, '/')
    ensures AllNormal(PodParts(name, driver, qos, uid))
  {
    if driver.Systemd? {
      StemsAreFree(name, qos, uid);
      SliceIsNormal(name);
      SliceIsNormal(QosStem(name, qos));
      SliceIsNormal(PodStem(name, qos, uid));
    } else {
      FreeConcat("pod", uid, '/');
      assert ("pod" + uid)[0] == 'p';
    }
  }

  /** The dash components of the slice the systemd driver expands. */
  function Components(name: string, qos: QoS, uid: string): seq<string> {
    Split(name, '-') + (if qos.Guaranteed? then [] else [QosName(qos)]) + ["pod" + Escape(uid)]
  }

  lemma SplitOfPodStem(name: string, qos: QoS, uid: string)
    ensures Split(PodStem(name, qos, uid), '-') == Components(name, qos, uid)
  {
    var pod := "pod" + Escape(uid);
    SplitOfFree(pod, '-');
    SplitOfFree(QosName(qos), '-');
    SplitOfJoined(name, '-', QosName(qos));
    SplitOfJoined(if qos.Guaranteed? then name else QosStem(name, qos), '-', pod);
  }

  lemma DropOfLonger(s: seq<string>, x: string, k: nat)
    requires k <= |s|
    ensures (s + [x])[k..] == s[k..] + [x]
  {
  }

  lemma JoinOfLonger(a: seq<string>, component: string)
    requires a != []
    ensures Join(a + [component], '-') == Join(a, '-') + "-" + component
  {
    JoinAppend(a, [component], '-');
  }

  lemma LevelsTail(a: seq<string>, component: string, k: nat)
    requires a != [] && k <= |a|
    ensures Levels(a + [component])[k..] == Levels(a)[k..] + [Join(a, '-') + "-" + component + SLICE]
  {
    LevelsOfLonger(a, component);
    JoinOfLonger(a, component);
    DropOfLonger(Levels(a), Join(a + [component], '-') + SLICE, k);
  }

  lemma StemsJoin(name: string, qos: QoS, uid: string)
    ensures var c := Split(name, '-');
            && Join(c, '-') == name
            && Join(c + [QosName(qos)], '-') == QosStem(name, qos)
  {
    JoinOfSplit(name, '-');
    JoinOfLonger(Split(name, '-'), QosName(qos));
  }

  /** The levels from the kubepods slice down are exactly the closed form. */
  lemma LevelsBelow(name: string, qos: QoS, uid: string)
    ensures Levels(Components(name, qos, uid))[|Split(name, '-')| - 1..] == PodParts(name, Systemd, qos, uid)
  {
    var c, pod := Split(name, '-'), "pod" + Escape(uid);
    var k := |c| - 1;
    StemsJoin(name, qos, uid);
    assert Levels(c)[k..] == [name + SLICE] by {
      assert c[..k + 1] == c;
    }
    if qos.Guaranteed? {
      LevelsTail(c, pod, k);
      assert Components(name, qos, uid) == c + [pod];
    } else {
      LevelsTail(c, QosName(qos), k);
      LevelsTail(c + [QosName(qos)], pod, k);
    }
  }

  lemma {:induction false} JoinIsFree(parts: seq<string>, c: char, d: char)
    requires AllFree(parts, d) && c != d
    ensures Free(Join(parts, c), d)
  {
    if |parts| > 1 {
      JoinIsFree(parts[1..], c, d);
    }
  }

  lemma {:induction false} SplitIsFree(s: string, c: char, d: char)
    requires Free(s, d)
    ensures AllFree(Split(s, c), d)
  {
    if s != [] {
      SplitIsFree(s[1..], c, d);
    }
  }

  lemma LevelsNormal(stem: string)
    requires Free(stem, '/')
    ensures AllNormal(Levels(Split(stem, '-')))
  {
    var c := Split(stem, '-');
    SplitIsFree(stem, '-', '/');
    forall i | 0 <= i < |c|
      ensures Normal(Levels(c)[i])
    {
      JoinIsFree(c[..i + 1], '-', '/');
      SliceIsNormal(Join(c[..i + 1], '-'));
    }
  }

  lemma ExpandedOfStem(stem: string)
    requires Free(stem, '/') && stem != "-"
    ensures Expanded(stem + SLICE) ==
            if NoneEmpty(Split(stem, '-')) then Some(Text(Levels(Split(stem, '-')))) else None
  {
    var slice := stem + SLICE;
    FreeConcat(stem, SLICE, '/');
    assert slice[|slice| - |SLICE|..] == SLICE && slice[..|slice| - |SLICE|] == stem;
  }

  lemma JoinOntoRoot(root: string, parts: seq<string>)
    requires AllNormal(parts) && parts != []
    ensures PathJoin([root, Text(parts)]) == Text(Parts(root) + parts)
    ensures PathJoin([root] + parts) == Text(Parts(root) + parts)
  {
    var text := Text(parts);
    assert Join([root, text], '/') == root + "/" + text by {
      assert [root, text][1..] == [text];
    }
    PartsOfLonger(root, text);
    assert text == "" + "/" + Join(parts, '/');
    SplitOfJoined("", '/', Join(parts, '/'));
    SplitOfJoin(parts, '/');
    assert Split(text, '/') == [""] + parts;
    ResolveNormal(Parts(root), parts);
    assert ([""] + parts)[1..] == parts;
    JoinAppend([root], parts, '/');
    PartsOfJoin(root, parts);
  }

  /** The strip: cutting the outer prefix off the expansion leaves the levels from the kubepods slice down,
      and the branch for a missing prefix is never taken. */
  lemma StripLeavesPodParts(name: string, qos: QoS, uid: string)
    requires ValidName(name) && Nests(name) && Free(uid, '/')
    ensures Expanded(PodStem(name, qos, uid) + SLICE).Some? && Expanded(name + SLICE).Some?
    ensures var expanded, outer := Expanded(PodStem(name, qos, uid) + SLICE).value,
                                 PathDir(Expanded(name + SLICE).value);
            var parts := PodParts(name, Systemd, qos, uid);
            if outer == "/" then expanded == Text(parts)
            else TrimPrefix(expanded, outer) == Text(parts) != expanded
  {
    var c, all := Split(name, '-'), Components(name, qos, uid);
    var n := |c|;
    StemExpands(name, qos, uid);
    LevelsNormal(name);
    PartsOfText(Levels(c));
    LevelsBelow(name, qos, uid);
    var outer, parts := Levels(c)[..n - 1], PodParts(name, Systemd, qos, uid);
    if n > 1 {
      assert all[..n] == c;
      LevelsPrefix(all, n);
      assert Levels(all)[..n - 1] == outer;
      assert Levels(all) == outer + parts;
      TextAppend(outer, parts);
      assert Text(outer) != "/" by { PartsOfText(outer); PartsOfText([]); }
    }
  }

  lemma StemExpands(name: string, qos: QoS, uid: string)
    requires ValidName(name) && Nests(name) && Free(uid, '/')
    ensures Expanded(PodStem(name, qos, uid) + SLICE) == Some(Text(Levels(Components(name, qos, uid))))
    ensures Expanded(name + SLICE) == Some(Text(Levels(Split(name, '-'))))
  {
    StemsAreFree(name, qos, uid);
    SplitOfPodStem(name, qos, uid);
    assert Split("-", '-') == ["", ""];
    ExpandedOfStem(PodStem(name, qos, uid));
    ExpandedOfStem(name);
  }

  /** The directories of a pod in plain text, driver by driver and class by class. */
  function Spelled(name: string, driver: Driver, qos: QoS, uid: string): seq<string> {
    if driver.Cgroupfs? then
      match qos
      case Guaranteed => [name, "pod" + uid]
      case Burstable => [name, "burstable", "pod" + uid]
      case BestEffort => [name, "besteffort", "pod" + uid]
    else
      match qos
      case Guaranteed => [name + ".slice", name + "-pod" + Escape(uid) + ".slice"]
      case Burstable =>
        [name + ".slice", name + "-burstable.slice", name + "-burstable-pod" + Escape(uid) + ".slice"]
      case BestEffort =>
        [name + ".slice", name + "-besteffort.slice", name + "-besteffort-pod" + Escape(uid) + ".slice"]
  }

  lemma SpelledOut(name: string, driver: Driver, qos: QoS, uid: string)
    ensures PodParts(name, driver, qos, uid) == Spelled(name, driver, qos, uid)
  {
    var pod := Escape(uid);
    assert name + "-" + ("pod" + pod) == name + "-pod" + pod;
    assert name + "-" + "burstable" + "-" + ("pod" + pod) == name + "-burstable-pod" + pod;
    assert name + "-" + "besteffort" + "-" + ("pod" + pod) == name + "-besteffort-pod" + pod;
    assert name + "-" + "burstable" + ".slice" == name + "-burstable.slice";
    assert name + "-" + "besteffort" + ".slice" == name + "-besteffort.slice";
  }

  /** The path of every pod, for both drivers and every class: the components below the root are the closed
      form; the only pods without a path are those of an un-nestable name under systemd. */
  lemma PathClosedForm(root: string, name: string, driver: Driver, qos: QoS, uid: string)
    requires IsAbs(root) && ValidName(name) && uid != "" && Free(uid, '/')
    ensures PodCgroupPath(root, name, driver, qos, uid) ==
            if Placed(name, driver) then Some(Text(Parts(root) + PodParts(name, driver, qos, uid))) else None
    ensures AllNormal(PodParts(name, driver, qos, uid))
    ensures PodParts(name, driver, qos, uid) == Spelled(name, driver, qos, uid)
  {
    SpelledOut(name, driver, qos, uid);
    var parts := PodParts(name, driver, qos, uid);
    PodPartsNormal(name, driver, qos, uid);
    JoinOntoRoot(root, parts);
    if driver.Cgroupfs? {
      assert [root] + parts == if qos.Guaranteed? then [root, name, "pod" + uid]
                               else [root, name, QosName(qos), "pod" + uid];
    } else if Nests(name) {
      StripLeavesPodParts(name, qos, uid);
    } else {
      var c, all, stem := Split(name, '-'), Components(name, qos, uid), PodStem(name, qos, uid);
      StemsAreFree(name, qos, uid);
      SplitOfPodStem(name, qos, uid);
      var i :| 0 <= i < |c| && c[i] == "";
      assert all[i] == "";
      ExpandedOfStem(stem);
    }
  }

  /** Two pods share a path exactly when driver and class agree and the UIDs do, up to the dashes systemd
      escapes. In particular UIDs without underscores never collide. */
  lemma PathsAreInjective(root: string, name: string, driver: Driver, qos: QoS, uid: string,
                          driver': Driver, qos': QoS, uid': string)
    requires IsAbs(root) && ValidName(name) && uid != "" && Free(uid, '/') && uid' != "" && Free(uid', '/')
    requires Placed(name, driver) && Placed(name, driver')
    ensures PodCgroupPath(root, name, driver, qos, uid) == PodCgroupPath(root, name, driver', qos', uid')
       <==> && driver == driver' && qos == qos'
            && (if driver.Systemd? then Escape(uid) == Escape(uid') else uid == uid')
    ensures Free(uid, '_') && Free(uid', '_') && Escape(uid) == Escape(uid') ==> uid == uid'
  {
    PathClosedForm(root, name, driver, qos, uid);
    PathClosedForm(root, name, driver', qos', uid');
    var a, b := PodParts(name, driver, qos, uid), PodParts(name, driver', qos', uid');
    if Text(Parts(root) + a) == Text(Parts(root) + b) {
      TextInjective(Parts(root) + a, Parts(root) + b);
      assert a == (Parts(root) + a)[|Parts(root)|..] == b;
      PodPartsInjective(name, driver, qos, uid, driver', qos', uid');
    }
    if Free(uid, '_') && Free(uid', '_') && Escape(uid) == Escape(uid') {
      forall i | 0 <= i < |uid|
        ensures uid[i] == uid'[i]
      {
        assert Escape(uid)[i] == Escape(uid')[i];
      }
    }
  }

  lemma PodPartsInjective(name: string, driver: Driver, qos: QoS, uid: string, driver': Driver, qos': QoS, uid': string)
    requires PodParts(name, driver, qos, uid) == PodParts(name, driver', qos', uid')
    ensures driver == driver' && qos == qos'
    ensures if driver.Systemd? then Escape(uid) == Escape(uid') else uid == uid'
  {
    var a, b := PodParts(name, driver, qos, uid), PodParts(name, driver', qos', uid');
    assert a[0] == b[0] && |a[0]| == |b[0]|;
    assert driver == driver';
    assert |a| == |b| && a[|a| - 1] == b[|b| - 1] && a[1] == b[1];
    if !qos.Guaranteed? {
      QosLevelsDiffer(name, driver, qos, uid, qos', uid');
    }
    if driver.Systemd? {
      PodStemsDiffer(name, qos, uid, uid');
    } else {
      Cancel("pod", uid, uid');
    }
  }

  lemma QosLevelsDiffer(name: string, driver: Driver, qos: QoS, uid: string, qos': QoS, uid': string)
    requires !qos.Guaranteed? && !qos'.Guaranteed?
    requires PodParts(name, driver, qos, uid)[1] == PodParts(name, driver, qos', uid')[1]
    ensures qos == qos'
  {
    var x, y := PodParts(name, driver, qos, uid)[1], PodParts(name, driver, qos', uid')[1];
    var i := if driver.Systemd? then |name| + 2 else 1;
    assert x[i] == QosName(qos)[1] && y[i] == QosName(qos')[1];
  }

  lemma PodStemsDiffer(name: string, qos: QoS, uid: string, uid': string)
    requires PodStem(name, qos, uid) + SLICE == PodStem(name, qos, uid') + SLICE
    ensures Escape(uid) == Escape(uid')
  {
    var stem := (if qos.Guaranteed? then name else QosStem(name, qos)) + "-";
    Middle(stem, "pod" + Escape(uid), "pod" + Escape(uid'), SLICE);
    Cancel("pod", Escape(uid), Escape(uid'));
  }

  lemma Cancel(p: string, a: string, b: string)
    ensures p + a == p + b ==> a == b
  {
    assert (p + a)[|p|..] == a && (p + b)[|p|..] == b;
  }

  lemma Middle(p: string, a: string, b: string, q: string)
    ensures p + a + q == p + b + q ==> a == b
  {
    if p + a + q == p + b + q {
      assert |a| == |b|;
      assert (p + a + q)[|p|..|p| + |a|] == a && (p + b + q)[|p|..|p| + |b|] == b;
    }
  }
}
