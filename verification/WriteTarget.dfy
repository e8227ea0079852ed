/** The write-target guard: which directories a knob may be written to at all. */
module WriteTarget {
  import opened Wrappers
  import opened PathText
  import opened PodPath

  /** extractPodUID: the UID a final path component would have to stand for, if any. */
  function ExtractPodUid(base: string, driver: Driver, qos: QoS, name: string): Option<string> {
    if driver.Cgroupfs? then
      if !HasPrefix(base, "pod") then None else Some(TrimPrefix(base, "pod"))
    else
      var prefix := LeafPrefix(name, qos);
      if !HasPrefix(base, prefix) || !HasSuffix(base, SLICE) then None
      else Some(TrimSuffix(TrimPrefix(base, prefix), SLICE))
  }

  /** What a pod's slice starts with under systemd. */
  function LeafPrefix(name: string, qos: QoS): string {
    (if qos.Guaranteed? then name else QosStem(name, qos)) + "-pod"
  }

  function PathBase(path: string): string {
    var parts := Parts(path);
    if parts == [] then "/" else parts[|parts| - 1]
  }

  predicate PodUid(uid: string) {
    uid != "" && Free(uid, '/')
  }

  /** A directory, from the filesystem root down, that is some pod's own cgroup. */
  ghost predicate IsPodDir(parts: seq<string>, root: string, name: string) {
    exists driver, qos, uid ::
      PodUid(uid) && Placed(name, driver) && parts == Parts(root) + PodParts(name, driver, qos, uid)
  }

  /** guardWriteTarget: accepts exactly the pod directories of this root and name. */
  method GuardWriteTarget(dir: string, root: string, name: string) returns (ok: bool)
    requires IsAbs(root) && ValidName(name)
    ensures ok <==> IsAbs(dir) && IsPodDir(Parts(dir), root, name)
  {
    if !IsAbs(dir) { return false; }
    var clean := Clean(dir);
    var cleanRoot := Clean(root);
    var base := PathBase(clean);
    var drivers, classes := [Systemd, Cgroupfs], [Guaranteed, Burstable, BestEffort];
    for i := 0 to |drivers|
      invariant forall a, q :: 0 <= a < i ==> !IsPodOf(dir, root, name, drivers[a], q)
    {
      for j := 0 to |classes|
        invariant forall b :: 0 <= b < j ==> !IsPodOf(dir, root, name, drivers[i], classes[b])
      {
        CandidateDecides(dir, root, name, drivers[i], classes[j]);
        var candidate := ExtractPodUid(base, drivers[i], classes[j], name);
        if candidate.Some? {
          var want := PodCgroupPath(cleanRoot, name, drivers[i], classes[j], candidate.value);
          if want.Some? && Clean(want.value) == clean {
            return true;
          }
        }
      }
      forall q: QoS
        ensures !IsPodOf(dir, root, name, drivers[i], q)
      {
        assert q == classes[0] || q == classes[1] || q == classes[2];
      }
    }
    forall d: Driver, q: QoS
      ensures !IsPodOf(dir, root, name, d, q)
    {
      assert d == drivers[0] || d == drivers[1];
    }
    PodDirIsSomePods(dir, root, name);
    return false;
  }

  ghost predicate IsPodOf(dir: string, root: string, name: string, driver: Driver, qos: QoS)
    ensures IsPodOf(dir, root, name, driver, qos) ==> IsPodDir(Parts(dir), root, name)
  {
    exists uid :: Reaches(dir, root, name, driver, qos, uid)
  }

  lemma PodDirIsSomePods(dir: string, root: string, name: string)
    ensures IsPodDir(Parts(dir), root, name) ==> exists d, q :: IsPodOf(dir, root, name, d, q)
  {
    if IsPodDir(Parts(dir), root, name) {
      var d, q, uid :| PodUid(uid) && Placed(name, d) && Parts(dir) == Parts(root) + PodParts(name, d, q, uid);
      assert Reaches(dir, root, name, d, q, uid) && IsPodOf(dir, root, name, d, q);
    }
  }

  /** Extracting one candidate and recomputing its path settles a driver and a class. */
  lemma CandidateDecides(dir: string, root: string, name: string, driver: Driver, qos: QoS)
    requires IsAbs(root) && ValidName(name)
    ensures var candidate := ExtractPodUid(PathBase(Clean(dir)), driver, qos, name);
            IsPodOf(dir, root, name, driver, qos) <==>
              && candidate.Some?
              && var want := PodCgroupPath(Clean(root), name, driver, qos, candidate.value);
                 want.Some? && Clean(want.value) == Clean(dir)
  {
    var candidate := ExtractPodUid(PathBase(Clean(dir)), driver, qos, name);
    if candidate.Some? {
      MatchMeansReach(dir, root, name, driver, qos, candidate.value);
    }
    if IsPodOf(dir, root, name, driver, qos) {
      var uid :| Reaches(dir, root, name, driver, qos, uid);
      ExtractFinds(dir, root, name, driver, qos, uid);
    }
  }

  predicate Reaches(dir: string, root: string, name: string, driver: Driver, qos: QoS, uid: string) {
    PodUid(uid) && Placed(name, driver) && Parts(dir) == Parts(root) + PodParts(name, driver, qos, uid)
  }

  /** Recomputing the path of a candidate decides whether the directory is that pod's. */
  lemma MatchMeansReach(dir: string, root: string, name: string, driver: Driver, qos: QoS, uid: string)
    requires IsAbs(root) && ValidName(name) && ExtractPodUid(PathBase(Clean(dir)), driver, qos, name) == Some(uid)
    ensures var want := PodCgroupPath(Clean(root), name, driver, qos, uid);
            (want.Some? && Clean(want.value) == Clean(dir)) <==> Reaches(dir, root, name, driver, qos, uid)
  {
    PartsOfText(Parts(dir));
    PartsOfText(Parts(root));
    ExtractIsSlashFree(Parts(dir), driver, qos, name);
    if uid != "" && Parts(dir) != [] {
      PathClosedForm(Clean(root), name, driver, qos, uid);
      if Placed(name, driver) {
        var whole := Parts(root) + PodParts(name, driver, qos, uid);
        PartsOfText(whole);
        if Text(whole) == Text(Parts(dir)) {
          TextInjective(whole, Parts(dir));
        }
      }
    }
  }

  lemma ExtractIsSlashFree(parts: seq<string>, driver: Driver, qos: QoS, name: string)
    requires AllNormal(parts)
    ensures var base := if parts == [] then "/" else parts[|parts| - 1];
            var uid := ExtractPodUid(base, driver, qos, name);
            uid.Some? ==> parts != [] && Free(uid.value, '/')
  {
    if parts == [] && driver.Systemd? {
      assert !HasSuffix("/", SLICE);
    }
  }

  /** The candidate extracted from a pod's directory leads back to that directory. */
  lemma ExtractFinds(dir: string, root: string, name: string, driver: Driver, qos: QoS, uid: string)
    requires ValidName(name) && Reaches(dir, root, name, driver, qos, uid)
    ensures var found := ExtractPodUid(PathBase(Clean(dir)), driver, qos, name);
            found.Some? && Reaches(dir, root, name, driver, qos, found.value)
  {
    PartsOfText(Parts(dir));
    var parts := PodParts(name, driver, qos, uid);
    assert PathBase(Clean(dir)) == parts[|parts| - 1];
    ExtractOfLeaf(name, driver, qos, uid);
  }

  lemma ExtractOfLeaf(name: string, driver: Driver, qos: QoS, uid: string)
    ensures var parts := PodParts(name, driver, qos, uid);
            var found := if driver.Systemd? then Escape(uid) else uid;
            && ExtractPodUid(parts[|parts| - 1], driver, qos, name) == Some(found)
            && PodParts(name, driver, qos, found) == parts
  {
    if driver.Cgroupfs? {
      assert ("pod" + uid)[3..] == uid;
    } else {
      assert Escape(Escape(uid)) == Escape(uid);
      LeafText(name, qos, uid);
      Wrapped(LeafPrefix(name, qos), Escape(uid), SLICE);
    }
  }

  lemma LeafText(name: string, qos: QoS, uid: string)
    ensures PodStem(name, qos, uid) + SLICE == LeafPrefix(name, qos) + Escape(uid) + SLICE
  {
    var stem := if qos.Guaranteed? then name else QosStem(name, qos);
    assert stem + "-" + ("pod" + Escape(uid)) == stem + "-pod" + Escape(uid);
  }

  lemma Wrapped(prefix: string, middle: string, suffix: string)
    ensures var s := prefix + middle + suffix;
            && HasPrefix(s, prefix) && HasSuffix(s, suffix) && s[|prefix|..|s| - |suffix|] == middle
            && TrimSuffix(TrimPrefix(s, prefix), suffix) == middle
  {
    var s := prefix + middle + suffix;
    assert s[..|prefix|] == prefix && s[|prefix|..] == middle + suffix;
    assert s[|s| - |suffix|..] == suffix;
    assert (middle + suffix)[|middle|..] == suffix && (middle + suffix)[..|middle|] == middle;
  }

  lemma Unwrapped(s: string, prefix: string, suffix: string)
    requires |prefix| + |suffix| <= |s| && HasPrefix(s, prefix) && HasSuffix(s, suffix)
    ensures s == prefix + s[|prefix|..|s| - |suffix|] + suffix
  {
    assert s == s[..|prefix|] + s[|prefix|..|s| - |suffix|] + s[|s| - |suffix|..];
  }

  /** Printer and recogniser agree: a path is accepted exactly when it is, once cleaned, the path
      PodCgroupPath gives some pod. */
  lemma AcceptedIsPrinted(dir: string, root: string, name: string)
    requires IsAbs(root) && ValidName(name)
    ensures IsPodDir(Parts(dir), root, name) <==>
            exists driver, qos, uid :: PodUid(uid) && PodCgroupPath(root, name, driver, qos, uid) == Some(Clean(dir))
  {
    forall driver, qos, uid | PodUid(uid)
      ensures PodCgroupPath(root, name, driver, qos, uid) == Some(Clean(dir)) <==>
              Placed(name, driver) && Parts(dir) == Parts(root) + PodParts(name, driver, qos, uid)
    {
      PathClosedForm(root, name, driver, qos, uid);
      if Text(Parts(dir)) == Text(Parts(root) + PodParts(name, driver, qos, uid)) {
        TextInjective(Parts(dir), Parts(root) + PodParts(name, driver, qos, uid));
      }
    }
  }

  predicate Ancestor(a: seq<string>, b: seq<string>) {
    a < b
  }

  /** No pod directory lies above another, across both drivers and all classes: a write to one pod can
      never be a write to a level shared with others, nor to something inside a pod. */
  lemma PodDirsAreAntichain(a: seq<string>, b: seq<string>, root: string, name: string)
    requires IsPodDir(a, root, name) && IsPodDir(b, root, name)
    ensures !Ancestor(a, b)
  {
    var d, q, u :| PodUid(u) && Placed(name, d) && a == Parts(root) + PodParts(name, d, q, u);
    var d', q', u' :| PodUid(u') && Placed(name, d') && b == Parts(root) + PodParts(name, d', q', u');
    if a < b {
      var x, y := PodParts(name, d, q, u), PodParts(name, d', q', u');
      var n := |Parts(root)|;
      assert x[0] == a[n] == b[n] == y[0] && x[1] == a[n + 1] == b[n + 1] == y[1];
      assert q.Guaranteed? && !q'.Guaranteed?;
      assert d == d' by {
        assert |x[0]| == |y[0]|;
      }
      SecondLevelsDiffer(name, d, u, q');
    }
  }

  lemma SecondLevelsDiffer(name: string, d: Driver, uid: string, q: QoS)
    requires !q.Guaranteed?
    ensures PodParts(name, d, Guaranteed, uid)[1] != PodParts(name, d, q, uid)[1]
    ensures PodParts(name, d, q, uid)[1] == if d.Systemd? then QosStem(name, q) + SLICE else QosName(q)
  {
    var x, y := PodParts(name, d, Guaranteed, uid)[1], PodParts(name, d, q, uid)[1];
    var i := if d.Systemd? then |name| + 1 else 0;
    assert x[i] == 'p' && y[i] == 'b';
  }

  /** The levels every pod shares, and the root itself, are refused; so is anything below a pod. */
  lemma SharedLevelsAreRefused(root: string, name: string, qos: QoS, below: seq<string>, pod: seq<string>)
    requires ValidName(name) && !qos.Guaranteed?
    requires IsPodDir(pod, root, name) && below != []
    ensures !IsPodDir(Parts(root), root, name)
    ensures !IsPodDir(Parts(root) + [name], root, name) && !IsPodDir(Parts(root) + [name + SLICE], root, name)
    ensures !IsPodDir(Parts(root) + [name, QosName(qos)], root, name)
    ensures !IsPodDir(Parts(root) + [name + SLICE, QosStem(name, qos) + SLICE], root, name)
    ensures !IsPodDir(pod + below, root, name)
  {
    var r := Parts(root);
    if IsPodDir(pod + below, root, name) {
      PodDirsAreAntichain(pod, pod + below, root, name);
    }
    PodDirIsNotShared(r + [name, QosName(qos)], root, name, Cgroupfs, qos);
    PodDirIsNotShared(r + [name + SLICE, QosStem(name, qos) + SLICE], root, name, Systemd, qos);
  }

  lemma PodDirIsNotShared(level: seq<string>, root: string, name: string, d: Driver, qos: QoS)
    requires !qos.Guaranteed?
    requires level == Parts(root) + PodParts(name, d, qos, "x")[..2]
    ensures !IsPodDir(level, root, name)
  {
    if IsPodDir(level, root, name) {
      var d', q', u' :| PodUid(u') && Placed(name, d') && level == Parts(root) + PodParts(name, d', q', u');
      var y := PodParts(name, d', q', u');
      var n := |Parts(root)|;
      assert level[n] == y[0] && level[n + 1] == y[1] && |y| == 2;
      assert d == d' by {
        assert |level[n]| == |y[0]|;
      }
      SecondLevelsDiffer(name, d, u', qos);
      SecondLevelsDiffer(name, d, "x", qos);
    }
  }

  // ---- printed paths and the guard ----

  /** The levels above a pod's own directory. */
  function Above(name: string, driver: Driver, qos: QoS): seq<string> {
    if driver.Systemd? then [name + SLICE] + (if qos.Guaranteed? then [] else [QosStem(name, qos) + SLICE])
    else [name] + (if qos.Guaranteed? then [] else [QosName(qos)])
  }

  /** A last component that reads as a pod's: something follows "pod", and under systemd it holds no dash. */
  predicate PodLeaf(leaf: string, name: string, driver: Driver, qos: QoS) {
    if driver.Cgroupfs? then "pod" < leaf
    else
      var prefix := LeafPrefix(name, qos);
      && |prefix| + |SLICE| < |leaf| && prefix <= leaf && HasSuffix(leaf, SLICE)
      && Free(leaf[|prefix|..|leaf| - |SLICE|], '-')
  }

  predicate ShapedAs(parts: seq<string>, root: string, name: string, driver: Driver, qos: QoS) {
    var above := Parts(root) + Above(name, driver, qos);
    Placed(name, driver) && |parts| == |above| + 1 && above <= parts && PodLeaf(parts[|above|], name, driver, qos)
  }

  /** The shape of a pod directory, read off its components. */
  predicate PodShaped(parts: seq<string>, root: string, name: string) {
    exists driver: Driver, qos: QoS :: ShapedAs(parts, root, name, driver, qos)
  }

  lemma PodPartsShape(name: string, driver: Driver, qos: QoS, uid: string)
    requires PodUid(uid)
    ensures var parts := PodParts(name, driver, qos, uid);
            && parts == Above(name, driver, qos) + [parts[|parts| - 1]]
            && PodLeaf(parts[|parts| - 1], name, driver, qos)
  {
    var parts := PodParts(name, driver, qos, uid);
    var leaf := parts[|parts| - 1];
    assert parts == Above(name, driver, qos) + [leaf];
    if driver.Systemd? {
      LeafText(name, qos, uid);
      Wrapped(LeafPrefix(name, qos), Escape(uid), SLICE);
    } else {
      assert leaf == "pod" + uid;
    }
  }

  lemma LeafNamesPod(leaf: string, name: string, driver: Driver, qos: QoS) returns (uid: string)
    requires Free(leaf, '/') && PodLeaf(leaf, name, driver, qos)
    ensures PodUid(uid) && PodParts(name, driver, qos, uid) == Above(name, driver, qos) + [leaf]
  {
    if driver.Cgroupfs? {
      uid := leaf[3..];
      assert leaf == "pod" + uid;
    } else {
      uid := leaf[|LeafPrefix(name, qos)|..|leaf| - |SLICE|];
      assert Escape(uid) == uid;
      Unwrapped(leaf, LeafPrefix(name, qos), SLICE);
      LeafText(name, qos, uid);
    }
  }

  lemma PodDirIsShaped(parts: seq<string>, root: string, name: string, driver: Driver, qos: QoS, uid: string)
    requires PodUid(uid) && Placed(name, driver) && parts == Parts(root) + PodParts(name, driver, qos, uid)
    ensures ShapedAs(parts, root, name, driver, qos)
  {
    PodPartsShape(name, driver, qos, uid);
    var pod := PodParts(name, driver, qos, uid);
    Regroup(Parts(root), Above(name, driver, qos), pod[|pod| - 1]);
  }

  lemma Regroup(a: seq<string>, b: seq<string>, x: string)
    ensures a + (b + [x]) == (a + b) + [x] && a + b <= a + (b + [x])
  {
  }

  lemma ShapedIsPodDir(parts: seq<string>, root: string, name: string, driver: Driver, qos: QoS)
    requires AllNormal(parts) && ShapedAs(parts, root, name, driver, qos)
    ensures IsPodDir(parts, root, name)
  {
    var n := |Parts(root) + Above(name, driver, qos)|;
    var uid := LeafNamesPod(parts[n], name, driver, qos);
    Regroup(Parts(root), Above(name, driver, qos), parts[n]);
    assert parts == parts[..n] + [parts[n]];
  }

  /** Being a pod directory is a matter of shape. */
  lemma ShapeDecides(parts: seq<string>, root: string, name: string)
    requires AllNormal(parts)
    ensures IsPodDir(parts, root, name) <==> PodShaped(parts, root, name)
  {
    if IsPodDir(parts, root, name) {
      var d, q, uid :| PodUid(uid) && Placed(name, d) && parts == Parts(root) + PodParts(name, d, q, uid);
      PodDirIsShaped(parts, root, name, d, q, uid);
    }
    if PodShaped(parts, root, name) {
      var d: Driver, q: QoS :| ShapedAs(parts, root, name, d, q);
      ShapedIsPodDir(parts, root, name, d, q);
    }
  }

  lemma AboveNormal(root: string, name: string, qos: QoS)
    requires ValidName(name)
    ensures AllNormal(Above(name, Cgroupfs, qos)) && AllNormal(Parts(root) + Above(name, Cgroupfs, qos))
  {
  }

  /** Where "pod" and a UID lead from the class directory, whatever the UID contains. */
  function Landing(root: string, name: string, qos: QoS, uid: string): (r: seq<string>)
    requires ValidName(name)
    ensures AllNormal(r)
  {
    AboveNormal(root, name, qos);
    Resolve(Parts(root) + Above(name, Cgroupfs, qos), Split("pod" + uid, '/'))
  }

  lemma CgroupfsLands(root: string, name: string, qos: QoS, uid: string)
    requires ValidName(name)
    ensures CgroupfsPath(root, name, qos, uid) == Text(Landing(root, name, qos, uid))
  {
    var above, leaf := Above(name, Cgroupfs, qos), "pod" + uid;
    AboveNormal(root, name, qos);
    JoinAppend([root] + above, [leaf], '/');
    JoinAppend([root], above, '/');
    assert [root] + above + [leaf] == if qos.Guaranteed? then [root, name, leaf] else [root, name, QosName(qos), leaf];
    PartsOfLonger(root + "/" + Join(above, '/'), leaf);
    PartsOfJoin(root, above);
  }

  lemma SlashNeverExpands(root: string, name: string, qos: QoS, uid: string)
    requires !Free(uid, '/')
    ensures SystemdPath(root, name, qos, uid) == None
  {
    var i :| 0 <= i < |uid| && uid[i] == '/';
    assert Escape(uid)[i] == '/';
    var slice := PodStem(name, qos, uid) + SLICE;
    var before := (if qos.Guaranteed? then name else QosStem(name, qos)) + "-" + "pod";
    assert slice[|before| + i] == '/';
    assert slice == if qos.Guaranteed? then name + "-" + ("pod" + Escape(uid)) + SLICE
                    else name + "-" + QosName(qos) + "-" + ("pod" + Escape(uid)) + SLICE;
  }

  /** Every UID, slashes included. The systemd driver prints no path for one with a slash, and the guard accepts all it
      prints. The cgroupfs driver prints a path for every UID, and the guard accepts it exactly when the components it
      resolves to have the shape of a pod directory, of any driver and class. For a UID with a slash that can only be
      another pod's directory. */
  lemma PrintedIsAccepted(root: string, name: string, driver: Driver, qos: QoS, uid: string)
    requires IsAbs(root) && ValidName(name) && uid != ""
    ensures var path := PodCgroupPath(root, name, driver, qos, uid);
            && (path.Some? <==> driver.Cgroupfs? || (Nests(name) && Free(uid, '/')))
            && (path.Some? ==>
                  && (IsPodDir(Parts(path.value), root, name) <==>
                        driver.Systemd? || PodShaped(Landing(root, name, qos, uid), root, name))
                  && (Free(uid, '/') ==> IsPodDir(Parts(path.value), root, name))
                  && (!Free(uid, '/') && IsPodDir(Parts(path.value), root, name) ==>
                        exists d, q, other ::
                          PodUid(other) && other != uid && PodCgroupPath(root, name, d, q, other) == path))
  {
    if Free(uid, '/') {
      PathClosedForm(root, name, driver, qos, uid);
      PartsOfText(Parts(root) + PodParts(name, driver, qos, uid));
    } else {
      SlashNeverExpands(root, name, qos, uid);
    }
    if driver.Cgroupfs? {
      CgroupfsLands(root, name, qos, uid);
      var landing := Landing(root, name, qos, uid);
      PartsOfText(landing);
      ShapeDecides(landing, root, name);
      AcceptedIsPrinted(Text(landing), root, name);
      if IsPodDir(landing, root, name) {
        var d, q, other :| PodUid(other) && PodCgroupPath(root, name, d, q, other) == Some(Clean(Text(landing)));
        assert !Free(uid, '/') ==> other != uid;
      }
    }
  }

  /** A UID that names something below another pod is printed and refused. */
  lemma BelowAPodIsRefused(root: string, name: string, qos: QoS, a: string, b: string)
    requires IsAbs(root) && ValidName(name) && PodUid(a) && Normal(b)
    ensures var path := PodCgroupPath(root, name, Cgroupfs, qos, a + "/" + b);
            path == Some(Text(Parts(root) + PodParts(name, Cgroupfs, qos, a) + [b])) &&
            !IsPodDir(Parts(path.value), root, name)
  {
    var pod, above := PodParts(name, Cgroupfs, qos, a), Parts(root) + Above(name, Cgroupfs, qos);
    PodPartsNormal(name, Cgroupfs, qos, a);
    AboveNormal(root, name, qos);
    CgroupfsLands(root, name, qos, a + "/" + b);
    SplitInto(a, b);
    SplitOfFree(b, '/');
    var parts := ["pod" + a] + [b];
    ResolveNormal(above, parts);
    assert above + parts == Parts(root) + pod + [b];
    PartsOfText(Parts(root) + pod + [b]);
    assert IsPodDir(Parts(root) + pod, root, name);
    if IsPodDir(Parts(root) + pod + [b], root, name) {
      PodDirsAreAntichain(Parts(root) + pod, Parts(root) + pod + [b], root, name);
    }
  }

  lemma SplitInto(a: string, more: string)
    requires Free(a, '/')
    ensures Split("pod" + (a + "/" + more), '/') == ["pod" + a] + Split(more, '/')
  {
    assert "pod" + (a + "/" + more) == ("pod" + a) + "/" + more;
    SplitOfJoined("pod" + a, '/', more);
    SplitOfFree("pod" + a, '/');
  }

  /** A UID that steps back into its class directory is printed as another pod's path and accepted. */
  lemma BackIntoAPodIsAccepted(root: string, name: string, qos: QoS, a: string, other: string)
    requires IsAbs(root) && ValidName(name) && PodUid(a) && PodUid(other)
    ensures var path := PodCgroupPath(root, name, Cgroupfs, qos, a + "/" + ("../pod" + other));
            path == PodCgroupPath(root, name, Cgroupfs, qos, other) && path.Some? &&
            IsPodDir(Parts(path.value), root, name)
  {
    var above := Parts(root) + Above(name, Cgroupfs, qos);
    AboveNormal(root, name, qos);
    CgroupfsLands(root, name, qos, a + "/" + ("../pod" + other));
    CgroupfsLands(root, name, qos, other);
    SplitBack(a, other);
    SplitOfFree("pod" + other, '/');
    ResolveBack(above, "pod" + a, "pod" + other);
    PrintedIsAccepted(root, name, Cgroupfs, qos, other);
  }

  lemma SplitBack(a: string, other: string)
    requires Free(a, '/') && Free(other, '/')
    ensures Split("pod" + (a + "/" + ("../pod" + other)), '/') == ["pod" + a, "..", "pod" + other]
  {
    SplitInto(a, "../pod" + other);
    SplitUp(other);
    assert ["pod" + a] + ["..", "pod" + other] == ["pod" + a, "..", "pod" + other];
  }

  lemma SplitUp(other: string)
    requires Free(other, '/')
    ensures Split("../pod" + other, '/') == ["..", "pod" + other]
  {
    assert "../pod" + other == ".." + "/" + ("pod" + other);
    SplitOfJoined("..", '/', "pod" + other);
    SplitOfFree("..", '/');
    SplitOfFree("pod" + other, '/');
    assert [".."] + ["pod" + other] == ["..", "pod" + other];
  }

  lemma ResolveBack(stack: seq<string>, x: string, y: string)
    requires AllNormal(stack) && Normal(x) && Normal(y)
    ensures Resolve(stack, [x, "..", y]) == Resolve(stack, [y])
  {
    assert [x, "..", y][1..] == ["..", y] && ["..", y][1..] == [y];
    assert (stack + [x])[..|stack|] == stack;
    assert Resolve(stack + [x], ["..", y]) == Resolve(stack, [y]);
  }
}
