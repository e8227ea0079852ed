/**
 What the reconciler knows as a value: which tiers each pod is in, which pod a key stands for, what was last said
 about it and which restores are open; and what one event does to all of that.
 */
module PodIndex {
  import opened Wrappers
  import opened Plan
  import Transaction
  import Applying
  import Notices

  type Uid = string
  type Key = string

  /** One cpu_pods_in_tier series of this node. */
  datatype Label = Label(namespace: string, qosClass: string, tier: string)

  datatype Membership = Membership(key: Key, tiers: seq<Label>)

  type Members = map<Uid, Membership>

  // ---- recounting ----

  function In(ms: Members, series: Label): set<Uid> {
    set u | u in ms && series in ms[u].tiers
  }

  /** How many pods are in the series, counted from scratch. */
  function Recount(ms: Members, series: Label): nat {
    |In(ms, series)|
  }

  function Count(counts: map<Label, int>, series: Label): int {
    if series in counts then counts[series] else 0
  }

  /** The counts are the recount, and only series with a pod in them exist. */
  ghost predicate Tallied(ms: Members, counts: map<Label, int>) {
    forall series: Label :: Get(counts, series) == if Recount(ms, series) > 0 then Some(Recount(ms, series)) else None
  }

  predicate Distinct(tiers: seq<Label>) {
    forall i, j :: 0 <= i < j < |tiers| ==> tiers[i] != tiers[j]
  }

  /** Keys and UIDs name each other. */
  predicate Inverse(ms: Members, uidByKey: map<Key, Uid>) {
    && (forall u :: u in ms ==> ms[u].key in uidByKey && uidByKey[ms[u].key] == u)
    && (forall k :: k in uidByKey ==> uidByKey[k] in ms && ms[uidByKey[k]].key == k)
  }

  function One(b: bool): int {
    if b then 1 else 0
  }

  lemma RecountDrop(ms: Members, uid: Uid, series: Label)
    ensures Recount(ms, series) == Recount(ms - {uid}, series) + One(uid in ms && series in ms[uid].tiers)
  {
    if uid in ms && series in ms[uid].tiers {
      assert In(ms, series) == In(ms - {uid}, series) + {uid};
    } else {
      assert In(ms, series) == In(ms - {uid}, series);
    }
  }

  lemma RecountPut(ms: Members, uid: Uid, next: Membership, series: Label)
    ensures Recount(ms[uid := next], series) == Recount(ms - {uid}, series) + One(series in next.tiers)
  {
    RecountDrop(ms[uid := next], uid, series);
    assert ms[uid := next] - {uid} == ms - {uid};
  }

  lemma RecountReplaced(ms: Members, uid: Uid, next: Membership)
    ensures forall series: Label ::
              Recount(ms[uid := next], series) ==
              Recount(ms, series) - One(uid in ms && series in ms[uid].tiers) + One(series in next.tiers)
  {
    forall series: Label
      ensures Recount(ms[uid := next], series) ==
              Recount(ms, series) - One(uid in ms && series in ms[uid].tiers) + One(series in next.tiers)
    {
      RecountDrop(ms, uid, series);
      RecountPut(ms, uid, next, series);
    }
  }

  // ---- what a pod's cgroup shows ----

  /** The outcome of reading a pod's snapshot. `Missing` is a vanished cgroup; for a running pod that is an
      error, otherwise the pod simply has no tiers. */
  datatype Reading = Live(knobs: Knobs) | Missing(running: bool) | Unreadable

  datatype Seen = Seen(key: Key, uid: Uid, namespace: string, qosClass: string, mirror: bool, reading: Reading)

  function TiersOf(p: Seen, k: Knobs): (r: seq<Label>)
    ensures Distinct(r)
  {
    (if k.idle then [Label(p.namespace, p.qosClass, "idle")] else [])
    + (if k.limit.Finite? && k.burst > 0 then [Label(p.namespace, p.qosClass, "burst")] else [])
  }

  /** What a reading says about membership; `None` is "unknown, keep the last confirmed one". */
  function Confirmed(p: Seen, r: Reading): Option<seq<Label>> {
    match r
    case Live(k) => Some(TiersOf(p, k))
    case Missing(running) => if running then None else Some([])
    case Unreadable => None
  }

  function ScanOne(ms: Members, p: Seen): Membership {
    var tiers := Confirmed(p, p.reading);
    Membership(p.key, if tiers.Some? then tiers.value else if p.uid in ms then ms[p.uid].tiers else [])
  }

  /** Membership after a full scan of the node. */
  function Scan(ms: Members, pods: seq<Seen>): Members {
    if pods == [] then map[]
    else
      var rest, p := Scan(ms, pods[..|pods| - 1]), pods[|pods| - 1];
      if p.mirror then rest else rest[p.uid := ScanOne(ms, p)]
  }

  /** A full scan, pod by pod: what a live cgroup shows, nothing for a pod whose cgroup is legitimately absent, and
      the last confirmed tiers where the reading says nothing. */
  lemma {:induction false} ScanShows(ms: Members, pods: seq<Seen>, i: nat)
    requires Listing(pods) && i < |pods| && !pods[i].mirror
    ensures var p, scan := pods[i], Scan(ms, pods);
            && p.uid in scan && scan[p.uid].key == p.key
            && match p.reading
               case Live(k) =>
                 forall series :: series in scan[p.uid].tiers <==>
                   || (k.idle && series == Label(p.namespace, p.qosClass, "idle"))
                   || (k.limit.Finite? && k.burst > 0 && series == Label(p.namespace, p.qosClass, "burst"))
               case Missing(false) => scan[p.uid].tiers == []
               case _ => scan[p.uid].tiers == if p.uid in ms then ms[p.uid].tiers else []
  {
    var n := |pods| - 1;
    if i < n {
      assert pods[..n][i] == pods[i];
      ScanShows(ms, pods[..n], i);
    }
  }

  /** ... and nobody else: every member is a listed pod that is not a mirror, under its own key. */
  lemma {:induction false} ScanHoldsListed(ms: Members, pods: seq<Seen>, uid: Uid)
    requires uid in Scan(ms, pods)
    ensures exists i :: 0 <= i < |pods| && !pods[i].mirror && pods[i].uid == uid &&
              pods[i].key == Scan(ms, pods)[uid].key
    decreases |pods|
  {
    var init, p := pods[..|pods| - 1], pods[|pods| - 1];
    if p.mirror || p.uid != uid {
      ScanHoldsListed(ms, init, uid);
      var i :| 0 <= i < |init| && !init[i].mirror && init[i].uid == uid && init[i].key == Scan(ms, init)[uid].key;
      assert pods[i] == init[i];
    }
  }

  /** The lister holds one object per key, and UIDs are unique. */
  predicate Listing(pods: seq<Seen>) {
    forall i, j :: 0 <= i < j < |pods| && !pods[i].mirror && !pods[j].mirror ==>
      pods[i].uid != pods[j].uid && pods[i].key != pods[j].key
  }

  /** A series that exists before and after is there in every published state in between. */
  predicate NoGap(before: map<Label, int>, after: map<Label, int>, scrapes: seq<map<Label, int>>) {
    forall series, i {:trigger series in scrapes[i]} ::
      series in before && series in after && 0 <= i < |scrapes| ==> series in scrapes[i]
  }

  // ---- what one event does, as a function of what was known ----

  /** What a pass over one pod works with: the first reading, the desired tiers and notes, the restore weight,
      and how its Apply or Revert goes: what an Apply reads itself and how it ends, the journal entry it leaves, and
      the second reading. A path that cannot be computed is an unreadable pod. */
  datatype PodIn = PodIn(seen: Seen, desired: Tier, notes: seq<Notices.Note>, weight: nat,
                         call: Applying.Call, pendingAfter: bool, after: Reading)
  {
    predicate Fails() {
      Applying.EndOf(call) == Transaction.Failed
    }
  }

  /** What the lister answers for a key. */
  datatype Lookup = NotFound | Held(pod: PodIn) | LookupFails

  /** Everything the reconciler remembers; its counts follow from it. */
  datatype Index = Index(ready: bool, ms: Members, byKey: map<Key, Uid>, notes: map<Uid, string>, pending: set<Uid>)

  predicate WantsTier(desired: Tier) {
    desired.idleRequested || desired.burstRequested
  }

  function PassOf(pod: PodIn, k: Knobs, pending: bool): Notices.Pass {
    Notices.Pass(Notices.Signature(pod.notes, QuotaMissing(pod.desired, k)),
                 Transaction.HasCgroupWork(Transaction.Ledger(Some(k), pending), pod.desired, k, pod.weight),
                 !pod.Fails())
  }

  function Forgot(ix: Index, uid: Uid): Index {
    ix.(pending := ix.pending - {uid})
  }

  /** All that was known about a key's pod is gone. */
  function Dropped(ix: Index, key: Key, uid: Uid): Index {
    Forgot(ix, uid).(ms := ix.ms - {uid}, byKey := ix.byKey - {key}, notes := ix.notes - {uid})
  }

  predicate Replaces(byKey: map<Key, Uid>, key: Key, uid: Uid) {
    key in byKey && byKey[key] != uid
  }

  function Kept(ix: Index, key: Key, uid: Uid): Index {
    if Replaces(ix.byKey, key, uid) then Dropped(ix, key, ix.byKey[key]) else ix
  }

  /** The key is known to stand for the UID. */
  function Known(ix: Index, key: Key, uid: Uid): Index {
    var kept := Kept(ix, key, uid);
    kept.(byKey := kept.byKey[key := uid],
          ms := if uid in kept.ms then kept.ms else kept.ms[uid := Membership(key, [])])
  }

  function Placed(ix: Index, key: Key, uid: Uid, tiers: seq<Label>): Index {
    var known := Known(ix, key, uid);
    known.(ms := known.ms[uid := Membership(key, tiers)])
  }

  /** A later reading of a known pod; one that says nothing changes nothing. */
  function Reread(ix: Index, key: Key, p: Seen, r: Reading): Index {
    var tiers := Confirmed(p, r);
    if tiers.None? then ix else Placed(if r.Missing? then Forgot(ix, p.uid) else ix, key, p.uid, tiers.value)
  }

  function Noted(ix: Index, uid: Uid, last: Option<string>): Index {
    ix.(notes := if last.None? then ix.notes - {uid} else ix.notes[uid := last.value])
  }

  function Journaled(ix: Index, uid: Uid, pending: bool): Index {
    ix.(pending := if pending then ix.pending + {uid} else ix.pending - {uid})
  }

  /** Asking for cgroup work closes a journal entry whose weight is already right. */
  function Asked(ix: Index, pod: PodIn, k: Knobs): Index {
    var l := Transaction.Ledger(Some(k), pod.seen.uid in ix.pending);
    if pod.desired.idleRequested || Transaction.Checked(l, k, pod.weight).pending then ix else Forgot(ix, pod.seen.uid)
  }

  function LiveRoute(ix: Index, pod: PodIn, k: Knobs): Notices.Route {
    Notices.Routed(Get(ix.notes, pod.seen.uid), PassOf(pod, k, pod.seen.uid in ix.pending), WantsTier(pod.desired))
  }

  /** The record committed, and unless the pass was silent, the journal entry and the second reading. */
  function RoutedPass(ix: Index, key: Key, pod: PodIn, pass: Notices.Pass): Index {
    var uid := pod.seen.uid;
    var last := Get(ix.notes, uid);
    var noted := Noted(ix, uid, Notices.NextLast(last, pass));
    if Notices.Routed(last, pass, WantsTier(pod.desired)).Silent? then noted
    else Reread(Journaled(noted, uid, pod.pendingAfter), key, pod.seen, pod.after)
  }

  /** A pass over a pod whose cgroup was read and whose tiers are placed. */
  function LivePass(ix: Index, key: Key, pod: PodIn, k: Knobs): Index {
    RoutedPass(Asked(ix, pod, k), key, pod, PassOf(pod, k, pod.seen.uid in ix.pending))
  }

  function PassedPresent(ix: Index, key: Key, pod: PodIn): Index {
    var uid := pod.seen.uid;
    match pod.seen.reading
    case Unreadable => Known(ix, key, uid)
    case Missing(running) => if running then Known(ix, key, uid) else Placed(Forgot(ix, uid), key, uid, [])
    case Live(k) => LivePass(Placed(ix, key, uid, TiersOf(pod.seen, k)), key, pod, k)
  }

  function WithoutKey(ix: Index, key: Key): Index {
    if key in ix.byKey then Dropped(ix, key, ix.byKey[key]) else ix
  }

  predicate Tracks(lookup: Lookup) {
    lookup.Held? && !lookup.pod.seen.mirror
  }

  /** One Reconcile, past its first full scan. */
  function Passed(ix: Index, key: Key, lookup: Lookup): Index {
    if lookup.LookupFails? then ix
    else if Tracks(lookup) then PassedPresent(ix, key, lookup.pod)
    else WithoutKey(ix, key)
  }

  /** Where it is routed. A pass over a live pod meets the record and the journal entry of its own UID. */
  function RouteOf(ix: Index, lookup: Lookup): Notices.Route {
    if Tracks(lookup) && lookup.pod.seen.reading.Live? then LiveRoute(ix, lookup.pod, lookup.pod.seen.reading.knobs)
    else Notices.Silent
  }

  /** Whether it returns without an error. */
  predicate Succeeds(ix: Index, lookup: Lookup) {
    if Tracks(lookup) then
      match lookup.pod.seen.reading
      case Unreadable => false
      case Missing(running) => !running
      case Live(_) =>
        || RouteOf(ix, lookup).Silent?
        || (!lookup.pod.Fails() && Confirmed(lookup.pod.seen, lookup.pod.after).Some?)
    else !lookup.LookupFails?
  }

  function ScanKeys(pods: seq<Seen>): map<Key, Uid> {
    if pods == [] then map[]
    else
      var rest, p := ScanKeys(pods[..|pods| - 1]), pods[|pods| - 1];
      if p.mirror then rest else rest[p.key := p.uid]
  }

  /** A full scan; `None` is a failed List. */
  function Refreshed(ix: Index, listed: Option<seq<Seen>>): Index {
    if listed.None? then ix
    else
      var ms := Scan(ix.ms, listed.value);
      Index(true, ms, ScanKeys(listed.value), ix.notes - (ix.notes.Keys - ms.Keys), ix.pending * ms.Keys)
  }

  /** What the first events, until a scan succeeds, start from. */
  function Seeded(ix: Index, listed: Option<seq<Seen>>): Index {
    if ix.ready then ix else Refreshed(ix, listed)
  }

  /** Routing and the Applier agree. Silence means that the Applier would write nothing and that there is nothing
      unreported to say; Revert is chosen only where there is nothing to report, and where no tier is wanted it makes
      no difference to the pod whether Apply or Revert runs, whatever happens to the writes. */
  lemma RoutingFollowsApplier(ix: Index, pod: PodIn, k: Knobs, idleWeight: nat, broken: bool,
                              answers: Transaction.Answers)
    requires pod.desired.burstActive ==> pod.desired.burstRequested
    ensures var uid := pod.seen.uid;
            var l := Transaction.Ledger(Some(k), uid in ix.pending);
            var plan := Transaction.JournalPlan(Transaction.Checked(l, k, pod.weight), pod.desired, k, pod.weight);
            var applied := Transaction.Apply(l, pod.desired, pod.weight, idleWeight, broken, answers);
            var reverted := Transaction.Revert(l, k, pod.weight, idleWeight, broken, answers);
            var quotaMissing := pod.desired.burstRequested && pod.desired.burstActive && k.limit.Unlimited?;
            var nothingToSay := pod.notes == [] && !quotaMissing;
            var said := Get(ix.notes, uid) == Some(Notices.Signature(pod.notes, quotaMissing));
            var route := LiveRoute(ix, pod, k);
            && (route.Silent? <==> plan == [] && (nothingToSay || said))
            && (route.Revert? <==> !WantsTier(pod.desired) && nothingToSay && plan != [])
            && (route == Notices.Apply(true) <==> !nothingToSay && !said)
            && (!WantsTier(pod.desired) ==> applied.l == reverted.l && applied.log == reverted.log)
  {
    var l := Transaction.Ledger(Some(k), pod.seen.uid in ix.pending);
    Transaction.ReconcilerSeesApplierWork(l, pod.desired, k, pod.weight);
    Notices.EmptySignature(pod.notes, QuotaMissing(pod.desired, k));
    if !WantsTier(pod.desired) {
      Transaction.ApplyIsRevertWithoutTier(l, pod.desired, pod.weight, idleWeight, broken, answers);
    }
  }

  /** The knobs and the journal entry after the operation a pass is routed to. */
  function Performed(ix: Index, pod: PodIn, k: Knobs, idleWeight: nat, answers: Transaction.Answers)
    : Transaction.Ledger
  {
    var l := Transaction.Ledger(Some(k), pod.seen.uid in ix.pending);
    match LiveRoute(ix, pod, k)
    case Silent => l
    case Apply(_) => Transaction.Apply(l, pod.desired, pod.weight, idleWeight, false, answers).l
    case Revert => Transaction.Revert(l, k, pod.weight, idleWeight, false, answers).l
  }

  /** Whatever a pass is routed to, once every write goes through the pod is as requested: idle exactly if idle is
      requested, the burst at the live quota exactly if burst is active and there is one, and otherwise 0; a pod that
      leaves idle, or had left it, has its weight back. */
  lemma RoutedPassAchieves(ix: Index, pod: PodIn, k: Knobs, idleWeight: nat, answers: Transaction.Answers)
    requires Legal(k) && Transaction.Range(pod.weight, idleWeight) && (pod.seen.uid in ix.pending ==> !k.idle)
    requires pod.desired.burstActive ==> pod.desired.burstRequested
    requires forall j :: answers(j) == Transaction.Through
    ensures var after := Performed(ix, pod, k, idleWeight, answers).cg;
            && after.Some? && after.value.idle == pod.desired.idleRequested && after.value.limit == k.limit
            && after.value.burst == (if pod.desired.burstActive && k.limit.Finite? then k.limit.quota else 0)
            && (!after.value.idle && (k.idle || pod.seen.uid in ix.pending) ==> after.value.weight == pod.weight)
  {
    var l := Transaction.Ledger(Some(k), pod.seen.uid in ix.pending);
    Transaction.ReconcilerSeesApplierWork(l, pod.desired, k, pod.weight);
    Notices.EmptySignature(pod.notes, QuotaMissing(pod.desired, k));
    match LiveRoute(ix, pod, k)
    case Silent => EmptyPlanMeans(pod.desired, k, pod.weight);
    case Apply(_) => Transaction.QuietPassRestores(l, pod.desired, false, pod.weight, idleWeight, answers);
    case Revert =>
      Transaction.QuietPassRestores(l, pod.desired, false, pod.weight, idleWeight, answers);
      Transaction.ApplyIsRevertWithoutTier(l, pod.desired, pod.weight, idleWeight, false, answers);
  }

  lemma KnownAlready(ix: Index, key: Key, uid: Uid)
    requires Get(ix.byKey, key) == Some(uid) && uid in ix.ms
    ensures Known(ix, key, uid) == ix
  {
    assert ix.byKey[key := uid] == ix.byKey;
  }

  lemma PlacedAfterKnown(ix: Index, key: Key, uid: Uid, tiers: seq<Label>)
    ensures Placed(Known(ix, key, uid), key, uid, tiers) == Placed(ix, key, uid, tiers)
    ensures Placed(Forgot(Known(ix, key, uid), uid), key, uid, tiers) == Placed(Forgot(ix, uid), key, uid, tiers)
  {
    KnownAlready(Known(ix, key, uid), key, uid);
    KnownAlready(Forgot(Known(ix, key, uid), uid), key, uid);
    assert Forgot(Known(ix, key, uid), uid).pending == Known(Forgot(ix, uid), key, uid).pending;
  }

  // ---- the gap an incremental update can leave ----

  /** The key's old pod is the only one in some series that its successor is in too. */
  predicate RecreatesSoleMember(ms: Members, byKey: map<Key, Uid>, key: Key, uid: Uid, tiers: seq<Label>) {
    Replaces(byKey, key, uid) && exists series :: series in tiers && SoleIn(ms, byKey[key], series)
  }

  predicate SoleIn(ms: Members, uid: Uid, series: Label) {
    uid in ms && series in ms[uid].tiers && Recount(ms, series) == 1
  }

  function Last(scrapes: seq<map<Label, int>>): map<Label, int>
    requires scrapes != []
  {
    scrapes[|scrapes| - 1]
  }

  ghost predicate Continues(s: seq<map<Label, int>>, t: seq<map<Label, int>>) {
    s != [] && s <= t && NoGap(Last(s), Last(t), t[|s|..])
  }

  /** Publishing in two parts leaves no gap exactly when every series that stays is there in between. */
  lemma GapBetween(s0: seq<map<Label, int>>, s1: seq<map<Label, int>>, s2: seq<map<Label, int>>)
    requires Continues(s0, s1) && Continues(s1, s2)
    ensures NoGap(Last(s0), Last(s2), s2[|s0|..]) <==>
            forall series :: series in Last(s0) && series in Last(s2) ==> series in Last(s1)
  {
    var first, second, all := s1[|s0|..], s2[|s1|..], s2[|s0|..];
    assert all == first + second;
    if NoGap(Last(s0), Last(s2), all) && |s0| < |s1| {
      assert all[|first| - 1] == Last(s1);
    }
    if forall series :: series in Last(s0) && series in Last(s2) ==> series in Last(s1) {
      forall series, i | series in Last(s0) && series in Last(s2) && 0 <= i < |all|
        ensures series in all[i]
      {
        assert all[i] == if i < |first| then first[i] else second[i - |first|];
        assert i < |first| ==> series in first[i];
        assert i >= |first| ==> series in second[i - |first|];
      }
    }
  }

  /** The same for three parts. */
  lemma GapBetweenThree(s0: seq<map<Label, int>>, s1: seq<map<Label, int>>, s2: seq<map<Label, int>>,
                        s3: seq<map<Label, int>>)
    requires Continues(s0, s1) && Continues(s1, s2) && Continues(s2, s3)
    ensures NoGap(Last(s0), Last(s3), s3[|s0|..]) <==>
            forall series :: series in Last(s0) && series in Last(s3) ==> series in Last(s1) && series in Last(s2)
  {
    var all := s3[|s0|..];
    if NoGap(Last(s0), Last(s3), all) {
      assert |s0| < |s1| ==> all[|s1| - |s0| - 1] == Last(s1);
      assert |s0| < |s2| ==> all[|s2| - |s0| - 1] == Last(s2);
    }
    if forall series :: series in Last(s0) && series in Last(s3) ==> series in Last(s1) && series in Last(s2) {
      forall series, i | series in Last(s0) && series in Last(s3) && 0 <= i < |all|
        ensures series in all[i]
      {
        var j := |s0| + i;
        if j < |s1| {
          assert all[i] == s1[|s0|..][i];
        } else if j < |s2| {
          assert all[i] == s2[|s1|..][j - |s1|];
        } else {
          assert all[i] == s3[|s2|..][j - |s2|];
        }
      }
    }
  }

  /** The series missing in between when a pod is placed: those the key's old pod was the only member of. */
  lemma LostInBetween(ix: Index, key: Key, uid: Uid, tiers: seq<Label>, series: Label)
    requires Inverse(ix.ms, ix.byKey) && (uid in ix.ms ==> ix.ms[uid].key == key)
    ensures Recount(ix.ms, series) > 0 && Recount(Placed(ix, key, uid, tiers).ms, series) > 0
            && Recount(Known(ix, key, uid).ms, series) == 0
       <==> Replaces(ix.byKey, key, uid) && SoleIn(ix.ms, ix.byKey[key], series) && series in tiers
  {
    RecountsOnPlacing(ix, key, uid, tiers, series);
  }

  lemma TalliedHas(ms: Members, counts: map<Label, int>, series: Label)
    requires Tallied(ms, counts)
    ensures series in counts <==> Recount(ms, series) > 0
  {
    assert Get(counts, series) == if Recount(ms, series) > 0 then Some(Recount(ms, series)) else None;
  }

  /** Placing a pod publishes twice: while the old pod goes, and while the new one comes. No series that stays is
      missing in between exactly when none loses its only member for a moment. */
  lemma GapExactly(ix: Index, key: Key, uid: Uid, tiers: seq<Label>, s0: seq<map<Label, int>>, s1: seq<map<Label, int>>,
                   s2: seq<map<Label, int>>)
    requires Inverse(ix.ms, ix.byKey) && (uid in ix.ms ==> ix.ms[uid].key == key)
    requires Continues(s0, s1) && Continues(s1, s2)
    requires Tallied(ix.ms, Last(s0)) && Tallied(Known(ix, key, uid).ms, Last(s1))
    requires Tallied(Placed(ix, key, uid, tiers).ms, Last(s2))
    ensures NoGap(Last(s0), Last(s2), s2[|s0|..]) <==> !RecreatesSoleMember(ix.ms, ix.byKey, key, uid, tiers)
  {
    GapBetween(s0, s1, s2);
    forall series: Label
      ensures (series in Last(s0) && series in Last(s2) && series !in Last(s1)) <==>
              (Replaces(ix.byKey, key, uid) && SoleIn(ix.ms, ix.byKey[key], series) && series in tiers)
    {
      LostInBetween(ix, key, uid, tiers, series);
      TalliedHas(ix.ms, Last(s0), series);
      TalliedHas(Known(ix, key, uid).ms, Last(s1), series);
      TalliedHas(Placed(ix, key, uid, tiers).ms, Last(s2), series);
    }
  }

  /** The tiers a pass over a live pod ends with. */
  function FinalTiers(ix: Index, pod: PodIn, k: Knobs): seq<Label> {
    var second := Confirmed(pod.seen, pod.after);
    if LiveRoute(ix, pod, k).Silent? || second.None? then TiersOf(pod.seen, k) else second.value
  }

  /** The key's pod is the only one in a series that the pass ends in too, but that it was out of for a moment: because
      the pod is another one now, or because its first reading shows it out. */
  predicate LosesSeries(ix: Index, key: Key, lookup: Lookup) {
    && Tracks(lookup) && lookup.pod.seen.reading.Live? && key in ix.byKey
    && var pod, k := lookup.pod, lookup.pod.seen.reading.knobs;
       exists series :: && series in FinalTiers(ix, pod, k) && SoleIn(ix.ms, ix.byKey[key], series)
                        && (ix.byKey[key] != pod.seen.uid || series !in TiersOf(pod.seen, k))
  }

  lemma LostOverPass(ix: Index, key: Key, uid: Uid, first: seq<Label>, final: seq<Label>, series: Label)
    requires Inverse(ix.ms, ix.byKey) && (uid in ix.ms ==> ix.ms[uid].key == key)
    ensures && Recount(ix.ms, series) > 0 && Recount(Placed(ix, key, uid, final).ms, series) > 0
            && (Recount(Known(ix, key, uid).ms, series) == 0 || Recount(Placed(ix, key, uid, first).ms, series) == 0)
       <==> && key in ix.byKey && series in final && SoleIn(ix.ms, ix.byKey[key], series)
            && (ix.byKey[key] != uid || series !in first)
  {
    RecountsOnPlacing(ix, key, uid, first, series);
    RecountsOnPlacing(ix, key, uid, final, series);
  }

  /** A pass over a live pod publishes in three parts: while the old pod goes, while the first reading comes in, and
      while the second does. */
  lemma PassGapExactly(ix: Index, key: Key, pod: PodIn, k: Knobs, s0: seq<map<Label, int>>, s1: seq<map<Label, int>>,
                       s2: seq<map<Label, int>>, s3: seq<map<Label, int>>)
    requires pod.seen.reading == Live(k) && !pod.seen.mirror
    requires Inverse(ix.ms, ix.byKey) && (pod.seen.uid in ix.ms ==> ix.ms[pod.seen.uid].key == key)
    requires Continues(s0, s1) && Continues(s1, s2) && Continues(s2, s3)
    requires Tallied(ix.ms, Last(s0)) && Tallied(Known(ix, key, pod.seen.uid).ms, Last(s1))
    requires Tallied(Placed(ix, key, pod.seen.uid, TiersOf(pod.seen, k)).ms, Last(s2))
    requires Tallied(Placed(ix, key, pod.seen.uid, FinalTiers(ix, pod, k)).ms, Last(s3))
    ensures NoGap(Last(s0), Last(s3), s3[|s0|..]) <==> !LosesSeries(ix, key, Held(pod))
  {
    var uid, first, final := pod.seen.uid, TiersOf(pod.seen, k), FinalTiers(ix, pod, k);
    GapBetweenThree(s0, s1, s2, s3);
    forall series: Label
      ensures (series in Last(s0) && series in Last(s3) && !(series in Last(s1) && series in Last(s2))) <==>
              (&& key in ix.byKey && series in final && SoleIn(ix.ms, ix.byKey[key], series)
               && (ix.byKey[key] != uid || series !in first))
    {
      LostOverPass(ix, key, uid, first, final, series);
      TalliedHas(ix.ms, Last(s0), series);
      TalliedHas(Known(ix, key, uid).ms, Last(s1), series);
      TalliedHas(Placed(ix, key, uid, first).ms, Last(s2), series);
      TalliedHas(Placed(ix, key, uid, final).ms, Last(s3), series);
    }
  }

  lemma RecountsOnPlacing(ix: Index, key: Key, uid: Uid, tiers: seq<Label>, series: Label)
    requires Inverse(ix.ms, ix.byKey) && (uid in ix.ms ==> ix.ms[uid].key == key)
    ensures Recount(Known(ix, key, uid).ms, series) ==
            Recount(ix.ms, series) - One(Replaces(ix.byKey, key, uid) && series in ix.ms[ix.byKey[key]].tiers)
    ensures Recount(Placed(ix, key, uid, tiers).ms, series) ==
            Recount(Known(ix, key, uid).ms - {uid}, series) + One(series in tiers)
    ensures Recount(Known(ix, key, uid).ms, series) ==
            Recount(Known(ix, key, uid).ms - {uid}, series) + One(series in Known(ix, key, uid).ms[uid].tiers)
  {
    var kept, known := Kept(ix, key, uid).ms, Known(ix, key, uid).ms;
    if Replaces(ix.byKey, key, uid) {
      RecountDrop(ix.ms, ix.byKey[key], series);
    }
    if uid !in kept {
      RecountPut(kept, uid, Membership(key, []), series);
      RecountDrop(kept, uid, series);
    }
    RecountPut(known, uid, Membership(key, tiers), series);
    RecountDrop(known, uid, series);
  }

  /** Committing what is already recorded changes nothing. */
  lemma NotedAlready(ix: Index, uid: Uid)
    ensures Noted(ix, uid, Get(ix.notes, uid)) == ix
  {
    var notes := Noted(ix, uid, Get(ix.notes, uid)).notes;
    assert notes == ix.notes;
  }

  /** The key map once a UID has a key. */
  function Rekeyed(ms: Members, byKey: map<Key, Uid>, uid: Uid, key: Key): map<Key, Uid> {
    (if uid in ms && ms[uid].key != key then byKey - {ms[uid].key} else byKey)[key := uid]
  }

  predicate UnderKey(pods: seq<Seen>, uid: Uid, key: Key) {
    forall i :: 0 <= i < |pods| && pods[i].uid == uid ==> pods[i].key == key
  }

  lemma {:induction false} ScanKeepsKey(past: Members, pods: seq<Seen>, uid: Uid, key: Key)
    requires UnderKey(pods, uid, key)
    ensures uid in Scan(past, pods) ==> Scan(past, pods)[uid].key == key
  {
    if pods != [] {
      ScanKeepsKey(past, pods[..|pods| - 1], uid, key);
    }
  }

  lemma SameEntries(a: map<Label, int>, b: map<Label, int>)
    requires forall series: Label :: Get(a, series) == Get(b, series)
    ensures a == b
  {
    assert forall series: Label :: series in a <==> Get(a, series).Some?;
  }

  lemma TalliedCounts(ms: Members, counts: map<Label, int>)
    ensures Tallied(ms, counts) <==>
            && (forall series: Label :: Count(counts, series) == Recount(ms, series))
            && (forall series :: series in counts ==> counts[series] > 0)
  {
    if Tallied(ms, counts) {
      forall series: Label
        ensures Count(counts, series) == Recount(ms, series) && (series in counts ==> counts[series] > 0)
      {
        assert Get(counts, series) == if Recount(ms, series) > 0 then Some(Recount(ms, series)) else None;
      }
    }
  }

  lemma EmptyMemberTallies(ms: Members, uid: Uid, key: Key, counts: map<Label, int>)
    requires Tallied(ms, counts) && uid !in ms
    ensures Tallied(ms[uid := Membership(key, [])], counts)
  {
    forall series: Label
      ensures Recount(ms[uid := Membership(key, [])], series) == Recount(ms, series)
    {
      RecountPut(ms, uid, Membership(key, []), series);
      RecountDrop(ms, uid, series);
    }
  }

  lemma InverseGrows(ms: Members, uidByKey: map<Key, Uid>, uid: Uid, m: Membership)
    requires Inverse(ms, uidByKey) && uid !in ms && m.key !in uidByKey
    ensures Inverse(ms[uid := m], uidByKey[m.key := uid])
  {
  }

  lemma InversePut(ms: Members, uidByKey: map<Key, Uid>, uid: Uid, m: Membership)
    requires Inverse(ms, uidByKey) && (m.key in uidByKey ==> uidByKey[m.key] == uid)
    ensures Inverse(ms[uid := m], Rekeyed(ms, uidByKey, uid, m.key))
  {
  }

  // ---- what a pass leaves alone, and what it does to its own pod ----

  /** Everything known about this pod is the same. */
  predicate SameFor(a: Index, b: Index, uid: Uid) {
    Get(a.ms, uid) == Get(b.ms, uid) && Get(a.notes, uid) == Get(b.notes, uid) &&
    (uid in a.pending <==> uid in b.pending)
  }

  lemma PlacingLeavesOthers(ix: Index, key: Key, uid: Uid, tiers: seq<Label>, other: Uid)
    requires other != uid
    ensures SameFor(Known(ix, key, uid), Kept(ix, key, uid), other)
    ensures SameFor(Placed(ix, key, uid, tiers), Kept(ix, key, uid), other)
  {
  }

  lemma RoutedPassLeavesOthers(ix: Index, key: Key, pod: PodIn, pass: Notices.Pass, other: Uid)
    requires other != pod.seen.uid && Get(ix.byKey, key) == Some(pod.seen.uid)
    ensures SameFor(RoutedPass(ix, key, pod, pass), ix, other)
  {
    var uid := pod.seen.uid;
    var noted := Noted(ix, uid, Notices.NextLast(Get(ix.notes, uid), pass));
    var tiers := Confirmed(pod.seen, pod.after);
    if tiers.Some? {
      PlacingLeavesOthers(Journaled(noted, uid, pod.pendingAfter), key, uid, tiers.value, other);
      PlacingLeavesOthers(Forgot(Journaled(noted, uid, pod.pendingAfter), uid), key, uid, tiers.value, other);
    }
  }

  lemma PresentLeavesOthers(ix: Index, key: Key, pod: PodIn, other: Uid)
    requires other != pod.seen.uid
    ensures SameFor(PassedPresent(ix, key, pod), Kept(ix, key, pod.seen.uid), other)
  {
    var uid := pod.seen.uid;
    PlacingLeavesOthers(ix, key, uid, [], other);
    PlacingLeavesOthers(Forgot(ix, uid), key, uid, [], other);
    if pod.seen.reading.Live? {
      var k := pod.seen.reading.knobs;
      var placed := Placed(ix, key, uid, TiersOf(pod.seen, k));
      PlacingLeavesOthers(ix, key, uid, TiersOf(pod.seen, k), other);
      RoutedPassLeavesOthers(Asked(placed, pod, k), key, pod, PassOf(pod, k, uid in placed.pending), other);
    }
  }

  lemma PlacingKeepsRecord(ix: Index, key: Key, uid: Uid, tiers: seq<Label>)
    ensures Get(Known(ix, key, uid).notes, uid) == Get(ix.notes, uid)
    ensures Get(Placed(ix, key, uid, tiers).notes, uid) == Get(ix.notes, uid)
    ensures uid in Placed(ix, key, uid, tiers).pending <==> uid in ix.pending
  {
  }

  lemma RoutedPassRecord(ix: Index, key: Key, pod: PodIn, pass: Notices.Pass)
    ensures Get(RoutedPass(ix, key, pod, pass).notes, pod.seen.uid) ==
            Notices.NextLast(Get(ix.notes, pod.seen.uid), pass)
  {
    var uid := pod.seen.uid;
    var noted := Noted(ix, uid, Notices.NextLast(Get(ix.notes, uid), pass));
    var tiers := Confirmed(pod.seen, pod.after);
    if tiers.Some? {
      PlacingKeepsRecord(Journaled(noted, uid, pod.pendingAfter), key, uid, tiers.value);
      PlacingKeepsRecord(Forgot(Journaled(noted, uid, pod.pendingAfter), uid), key, uid, tiers.value);
    }
  }

  lemma OwnRecord(ix: Index, key: Key, pod: PodIn)
    ensures OwnRecordAfter(ix, PassedPresent(ix, key, pod), pod)
  {
    var uid := pod.seen.uid;
    if pod.seen.reading.Live? {
      var k := pod.seen.reading.knobs;
      var placed := Placed(ix, key, uid, TiersOf(pod.seen, k));
      PlacingKeepsRecord(ix, key, uid, TiersOf(pod.seen, k));
      RoutedPassRecord(Asked(placed, pod, k), key, pod, PassOf(pod, k, uid in placed.pending));
    } else {
      PlacingKeepsRecord(ix, key, uid, []);
      PlacingKeepsRecord(Forgot(ix, uid), key, uid, []);
    }
  }

  /** The pod's journal entry after a pass: as its Apply or Revert left it, unless the cgroup is found legitimately gone
      afterwards; if there was neither, as it was, less an entry whose weight turns out to be right already. */
  lemma OwnJournal(ix: Index, key: Key, pod: PodIn)
    ensures var before, after := pod.seen.uid in ix.pending, pod.seen.uid in PassedPresent(ix, key, pod).pending;
            match pod.seen.reading
            case Unreadable => after == before
            case Missing(running) => after == (running && before)
            case Live(k) =>
              if LiveRoute(ix, pod, k).Silent?
              then after == (before && (pod.desired.idleRequested || k.idle || k.weight != pod.weight))
              else after == (pod.pendingAfter && pod.after != Missing(false))
  {
    var uid := pod.seen.uid;
    if pod.seen.reading.Live? {
      var k := pod.seen.reading.knobs;
      var placed := Placed(ix, key, uid, TiersOf(pod.seen, k));
      PlacingKeepsRecord(ix, key, uid, TiersOf(pod.seen, k));
      RoutedPassJournal(Asked(placed, pod, k), key, pod, PassOf(pod, k, uid in placed.pending));
    } else {
      PlacingKeepsRecord(ix, key, uid, []);
      PlacingKeepsRecord(Forgot(ix, uid), key, uid, []);
    }
  }

  lemma RoutedPassJournal(ix: Index, key: Key, pod: PodIn, pass: Notices.Pass)
    ensures var after := pod.seen.uid in RoutedPass(ix, key, pod, pass).pending;
            if Notices.Routed(Get(ix.notes, pod.seen.uid), pass, WantsTier(pod.desired)).Silent?
            then after == (pod.seen.uid in ix.pending) else after == (pod.pendingAfter && pod.after != Missing(false))
  {
    var uid := pod.seen.uid;
    var noted := Noted(ix, uid, Notices.NextLast(Get(ix.notes, uid), pass));
    var tiers := Confirmed(pod.seen, pod.after);
    if tiers.Some? {
      PlacingKeepsRecord(Journaled(noted, uid, pod.pendingAfter), key, uid, tiers.value);
      PlacingKeepsRecord(Forgot(Journaled(noted, uid, pod.pendingAfter), uid), key, uid, tiers.value);
    }
  }

  /** The tiers of the pod a pass was shown are known afterwards: it was read and, if something was done to it, read
      again; a cgroup that is missing tells as much only if the pod is not running. */
  predicate TiersKnown(ix: Index, pod: PodIn) {
    match pod.seen.reading
    case Unreadable => false
    case Missing(running) => !running
    case Live(k) => LiveRoute(ix, pod, k).Silent? || pod.after.Live? || pod.after == Missing(false)
  }

  /** A pass returns an error exactly when its pod has to be seen again: it could not be looked up, its tiers are not
      known, or its Apply or Revert failed. */
  lemma ErrorsExactly(ix: Index, lookup: Lookup)
    ensures Succeeds(ix, lookup) <==>
            match lookup
            case LookupFails => false
            case NotFound => true
            case Held(pod) =>
              || pod.seen.mirror
              || (&& TiersKnown(ix, pod)
                  && (pod.seen.reading.Live? && !LiveRoute(ix, pod, pod.seen.reading.knobs).Silent? ==> !pod.Fails()))
  {
  }

  /** The pods a pass over a key is about: the one it is shown and the one the key stood for. */
  predicate Concerns(ix: Index, key: Key, lookup: Lookup, uid: Uid) {
    Get(ix.byKey, key) == Some(uid) || (lookup.Held? && lookup.pod.seen.uid == uid)
  }

  /** The record of the pod a pass was shown: the notice rules for a pod that could be read, untouched otherwise. */
  predicate OwnRecordAfter(ix: Index, ix': Index, pod: PodIn) {
    Get(ix'.notes, pod.seen.uid) ==
    if pod.seen.reading.Live?
    then Notices.NextLast(Get(ix.notes, pod.seen.uid), PassOf(pod, pod.seen.reading.knobs, pod.seen.uid in ix.pending))
    else Get(ix.notes, pod.seen.uid)
  }

  lemma RoutedPassKeepsReady(ix: Index, key: Key, pod: PodIn, pass: Notices.Pass)
    ensures RoutedPass(ix, key, pod, pass).ready == ix.ready
  {
  }

  lemma PresentKeepsReady(ix: Index, key: Key, pod: PodIn)
    ensures PassedPresent(ix, key, pod).ready == ix.ready
  {
    var uid := pod.seen.uid;
    if pod.seen.reading.Live? {
      var k := pod.seen.reading.knobs;
      var placed := Placed(ix, key, uid, TiersOf(pod.seen, k));
      RoutedPassKeepsReady(Asked(placed, pod, k), key, pod, PassOf(pod, k, uid in placed.pending));
    }
  }

  /** A pass leaves every pod it is not about exactly as it was. */
  lemma PassLeavesOthers(ix: Index, key: Key, lookup: Lookup)
    ensures Passed(ix, key, lookup).ready == ix.ready
    ensures forall u :: !Concerns(ix, key, lookup, u) ==> SameFor(Passed(ix, key, lookup), ix, u)
    ensures Tracks(lookup) ==> OwnRecordAfter(ix, Passed(ix, key, lookup), lookup.pod)
  {
    forall u | !Concerns(ix, key, lookup, u)
      ensures SameFor(Passed(ix, key, lookup), ix, u)
    {
      if Tracks(lookup) {
        PresentLeavesOthers(ix, key, lookup.pod, u);
      }
    }
    if Tracks(lookup) {
      OwnRecord(ix, key, lookup.pod);
      PresentKeepsReady(ix, key, lookup.pod);
    }
  }

  /** A pass over a pod ends with the tiers of its last confirmed reading: the second one if there was a second one and
      it says something, else the first, else what was known. */
  lemma PassShows(ix: Index, key: Key, pod: PodIn)
    ensures var uid, ix' := pod.seen.uid, PassedPresent(ix, key, pod);
            var second := Confirmed(pod.seen, pod.after);
            && uid in ix'.ms && Get(ix'.byKey, key) == Some(uid)
            && match pod.seen.reading
               case Live(k) =>
                 && ix'.ms == Placed(ix, key, uid, FinalTiers(ix, pod, k)).ms
                 && ix'.ms[uid] == Membership(key,
                      if LiveRoute(ix, pod, k).Silent? || second.None? then TiersOf(pod.seen, k) else second.value)
               case Missing(false) => ix'.ms[uid] == Membership(key, []) && uid !in ix'.pending
               case _ => ix'.ms[uid] == if uid in ix.ms then ix.ms[uid] else Membership(key, [])
  {
    var uid := pod.seen.uid;
    if pod.seen.reading.Live? {
      LivePassShows(ix, key, pod, pod.seen.reading.knobs);
    }
  }

  lemma LivePassShows(ix: Index, key: Key, pod: PodIn, k: Knobs)
    ensures var uid := pod.seen.uid;
            var ix' := LivePass(Placed(ix, key, uid, TiersOf(pod.seen, k)), key, pod, k);
            && Get(ix'.byKey, key) == Some(uid)
            && ix'.ms == Placed(ix, key, uid, FinalTiers(ix, pod, k)).ms
  {
    var uid, first := pod.seen.uid, TiersOf(pod.seen, k);
    var placed, known := Placed(ix, key, uid, first), Known(ix, key, uid);
    PlacingKeepsRecord(ix, key, uid, first);
    RoutedPassShows(Asked(placed, pod, k), key, pod, PassOf(pod, k, uid in placed.pending));
    Overwrite(known.ms, uid, Membership(key, first), Membership(key, FinalTiers(ix, pod, k)));
  }

  lemma Overwrite(ms: Members, uid: Uid, a: Membership, b: Membership)
    ensures ms[uid := a][uid := b] == ms[uid := b]
  {
  }

  lemma RoutedPassShows(ix: Index, key: Key, pod: PodIn, pass: Notices.Pass)
    requires Get(ix.byKey, key) == Some(pod.seen.uid) && pod.seen.uid in ix.ms
    ensures var uid, ix', second := pod.seen.uid, RoutedPass(ix, key, pod, pass), Confirmed(pod.seen, pod.after);
            && uid in ix'.ms && Get(ix'.byKey, key) == Some(uid)
            && ix'.ms == ix.ms[uid :=
                 if Notices.Routed(Get(ix.notes, uid), pass, WantsTier(pod.desired)).Silent? || second.None?
                 then ix.ms[uid]
                 else Membership(key, second.value)]
  {
  }
}
