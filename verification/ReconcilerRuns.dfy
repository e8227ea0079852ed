/**
 Whole runs of the reconciler over any number of pods. What happens to one pod's record of notices is the same
 run seen by that pod alone, so what `Notices` proves of one pod holds of every pod of every run.
 */
module ReconcilerRuns {
  import opened Wrappers
  import opened Plan
  import CpuMax
  import Transaction
  import Applying
  import Notices
  import opened PodIndex

  /** The steps of Reconcile calls: a full scan, which comes first until one has succeeded, and a pass over a key. */
  datatype Event = Refresh(listed: Option<seq<Seen>>) | Pass(key: Key, lookup: Lookup)

  function Advance(ix: Index, ev: Event): Index {
    match ev
    case Refresh(listed) => Refreshed(ix, listed)
    case Pass(key, lookup) => Passed(ix, key, lookup)
  }

  /** What is known before the n-th step. */
  function At(ix: Index, evs: seq<Event>, n: nat): Index
    requires n <= |evs|
  {
    if n == 0 then ix else Advance(At(ix, evs, n - 1), evs[n - 1])
  }

  lemma {:induction false} AtOfLonger(ix: Index, evs: seq<Event>, more: seq<Event>, n: nat)
    requires n <= |evs|
    ensures At(ix, evs + more, n) == At(ix, evs, n)
  {
    if n > 0 {
      AtOfLonger(ix, evs, more, n - 1);
      assert (evs + more)[n - 1] == evs[n - 1];
    }
  }

  lemma AtNext(ix: Index, evs: seq<Event>, ev: Event)
    ensures At(ix, evs + [ev], |evs| + 1) == Advance(At(ix, evs, |evs|), ev)
  {
    AtOfLonger(ix, evs, [ev], |evs|);
  }

  /** The run so far, with the scan that the next call starts with. */
  function Scanned(ix: Index, evs: seq<Event>, listed: Option<seq<Seen>>): seq<Event> {
    if At(ix, evs, |evs|).ready then evs else evs + [Refresh(listed)]
  }

  lemma ScanExtendsRun(ix: Index, evs: seq<Event>, listed: Option<seq<Seen>>)
    ensures At(ix, Scanned(ix, evs, listed), |Scanned(ix, evs, listed)|) == Seeded(At(ix, evs, |evs|), listed)
  {
    AtNext(ix, evs, Refresh(listed));
  }

  /** Calls make runs: what a call of `Reconciler.Reconcile` leaves is where the run so far, followed by the call's own
      steps, leads. So every sequence of calls is a run. */
  lemma CallExtendsRun(ix: Index, evs: seq<Event>, key: Key, lookup: Lookup, listed: Option<seq<Seen>>)
    ensures var run := Scanned(ix, evs, listed) + [Pass(key, lookup)];
            At(ix, run, |run|) == Passed(Seeded(At(ix, evs, |evs|), listed), key, lookup)
  {
    ScanExtendsRun(ix, evs, listed);
    AtNext(ix, Scanned(ix, evs, listed), Pass(key, lookup));
  }

  /** The step is a pass over this pod, and its cgroup could be read. */
  predicate ReadsLive(ev: Event, uid: Uid) {
    ev.Pass? && Tracks(ev.lookup) && ev.lookup.pod.seen.uid == uid && ev.lookup.pod.seen.reading.Live?
  }

  function PassAt(ix: Index, ev: Event, uid: Uid): Notices.Pass
    requires ReadsLive(ev, uid)
  {
    PassOf(ev.lookup.pod, ev.lookup.pod.seen.reading.knobs, uid in ix.pending)
  }

  /** The step drops everything about the pod. */
  predicate Forgets(ix: Index, ev: Event, uid: Uid) {
    match ev
    case Refresh(listed) => listed.Some? && uid !in Scan(ix.ms, listed.value)
    case Pass(key, lookup) =>
      Get(ix.byKey, key) == Some(uid) && !lookup.LookupFails? && (Tracks(lookup) ==> lookup.pod.seen.uid != uid)
  }

  /** The step as this pod sees it. */
  function Project(ix: Index, ev: Event, uid: Uid): Notices.Event {
    if ReadsLive(ev, uid) then Notices.Reconciled(PassAt(ix, ev, uid), WantsTier(ev.lookup.pod.desired))
    else if Forgets(ix, ev, uid) then Notices.Forgotten
    else Notices.Elsewhere
  }

  // ---- what a step leaves alone ----

  /** A step concerns its own pod and the one that pod replaces. It forgets the latter completely and leaves every
      other pod as it was, unless it is a scan, which may confirm other tiers. */
  lemma StepLeavesOthers(ix: Index, ev: Event, uid: Uid)
    ensures Forgets(ix, ev, uid) ==>
              uid !in Advance(ix, ev).ms && uid !in Advance(ix, ev).notes && uid !in Advance(ix, ev).pending
    ensures ev.Refresh? && !Forgets(ix, ev, uid) ==>
              && Get(Advance(ix, ev).notes, uid) == Get(ix.notes, uid)
              && (uid in Advance(ix, ev).pending <==> uid in ix.pending)
    ensures ev.Pass? && !Forgets(ix, ev, uid) && !(Tracks(ev.lookup) && ev.lookup.pod.seen.uid == uid) ==>
              SameFor(Advance(ix, ev), ix, uid)
  {
    if ev.Pass? && Tracks(ev.lookup) && ev.lookup.pod.seen.uid != uid {
      PresentLeavesOthers(ix, ev.key, ev.lookup.pod, uid);
    }
  }

  // ---- one pod's view of a run ----

  /** One step, one pod: its record moves as the one-pod machine says. */
  lemma StepProjects(ix: Index, ev: Event, uid: Uid)
    ensures Get(Advance(ix, ev).notes, uid) == Notices.Step(Get(ix.notes, uid), Project(ix, ev, uid))
  {
    StepLeavesOthers(ix, ev, uid);
    if ev.Pass? && Tracks(ev.lookup) && ev.lookup.pod.seen.uid == uid {
      OwnRecord(ix, ev.key, ev.lookup.pod);
    }
  }

  lemma AtProjects(ix: Index, evs: seq<Event>, uid: Uid, n: nat)
    requires n < |evs|
    ensures Get(At(ix, evs, n + 1).notes, uid) ==
            Notices.Step(Get(At(ix, evs, n).notes, uid), Project(At(ix, evs, n), evs[n], uid))
  {
    StepProjects(At(ix, evs, n), evs[n], uid);
  }

  /** A whole run as one pod sees it. */
  function View(ix: Index, evs: seq<Event>, uid: Uid): (r: seq<Notices.Event>)
    ensures |r| == |evs|
    ensures forall n :: 0 <= n < |evs| ==> r[n] == Project(At(ix, evs, n), evs[n], uid)
  {
    seq(|evs|, n requires 0 <= n < |evs| => Project(At(ix, evs, n), evs[n], uid))
  }

  /** The pod's record before every step and at the end. */
  function Records(ix: Index, evs: seq<Event>, uid: Uid): (r: seq<Notices.Last>)
    ensures |r| == |evs| + 1 && forall n :: 0 <= n <= |evs| ==> r[n] == Get(At(ix, evs, n).notes, uid)
  {
    seq(|evs| + 1, n requires 0 <= n <= |evs| => Get(At(ix, evs, n).notes, uid))
  }

  /** Over any run of any number of pods, a pod's record is that of the one-pod machine on its own view of the run. */
  lemma RunProjects(ix: Index, evs: seq<Event>, uid: Uid, n: nat)
    requires n <= |evs|
    ensures Get(At(ix, evs, n).notes, uid) == Notices.LastBefore(Get(ix.notes, uid), View(ix, evs, uid), n)
  {
    var view, records := View(ix, evs, uid), Records(ix, evs, uid);
    forall k | 0 <= k < |view|
      ensures records[k + 1] == Notices.Step(records[k], view[k])
    {
      AtProjects(ix, evs, uid, k);
    }
    Notices.HistoryIsLastBefore(view, records, n);
  }

  /** The n-th step sends this pod's notices out: Apply is told to report them. */
  predicate ReportsAt(ix: Index, evs: seq<Event>, n: nat, uid: Uid, signature: string)
    requires n < |evs|
  {
    && ReadsLive(evs[n], uid) && PassAt(At(ix, evs, n), evs[n], uid).signature == signature
    && RouteOf(At(ix, evs, n), evs[n].lookup) == Notices.Apply(true)
  }

  lemma ReportProjects(ix: Index, evs: seq<Event>, n: nat, uid: Uid, signature: string)
    requires n < |evs|
    ensures ReportsAt(ix, evs, n, uid, signature) <==>
            Notices.ReportsAt(Get(ix.notes, uid), View(ix, evs, uid), n, signature)
  {
    RunProjects(ix, evs, uid, n);
  }

  /** The pod was forgotten, or a pass over it recorded other notices or none. */
  predicate MakesNews(ix: Index, ev: Event, uid: Uid, signature: string) {
    || uid !in Advance(ix, ev).ms
    || (&& ReadsLive(ev, uid)
        && var p := PassAt(ix, ev, uid);
           p.signature != signature && (p.ok || (!p.work && p.signature == "")))
  }

  lemma NewsProjects(ix: Index, ev: Event, uid: Uid, signature: string)
    requires Notices.MakesNews(Project(ix, ev, uid), signature)
    ensures MakesNews(ix, ev, uid, signature)
  {
    StepLeavesOthers(ix, ev, uid);
  }

  /** Main result: over any run of the reconciler, whatever happens to other pods in between, the same notices of a
      pod go out twice only if the first Apply failed, the pod left the index, or a pass over it recorded other
      notices or none in between. */
  lemma NoDuplicateReports(ix: Index, evs: seq<Event>, i: nat, j: nat, uid: Uid, signature: string)
    requires i < j < |evs| && ReportsAt(ix, evs, i, uid, signature) && ReportsAt(ix, evs, j, uid, signature)
    ensures || evs[i].lookup.pod.Fails()
            || exists k :: i < k < j && MakesNews(At(ix, evs, k), evs[k], uid, signature)
  {
    var view := View(ix, evs, uid);
    ReportProjects(ix, evs, i, uid, signature);
    ReportProjects(ix, evs, j, uid, signature);
    Notices.NoDuplicateReports(Get(ix.notes, uid), view, i, j, signature);
    if view[i].p.ok {
      var k :| i < k < j && Notices.MakesNews(view[k], signature);
      NewsProjects(At(ix, evs, k), evs[k], uid, signature);
    }
  }

  /** ... and a report that failed goes out again with the pod's next pass that has the same notices, as long as the
      pod stays in the index and no pass over it got through in between. */
  lemma FailedReportStaysDue(ix: Index, evs: seq<Event>, i: nat, j: nat, uid: Uid, signature: string)
    requires i < j < |evs| && ReportsAt(ix, evs, i, uid, signature)
    requires forall k :: i < k <= j ==> uid in At(ix, evs, k).ms
    requires forall k :: i <= k < j && ReadsLive(evs[k], uid) ==>
               PassAt(At(ix, evs, k), evs[k], uid).signature == signature && evs[k].lookup.pod.Fails()
    requires ReadsLive(evs[j], uid) && PassAt(At(ix, evs, j), evs[j], uid).signature == signature
    ensures ReportsAt(ix, evs, j, uid, signature)
  {
    var view := View(ix, evs, uid);
    ReportProjects(ix, evs, i, uid, signature);
    forall k | i <= k < j
      ensures view[k].Elsewhere? || Notices.FailsWith(view[k], signature)
    {
      assert uid in At(ix, evs, k + 1).ms;
      StepLeavesOthers(At(ix, evs, k), evs[k], uid);
    }
    Notices.FailedReportStaysDue(Get(ix.notes, uid), view, i, j, signature);
    ReportProjects(ix, evs, j, uid, signature);
  }

  /** Between the two steps nothing made the pod's notices news. */
  predicate NoNews(ix: Index, evs: seq<Event>, i: nat, j: nat, uid: Uid, signature: string)
    requires i < j < |evs|
  {
    forall k :: i < k < j ==> !Notices.MakesNews(View(ix, evs, uid)[k], signature)
  }

  /** A report that got through and still stands. */
  predicate StandsAt(ix: Index, evs: seq<Event>, i: nat, j: nat, uid: Uid, signature: string)
    requires i < j < |evs|
  {
    ReportsAt(ix, evs, i, uid, signature) && !evs[i].lookup.pod.Fails() && NoNews(ix, evs, i, j, uid, signature)
  }

  /** When a pass reports, exactly: it has notices, and no earlier report of the same notices that got through still
      stands. So a notice that disappears and comes back, or changes back, is reported again. */
  lemma ReportsExactly(ix: Index, evs: seq<Event>, j: nat, uid: Uid, signature: string)
    requires j < |evs| && uid !in ix.notes && ReadsLive(evs[j], uid)
    requires PassAt(At(ix, evs, j), evs[j], uid).signature == signature
    ensures ReportsAt(ix, evs, j, uid, signature) <==>
            signature != "" && !exists i :: 0 <= i < j && StandsAt(ix, evs, i, j, uid, signature)
  {
    var view := View(ix, evs, uid);
    ReportProjects(ix, evs, j, uid, signature);
    if signature != "" && !ReportsAt(ix, evs, j, uid, signature) {
      RunProjects(ix, evs, uid, j);
      var i := RecordHasReport(ix, evs, j, uid, signature);
      assert StandsAt(ix, evs, i, j, uid, signature);
    }
    if ReportsAt(ix, evs, j, uid, signature) {
      forall i | 0 <= i < j && StandsAt(ix, evs, i, j, uid, signature)
        ensures false
      {
        ReportProjects(ix, evs, i, uid, signature);
        Notices.NoDuplicateReports(None, view, i, j, signature);
      }
    }
  }

  // ---- what is recorded and what was said ----

  /** Everything the n-th step's signature stands for was told to the user. */
  predicate Published(ix: Index, evs: seq<Event>, n: nat, uid: Uid, signature: string)
    requires n < |evs|
  {
    ReportsAt(ix, evs, n, uid, signature) && SaysAll(evs[n].lookup.pod)
  }

  /** An Apply that is to report says all that the pass found: every note, and the missing quota. */
  predicate SaysAll(pod: PodIn)
    requires pod.seen.reading.Live?
  {
    var said := Applying.SaidBy(true, pod.notes, pod.desired, pod.call);
    && said.Some? && said.value.notes == pod.notes
    && (QuotaMissing(pod.desired, pod.seen.reading.knobs) ==> said.value.quotaMissing)
  }

  /** An Apply that did not fail left something unsaid: it found the cgroup gone, or the quota that the pass had found
      missing was there when Apply looked. */
  predicate LeavesUnsaid(pod: PodIn)
    requires pod.seen.reading.Live?
  {
    || Applying.EndOf(pod.call) == Transaction.Vanished
    || (&& QuotaMissing(pod.desired, pod.seen.reading.knobs)
        && pod.call.Ran? && !QuotaMissing(pod.desired, pod.call.read))
  }

  lemma SaysAllExactly(pod: PodIn)
    requires pod.seen.reading.Live? && !pod.Fails()
    ensures SaysAll(pod) <==> !LeavesUnsaid(pod)
  {
  }

  lemma RecordHasReport(ix: Index, evs: seq<Event>, n: nat, uid: Uid, signature: string) returns (i: nat)
    requires n <= |evs| && uid !in ix.notes && Get(At(ix, evs, n).notes, uid) == Some(signature)
    ensures i < n && ReportsAt(ix, evs, i, uid, signature) && !evs[i].lookup.pod.Fails()
    ensures forall k :: i < k < n ==> !Notices.MakesNews(View(ix, evs, uid)[k], signature)
  {
    RunProjects(ix, evs, uid, n);
    i := Notices.RecordHasReport(View(ix, evs, uid), n, signature);
    ReportProjects(ix, evs, i, uid, signature);
  }

  /** A record means that the notices were published, except where the Apply that was to publish them found the cgroup
      gone or a quota that the pass had missed: it returns without an error and without saying all, and the reconciler
      commits the signature. */
  lemma RecordMeansPublished(ix: Index, evs: seq<Event>, n: nat, uid: Uid, signature: string) returns (i: nat)
    requires n <= |evs| && uid !in ix.notes && Get(At(ix, evs, n).notes, uid) == Some(signature)
    ensures i < n && ReportsAt(ix, evs, i, uid, signature) && !evs[i].lookup.pod.Fails()
    ensures forall k :: i < k < n ==> !Notices.MakesNews(View(ix, evs, uid)[k], signature)
    ensures Published(ix, evs, i, uid, signature) <==> !LeavesUnsaid(evs[i].lookup.pod)
  {
    i := RecordHasReport(ix, evs, n, uid, signature);
    SaysAllExactly(evs[i].lookup.pod);
  }

  /** What such an Apply left unsaid stays unsaid: while the pod stays in the index and its notices are the same, no
      later pass reports them. */
  lemma UnsaidStaysUnsaid(ix: Index, evs: seq<Event>, i: nat, j: nat, uid: Uid, signature: string)
    requires i < j < |evs| && ReportsAt(ix, evs, i, uid, signature) && !evs[i].lookup.pod.Fails()
    requires LeavesUnsaid(evs[i].lookup.pod)
    requires forall k :: i < k < j ==> !MakesNews(At(ix, evs, k), evs[k], uid, signature)
    ensures !Published(ix, evs, i, uid, signature) && !ReportsAt(ix, evs, j, uid, signature)
  {
    SaysAllExactly(evs[i].lookup.pod);
    if ReportsAt(ix, evs, j, uid, signature) {
      NoDuplicateReports(ix, evs, i, j, uid, signature);
    }
  }

  const EMPTY := Index(true, map[], map[], map[], {})

  /** Two passes over a pod that lose its notices: the first was to report them and did not say all, the second finds
      the same notices and stays silent. */
  predicate Loses(key: Key, first: PodIn, second: PodIn, signature: string) {
    var evs := [Pass(key, Held(first)), Pass(key, Held(second))];
    var uid := first.seen.uid;
    && ReportsAt(EMPTY, evs, 0, uid, signature) && !Published(EMPTY, evs, 0, uid, signature)
    && ReadsLive(evs[1], uid) && PassAt(At(EMPTY, evs, 1), evs[1], uid).signature == signature
    && RouteOf(At(EMPTY, evs, 1), evs[1].lookup).Silent?
    && Get(At(EMPTY, evs, 2).notes, uid) == Some(signature)
  }

  lemma KnownNoticeIsSilent(ix: Index, pod: PodIn, k: Knobs, signature: string)
    requires Get(ix.notes, pod.seen.uid) == Some(signature) && pod.seen.uid !in ix.pending
    requires signature == Notices.Signature(pod.notes, QuotaMissing(pod.desired, k)) != ""
    requires BuildPlan(if WantsTier(pod.desired) then pod.desired else NO_TIER, k, pod.weight) == []
    ensures LiveRoute(ix, pod, k).Silent? && Notices.NextLast(Some(signature), PassOf(pod, k, false)) == Some(signature)
  {
  }

  lemma FirstPassRecords(key: Key, pod: PodIn, k: Knobs, signature: string)
    requires !pod.seen.mirror && pod.seen.reading == Live(k) && !pod.Fails() && !pod.pendingAfter
    requires signature == Notices.Signature(pod.notes, QuotaMissing(pod.desired, k)) != ""
    ensures var after := Passed(EMPTY, key, Held(pod));
            Get(after.notes, pod.seen.uid) == Some(signature) && pod.seen.uid !in after.pending
    ensures RouteOf(EMPTY, Held(pod)) == Notices.Apply(true)
  {
    OwnRecord(EMPTY, key, pod);
    OwnJournal(EMPTY, key, pod);
  }

  lemma LosesBySilence(key: Key, first: PodIn, second: PodIn, k: Knobs, signature: string)
    requires !first.seen.mirror && first.seen == second.seen && first.seen.reading == Live(k)
    requires first.notes == second.notes && first.desired == second.desired && first.weight == second.weight
    requires signature == Notices.Signature(first.notes, QuotaMissing(first.desired, k)) != ""
    requires !first.Fails() && LeavesUnsaid(first) && !first.pendingAfter
    requires BuildPlan(if WantsTier(first.desired) then first.desired else NO_TIER, k, first.weight) == []
    ensures Loses(key, first, second, signature)
  {
    SaysAllExactly(first);
    FirstPassRecords(key, first, k, signature);
    var after := Passed(EMPTY, key, Held(first));
    KnownNoticeIsSilent(after, second, k, signature);
    OwnRecord(after, key, second);
    var evs := [Pass(key, Held(first)), Pass(key, Held(second))];
    assert At(EMPTY, evs, 1) == after && At(EMPTY, evs, 2) == Passed(after, key, Held(second));
  }

  /** First exception: any pod with a note whose cgroup is gone when Apply looks and is back for the next pass. */
  lemma LostNoticeExists(key: Key, seen: Seen, note: Notices.Note, k: Knobs, second: Applying.Call)
    requires !seen.mirror && seen.reading == Live(k) && !k.idle && k.burst == 0
    ensures var pod := PodIn(seen, NO_TIER, [note], 100, Applying.Gone, false, Missing(true));
            Loses(key, pod, pod.(call := second, after := Live(k)), Notices.Signature([note], false))
  {
    var pod := PodIn(seen, NO_TIER, [note], 100, Applying.Gone, false, Missing(true));
    Notices.EmptySignature([note], false);
    LosesBySilence(key, pod, pod.(call := second, after := Live(k)), k, Notices.Signature([note], false));
  }

  const BURST := Tier(false, true, true)

  /** Second exception: any pod that asks for burst and shows no quota, where a quota is there when Apply looks and is
      gone again for the next pass. The Apply is one the Applier makes: it writes the burst and finishes. */
  lemma LostQuotaNoticeExists(key: Key, seen: Seen, k: Knobs, quota: nat, weight: nat, second: Applying.Call)
    requires !seen.mirror && seen.reading == Live(k) && !k.idle && k.burst == 0 && k.limit.Unlimited?
    requires Legal(k) && Legal(k.(limit := CpuMax.Finite(quota))) && Transaction.Range(weight, 0)
    ensures var read := k.(limit := CpuMax.Finite(quota));
            var pod := PodIn(seen, BURST, [], weight, Applying.Ran(read, Transaction.Finished), false, Live(k));
            && Loses(key, pod, pod.(call := second), Notices.Signature([], true))
            && Transaction.Apply(Transaction.Ledger(Some(read), false), BURST, weight, 0, false,
                                 _ => Transaction.Through).end
               == Transaction.Finished
  {
    var read := k.(limit := CpuMax.Finite(quota));
    var pod := PodIn(seen, BURST, [], weight, Applying.Ran(read, Transaction.Finished), false, Live(k));
    Notices.EmptySignature([], true);
    LosesBySilence(key, pod, pod.(call := second), k, Notices.Signature([], true));
    Transaction.QuietPassRestores(Transaction.Ledger(Some(read), false), BURST, false, weight, 0,
                                  _ => Transaction.Through);
  }
}
