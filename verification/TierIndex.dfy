/**
 The reconciler object: its indexes are maintained one pod at a time; the invariant says they always equal what a full
 recount would give and never outlive a pod, and every method states all it does to them.
 */
module TierIndex {
  import opened Wrappers
  import opened Plan
  import opened PodIndex
  import Transaction
  import Notices

  class Reconciler {
    var metricsInitialized: bool
    var podMemberships: Members
    var podUidByKey: map<Key, Uid>
    var counts: map<Label, int>
    var gauge: map<Label, int>              // the published series
    var lastNotes: map<Uid, string>
    var pendingRestores: set<Uid>           // the Applier's journal
    ghost var scrapes: seq<map<Label, int>> // every state the gauge has been in

    function Ix(): Index
      reads this`metricsInitialized, this`podMemberships, this`podUidByKey, this`lastNotes, this`pendingRestores
    {
      Index(metricsInitialized, podMemberships, podUidByKey, lastNotes, pendingRestores)
    }

    ghost predicate Scraped()
      reads this`gauge, this`scrapes
    {
      scrapes != [] && Last(scrapes) == gauge
    }

    ghost predicate Indexed()
      reads this`podMemberships, this`podUidByKey, this`counts, this`gauge, this`scrapes
    {
      && Scraped()
      && Tallied(podMemberships, counts) && gauge == counts
      && Inverse(podMemberships, podUidByKey)
      && (forall u :: u in podMemberships ==> Distinct(podMemberships[u].tiers))
    }

    /** Nothing is remembered about a pod that is not a member. */
    predicate NoLeaks()
      reads this`podMemberships, this`lastNotes, this`pendingRestores
    {
      lastNotes.Keys <= podMemberships.Keys && pendingRestores <= podMemberships.Keys
    }

    ghost predicate Valid()
      reads this`podMemberships, this`podUidByKey, this`counts, this`gauge,
            this`lastNotes, this`pendingRestores, this`scrapes
    {
      Indexed() && NoLeaks()
    }

    constructor ()
      ensures Valid() && Ix() == Index(false, map[], map[], map[], {}) && scrapes == [map[]]
    {
      metricsInitialized, podMemberships, podUidByKey := false, map[], map[];
      counts, gauge, lastNotes, pendingRestores, scrapes := map[], map[], map[], {}, [map[]];
    }

    /** Adds `delta` to the count of each series, which may leave zeros for PublishTierCounts to drop. */
    method Adjust(tiers: seq<Label>, delta: int) returns (touched: set<Label>)
      requires Distinct(tiers)
      modifies this`counts
      ensures touched == set i | 0 <= i < |tiers| :: tiers[i]
      ensures forall series: Label ::
              Count(counts, series) == old(Count(counts, series)) + (if series in tiers then delta else 0)
      ensures forall series: Label :: series !in tiers ==> Get(counts, series) == old(Get(counts, series))
    {
      touched := {};
      for i := 0 to |tiers|
        invariant touched == set j | 0 <= j < i :: tiers[j]
        invariant forall series: Label ::
          Count(counts, series) == old(Count(counts, series)) + (if series in tiers[..i] then delta else 0)
        invariant forall series: Label :: series !in tiers ==> Get(counts, series) == old(Get(counts, series))
      {
        assert tiers[i] !in tiers[..i];
        assert tiers[..i + 1] == tiers[..i] + [tiers[i]];
        counts := counts[tiers[i] := Count(counts, tiers[i]) + delta];
        touched := touched + {tiers[i]};
      }
      assert tiers[..|tiers|] == tiers;
    }

    method PublishTierCounts(touched: set<Label>)
      requires Scraped()
      requires forall series: Label :: Count(counts, series) == Recount(podMemberships, series)
      requires forall series: Label :: series !in touched ==>
                 Get(counts, series) == Get(gauge, series) && (series in counts ==> counts[series] > 0)
      modifies this`counts, this`gauge, this`scrapes
      ensures Tallied(podMemberships, counts) && gauge == counts && Scraped()
      ensures old(scrapes) <= scrapes && NoGap(old(gauge), gauge, scrapes[|old(scrapes)|..])
    {
      var rest := touched;
      while rest != {}
        invariant forall series: Label :: Count(counts, series) == Recount(podMemberships, series)
        invariant forall series: Label :: series !in rest ==>
          Get(counts, series) == Get(gauge, series) && (series in counts ==> counts[series] > 0)
        invariant forall series: Label :: series in rest ==> Get(gauge, series) == Get(old(gauge), series)
        invariant forall series: Label ::
                  series in old(gauge) && Recount(podMemberships, series) > 0 ==> series in gauge
        invariant old(scrapes) <= scrapes && Scraped()
        invariant forall series, i {:trigger series in scrapes[i]} ::
          series in old(gauge) && Recount(podMemberships, series) > 0 && |old(scrapes)| <= i < |scrapes| ==>
            series in scrapes[i]
        decreases rest
      {
        var series :| series in rest;
        var count := Count(counts, series);
        if count <= 0 {
          counts := counts - {series};
          gauge := gauge - {series};
        } else {
          gauge := gauge[series := count];
        }
        scrapes := scrapes + [gauge];
        rest := rest - {series};
      }
      SameEntries(counts, gauge);
      TalliedCounts(podMemberships, counts);
    }

    method ReplacePodMembership(uid: Uid, next: Membership)
      requires Indexed() && Distinct(next.tiers)
      requires next.key in podUidByKey ==> podUidByKey[next.key] == uid
      modifies this`podMemberships, this`podUidByKey, this`counts, this`gauge, this`scrapes
      ensures Indexed() && podMemberships == old(podMemberships)[uid := next]
      ensures podUidByKey == old(Rekeyed(podMemberships, podUidByKey, uid, next.key))
      ensures old(scrapes) <= scrapes && NoGap(old(gauge), gauge, scrapes[|old(scrapes)|..])
    {
      var touched := {};
      ghost var before := podMemberships;
      InversePut(podMemberships, podUidByKey, uid, next);
      TalliedCounts(podMemberships, counts);
      if uid in podMemberships {
        var previous := podMemberships[uid];
        touched := Adjust(previous.tiers, -1);
        if previous.key != next.key {
          podUidByKey := podUidByKey - {previous.key};
        }
      }
      var more := Adjust(next.tiers, 1);
      podMemberships := podMemberships[uid := next];
      podUidByKey := podUidByKey[next.key := uid];
      RecountReplaced(before, uid, next);
      PublishTierCounts(touched + more);
    }

    method RemovePod(uid: Uid)
      requires Indexed()
      modifies this`podMemberships, this`podUidByKey, this`counts, this`gauge, this`scrapes
      ensures Indexed() && podMemberships == old(podMemberships) - {uid}
      ensures podUidByKey == old(if uid in podMemberships then podUidByKey - {podMemberships[uid].key} else podUidByKey)
      ensures old(scrapes) <= scrapes && NoGap(old(gauge), gauge, scrapes[|old(scrapes)|..])
    {
      if uid !in podMemberships { return; }
      var membership := podMemberships[uid];
      ghost var before := podMemberships;
      var touched := Adjust(membership.tiers, -1);
      podMemberships := podMemberships - {uid};
      podUidByKey := podUidByKey - {membership.key};
      forall series: Label
        ensures Count(counts, series) == Recount(podMemberships, series)
      {
        RecountDrop(before, uid, series);
      }
      PublishTierCounts(touched);
    }

    /** forgetApplierPodState. */
    method ForgetApplierState(uid: Uid)
      modifies this`pendingRestores
      ensures pendingRestores == old(pendingRestores) - {uid}
    {
      pendingRestores := pendingRestores - {uid};
    }

    method RemovePodByKey(key: Key)
      requires Valid()
      modifies this
      ensures Valid() && old(scrapes) <= scrapes && Ix() == WithoutKey(old(Ix()), key)
      ensures NoGap(old(gauge), gauge, scrapes[|old(scrapes)|..])
    {
      if key !in podUidByKey { return; }
      var uid := podUidByKey[key];
      ForgetApplierState(uid);
      RemovePod(uid);
      podUidByKey := podUidByKey - {key};
      lastNotes := lastNotes - {uid};
    }

    /** A key that now stands for another UID drops everything about the old one. */
    method DropReplaced(key: Key, uid: Uid)
      requires Valid()
      modifies this
      ensures Valid() && old(scrapes) <= scrapes && Ix() == Kept(old(Ix()), key, uid)
      ensures NoGap(old(gauge), gauge, scrapes[|old(scrapes)|..])
    {
      if key in podUidByKey && podUidByKey[key] != uid {
        var previous := podUidByKey[key];
        ForgetApplierState(previous);
        RemovePod(previous);
        lastNotes := lastNotes - {previous};
      }
    }

    method ObservePodIdentity(key: Key, uid: Uid)
      requires Valid() && (uid in podMemberships ==> podMemberships[uid].key == key)
      modifies this
      ensures Valid() && old(scrapes) <= scrapes && Ix() == Known(old(Ix()), key, uid)
      ensures NoGap(old(gauge), gauge, scrapes[|old(scrapes)|..])
    {
      DropReplaced(key, uid);
      if uid !in podMemberships {
        InverseGrows(podMemberships, podUidByKey, uid, Membership(key, []));
        EmptyMemberTallies(podMemberships, uid, key, counts);
      }
      podUidByKey := podUidByKey[key := uid];
      if uid !in podMemberships {
        podMemberships := podMemberships[uid := Membership(key, [])];
      }
    }

    /** A series that stays is missing from some published state exactly when the key's old pod was its only member. */
    method SetPodActual(key: Key, p: Seen, tiers: seq<Label>)
      requires Valid() && Distinct(tiers) && (p.uid in podMemberships ==> podMemberships[p.uid].key == key)
      modifies this
      ensures Valid() && old(scrapes) <= scrapes && Ix() == Placed(old(Ix()), key, p.uid, tiers)
      ensures NoGap(old(gauge), gauge, scrapes[|old(scrapes)|..]) <==>
              !old(RecreatesSoleMember(podMemberships, podUidByKey, key, p.uid, tiers))
    {
      ObservePodIdentity(key, p.uid);
      ghost var between := scrapes;
      KnownAlready(Ix(), key, p.uid);
      ReplacePodMembership(p.uid, Membership(key, tiers));
      GapExactly(old(Ix()), key, p.uid, tiers, old(scrapes), between, scrapes);
    }

    /** What a pass does to a pod it could read: observePodIdentity, then setPodActual. `between` is what had been
        published after the first of them. */
    method TrackPod(key: Key, p: Seen, tiers: seq<Label>) returns (ghost between: seq<map<Label, int>>)
      requires Valid() && Distinct(tiers) && (p.uid in podMemberships ==> podMemberships[p.uid].key == key)
      modifies this
      ensures Valid() && old(scrapes) <= scrapes && Ix() == Placed(old(Ix()), key, p.uid, tiers)
      ensures NoGap(old(gauge), gauge, scrapes[|old(scrapes)|..]) <==>
              !old(RecreatesSoleMember(podMemberships, podUidByKey, key, p.uid, tiers))
      ensures Continues(old(scrapes), between) && Continues(between, scrapes)
      ensures Tallied(Known(old(Ix()), key, p.uid).ms, Last(between))
    {
      PlacedAfterKnown(Ix(), key, p.uid, tiers);
      ObservePodIdentity(key, p.uid);
      between := scrapes;
      SetPodActual(key, p, tiers);
      GapExactly(old(Ix()), key, p.uid, tiers, old(scrapes), between, scrapes);
    }

    /** refreshPodActual: an unknown reading keeps the last confirmed membership and is an error. */
    method RefreshPodActual(key: Key, p: Seen, r: Reading) returns (ok: bool)
      requires Valid() && p.uid in podMemberships && podMemberships[p.uid].key == key
      modifies this
      ensures Valid() && old(scrapes) <= scrapes && Ix() == Reread(old(Ix()), key, p, r)
      ensures NoGap(old(gauge), gauge, scrapes[|old(scrapes)|..])
      ensures ok == Confirmed(p, r).Some? && (r.Unreadable? || r == Missing(true) ==> !ok)
    {
      var tiers := Confirmed(p, r);
      if tiers.None? { return false; }
      if r.Missing? {
        ForgetApplierState(p.uid);
      }
      SetPodActual(key, p, tiers.value);
      return true;
    }

    /** The journal entry an Apply or Revert leaves behind. */
    method JournalOutcome(uid: Uid, pending: bool)
      requires Valid() && uid in podMemberships
      modifies this`pendingRestores
      ensures Valid() && Ix() == Journaled(old(Ix()), uid, pending)
    {
      pendingRestores := if pending then pendingRestores + {uid} else pendingRestores - {uid};
    }

    /** recordPodNotice. */
    method RecordPodNotice(uid: Uid, signature: string)
      requires Valid() && uid in podMemberships
      modifies this`lastNotes
      ensures Valid() && Ix() == Noted(old(Ix()), uid, if signature == "" then None else Some(signature))
    {
      if signature == "" {
        lastNotes := lastNotes - {uid};
      } else {
        lastNotes := lastNotes[uid := signature];
      }
    }

    /** Whether the cgroup needs work. Asking may close a journal entry whose weight is already right. */
    method HasCgroupWork(pod: PodIn, k: Knobs) returns (work: bool)
      requires Valid()
      modifies this`pendingRestores
      ensures Valid() && Ix() == Asked(old(Ix()), pod, k)
      ensures work == PassOf(pod, k, pod.seen.uid in old(pendingRestores)).work
    {
      var uid := pod.seen.uid;
      var target := if WantsTier(pod.desired) then pod.desired else NO_TIER;
      var plan := BuildPlan(target, k, pod.weight);
      var needsWeightRepair := false;
      if !pod.desired.idleRequested {
        var l := Transaction.Ledger(Some(k), uid in pendingRestores);
        needsWeightRepair := Transaction.NeedsRepair(l, k, pod.weight);
        if !Transaction.Checked(l, k, pod.weight).pending {
          ForgetApplierState(uid);
        }
      }
      work := plan != [] || needsWeightRepair;
    }

    /** Reconcile from its early returns on: route the pass, commit the notice, read the cgroup again. */
    method RoutePass(key: Key, pod: PodIn, pass: Notices.Pass, hasNotice: bool) returns (route: Notices.Route, ok: bool)
      requires Valid() && pod.seen.uid in podMemberships && podMemberships[pod.seen.uid].key == key
      requires pass.ok == !pod.Fails() && hasNotice == (pass.signature != "")
      modifies this
      ensures Valid() && old(scrapes) <= scrapes && NoGap(old(gauge), gauge, scrapes[|old(scrapes)|..])
      ensures route == Notices.Routed(Get(old(lastNotes), pod.seen.uid), pass, WantsTier(pod.desired))
      ensures Ix() == RoutedPass(old(Ix()), key, pod, pass)
      ensures ok == (route.Silent? || (pass.ok && Confirmed(pod.seen, pod.after).Some?))
    {
      var uid := pod.seen.uid;
      NotedAlready(Ix(), uid);
      var changed := Get(lastNotes, uid) != Some(pass.signature);
      if !pass.work && !hasNotice {
        RecordPodNotice(uid, "");
        return Notices.Silent, true;
      }
      if !pass.work && !changed { return Notices.Silent, true; }
      route := if WantsTier(pod.desired) || hasNotice then Notices.Apply(hasNotice && changed) else Notices.Revert;
      if pass.ok {
        RecordPodNotice(uid, pass.signature);
      }
      ok := FinishPass(key, pod);
    }

    /** What is left to do once an Apply or Revert has returned. */
    method FinishPass(key: Key, pod: PodIn) returns (ok: bool)
      requires Valid() && pod.seen.uid in podMemberships && podMemberships[pod.seen.uid].key == key
      modifies this
      ensures Valid() && old(scrapes) <= scrapes && NoGap(old(gauge), gauge, scrapes[|old(scrapes)|..])
      ensures Ix() == Reread(Journaled(old(Ix()), pod.seen.uid, pod.pendingAfter), key, pod.seen, pod.after)
      ensures ok == (!pod.Fails() && Confirmed(pod.seen, pod.after).Some?)
    {
      JournalOutcome(pod.seen.uid, pod.pendingAfter);
      ok := RefreshPodActual(key, pod.seen, pod.after);
      ok := ok && !pod.Fails();
    }

    /** Reconcile for a pod whose snapshot could be read. */
    method ReconcileLive(key: Key, pod: PodIn, k: Knobs) returns (route: Notices.Route, ok: bool)
      requires Valid() && pod.seen.uid in podMemberships && podMemberships[pod.seen.uid].key == key
      modifies this
      ensures Valid() && old(scrapes) <= scrapes && NoGap(old(gauge), gauge, scrapes[|old(scrapes)|..])
      ensures route == LiveRoute(old(Ix()), pod, k) && Ix() == LivePass(old(Ix()), key, pod, k)
      ensures ok == (route.Silent? || (!pod.Fails() && Confirmed(pod.seen, pod.after).Some?))
    {
      var work := HasCgroupWork(pod, k);
      var signature := Notices.NoteSignature(pod.notes, QuotaMissing(pod.desired, k));
      Notices.EmptySignature(pod.notes, QuotaMissing(pod.desired, k));
      var pass := Notices.Pass(signature, work, !pod.Fails());
      route, ok := RoutePass(key, pod, pass, pod.notes != [] || QuotaMissing(pod.desired, k));
    }

    /** Reconcile for a pod whose cgroup is not there. */
    method ReconcileMissing(key: Key, p: Seen, running: bool) returns (ok: bool)
      requires Valid() && (p.uid in podMemberships ==> podMemberships[p.uid].key == key)
      modifies this
      ensures Valid() && old(scrapes) <= scrapes && ok == !running
      ensures NoGap(old(gauge), gauge, scrapes[|old(scrapes)|..])
      ensures Ix() == if running then Known(old(Ix()), key, p.uid) else Placed(Forgot(old(Ix()), p.uid), key, p.uid, [])
    {
      PlacedAfterKnown(Ix(), key, p.uid, []);
      ObservePodIdentity(key, p.uid);
      if running { return false; }
      ghost var between := scrapes;
      ForgetApplierState(p.uid);
      SetPodActual(key, p, []);
      GapExactly(old(Ix()), key, p.uid, [], old(scrapes), between, scrapes);
      return true;
    }

    /** Reconcile for a pod the lister holds. */
    method ReconcilePresent(key: Key, pod: PodIn) returns (route: Notices.Route, ok: bool)
      requires Valid() && !pod.seen.mirror &&
               (pod.seen.uid in podMemberships ==> podMemberships[pod.seen.uid].key == key)
      modifies this
      ensures Valid() && old(scrapes) <= scrapes
      ensures Ix() == PassedPresent(old(Ix()), key, pod)
      ensures route == RouteOf(old(Ix()), Held(pod)) && ok == Succeeds(old(Ix()), Held(pod))
      ensures NoGap(old(gauge), gauge, scrapes[|old(scrapes)|..]) <==> !LosesSeries(old(Ix()), key, Held(pod))
    {
      route, ok := Notices.Silent, true;
      var seen := pod.seen;
      match seen.reading {
        case Unreadable =>
          ObservePodIdentity(key, seen.uid);
          ok := false;
        case Missing(running) =>
          ok := ReconcileMissing(key, seen, running);
        case Live(k) =>
          PassShows(Ix(), key, pod);
          ghost var between := TrackPod(key, seen, TiersOf(seen, k));
          ghost var placed := scrapes;
          route, ok := ReconcileLive(key, pod, k);
          PassGapExactly(old(Ix()), key, pod, k, old(scrapes), between, placed, scrapes);
      }
    }

    /** Reconcile: `lookup` is what the lister answers for the key, `listed` what a first full scan would see. What is
        remembered afterwards is a function of what was remembered before and of what this call saw. */
    method Reconcile(key: Key, cancelled: bool, lookup: Lookup, listed: Option<seq<Seen>>)
      returns (route: Notices.Route, ok: bool)
      requires Valid() && (listed.Some? ==> Listing(listed.value))
      // a UID is never seen under two keys
      requires lookup.Held? && lookup.pod.seen.uid in podMemberships ==> podMemberships[lookup.pod.seen.uid].key == key
      requires lookup.Held? && listed.Some? ==> UnderKey(listed.value, lookup.pod.seen.uid, key)
      modifies this
      ensures Valid() && old(scrapes) <= scrapes
      ensures cancelled ==> Ix() == old(Ix()) && scrapes == old(scrapes) && route.Silent? && !ok
      ensures !cancelled ==>
                var ix := Seeded(old(Ix()), listed);
                && Ix() == Passed(ix, key, lookup) && route == RouteOf(ix, lookup) && ok == Succeeds(ix, lookup)
                && metricsInitialized == (old(metricsInitialized) || listed.Some?)
                && (forall u :: !Concerns(ix, key, lookup, u) ==>
                      && Get(podMemberships, u) == Get(ix.ms, u) && Get(lastNotes, u) == Get(ix.notes, u)
                      && (u in pendingRestores <==> u in ix.pending))
                && (Tracks(lookup) ==> OwnRecordAfter(ix, Ix(), lookup.pod))
      ensures !cancelled && old(metricsInitialized) ==>
                (NoGap(old(gauge), gauge, scrapes[|old(scrapes)|..]) <==> !LosesSeries(old(Ix()), key, lookup))
    {
      if cancelled { return Notices.Silent, false; }
      if !metricsInitialized {
        ghost var before := podMemberships;
        var scanned := RefreshPodsInTier(listed);
        if lookup.Held? && listed.Some? {
          ScanKeepsKey(before, listed.value, lookup.pod.seen.uid, key);
        }
      }
      PassLeavesOthers(Ix(), key, lookup);
      route, ok := ReconcileKey(key, lookup);
    }

    /** Reconcile, once the first full scan has been tried. */
    method ReconcileKey(key: Key, lookup: Lookup) returns (route: Notices.Route, ok: bool)
      requires Valid()
      requires lookup.Held? && lookup.pod.seen.uid in podMemberships ==> podMemberships[lookup.pod.seen.uid].key == key
      modifies this
      ensures Valid() && old(scrapes) <= scrapes
      ensures Ix() == Passed(old(Ix()), key, lookup)
      ensures route == RouteOf(old(Ix()), lookup) && ok == Succeeds(old(Ix()), lookup)
      ensures NoGap(old(gauge), gauge, scrapes[|old(scrapes)|..]) <==> !LosesSeries(old(Ix()), key, lookup)
    {
      if lookup.LookupFails? { return Notices.Silent, false; }
      if lookup.NotFound? || lookup.pod.seen.mirror {
        RemovePodByKey(key);
        return Notices.Silent, true;
      }
      route, ok := ReconcilePresent(key, lookup.pod);
    }

    /** refreshPodsInTier over a full listing; `None` is a failed List. Publishes every current series before it
        drops a stale one, so a concurrent scrape never misses a series that stays. */
    method RefreshPodsInTier(listed: Option<seq<Seen>>) returns (ok: bool)
      requires Valid() && (listed.Some? ==> Listing(listed.value))
      modifies this
      ensures Valid()
      ensures Ix() == Refreshed(old(Ix()), listed)
      ensures ok <==> listed.Some? && forall i :: 0 <= i < |listed.value| && !listed.value[i].mirror ==>
                        Confirmed(listed.value[i], listed.value[i].reading).Some?
      ensures old(scrapes) <= scrapes && NoGap(old(gauge), gauge, scrapes[|old(scrapes)|..])
    {
      if listed.None? { return false; }
      var newCounts, memberships, uidsByKey;
      newCounts, memberships, uidsByKey, ok := ScanPods(podMemberships, listed.value);
      Publish(newCounts);
      Install(newCounts, memberships, uidsByKey);
    }

    /** The end of a refresh: drop what belongs to pods that are gone, then take over the scan. */
    method Install(newCounts: map<Label, int>, memberships: Members, uidsByKey: map<Key, Uid>)
      requires NoLeaks() && Scraped() && gauge == newCounts &&
               Tallied(memberships, newCounts) && Inverse(memberships, uidsByKey)
      requires forall u :: u in memberships ==> Distinct(memberships[u].tiers)
      modifies this`podMemberships, this`podUidByKey, this`counts, this`metricsInitialized,
               this`lastNotes, this`pendingRestores
      ensures Valid() && metricsInitialized && podMemberships == memberships && podUidByKey == uidsByKey
      ensures lastNotes == old(lastNotes) - (old(lastNotes).Keys - memberships.Keys)
      ensures pendingRestores == old(pendingRestores) * memberships.Keys
    {
      pendingRestores := pendingRestores - (podMemberships.Keys - memberships.Keys);
      podMemberships, podUidByKey, counts := memberships, uidsByKey, newCounts;
      metricsInitialized := true;
      lastNotes := lastNotes - (lastNotes.Keys - memberships.Keys);
    }

    /** The gauge writes of a refresh: set every current series, then delete the stale ones. */
    method Publish(newCounts: map<Label, int>)
      requires gauge == counts && Scraped()
      modifies this`gauge, this`scrapes
      ensures gauge == newCounts && Scraped()
      ensures old(scrapes) <= scrapes && NoGap(old(gauge), gauge, scrapes[|old(scrapes)|..])
    {
      var rest := newCounts.Keys;
      while rest != {}
        invariant rest <= newCounts.Keys
        invariant forall series: Label ::
          Get(gauge, series) ==
          if series in newCounts && series !in rest then Some(newCounts[series]) else Get(old(gauge), series)
        invariant forall series :: series in old(gauge) ==> series in gauge
        invariant old(scrapes) <= scrapes && Scraped()
        invariant forall series, i :: series in old(gauge) && |old(scrapes)| <= i < |scrapes| ==> series in scrapes[i]
        decreases rest
      {
        var series :| series in rest;
        gauge := gauge[series := newCounts[series]];
        scrapes := scrapes + [gauge];
        rest := rest - {series};
      }
      var stale := counts.Keys - newCounts.Keys;
      while stale != {}
        invariant stale <= counts.Keys - newCounts.Keys
        invariant forall series :: series in newCounts ==> series in gauge
        invariant forall series: Label ::
          Get(gauge, series) ==
          if series in newCounts then Some(newCounts[series])
          else if series in stale then Get(old(gauge), series) else None
        invariant old(scrapes) <= scrapes && Scraped()
        invariant forall series, i ::
          series in old(gauge) && series in newCounts && |old(scrapes)| <= i < |scrapes| ==> series in scrapes[i]
        decreases stale
      {
        var series :| series in stale;
        gauge := gauge - {series};
        scrapes := scrapes + [gauge];
        stale := stale - {series};
      }
      SameEntries(gauge, newCounts);
    }
  }

  /** One pod's contribution to the counts of a full scan. */
  method Tally(ghost ms: Members, ghost uid: Uid, membership: Membership, counts: map<Label, int>)
    returns (r: map<Label, int>)
    requires Tallied(ms, counts) && uid !in ms && Distinct(membership.tiers)
    ensures Tallied(ms[uid := membership], r)
  {
    r := counts;
    TalliedCounts(ms, counts);
    var tiers := membership.tiers;
    for i := 0 to |tiers|
      invariant forall series: Label :: Count(r, series) == Count(counts, series) + One(series in tiers[..i])
      invariant forall series: Label :: series in r ==> r[series] > 0
    {
      assert tiers[i] !in tiers[..i];
      assert tiers[..i + 1] == tiers[..i] + [tiers[i]];
      r := r[tiers[i] := Count(r, tiers[i]) + 1];
    }
    assert tiers[..|tiers|] == tiers;
    forall series: Label
      ensures Count(r, series) == Recount(ms[uid := membership], series)
    {
      RecountPut(ms, uid, membership, series);
      RecountDrop(ms, uid, series);
    }
    TalliedCounts(ms[uid := membership], r);
  }

  lemma ScanGrows(past: Members, pods: seq<Seen>, i: nat)
    requires i < |pods| && forall u :: u in past ==> Distinct(past[u].tiers)
    ensures ScanKeys(pods[..i + 1]) ==
            if pods[i].mirror then ScanKeys(pods[..i]) else ScanKeys(pods[..i])[pods[i].key := pods[i].uid]
    ensures Scan(past, pods[..i + 1]) ==
            if pods[i].mirror then Scan(past, pods[..i])
            else Scan(past, pods[..i])[pods[i].uid := ScanOne(past, pods[i])]
    ensures Distinct(ScanOne(past, pods[i]).tiers)
  {
    assert pods[..i + 1][..i] == pods[..i] && pods[..i + 1][i] == pods[i];
  }

  /** Every member of a scan comes from a listed pod that is not a mirror, under that pod's key. */
  ghost predicate FromList(ms: Members, pods: seq<Seen>) {
    forall u :: u in ms ==>
      exists j :: 0 <= j < |pods| && !pods[j].mirror && pods[j].uid == u && pods[j].key == ms[u].key
  }

  lemma FromListGrows(ms: Members, pods: seq<Seen>, i: nat, m: Membership)
    requires i < |pods| && Listing(pods) && FromList(ms, pods[..i]) && m.key == pods[i].key
    ensures FromList(ms, pods[..i + 1])
    ensures !pods[i].mirror ==> FromList(ms[pods[i].uid := m], pods[..i + 1])
    ensures !pods[i].mirror ==> pods[i].uid !in ms && forall u :: u in ms ==> ms[u].key != pods[i].key
  {
    forall u | u in ms
      ensures exists j :: 0 <= j < i && !pods[j].mirror && pods[j].uid == u && pods[j].key == ms[u].key
    {
      var j :| 0 <= j < i && !pods[..i][j].mirror && pods[..i][j].uid == u && pods[..i][j].key == ms[u].key;
      assert pods[j] == pods[..i][j] == pods[..i + 1][j];
    }
    assert forall j :: 0 <= j < i + 1 ==> pods[..i + 1][j] == pods[j];
  }

  /** The scanning loop of refreshPodsInTier: memberships, counts and key map built together from the listing. */
  method ScanPods(past: Members, pods: seq<Seen>)
    returns (counts: map<Label, int>, memberships: Members, uidsByKey: map<Key, Uid>, ok: bool)
    requires Listing(pods) && forall u :: u in past ==> Distinct(past[u].tiers)
    ensures memberships == Scan(past, pods) && uidsByKey == ScanKeys(pods)
    ensures Tallied(memberships, counts) && Inverse(memberships, uidsByKey)
    ensures forall u :: u in memberships ==> Distinct(memberships[u].tiers)
    ensures ok <==> forall i :: 0 <= i < |pods| && !pods[i].mirror ==> Confirmed(pods[i], pods[i].reading).Some?
  {
    counts, memberships, uidsByKey, ok := map[], map[], map[], true;
    for i := 0 to |pods|
      invariant memberships == Scan(past, pods[..i]) &&
                uidsByKey == ScanKeys(pods[..i]) && FromList(memberships, pods[..i])
      invariant Tallied(memberships, counts) && Inverse(memberships, uidsByKey)
      invariant forall u :: u in memberships ==> Distinct(memberships[u].tiers)
      invariant ok <==> forall j :: 0 <= j < i && !pods[j].mirror ==> Confirmed(pods[j], pods[j].reading).Some?
    {
      var p := pods[i];
      ScanGrows(past, pods, i);
      var membership := ScanOne(past, p);
      FromListGrows(memberships, pods, i, membership);
      if !p.mirror {
        ok := ok && Confirmed(p, p.reading).Some?;
        InverseGrows(memberships, uidsByKey, p.uid, membership);
        counts := Tally(memberships, p.uid, membership, counts);
        uidsByKey := uidsByKey[p.key := p.uid];
        memberships := memberships[p.uid := membership];
      }
    }
    assert pods[..|pods|] == pods;
  }

  /** The gap, exhibited: wherever a series' only pod is recreated under its name and is in the series again, a state
      without the series is published in between. */
  method RecreatedPodLeavesGap(r: Reconciler, key: Key, again: Seen, tiers: seq<Label>, series: Label)
    returns (ghost gap: nat)
    requires r.Valid() && again.uid !in r.podMemberships && Distinct(tiers) && series in tiers
    requires Replaces(r.podUidByKey, key, again.uid) && SoleIn(r.podMemberships, r.podUidByKey[key], series)
    modifies r
    ensures r.Valid() && |old(r.scrapes)| <= gap < |r.scrapes|
    ensures series in old(r.gauge) && series !in r.scrapes[gap] && series in r.gauge
  {
    ghost var ix := r.Ix();
    LostInBetween(ix, key, again.uid, tiers, series);
    TalliedHas(ix.ms, r.gauge, series);
    ghost var between := r.TrackPod(key, again, tiers);
    TalliedHas(Known(ix, key, again.uid).ms, Last(between), series);
    TalliedHas(r.podMemberships, r.gauge, series);
    gap := |between| - 1;
  }
}
