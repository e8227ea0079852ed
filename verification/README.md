# cpu-idle-operator: verified model

A Dafny 4.11 model of the node agent that moves pods in and out of the CPU idle and burst tiers and freezes
idle-tier pods under node pressure. `dafny verify dfyconfig.toml` checks every file.

The agent's work is spread over places that do not change together: files of a pod cgroup, the pod's API
object, an informer cache that may lag, and process memory that a crash loses. The model keeps each of them
and states what holds between them, at every step and over every run.

| files | what they model |
|---|---|
| `Text`, `CpuMax`, `Weight`, `Qos` | text fields and decimals, the two `cpu.max` readers, the request-to-weight formula in 64-bit arithmetic, the QoS class and quota prediction |
| `Markers`, `Ownership`, `OwnershipRuns`, `OwnershipOutcomes`, `OwnershipLaws` | the guard's write-ahead ownership protocol seen from one pod: the durable marker, the live freeze, the process-local record |
| `GuardMaps`, `NodeRuns`, `NodePasses`, `GuardProcess`, `GuardOutcomes` | the same protocol over all pods of a node: shared maps, passes over lists, other actors and deaths in between |
| `Plan`, `Transaction`, `Applying`, `RevertAll` | the kernel's knob rules, the plan of writes, the journaled idle-off transaction, and the one-shot revert |
| `Notices`, `PodIndex`, `TierIndex`, `ReconcilerRuns` | the reconciler: notice de-duplication, tier counts, key and UID maps, and whole runs over many pods |
| `PathText`, `PodPath`, `WriteTarget` | pod cgroup paths under both drivers and the guard that recognises them |
| `Hysteresis`, `Sampling` | the temperature machine and what is fed to it |

How the protocols are written down:

- Each protocol is first a set of functions over one pod's share of the state (`Ownership.Local`,
  `Transaction.Ledger`). A function also takes a script: which calls fail, where the context is cancelled, what
  other actors do in the middle. It returns the outward effects in order, so a crash is a cut through that
  sequence. The classes (`Guard`, `Applier`, `Sampler`, `Reconciler`) hold the maps the code holds; their
  methods are proved equal, pod by pod, to those functions, and to leave every other pod alone.
- The assumptions on the surroundings are explicit: a failed patch or knob write has no effect; the API server
  gives every object a non-empty resourceVersion and never reuses a UID; a convergence is never shown a cached
  marker older than the guard's own last clear. Lemmas in `OwnershipOutcomes` exhibit the violation when the
  first or the third is dropped, and the lost marker when the second is.
- The kernel model: `cpu.idle` 1 to 0 resets `cpu.weight` to 100, an idle group refuses any weight, an idle
  group shows weight 0 or 1, burst may not exceed a finite quota ("CPU Interface Files" of the kernel's cgroup
  v2 guide; `hack/stand-probe.sh` expects the same).

Where the code and its comments differ, the model follows the code:

- `RestoreWeight` computes `milliCPU*1024` in 64 bits and can wrap; `WeightMatchesFormula` says exactly when the
  documented formula is what is computed, and `WrappedRequest` gives the smallest request for which it is not.
- `guardWriteTarget` does not accept everything `PodCgroupPath` prints: under cgroupfs a UID with a slash is printed
  too. `PrintedIsAccepted` says exactly which of these paths are accepted; `BelowAPodIsRefused` and
  `BackIntoAPodIsAccepted` give a family of each kind.
- The full refresh never takes away a series that stays; the incremental update can. `Reconciler.TrackPod` says exactly
  when for one update: a series' only pod is recreated under its name (`RecreatedPodLeavesGap`). `Reconciler.Reconcile`
  says it for a whole call after the first scan, where the pod's first reading may also show it out of a series that
  the second shows it in.
- A signature is meant to be recorded only once its notices are out. There are exactly two exceptions
  (`RecordMeansPublished`): an `Apply` that finds the cgroup gone publishes nothing and returns no error
  (`LostNoticeExists`), and an `Apply` that reads a quota where the pass had read none does not report it as missing
  (`LostQuotaNoticeExists`). What is left unsaid stays unsaid (`UnsaidStaysUnsaid`).

## Model

| member | source | states |
|---|---|---|
| CpuMax.ReadsExactly | internal/apply/snapshot.go:103-123 | which strings the snapshot parser accepts, and as what, in plain numbers |
| CpuMax.SpellReadsExactly | internal/apply/snapshot.go:103-123 | which limits and periods can be read back at all |
| CpuMax.ReadersAgree | internal/apply/snapshot.go:103-123 | on every string the snapshot parser and the guard's canonicaliser accept the same readings, and the canonical text spells exactly the limit and period parsed |
| CpuMax.CanonicalPreservesMeaning | internal/guard/ownership.go:387-407 | canonicalisation is idempotent and keeps limit and period |
| CpuMax.CanonicalDecidesMeaning | internal/guard/ownership.go:387-407 | two readings share a canonical form exactly when they mean the same |
| Text.ParseOfFormat | internal/guard/ownership.go:397-406 | printing and parsing an unsigned number is a round trip exactly up to 64 bits |
| Text.ParseExactly | internal/guard/ownership.go:397-406 | the parser accepts exactly the 64-bit numbers in print, after leading zeros |
| Markers.ValidExactly | internal/guard/ownership.go:365-385 | the valid records in plain text: the freeze of `cgroup.freeze` from 0 to 1, or a version 1 throttle of `cpu.max` from an unbounded value to a finite one, both canonical |
| Markers.ValidRecords | internal/guard/ownership.go:365-385 | a valid record is the freeze transition, or a legacy one from a finite `cpu.max` back to a canonical unbounded one |
| Ownership.RecoverIsCoolConverge | internal/guard/ownership.go:53-91 | recovery and cool convergence do the same to every pod, for every failure script |
| OwnershipRuns.OrderlyIsSafe | internal/guard/ownership.go:163-226 | there is no bad moment to crash: every cut through a mark-before-freeze, thaw-before-unmark sequence is safe |
| OwnershipRuns.OthersKeep | internal/guard/ownership.go:425-428 | other actors cannot undo what the guard relies on and cannot change an object without changing its version |
| OwnershipRuns.SuppressKeeps | internal/guard/ownership.go:163-226 | suppression keeps the order and the invariant under every failure and interleaving |
| OwnershipRuns.RestoreKeeps | internal/guard/ownership.go:256-319 | restoring keeps the order and the invariant under every failure and interleaving |
| OwnershipRuns.ConvergeKeeps | internal/guard/ownership.go:96-161 | so does a whole pass over the pod |
| OwnershipRuns.RunsAreSafe | internal/guard/ownership.go:163-319 | write-ahead ownership: over every admissible run of passes, recoveries, crashes and other actors, no durable state shows a guard freeze without its marker, unless someone else changed the marker since the guard last set it |
| OwnershipRuns.StartIsSafe | internal/guard/ownership.go:338-363 | a fresh process over any cluster state satisfies the invariant |
| OwnershipOutcomes.PatchLandsExactly | internal/guard/ownership.go:429-501 | a marker patch lands if and only if nothing failed, the object is the pod's own, its marker is what was inspected, and no writer came between GET and PATCH; the marker and version it leaves |
| OwnershipOutcomes.EmptyVersionLosesMarker | internal/guard/ownership.go:483-485 | without a resourceVersion a marker written in between is overwritten |
| OwnershipOutcomes.PassWrites | internal/guard/ownership.go:96-161 | a pass writes at most one knob of a pod, and only `cgroup.freeze` unless it undoes a legacy throttle |
| OwnershipOutcomes.CancelledWritesNothing | internal/guard/ownership.go:297-299 | once the context is done, on entry or just before the write, no knob is written |
| OwnershipOutcomes.RunsWriteLegally | internal/guard/ownership.go:280-306 | over every run `cpu.max` is written only when the spec predicts no quota, from the recorded finite value, to a canonical unbounded one |
| OwnershipOutcomes.QuietPassSettles | internal/guard/ownership.go:96-161 | without failures a hot claimable candidate ends frozen and marked, or, if it was marked and its object is gone, frozen with no object; any other marked pod is let go, everything else is untouched |
| OwnershipOutcomes.QuietVanishedSettles | internal/guard/ownership.go:148-159 | an owned pod that left the list is let go |
| OwnershipOutcomes.QuietPassDropsInvalid | internal/guard/ownership.go:106-115 | an unacceptable marker is removed and nothing else happens |
| OwnershipOutcomes.ConflictEndsOwnership | internal/guard/ownership.go:321-328 | a replaced marker is left alone, the pod is thawed, ownership ends, the conflict is reported |
| OwnershipOutcomes.QuietPassUndoesLegacy | internal/guard/ownership.go:126-132 | a pod with a legacy throttle is never suppressed: every failure-free pass takes the throttle back and clears its marker, or fails and touches nothing where a quota is expected |
| OwnershipLaws.PatchAnswers | internal/guard/ownership.go:429-501 | each answer of the compare-and-patch exactly: a set succeeds only by landing, a clear also where nothing is left to clear; what merely failed is never an answer that ends ownership |
| OwnershipLaws.EligibleExactly | internal/guard/ownership.go:228-250 | which pods may be suppressed, in plain values of `cgroup.freeze` |
| OwnershipLaws.NothingTried | internal/guard/ownership.go:163-175 | a visit that is cancelled, or cannot name or read the cgroup, does nothing and returns an error |
| OwnershipLaws.SuppressOwnsExactly | internal/guard/ownership.go:180-226 | ownership begins exactly when the marker lands, whatever fails afterwards; only a pod found thawed is marked or frozen |
| OwnershipLaws.RestoreDisownsExactly | internal/guard/ownership.go:313-328 | ownership ends exactly on success or on a replaced marker, and then the record is off the pod's object; after any other failure the entry is kept for a retry |
| OwnershipLaws.RunsRemember | internal/guard/ownership.go:163-328 | over every run no event makes a living process forget a pod whose object carries the guard's marker |
| OwnershipLaws.HonestPass | internal/guard/ownership.go:96-161 | a pass without an error did all that a failure-free pass does |
| OwnershipOutcomes.RecoveryUndoesEveryRun | internal/guard/ownership.go:53-91 | after any run cut anywhere by a crash, one failure-free recovery leaves every marked pod thawed and unmarked |
| OwnershipOutcomes.SecondRecoveryIsSilent | internal/guard/ownership.go:53-91 | a second recovery writes no knob and patches nothing, even over a stale list |
| OwnershipOutcomes.StaleCacheBreaksWriteAhead | internal/guard/ownership.go:347-360 | from any unmarked, unfrozen state, a cached marker older than the guard's own clear makes it freeze an unmarked pod |
| OwnershipOutcomes.LostReplyBreaksWriteAhead | internal/guard/ownership.go:340-345 | so does a release whose clearing patch landed and whose reply was lost, from any sound state in which the guard owns a thawed pod |
| GuardProcess.Guard.PatchMarker | internal/guard/ownership.go:429-501 | the method, with other writers between its calls, is the one-pod patch on the pod's share of the maps |
| GuardProcess.Guard.SuppressPod | internal/guard/ownership.go:163-226 | likewise for suppression |
| GuardProcess.Guard.RestorePod | internal/guard/ownership.go:256-319 | likewise for restoring |
| GuardProcess.Guard.Converge | internal/guard/ownership.go:96-161 | over any list, with any failures and with others acting before and within every visit: the pass is exactly one sweep of each listed pod, the suppression of those found eligible while hot, and the restoring of every owned pod off the list, each the one-pod function on what it meets; if nobody interferes, every pod comes out as its own one-pod convergence |
| GuardProcess.Guard.Recover | internal/guard/ownership.go:53-91 | the same for recovery: one visit to each listed pod, then every owned pod off the list |
| GuardOutcomes.QuietConvergeSettles | internal/guard/ownership.go:93-161 | any pod of any list after a failure-free pass: frozen and marked, frozen with its object gone, let go, or as it was, with at most one knob write |
| GuardOutcomes.CoolConvergeReleasesAll | internal/guard/ownership.go:126-159 | a failure-free cool pass owns nothing afterwards and reports no failure; every pod it had marked or owned, listed or vanished, is thawed and unmarked, every other is as it was |
| NodeRuns.NodeRunsAreSafe | internal/guard/ownership.go:53-161 | over any interleaving of visits to any pods, edits by others and deaths of the process at any effect, every pod keeps its invariant, no cut through what it sees is unsafe, and no visit makes the process forget a pod that carries its marker, also for pods that share a name |
| NodeRuns.OtherTurn | internal/guard/ownership.go:429-501 | a visit to one pod reaches another only through the object under a common name |
| NodePasses.ConvergeIsSafe | internal/guard/ownership.go:96-161 | a converge pass under interference keeps every pod safe if its list was no older than the guard's own last clears when the pass began |
| NodePasses.RecoverIsSafe | internal/guard/ownership.go:53-91 | a Recover pass under interference keeps every pod safe, whatever the age of its list |
| NodePasses.NodesAreSafe | internal/guard/ownership.go:53-161 | so does any sequence of converge and Recover passes, edits and deaths |
| GuardOutcomes.PassIsEvent | internal/guard/ownership.go:96-161 | if nobody interferes, a pass over the whole list is, to a listed pod, one event of its own run |
| GuardOutcomes.VanishedPassIsEvent | internal/guard/ownership.go:148-159 | the same for an owned pod that left the list |
| GuardOutcomes.RecoverPassIsEvent | internal/guard/ownership.go:53-91 | the same for a pass of Recover |
| GuardOutcomes.RecoveringIsConverging | internal/guard/ownership.go:53-161 | for a whole list, recovery is a cool convergence, so what a cool pass releases a recovery releases |
| GuardOutcomes.QuietRecoverReleasesAll | internal/guard/ownership.go:53-91 | a restarted process's first failure-free recovery over a fresh list lets go of every freeze-marked pod and owns nothing |
| GuardOutcomes.SecondRecoverIsSilent | internal/guard/ownership.go:53-91 | a second one has no effect on any pod, even over the stale list of the first |
| Weight.WeightInRange | internal/qos/weight.go:44-62 | every 64-bit request, wrapped or not, gives a weight in [1, 10000] |
| Weight.SharesToWeightEnds | internal/qos/weight.go:55-61 | exactly which shares give each end of the range |
| Weight.SharesToWeightRoundsDown | internal/qos/weight.go:55-61 | the weight of clamped shares is one plus (shares - 2) * 9999 / 262142, rounded down |
| Weight.WeightMonotone | internal/qos/weight.go:44-62 | a larger request never gives a smaller weight while the product fits |
| Weight.WeightMatchesFormula | internal/qos/weight.go:30-34 | exactly when the code computes the documented formula, stated without the code's own division; BestEffort is 1 |
| Weight.WrappedRequest | internal/qos/weight.go:54 | a request for which it does not |
| Qos.RequirementsClass | internal/qos/qos.go:96-119 | Guaranteed and BestEffort by what is set, both directions |
| Qos.ClassOf | internal/qos/qos.go:68-94 | the early-exit loop computes the meaning of the class over all containers, in any order |
| Qos.HasCpuQuota | internal/qos/qos.go:148-167 | quota is predicted exactly for a non-BestEffort pod with a pod-level CPU limit or one on every container |
| Qos.GuaranteedHasQuota | internal/qos/qos.go:139-147 | a Guaranteed pod always has one |
| Plan.SnapshotReadsBack | internal/apply/snapshot.go:50-95 | every legal kernel state reads back as itself |
| Plan.SnapshotReadsExactly | internal/apply/snapshot.go:50-95 | which file contents make a snapshot, and which |
| Plan.PlanOrder | internal/apply/plan.go:39-92 | installs before removals, weight directly after the write that clears idle, no knob twice |
| Plan.PlanConverges | internal/apply/plan.go:78-124 | the kernel accepts every planned write in order, replanning is empty, and the end state is the goal: idle as requested, burst at the live quota if active and there is one, else 0 |
| Plan.EmptyRevertPlan | internal/agent/revertall.go:303-311 | an empty plan for no tier means idle and burst are off, and conversely |
| Transaction.ExecuteStopsAtFailure | internal/apply/apply.go:141-178 | writes are tried in plan order up to the first that does not take or a cancellation; which ends are errors, and what a vanished cgroup forgets |
| Transaction.ExecuteEndsBy | internal/apply/apply.go:141-178 | how the write loop ends, exactly, by what its last write met |
| Transaction.ApplyEndsBy | internal/apply/apply.go:117-190 | entry failures touch nothing, a missing cgroup is forgotten, and success needs a living context after the last write |
| Transaction.RunsAreProper | internal/apply/apply.go:140-246 | over any passes and failures, weight is tried only on a journaled pod that is not idle, idle is never set over an open entry, and a pod taken out of idle is journaled or restored |
| Transaction.QuietPassRestores | internal/apply/apply.go:217-229 | one failure-free pass closes the transaction whatever is requested by then, with idle, burst and weight as they should be |
| Transaction.ReconcilerSeesApplierWork | internal/agent/reconciler.go:259-270 | the reconciler sees work exactly when the Applier would write |
| Transaction.ApplyIsRevertWithoutTier | internal/agent/reconciler.go:323-337 | without a requested tier Apply and Revert try the same writes and leave the same knobs and journal, under every script of failures |
| Applying.Applier.NeedsWeightRepair | internal/apply/apply.go:195-207 | the answer and the journal it leaves |
| Applying.Applier.JournalPlan | internal/apply/apply.go:217-229 | an interrupted transaction is finished first |
| Applying.Applier.RecordCompletedWrite | internal/apply/apply.go:231-242 | which write opens and which closes a journal entry |
| Applying.Applier.TryWrite | internal/apply/revert.go:59-86 | one write: what each answer does to the journal and whether the pass ends |
| Applying.Applier.Execute | internal/apply/revert.go:55-88 | the write loop and its early exits, as the one-pod transaction; other pods untouched |
| Applying.Applier.Apply | internal/apply/apply.go:117-190 | Apply as the one-pod transaction, and which notices go out, the missing quota by the snapshot Apply itself read |
| Applying.Applier.Revert | internal/apply/revert.go:42-89 | Revert as the one-pod transaction, with its entry failures, which touch nothing |
| RevertAll.ReportIsHonest | internal/agent/revertall.go:279-351 | a pod not reported as failed is gone, or has both tiers off and its weight back if this pass cleared idle |
| RevertAll.StatusMeans | internal/agent/revertall.go:279-351 | what each word of the report means; no success without a second reading |
| RevertAll.QuietRevertSucceeds | internal/agent/revertall.go:279-351 | a pod nothing goes wrong for is not reported as failed |
| RevertAll.RevertPod | internal/agent/revertall.go:279-351 | read, revert, verify; other pods untouched |
| RevertAll.RunRevertAll | internal/agent/revertall.go:147-173 | every listed pod is attempted as if alone; success exactly when nothing failed; after a success every listed pod is gone, or has both tiers off and its weight back |
| Hysteresis.DeciderMeansHistory | internal/guard/guard.go:73-92 | hot exactly when the latest adjacent pair beyond a threshold was beyond the high one |
| Hysteresis.FlipsAreApart | internal/guard/guard.go:70-72 | two transitions are at least two samples apart |
| Sampling.StableUsageDelta | internal/guard/guard.go:271-288 | complete exactly for equal pod sets, monotone counters and a sum that fits; then the true sum, in any map order |
| Sampling.Sampler.Tick | internal/guard/guard.go:192-263 | a sample is fed only from consistent readings and is the exact non-idle share; otherwise temperature and streak stay; a cancelled tick or a failed List changes nothing and hands on no temperature |
| Notices.NoteSignature | internal/agent/reconciler.go:355-367 | the builder computes the signature |
| Notices.SignatureIsFaithful | internal/agent/reconciler.go:345-354 | two passes have the same signature exactly when they have the same notices; empty exactly when there are none |
| PodIndex.RoutingFollowsApplier | internal/agent/reconciler.go:289-337 | a pass is silent exactly when the Applier would write nothing and nothing is unreported; it reverts exactly when no tier is wanted, there is nothing to report and something to write; it reports exactly what is unreported; without a tier Apply and Revert do the same |
| PodIndex.RoutedPassAchieves | internal/agent/reconciler.go:333-337 | whatever a pass is routed to, once every write goes through the pod's idle, burst and weight are as requested |
| PodIndex.OwnJournal | internal/agent/reconciler.go:226-270 | the pod's journal entry after a pass, in every case |
| PodIndex.ErrorsExactly | internal/agent/reconciler.go:226-343 | an error exactly when the pod has to be seen again: not looked up, tiers unknown, or its Apply or Revert failed |
| PodIndex.PassLeavesOthers | internal/agent/reconciler.go:167-343 | a pass over a key leaves the tiers, record and journal entry of every pod it is not about; its own pod's record moves by the notice rules, or not at all if it could not be read |
| ReconcilerRuns.CallExtendsRun | internal/agent/reconciler.go:167-180 | every sequence of Reconcile calls is a run: the first scan where it is due, then a pass |
| ReconcilerRuns.StepLeavesOthers | internal/agent/reconciler.go:536-547 | a pass forgets the pod it replaces completely and leaves every other pod's tiers, record and journal entry alone |
| PodIndex.PassShows | internal/agent/reconciler.go:226-245 | a pass ends with the tiers of the pod's last confirmed reading |
| ReconcilerRuns.RunProjects | internal/agent/reconciler.go:167-343 | over any run of any number of pods, a pod's record is that of the one-pod machine on its own view of the run |
| ReconcilerRuns.NoDuplicateReports | internal/agent/reconciler.go:282-343 | over any such run a pod's notices go out again only after a failed Apply, after the pod left the index, or after other notices or none were recorded |
| ReconcilerRuns.ReportsExactly | internal/agent/reconciler.go:369-392 | a pass reports exactly when it has notices and no earlier report of the same notices that got through still stands, so a notice that comes back is reported again |
| ReconcilerRuns.FailedReportStaysDue | internal/agent/reconciler.go:375-392 | a failed report goes out again with the next pass that has the same notices, whatever happens to other pods in between |
| ReconcilerRuns.RecordMeansPublished | internal/agent/reconciler.go:337-342 | behind every record is a report, and all of it was published exactly unless its Apply found the cgroup gone or a quota the pass had found missing |
| ReconcilerRuns.UnsaidStaysUnsaid | internal/agent/reconciler.go:299-308 | what such an Apply left unsaid is not reported again while the notices stay the same |
| ReconcilerRuns.LostNoticeExists | internal/apply/apply.go:132-137 | two passes that lose a note, the cgroup being gone when Apply looks |
| ReconcilerRuns.LostQuotaNoticeExists | internal/apply/apply.go:265-270 | two passes that lose the missing-quota notice, a quota being there when Apply looks |
| TierIndex.Reconciler.PublishTierCounts | internal/agent/reconciler.go:617-627 | counts and gauge become the recount; a series that stays is never missing |
| TierIndex.Reconciler.ReplacePodMembership | internal/agent/reconciler.go:562-581 | counts, gauge and key maps equal a recount of the changed membership |
| TierIndex.Reconciler.RemovePod | internal/agent/reconciler.go:601-615 | the same after a removal |
| TierIndex.Reconciler.RemovePodByKey | internal/agent/reconciler.go:583-593 | nothing about the removed pod is left, everything about the others is; no series that stays is missing |
| TierIndex.Reconciler.ObservePodIdentity | internal/agent/reconciler.go:536-547 | a key that changes hands drops everything about the old UID and nothing else |
| TierIndex.Reconciler.SetPodActual | internal/agent/reconciler.go:549-560 | the pod's tiers replaced and all indexes a recount; a series that stays is missing in between exactly when the key's old pod was its only member |
| TierIndex.Reconciler.TrackPod | internal/agent/reconciler.go:536-560 | the same over observePodIdentity followed by setPodActual, as a pass runs them |
| TierIndex.RecreatedPodLeavesGap | internal/agent/reconciler.go:617-627 | the gap, wherever a series' only pod is recreated under its name |
| TierIndex.Reconciler.RefreshPodsInTier | internal/agent/reconciler.go:424-511 | the full scan's membership, nothing leaked, no gap in a series that stays, and an error exactly when the List failed or some pod's tiers stayed unknown |
| PodIndex.ScanShows | internal/agent/reconciler.go:442-489 | a full scan, pod by pod: live tiers, none for a legitimately absent cgroup, the last confirmed ones when the reading failed |
| PodIndex.ScanHoldsListed | internal/agent/reconciler.go:442-489 | a scan holds nobody else: no mirror, nobody who is not listed |
| TierIndex.ScanPods | internal/agent/reconciler.go:430-489 | counts, memberships and key map of one scan agree with each other |
| TierIndex.Reconciler.RefreshPodActual | internal/agent/reconciler.go:629-646 | an unknown reading keeps the last confirmed membership; other pods untouched; no gap |
| TierIndex.Reconciler.RecordPodNotice | internal/agent/reconciler.go:383-392 | what is remembered, and nothing else changes |
| TierIndex.Reconciler.Reconcile | internal/agent/reconciler.go:167-343 | indexes valid after every call; everything remembered afterwards, the routing and the error are functions of what was remembered before and of what the call saw, so that calls chain into the runs above; after the first scan, exactly when a series that stays is missing in between |
| PodPath.ExpandSystemdSlice | internal/cgroup/path.go:115-134 | the loop computes the closed form of the nested slices |
| PodPath.StripLeavesPodParts | internal/cgroup/path.go:81-106 | the outer-prefix strip leaves the levels from the kubepods slice down; the mismatch branch is unreachable |
| PodPath.PathClosedForm | internal/cgroup/path.go:28-147 | the components of every pod's path in plain text, driver by driver and class by class, and exactly which names have none |
| PodPath.PathsAreInjective | internal/cgroup/path.go:28-51 | two pods share a path exactly when driver, class and escaped UID agree |
| WriteTarget.GuardWriteTarget | internal/cgroup/knob.go:200-222 | accepts exactly the pod directories of its root and name |
| WriteTarget.AcceptedIsPrinted | internal/cgroup/knob.go:173-183 | a path is accepted exactly when PodCgroupPath prints it for some pod |
| WriteTarget.PrintedIsAccepted | internal/cgroup/path.go:28-51 | for every UID, slashes included: when a path is printed, and that it is accepted exactly when it resolves to the shape of a pod directory; with a slash that is always another pod's |
| WriteTarget.BelowAPodIsRefused | internal/cgroup/path.go:141-147 | UIDs whose printed path is refused |
| WriteTarget.BackIntoAPodIsAccepted | internal/cgroup/path.go:141-147 | UIDs with a slash whose printed path is another pod's and accepted |
| WriteTarget.PodDirsAreAntichain | internal/cgroup/knob.go:173-199 | no accepted directory lies above another, across drivers and classes |
| WriteTarget.SharedLevelsAreRefused | internal/cgroup/knob.go:31-36 | root, kubepods and QoS levels and anything below a pod are refused |

## Left out

- TierIndex.Reconciler.Reconcile: what an Apply reads, how it or a Revert ends, the journal entry it leaves and the
  reading after it are inputs; which of them the Applier can produce is in its own contracts.
- File and API access, JSON, locks and the ticker: replaced by the maps, by scripts of failures, and by a marker
  datatype with undecodable and invalid cases; the byte-level work of `filepath.Clean` is its component rule.
- Unknown driver and QoS strings: the model's driver and class are closed types, so those error returns are not modelled.
- `idlePodsUsage` and `readUsageUsec`: their results are inputs of the tick and of converge.
- Floating-point rounding of the utilisation: real numbers are used.
- `tier.Desired`, `VerifyAgainstStatus`, `writeIsInstall` and `allowedKnob`: one-branch facts.
- Events, Prometheus registration, logging, the result table's text, health and readiness.
- Configuration, the environment gate, the informer's queue and the lifecycle: only what they guarantee is used
  (low below high, absolute root, one-component kubepods name, one object per key, a UID under one key).
- Request and limit arithmetic of the Kubernetes helpers: milliCPU and compared quantities are inputs.
