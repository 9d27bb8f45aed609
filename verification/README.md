# Verification of the StatefulPod reconciler

This project models the StatefulPod controller as a state machine over two stores and proves what its
code keeps, reaches and never does. One store is the parent object with its size, templates,
finalizers, deletion mark and the two parallel lists `PodStatusMes` and `PVCStatusMes`. The other is
the cluster: pods, claims, volumes, nodes and services by name. Every Go function of the core is a
Dafny method of the same or a close name that updates the objects `ApiServer` and `StatefulPod` in place. Each
is proved to do exactly what a function on values (`CoreEffect`, `ExpansionEffect`, ...) says, and the
properties of whole runs are proved about those functions.

Writes to child objects are numbered calls. A set of call numbers says which of them fail, and a log
records verb, name and success, so the results hold for every pattern of failing calls unless a
lemma says otherwise.

Three kinds of runs occur. An interleaving is any run of any number of reconcilers, each working piece by
piece on a copy it read at any time, with anything from outside in between. A serial run is one reconcile
after another, each on a fresh copy, with events and outside changes in between. A timely run is an
interleaving in which each call begins with a copy that is still the stored object and acts without
another in between; it is a serial run (`TimelyRuns.TimelyRunsAreSerial`), and less does not make it one
(`TimelyRuns.WritesAreNotEnough`). Results on serial runs say so,
and what older copies do to them is a result of its own.

## Modules

| module | what it holds |
|---|---|
| Tools, Types | printed ordinals, names, finalizer lists; the objects as values; well-formed parents |
| Api, ParentStore | the API server, the reconciler's copy, and the conflict-retry loop of `Update` |
| PodControl, ClaimControl, VolumeControl, Controller | the Go functions, each with its function on values |
| Workers | interleavings of any number of reconcilers, and the shape they keep |
| Histories, TimelyRuns | serial runs with events and outside changes; which interleavings are serial, and that they converge |
| Races, StrayPods | what older copies do when they are written back, exactly when a move does no harm, and that a stray pod blocks its slot |
| Notices, StaleTimeouts | timeouts over interleavings: their notices, when nothing else was recorded since, and three runs in which it was |
| Convergence, ConvergenceSteps, ConvergenceCore, ConvergenceTheorem, FairRuns | fair runs reach the requested size, and every size set after it; the fairness rule |
| Deletion, DeletionRuns, DeletionEnds, MarkedEarly | when the finalizer goes, in which order things go, that deletion is never left, that it ends, from any size |
| Healing, SizeLaws, Rollout, Orphans | repair, the slot count, order of rollout, objects without a slot |
| Answers | when CoreCtrl asks to be called again |
| StickyVolumes, BoundVolumes, Volumes | claims across recreations and static volumes; which volume a slot records; what is done to volumes |
| Handshake, NodeLoss, PodEvents, MadeObjects | forced deletion on node loss, when a node is lost, what events record, what the made objects look like |
| Examples | small concrete clusters for the departures below |

## Where the code departs from its evident intent

The code is modelled as it is. Each departure is a lemma, and the condition under which the intended
property holds is proved.

- `Update` force-writes an older copy over a newer object. An append can be lost so (`LostAppend`), its pod
  then has no slot and blocks it for as long as it stands (`LostAppendIsForGood`); a write does no such harm
  if and only if no object stands beyond the slots of the copy (`WriteTidyExactly`, over whole
  interleavings `RunTidyExactly`).
- In the same way a parent in deletion is taken out of it (`ShortCopyReopens`, exactly when:
  `WriteKeepsLeavingExactly`), and a pod is made again in a deletion (`UnmarkedCopyRevives`, exactly when:
  `GrowKeepsLeavingExactly`).
- A pod is deleted for a timeout though Running was recorded since its notice, because the notice is written
  over it (`NoticeOverRunning`), an older copy is acted on (`DeleteFromOlderCopy`), or an older copy brings
  the timeout back (`StaleTimeoutRestored`). Nothing is written from the notice to its write, and the timeout
  stands from then on, exactly if it is stored when it is acted on and the write that raised it met the stored
  version (`NothingElseRecorded`).
- A marked parent whose last pod runs out of time is built again (`LastTimeoutRebuilds`, exactly when it is
  taken from its size: `LastTimeoutExactly`).
- The comment on `CoreCtrl` says the list length decides; `getIndex` does, and it steps back when the
  last slot is held back. A shrink then drops two slots while it looks at one (`SlotCountLaw`,
  `ShrinkOrphans`, `DoubleDrop`).
- An expansion that is interrupted between pod and claim can never be resumed
  (`FailedClaimLeavesStrayPod`, `StrayPodWedges`, `StrayPodBlocks`). These two, and a cut whose objects are still there, are
  all the steps of a serial run that leave an object without a slot (`OrphansExactly`).
- A call that stops at its claim after the pod is made answers Done, so that it is not asked for again
  (`AppendGivenUpExactly`).
- A deletion retains the volumes that are recorded. The volume of a claim that bound without its event having been
  recorded is not retained (`UnrecordedVolumeLost`, exactly when: `DeletesClaimExactly`), and an older copy can
  bring the record of a replaced claim back, which no event corrects (`StaleRecordStands`, exactly when:
  `WriteRecordsExactly`, over whole interleavings `RunRecordsExactly`).
- `PodIsOk` goes by the phase, `MonitorPodStatus` by readiness: a slot before the last whose pod runs
  but is never ready is noticed as timed out and forgotten in turn (`NoticeOutlivesMaintain`).
- A static volume stays in the shared claim template and the template's storage class stays empty, so later
  claims ask for that volume and without their class (`AsksAsMeantExactly`, `StaticVolumeLeaks`).
- `DeletePodAll` compares absent pods with the length of the claim list (`DeletePodAllExact`,
  `DeletePodAllNeedsEqualLengths`).
- Prefix and parent name are joined by the dash that names may contain, so claims of two parents can
  share a name (`ClaimNamesMeetExactly`, `ClaimNamesCanMeet`).

## Model

The results come first. The rows from `Tools.MatchStringFromArray` on only tie a method that works in place to its function on
values, about which the results are proved.

| member | source | states |
|---|---|---|
| `ConvergenceTheorem.Converges` | controllers/statefulpod/stateful_pod.go:46-83 | Every fair serial run reaches the requested size and stays there: from any state of the invariant, 12*bound+6 rounds that each contain every reconcile and cluster action at least once, with anything else in between and in any order, leave the size as it was set, as many slots as it asks for, each Running on a ready pod with its claim Bound (or none by design), and the finalizer set |
| `ConvergenceTheorem.EverySizeIsReached` | controllers/statefulpod/stateful_pod.go:46-65 | Over any sequence of sizes that the user sets one after another, each followed by so many fair rounds, each is reached in its turn, up or down |
| `ConvergenceTheorem.ResizeIsGood` | controllers/statefulpod/stateful_pod.go:55-58 | A settled state with any other size satisfies the invariant, so shrink and growth both start inside it |
| `TimelyRuns.TimelyRunsConverge` | controllers/statefulpod_controller.go:74-83 | The same of any number of reconcilers whose calls are timely: each begins with a copy that is still the stored object and acts without another in between |
| `TimelyRuns.TimelyRunsAreSerial` | services/statefulpod/statefulpod.go:75-83 | A run of any number of reconcilers whose calls are timely, that is begin with a copy that is still the stored object and are made without another in between, leaves the worlds of one serial run, move by move, so every result on serial runs holds of it |
| `TimelyRuns.CallIsSerial` | controllers/statefulpod_controller.go:61-71 | One timely call, dispatched by kind, leaves the world of one serial reconcile |
| `TimelyRuns.WritesAreNotEnough` | controllers/statefulpod/stateful_pod.go:174-182 | That each write meets the stored version is not enough for a serial run: a shrink on a copy of an older size, which comes to no write, deletes a pod that no serial run of reconciles of the settled parent does, however long. OlderSizeHappens gives such a cluster |
| `Races.LostAppend` | services/statefulpod/statefulpod.go:75-83 | Without timeliness convergence fails: two reconcilers hold one copy, one appends slot 1 and writes, the other force-writes its copy for a pod event; pod 1 has no slot, and the next reconcile is idle. LostAppendHappens gives such a cluster |
| `Races.LostAppendHappens` | controllers/eventhandler.go:16-40 | A concrete cluster that meets the hypotheses: the pod event has its own queue key, so it runs beside the parent's reconcile |
| `StrayPods.LostAppendIsForGood` | controllers/statefulpod/child_resource_controller/pod_controller/pod.go:90-93 | Over every serial run that follows a lost append, with any failing calls, sizes set, nodes lost and events, slot 1 is never recorded again as long as pod 1 is not removed from outside |
| `StrayPods.StrayPodBlocks` | controllers/statefulpod/child_resource_controller/pod_controller/pod.go:90-93 | Over every interleaving of any number of reconcilers, a pod n of the parent that stands while neither the stored parent nor a copy has a slot n keeps it so, as long as it is not removed from outside |
| `Races.WriteTidyExactly` | services/statefulpod/statefulpod.go:75-83 | In any system of reconcilers, a write leaves no object without a slot if and only if no pod or claim under the parent's names stands at or beyond the number of slots of the copy that is written |
| `Races.RunTidyExactly` | services/statefulpod/statefulpod.go:75-83 | Over every interleaving: no state has an object without a slot if and only if each move is tidy before it is made: a growth is of a stored slot or stops before its pod, a written copy has a slot for every object, and an outside change adds no pod or claim beyond the slots, nor a parent or a claim template to objects already there |
| `ConvergenceTheorem.StepNeverWorse` | controllers/statefulpod/stateful_pod.go:46-65 | No reconcile, cluster action or passing of time leaves the invariant, raises the measure (distance to the size before the work left at the slots), undoes the goal, or changes which action is waited for unless the measure falls |
| `ConvergenceTheorem.HelpLowers` | controllers/statefulpod/stateful_pod.go:46-65 | In every unfinished state one fair action strictly lowers the measure |
| `ConvergenceTheorem.FreshStartIsGood` | controllers/statefulpod/stateful_pod.go:67-71 | A new object with nothing under its names satisfies the invariant the theorem starts from |
| `ConvergenceCore.CoreFine` | controllers/statefulpod/stateful_pod.go:46-65 | Each call of CoreCtrl in a good state keeps it good and takes nothing further from its goal; when the parent is what is waited for, it brings a slot closer or the slot count one nearer to the size |
| `ConvergenceCore.ShrinkFine` | controllers/statefulpod/stateful_pod.go:174-196 | Above the size, a call marks the last pod, then the last claim, then drops the slot, each lowering the measure |
| `ConvergenceCore.AppendAdvances` | controllers/statefulpod/stateful_pod.go:124-170 | Below the size with free names, a call appends one good slot and lowers the measure though a new slot carries work |
| `ConvergenceCore.MaintainFine` | controllers/statefulpod/stateful_pod.go:199-212 | At the size, maintain loses no ground, and makes a missing pod again when nothing else is left to do |
| `ConvergenceSteps.PodReconcilesFine` | controllers/statefulpod/child_resource_controller/pod_controller/pod.go:171-256 | In a good state, where nodes are ready and no pod is overdue, a pod event records readiness where that is all that is missing and loses no ground otherwise |
| `ConvergenceSteps.ClaimReconcilesFine` | controllers/statefulpod/child_resource_controller/pvc_controller/pvc.go:126-148 | The same of a claim event and binding |
| `Workers.RunKeepsShape` | controllers/statefulpod_controller.go:74-83 | Over every interleaving of any number of reconcilers that read a copy, work on it piece by piece and force-write it whole, with outside changes in between, the stored object and every copy keep equally long lists, slot i with index i, pod name GetName(i) and claim name SetPVCName(i) or none, and the finalizer at most once; pods of other parents and pods of nobody may be there |
| `Workers.MoveKeepsShape` | controllers/statefulpod/stateful_pod.go:157-163 | One piece of work, write, read or outside change keeps that shape |
| `Workers.CoreIsMoves` | controllers/statefulpod/stateful_pod.go:46-65 | Every call of CoreCtrl by any reconciler of a system is a run of such pieces ending in its whole-object writes, so what holds of all interleavings holds of it |
| `Workers.MaintainIsMoves` | controllers/statefulpod/stateful_pod.go:199-212 | The same of maintain with its two writes |
| `Workers.AtMostOnePod` | services/pod/pod.go:63-66 | In every reachable system two pods annotated with this parent are one pod if and only if their ordinals are equal, whatever other pods there are |
| `Workers.EventFindsItsSlot` | controllers/statefulpod/stateful_pod.go:242-245 | In every reachable system the event of a pod of this parent reaches slot i if and only if slot i records it by name; the event of any other pod changes nothing |
| `Workers.ClaimNamesMeetExactly` | services/resource.go:97-102 | Two claim names are equal if and only if prefix-and-parent taken together and the ordinals are |
| `Workers.ClaimNamesCanMeet` | services/resource.go:97-102 | So parents of different names can ask for one claim: the concrete pair |
| `Workers.MadePodIsNamed` | services/pod/pod.go:142-150 | The annotations of a made pod read back as its owner and ordinal |
| `MarkedEarly.MarkedParentEnds` | controllers/statefulpod/stateful_pod.go:46-65 | A parent marked in a good state at any size, below, at or above the requested one: fair rounds first bring it to its size, and 11*bound+1 fair rounds from there on take the finalizer off |
| `MarkedEarly.StepMarked` | controllers/statefulpod/stateful_pod.go:50-58 | Away from its size no reconcile, event or cluster action depends on the deletion mark: marking commutes with every step |
| `MarkedEarly.SizeIsDeleting` | controllers/statefulpod/stateful_pod.go:50-53 | At its size a good marked parent satisfies the invariant of DeletionEnds |
| `MarkedEarly.LastTimeoutExactly` | controllers/statefulpod/child_resource_controller/pod_controller/pod.go:171-256 | The one thing that DeletionEnds must exclude: a pod event takes a marked parent at its size away from it if and only if its pod is the last slot's, live, on a ready node, not ready and out of time |
| `MarkedEarly.LastTimeoutRebuilds` | controllers/statefulpod/child_resource_controller/pod_controller/pod.go:240-254 | For any size and templates: the two timeout notices of a last pod that runs out of time cut the last slot off a marked parent, and once the objects of that slot are gone, the next reconcile makes its pod again though the parent is marked, unless the slot before is held back. LateLastHappens gives such a cluster |
| `DeletionEnds.DeletionEnds` | controllers/statefulpod/stateful_pod.go:85-117 | Every fair run of a marked parent at its size gives up the finalizer, whatever calls fail, whichever claims bind meanwhile, and whatever time, nodes, readiness, users and removals do, within as many rounds as unretained volumes, live pods, live claims, unfreed volumes, unrecorded claims and failing calls ahead count |
| `DeletionEnds.StepNeverWorse` | controllers/statefulpod/stateful_pod.go:85-117 | No reconcile, event or outside change (time, node loss, timeouts of slots before the last, readiness, bindings, removals, user edits) leaves the deletion invariant or raises that count |
| `DeletionEnds.HelpLowers` | controllers/statefulpod/stateful_pod.go:92-114 | In every unfinished deletion one fair action strictly lowers it; a reconcile whose call fails lowers it too, since it uses up a failing call |
| `DeletionEnds.CoreStage` | controllers/statefulpod/stateful_pod.go:85-117 | Which of its four loops a reconcile of a deleting parent stops in, and the world it leaves |
| `DeletionRuns.WorkersNeverLeaveDeletion` | controllers/statefulpod/stateful_pod.go:50-58 | Over every interleaving of any number of reconcilers that dispatch as CoreCtrl does on copies from the deletion, the parent stays in its deletion, every recorded pod stays on its way out, and every call made is a volume update, a pod delete or a claim delete |
| `DeletionRuns.WriteKeepsLeavingExactly` | services/statefulpod/statefulpod.go:75-83 | In any system, a write keeps the deletion if and only if the copy written has as many slots as the size and a last slot that does not send getIndex back |
| `Races.ShortCopyReopens` | services/statefulpod/statefulpod.go:75-83 | The input that leaves it: a copy from before the last slot was recorded, written back over a parent in deletion, and the next reconcile makes a live pod. ShortCopyHappens gives such a cluster |
| `Races.GrowKeepsLeavingExactly` | controllers/statefulpod/stateful_pod.go:134-143 | In any system, a growth on any copy at a slot of the deleting parent keeps the deletion if and only if the pod is there, the call fails, or the service that slot 0 needs is missing |
| `Races.UnmarkedCopyRevives` | controllers/statefulpod/stateful_pod.go:199-212 | The call of CoreCtrl on a copy of the right size from before the mark, whose first slot out of step has lost its pod and where the pod call succeeds: it is the moves that record the loss, write, and make the pod, with a last write if the claim step succeeds. The deletion outlives that write and ends with the pod, and after the call the parent is marked and the pod live. UnmarkedCopyHappens gives such a system, with the slot recorded Running or Deleting |
| `DeletionRuns.DeletionIsNeverLeft` | controllers/statefulpod/stateful_pod.go:50-58 | Over every serial run: once marked, at its size, with every recorded pod terminating or absent and a last slot that does not send getIndex back, no reconcile, event, failing call, node loss or outside removal leaves that set |
| `DeletionRuns.LeavingBuildsNothing` | controllers/statefulpod/stateful_pod.go:50-58 | In that set a reconcile of the parent calls only volume updates, pod deletes and claim deletes, and keeps both lists: expansion is never entered |
| `DeletionRuns.FirstPassEnters` | controllers/statefulpod/stateful_pod.go:93-99 | A first pass over the pods enters that set, or one of its calls failed |
| `Deletion.CoreKeepsLeaving` | controllers/statefulpod/stateful_pod.go:50-58 | CoreCtrl keeps that set, whatever calls fail |
| `Deletion.PodEventKeepsLeaving` | controllers/statefulpod/child_resource_controller/pod_controller/pod.go:179-211 | So does every pod event, because a terminating pod is answered before node loss and readiness are looked at |
| `Deletion.ClaimEventKeepsLeaving` | controllers/statefulpod/child_resource_controller/pvc_controller/pvc.go:126-148 | So does every claim event |
| `Deletion.FinalizerGoesExactly` | controllers/statefulpod/stateful_pod.go:90-114 | CoreCtrl takes the finalizer off if and only if the parent is marked, getIndex equals the size, every recorded pod and claim is absent and, under Retain, every recorded volume is absent, or Retain, Available and no redis slave; it then touches nothing but the parent |
| `Deletion.EraseExact` | controllers/statefulpod/stateful_pod.go:85-117 | deleteStatefulPod reaches its final write if and only if the finalizer is there and everything is cleared |
| `Deletion.DestructionInOrder` | controllers/statefulpod/stateful_pod.go:91-108 | Of the calls one deletion makes, a pod delete occurs only if every recorded existing volume was Retain or a redis slave, and a claim delete only if moreover every recorded pod was absent |
| `Deletion.SetPVRetainExact` | controllers/statefulpod/child_resource_controller/pv_controller/pv.go:30-64 | True if and only if the policy is not Retain or every recorded volume is absent, a redis slave, or Retain; and then nothing was changed |
| `Deletion.SetPVAvailableExact` | controllers/statefulpod/child_resource_controller/pv_controller/pv.go:66-101 | True if and only if the policy is not Retain or every recorded volume is absent or Available and no redis slave: the early break can never add up |
| `Deletion.DeletePodAllExact` | controllers/statefulpod/child_resource_controller/pod_controller/pod.go:117-136 | True if and only if every recorded pod is absent, given equally long lists |
| `Deletion.DeletePodAllNeedsEqualLengths` | controllers/statefulpod/child_resource_controller/pod_controller/pod.go:132-134 | Without equal lengths it answers true while a recorded pod exists |
| `Deletion.DeletePvcAllExact` | controllers/statefulpod/child_resource_controller/pvc_controller/pvc.go:58-78 | True if and only if every recorded claim is absent |
| `Healing.MaintainHeals` | controllers/statefulpod/stateful_pod.go:199-212 | Each maintain call strictly lowers the number of slots out of step with their pods, makes at most one pod (the least Deleting slot without one) and no other change to pods, and is a no-op if and only if nothing is out of step |
| `Healing.RepeatedMaintainHeals` | controllers/statefulpod/stateful_pod.go:199-212 | As many calls as slots are out of step are enough, and further ones change nothing |
| `Healing.DeviationZero` | controllers/statefulpod/child_resource_controller/pod_controller/pod.go:151-169 | PodIsOk finds nothing if and only if that number is zero |
| `Healing.NoticeOutlivesMaintain` | controllers/statefulpod/child_resource_controller/pod_controller/pod.go:162-165 | A timeout notice on a slot before the last survives the next reconcile if and only if its pod is not in phase Running: readiness is ignored here though isPodRunning asks for it |
| `SizeLaws.SlotCountLaw` | controllers/statefulpod/stateful_pod.go:46-83 | On any copy, in any world, with any failing calls, one call keeps the slot count, appends one (never past the size, never after a slot in flight), drops one, or drops two; it drops one if and only if it is above the size, not held back, and the last objects are gone, and two if and only if it is held back and those of the last slot but one are |
| `SizeLaws.GetIndexExactly` | controllers/statefulpod/stateful_pod.go:67-83 | getIndex is one less than the length of the lists if and only if the last slot is CreateTimeOut, Preparing below the size, or has a Pending claim, and else the length |
| `SizeLaws.DistanceNeverGrows` | controllers/statefulpod/stateful_pod.go:55-58 | The distance to the size never grows, the count never exceeds max(len, size), and a call that lowers it leaves at least the size |
| `SizeLaws.OrderedRollout` | controllers/statefulpod/stateful_pod.go:67-83 | An append happens only after a slot that is not Preparing, not CreateTimeOut and whose claim is not Pending, keeps all earlier slots, and adds the next in order as Preparing |
| `SizeLaws.AppendExactly` | controllers/statefulpod/stateful_pod.go:124-170 | An append happens if and only if both names are free, the service slot 0 needs is there, and the calls made succeed |
| `SizeLaws.StrayPodWedges` | controllers/statefulpod/child_resource_controller/pod_controller/pod.go:90-93 | With the pod of the next slot present but not recorded, CoreCtrl changes nothing and asks to be run again |
| `SizeLaws.FailedClaimLeavesStrayPod` | controllers/statefulpod/stateful_pod.go:141-147 | A claim step that fails after its pod step, by a failing call or a lingering claim, leads to exactly that state, and every further call is idle |
| `SizeLaws.ShrinkOrphans` | controllers/statefulpod/stateful_pod.go:188-189 | A shrink with succeeding calls leaves an orphan if and only if it drops two slots while an object of the last one exists |
| `SizeLaws.DoubleDrop` | controllers/statefulpod/stateful_pod.go:174-196 | The run that does it: three slots, the last claim Pending, the size set to 1; pod 1 and then claim 1 are deleted and vanish, slots 1 and 2 are dropped, and pod 2 lives on without a slot |
| `SizeLaws.DoubleDropHappens` | controllers/statefulpod/stateful_pod.go:79-81 | A concrete cluster that meets its hypotheses, with no orphan in it at first |
| `Answers.DeletionAnswer` | controllers/statefulpod/stateful_pod.go:85-117 | A call of CoreCtrl on a marked parent at its size that has the finalizer answers RequeueAfter if and only if something is left to clear, and Done otherwise, whatever calls fail |
| `Answers.DeletionAskedAgain` | controllers/statefulpod/stateful_pod.go:90-116 | On a fresh copy such a call answers Done if and only if the finalizer, or the parent, is gone afterwards: no deletion is given up before its end |
| `Answers.FairnessIsAskedFor` | controllers/statefulpod/stateful_pod.go:90-116 | In every state of the runs of DeletionEnds each call asks for the next one, until the one that ends the deletion: the fairness that the theorem assumes is what CoreCtrl asks for |
| `Answers.ShrinkAnswer` | controllers/statefulpod/stateful_pod.go:174-196 | Above the size a call answers RequeueAfter if and only if the pod or the claim of the slot it works on is there; it answers Done if and only if it dropped that slot, and then that is what is stored |
| `Answers.GrowthAnswer` | controllers/statefulpod/stateful_pod.go:134-148 | Below the size a call answers RequeueAfter exactly if slot 0 lacks its service, Requeue exactly if the pod stands past the end of the list or the call that makes it fails, and Done otherwise |
| `Answers.AppendGivenUpExactly` | controllers/statefulpod/stateful_pod.go:144-148 | An append is answered Done without a new slot if and only if the pod step succeeds and the claim is there already or the call that makes it fails: its pod stays without a slot |
| `Answers.RepairAnswer` | controllers/statefulpod/stateful_pod.go:199-212 | At the size a call answers Done unless a slot whose loss is recorded by then cannot have its pod made: RequeueAfter for slot 0 without its service, Requeue when the call fails |
| `Orphans.OrphansExactly` | controllers/statefulpod/stateful_pod.go:124-196 | Over every serial run, whatever calls fail: no state has a pod or claim of the parent at or above the slot count if and only if no step makes a pod past the end and fails to make its claim, drops two slots while an object of the last is there, or cuts a timed-out last slot one of whose objects is there |
| `Orphans.CoreTidyExactly` | controllers/statefulpod/stateful_pod.go:46-65 | From a state without orphans a CoreCtrl call leaves one if and only if it is one of the first two |
| `Orphans.PodEventTidyExactly` | controllers/statefulpod/child_resource_controller/pod_controller/pod.go:224-249 | And a pod event if and only if it cuts the last slot at its second timeout notice, with a delete that succeeds, while an object of it is there |
| `Orphans.BenignRunsLeaveNoOrphans` | controllers/statefulpod/stateful_pod.go:124-196 | Every state of a serial run up to the first such step is free of orphans |
| `Rollout.RolloutInOrder` | controllers/statefulpod/stateful_pod.go:67-83 | Over every serial run of the actions of Convergence from a state in order, in any order of the actions: every slot but the last is Running with its claim Bound or none, so at most one slot is in flight |
| `Rollout.FreshRolloutInOrder` | controllers/statefulpod/stateful_pod.go:67-83 | In particular over every such run from a new object |
| `Notices.TimeoutsTakeTwoNotices` | controllers/statefulpod/child_resource_controller/pod_controller/pod.go:224-254 | Over every interleaving of any number of reconcilers: a pod event that deletes a pod gracefully or shortens its copy was preceded by a pod event that took the notice of that slot, for a live, unready, overdue pod on a ready node |
| `Notices.NoticeBefore` | controllers/statefulpod/child_resource_controller/pod_controller/pod.go:250-254 | A CreateTimeOut recorded anywhere, stored or in a copy, and nowhere at first, goes back to such a notice and has been recorded somewhere ever since |
| `Notices.NothingElseRecorded` | controllers/statefulpod/child_resource_controller/pod_controller/pod.go:224-254 | Over every interleaving: a timeout has a notice, taken on a copy at the stored version, between which and its write by the same reconciler nothing is stored, and since which write it stands without a break until a pod event acts on it, if and only if it is what the stored parent records then and the write that raised it met the stored version. Both conditions can be checked before the move |
| `Notices.UnchangedSince` | services/statefulpod/statefulpod.go:94-104 | A copy that meets the stored version shows that nothing was written since its reconciler last read or wrote: the check that the forced write leaves out |
| `StaleTimeouts.NoticeOverRunning` | services/statefulpod/statefulpod.go:75-83 | That it is stored is not enough: of a slot that is Preparing, the other reconciler records Running by the pod's phase between a notice and its write, which is then written over it, and the pod is deleted |
| `StaleTimeouts.DeleteFromOlderCopy` | controllers/statefulpod/child_resource_controller/pod_controller/pod.go:224-237 | Nor that its writes met their versions: the timeout is stored, Running is written over it, each write that raises it meets its version, and a reconciler deletes the pod from the copy it read before. The slot is Preparing or Running at first |
| `StaleTimeouts.StaleTimeoutRestored` | services/statefulpod/statefulpod.go:75-83 | An older copy that had only read the timeout brings it back over Running for a claim event, and the pod, ready in between, is deleted when it is next not ready. The slot is Preparing or Running at first. In all three runs every event shows what is in the cluster; SlowHappens gives one of either state |
| `Histories.TimeoutsTakeTwoNotices` | controllers/statefulpod/child_resource_controller/pod_controller/pod.go:224-254 | Over every serial run moreover no other state of the slot is recorded between the notice and what it destroys |
| `Histories.TimeoutHasNotice` | controllers/statefulpod/child_resource_controller/pod_controller/pod.go:250-254 | Over every serial run a slot recorded CreateTimeOut has been so without a break since such a first notice |
| `Histories.SecondNotice` | controllers/statefulpod/child_resource_controller/pod_controller/pod.go:224-249 | A graceful delete or a cut by a pod event implies the slot was CreateTimeOut before it |
| `Histories.SecondNoticeRecords` | controllers/statefulpod/child_resource_controller/pod_controller/pod.go:241-247 | The last slot is cut off in both lists; any other stays in place as Deleting in both |
| `Histories.MonitorPodSlots` | controllers/statefulpod/child_resource_controller/pod_controller/pod.go:171-256 | A pod event shortens the lists by exactly one, at the tail, for a timed-out last slot, or else changes its own slot only |
| `Histories.DoSound` | controllers/statefulpod/stateful_pod.go:233-272 | Every event of a serial run keeps the shape of the stored parent, whatever other pods there are |
| `StickyVolumes.SameClaimEveryTime` | services/resource.go:97-102 | Over every interleaving, the pods that bear slot i's name at different times mount one claim, the one expansion makes or finds for i |
| `StickyVolumes.RunSticks` | services/pod/pod.go:168-172 | In every reachable system every pod annotated with this parent mounts the claim of its ordinal |
| `StickyVolumes.RegrowKeepsClaims` | controllers/statefulpod/child_resource_controller/pvc_controller/pvc.go:80-107 | Whatever calls fail, expansion at a recorded slot deletes and rewrites no claim, keeps the record of a claim that is there, and reaches its write only with the claim in place |
| `StickyVolumes.MaintainKeepsClaims` | controllers/statefulpod/stateful_pod.go:199-212 | Repairing a vanished pod never costs a claim or the record of one that is there |
| `StickyVolumes.ClaimNameSettles` | services/resource.go:98-100 | No piece of work changes the template's claim name except from empty to data |
| `StickyVolumes.ClaimsAskForVolumes` | services/pvc/pvc.go:42-53 | Over any sequence of CoreCtrl calls with their writes that each make a claim, by expansion or repair, with volumes coming and going in between: each claim asks for the static volume of the last claim up to it that had a usable one, with no storage class, and for the user's volume and storage class only if there was none |
| `StickyVolumes.AsksAsMeantExactly` | services/pvc/pvc.go:49-51 | It asks for its own static volume or the user's choice if and only if its own is usable, or none was before, or the last usable one without a storage class is the user's choice |
| `StickyVolumes.CoreAsks` | services/pvc/pvc.go:44-53 | Whichever branch of CoreCtrl makes a claim, it asks for its slot's usable static volume or else for what the stored template says, and what is stored afterwards says the same |
| `StickyVolumes.StaticVolumeLeaks` | services/pvc/pvc.go:49-51 | A concrete run of two CoreCtrl calls: one usable volume, for slot 0, and a storage class that the user chose give two claims on that volume, both without the storage class |
| `BoundVolumes.RecordedAlong` | controllers/statefulpod/child_resource_controller/pvc_controller/pvc.go:137-146 | Over every serial run in which claim events show the claim that stands and a bound claim keeps its volume and is not replaced from outside: each slot that is Bound, or records a volume, records volume and request of the claim under its name |
| `BoundVolumes.BindingIsRecorded` | controllers/statefulpod/child_resource_controller/pvc_controller/pvc.go:137-146 | After the event of a live bound claim its slot is Bound and records that claim's volume and request |
| `BoundVolumes.VolumesKeptFirstAlong` | controllers/statefulpod/stateful_pod.go:91-108 | Over the same runs: a deletion under Retain calls no delete of a pod or a claim until, for every slot that records a volume, the volume that its claim is bound to is absent, a redis slave's, or Retain |
| `BoundVolumes.DeletesClaimExactly` | controllers/statefulpod/stateful_pod.go:91-104 | With calls that succeed a deletion under Retain deletes a recorded claim if and only if all recorded volumes are kept and all recorded pods gone; a claim whose own volume is not kept then is one that its slot has not recorded |
| `BoundVolumes.UnrecordedVolumeLost` | controllers/statefulpod/child_resource_controller/pv_controller/pv.go:30-64 | A concrete cluster: a claim that a repair made is bound, but the parent was marked before its event; the claim is deleted and its volume is not retained |
| `BoundVolumes.RunRecordsExactly` | services/statefulpod/statefulpod.go:75-83 | Over every interleaving in which bound claims keep their volumes: the stored slots record the claims' own volumes in every state if and only if each move is such: a written copy records what is true, or is dropped with the parent, and a growth makes no claim under a name whose stored slot records a volume |
| `BoundVolumes.WriteRecordsExactly` | services/statefulpod/statefulpod.go:75-83 | After a write the stored slots record the claims' volumes if and only if the written copy does |
| `BoundVolumes.StaleRecordStands` | services/statefulpod/statefulpod.go:75-83 | An older copy that records a replaced claim's volume, written back, stands: no event of the claim corrects it. StaleRecordHappens gives such a system |
| `BoundVolumes.GrowMakesExactly` | controllers/statefulpod/child_resource_controller/pvc_controller/pvc.go:80-107 | A growth makes its claim exactly if the claim is absent, the service it needs is there and its calls succeed; the claim is Pending, its slot records no volume, and no other slot is newly recorded |
| `Volumes.RetainChanges` | controllers/statefulpod/child_resource_controller/pv_controller/pv.go:37-58 | From any slot on, whatever calls fail: each volume that SetPVRetain changed is recorded, no redis slave's, was not Retain, and differs in policy Retain and storage class "" alone; if no call failed, every recorded volume is a slave's or Retain |
| `Volumes.FreeChanges` | controllers/statefulpod/child_resource_controller/pv_controller/pv.go:72-95 | The same of SetPVAvailable: each volume it changed is recorded, no slave's, was not Available, and differs in having no finalizers, no claim and phase Available alone; without failing calls and slaves every recorded volume is Available |
| `Volumes.FreedWhenFinalizerGoes` | controllers/statefulpod/stateful_pod.go:105-109 | Over every interleaving: when a deletion under Retain takes the finalizer off, every volume its copy recorded that still exists, was not Available at the start and was not made so from outside is Available, Retain, and without claim and finalizers |
| `Volumes.DeletionLeavesVolumesFree` | controllers/statefulpod/stateful_pod.go:85-117 | The deletions that DeletionEnds proves to end leave so every such volume that the parent recorded at its last reconcile, unless the user took the parent away |
| `Handshake.ForcedOnlyAfterMark` | services/pod/pod.go:153-165 | Over every interleaving in which only the controller writes the mark, a pod event that force-deletes a cockrochDB pod it saw at any earlier point is preceded by a successful logged call that put nodeUnhealthy on it |
| `Handshake.ForcedDeletesInOrder` | controllers/statefulpod/child_resource_controller/pod_controller/pod.go:189-211 | On node loss the forced delete is called if and only if the observed pod does not lack its mark, and the claim's comes only directly after the pod's succeeded |
| `NodeLoss.ForcesExactly` | services/resource.go:74-95 | The event of a live pod with a slot calls its forced delete, or the update that marks it, if and only if it has a node that is absent, or whose last condition is not True and has not been for nodeTimeout; and nothing is forced otherwise |
| `NodeLoss.NothingForcedInTime` | services/resource.go:85-93 | Over every interleaving: whatever a pod event forces, the node is lost at that moment, and if it was ready at an earlier state, and clock and conditions go forward from there, at least nodeTimeout has passed since |
| `NodeLoss.MarkPutExactly` | services/pod/pod.go:153-165 | After the event of a cockrochDB pod observed unmarked on a lost node the stored pod bears nodeUnhealthy if and only if it did before, or the observed version is the stored one and the call succeeds; its other annotations, all slots and all other objects stay |
| `NodeLoss.LostPodGoes` | controllers/statefulpod/child_resource_controller/pod_controller/pod.go:189-196 | A live pod on a lost node is gone after two of its events whose calls succeed, whatever else happens in between, and after the first unless it must be marked |
| `NodeLoss.NodeLostDone` | controllers/statefulpod/child_resource_controller/pod_controller/pod.go:189-211 | A node-lost event comes to its end if and only if no mark is due and its calls succeed; then the pod is gone, its claim gone or on its way out, and both records of the slot, and no other, are Deleting |
| `PodEvents.EventRecordsExactly` | controllers/statefulpod/child_resource_controller/pod_controller/pod.go:179-186 | A terminating pod is recorded as Deleting unless it ran out of time; a ready one as Running with its name and node, unless it is Running already; one that is not ready as CreateTimeOut exactly if it is as old as podTimeout. It is written exactly if the slot changed, and nothing else does |
| `PodEvents.SecondNoticeExactly` | controllers/statefulpod/child_resource_controller/pod_controller/pod.go:224-249 | The second notice comes to its end if and only if the pod's delete succeeds; then the pod and its claim are gone or on their way out, however often the claim's delete fails, and a last slot is cut, any other Deleting in both lists |
| `PodEvents.NoticeMeans` | controllers/statefulpod/child_resource_controller/pod_controller/pod.go:250-254 | What the timeout results call a notice is the event of a live pod on a node that is not lost, not ready, and as old as podTimeout |
| `PodEvents.NegativeOrdinal` | controllers/statefulpod/stateful_pod.go:233-251 | The event of a pod with a negative ordinal panics unless its node is lost and a call there comes to nothing; by then pod and claim have been forced and nothing is recorded |
| `PodEvents.ClaimEventExactly` | controllers/statefulpod/child_resource_controller/pvc_controller/pvc.go:126-148 | A terminating claim is recorded as Deleting unless its slot's pod ran out of time, a live bound one as Bound with its volume unless it is Bound already, any other not at all; it is written exactly if that changes the slot |
| `MadeObjects.CoreMakesPods` | services/pod/pod.go:142-150 | Every pod that CoreCtrl makes, in whichever branch, is pod i of the stored parent: its annotations are the three of the identity and, unchanged, all others of the parent; it is new, pending, without node, created now, and mounts the slot's claim |
| `MadeObjects.AnnotationsAreInherited` | services/pod/pod.go:142-150 | Over every interleaving an annotation that parent and pods have, whose key is not the controller's, is on every pod of the parent in every state |
| `MadeObjects.ParentsPodsForcedOnlyAfterMark` | services/pod/pod.go:153-165 | So all pods of a cockrochDB parent are under the handshake: whichever of them is force-deleted by its event was marked by an earlier successful call |
| `MadeObjects.TakesStaticVolumeExactly` | services/resource.go:46-72 | The claim that CoreCtrl makes takes its slot's static volume, without a storage class, if and only if that volume is there, Available, and annotated with a node that is not lost; otherwise it asks as the stored template does |
| `MadeObjects.CoreMakesClaim` | services/pvc/pvc.go:54-79 | Whichever branch of CoreCtrl makes a claim, it requests what the template does and is annotated with its parent and ordinal, and what is stored then records its name and storage class as Pending, with no volume |
| `ParentStore.Update` | services/statefulpod/statefulpod.go:75-83 | With finitely many disturbed rounds (rival writes or removals, failing attempts, failing version reads) the loop returns within two more attempts, and the store is what one undisturbed write after the rivals it met would leave: gone, or equal to the argument in content |
| `ParentStore.ClientUpdate` | services/statefulpod/statefulpod.go:78 | An attempt is stored exactly when the object exists at the copy's version |
| `ParentStore.VersionsGrow` | services/statefulpod/statefulpod.go:94-104 | A rival's write makes an older copy's version stale |
| `Tools.ParsePrinted` | tools/tools.go:7-10 | A printed ordinal parses back to itself for every 64-bit integer |
| `Tools.DashedInjective` | services/pod/pod.go:63-66 | Dashed names are equal if and only if prefixes and ordinals are |
| `Tools.RemoveUndoesAppend` | tools/tools.go:21-29 | Removing a value that was absent before it was appended gives the list back, in order |
| `Tools.RemoveCounts` | tools/tools.go:21-29 | A removal takes one occurrence and touches no other value, so the value is gone if and only if it occurred at most once |
| `Types.PodNamesDistinct` | services/pod/pod.go:63-66 | Different ordinals of a parent have different pod names |
| `Types.ClaimNamesDistinct` | services/resource.go:97-102 | And different claim names |
| `Tools.MatchStringFromArray` | tools/tools.go:12-19 | Finds the value if and only if it is in the list |
| `Tools.RemoveString` | tools/tools.go:21-29 | Leaves the list without the first occurrence, as WithoutFirst defines it |
| `Tools.IntToInt32` | tools/tools.go:31-34 | Two's complement truncation to 32 bits, the identity on the range |
| `Controller.IndexOf` | controllers/statefulpod/stateful_pod.go:67-83 | The reading method computes GetIndex |
| `Controller.CoreCtrl` | controllers/statefulpod/stateful_pod.go:46-65 | Cluster, stored parent, copy and outcome after a call are those of CoreEffect, the function that SlotCountLaw, FinalizerGoesExactly, the Answers and all results on runs are about; no list access in it is out of range |
| `Controller.Expansion` | controllers/statefulpod/stateful_pod.go:124-170 | World, copy and outcome are those of ExpansionEffect: what an append needs and does is AppendExactly and AppendShape, what a repair keeps is RegrowKeepsClaims |
| `Controller.Shrink` | controllers/statefulpod/stateful_pod.go:174-196 | World, copy and outcome are those of ShrinkEffect: it truncates both lists to the slot it found gone (CutShape) and deletes nothing else (ShrinkOrphans), and asks to be called again until that slot is gone (ShrinkAnswer) |
| `Controller.Maintain` | controllers/statefulpod/stateful_pod.go:199-212 | World, copy and outcome are those of MaintainEffect, whose healing is MaintainHeals |
| `Controller.SetFinalizer` | controllers/statefulpod/stateful_pod.go:215-227 | Appends the finalizer and writes exactly when the parent is not marked and lacks it, so it never occurs twice (RunKeepsShape) |
| `Controller.DeleteStatefulPod` | controllers/statefulpod/stateful_pod.go:85-117 | World, copy and outcome are those of DeleteEffect, whose order is DestructionInOrder, whose last write is EraseExact and whose answer is DeletionAnswer |
| `Controller.CreateService` | controllers/statefulpod/child_resource_controller/service_controller/service.go:26-41 | True only if the service is there already; else one create call |
| `Controller.MonitorPodStatus` | controllers/statefulpod/stateful_pod.go:233-251 | A fresh copy of the pod's parent is edited and written back exactly when the edit reports a change; with a negative index annotation it does what comes before the first access of the lists, and panics exactly if it gets there |
| `Controller.MonitorPVCStatus` | controllers/statefulpod/stateful_pod.go:254-272 | The same for claims; with a negative index it changes nothing, and panics exactly for a terminating or bound claim |
| `PodControl.ExpansionPod` | controllers/statefulpod/child_resource_controller/pod_controller/pod.go:68-97 | Makes the pod and a Preparing slot, or returns the recorded slot, or fails past the end |
| `PodControl.ShrinkPod` | controllers/statefulpod/child_resource_controller/pod_controller/pod.go:100-115 | True exactly if the pod is gone; else one delete |
| `PodControl.DeletePodAll` | controllers/statefulpod/child_resource_controller/pod_controller/pod.go:117-136 | The loop with its early failure leaves the world and answer of DeletePodAllEffect; what the answer means is DeletePodAllExact |
| `PodControl.MaintainPod` | controllers/statefulpod/child_resource_controller/pod_controller/pod.go:138-149 | The least slot recorded Deleting whose pod is absent |
| `PodControl.PodIsOk` | controllers/statefulpod/child_resource_controller/pod_controller/pod.go:151-169 | Marks the first slot out of step, and only that one |
| `PodControl.MonitorPodStatus` | controllers/statefulpod/child_resource_controller/pod_controller/pod.go:171-256 | World, copy and answer are those of MonitorPodEffect, about which EventRecordsExactly, SecondNoticeExactly, ForcesExactly, NodeLostDone and ForcedDeletesInOrder are proved; no list access is out of range |
| `PodControl.MonitorNegative` | controllers/statefulpod/child_resource_controller/pod_controller/pod.go:171-204 | What a pod event with a negative index does, and whether it panics |
| `PodControl.DeleteClaimInsistently` | controllers/statefulpod/child_resource_controller/pod_controller/pod.go:234-237 | The retry loop ends, after as many failing calls as are ahead |
| `PodControl.DeletePodMandatory` | services/pod/pod.go:128-165 | World and answer are those of DeletePodMandatoryEffect: when the mark gets on the pod is MarkPutExactly, and that the pod goes LostPodGoes |
| `PodControl.IsPodRunning` | controllers/statefulpod/child_resource_controller/pod_controller/pod.go:259-269 | Phase Running and every Ready condition true |
| `PodControl.CreateTemplate` | services/pod/pod.go:33-61 | The made pod, and the edits the parent's copy takes: its annotations when it has any, and the claim name's default |
| `ClaimControl.ExpansionPVC` | controllers/statefulpod/child_resource_controller/pvc_controller/pvc.go:80-107 | Makes the claim and a Pending record, or returns the recorded one, or fails past the end |
| `ClaimControl.CreateTemplate` | services/pvc/pvc.go:42-80 | The made claim, and the edit of the shared template |
| `ClaimControl.ShrinkPVC` | controllers/statefulpod/child_resource_controller/pvc_controller/pvc.go:109-124 | True exactly if the claim is gone; else one delete |
| `ClaimControl.DeletePvcAll` | controllers/statefulpod/child_resource_controller/pvc_controller/pvc.go:58-78 | The loop leaves the world and answer of DeletePvcAllEffect; what the answer means is DeletePvcAllExact |
| `ClaimControl.MonitorPVCStatus` | controllers/statefulpod/child_resource_controller/pvc_controller/pvc.go:126-148 | The in-place edit is that of MonitorClaimEffect: what it records is ClaimEventExactly, and that it is the claim's own volume, over whole runs, RecordedAlong |
| `VolumeControl.SetPVRetain` | controllers/statefulpod/child_resource_controller/pv_controller/pv.go:30-64 | The loop leaves the world and answer of SetPVRetainEffect; what the answer means is SetPVRetainExact, and what it does to volumes RetainChanges |
| `VolumeControl.SetPVAvailable` | controllers/statefulpod/child_resource_controller/pv_controller/pv.go:66-101 | The loop, with its break, leaves the world and answer of SetPVAvailableEffect; what the answer means is SetPVAvailableExact, and what it does to volumes FreeChanges |
| `Api.StatefulPod.SetPVCName` | services/resource.go:97-102 | The claim name, which does not depend on whether the default was written before |
| `Api.ApiServer.CreatePod` | services/pod/pod.go:96-103 | A pod call that can fail, and fails on a taken name |
| `Api.ApiServer.UpdatePod` | services/pod/pod.go:105-117 | Sent only at the stored version |
| `Api.ApiServer.DeletePod` | services/pod/pod.go:119-126 | Marks; an absent pod is no error |
| `Api.ApiServer.ForceDeletePod` | services/pod/pod.go:134-137 | Removes; an absent pod is an error |
| `Api.ApiServer.ForceDeleteClaim` | services/pvc/pvc.go:28-35 | Marks; an absent claim is an error |

## Left out

- PodControl.CreateTemplate: hostname, labels and owner reference of the made pod, which nothing here reads.
- ClaimControl.CreateTemplate: labels and owner reference of the made claim.
- ConvergenceTheorem.Converges: serial runs, since `LostAppend` shows that it fails of interleavings; `TimelyRunsConverge` carries it over to those that are timely. It assumes calls that succeed (`FailedClaimLeavesStrayPod`), pods that become ready before their deadline on ready nodes, and terminating objects that vanish (a claim no later than its pod). It starts from states in which no slot is CreateTimeOut and no slot beyond the size, or of a parent without a claim template, has a Pending claim; `FreshStartIsGood` and `ResizeIsGood` say which starts that includes.
- ConvergenceTheorem.EverySizeIsReached: the same hypotheses, and a size that changes only once the last one is reached.
- ConvergenceSteps.PodReconcilesFine: good states only, so not the branches for node loss and timeouts; these are `ForcedDeletesInOrder`, `SecondNotice` and `PodEventTidyExactly`.
- TimelyRuns.TimelyRunsConverge: runs whose events are those of the convergence actions; a call that another reconciler's pieces interrupt is not timely even if it writes last.
- TimelyRuns.TimelyRunsAreSerial: calls that no other reconciler interrupts; `WritesAreNotEnough` shows why the versions of the writes alone do not do.
- MarkedEarly.MarkedParentEnds: serial runs; the hypotheses of convergence until the size is reached, and those of DeletionEnds after it.
- DeletionEnds.DeletionEnds: serial runs. It assumes that the cluster removes the volumes of redis slaves, since the code waits for that, that a recorded volume is not bound again, and that the live pod of the last slot is not overdue, without which `LastTimeoutRebuilds` shows that the parent is built again.
- DeletionEnds.StepNeverWorse: the same.
- DeletionRuns.DeletionIsNeverLeft: serial runs; for interleavings it is `WorkersNeverLeaveDeletion`, whose reconcilers hold copies from the deletion, without which `ShortCopyReopens` and `UnmarkedCopyRevives` show that it fails.
- Rollout.RolloutInOrder: serial runs under the hypotheses of convergence, with no pod deleted or lost from outside; a repair puts earlier slots in flight again.
- Rollout.FreshRolloutInOrder: the same.
- Histories.TimeoutsTakeTwoNotices: serial runs; over interleavings `Notices.TimeoutsTakeTwoNotices` has the notice, and `NothingElseRecorded` says exactly when nothing else was recorded since.
- Histories.TimeoutHasNotice: the same.
- Notices.NothingElseRecorded: a write over a change of another slot fails the version check as well, though it loses nothing of this one. It assumes that the server gives every change of the parent a new version.
- StrayPods.LostAppendIsForGood: a pod that is removed from outside frees its slot again.
- Orphans.OrphansExactly: serial runs in which nothing from outside puts an object under the parent's names; over interleavings it is `RunTidyExactly`, where a growth shows before its write.
- Orphans.BenignRunsLeaveNoOrphans: the same.
- Workers.RunKeepsShape: assumes that the user does not edit the status, rename the parent or change the claim prefix, and that pods annotated with this parent bear the name that goes with their ordinal.
- Handshake.ForcedOnlyAfterMark: assumes that nothing but the controller writes the nodeUnhealthy mark, on pods or on the parent they copy their annotations from.
- BoundVolumes.RecordedAlong: serial runs; for interleavings it is `RunRecordsExactly`. Claim events show the claim that stands, named as it is annotated; a bound claim keeps volume and request; and no claim comes from outside under a name whose slot records a volume.
- BoundVolumes.VolumesKeptFirstAlong: the same, and the deletion of the parent only: a shrink and a second notice delete claims whatever the policy is.
- Volumes.FreedWhenFinalizerGoes: assumes that nothing from outside makes one of those volumes Available, or claims it again when it is.
- Volumes.DeletionLeavesVolumesFree: the same, and the hypotheses of DeletionEnds.
- NodeLoss.NothingForcedInTime: the second part assumes that the clock does not go back, the timeout is not changed, the node stays, and a condition that is not True is dated no earlier than it was True.
- NodeLoss.LostPodGoes: the pod itself is not changed from outside between its two events, and its slot and parent stay.
- MadeObjects.AnnotationsAreInherited: the user, and whatever else writes pods, keep the annotation.
- StickyVolumes.SameClaimEveryTime: for parents that have and keep a claim template; without one a pod mounts what its template says.
- StickyVolumes.ClaimsAskForVolumes: the user does not edit the template between the calls.
- ParentStore.Update: the number of disturbed rounds is finite, without which the loop need not end. All other methods call it with no disturbance: it is proved to leave what one write at its last attempt would, and `Workers` puts any other reconciler's work before that write.
- Reads are reliable and see the current state; the Go code takes a failed read for an absent object. Inside one call of a method the cluster stands still; `Workers` lets it change between the pieces of a call.
- The API server is assumed to mark an object on a graceful delete, to remove a pod at once on a forced one, to keep a claim until its protection finalizer is lifted, to own version and deletion mark, to drop a marked object that has no finalizer left, and to store a volume's phase with an ordinary update.
- One namespace and one stored parent at a time; other parents' pods and claims are in the cluster as outside objects.
- The annotation map that a made pod shares with its parent's copy is modelled by value: both carry the three annotations afterwards, and later edits through the shared map do not occur in the code.
- The clock and the two timeouts are parts of the world. Nodes have at least one condition, StorageClassName is not nil, and volume 0 has a claim when there is a claim template.
- Event handler, predicate and name-based dispatch: events arrive as they like. Kubernetes client and cache, scheme, manager start, logging, generated deep copy, CRD and RBAC files.
- Service contents, labels and pod spec beyond the claim of volume 0; a service is a name that exists or not.
- IsPodDeleting, IsCreationPvcTimeout and the Get methods that return nil: nothing calls them.
