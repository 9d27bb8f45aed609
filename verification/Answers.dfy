// What CoreCtrl answers: when it asks to be called again, and that no deletion or shrink is given up before
// its end.
module Answers {
  import opened Tools
  import opened Types
  import opened Api
  import opened PodControl
  import opened Controller
  import opened Convergence
  import opened SizeLaws
  import opened Deletion
  import DeletionEnds
  import VolumeControl

  // ----- deletion -----

  /** A marked parent at its size that has the finalizer is asked for again exactly as long as something is
      left to clear, whatever calls fail. */
  lemma DeletionAnswer(c: Ctx)
    requires |c.p.pods| == |c.p.claims|
    requires c.p.deletionMarked && GetIndex(c.p) == c.p.spec.size && GROUP_VERSION in c.p.finalizers
    ensures CoreEffect(c).1 == if Cleared(c.w, c.p) then Done else RequeueAfterWait
  {
    SetPVRetainExact(c.w, c.p);
    if VolumeControl.SetPVRetainEffect(c.w, c.p).1 {
      DeletePodAllExact(c.w, c.p);
      DeletePvcAllExact(c.w, c.p);
      SetPVAvailableExact(c.w, c.p);
    }
  }

  /** So on a fresh copy the answer is Done exactly if the finalizer, or the parent, is gone. */
  lemma DeletionAskedAgain(w: World, p: Parent)
    requires w.stored == Some(p) && WellFormed(p) && Count(p.finalizers, GROUP_VERSION) == 1
    requires p.deletionMarked && GetIndex(p) == p.spec.size
    ensures CoreEffect(Ctx(w, p)).1 == if DeletionEnds.Over(Core(w)) then Done else RequeueAfterWait
  {
    var c := Ctx(w, p);
    assert GROUP_VERSION in p.finalizers;
    DeletionAnswer(c);
    EraseExact(c);
    EraseWorld(c);
    RemoveCounts(p.finalizers, GROUP_VERSION);
    hide Erase, Cleared, GetIndex;
  }

  /** Along the runs of the deletion theorem every call is followed by another one, until the last. */
  lemma FairnessIsAskedFor(w: World, bound: nat)
    requires DeletionEnds.Inv(w, bound) && !DeletionEnds.Over(w)
    ensures var p := w.stored.value;
      |p.pods| == |p.claims|
      && (CoreEffect(Ctx(w, p)).1 == if DeletionEnds.Over(Core(w)) then Done else RequeueAfterWait)
  {
    DeletionAskedAgain(w, w.stored.value);
  }

  // ----- shrink -----

  /** Above the size a call asks for the next one exactly as long as an object of the slot it works on is
      there, and the others record one slot less than the count they began with. */
  lemma ShrinkAnswer(c: Ctx)
    requires |c.p.pods| == |c.p.claims| && GetIndex(c.p) > c.p.spec.size
    ensures var n: nat, (d, outcome) := GetIndex(c.p), CoreEffect(c);
      && outcome == (if SlotGone(c.w, c.p, n - 1) then Done else RequeueAfterWait)
      && (outcome == Done <==> |d.p.pods| == n - 1)
      && (outcome == Done ==> d.w.stored in {None, Some(d.p)})
  {
    hide Dashed, ClaimBase, WithoutFirst;
    CutShape(c, GetIndex(c.p));
    CutAnswer(c, GetIndex(c.p));
  }

  lemma CutAnswer(c: Ctx, i: nat)
    requires 1 <= i <= |c.p.pods| == |c.p.claims|
    ensures Cut(c, i).1 == (if SlotGone(c.w, c.p, i - 1) then None else Some(RequeueAfterWait))
  {
  }

  // ----- growth -----

  /** Slot i needs a service that is not there. */
  predicate ServiceMissing(w: World, p: Parent, i: nat) {
    i == 0 && p.spec.hasService && ServiceName(p) !in w.services
  }

  /** The pod step comes to nothing: the pod stands and has no slot, or the call that makes it fails. */
  predicate PodStepFails(w: World, p: Parent, i: nat) {
    if PodAt(w, p, i).Some? then i >= |p.pods| else |w.log| in w.faults
  }

  lemma ExpansionAnswer(c: Ctx, i: nat)
    requires i <= |c.p.pods| == |c.p.claims|
    ensures ExpansionEffect(c, i).1 ==
      if ServiceMissing(c.w, c.p, i) then RequeueAfterWait else if PodStepFails(c.w, c.p, i) then Requeue else Done
  {
    hide ClaimPart, Stamp, Dashed;
  }

  /** Below the size: to wait for the service of slot 0, at once again after a failed pod step. */
  lemma GrowthAnswer(c: Ctx)
    requires |c.p.pods| == |c.p.claims| && GetIndex(c.p) < c.p.spec.size
    ensures var n := GetIndex(c.p);
      CoreEffect(c).1 ==
        if ServiceMissing(c.w, c.p, n) then RequeueAfterWait else if PodStepFails(c.w, c.p, n) then Requeue else Done
  {
    hide ExpansionEffect;
    ExpansionAnswer(c, GetIndex(c.p));
  }

  /** But an append that stops at its claim is answered Done: its pod stays without a slot, and is not asked
      for again. */
  lemma AppendGivenUpExactly(c: Ctx)
    requires WellFormed(c.p) && !HeldBack(c.p) && |c.p.pods| < c.p.spec.size
    ensures var n, t, (d, outcome) := |c.p.pods|, |c.w.log|, CoreEffect(c);
      && (outcome == Done && |d.p.pods| == n <==>
            && !ServiceMissing(c.w, c.p, n) && !PodStepFails(c.w, c.p, n)
            && c.p.spec.claimTemplate.Some? && (t + 1 in c.w.faults || ClaimAt(c.w, c.p, n).Some?))
      && (outcome == Done ==> PodAt(d.w, c.p, n).Some?)
  {
    hide ExpansionEffect, ShrinkEffect, MaintainEffect, DeleteEffect, Dashed;
    var n := |c.p.pods|;
    GrowthAnswer(c);
    AppendExactly(c);
    SlotCountLaw(c);
    if CoreEffect(c).1 == Done {
      PodStepDone(c, n);
    }
  }

  lemma PodStepDone(c: Ctx, i: nat)
    requires i <= |c.p.pods| == |c.p.claims| && !ServiceMissing(c.w, c.p, i) && !PodStepFails(c.w, c.p, i)
    ensures PodAt(ExpansionEffect(c, i).0.w, c.p, i).Some?
  {
    hide ClaimPart, Stamp, Dashed;
    PodsOfClaimPart(ExpansionPodEffect(c, i).0, i);
  }

  lemma PodsOfClaimPart(c: Ctx, i: nat)
    ensures Controller.ClaimPart(c, i).0.w.pods == c.w.pods
  {
  }

  // ----- repair -----

  /** Slot j's pod is absent, and by the time the call looks for a slot to repair this is recorded: it was
      before, or no slot before j is out of step. */
  ghost predicate RepairedNext(w: World, p: Parent, j: nat) {
    && j < |p.pods| && p.pods[j].podName !in w.pods
    && (p.pods[j].status == Deleting || forall k :: 0 <= k < j ==> !OutOfStep(w, p.pods[k]))
  }

  lemma LeastRepaired(c: Ctx)
    ensures var d := MarkEffect(c); var index := FirstNeedingPod(d.w, d.p.pods);
      && (index.None? <==> forall j: nat :: !RepairedNext(c.w, c.p, j))
      && (index.Some? ==> RepairedNext(c.w, c.p, index.value))
      && (index == Some(0) <==> RepairedNext(c.w, c.p, 0))
  {
    var d := MarkEffect(c);
    assert d.w.pods == c.w.pods && |d.p.pods| == |c.p.pods|;
    forall j: nat | j < |c.p.pods| ensures NeedsPod(d.w, d.p.pods[j]) <==> RepairedNext(c.w, c.p, j) {
    }
  }

  /** At the size, unmarked: Done, unless a lost pod cannot be made again. */
  lemma RepairAnswer(c: Ctx)
    requires WellFormed(c.p) && !c.p.deletionMarked && GetIndex(c.p) == c.p.spec.size
    ensures CoreEffect(c).1 ==
      if RepairedNext(c.w, c.p, 0) && ServiceMissing(c.w, c.p, 0) then RequeueAfterWait
      else if (exists j: nat :: RepairedNext(c.w, c.p, j)) && |c.w.log| in c.w.faults then Requeue
      else Done
  {
    hide ExpansionEffect, ShrinkEffect, DeleteEffect, RepairedNext, OutOfStep, GetIndex;
    var c1 := SetFinalizerEffect(c);
    assert c1.w == c.w.(stored := c1.w.stored) && c1.p.pods == c.p.pods;
    SameRepairs(c, c1);
    MaintainAnswer(c1);
  }

  lemma SameRepairs(c: Ctx, d: Ctx)
    requires d.w.pods == c.w.pods && d.p.pods == c.p.pods
    ensures forall j: nat :: RepairedNext(d.w, d.p, j) <==> RepairedNext(c.w, c.p, j)
  {
  }

  lemma MaintainAnswer(c: Ctx)
    requires WellFormed(c.p)
    ensures MaintainEffect(c).1 ==
      if RepairedNext(c.w, c.p, 0) && ServiceMissing(c.w, c.p, 0) then RequeueAfterWait
      else if (exists j: nat :: RepairedNext(c.w, c.p, j)) && |c.w.log| in c.w.faults then Requeue
      else Done
  {
    hide ExpansionEffect, RepairedNext, FirstNeedingPod;
    var d := MarkEffect(c);
    LeastRepaired(c);
    MarkKeeps(c);
    var index := FirstNeedingPod(d.w, d.p.pods);
    if index.Some? {
      RepairedIsAbsent(c.w, c.p, index.value);
      ExpansionAnswer(d, index.value);
    }
  }

  lemma RepairedIsAbsent(w: World, p: Parent, j: nat)
    requires WellFormed(p) && RepairedNext(w, p, j)
    ensures j < |p.pods| && PodAt(w, p, j).None?
  {
  }

  lemma MarkKeeps(c: Ctx)
    ensures var d := MarkEffect(c);
      && d.w == c.w.(stored := d.w.stored) && d.p.name == c.p.name && d.p.spec == c.p.spec
      && |d.p.pods| == |c.p.pods| && d.p.claims == c.p.claims
  {
  }
}
