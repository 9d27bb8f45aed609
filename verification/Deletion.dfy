// deleteStatefulPod: what its four loops decide, when the finalizer goes, in which order things are
// destroyed, that deletion is never left again, and that it ends.
module Deletion {
  import opened Tools
  import opened Types
  import opened Api
  import opened PodControl
  import opened ClaimControl
  import opened Controller
  import opened VolumeControl

  // ----- what the loops' answers mean -----

  ghost predicate PodsGone(w: World, slots: seq<PodSlot>, k: nat) {
    forall j :: k <= j < |slots| ==> slots[j].podName !in w.pods
  }

  ghost predicate ClaimsGone(w: World, slots: seq<ClaimSlot>, k: nat) {
    forall j :: k <= j < |slots| ==> slots[j].claimName !in w.claims
  }

  ghost predicate AllRetained(w: World, slots: seq<ClaimSlot>, k: nat) {
    forall j :: k <= j < |slots| ==> RetainCounts(w, slots[j].volumeName)
  }

  ghost predicate AllAvailable(w: World, slots: seq<ClaimSlot>, k: nat) {
    forall j :: k <= j < |slots| ==> AvailableCounts(w, slots[j].volumeName)
  }

  /** A run of the pod loop keeps the pods, marks at most, counts those absent, and calls only
      DeletePod; it makes no call at all exactly when every recorded pod is absent. */
  lemma {:induction false} PodLoop(w: World, slots: seq<PodSlot>, k: nat, sum: nat)
    requires k <= |slots|
    ensures var (v, r) := DeletePodsFrom(w, slots, k, sum);
      && v == w.(pods := v.pods, log := v.log) && v.pods.Keys == w.pods.Keys
      && (r.Some? ==> sum <= r.value <= sum + |slots| - k)
      && (r == Some(sum + |slots| - k) <==> PodsGone(w, slots, k))
      && (PodsGone(w, slots, k) ==> v == w)
      && CallsAdded(w, v, {DeletePod})
    decreases |slots| - k
  {
    if k < |slots| {
      if slots[k].podName in w.pods {
        var (w1, ok) := DeletePodIn(w, slots[k].podName);
        PodLoop(w1, slots, k + 1, sum);
      } else {
        PodLoop(w, slots, k + 1, sum + 1);
        assert PodsGone(w, slots, k) <==> PodsGone(w, slots, k + 1);
      }
    }
  }

  lemma {:induction false} ClaimLoop(w: World, slots: seq<ClaimSlot>, k: nat, sum: nat)
    requires k <= |slots|
    ensures var (v, r) := DeleteClaimsFrom(w, slots, k, sum);
      && v == w.(claims := v.claims, log := v.log) && v.claims.Keys == w.claims.Keys
      && (r.Some? ==> sum <= r.value <= sum + |slots| - k)
      && (r == Some(sum + |slots| - k) <==> ClaimsGone(w, slots, k))
      && (ClaimsGone(w, slots, k) ==> v == w)
      && CallsAdded(w, v, {DeleteClaim})
    decreases |slots| - k
  {
    if k < |slots| {
      if slots[k].claimName in w.claims {
        var (w1, ok) := DeleteClaimIn(w, slots[k].claimName);
        ClaimLoop(w1, slots, k + 1, sum);
      } else {
        ClaimLoop(w, slots, k + 1, sum + 1);
        assert ClaimsGone(w, slots, k) <==> ClaimsGone(w, slots, k + 1);
      }
    }
  }

  /** The calls made between w and v are all of the given verbs. */
  ghost predicate CallsAdded(w: World, v: World, verbs: set<Verb>) {
    && |v.log| >= |w.log| && v.log[..|w.log|] == w.log
    && forall n :: |w.log| <= n < |v.log| ==> v.log[n].verb in verbs
  }

  lemma {:induction false} RetainLoop(w: World, slots: seq<ClaimSlot>, k: nat, sum: nat)
    requires k <= |slots|
    ensures var (v, r) := RetainFrom(w, slots, k, sum);
      && v == w.(volumes := v.volumes, log := v.log) && v.volumes.Keys == w.volumes.Keys
      && (r.Some? ==> sum <= r.value <= sum + |slots| - k)
      && (r == Some(sum + |slots| - k) <==> AllRetained(w, slots, k))
      && (AllRetained(w, slots, k) ==> v == w)
      && CallsAdded(w, v, {UpdateVolume})
    decreases |slots| - k
  {
    hide Retained;
    if k < |slots| {
      var name := slots[k].volumeName;
      if RetainCounts(w, name) {
        RetainLoop(w, slots, k + 1, sum + 1);
        assert AllRetained(w, slots, k) <==> AllRetained(w, slots, k + 1);
      } else {
        var (w1, ok) := UpdateVolumeIn(w, name, Retained(w.volumes[name]));
        RetainLoop(w1, slots, k + 1, sum);
      }
    }
  }

  lemma {:induction false} FreeCalls(w: World, slots: seq<ClaimSlot>, k: nat, sum: nat)
    requires k <= |slots|
    ensures var v := FreeFrom(w, slots, k, sum).0;
      && v == w.(volumes := v.volumes, log := v.log) && v.volumes.Keys == w.volumes.Keys
      && CallsAdded(w, v, {UpdateVolume})
    decreases |slots| - k
  {
    hide Freed;
    if k < |slots| {
      var name := slots[k].volumeName;
      FreeCalls(w, slots, k + 1, sum + 1);
      if name in w.volumes {
        FreeCalls(UpdateVolumeIn(w, name, Freed(w.volumes[name])).0, slots, k + 1, sum);
      }
    }
  }

  lemma {:induction false} FreeLoop(w: World, slots: seq<ClaimSlot>, k: nat, sum: nat)
    requires k <= |slots|
    ensures var (v, r) := FreeFrom(w, slots, k, sum);
      && v == w.(volumes := v.volumes, log := v.log) && v.volumes.Keys == w.volumes.Keys
      && (r.Some? ==> sum <= r.value <= sum + |slots| - k)
      && (r == Some(sum + |slots| - k) <==> AllAvailable(w, slots, k))
      && (AllAvailable(w, slots, k) ==> v == w)
      && CallsAdded(w, v, {UpdateVolume})
    decreases |slots| - k
  {
    hide Freed, CallsAdded;
    FreeCalls(w, slots, k, sum);
    if k < |slots| {
      var name := slots[k].volumeName;
      if AvailableCounts(w, name) {
        FreeLoop(w, slots, k + 1, sum + 1);
        assert AllAvailable(w, slots, k) <==> AllAvailable(w, slots, k + 1);
      } else if !Redis(w.volumes[name]) {
        var (w1, ok) := UpdateVolumeIn(w, name, Freed(w.volumes[name]));
        FreeLoop(w1, slots, k + 1, sum);
      }
    }
  }

  /** SetPVRetain answers true exactly when nothing was left to retain: every recorded volume is
      absent, a redis slave's, or Retain already (or the policy is not Retain at all). */
  lemma SetPVRetainExact(w: World, p: Parent)
    ensures SetPVRetainEffect(w, p).1 <==> (p.spec.policy == Retain ==> AllRetained(w, p.claims, 0))
    ensures SetPVRetainEffect(w, p).1 ==> SetPVRetainEffect(w, p).0 == w
  {
    RetainLoop(w, p.claims, 0, 0);
  }

  /** SetPVAvailable answers true exactly when every recorded volume is absent, or Available and no
      redis slave's; leaving the loop at a redis slave's volume can never add up. */
  lemma SetPVAvailableExact(w: World, p: Parent)
    ensures SetPVAvailableEffect(w, p).1 <==> (p.spec.policy == Retain ==> AllAvailable(w, p.claims, 0))
    ensures SetPVAvailableEffect(w, p).1 ==> SetPVAvailableEffect(w, p).0 == w
  {
    FreeLoop(w, p.claims, 0, 0);
  }

  /** DeletePodAll answers true exactly when every recorded pod is gone, as long as the two lists
      are equally long. */
  lemma DeletePodAllExact(w: World, p: Parent)
    requires |p.pods| == |p.claims|
    ensures DeletePodAllEffect(w, p).1 <==> PodsGone(w, p.pods, 0)
    ensures DeletePodAllEffect(w, p).1 ==> DeletePodAllEffect(w, p).0 == w
  {
    PodLoop(w, p.pods, 0, 0);
  }

  /** Without equal lengths it can say so while a recorded pod is still there. */
  lemma DeletePodAllNeedsEqualLengths(w: World, p: Parent)
    requires w.faults == {} && |p.pods| == 2 && |p.claims| == 1
    requires p.pods[0].podName in w.pods && p.pods[1].podName !in w.pods
    ensures DeletePodAllEffect(w, p).1
  {
    var w1 := DeletePodIn(w, p.pods[0].podName).0;
    assert DeletePodsFrom(w, p.pods, 0, 0) == DeletePodsFrom(w1, p.pods, 1, 0);
    assert DeletePodsFrom(w1, p.pods, 1, 0) == DeletePodsFrom(w1, p.pods, 2, 1);
  }

  lemma DeletePvcAllExact(w: World, p: Parent)
    ensures DeletePvcAllEffect(w, p).1 <==> ClaimsGone(w, p.claims, 0)
    ensures DeletePvcAllEffect(w, p).1 ==> DeletePvcAllEffect(w, p).0 == w
  {
    ClaimLoop(w, p.claims, 0, 0);
  }

  // ----- when the finalizer goes -----

  /** Everything recorded is gone; under Retain, every recorded volume is absent, or Retain,
      Available and no redis slave's. */
  ghost predicate Cleared(w: World, p: Parent) {
    && PodsGone(w, p.pods, 0) && ClaimsGone(w, p.claims, 0)
    && (p.spec.policy == Retain ==> AllRetained(w, p.claims, 0) && AllAvailable(w, p.claims, 0))
  }

  lemma EraseExact(c: Ctx)
    requires |c.p.pods| == |c.p.claims|
    ensures Erase(c).1.None? <==> GROUP_VERSION in c.p.finalizers && Cleared(c.w, c.p)
    ensures Erase(c).1.None? ==> Erase(c).0 == Ctx(c.w, DropFinalizer(c.p))
    ensures Erase(c).1.Some? ==> Erase(c).0.p == c.p
  {
    SetPVRetainExact(c.w, c.p);
    if SetPVRetainEffect(c.w, c.p).1 {
      DeletePodAllExact(c.w, c.p);
      DeletePvcAllExact(c.w, c.p);
      SetPVAvailableExact(c.w, c.p);
    }
  }

  /** Only deletion takes a finalizer away. */
  lemma KeepsFinalizers(c: Ctx)
    requires |c.p.pods| == |c.p.claims|
    ensures !(c.p.deletionMarked && GetIndex(c.p) == c.p.spec.size) && GROUP_VERSION in c.p.finalizers ==>
      GROUP_VERSION in CoreEffect(c).0.p.finalizers
  {
    hide GrowObjects, DeleteEffect, FirstFrom, Dashed;
  }

  /** CoreCtrl takes the finalizer off exactly when the parent is marked, its slot count is the
      requested size, and everything is cleared; it then touches nothing but the parent. */
  lemma FinalizerGoesExactly(c: Ctx)
    requires WellFormed(c.p) && c.w.stored.Some? && Count(c.p.finalizers, GROUP_VERSION) == 1
    ensures GROUP_VERSION !in CoreEffect(c).0.p.finalizers <==>
      c.p.deletionMarked && GetIndex(c.p) == c.p.spec.size && Cleared(c.w, c.p)
    ensures GROUP_VERSION !in CoreEffect(c).0.p.finalizers ==>
      CoreEffect(c).0.w == c.w.(stored := CoreEffect(c).0.w.stored)
  {
    KeepsFinalizers(c);
    hide Erase, ExpansionEffect, ShrinkEffect, MaintainEffect, SetFinalizerEffect, Cleared, WithoutFirst, GetIndex;
    if c.p.deletionMarked && GetIndex(c.p) == c.p.spec.size {
      EraseExact(c);
      RemoveCounts(c.p.finalizers, GROUP_VERSION);
    }
  }

  // ----- retention before destruction -----

  /** The calls of one deletion, in order: a pod is deleted only if nothing recorded needed retaining
      when the call began, and a claim only if moreover no recorded pod was left. */
  lemma DestructionInOrder(c: Ctx)
    requires |c.p.pods| == |c.p.claims|
    ensures var v := Erase(c).0.w;
      && CallsAdded(c.w, v, {UpdateVolume, DeletePod, DeleteClaim})
      && (forall n :: |c.w.log| <= n < |v.log| && v.log[n].verb == DeletePod ==>
            (c.p.spec.policy == Retain ==> AllRetained(c.w, c.p.claims, 0)))
      && (forall n :: |c.w.log| <= n < |v.log| && v.log[n].verb == DeleteClaim ==>
            (c.p.spec.policy == Retain ==> AllRetained(c.w, c.p.claims, 0)) && PodsGone(c.w, c.p.pods, 0))
  {
    var w := c.w;
    SetPVRetainExact(w, c.p);
    RetainLoop(w, c.p.claims, 0, 0);
    if GROUP_VERSION in c.p.finalizers && SetPVRetainEffect(w, c.p).1 {
      DeletePodAllExact(w, c.p);
      PodLoop(w, c.p.pods, 0, 0);
      if DeletePodAllEffect(w, c.p).1 {
        DeletePvcAllExact(w, c.p);
        ClaimLoop(w, c.p.claims, 0, 0);
        FreeLoop(w, c.p.claims, 0, 0);
      }
    }
  }

  // ----- deletion is never left again -----

  /** Marked, at its size, with a last slot that is neither being created nor waiting, and every
      recorded pod on its way out: the controller goes on deleting. */
  ghost predicate Leaving(w: World) {
    w.stored.None? ||
    var p := w.stored.value;
    && p.deletionMarked && WellFormed(p) && |p.pods| == p.spec.size == GetIndex(p)
    && forall i :: 0 <= i < |p.pods| && p.pods[i].podName in w.pods ==> w.pods[p.pods[i].podName].terminating
  }

  /** The same slots by name, in states that do not send getIndex back. */
  lemma StillLeaving(w: World, p: Parent, v: World, q: Parent)
    requires w.stored == Some(p) && Leaving(w) && v.stored == Some(q) && v.pods == w.pods
    requires q.deletionMarked && q.name == p.name && q.spec.size == p.spec.size && ClaimBase(q) == ClaimBase(p)
    requires |q.pods| == |p.pods| && |q.claims| == |p.claims|
    requires forall i :: 0 <= i < |p.pods| ==>
      && q.pods[i].podName == p.pods[i].podName && q.pods[i].index == p.pods[i].index
      && (q.pods[i].status == p.pods[i].status || q.pods[i].status in {Deleting, Running})
    requires forall i :: 0 <= i < |p.claims| ==>
      && q.claims[i].claimName == p.claims[i].claimName && q.claims[i].index == p.claims[i].index
      && (q.claims[i].status == p.claims[i].status || q.claims[i].status in {ClaimDeleting, Bound})
    ensures Leaving(v)
  {
  }

  /** From outside, no pod is made or revived under the parent's names, and the user leaves the
      marked parent's names, size and status alone. */
  ghost predicate OutsideLeaving(w: World, v: World) {
    match v.stored
    case None => true
    case Some(q) =>
      w.stored.Some? &&
      var p := w.stored.value;
      && q.deletionMarked && q.name == p.name && q.spec.size == p.spec.size
      && ClaimBase(q) == ClaimBase(p) && q.pods == p.pods && q.claims == p.claims
      && forall n :: n in v.pods ==> n in w.pods && (w.pods[n].terminating ==> v.pods[n].terminating)
  }

  lemma {:induction false} PodLoopMarks(w: World, slots: seq<PodSlot>, k: nat, sum: nat)
    requires k <= |slots|
    ensures var v := DeletePodsFrom(w, slots, k, sum).0;
      forall n :: n in w.pods ==> n in v.pods && (w.pods[n].terminating ==> v.pods[n].terminating)
    decreases |slots| - k
  {
    if k < |slots| {
      if slots[k].podName in w.pods {
        var (w1, ok) := DeletePodIn(w, slots[k].podName);
        PodLoopMarks(w1, slots, k + 1, sum);
      } else {
        PodLoopMarks(w, slots, k + 1, sum + 1);
      }
    }
  }

  lemma EraseWorld(c: Ctx)
    requires |c.p.pods| == |c.p.claims|
    ensures var v := Erase(c).0.w;
      && v.stored == c.w.stored
      && forall n :: n in v.pods ==> n in c.w.pods && (c.w.pods[n].terminating ==> v.pods[n].terminating)
  {
    RetainLoop(c.w, c.p.claims, 0, 0);
    var w1 := SetPVRetainEffect(c.w, c.p).0;
    assert w1 == c.w.(volumes := w1.volumes, log := w1.log);
    PodLoop(w1, c.p.pods, 0, 0);
    PodLoopMarks(w1, c.p.pods, 0, 0);
    var w2 := DeletePodAllEffect(w1, c.p).0;
    assert w2 == w1.(pods := w2.pods, log := w2.log) && w2.pods.Keys == w1.pods.Keys;
    EraseTail(w2, c.p);
  }

  lemma EraseTail(w: World, p: Parent)
    ensures var v := DeletePvcAllEffect(w, p).0; v == w.(claims := v.claims, log := v.log)
    ensures var v := SetPVAvailableEffect(DeletePvcAllEffect(w, p).0, p).0;
      v == w.(claims := v.claims, volumes := v.volumes, log := v.log)
  {
    ClaimLoop(w, p.claims, 0, 0);
    FreeLoop(DeletePvcAllEffect(w, p).0, p.claims, 0, 0);
  }

  /** However calls fail, time passes and events arrive, no reconcile leaves the deletion. */
  lemma CoreKeepsLeaving(w: World)
    requires Leaving(w)
    ensures Leaving(Core(w))
  {
    if w.stored.Some? {
      var c := Ctx(w, w.stored.value);
      EraseExact(c);
      EraseWorld(c);
    }
  }

  lemma PodEventKeepsLeaving(w: World, pod: Pod)
    requires Leaving(w) && Ordinal(pod.annotations) >= 0
    requires pod.name in w.pods && w.pods[pod.name] == pod
    requires pod.name == Dashed(OwnerName(pod.annotations), Ordinal(pod.annotations))
    ensures Leaving(MonitorPod(w, pod))
  {
    var i := Ordinal(pod.annotations);
    if OwnerStored(w, pod.annotations) && i < |w.stored.value.pods| {
      var p := w.stored.value;
      assert p.pods[i].podName == pod.name && pod.terminating;
      var (c, changed) := MonitorPodEffect(Ctx(w, p), pod, i);
      if changed && Put(c).w.stored.Some? {
        StillLeaving(w, p, Put(c).w, Put(c).w.stored.value);
      }
    }
  }

  lemma ClaimEventKeepsLeaving(w: World, claim: Claim)
    requires Leaving(w)
    ensures Leaving(MonitorClaim(w, claim))
  {
    var i := Ordinal(claim.annotations);
    if OwnerStored(w, claim.annotations) && 0 <= i < |w.stored.value.pods| {
      var p := w.stored.value;
      var (q, changed) := MonitorClaimEffect(p, claim, i);
      var v := Put(Ctx(w, q)).w;
      if changed && v.stored.Some? {
        StillLeaving(w, p, v, v.stored.value);
      }
    }
  }

  lemma OutsideKeepsLeaving(w: World, v: World)
    requires Leaving(w) && OutsideLeaving(w, v)
    ensures Leaving(v)
  {
    if v.stored.Some? {
      StillLeaving(w, w.stored.value, w.(stored := v.stored), v.stored.value);
    }
  }
}
