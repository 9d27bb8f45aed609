// controllers/statefulpod/stateful_pod.go.
module Controller {
  import opened Tools
  import opened Types
  import opened Api
  import opened PodControl
  import ClaimControl
  import VolumeControl
  import ParentStore

  // ----- getIndex -----

  /** The slot count CoreCtrl works with: the length of the lists, or the number of the last slot
      while that slot is still being created, timed out, or waits for its claim. */
  function GetIndex(p: Parent): (r: nat)
    requires |p.pods| == |p.claims|
    ensures |p.pods| - 1 <= r <= |p.pods|
  {
    if |p.pods| == 0 then 0
    else
      var last: nat := |p.pods| - 1;
      if p.pods[last].status == CreateTimeOut then last
      else if p.pods[last].status == Preparing && last < p.spec.size then last
      else if p.claims[last].status == ClaimPending then last
      else last + 1
  }

  method IndexOf(sfp: StatefulPod) returns (r: nat)
    requires |sfp.podStatusMes| == |sfp.pvcStatusMes|
    ensures r == GetIndex(sfp.View())
  {
    if |sfp.podStatusMes| == 0 {
      return 0;
    }
    var index: nat := |sfp.podStatusMes| - 1;
    if sfp.podStatusMes[index].status == CreateTimeOut {
      return index;
    }
    if sfp.podStatusMes[index].status == Preparing && index < sfp.spec.size {
      return index;
    }
    if sfp.pvcStatusMes[index].status == ClaimPending {
      return index;
    }
    return index + 1;
  }

  // ----- expansion -----

  function CreateServiceEffect(w: World, p: Parent): (World, bool) {
    if ServiceName(p) in w.services then (w, true) else (CreateServiceIn(w, ServiceName(p)).0, false)
  }

  method CreateService(api: ApiServer, sfp: StatefulPod) returns (ready: bool)
    modifies api
    ensures (api.View(), ready) == CreateServiceEffect(old(api.View()), sfp.View())
  {
    var name := sfp.name + "-service";
    if name !in api.services {
      var _ := api.CreateService(name);
      return false;
    }
    return true;
  }

  function NoClaimSlot(i: nat): ClaimSlot {
    ClaimSlot(IntToInt32(i), "none", NoPhase, "", ["none"], "", "")
  }

  /** The slots are appended when i is one past the end, and overwritten otherwise. */
  function WithSlots(p: Parent, i: nat, pod: PodSlot, claim: ClaimSlot): Parent
    requires i <= |p.pods| == |p.claims|
  {
    if |p.pods| == i then p.(pods := p.pods + [pod], claims := p.claims + [claim])
    else p.(pods := p.pods[i := pod], claims := p.claims[i := claim])
  }

  function ClaimPart(c: Ctx, i: nat): (r: (Ctx, Option<ClaimSlot>))
    ensures SameSlots(r.0.p, c.p) && r.0.w.stored == c.w.stored
  {
    if c.p.spec.claimTemplate.Some? then ClaimControl.ExpansionPVCEffect(c, i)
    else (c, Some(NoClaimSlot(i)))
  }

  /** Expansion after the service step, up to but without its final write: None when it got there. */
  function GrowObjects(c: Ctx, i: nat): (r: (Ctx, Option<Outcome>))
    requires i <= |c.p.pods| == |c.p.claims|
    ensures r.1.Some? ==> SameSlots(r.0.p, c.p)
    ensures SameHead(r.0.p, c.p) && |r.0.p.pods| == |r.0.p.claims|
    ensures r.0.w.stored == c.w.stored
  {
    var (c1, pod) := ExpansionPodEffect(c, i);
    if pod.None? then (c1, Some(Requeue))
    else
      var (c2, claim) := ClaimPart(c1, i);
      if claim.None? then (c2, Some(Done))
      else (Ctx(c2.w, WithSlots(c2.p, i, pod.value, claim.value)), None)
  }

  function Grow(c: Ctx, i: nat): (r: (Ctx, Option<Outcome>))
    requires i <= |c.p.pods| == |c.p.claims|
    ensures r.1.Some? ==> SameSlots(r.0.p, c.p)
    ensures SameHead(r.0.p, c.p) && |r.0.p.pods| == |r.0.p.claims|
    ensures r.0.w.stored == c.w.stored
  {
    if i == 0 && c.p.spec.hasService && ServiceName(c.p) !in c.w.services then
      (Ctx(CreateServiceEffect(c.w, c.p).0, c.p), Some(RequeueAfterWait))
    else GrowObjects(c, i)
  }

  /** Expansion as its pieces: the service, or the pod, or the pod and the claim and both records. */
  lemma GrowPieces(c: Ctx, i: nat)
    requires i <= |c.p.pods| == |c.p.claims|
    ensures var (g, early) := Grow(c, i);
      var (d, pod) := ExpansionPodEffect(c, i); var (e, claim) := ClaimPart(d, i);
      || (g == Ctx(CreateServiceIn(c.w, ServiceName(c.p)).0, c.p) && early.Some?)
      || (g == d && early.Some?)
      || (g == e && early.Some?)
      || (pod.Some? && claim.Some? && g == Ctx(e.w, WithSlots(e.p, i, pod.value, claim.value)) && early.None?)
  {
    hide ExpansionPodEffect, ClaimPart, WithSlots, CreateServiceIn, ServiceName;
  }

  function ExpansionEffect(c: Ctx, i: nat): (Ctx, Outcome)
    requires i <= |c.p.pods| == |c.p.claims|
  {
    var (c1, early) := Grow(c, i);
    if early.Some? then (c1, early.value) else (Put(c1), Done)
  }

  method MakeClaim(api: ApiServer, sfp: StatefulPod, index: nat) returns (slot: Option<ClaimSlot>)
    modifies api, sfp
    ensures (Both(api, sfp), slot) == ClaimPart(old(Both(api, sfp)), index)
  {
    if sfp.spec.claimTemplate.Some? {
      slot := ClaimControl.ExpansionPVC(api, sfp, index);
    } else {
      slot := Some(ClaimSlot(IntToInt32(index), "none", NoPhase, "", ["none"], "", ""));
    }
  }

  method SetSlots(sfp: StatefulPod, index: nat, pod: PodSlot, claim: ClaimSlot)
    requires index <= |sfp.podStatusMes| == |sfp.pvcStatusMes|
    modifies sfp`podStatusMes, sfp`pvcStatusMes
    ensures sfp.View() == WithSlots(old(sfp.View()), index, pod, claim)
  {
    if |sfp.podStatusMes| == index {
      sfp.podStatusMes := sfp.podStatusMes + [pod];
      sfp.pvcStatusMes := sfp.pvcStatusMes + [claim];
    } else {
      sfp.podStatusMes := sfp.podStatusMes[index := pod];
      sfp.pvcStatusMes := sfp.pvcStatusMes[index := claim];
    }
  }

  method Expansion(api: ApiServer, sfp: StatefulPod, index: nat) returns (outcome: Outcome)
    requires index <= |sfp.podStatusMes| == |sfp.pvcStatusMes|
    modifies api, sfp
    ensures (Both(api, sfp), outcome) == ExpansionEffect(old(Both(api, sfp)), index)
  {
    if index == 0 && sfp.spec.hasService {
      var ready := CreateService(api, sfp);
      if !ready {
        return RequeueAfterWait;
      }
    }
    assert Both(api, sfp) == old(Both(api, sfp));
    var pod := ExpansionPod(api, sfp, index);
    if pod.None? {
      return Requeue;
    }
    var claim := MakeClaim(api, sfp, index);
    if claim.None? {
      return Done;
    }
    SetSlots(sfp, index, pod.value, claim.value);
    var _ := ParentStore.Update(api, sfp, []);
    return Done;
  }

  // ----- shrink -----

  /** Shrink up to, but without, its final write. */
  function Cut(c: Ctx, i: nat): (Ctx, Option<Outcome>)
    requires 1 <= i && i - 1 <= |c.p.pods| == |c.p.claims|
  {
    var (w1, podGone) := ShrinkPodEffect(c.w, c.p, i - 1);
    if !podGone then (Ctx(w1, c.p), Some(RequeueAfterWait))
    else
      var (c2, claimGone) :=
        if c.p.spec.claimTemplate.Some? then ClaimControl.ShrinkPVCEffect(Ctx(w1, c.p), i - 1)
        else (Ctx(w1, c.p), true);
      if !claimGone then (c2, Some(RequeueAfterWait))
      else (c2.(p := Truncated(c2.p, i - 1)), None)
  }

  function ShrinkEffect(c: Ctx, i: nat): (Ctx, Outcome)
    requires 1 <= i && i - 1 <= |c.p.pods| == |c.p.claims|
  {
    var (c1, early) := Cut(c, i);
    if early.Some? then (c1, early.value) else (Put(c1), Done)
  }

  method Shrink(api: ApiServer, sfp: StatefulPod, index: nat) returns (outcome: Outcome)
    requires 1 <= index && index - 1 <= |sfp.podStatusMes| == |sfp.pvcStatusMes|
    modifies api, sfp
    ensures (Both(api, sfp), outcome) == ShrinkEffect(old(Both(api, sfp)), index)
  {
    var gone := ShrinkPod(api, sfp, index - 1);
    if !gone {
      return RequeueAfterWait;
    }
    if sfp.spec.claimTemplate.Some? {
      gone := ClaimControl.ShrinkPVC(api, sfp, index - 1);
      if !gone {
        return RequeueAfterWait;
      }
    }
    sfp.podStatusMes := sfp.podStatusMes[..index - 1];
    sfp.pvcStatusMes := sfp.pvcStatusMes[..index - 1];
    var _ := ParentStore.Update(api, sfp, []);
    return Done;
  }

  // ----- maintain, setFinalizer -----

  function MarkEffect(c: Ctx): Ctx {
    var (p1, found) := PodIsOkEffect(c.w, c.p);
    if found.Some? then Put(Ctx(c.w, p1)) else c
  }

  function MaintainEffect(c: Ctx): (Ctx, Outcome)
    requires |c.p.pods| == |c.p.claims|
  {
    var c1 := MarkEffect(c);
    var index := FirstNeedingPod(c1.w, c1.p.pods);
    if index.Some? then ExpansionEffect(c1, index.value) else (c1, Done)
  }

  method Maintain(api: ApiServer, sfp: StatefulPod) returns (outcome: Outcome)
    requires |sfp.podStatusMes| == |sfp.pvcStatusMes|
    modifies api, sfp
    ensures (Both(api, sfp), outcome) == MaintainEffect(old(Both(api, sfp)))
  {
    var marked := PodIsOk(api, sfp);
    if marked.Some? {
      var _ := ParentStore.Update(api, sfp, []);
    }
    var index := MaintainPod(api, sfp);
    if index.Some? {
      outcome := Expansion(api, sfp, index.value);
      return;
    }
    return Done;
  }

  predicate WantsFinalizer(p: Parent) {
    !p.deletionMarked && GROUP_VERSION !in p.finalizers
  }

  function AddFinalizer(p: Parent): Parent {
    p.(finalizers := p.finalizers + [GROUP_VERSION])
  }

  function SetFinalizerEffect(c: Ctx): Ctx {
    if WantsFinalizer(c.p) then Put(Ctx(c.w, AddFinalizer(c.p))) else c
  }

  method SetFinalizer(api: ApiServer, sfp: StatefulPod)
    modifies api, sfp
    ensures Both(api, sfp) == SetFinalizerEffect(old(Both(api, sfp)))
  {
    if !sfp.deletionMarked {
      var found := MatchStringFromArray(sfp.finalizers, GROUP_VERSION);
      if !found {
        sfp.finalizers := sfp.finalizers + [GROUP_VERSION];
        var _ := ParentStore.Update(api, sfp, []);
      }
    }
  }

  // ----- deleteStatefulPod -----

  function DropFinalizer(p: Parent): Parent {
    p.(finalizers := WithoutFirst(p.finalizers, GROUP_VERSION))
  }

  /** deleteStatefulPod up to, but without, its final write. */
  function Erase(c: Ctx): (Ctx, Option<Outcome>) {
    if GROUP_VERSION !in c.p.finalizers then (c, Some(Done))
    else
      var (w1, retained) := VolumeControl.SetPVRetainEffect(c.w, c.p);
      if !retained then (Ctx(w1, c.p), Some(RequeueAfterWait))
      else
        var (w2, podsGone) := DeletePodAllEffect(w1, c.p);
        if !podsGone then (Ctx(w2, c.p), Some(RequeueAfterWait))
        else
          var (w3, claimsGone) := ClaimControl.DeletePvcAllEffect(w2, c.p);
          if !claimsGone then (Ctx(w3, c.p), Some(RequeueAfterWait))
          else
            var (w4, freed) := VolumeControl.SetPVAvailableEffect(w3, c.p);
            if !freed then (Ctx(w4, c.p), Some(RequeueAfterWait))
            else (Ctx(w4, DropFinalizer(c.p)), None)
  }

  /** The world deleteStatefulPod leaves is one that its loops left, and of the copy it takes at most
      the finalizer. */
  lemma ErasePieces(c: Ctx)
    ensures var (d, early) := Erase(c);
      var w1 := VolumeControl.SetPVRetainEffect(c.w, c.p).0; var w2 := DeletePodAllEffect(w1, c.p).0;
      var w3 := ClaimControl.DeletePvcAllEffect(w2, c.p).0; var w4 := VolumeControl.SetPVAvailableEffect(w3, c.p).0;
      && d.w in {c.w, w1, w2, w3, w4}
      && d.p == if early.None? then DropFinalizer(c.p) else c.p
  {
    hide DropFinalizer;
  }

  function DeleteEffect(c: Ctx): (Ctx, Outcome) {
    var (c1, early) := Erase(c);
    if early.Some? then (c1, early.value) else (Put(c1), Done)
  }

  method DeleteStatefulPod(api: ApiServer, sfp: StatefulPod) returns (outcome: Outcome)
    modifies api, sfp
    ensures (Both(api, sfp), outcome) == DeleteEffect(old(Both(api, sfp)))
  {
    var found := MatchStringFromArray(sfp.finalizers, GROUP_VERSION);
    if found {
      var ok := VolumeControl.SetPVRetain(api, sfp);
      if !ok {
        return RequeueAfterWait;
      }
      ok := DeletePodAll(api, sfp);
      if !ok {
        return RequeueAfterWait;
      }
      ok := ClaimControl.DeletePvcAll(api, sfp);
      if !ok {
        return RequeueAfterWait;
      }
      ok := VolumeControl.SetPVAvailable(api, sfp);
      if !ok {
        return RequeueAfterWait;
      }
      var left := RemoveString(sfp.finalizers, GROUP_VERSION);
      sfp.finalizers := left;
      var _ := ParentStore.Update(api, sfp, []);
    }
    return Done;
  }

  // ----- CoreCtrl -----

  function CoreEffect(c: Ctx): (Ctx, Outcome)
    requires |c.p.pods| == |c.p.claims|
  {
    var n := GetIndex(c.p);
    if c.p.deletionMarked && n == c.p.spec.size then DeleteEffect(c)
    else if n < c.p.spec.size then ExpansionEffect(c, n)
    else if n > c.p.spec.size then ShrinkEffect(c, n)
    else MaintainEffect(SetFinalizerEffect(c))
  }

  method CoreCtrl(api: ApiServer, sfp: StatefulPod) returns (outcome: Outcome)
    requires |sfp.podStatusMes| == |sfp.pvcStatusMes|
    modifies api, sfp
    ensures (Both(api, sfp), outcome) == CoreEffect(old(Both(api, sfp)))
  {
    var lenStatus: int := IndexOf(sfp);
    var lenSpec: int := sfp.spec.size;
    if sfp.deletionMarked && lenStatus == lenSpec {
      outcome := DeleteStatefulPod(api, sfp);
      return;
    }
    if lenStatus < lenSpec {
      outcome := Expansion(api, sfp, lenStatus);
    } else if lenStatus > lenSpec {
      outcome := Shrink(api, sfp, lenStatus);
    } else {
      SetFinalizer(api, sfp);
      outcome := Maintain(api, sfp);
    }
  }

  // ----- the Monitor wrappers -----

  function OwnerName(m: Annotations): string {
    AnnotationOr(m, PARENT_NAME)
  }

  function Ordinal(m: Annotations): int {
    StringToInt(AnnotationOr(m, INDEX))
  }

  predicate OwnerStored(w: World, m: Annotations) {
    w.stored.Some? && w.stored.value.name == OwnerName(m)
  }

  // The two lists of the stored parent, when there is one, have one length.
  predicate ListsAgree(w: World) {
    w.stored.Some? ==> |w.stored.value.pods| == |w.stored.value.claims|
  }

  /** The reconcile of a pod event: a fresh copy of the pod's parent, edited and written back. */
  function MonitorPod(w: World, pod: Pod): World
    requires ListsAgree(w)
  {
    var i := Ordinal(pod.annotations);
    if !OwnerStored(w, pod.annotations) then w
    else if i < 0 then MonitorNegativeEffect(w, w.stored.value, pod, i).0
    else
      var (c, changed) := MonitorPodEffect(Ctx(w, w.stored.value), pod, i);
      if changed then Put(c).w else c.w
  }

  /** Whether it panics on the way: a negative index is caught nowhere. */
  predicate PodEventPanics(w: World, pod: Pod) {
    var i := Ordinal(pod.annotations);
    OwnerStored(w, pod.annotations) && i < 0 && MonitorNegativeEffect(w, w.stored.value, pod, i).1
  }

  /** With a negative index it panics at its first access of the lists, or returns before any. */
  function MonitorClaim(w: World, claim: Claim): World
    requires ListsAgree(w)
  {
    var i := Ordinal(claim.annotations);
    if !OwnerStored(w, claim.annotations) || i < 0 then w
    else
      var (p, changed) := ClaimControl.MonitorClaimEffect(w.stored.value, claim, i);
      if changed then Put(Ctx(w, p)).w else w
  }

  predicate ClaimEventPanics(w: World, claim: Claim) {
    OwnerStored(w, claim.annotations) && Ordinal(claim.annotations) < 0 && (claim.terminating || claim.phase == Bound)
  }

  /** The reconcile of the parent itself, on a fresh copy. */
  function Core(w: World): World
    requires ListsAgree(w)
  {
    if w.stored.None? then w else CoreEffect(Ctx(w, w.stored.value)).0.w
  }

  method MonitorPodStatus(api: ApiServer, pod: Pod) returns (panics: bool)
    requires ListsAgree(api.View())
    modifies api
    ensures api.View() == MonitorPod(old(api.View()), pod)
    ensures panics <==> PodEventPanics(old(api.View()), pod)
  {
    if api.stored.None? || api.stored.value.name != AnnotationOr(pod.annotations, PARENT_NAME) {
      return false;
    }
    var sfp := new StatefulPod(api.stored.value);
    var index := StringToInt(AnnotationOr(pod.annotations, INDEX));
    if index < 0 {
      panics := PodControl.MonitorNegative(api, sfp, pod, index);
      return;
    }
    var changed := PodControl.MonitorPodStatus(api, sfp, pod, index);
    if changed {
      var _ := ParentStore.Update(api, sfp, []);
    }
    return false;
  }

  method MonitorPVCStatus(api: ApiServer, claim: Claim) returns (panics: bool)
    requires ListsAgree(api.View())
    modifies api
    ensures api.View() == MonitorClaim(old(api.View()), claim)
    ensures panics <==> ClaimEventPanics(old(api.View()), claim)
  {
    if api.stored.None? || api.stored.value.name != AnnotationOr(claim.annotations, PARENT_NAME) {
      return false;
    }
    var sfp := new StatefulPod(api.stored.value);
    var index := StringToInt(AnnotationOr(claim.annotations, INDEX));
    if index < 0 {
      return claim.terminating || claim.phase == Bound;
    }
    var changed := ClaimControl.MonitorPVCStatus(sfp, claim, index);
    if changed {
      var _ := ParentStore.Update(api, sfp, []);
    }
    return false;
  }
}
