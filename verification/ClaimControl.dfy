// services/pvc/pvc.go, IsPvCanUse of services/resource.go and
// controllers/statefulpod/child_resource_controller/pvc_controller/pvc.go.
module ClaimControl {
  import opened Tools
  import opened Types
  import opened Api
  import opened PodControl

  /** IsPvCanUse: an Available volume whose provisioning node is known and ready. */
  predicate IsPvCanUse(volumes: map<string, Volume>, nodes: map<string, Node>, now: int, timeout: int, name: string) {
    && name in volumes
    && volumes[name].phase == Available
    && PROVISION_ON_NODE in volumes[name].annotations
    && IsNodeReady(nodes, now, timeout, volumes[name].annotations[PROVISION_ON_NODE])
  }

  predicate HasStaticVolume(w: World, p: Parent, i: nat) {
    && i < |p.spec.volumeNames|
    && IsPvCanUse(w.volumes, w.nodes, w.now, w.nodeTimeout, p.spec.volumeNames[i])
  }

  /** CreateTemplate's edit of the shared claim template, kept by the parent's copy from then on. */
  function WithStaticVolume(w: World, p: Parent, i: nat): Parent
    requires p.spec.claimTemplate.Some?
  {
    if HasStaticVolume(w, p, i) then
      p.(spec := p.spec.(claimTemplate :=
        Some(p.spec.claimTemplate.value.(storageClass := "", volumeName := p.spec.volumeNames[i]))))
    else p
  }

  function TemplateClaim(p: Parent, i: nat): Claim
    requires p.spec.claimTemplate.Some?
  {
    var t := p.spec.claimTemplate.value;
    Claim(ClaimName(p, i), Stamp(map[], p.name, i), false, ClaimPending, t.request, t.storageClass, t.volumeName)
  }

  function PendingSlot(p: Parent, i: nat): ClaimSlot
    requires p.spec.claimTemplate.Some?
  {
    var t := p.spec.claimTemplate.value;
    ClaimSlot(IntToInt32(i), ClaimName(p, i), ClaimPending, "", t.accessModes, t.storageClass, "")
  }

  // ----- ExpansionPVC, ShrinkPVC -----

  function ExpansionPVCEffect(c: Ctx, i: nat): (r: (Ctx, Option<ClaimSlot>))
    requires c.p.spec.claimTemplate.Some?
    ensures SameSlots(r.0.p, c.p) && r.0.w.stored == c.w.stored
  {
    var p := Defaulted(c.p);
    if ClaimName(p, i) !in c.w.claims then
      var q := WithStaticVolume(c.w, p, i);
      var (w1, ok) := CreateClaimIn(c.w, TemplateClaim(q, i));
      (Ctx(w1, q), if ok then Some(PendingSlot(q, i)) else None)
    else
      (Ctx(c.w, p), if i >= |p.claims| then None else Some(p.claims[i]))
  }

  method CreateTemplate(api: ApiServer, sfp: StatefulPod, name: string, index: nat) returns (claim: Claim)
    requires sfp.spec.claimTemplate.Some?
    requires name == ClaimName(sfp.View(), index)
    modifies sfp`spec
    ensures sfp.View() == WithStaticVolume(api.View(), old(sfp.View()), index)
    ensures sfp.spec.claimTemplate.Some? && claim == TemplateClaim(sfp.View(), index)
  {
    if index < |sfp.spec.volumeNames| &&
       IsPvCanUse(api.volumes, api.nodes, api.now, api.nodeTimeout, sfp.spec.volumeNames[index])
    {
      sfp.spec := sfp.spec.(claimTemplate :=
        Some(sfp.spec.claimTemplate.value.(storageClass := "", volumeName := sfp.spec.volumeNames[index])));
    }
    var t := sfp.spec.claimTemplate.value;
    var m := map[GROUP_VERSION := "true"][PARENT_NAME := sfp.name][INDEX := Itoa(index)];
    assert m == Stamp(map[], sfp.name, index);
    claim := Claim(name, m, false, ClaimPending, t.request, t.storageClass, t.volumeName);
  }

  method ExpansionPVC(api: ApiServer, sfp: StatefulPod, index: nat) returns (slot: Option<ClaimSlot>)
    requires sfp.spec.claimTemplate.Some?
    modifies api, sfp
    ensures (Both(api, sfp), slot) == ExpansionPVCEffect(old(Both(api, sfp)), index)
  {
    var name := sfp.SetPVCName(index);
    if name !in api.claims {
      var claim := CreateTemplate(api, sfp, name, index);
      var ok := api.CreateClaim(claim);
      if !ok {
        return None;
      }
      var t := sfp.spec.claimTemplate.value;
      return Some(ClaimSlot(IntToInt32(index), name, ClaimPending, "", t.accessModes, t.storageClass, ""));
    } else if index >= |sfp.pvcStatusMes| {
      return None;
    } else {
      return Some(sfp.pvcStatusMes[index]);
    }
  }

  function ShrinkPVCEffect(c: Ctx, i: nat): (Ctx, bool) {
    var p, name := Defaulted(c.p), ClaimName(c.p, i);
    if name in c.w.claims then (Ctx(DeleteClaimIn(c.w, name).0, p), false) else (Ctx(c.w, p), true)
  }

  method ShrinkPVC(api: ApiServer, sfp: StatefulPod, index: nat) returns (gone: bool)
    modifies api, sfp`spec
    ensures (Both(api, sfp), gone) == ShrinkPVCEffect(old(Both(api, sfp)), index)
  {
    var name := sfp.SetPVCName(index);
    if name in api.claims {
      var _ := api.DeleteClaim(name);
      return false;
    }
    return true;
  }

  // ----- DeletePvcAll -----

  function DeleteClaimsFrom(w: World, slots: seq<ClaimSlot>, k: nat, sum: nat): (World, Option<nat>)
    requires k <= |slots|
    decreases |slots| - k
  {
    if k == |slots| then (w, Some(sum))
    else if slots[k].claimName in w.claims then
      var (w1, ok) := DeleteClaimIn(w, slots[k].claimName);
      if ok then DeleteClaimsFrom(w1, slots, k + 1, sum) else (w1, None)
    else DeleteClaimsFrom(w, slots, k + 1, sum + 1)
  }

  function DeletePvcAllEffect(w: World, p: Parent): (World, bool) {
    var (w1, sum) := DeleteClaimsFrom(w, p.claims, 0, 0);
    (w1, sum == Some(|p.claims|))
  }

  method DeletePvcAll(api: ApiServer, sfp: StatefulPod) returns (done: bool)
    modifies api
    ensures (api.View(), done) == DeletePvcAllEffect(old(api.View()), sfp.View())
  {
    var sum := 0;
    for k := 0 to |sfp.pvcStatusMes|
      invariant DeleteClaimsFrom(old(api.View()), sfp.pvcStatusMes, 0, 0)
        == DeleteClaimsFrom(api.View(), sfp.pvcStatusMes, k, sum)
    {
      var name := sfp.pvcStatusMes[k].claimName;
      if name in api.claims {
        var ok := api.DeleteClaim(name);
        if !ok {
          return false;
        }
      } else {
        sum := sum + 1;
      }
    }
    return sum == |sfp.pvcStatusMes|;
  }

  // ----- MonitorPVCStatus -----

  function WithClaimStatus(p: Parent, i: nat, status: ClaimPhase): Parent
    requires i < |p.claims|
  {
    p.(claims := p.claims[i := p.claims[i].(status := status)])
  }

  function BoundSlot(slot: ClaimSlot, claim: Claim): ClaimSlot {
    slot.(status := Bound, capacity := claim.request, volumeName := claim.volumeName)
  }

  function MonitorClaimEffect(p: Parent, claim: Claim, i: nat): (Parent, bool)
    requires |p.pods| == |p.claims|
  {
    if i >= |p.claims| then (p, false)
    else if claim.terminating then
      if p.claims[i].status == ClaimDeleting || p.pods[i].status == CreateTimeOut then (p, false)
      else (WithClaimStatus(p, i, ClaimDeleting), true)
    else if claim.phase == Bound && p.claims[i].status != Bound then
      (p.(claims := p.claims[i := BoundSlot(p.claims[i], claim)]), true)
    else (p, false)
  }

  method MonitorPVCStatus(sfp: StatefulPod, claim: Claim, index: nat) returns (changed: bool)
    requires |sfp.podStatusMes| == |sfp.pvcStatusMes|
    modifies sfp`pvcStatusMes
    ensures (sfp.View(), changed) == MonitorClaimEffect(old(sfp.View()), claim, index)
  {
    if index >= |sfp.pvcStatusMes| {
      return false;
    }
    var slot := sfp.pvcStatusMes[index];
    if claim.terminating {
      if slot.status == ClaimDeleting || sfp.podStatusMes[index].status == CreateTimeOut {
        return false;
      }
      sfp.pvcStatusMes := sfp.pvcStatusMes[index := slot.(status := ClaimDeleting)];
      return true;
    }
    if claim.phase == Bound {
      if slot.status == Bound {
        return false;
      }
      sfp.pvcStatusMes := sfp.pvcStatusMes[index :=
        slot.(status := Bound, capacity := claim.request, volumeName := claim.volumeName)];
      return true;
    }
    return false;
  }
}
