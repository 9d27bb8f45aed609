// services/resource.go, services/pod/pod.go and
// controllers/statefulpod/child_resource_controller/pod_controller/pod.go.
module PodControl {
  import opened Tools
  import opened Types
  import opened Api

  // ----- readiness -----

  predicate IsNodeReady(nodes: map<string, Node>, now: int, timeout: int, name: string) {
    name != "" ==>
      name in nodes && (nodes[name].lastIsTrue || now - nodes[name].lastTransition < timeout)
  }

  predicate NodeReadyIn(w: World, name: string) {
    IsNodeReady(w.nodes, w.now, w.nodeTimeout, name)
  }

  predicate PodRunning(pod: Pod) {
    pod.phase == Running &&
    forall k :: 0 <= k < |pod.conditions| && pod.conditions[k].isReadyType ==> pod.conditions[k].isTrue
  }

  method IsPodRunning(pod: Pod) returns (ok: bool)
    ensures ok <==> PodRunning(pod)
  {
    if pod.phase != Running {
      return false;
    }
    for k := 0 to |pod.conditions|
      invariant forall j :: 0 <= j < k && pod.conditions[j].isReadyType ==> pod.conditions[j].isTrue
    {
      if pod.conditions[k].isReadyType && !pod.conditions[k].isTrue {
        return false;
      }
    }
    return true;
  }

  predicate Overdue(w: World, pod: Pod) {
    w.now - pod.created >= w.podTimeout
  }

  // ----- the pod template -----

  /** The three identity annotations every created pod carries. */
  function Stamp(m: Annotations, parent: string, i: nat): Annotations {
    m[GROUP_VERSION := "true"][PARENT_NAME := parent][INDEX := Itoa(i)]
  }

  /** What building pod i does to the parent's copy: the pod's annotations are the parent's own map
      (when there is one), and SetPVCName defaults the template's claim name. */
  function TemplateParent(p: Parent, i: nat): Parent {
    var q := p.(annotations :=
                  if p.annotations.Some? then Some(Stamp(p.annotations.value, p.name, i)) else None);
    if p.spec.claimTemplate.Some? then Defaulted(q) else q
  }

  function TemplatePod(now: int, p: Parent, i: nat): Pod {
    Pod(PodName(p, i), 0,
        Stamp(if p.annotations.Some? then p.annotations.value else map[], p.name, i),
        false, PodPending, [], "", now,
        if p.spec.claimTemplate.Some? then ClaimName(p, i) else p.spec.claimName)
  }

  method CreateTemplate(api: ApiServer, sfp: StatefulPod, index: nat) returns (pod: Pod)
    modifies sfp
    ensures pod == TemplatePod(api.now, old(sfp.View()), index)
    ensures sfp.View() == TemplateParent(old(sfp.View()), index)
  {
    var m := if sfp.annotations.Some? then sfp.annotations.value else map[];
    m := m[GROUP_VERSION := "true"][PARENT_NAME := sfp.name][INDEX := Itoa(index)];
    if sfp.annotations.Some? {
      sfp.annotations := Some(m);
    }
    var claim := sfp.spec.claimName;
    if sfp.spec.claimTemplate.Some? {
      claim := sfp.SetPVCName(index);
    }
    pod := Pod(Dashed(sfp.name, index), 0, m, false, PodPending, [], "", api.now, claim);
  }

  // ----- ExpansionPod, ShrinkPod -----

  /** Equal in what building objects may not change: all but the slots, the annotations, the
      static volume put into the claim template, and the claim name's default. */
  predicate SameHead(p: Parent, q: Parent) {
    && p.name == q.name
    && p.finalizers == q.finalizers && p.deletionMarked == q.deletionMarked
    && p.spec.size == q.spec.size && p.spec.policy == q.spec.policy
    && p.spec.hasService == q.spec.hasService
    && p.spec.claimTemplate.Some? == q.spec.claimTemplate.Some?
    && ClaimBase(p) == ClaimBase(q)
  }

  predicate SameSlots(p: Parent, q: Parent) {
    SameHead(p, q) && p.pods == q.pods && p.claims == q.claims
  }

  function ExpansionPodEffect(c: Ctx, i: nat): (r: (Ctx, Option<PodSlot>))
    ensures SameSlots(r.0.p, c.p) && r.0.w.stored == c.w.stored
  {
    if PodName(c.p, i) !in c.w.pods then
      var (w1, ok) := CreatePodIn(c.w, TemplatePod(c.w.now, c.p, i));
      (Ctx(w1, TemplateParent(c.p, i)),
       if ok then Some(PodSlot(PodName(c.p, i), Preparing, IntToInt32(i), "")) else None)
    else
      (c, if i >= |c.p.pods| then None else Some(c.p.pods[i]))
  }

  method ExpansionPod(api: ApiServer, sfp: StatefulPod, index: nat) returns (slot: Option<PodSlot>)
    modifies api, sfp
    ensures (Both(api, sfp), slot) == ExpansionPodEffect(old(Both(api, sfp)), index)
  {
    var podName := Dashed(sfp.name, index);
    if podName !in api.pods {
      var pod := CreateTemplate(api, sfp, index);
      var ok := api.CreatePod(pod);
      if !ok {
        return None;
      }
      return Some(PodSlot(podName, Preparing, IntToInt32(index), ""));
    } else if index >= |sfp.podStatusMes| {
      return None;
    } else {
      return Some(sfp.podStatusMes[index]);
    }
  }

  function ShrinkPodEffect(w: World, p: Parent, i: nat): (World, bool) {
    if PodName(p, i) in w.pods then (DeletePodIn(w, PodName(p, i)).0, false) else (w, true)
  }

  method ShrinkPod(api: ApiServer, sfp: StatefulPod, index: nat) returns (gone: bool)
    modifies api
    ensures (api.View(), gone) == ShrinkPodEffect(old(api.View()), sfp.View(), index)
  {
    var podName := Dashed(sfp.name, index);
    if podName in api.pods {
      var _ := api.DeletePod(podName);
      return false;
    }
    return true;
  }

  // ----- DeletePodAll -----

  /** The deletes issued for the slots from k on: the world after them, and `sum` plus the number
      of absent pods, or None when a delete failed and the loop returned. */
  function DeletePodsFrom(w: World, slots: seq<PodSlot>, k: nat, sum: nat): (World, Option<nat>)
    requires k <= |slots|
    decreases |slots| - k
  {
    if k == |slots| then (w, Some(sum))
    else if slots[k].podName in w.pods then
      var (w1, ok) := DeletePodIn(w, slots[k].podName);
      if ok then DeletePodsFrom(w1, slots, k + 1, sum) else (w1, None)
    else DeletePodsFrom(w, slots, k + 1, sum + 1)
  }

  function DeletePodAllEffect(w: World, p: Parent): (World, bool) {
    var (w1, sum) := DeletePodsFrom(w, p.pods, 0, 0);
    (w1, sum == Some(|p.claims|))
  }

  method DeletePodAll(api: ApiServer, sfp: StatefulPod) returns (done: bool)
    modifies api
    ensures (api.View(), done) == DeletePodAllEffect(old(api.View()), sfp.View())
  {
    var sum := 0;
    for k := 0 to |sfp.podStatusMes|
      invariant DeletePodsFrom(old(api.View()), sfp.podStatusMes, 0, 0)
        == DeletePodsFrom(api.View(), sfp.podStatusMes, k, sum)
    {
      var podName := sfp.podStatusMes[k].podName;
      if podName in api.pods {
        var ok := api.DeletePod(podName);
        if !ok {
          return false;
        }
      } else {
        sum := sum + 1;
      }
    }
    return sum == |sfp.pvcStatusMes|;
  }

  // ----- MaintainPod, PodIsOk -----

  predicate NeedsPod(w: World, slot: PodSlot) {
    slot.status == Deleting && slot.podName !in w.pods
  }

  /** Slot k is out of step with its pod: the pod is gone, or runs without the slot saying so. */
  predicate OutOfStep(w: World, slot: PodSlot) {
    if slot.podName !in w.pods then true
    else w.pods[slot.podName].phase == Running && slot.status != Running
  }

  /** The least slot number from k on that satisfies the test, or None. */
  function FirstFrom(test: PodSlot -> bool, slots: seq<PodSlot>, k: nat): (r: Option<nat>)
    requires k <= |slots|
    ensures r.None? ==> forall j :: k <= j < |slots| ==> !test(slots[j])
    ensures r.Some? ==> k <= r.value < |slots| && test(slots[r.value])
    ensures r.Some? ==> forall j :: k <= j < r.value ==> !test(slots[j])
    decreases |slots| - k
  {
    if k == |slots| then None
    else if test(slots[k]) then Some(k)
    else FirstFrom(test, slots, k + 1)
  }

  function FirstNeedingPod(w: World, slots: seq<PodSlot>): Option<nat> {
    FirstFrom((s: PodSlot) => NeedsPod(w, s), slots, 0)
  }

  method MaintainPod(api: ApiServer, sfp: StatefulPod) returns (index: Option<nat>)
    ensures index == FirstNeedingPod(api.View(), sfp.podStatusMes)
  {
    for i := 0 to |sfp.podStatusMes|
      invariant forall j :: 0 <= j < i ==> !NeedsPod(api.View(), sfp.podStatusMes[j])
    {
      if sfp.podStatusMes[i].status == Deleting && sfp.podStatusMes[i].podName !in api.pods {
        assert NeedsPod(api.View(), sfp.podStatusMes[i]);
        return Some(i);
      }
    }
    return None;
  }

  function FirstOutOfStep(w: World, slots: seq<PodSlot>): Option<nat> {
    FirstFrom((s: PodSlot) => OutOfStep(w, s), slots, 0)
  }

  function WithStatus(p: Parent, i: nat, status: PodPhase): Parent
    requires i < |p.pods|
  {
    p.(pods := p.pods[i := p.pods[i].(status := status)])
  }

  function PodIsOkEffect(w: World, p: Parent): (Parent, Option<nat>) {
    var first := FirstOutOfStep(w, p.pods);
    if first.None? then (p, None)
    else (WithStatus(p, first.value,
            if p.pods[first.value].podName in w.pods then Running else Deleting), first)
  }

  method PodIsOk(api: ApiServer, sfp: StatefulPod) returns (index: Option<nat>)
    modifies sfp`podStatusMes
    ensures (sfp.View(), index) == PodIsOkEffect(api.View(), old(sfp.View()))
  {
    for i := 0 to |sfp.podStatusMes|
      invariant sfp.View() == old(sfp.View())
      invariant forall j :: 0 <= j < i ==> !OutOfStep(api.View(), sfp.podStatusMes[j])
    {
      var slot := sfp.podStatusMes[i];
      if slot.podName !in api.pods {
        assert OutOfStep(api.View(), slot);
        sfp.podStatusMes := sfp.podStatusMes[i := slot.(status := Deleting)];
        return Some(i);
      } else if api.pods[slot.podName].phase == Running && slot.status != Running {
        assert OutOfStep(api.View(), slot);
        sfp.podStatusMes := sfp.podStatusMes[i := slot.(status := Running)];
        return Some(i);
      }
    }
    return None;
  }

  // ----- DeleteMandatory and its webhook handshake -----

  predicate Unmarked(pod: Pod) {
    COCKROACH_DB in pod.annotations && NODE_UNHEALTHY !in pod.annotations
  }

  function DeletePodMandatoryEffect(w: World, pod: Pod): (World, bool) {
    if Unmarked(pod) then
      (UpdatePodIn(w, pod.(annotations := pod.annotations[NODE_UNHEALTHY := "true"])).0, false)
    else ForceDeletePodIn(w, pod.name)
  }

  method DeletePodMandatory(api: ApiServer, pod: Pod) returns (ok: bool)
    modifies api
    ensures (api.View(), ok) == DeletePodMandatoryEffect(old(api.View()), pod)
  {
    if COCKROACH_DB in pod.annotations {
      if NODE_UNHEALTHY !in pod.annotations {
        var _ := api.UpdatePod(pod.(annotations := pod.annotations[NODE_UNHEALTHY := "true"]));
        return false;
      }
    }
    ok := api.ForceDeletePod(pod.name);
  }

  // ----- MonitorPodStatus -----

  /** The failing calls still ahead: each failed call uses one up. */
  function FaultsAhead(faults: set<nat>, calls: nat): set<nat> {
    set n | n in faults && n >= calls
  }

  /** The DELETEPVC loop: deletes are repeated until one succeeds. */
  function DeleteClaimUntilDone(w: World, name: string): World
    decreases FaultsAhead(w.faults, |w.log|)
  {
    var (w1, ok) := DeleteClaimIn(w, name);
    if ok then w1
    else
      assert |w.log| in FaultsAhead(w.faults, |w.log|) - FaultsAhead(w.faults, |w1.log|);
      DeleteClaimUntilDone(w1, name)
  }

  method DeleteClaimInsistently(api: ApiServer, name: string)
    modifies api
    ensures api.View() == DeleteClaimUntilDone(old(api.View()), name)
  {
    while true
      invariant DeleteClaimUntilDone(old(api.View()), name) == DeleteClaimUntilDone(api.View(), name)
      decreases FaultsAhead(api.faults, |api.log|)
    {
      ghost var calls := |api.log|;
      var ok := api.DeleteClaim(name);
      if ok {
        return;
      }
      assert calls in FaultsAhead(api.faults, calls) - FaultsAhead(api.faults, |api.log|);
    }
  }

  function BothDeleting(p: Parent, i: nat): Parent
    requires i < |p.pods| && i < |p.claims|
  {
    p.(pods := p.pods[i := p.pods[i].(status := Deleting)],
       claims := p.claims[i := p.claims[i].(status := ClaimDeleting)])
  }

  function Truncated(p: Parent, n: nat): Parent
    requires n <= |p.pods| && n <= |p.claims|
  {
    p.(pods := p.pods[..n], claims := p.claims[..n])
  }

  /** The branch for a pod whose node is lost. */
  function NodeLostEffect(c: Ctx, pod: Pod, i: nat): (Ctx, bool)
    requires i < |c.p.pods| == |c.p.claims|
  {
    var (w1, ok) := DeletePodMandatoryEffect(c.w, pod);
    if !ok then (Ctx(w1, c.p), false)
    else if c.p.spec.claimTemplate.None? then (Ctx(w1, BothDeleting(c.p, i)), true)
    else
      var q, name := Defaulted(c.p), ClaimName(c.p, i);
      if name !in w1.claims then (Ctx(w1, BothDeleting(q, i)), true)
      else
        var (w2, ok2) := ForceDeleteClaimIn(w1, name);
        if ok2 then (Ctx(w2, BothDeleting(q, i)), true) else (Ctx(w2, q), false)
  }

  /** The branch for a slot already marked CreateTimeOut whose pod still does not run. */
  function TimedOutEffect(c: Ctx, pod: Pod, i: nat): (Ctx, bool)
    requires i < |c.p.pods| == |c.p.claims|
  {
    var (w1, ok) := DeletePodIn(c.w, pod.name);
    if !ok then (Ctx(w1, c.p), false)
    else
      var q := if c.p.spec.claimTemplate.Some? then Defaulted(c.p) else c.p;
      var w2 := if c.p.spec.claimTemplate.Some? && ClaimName(c.p, i) in w1.claims
                then DeleteClaimUntilDone(w1, ClaimName(c.p, i)) else w1;
      (Ctx(w2, if i == |q.pods| - 1 then Truncated(q, i) else BothDeleting(q, i)), true)
  }

  function RunningSlot(slot: PodSlot, pod: Pod): PodSlot {
    slot.(podName := pod.name, status := Running, nodeName := pod.nodeName)
  }

  function MonitorPodEffect(c: Ctx, pod: Pod, i: nat): (Ctx, bool)
    requires |c.p.pods| == |c.p.claims|
  {
    if i >= |c.p.pods| then (c, false)
    else
      var status := c.p.pods[i].status;
      if pod.terminating then
        if status == Deleting || status == CreateTimeOut then (c, false)
        else (Ctx(c.w, WithStatus(c.p, i, Deleting)), true)
      else if !NodeReadyIn(c.w, pod.nodeName) then NodeLostEffect(c, pod, i)
      else if PodRunning(pod) then
        if status == Running then (c, false)
        else (Ctx(c.w, c.p.(pods := c.p.pods[i := RunningSlot(c.p.pods[i], pod)])), true)
      else if status == CreateTimeOut then TimedOutEffect(c, pod, i)
      else if Overdue(c.w, pod) then (Ctx(c.w, WithStatus(c.p, i, CreateTimeOut)), true)
      else (c, false)
  }

  method MonitorPodStatus(api: ApiServer, sfp: StatefulPod, pod: Pod, index: nat) returns (changed: bool)
    requires |sfp.podStatusMes| == |sfp.pvcStatusMes|
    modifies api, sfp
    ensures (Both(api, sfp), changed) == MonitorPodEffect(old(Both(api, sfp)), pod, index)
  {
    hide DeletePodMandatoryEffect, DeleteClaimUntilDone, Numeral, PodRunning, IsNodeReady;
    if index >= |sfp.podStatusMes| {
      return false;
    }
    var slot := sfp.podStatusMes[index];
    if pod.terminating {
      if slot.status == Deleting || slot.status == CreateTimeOut {
        return false;
      }
      sfp.podStatusMes := sfp.podStatusMes[index := slot.(status := Deleting)];
      return true;
    }
    if !IsNodeReady(api.nodes, api.now, api.nodeTimeout, pod.nodeName) {
      var ok := DeletePodMandatory(api, pod);
      if !ok {
        return false;
      }
      if sfp.spec.claimTemplate.Some? {
        var claim := sfp.SetPVCName(index);
        if claim in api.claims {
          ok := api.ForceDeleteClaim(claim);
          if !ok {
            return false;
          }
        }
      }
      sfp.podStatusMes := sfp.podStatusMes[index := slot.(status := Deleting)];
      sfp.pvcStatusMes := sfp.pvcStatusMes[index := sfp.pvcStatusMes[index].(status := ClaimDeleting)];
      return true;
    }
    var running := IsPodRunning(pod);
    if running {
      if slot.status == Running {
        return false;
      }
      sfp.podStatusMes := sfp.podStatusMes[index :=
        slot.(podName := pod.name, status := Running, nodeName := pod.nodeName)];
      return true;
    }
    if slot.status == CreateTimeOut {
      var ok := api.DeletePod(pod.name);
      if !ok {
        return false;
      }
      if sfp.spec.claimTemplate.Some? {
        var claim := sfp.SetPVCName(index);
        if claim in api.claims {
          DeleteClaimInsistently(api, claim);
        }
      }
      if index == |sfp.podStatusMes| - 1 {
        sfp.podStatusMes := sfp.podStatusMes[..index];
        sfp.pvcStatusMes := sfp.pvcStatusMes[..index];
      } else {
        sfp.podStatusMes := sfp.podStatusMes[index := slot.(status := Deleting)];
        sfp.pvcStatusMes := sfp.pvcStatusMes[index := sfp.pvcStatusMes[index].(status := ClaimDeleting)];
      }
      return true;
    }
    if api.now - pod.created >= api.podTimeout {
      sfp.podStatusMes := sfp.podStatusMes[index := slot.(status := CreateTimeOut)];
      return true;
    }
    return false;
  }

  // ----- a pod whose index annotation parses to a negative number -----

  function NegativeClaimName(p: Parent, i: int): string {
    ClaimBase(p) + "-" + p.name + "-" + Itoa(i)
  }

  /** What MonitorPodStatus does with a negative index, and whether it then panics at an access of the lists. */
  function MonitorNegativeEffect(w: World, p: Parent, pod: Pod, i: int): (World, bool) {
    if pod.terminating || NodeReadyIn(w, pod.nodeName) then (w, true)
    else
      var (w1, ok) := DeletePodMandatoryEffect(w, pod);
      if !ok then (w1, false)
      else if p.spec.claimTemplate.Some? && NegativeClaimName(p, i) in w1.claims then
        ForceDeleteClaimIn(w1, NegativeClaimName(p, i))
      else (w1, true)
  }

  method MonitorNegative(api: ApiServer, sfp: StatefulPod, pod: Pod, index: int) returns (panics: bool)
    requires index < 0
    modifies api
    ensures (api.View(), panics) == MonitorNegativeEffect(old(api.View()), sfp.View(), pod, index)
  {
    if pod.terminating || IsNodeReady(api.nodes, api.now, api.nodeTimeout, pod.nodeName) {
      return true;
    }
    var ok := DeletePodMandatory(api, pod);
    if !ok {
      return false;
    }
    if sfp.spec.claimTemplate.Some? {
      var base := if sfp.spec.claimName == "" then "data" else sfp.spec.claimName;
      var claim := base + "-" + sfp.name + "-" + Itoa(index);
      if claim in api.claims {
        ok := api.ForceDeleteClaim(claim);
        return ok;
      }
    }
    return true;
  }
}
