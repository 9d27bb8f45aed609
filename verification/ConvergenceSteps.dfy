// Every action of Convergence keeps the invariant and takes nothing further from its goal.
module ConvergenceSteps {
  import opened Tools
  import opened Types
  import opened Api
  import opened PodControl
  import opened ClaimControl
  import opened Convergence

  // ----- what changing one object or one slot leaves alone -----

  function WithPod(w: World, p: Parent, i: nat, pod: Option<Pod>): World {
    w.(pods := if pod.Some? then w.pods[PodName(p, i) := pod.value] else w.pods - {PodName(p, i)})
  }

  function WithClaim(w: World, p: Parent, i: nat, claim: Option<Claim>): World {
    w.(claims := if claim.Some? then w.claims[ClaimName(p, i) := claim.value] else w.claims - {ClaimName(p, i)})
  }

  lemma PodChanged(w: World, p: Parent, i: nat, pod: Option<Pod>, v: World)
    requires v == WithPod(w, p, i, pod).(log := v.log)
    ensures ChangedAt(w, p, v, p, i)
    ensures PodAt(v, p, i) == pod
    ensures ClaimAt(v, p, i) == ClaimAt(w, p, i)
  {
    PodNamesDistinct(p);
  }

  lemma ClaimChanged(w: World, p: Parent, i: nat, claim: Option<Claim>, v: World)
    requires v == WithClaim(w, p, i, claim).(log := v.log) && p.spec.claimTemplate.Some?
    ensures ChangedAt(w, p, v, p, i)
    ensures PodAt(v, p, i) == PodAt(w, p, i)
    ensures ClaimAt(v, p, i) == claim
  {
    ClaimNamesDistinct(p);
  }

  function Edited(p: Parent, i: nat, pod: PodSlot, claim: ClaimSlot): Parent
    requires i < |p.pods| == |p.claims|
  {
    p.(pods := p.pods[i := pod], claims := p.claims[i := claim])
  }

  lemma SlotChanged(w: World, p: Parent, i: nat, pod: PodSlot, claim: ClaimSlot)
    requires w.stored == Some(p) && !p.deletionMarked && i < |p.pods| == |p.claims|
    ensures var v := Put(Ctx(w, Edited(p, i, pod, claim))).w;
      && v.stored.Some?
      && ChangedAt(w, p, v, v.stored.value, i)
      && v.stored.value.pods[i] == pod && v.stored.value.claims[i] == claim
      && PodAt(v, v.stored.value, i) == PodAt(w, p, i)
      && ClaimAt(v, v.stored.value, i) == ClaimAt(w, p, i)
  {
    var v := Put(Ctx(w, Edited(p, i, pod, claim))).w;
    forall j: nat
      ensures PodAt(v, v.stored.value, j) == PodAt(w, p, j) && ClaimAt(v, v.stored.value, j) == ClaimAt(w, p, j)
    {
    }
  }

  lemma InRange(w: World, p: Parent, i: nat)
    requires Good(w, p) && (PodAt(w, p, i).Some? || ClaimAt(w, p, i).Some?)
    ensures i < |p.pods| && GoodSlot(w, p, i) && InLine(p, i)
  {
  }

  ghost predicate Fine(w: World, p: Parent, v: World)
    requires |p.pods| == |p.claims|
  {
    v.stored.Some? && Good(v, v.stored.value) && NoFurther(w, p, v, v.stored.value)
  }

  ghost predicate Closer(w: World, p: Parent, v: World)
    requires |p.pods| == |p.claims|
  {
    Fine(w, p, v) && Nearer(w, p, v, v.stored.value)
  }

  lemma Still(w: World, p: Parent)
    requires w.stored == Some(p) && Good(w, p)
    ensures Fine(w, p, w)
  {
  }

  // ----- the cluster's actions -----

  lemma PodStartsFine(w: World, p: Parent, i: nat)
    requires w.stored == Some(p) && Good(w, p)
    ensures Fine(w, p, PodStarted(w, p, i))
    ensures i < Kept(p) && CanStart(w, p, i) && PodWork(w, p, i) >= 2 ==> Closer(w, p, PodStarted(w, p, i))
  {
    if CanStart(w, p, i) {
      InRange(w, p, i);
      var pod := Some(ReadyPod(PodAt(w, p, i).value));
      var v := WithPod(w, p, i, pod);
      PodChanged(w, p, i, pod, v);
      OneSlot(w, p, v, p, i);
    } else {
      Still(w, p);
    }
  }

  lemma PodVanishesFine(w: World, p: Parent, i: nat)
    requires w.stored == Some(p) && Good(w, p)
    ensures Fine(w, p, PodGone(w, p, i))
    ensures (i < Kept(p) || i == |p.pods| - 1) && CanVanish(w, p, i) ==> Closer(w, p, PodGone(w, p, i))
  {
    if CanVanish(w, p, i) {
      InRange(w, p, i);
      var v := WithPod(w, p, i, None);
      PodChanged(w, p, i, None, v);
      OneSlot(w, p, v, p, i);
    } else {
      Still(w, p);
    }
  }

  lemma ClaimBindsFine(w: World, p: Parent, i: nat)
    requires w.stored == Some(p) && Good(w, p)
    ensures Fine(w, p, ClaimBound(w, p, i))
    ensures i < Kept(p) && ClaimWork(w, p, i) in {2, 3} ==> Closer(w, p, ClaimBound(w, p, i))
  {
    if ClaimAt(w, p, i).Some? && !ClaimAt(w, p, i).value.terminating {
      InRange(w, p, i);
      var claim := Some(BoundClaim(ClaimAt(w, p, i).value));
      var v := WithClaim(w, p, i, claim);
      ClaimChanged(w, p, i, claim, v);
      OneSlot(w, p, v, p, i);
    } else {
      Still(w, p);
    }
  }

  lemma ClaimVanishesFine(w: World, p: Parent, i: nat)
    requires w.stored == Some(p) && Good(w, p)
    ensures Fine(w, p, ClaimGone(w, p, i))
    ensures i < Kept(p) && ClaimWork(w, p, i) == 5 ==> Closer(w, p, ClaimGone(w, p, i))
    ensures i == |p.pods| - 1 && TailClaim(w, p) == 1 ==> Closer(w, p, ClaimGone(w, p, i))
  {
    if ClaimAt(w, p, i).Some? && ClaimAt(w, p, i).value.terminating {
      InRange(w, p, i);
      var v := WithClaim(w, p, i, None);
      ClaimChanged(w, p, i, None, v);
      OneSlot(w, p, v, p, i);
    } else {
      Still(w, p);
    }
  }

  lemma TimePassesFine(w: World, p: Parent, d: nat)
    requires w.stored == Some(p) && Good(w, p)
    ensures Fine(w, p, Later(w, p, d))
  {
    var v := Later(w, p, d);
    forall i: nat ensures PodAt(v, p, i) == PodAt(w, p, i) && ClaimAt(v, p, i) == ClaimAt(w, p, i) {
    }
    forall i | 0 <= i < |p.pods| ensures GoodSlot(v, p, i) {
      assert GoodSlot(w, p, i);
    }
  }

  // ----- pod and claim reconciles -----

  lemma InRangeSlot(w: World, p: Parent, i: nat)
    requires Good(w, p) && i < |p.pods|
    ensures GoodSlot(w, p, i) && InLine(p, i)
  {
  }

  /** A record of pod i that costs no more than the old one. */
  lemma PodRecorded(w: World, p: Parent, i: nat, slot: PodSlot)
    requires w.stored == Some(p) && Good(w, p) && i < |p.pods|
    requires slot.index == p.pods[i].index && slot.podName == p.pods[i].podName
    requires slot.status != CreateTimeOut
    requires PodCost(PodAt(w, p, i), slot.status) <= PodWork(w, p, i)
    ensures var v := Put(Ctx(w, Edited(p, i, slot, p.claims[i]))).w;
      && Fine(w, p, v)
      && (i < Kept(p) && PodCost(PodAt(w, p, i), slot.status) < PodWork(w, p, i) ==> Closer(w, p, v))
  {
    hide StringToInt, Dashed, IsNodeReady, PodRunning, PodCost, ClaimCost, IntToInt32;
    InRangeSlot(w, p, i);
    SlotChanged(w, p, i, slot, p.claims[i]);
    var v := Put(Ctx(w, Edited(p, i, slot, p.claims[i]))).w;
    OneSlot(w, p, v, v.stored.value, i);
  }

  lemma PodReconcilesFine(w: World, p: Parent, i: nat)
    requires w.stored == Some(p) && Good(w, p)
    ensures Fine(w, p, PodReconciled(w, p, i))
    ensures i < Kept(p) && PodWork(w, p, i) == 1 ==> Closer(w, p, PodReconciled(w, p, i))
  {
    assert |p.pods| == |p.claims|;
    hide NodeLostEffect, TimedOutEffect, StringToInt, Dashed, Fine, Closer, SlotsInLine, ClaimsInLine, ClaimCost;
    var pod := PodAt(w, p, i);
    if pod.Some? {
      InRange(w, p, i);
      var (c, changed) := MonitorPodEffect(Ctx(w, p), pod.value, i);
      if changed {
        assert c == Ctx(w, Edited(p, i, c.p.pods[i], p.claims[i]));
        PodRecorded(w, p, i, c.p.pods[i]);
      } else {
        Still(w, p);
      }
    } else {
      Still(w, p);
    }
  }

  /** A record of claim i that costs no more than the old one. */
  lemma ClaimRecorded(w: World, p: Parent, i: nat, slot: ClaimSlot)
    requires w.stored == Some(p) && Good(w, p) && i < |p.pods|
    requires slot.index == p.claims[i].index && slot.claimName == p.claims[i].claimName
    requires slot.status != ClaimPending
    requires ClaimCost(p.spec.claimTemplate.Some?, ClaimAt(w, p, i), slot.status) <= ClaimWork(w, p, i)
    ensures var v := Put(Ctx(w, Edited(p, i, p.pods[i], slot))).w;
      && Fine(w, p, v)
      && (i < Kept(p) && ClaimCost(p.spec.claimTemplate.Some?, ClaimAt(w, p, i), slot.status) < ClaimWork(w, p, i) ==>
            Closer(w, p, v))
  {
    hide StringToInt, Dashed, IsNodeReady, PodRunning, PodCost, ClaimCost, IntToInt32;
    InRangeSlot(w, p, i);
    SlotChanged(w, p, i, p.pods[i], slot);
    var v := Put(Ctx(w, Edited(p, i, p.pods[i], slot))).w;
    OneSlot(w, p, v, v.stored.value, i);
  }

  lemma ClaimReconcilesFine(w: World, p: Parent, i: nat)
    requires w.stored == Some(p) && Good(w, p)
    ensures Fine(w, p, ClaimReconciled(w, p, i))
    ensures i < Kept(p) && ClaimWork(w, p, i) == 1 ==> Closer(w, p, ClaimReconciled(w, p, i))
  {
    assert |p.pods| == |p.claims|;
    hide StringToInt, Dashed, PodCost, IntToInt32, Fine, Closer, SlotsInLine, ClaimsInLine;
    var claim := ClaimAt(w, p, i);
    if claim.Some? {
      InRange(w, p, i);
      var (q, changed) := MonitorClaimEffect(p, claim.value, i);
      if changed {
        assert q == Edited(p, i, p.pods[i], q.claims[i]);
        ClaimRecorded(w, p, i, q.claims[i]);
      } else {
        Still(w, p);
      }
    } else {
      Still(w, p);
    }
  }
}
