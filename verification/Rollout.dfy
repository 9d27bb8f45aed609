// Ordered rollout over whole runs: from a new object, at any time every slot but the last is Running
// with its claim Bound (or none by design), so at most one slot is in flight.
module Rollout {
  import opened Types
  import opened Api
  import opened PodControl
  import opened ClaimControl
  import opened Controller
  import opened Convergence
  import opened ConvergenceSteps
  import opened ConvergenceCore
  import opened ConvergenceTheorem
  import opened FairRuns

  predicate Live(w: World, p: Parent, i: nat) {
    var pod, claim := PodAt(w, p, i), ClaimAt(w, p, i);
    && pod.Some? && !pod.value.terminating
    && (p.spec.claimTemplate.Some? ==> claim.Some? && !claim.value.terminating)
  }

  predicate Done(p: Parent, i: nat)
    requires i < |p.pods| == |p.claims|
  {
    p.pods[i].status == Running && (p.spec.claimTemplate.Some? ==> p.claims[i].status == Bound)
  }

  predicate InStep(w: World, p: Parent, i: nat)
    requires i < |p.pods| == |p.claims|
  {
    && Live(w, p, i)
    && p.pods[i].status in {Preparing, Running}
    && (p.spec.claimTemplate.Some? ==> p.claims[i].status in {ClaimPending, Bound})
    && (i < |p.pods| - 1 ==> Done(p, i))
  }

  ghost predicate InOrder(w: World, p: Parent) {
    && Good(w, p) && |p.pods| <= p.spec.size
    && forall i :: 0 <= i < |p.pods| ==> InStep(w, p, i)
  }

  /** One slot changed, for the better. */
  lemma StaysInOrder(w: World, p: Parent, v: World, q: Parent, i: nat)
    requires InOrder(w, p) && Good(v, q) && ChangedAt(w, p, v, q, i)
    requires i < |p.pods| ==> InStep(v, q, i)
    ensures InOrder(v, q)
  {
    forall j | 0 <= j < |q.pods| ensures InStep(v, q, j) {
      assert InStep(w, p, j);
    }
  }

  lemma ClusterInOrder(w: World, p: Parent, i: nat)
    requires w.stored == Some(p) && InOrder(w, p)
    ensures InOrder(PodStarted(w, p, i), p) && InOrder(ClaimBound(w, p, i), p)
    ensures PodGone(w, p, i) == w && ClaimGone(w, p, i) == w
  {
    PodStartsFine(w, p, i);
    ClaimBindsFine(w, p, i);
    if PodAt(w, p, i).Some? || ClaimAt(w, p, i).Some? {
      InRange(w, p, i);
      assert InStep(w, p, i);
    }
    if CanStart(w, p, i) {
      PodChanged(w, p, i, Some(ReadyPod(PodAt(w, p, i).value)), PodStarted(w, p, i));
      StaysInOrder(w, p, PodStarted(w, p, i), p, i);
    }
    if ClaimAt(w, p, i).Some? {
      ClaimChanged(w, p, i, Some(BoundClaim(ClaimAt(w, p, i).value)), ClaimBound(w, p, i));
      StaysInOrder(w, p, ClaimBound(w, p, i), p, i);
    }
  }

  lemma TimeInOrder(w: World, p: Parent, d: nat)
    requires w.stored == Some(p) && InOrder(w, p)
    ensures InOrder(Later(w, p, d), p)
  {
    TimePassesFine(w, p, d);
    var v := Later(w, p, d);
    forall i | 0 <= i < |p.pods| ensures InStep(v, p, i) {
      assert InStep(w, p, i);
    }
  }

  lemma PodEventInOrder(w: World, p: Parent, i: nat)
    requires w.stored == Some(p) && InOrder(w, p)
    ensures var v := PodReconciled(w, p, i); v.stored.Some? && InOrder(v, v.stored.value)
  {
    PodReconcilesFine(w, p, i);
    if PodAt(w, p, i).Some? {
      InRange(w, p, i);
      assert InStep(w, p, i);
      var (c, changed) := MonitorPodEffect(Ctx(w, p), PodAt(w, p, i).value, i);
      if changed {
        assert p.claims[i := p.claims[i]] == p.claims;
        assert c == Ctx(w, Edited(p, i, c.p.pods[i], p.claims[i]));
        SlotChanged(w, p, i, c.p.pods[i], p.claims[i]);
        StaysInOrder(w, p, Put(c).w, Put(c).w.stored.value, i);
      }
    }
  }

  lemma ClaimEventInOrder(w: World, p: Parent, i: nat)
    requires w.stored == Some(p) && InOrder(w, p)
    ensures var v := ClaimReconciled(w, p, i); v.stored.Some? && InOrder(v, v.stored.value)
  {
    ClaimReconcilesFine(w, p, i);
    if ClaimAt(w, p, i).Some? {
      InRange(w, p, i);
      assert InStep(w, p, i);
      var (q, changed) := MonitorClaimEffect(p, ClaimAt(w, p, i).value, i);
      if changed {
        assert p.pods[i := p.pods[i]] == p.pods;
        assert q == Edited(p, i, p.pods[i], q.claims[i]);
        SlotChanged(w, p, i, p.pods[i], q.claims[i]);
        var v := Put(Ctx(w, q)).w;
        StaysInOrder(w, p, v, v.stored.value, i);
      }
    }
  }

  // ----- the parent's reconcile -----

  lemma RegrowInOrder(w: World, p: Parent, i: nat)
    requires w.stored == Some(p) && InOrder(w, p) && ServiceReady(w, p, i) && i < |p.pods|
    ensures var d := ExpansionEffect(Ctx(w, p), i).0; d.w.stored == Some(d.p) && InOrder(d.w, d.p)
  {
    RegrowFine(w, p, i);
    GrowShape(Ctx(w, p), i);
    GrowWritten(Ctx(w, p), i);
    var d := ExpansionEffect(Ctx(w, p), i).0;
    assert InStep(w, p, i);
    StaysInOrder(w, p, d.w, d.p, i);
  }

  lemma OldSlotsInStep(w: World, p: Parent, v: World, q: Parent)
    requires InOrder(w, p) && OneMore(w, p, v, q)
    requires |p.pods| > 0 ==> Done(p, |p.pods| - 1)
    ensures forall j :: 0 <= j < |p.pods| ==> InStep(v, q, j)
  {
    forall j | 0 <= j < |p.pods| ensures InStep(v, q, j) {
      assert InStep(w, p, j) && Done(p, j);
    }
  }

  lemma NewSlotInStep(w: World, p: Parent, v: World, q: Parent, n: nat)
    requires PodAt(w, p, n).None? && ClaimAt(w, p, n).None? && SameElsewhere(w, p, v, q, n)
    requires |q.pods| == |q.claims| == n + 1
    requires PodAt(v, q, n) == NewPod(w, p, n) && q.pods[n] == NewPodSlot(w, p, n)
    requires NewClaim(w, p, n, ClaimAt(v, q, n), q.claims[n])
    ensures InStep(v, q, n)
  {
  }

  lemma AppendInOrder(w: World, p: Parent)
    requires w.stored == Some(p) && InOrder(w, p) && ServiceReady(w, p, |p.pods|) && |p.pods| < p.spec.size
    requires |p.pods| > 0 ==> Done(p, |p.pods| - 1)
    ensures var d := ExpansionEffect(Ctx(w, p), |p.pods|).0; d.w.stored == Some(d.p) && InOrder(d.w, d.p)
  {
    hide ExpansionEffect, InStep, NewPod, NewPodSlot, NewClaim, GoodSlot;
    AppendAdvances(w, p);
    Appended(w, p);
    var d := ExpansionEffect(Ctx(w, p), |p.pods|).0;
    NewSlotInStep(w, p, d.w, d.p, |p.pods|);
    OldSlotsInStep(w, p, d.w, d.p);
  }

  lemma ServiceInOrder(w: World, p: Parent)
    requires w.stored == Some(p) && InOrder(w, p) && !ServiceReady(w, p, 0)
    ensures var v := ExpansionEffect(Ctx(w, p), 0).0.w; v.stored == Some(p) && InOrder(v, p)
  {
    ServiceFirst(w, p);
    var v := ExpansionEffect(Ctx(w, p), 0).0.w;
    assert v == w.(services := w.services + {ServiceName(p)}, log := v.log);
    forall j | 0 <= j < |p.pods| ensures InStep(v, p, j) {
      assert InStep(w, p, j);
    }
  }

  lemma ExpansionInOrder(w: World, p: Parent)
    requires w.stored == Some(p) && InOrder(w, p) && GetIndex(p) < p.spec.size
    ensures var v := ExpansionEffect(Ctx(w, p), GetIndex(p)).0.w; v.stored.Some? && InOrder(v, v.stored.value)
  {
    var i := GetIndex(p);
    if |p.pods| > 0 {
      assert InStep(w, p, |p.pods| - 1);
    }
    if !ServiceReady(w, p, i) {
      ServiceInOrder(w, p);
    } else if i < |p.pods| {
      RegrowInOrder(w, p, i);
    } else {
      AppendInOrder(w, p);
    }
  }

  lemma MarkInOrder(w: World, p: Parent)
    requires w.stored == Some(p) && InOrder(w, p) && |p.pods| == p.spec.size
    ensures var c := MarkEffect(Ctx(w, p)); c.w.stored == Some(c.p) && InOrder(c.w, c.p)
  {
    MarkFine(w, p);
    var first := FirstOutOfStep(w, p.pods);
    if first.Some? {
      var i, c := first.value, MarkEffect(Ctx(w, p));
      assert InStep(w, p, i) && InLine(p, i);
      assert p.claims[i := p.claims[i]] == p.claims;
      assert c == Put(Ctx(w, Edited(p, i, c.p.pods[i], p.claims[i])));
      SlotChanged(w, p, i, c.p.pods[i], p.claims[i]);
      StaysInOrder(w, p, c.w, c.p, i);
    }
  }

  lemma MaintainInOrder(w: World, p: Parent)
    requires w.stored == Some(p) && InOrder(w, p) && |p.pods| == p.spec.size
    ensures var v := MaintainEffect(Ctx(w, p)).0.w; v.stored.Some? && InOrder(v, v.stored.value)
  {
    MarkInOrder(w, p);
    var c := MarkEffect(Ctx(w, p));
    forall i | 0 <= i < |c.p.pods| ensures c.p.pods[i].status != Deleting {
      assert InStep(c.w, c.p, i);
    }
    assert FirstNeedingPod(c.w, c.p.pods).None?;
  }

  lemma CoreInOrder(w: World, p: Parent)
    requires w.stored == Some(p) && InOrder(w, p)
    ensures Core(w).stored.Some? && InOrder(Core(w), Core(w).stored.value)
  {
    if GetIndex(p) < p.spec.size {
      ExpansionInOrder(w, p);
    } else {
      FinalizerFine(w, p);
      var c := SetFinalizerEffect(Ctx(w, p));
      assert c.p.claims == p.claims && c.p.spec == p.spec;
      forall i | 0 <= i < |c.p.pods| ensures InStep(c.w, c.p, i) {
        assert InStep(w, p, i);
      }
      MaintainInOrder(c.w, c.p);
    }
  }

  ghost predicate OrderKept(w: World) {
    w.stored.Some? && InOrder(w, w.stored.value)
  }

  lemma StepInOrder(w: World, a: Action)
    requires OrderKept(w)
    ensures OrderKept(Step(w, a))
  {
    var p := w.stored.value;
    match a
    case ReconcileParent => CoreInOrder(w, p);
    case ReconcilePod(i) => PodEventInOrder(w, p, i);
    case ReconcileClaim(i) => ClaimEventInOrder(w, p, i);
    case TimePasses(d) => TimeInOrder(w, p, d);
    case PodStarts(i) => ClusterInOrder(w, p, i);
    case PodVanishes(i) => ClusterInOrder(w, p, i);
    case ClaimBinds(i) => ClusterInOrder(w, p, i);
    case ClaimVanishes(i) => ClusterInOrder(w, p, i);
  }

  /** Whatever the actions and their order, a rollout that begins in order stays in order. */
  lemma {:induction false} RolloutInOrder(w: World, acts: seq<Action>)
    requires OrderKept(w)
    ensures OrderKept(Run(Step, w, acts))
    decreases |acts|
  {
    if acts != [] {
      StepInOrder(w, acts[0]);
      RolloutInOrder(Step(w, acts[0]), acts[1..]);
    }
  }

  /** In particular one that begins with a new object and nothing in the cluster under its names. */
  lemma FreshRolloutInOrder(w: World, p: Parent, acts: seq<Action>)
    requires w.stored == Some(p) && p.pods == [] && p.claims == [] && !p.deletionMarked
    requires w.faults == {} && w.podTimeout > 0
    requires forall i: nat :: PodName(p, i) !in w.pods && ClaimName(p, i) !in w.claims
    ensures OrderKept(Run(Step, w, acts))
  {
    FreshStartIsGood(w, p);
    RolloutInOrder(w, acts);
  }
}
