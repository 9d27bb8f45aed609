// maintain as self-healing: how far the recorded slots are from their pods, and why repeated calls
// close that distance.
module Healing {
  import opened Tools
  import opened Types
  import opened Api
  import opened PodControl
  import opened Controller
  import opened Convergence
  import opened ConvergenceCore

  /** The number of slots whose pod is gone, or runs without the slot saying so. */
  function Deviation(w: World, slots: seq<PodSlot>): nat {
    if slots == [] then 0
    else Deviation(w, slots[..|slots| - 1]) + if OutOfStep(w, slots[|slots| - 1]) then 1 else 0
  }

  lemma {:induction false} DeviationZero(w: World, slots: seq<PodSlot>)
    ensures Deviation(w, slots) == 0 <==> FirstOutOfStep(w, slots).None?
  {
    if slots != [] {
      var init := slots[..|slots| - 1];
      DeviationZero(w, init);
      if FirstOutOfStep(w, slots).None? {
        assert forall j :: 0 <= j < |init| ==> init[j] == slots[j];
      }
    }
  }

  /** No slot newly out of step, and one back in step: the deviation fell. */
  lemma {:induction false} DeviationFalls(w: World, slots: seq<PodSlot>, v: World, news: seq<PodSlot>, k: int)
    requires |news| == |slots|
    requires forall j :: 0 <= j < |slots| && OutOfStep(v, news[j]) ==> OutOfStep(w, slots[j])
    ensures Deviation(v, news) <= Deviation(w, slots)
    ensures 0 <= k < |slots| && OutOfStep(w, slots[k]) && !OutOfStep(v, news[k]) ==>
      Deviation(v, news) < Deviation(w, slots)
  {
    if slots != [] {
      var init, inits := slots[..|slots| - 1], news[..|slots| - 1];
      DeviationFalls(w, init, v, inits, k);
    }
  }

  ghost predicate CanRepair(c: Ctx) {
    WellFormed(c.p) && c.w.faults == {} && ServiceReady(c.w, c.p, 0)
  }

  ghost predicate NamesKept(p: Parent, q: Parent) {
    && q.name == p.name && ClaimBase(q) == ClaimBase(p)
    && |q.pods| == |p.pods| && |q.claims| == |p.claims|
    && forall i :: 0 <= i < |p.pods| ==> q.pods[i].podName == p.pods[i].podName
  }

  lemma MarkKeeps(c: Ctx)
    requires CanRepair(c)
    ensures var d := MarkEffect(c);
      && d.w == c.w.(stored := d.w.stored)
      && CanRepair(d) && NamesKept(c.p, d.p)
      && |d.p.pods| == |c.p.pods|
      && match FirstOutOfStep(c.w, c.p.pods)
         case None => d == c
         case Some(i) =>
           && d.p.pods[i].podName == c.p.pods[i].podName
           && d.p.pods[i].status == (if c.p.pods[i].podName in c.w.pods then Running else Deleting)
           && forall j :: 0 <= j < |c.p.pods| && j != i ==> d.p.pods[j] == c.p.pods[j]
  {
    var d := MarkEffect(c);
    assert WellFormed(d.p);
  }

  lemma MarkHeals(c: Ctx)
    requires CanRepair(c) && FirstOutOfStep(c.w, c.p.pods).Some?
    ensures var d, i := MarkEffect(c), FirstOutOfStep(c.w, c.p.pods).value;
      && Deviation(d.w, d.p.pods) <= Deviation(c.w, c.p.pods)
      && if c.p.pods[i].podName in c.w.pods then Deviation(d.w, d.p.pods) < Deviation(c.w, c.p.pods)
         else FirstNeedingPod(d.w, d.p.pods) == Some(i)
  {
    var d, i := MarkEffect(c), FirstOutOfStep(c.w, c.p.pods).value;
    MarkKeeps(c);
    DeviationFalls(c.w, c.p.pods, d.w, d.p.pods, i);
    if c.p.pods[i].podName !in c.w.pods {
      assert NeedsPod(d.w, d.p.pods[i]);
      forall j | 0 <= j < i ensures !NeedsPod(d.w, d.p.pods[j]) {
        assert !OutOfStep(c.w, c.p.pods[j]);
      }
    }
  }

  lemma RemakeShape(c: Ctx, i: nat)
    requires CanRepair(c) && i < |c.p.pods| && PodAt(c.w, c.p, i).None?
    ensures var d := ExpansionEffect(c, i).0;
      && d.w == c.w.(pods := d.w.pods, claims := d.w.claims, log := d.w.log, stored := d.w.stored)
      && d.w.pods == c.w.pods[PodName(c.p, i) := TemplatePod(c.w.now, c.p, i)]
      && d.p.name == c.p.name && ClaimBase(d.p) == ClaimBase(c.p) && d.p.spec.hasService == c.p.spec.hasService
      && |d.p.pods| == |d.p.claims| == |c.p.pods|
      && d.p.pods[i] == PodSlot(PodName(c.p, i), Preparing, i, "")
      && (forall j :: 0 <= j < |c.p.pods| && j != i ==> d.p.pods[j] == c.p.pods[j] && d.p.claims[j] == c.p.claims[j])
      && d.p.claims[i].index == i && d.p.claims[i].claimName in {ClaimName(c.p, i), "none"}
  {
    GrowShape(c, i);
    RemakeNames(c, i);
    assert InLine(c.p, i);
  }

  /** Making the pod a slot lacks: that pod and nothing else is new, and the slot is in step. */
  lemma RemakeKeeps(c: Ctx, i: nat)
    requires CanRepair(c) && i < |c.p.pods| && PodAt(c.w, c.p, i).None?
    ensures var d := ExpansionEffect(c, i).0;
      && d.w.pods == c.w.pods[PodName(c.p, i) := TemplatePod(c.w.now, c.p, i)]
      && |d.p.pods| == |d.p.claims| == |c.p.pods|
      && d.p.pods[i] == PodSlot(PodName(c.p, i), Preparing, i, "")
      && (forall j :: 0 <= j < |c.p.pods| && j != i ==> d.p.pods[j] == c.p.pods[j])
      && CanRepair(d) && NamesKept(c.p, d.p)
  {
    hide ExpansionEffect, Dashed;
    RemakeShape(c, i);
    var d := ExpansionEffect(c, i).0;
    forall j | 0 <= j < |d.p.pods| ensures InLine(d.p, j) {
      assert InLine(c.p, j);
    }
  }

  lemma RemakeHeals(c: Ctx, i: nat)
    requires CanRepair(c) && i < |c.p.pods| && PodAt(c.w, c.p, i).None?
    ensures var d := ExpansionEffect(c, i).0; Deviation(d.w, d.p.pods) < Deviation(c.w, c.p.pods)
  {
    RemakeKeeps(c, i);
    PodNamesDistinct(c.p);
    var d := ExpansionEffect(c, i).0;
    forall j | 0 <= j < |c.p.pods| && OutOfStep(d.w, d.p.pods[j]) ensures OutOfStep(c.w, c.p.pods[j]) {
      assert c.p.pods[j].podName == PodName(c.p, j);
    }
    assert c.p.pods[i].podName == PodName(c.p, i);
    DeviationFalls(c.w, c.p.pods, d.w, d.p.pods, i);
  }

  lemma RemakeNames(c: Ctx, i: nat)
    requires CanRepair(c) && i < |c.p.pods| && PodAt(c.w, c.p, i).None?
    ensures Grow(c, i).0.w.pods == c.w.pods[PodName(c.p, i) := TemplatePod(c.w.now, c.p, i)]
  {
    var (d, pod) := ExpansionPodEffect(c, i);
    PodMade(c, i);
    ClaimMade(d, i);
  }

  /** The slot whose pod a maintain call makes: the least one recorded Deleting whose pod is gone,
      once the first slot out of step has been marked. */
  function Remade(c: Ctx): Option<nat>
    requires |c.p.pods| == |c.p.claims|
  {
    FirstNeedingPod(MarkEffect(c).w, MarkEffect(c).p.pods)
  }

  /** Each call strictly heals until nothing is out of step, makes at most one pod, and is a no-op
      exactly when there is nothing to heal. */
  lemma MaintainHeals(c: Ctx)
    requires CanRepair(c)
    ensures var d := MaintainEffect(c).0;
      && CanRepair(d) && NamesKept(c.p, d.p)
      && (Deviation(c.w, c.p.pods) > 0 ==> Deviation(d.w, d.p.pods) < Deviation(c.w, c.p.pods))
      && (d == c <==> Deviation(c.w, c.p.pods) == 0)
      && d.w.pods.Keys == c.w.pods.Keys + (if Remade(c).Some? then {PodName(c.p, Remade(c).value)} else {})
      && (forall n :: n in c.w.pods ==> d.w.pods[n] == c.w.pods[n])
  {
    hide Grow, Deviation, FirstFrom, ClaimsInLine;
    DeviationZero(c.w, c.p.pods);
    MarkKeeps(c);
    if FirstOutOfStep(c.w, c.p.pods).Some? {
      MarkHeals(c);
      var c1 := MarkEffect(c);
      var index := FirstNeedingPod(c1.w, c1.p.pods);
      if index.Some? {
        assert c1.p.pods[index.value].podName == PodName(c1.p, index.value);
        RemakeKeeps(c1, index.value);
        RemakeHeals(c1, index.value);
      }
    }
  }

  function MaintainTimes(c: Ctx, k: nat): Ctx
    requires |c.p.pods| == |c.p.claims|
    decreases k
  {
    if k == 0 then c
    else
      var d := MaintainEffect(c).0;
      if |d.p.pods| == |d.p.claims| then MaintainTimes(d, k - 1) else d
  }

  /** As many calls as slots are out of step are enough, and further calls change nothing. */
  lemma {:induction false} RepeatedMaintainHeals(c: Ctx, k: nat)
    requires CanRepair(c) && k >= Deviation(c.w, c.p.pods)
    ensures var d := MaintainTimes(c, k);
      CanRepair(d) && Deviation(d.w, d.p.pods) == 0 && MaintainEffect(d).0 == d
    decreases k
  {
    MaintainHeals(c);
    if k > 0 {
      RepeatedMaintainHeals(MaintainEffect(c).0, k - 1);
    }
  }

  // ----- where healing and the timeout disagree -----

  /** A slot before the last that has just been given its first timeout notice. */
  ghost predicate JustNoticed(w: World, p: Parent, i: nat) {
    && w.stored == Some(p) && WellFormed(p) && !p.deletionMarked && GROUP_VERSION in p.finalizers
    && |p.pods| == p.spec.size == GetIndex(p) && i < |p.pods| - 1 && p.pods[i].status == CreateTimeOut
    && p.pods[i].podName in w.pods
    && forall j :: 0 <= j < |p.pods| && j != i ==> !OutOfStep(w, p.pods[j])
  }

  /** maintain goes by the phase alone where the timeout goes by readiness: a notice outlives the next
      reconcile of the parent exactly if the pod's phase is not Running, so a pod that runs but never
      gets ready is noticed and forgotten in turn. */
  lemma NoticeOutlivesMaintain(w: World, p: Parent, i: nat)
    requires JustNoticed(w, p, i)
    ensures var v := Core(w);
      && v.stored.Some? && v.pods == w.pods && |v.stored.value.pods| == |p.pods|
      && v.stored.value.pods == p.pods[i := p.pods[i].(status := v.stored.value.pods[i].status)]
      && (v.stored.value.pods[i].status == CreateTimeOut <==> w.pods[p.pods[i].podName].phase != Running)
      && v.stored.value.pods[i].status in {CreateTimeOut, Running}
  {
    hide Grow, GetIndex, StringToInt, Numeral;
    var c := Ctx(w, p);
    assert Core(w) == MaintainEffect(c).0.w;
    var c1 := MarkEffect(c);
    var first := FirstOutOfStep(w, p.pods);
    assert first.Some? ==> first.value == i;
    if first.None? {
      assert !OutOfStep(w, p.pods[i]);
      assert p.pods[i := p.pods[i]] == p.pods;
    } else {
      assert OutOfStep(w, p.pods[i]);
    }
    forall j | 0 <= j < |c1.p.pods| ensures !NeedsPod(c1.w, c1.p.pods[j]) {
      assert j != i ==> !OutOfStep(w, p.pods[j]);
    }
    assert FirstNeedingPod(c1.w, c1.p.pods).None?;
  }
}
