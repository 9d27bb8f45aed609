// A parent that is marked for deletion before it has its size: CoreCtrl goes on building or shrinking it,
// so every fair run first brings it to its size, and only then takes it down.
module MarkedEarly {
  import opened Tools
  import opened Types
  import opened Api
  import opened PodControl
  import opened ClaimControl
  import opened Controller
  import opened Convergence
  import opened ConvergenceCore
  import opened ConvergenceTheorem
  import opened FairRuns
  import opened Examples
  import opened Workers
  import DeletionEnds
  import Races
  import SizeLaws

  // ----- the mark changes no step of a parent away from its size -----

  function MarkedParent(p: Parent): Parent {
    p.(deletionMarked := true)
  }

  function Mark(w: World): World {
    if w.stored.None? then w else w.(stored := Some(MarkedParent(w.stored.value)))
  }

  function MarkBoth(c: Ctx): Ctx {
    Ctx(Mark(c.w), MarkedParent(c.p))
  }

  lemma PutMarked(c: Ctx)
    requires GROUP_VERSION in c.p.finalizers
    ensures Put(MarkBoth(c)) == MarkBoth(Put(c))
  {
  }

  lemma CreatePodMarked(w: World, pod: Pod)
    ensures CreatePodIn(Mark(w), pod) == (Mark(CreatePodIn(w, pod).0), CreatePodIn(w, pod).1)
  {
  }

  lemma DeletePodMarked(w: World, name: string)
    ensures DeletePodIn(Mark(w), name) == (Mark(DeletePodIn(w, name).0), DeletePodIn(w, name).1)
  {
  }

  lemma DeleteClaimMarked(w: World, name: string)
    ensures DeleteClaimIn(Mark(w), name) == (Mark(DeleteClaimIn(w, name).0), DeleteClaimIn(w, name).1)
  {
  }

  lemma ForceDeleteClaimMarked(w: World, name: string)
    ensures ForceDeleteClaimIn(Mark(w), name) == (Mark(ForceDeleteClaimIn(w, name).0), ForceDeleteClaimIn(w, name).1)
  {
  }

  lemma NothingElseMarked(w: World)
    ensures var v := Mark(w);
      && v.pods == w.pods && v.claims == w.claims && v.now == w.now && v.log == w.log && v.faults == w.faults
      && v.volumes == w.volumes && v.nodes == w.nodes && v.nodeTimeout == w.nodeTimeout
  {
  }

  lemma TemplatesMarked(now: int, p: Parent, i: nat)
    ensures TemplatePod(now, MarkedParent(p), i) == TemplatePod(now, p, i)
    ensures TemplateParent(MarkedParent(p), i) == MarkedParent(TemplateParent(p, i))
  {
  }

  lemma PodPartMarked(c: Ctx, i: nat)
    ensures var (d, pod) := ExpansionPodEffect(c, i); ExpansionPodEffect(MarkBoth(c), i) == (MarkBoth(d), pod)
  {
    hide Mark, CreatePodIn, TemplatePod, TemplateParent, Dashed, SameSlots;
    NothingElseMarked(c.w);
    TemplatesMarked(c.w.now, c.p, i);
    CreatePodMarked(c.w, TemplatePod(c.w.now, c.p, i));
  }

  lemma ClaimPartMarked(c: Ctx, i: nat)
    ensures var (d, claim) := Controller.ClaimPart(c, i); Controller.ClaimPart(MarkBoth(c), i) == (MarkBoth(d), claim)
  {
    hide ExpansionPVCEffect;
    if c.p.spec.claimTemplate.Some? {
      ClaimMarked(c, i);
    }
  }

  lemma ClaimMarked(c: Ctx, i: nat)
    requires c.p.spec.claimTemplate.Some?
    ensures var (d, claim) := ExpansionPVCEffect(c, i); ExpansionPVCEffect(MarkBoth(c), i) == (MarkBoth(d), claim)
  {
    hide Dashed, IsPvCanUse, Stamp, IntToInt32;
    var p, q := Defaulted(c.p), Defaulted(MarkedParent(c.p));
    assert q == MarkedParent(p) && ClaimName(q, i) == ClaimName(p, i);
    var r := WithStaticVolume(c.w, p, i);
    assert WithStaticVolume(Mark(c.w), q, i) == MarkedParent(r);
    assert TemplateClaim(MarkedParent(r), i) == TemplateClaim(r, i);
    assert PendingSlot(MarkedParent(r), i) == PendingSlot(r, i);
    CreateClaimMarked(c.w, TemplateClaim(r, i));
    hide WithStaticVolume, TemplateClaim, PendingSlot, CreateClaimIn, Defaulted;
  }

  lemma CreateClaimMarked(w: World, claim: Claim)
    ensures var (v, ok) := CreateClaimIn(w, claim); CreateClaimIn(Mark(w), claim) == (Mark(v), ok)
  {
  }

  lemma ServiceMarked(w: World, p: Parent)
    ensures var (v, ready) := CreateServiceEffect(w, p);
      CreateServiceEffect(Mark(w), MarkedParent(p)) == (Mark(v), ready)
    ensures ServiceName(MarkedParent(p)) == ServiceName(p)
  {
  }

  lemma SlotsMarked(p: Parent, i: nat, pod: PodSlot, claim: ClaimSlot)
    requires i <= |p.pods| == |p.claims|
    ensures WithSlots(MarkedParent(p), i, pod, claim) == MarkedParent(WithSlots(p, i, pod, claim))
  {
  }

  lemma ObjectsMarked(c: Ctx, i: nat)
    requires i <= |c.p.pods| == |c.p.claims|
    ensures GrowObjects(MarkBoth(c), i) == (MarkBoth(GrowObjects(c, i).0), GrowObjects(c, i).1)
  {
    hide ExpansionPodEffect, ClaimPart, WithSlots, SameHead;
    var (d, pod) := ExpansionPodEffect(c, i);
    var (e, claim) := Controller.ClaimPart(d, i);
    PodPartMarked(c, i);
    ClaimPartMarked(d, i);
    if pod.Some? && claim.Some? {
      SlotsMarked(e.p, i, pod.value, claim.value);
    }
  }

  lemma GrowMarked(c: Ctx, i: nat)
    requires i <= |c.p.pods| == |c.p.claims|
    ensures Grow(MarkBoth(c), i) == (MarkBoth(Grow(c, i).0), Grow(c, i).1)
  {
    hide GrowObjects, CreateServiceEffect, ServiceName, SameHead, SameSlots;
    ServiceMarked(c.w, c.p);
    ObjectsMarked(c, i);
  }

  lemma CutMarked(c: Ctx, i: nat)
    requires 1 <= i && i - 1 <= |c.p.pods| == |c.p.claims|
    ensures Cut(MarkBoth(c), i) == (MarkBoth(Cut(c, i).0), Cut(c, i).1)
  {
    hide Mark, DeletePodIn, DeleteClaimIn, Dashed;
    NothingElseMarked(c.w);
    DeletePodMarked(c.w, PodName(c.p, i - 1));
    DeleteClaimMarked(c.w, ClaimName(c.p, i - 1));
  }

  /** Away from its size CoreCtrl does not look at the mark. */
  lemma CoreMarked(w: World, p: Parent)
    requires w.stored == Some(p) && |p.pods| == |p.claims| && GROUP_VERSION in p.finalizers
    requires GetIndex(p) != p.spec.size
    ensures Core(Mark(w)) == Mark(Core(w))
    ensures Core(w).stored.Some? && Core(w).stored.value.finalizers == p.finalizers
  {
    hide Grow, Cut;
    var c, n := Ctx(w, p), GetIndex(p);
    assert GetIndex(MarkedParent(p)) == n;
    if n < p.spec.size {
      GrowMarked(c, n);
      PutMarked(Grow(c, n).0);
    } else {
      CutMarked(c, n);
      CutHead(c, n);
      PutMarked(Cut(c, n).0);
    }
  }

  lemma CutHead(c: Ctx, i: nat)
    requires 1 <= i && i - 1 <= |c.p.pods| == |c.p.claims|
    ensures Cut(c, i).0.p.finalizers == c.p.finalizers && Cut(c, i).0.w.stored == c.w.stored
  {
  }

  lemma {:induction false} InsistentDeleteMarked(w: World, name: string)
    ensures DeleteClaimUntilDone(Mark(w), name) == Mark(DeleteClaimUntilDone(w, name))
    ensures DeleteClaimUntilDone(w, name).stored == w.stored
    decreases FaultsAhead(w.faults, |w.log|)
  {
    hide Mark;
    NothingElseMarked(w);
    DeleteClaimMarked(w, name);
    var (w1, ok) := DeleteClaimIn(w, name);
    if !ok {
      assert |w.log| in FaultsAhead(w.faults, |w.log|) - FaultsAhead(w.faults, |w1.log|);
      InsistentDeleteMarked(w1, name);
    }
  }

  lemma MandatoryMarked(w: World, pod: Pod)
    ensures var (v, ok) := DeletePodMandatoryEffect(w, pod);
      DeletePodMandatoryEffect(Mark(w), pod) == (Mark(v), ok) && v.stored == w.stored
  {
  }

  lemma NodeLostMarked(c: Ctx, pod: Pod, i: nat)
    requires i < |c.p.pods| == |c.p.claims|
    ensures var (d, ok) := NodeLostEffect(c, pod, i);
      && NodeLostEffect(MarkBoth(c), pod, i) == (MarkBoth(d), ok)
      && d.w.stored == c.w.stored && d.p.finalizers == c.p.finalizers
  {
    hide Mark, DeletePodMandatoryEffect, Dashed;
    var w1 := DeletePodMandatoryEffect(c.w, pod).0;
    NothingElseMarked(w1);
    MandatoryMarked(c.w, pod);
    ForceDeleteClaimMarked(w1, ClaimName(c.p, i));
  }

  lemma TimedOutMarked(c: Ctx, pod: Pod, i: nat)
    requires i < |c.p.pods| == |c.p.claims|
    ensures var (d, ok) := TimedOutEffect(c, pod, i);
      && TimedOutEffect(MarkBoth(c), pod, i) == (MarkBoth(d), ok)
      && d.w.stored == c.w.stored && d.p.finalizers == c.p.finalizers
  {
    hide Mark, DeleteClaimUntilDone, Dashed;
    var w1 := DeletePodIn(c.w, pod.name).0;
    assert w1.stored == c.w.stored;
    NothingElseMarked(w1);
    DeletePodMarked(c.w, pod.name);
    InsistentDeleteMarked(w1, ClaimName(c.p, i));
    hide DeletePodIn;
  }

  lemma PodEventMarked(c: Ctx, pod: Pod, i: nat)
    requires |c.p.pods| == |c.p.claims|
    ensures var (d, changed) := MonitorPodEffect(c, pod, i);
      && MonitorPodEffect(MarkBoth(c), pod, i) == (MarkBoth(d), changed)
      && d.w.stored == c.w.stored && d.p.finalizers == c.p.finalizers
  {
    hide NodeLostEffect, TimedOutEffect, PodRunning, IsNodeReady;
    if i < |c.p.pods| {
      NodeLostMarked(c, pod, i);
      TimedOutMarked(c, pod, i);
    }
  }

  lemma PodReconcileMarked(w: World, p: Parent, i: nat)
    requires w.stored == Some(p) && |p.pods| == |p.claims| && GROUP_VERSION in p.finalizers
    ensures var v := PodReconciled(w, p, i);
      && PodReconciled(Mark(w), MarkedParent(p), i) == Mark(v)
      && v.stored.Some? && v.stored.value.finalizers == p.finalizers
  {
    hide MonitorPodEffect, Ordinal;
    var pod := PodAt(w, p, i);
    assert PodAt(Mark(w), MarkedParent(p), i) == pod;
    if pod.Some? && Ordinal(pod.value.annotations) >= 0 {
      var k := Ordinal(pod.value.annotations);
      PodEventMarked(Ctx(w, p), pod.value, k);
      PutMarked(MonitorPodEffect(Ctx(w, p), pod.value, k).0);
    }
  }

  lemma ClaimReconcileMarked(w: World, p: Parent, i: nat)
    requires w.stored == Some(p) && |p.pods| == |p.claims| && GROUP_VERSION in p.finalizers
    ensures var v := ClaimReconciled(w, p, i);
      && ClaimReconciled(Mark(w), MarkedParent(p), i) == Mark(v)
      && v.stored.Some? && v.stored.value.finalizers == p.finalizers
  {
    hide Ordinal;
    var claim := ClaimAt(w, p, i);
    assert ClaimAt(Mark(w), MarkedParent(p), i) == claim;
    if claim.Some? && Ordinal(claim.value.annotations) >= 0 {
      PutMarked(Ctx(w, MonitorClaimEffect(p, claim.value, Ordinal(claim.value.annotations)).0));
    }
  }

  lemma ClusterMarked(w: World, p: Parent, i: nat)
    requires w.stored == Some(p)
    ensures forall v :: v in {PodStarted(w, p, i), PodGone(w, p, i), ClaimBound(w, p, i), ClaimGone(w, p, i)} ==>
      v.stored == w.stored
    ensures PodStarted(Mark(w), MarkedParent(p), i) == Mark(PodStarted(w, p, i))
    ensures PodGone(Mark(w), MarkedParent(p), i) == Mark(PodGone(w, p, i))
    ensures ClaimBound(Mark(w), MarkedParent(p), i) == Mark(ClaimBound(w, p, i))
    ensures ClaimGone(Mark(w), MarkedParent(p), i) == Mark(ClaimGone(w, p, i))
  {
    hide Dashed;
    assert PodAt(Mark(w), MarkedParent(p), i) == PodAt(w, p, i);
    assert ClaimAt(Mark(w), MarkedParent(p), i) == ClaimAt(w, p, i);
  }

  lemma LaterMarked(w: World, p: Parent, d: nat)
    requires w.stored == Some(p)
    ensures Later(Mark(w), MarkedParent(p), d) == Mark(Later(w, p, d)) && Later(w, p, d).stored == w.stored
  {
    var v := w.(now := w.now + d);
    var u := Mark(w).(now := w.now + d);
    forall i: nat ensures PodAt(u, MarkedParent(p), i) == PodAt(v, p, i) {
    }
    assert InTime(u, MarkedParent(p)) <==> InTime(v, p);
  }

  /** The marked and the unmarked parent go the same way until the size is reached. */
  lemma StepMarked(w: World, p: Parent, a: Action)
    requires w.stored == Some(p) && |p.pods| == |p.claims| && GROUP_VERSION in p.finalizers
    requires GetIndex(p) != p.spec.size
    ensures Step(Mark(w), a) == Mark(Step(w, a))
    ensures Step(w, a).stored.Some? && Step(w, a).stored.value.finalizers == p.finalizers
  {
    hide Core, PodReconciled, ClaimReconciled, PodStarted, PodGone, ClaimBound, ClaimGone, Later;
    match a
    case ReconcileParent => CoreMarked(w, p);
    case ReconcilePod(i) => PodReconcileMarked(w, p, i);
    case ReconcileClaim(i) => ClaimReconcileMarked(w, p, i);
    case PodStarts(i) => ClusterMarked(w, p, i);
    case PodVanishes(i) => ClusterMarked(w, p, i);
    case ClaimBinds(i) => ClusterMarked(w, p, i);
    case ClaimVanishes(i) => ClusterMarked(w, p, i);
    case TimePasses(d) => LaterMarked(w, p, d);
  }

  // ----- up to its size -----

  predicate AtSize(w: World) {
    w.stored.Some? && |w.stored.value.pods| == |w.stored.value.claims|
    && GetIndex(w.stored.value) == w.stored.value.spec.size
  }

  ghost predicate Starts(w: World, bound: nat) {
    Inv(w, bound) && Count(w.stored.value.finalizers, GROUP_VERSION) == 1
  }

  /** Steps of the unmarked parent until it is at its size, and none after. */
  ghost function UntilSize(w: World, a: Action): World {
    if AtSize(w) then w else Step(w, a)
  }

  lemma SettledAtSize(w: World, bound: nat)
    requires Starts(w, bound) && Reached(w)
    ensures AtSize(w)
  {
    var p := w.stored.value;
    if |p.pods| > 0 {
      assert GoodSlot(w, p, |p.pods| - 1) && PodWork(w, p, |p.pods| - 1) == 0 && ClaimWork(w, p, |p.pods| - 1) == 0;
    }
  }

  lemma UntilSizeNeverWorse(w: World, a: Action, bound: nat)
    requires Starts(w, bound)
    ensures var v := UntilSize(w, a);
      && Starts(v, bound) && v.stored.value.spec.size == w.stored.value.spec.size
      && Measure(v) <= Measure(w) && (AtSize(w) ==> AtSize(v))
      && (Measure(v) == Measure(w) ==> Help(v) == Help(w))
  {
    hide Step, Measure, Help;
    if !AtSize(w) {
      StepNeverWorse(w, a, bound);
      StepMarked(w, w.stored.value, a);
    }
  }

  lemma ReachesSize(w: World, bound: nat, rounds: seq<seq<Action>>)
    requires Starts(w, bound) && FairRounds(bound, rounds) && |rounds| >= 12 * bound + 6
    ensures var v := RunRounds(UntilSize, w, rounds);
      Starts(v, bound) && AtSize(v) && v.stored.value.spec.size == w.stored.value.spec.size
  {
    hide Step, Measure, Help, Reached, AtSize;
    MeasureBounded(w, bound);
    var size := w.stored.value.spec.size;
    var inv := (v: World) => Starts(v, bound) && v.stored.value.spec.size == size;
    forall v, a | inv(v) {
      UntilSizeNeverWorse(v, a, bound);
    }
    forall v | inv(v) && !AtSize(v)
      ensures Help(v) in FairActions(bound) && Measure(UntilSize(v, Help(v))) < Measure(v)
    {
      if Reached(v) {
        SettledAtSize(v, bound);
      }
      HelpLowers(v, bound);
    }
    FairRunsReachGoal(UntilSize, inv, AtSize, Measure, Help, FairActions(bound), w, rounds);
  }

  lemma {:induction false} RestsAtSize(w: World, acts: seq<Action>)
    requires AtSize(w)
    ensures Run(UntilSize, w, acts) == w
    decreases |acts|
  {
    if acts != [] {
      RestsAtSize(w, acts[1..]);
    }
  }

  /** The marked parent's own run passes through the state in which the other rests. */
  lemma {:induction false} PassesThrough(w: World, bound: nat, acts: seq<Action>) returns (n: nat)
    requires Starts(w, bound)
    ensures n <= |acts| && Run(Step, Mark(w), acts[..n]) == Mark(Run(UntilSize, w, acts))
    decreases |acts|
  {
    hide Step, Starts, AtSize, Mark;
    if acts == [] || AtSize(w) {
      n := 0;
      if AtSize(w) {
        RestsAtSize(w, acts);
      }
    } else {
      StartsMarked(w, bound, acts[0]);
      UntilSizeNeverWorse(w, acts[0], bound);
      var m := PassesThrough(Step(w, acts[0]), bound, acts[1..]);
      n := m + 1;
      assert acts[..n][1..] == acts[1..][..m];
    }
  }

  lemma StartsMarked(w: World, bound: nat, a: Action)
    requires Starts(w, bound) && !AtSize(w)
    ensures Step(Mark(w), a) == Mark(Step(w, a))
  {
    StepMarked(w, w.stored.value, a);
  }

  // ----- and from there on -----

  /** At its size, a good marked parent is in a deletion that ends. */
  lemma SizeIsDeleting(w: World, bound: nat)
    requires Starts(w, bound) && AtSize(w)
    ensures DeletionEnds.Inv(Mark(w), bound) && Mark(w).faults == {} && AtSize(Mark(w))
    ensures |w.stored.value.pods| == w.stored.value.spec.size
  {
    var p := w.stored.value;
    var v, q := Mark(w), MarkedParent(p);
    if |p.pods| > 0 {
      assert GoodSlot(w, p, |p.pods| - 1);
    }
    forall i | 0 <= i < |q.pods| && q.pods[i].podName in v.pods
      ensures DeletionEnds.PodBehaves(v, q, i, v.pods[q.pods[i].podName])
    {
      assert GoodSlot(w, p, i) && PodAt(w, p, i).Some?;
    }
    forall i: nat | i < |q.claims| && ClaimAt(v, q, i).Some?
      ensures DeletionEnds.ClaimBehaves(q, i, ClaimAt(v, q, i).value)
    {
      assert GoodSlot(w, p, i) && ClaimAt(w, p, i) == ClaimAt(v, q, i);
    }
  }

  lemma {:induction false} SumBounded(f: nat -> nat, n: nat, most: nat)
    requires forall i: nat :: i < n ==> f(i) <= most
    ensures DeletionEnds.Sum(f, n) <= most * n
  {
    if n > 0 {
      SumBounded(f, n - 1, most);
    }
  }

  lemma DeletionBounded(w: World, bound: nat)
    requires DeletionEnds.Inv(w, bound) && w.faults == {}
    ensures DeletionEnds.Measure(w) <= 11 * bound + 1
  {
    if !DeletionEnds.Over(w) {
      var p := w.stored.value;
      SumBounded(DeletionEnds.ToRetain(w, p), |p.claims|, 1);
      SumBounded(DeletionEnds.PodLeft(w, p), |p.claims|, 2);
      SumBounded(DeletionEnds.ClaimLeft(w, p), |p.claims|, 2);
      SumBounded(DeletionEnds.ToFree(w, p), |p.claims|, 2);
      SumBounded(DeletionEnds.Unrecorded(w, p), |p.claims|, 4);
      assert FaultsAhead(w.faults, |w.log|) == {};
    }
  }

  /** A parent marked in a good state, whatever its size then: fair rounds bring it to its size, and fair
      rounds from there on take the finalizer off. */
  lemma MarkedParentEnds(w: World, bound: nat, rounds: seq<seq<Action>>, more: seq<seq<DeletionEnds.Action>>)
    returns (n: nat)
    requires Starts(w, bound) && FairRounds(bound, rounds) && |rounds| >= 12 * bound + 6
    requires forall k :: 0 <= k < |more| ==> forall a :: a in DeletionEnds.FairActions(bound) ==> a in more[k]
    requires |more| >= 11 * bound + 1
    ensures n <= |Flat(rounds)|
    ensures var v := Run(Step, Mark(w), Flat(rounds)[..n]);
      && AtSize(v) && |v.stored.value.pods| == v.stored.value.spec.size == w.stored.value.spec.size
      && DeletionEnds.Over(RunRounds(DeletionEnds.Step, v, more))
  {
    hide Step, AtSize, Mark;
    ReachesSize(w, bound, rounds);
    RoundsAreOneRun(UntilSize, w, rounds);
    n := PassesThrough(w, bound, Flat(rounds));
    var v := RunRounds(UntilSize, w, rounds);
    SizeIsDeleting(v, bound);
    DeletionBounded(Mark(v), bound);
    DeletionEnds.DeletionEnds(Mark(v), bound, more);
    MarkKeepsSlots(v);
  }

  lemma MarkKeepsSlots(w: World)
    requires w.stored.Some?
    ensures Mark(w).stored.Some? && Mark(w).stored.value == MarkedParent(w.stored.value)
  {
  }

  // ----- the one thing that can stop a deletion -----

  /** The pod of the last slot is live, on a ready node, not ready itself, and out of time. */
  predicate LastRunsOut(w: World, p: Parent, pod: Pod) {
    && Ordinal(pod.annotations) == |p.pods| - 1
    && !pod.terminating && NodeReadyIn(w, pod.nodeName) && !PodRunning(pod) && Overdue(w, pod)
  }

  /** A pod event takes a marked parent that is at its size away from it exactly then. */
  lemma LastTimeoutExactly(w: World, p: Parent, pod: Pod)
    requires w.stored == Some(p) && WellFormed(p) && p.deletionMarked && p.finalizers != []
    requires |p.pods| == p.spec.size == GetIndex(p)
    requires NamedByOwner(pod) && OwnerStored(w, pod.annotations)
    ensures var v := MonitorPod(w, pod);
      && ListsAgree(v) && v.stored.Some? && v.stored.value.spec.size == p.spec.size
      && (GetIndex(v.stored.value) != p.spec.size <==> LastRunsOut(w, p, pod))
  {
    assert |p.pods| == |p.claims| && p.pods[|p.pods| - 1].status != CreateTimeOut;
    var c, i := Ctx(w, p), Ordinal(pod.annotations);
    hide Ordinal, PodRunning, IsNodeReady, Overdue, MonitorPodEffect, WellFormed;
    PodEventMarked(c, pod, i);
    var q := MonitorPodEffect(c, pod, i).0.p;
    if LastRunsOut(w, p, pod) {
      NoticeRecorded(w, p, pod);
    } else if i < |p.pods| {
      NoNoticeOfLast(w, p, pod, i);
    } else {
      BeyondTheSlots(c, pod, i);
    }
  }

  lemma BeyondTheSlots(c: Ctx, pod: Pod, i: nat)
    requires |c.p.pods| == |c.p.claims| <= i
    ensures MonitorPodEffect(c, pod, i) == (c, false)
  {
  }

  lemma NoticeRecorded(w: World, p: Parent, pod: Pod)
    requires |p.pods| == |p.claims| > 0 && p.pods[|p.pods| - 1].status != CreateTimeOut && LastRunsOut(w, p, pod)
    ensures MonitorPodEffect(Ctx(w, p), pod, |p.pods| - 1)
      == (Ctx(w, WithStatus(p, |p.pods| - 1, CreateTimeOut)), true)
  {
    hide Ordinal, PodRunning, IsNodeReady;
  }

  /** Any other pod event records nothing that sends getIndex back. */
  lemma NoNoticeOfLast(w: World, p: Parent, pod: Pod, i: nat)
    requires i < |p.pods| == |p.claims| && |p.pods| == p.spec.size == GetIndex(p) && !LastRunsOut(w, p, pod)
    requires Ordinal(pod.annotations) == i
    ensures var q := MonitorPodEffect(Ctx(w, p), pod, i).0.p;
      |q.pods| == |q.claims| == |p.pods| && q.spec.size == p.spec.size && GetIndex(q) == p.spec.size
  {
    assert p.pods[|p.pods| - 1].status != CreateTimeOut && p.claims[|p.pods| - 1].status != ClaimPending;
    hide MonitorPodEffect, Ordinal, PodRunning, IsNodeReady, Overdue, Dashed;
    DeletionEnds.PodEventCases(Ctx(w, p), pod, i);
    var q := MonitorPodEffect(Ctx(w, p), pod, i).0.p;
    var s, r: ClaimPhase :| DeletionEnds.Records(p, q, i, s, r)
      && (s.status in {p.pods[i].status, Deleting, Running} || (s.status == CreateTimeOut && i < |p.pods| - 1))
      && r in {p.claims[i].status, ClaimDeleting};
  }

  /** A marked parent at its size, of any size and templates, whose last pod runs out of time. */
  ghost predicate LateLast(w: World, p: Parent, pod: Pod) {
    && w.stored == Some(p) && WellFormed(p) && p.deletionMarked && p.finalizers != [] && w.faults == {}
    && |p.pods| == p.spec.size == GetIndex(p)
    && NamedByOwner(pod) && OwnerName(pod.annotations) == p.name && LastRunsOut(w, p, pod)
  }

  /** Its two timeout notices cut the last slot off; when the objects of that slot are gone, the next
      reconcile makes its pod again, in the middle of the deletion, unless the slot before holds it back. */
  lemma LastTimeoutRebuilds(w: World, p: Parent, pod: Pod)
    requires LateLast(w, p, pod)
    ensures var v, i := MonitorPod(w, pod), Ordinal(pod.annotations);
      && AtSize(w) && ListsAgree(v) && !AtSize(v) && v.stored.Some?
      && var u := WithoutSlot(MonitorPod(v, pod), p, i);
        && u.stored.Some? && WellFormed(u.stored.value) && u.stored.value.deletionMarked
        && u.stored.value.pods == p.pods[..i] && u.stored.value.claims == p.claims[..i] && !AtSize(u)
        && (!SizeLaws.HeldBack(u.stored.value) && ServiceReady(u, p, i) ==>
              && pod.name in Core(u).pods && !Core(u).pods[pod.name].terminating
              && Core(u).stored.Some? && Core(u).stored.value.deletionMarked
              && |Core(u).stored.value.pods| == p.spec.size)
  {
    hide MonitorPod, Core, Ordinal, LateLast, WellFormed, GetIndex;
    TwoNotices(w, p, pod);
    var i := Ordinal(pod.annotations);
    var u := WithoutSlot(MonitorPod(MonitorPod(w, pod), pod), p, i);
    if !SizeLaws.HeldBack(u.stored.value) && ServiceReady(u, p, i) {
      NoObjectsLeft(u, p, i);
      MadeAgain(u, u.stored.value);
    }
  }

  lemma NoObjectsLeft(u: World, p: Parent, i: nat)
    requires u.stored.Some? && SameHead(u.stored.value, p)
    requires PodName(p, i) !in u.pods && ClaimName(p, i) !in u.claims
    ensures PodAt(u, u.stored.value, i).None? && ClaimAt(u, u.stored.value, i).None?
    ensures PodName(u.stored.value, i) == PodName(p, i)
    ensures ServiceReady(u, p, i) ==> ServiceReady(u, u.stored.value, i)
  {
  }

  /** The first notice takes the parent away from its size, and the second cuts the slot off. */
  lemma TwoNotices(w: World, p: Parent, pod: Pod)
    requires LateLast(w, p, pod)
    ensures var v, i := MonitorPod(w, pod), Ordinal(pod.annotations);
      && i == |p.pods| - 1 && |p.claims| == |p.pods| == p.spec.size && pod.name == PodName(p, i) && p.deletionMarked
      && AtSize(w) && ListsAgree(v) && !AtSize(v) && v.stored.Some?
      && var u := MonitorPod(v, pod);
        && u.stored.Some? && SameHead(u.stored.value, p) && p.finalizers != [] && WellFormed(u.stored.value)
        && u.stored.value.pods == p.pods[..i] && u.stored.value.claims == p.claims[..i] && u.faults == {}
        && !AtSize(u)
  {
    assert ListsAgree(w) && |p.pods| == |p.claims|;
    hide MonitorPod, Ordinal, PodRunning, IsNodeReady;
    LastTimeoutExactly(w, p, pod);
    FirstNoticeCounts(w, p, pod);
    var v := MonitorPod(w, pod);
    SecondNoticeCuts(v, v.stored.value, pod);
  }

  /** The pod and the claim of slot i are removed from the cluster. */
  function WithoutSlot(w: World, p: Parent, i: nat): World {
    SizeLaws.WithoutClaim(SizeLaws.WithoutPod(w, PodName(p, i)), ClaimName(p, i))
  }

  lemma FirstNoticeCounts(w: World, p: Parent, pod: Pod)
    requires LateLast(w, p, pod)
    ensures |p.pods| == |p.claims| == Ordinal(pod.annotations) + 1
    ensures MonitorPod(w, pod) == Put(Ctx(w, WithStatus(p, Ordinal(pod.annotations), CreateTimeOut))).w
    ensures MonitorPod(w, pod).stored.Some?
  {
    assert p.pods[|p.pods| - 1].status != CreateTimeOut;
    hide Ordinal, MonitorPodEffect, PodRunning, IsNodeReady, WellFormed;
    NoticeRecorded(w, p, pod);
  }

  lemma CutEffect(c: Ctx, pod: Pod, i: nat)
    requires |c.p.pods| == |c.p.claims| == i + 1 && c.p.pods[i].status == CreateTimeOut && c.w.faults == {}
    requires !pod.terminating && NodeReadyIn(c.w, pod.nodeName) && !PodRunning(pod)
    ensures MonitorPodEffect(c, pod, i) == (TimedOutEffect(c, pod, i).0, true)
    ensures var d := TimedOutEffect(c, pod, i).0;
      && d.p in {Truncated(c.p, i), Truncated(Defaulted(c.p), i)}
      && d.w.stored == c.w.stored && d.w.faults == {}
  {
    hide PodRunning, IsNodeReady, Dashed, DeleteClaimUntilDone;
    InsistentDeleteKeepsPods(DeletePodIn(c.w, pod.name).0, ClaimName(c.p, i));
  }

  lemma SecondNoticeCuts(v: World, q: Parent, pod: Pod)
    requires v.stored == Some(q) && |q.pods| == |q.claims| == Ordinal(pod.annotations) + 1 > 0
    requires q.pods[|q.pods| - 1].status == CreateTimeOut
    requires v.faults == {} && q.finalizers != [] && OwnerName(pod.annotations) == q.name
    requires !pod.terminating && NodeReadyIn(v, pod.nodeName) && !PodRunning(pod)
    ensures var u, i := MonitorPod(v, pod), Ordinal(pod.annotations);
      && u.stored.Some? && SameHead(u.stored.value, q) && u.faults == {}
      && u.stored.value.pods == q.pods[..i] && u.stored.value.claims == q.claims[..i]
  {
    hide Ordinal, PodRunning, IsNodeReady, MonitorPodEffect, TimedOutEffect;
    CutEffect(Ctx(v, q), pod, Ordinal(pod.annotations));
  }

  lemma MadeAgain(u: World, q: Parent)
    requires u.stored == Some(q) && WellFormed(q) && !SizeLaws.HeldBack(q) && |q.pods| < q.spec.size && u.faults == {}
    requires ServiceReady(u, q, |q.pods|) && q.finalizers != []
    requires PodAt(u, q, |q.pods|).None? && ClaimAt(u, q, |q.pods|).None?
    ensures var n := |q.pods|;
      && PodName(q, n) in Core(u).pods && !Core(u).pods[PodName(q, n)].terminating
      && Core(u).stored.Some? && Core(u).stored.value.deletionMarked == q.deletionMarked
      && |Core(u).stored.value.pods| == n + 1
  {
    assert |q.pods| == |q.claims|;
    hide Grow, Dashed, SlotsInLine, ClaimsInLine, ExpansionPodEffect;
    var c, n := Ctx(u, q), |q.pods|;
    SizeLaws.AppendExactly(c);
    SizeLaws.GrowReachesEnd(c);
    Races.Revived(u, q, n);
    assert GetIndex(q) == n;
    assert Core(u) == ExpansionEffect(c, n).0.w;
  }

  lemma LateLastHappens() returns (w: World, p: Parent, pod: Pod)
    ensures LateLast(w, p, pod) && PodAt(w, p, 1) == Some(pod)
  {
    var q := SomeParent(2, 2, Some(TEMPLATE));
    p := q.(deletionMarked := true);
    pod := DownPod(p, 1);
    w := SomeWorld(p, map[PodName(p, 1) := pod], map[]).(now := 100);
    MadePodIsNamed(0, p, 1);
    DashedInjective(p.name, 1, OwnerName(pod.annotations), Ordinal(pod.annotations));
  }
}
