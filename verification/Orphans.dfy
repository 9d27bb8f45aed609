// Exactly which steps leave an object of the parent without a slot, and that no other run does.
module Orphans {
  import opened Types
  import opened Api
  import opened PodControl
  import opened ClaimControl
  import opened Controller
  import opened Workers
  import opened Histories
  import opened SizeLaws
  import opened Convergence
  import opened ConvergenceCore
  import opened StickyVolumes
  import Deletion
  import VolumeControl

  ghost predicate Tidy(w: World, p: Parent) {
    NothingBeyond(w, p, |p.pods|)
  }

  /** Fewer objects under the same names, and no fewer slots. */
  lemma FewerObjects(w: World, p: Parent, v: World, q: Parent)
    requires Tidy(w, p) && v.pods.Keys <= w.pods.Keys && v.claims.Keys <= w.claims.Keys
    requires q.name == p.name && ClaimBase(q) == ClaimBase(p) && |q.pods| >= |p.pods|
    requires q.spec.claimTemplate.Some? ==> p.spec.claimTemplate.Some?
    ensures Tidy(v, q)
  {
    forall j: nat | j >= |q.pods| ensures PodAt(v, q, j).None? && ClaimAt(v, q, j).None? {
      assert PodName(q, j) == PodName(p, j) && ClaimName(q, j) == ClaimName(p, j);
      assert PodAt(w, p, j).None? && ClaimAt(w, p, j).None?;
      assert PodName(q, j) in v.pods ==> PodName(q, j) in w.pods.Keys;
      assert ClaimName(q, j) in v.claims ==> ClaimName(q, j) in w.claims.Keys;
    }
  }

  /** New objects at slot i at most, and a slot i to hold them. */
  lemma ObjectsOfOneSlot(w: World, p: Parent, v: World, q: Parent, i: nat)
    requires Tidy(w, p) && SameHead(q, p) && |q.pods| >= |p.pods| && i < |q.pods|
    requires v.pods.Keys <= w.pods.Keys + {PodName(p, i)} && v.claims.Keys <= w.claims.Keys + {ClaimName(p, i)}
    ensures Tidy(v, q)
  {
    PodNamesDistinct(p);
    ClaimNamesDistinct(p);
    forall j: nat | j >= |q.pods| ensures PodAt(v, q, j).None? && ClaimAt(v, q, j).None? {
      assert PodName(q, j) == PodName(p, j) && ClaimName(q, j) == ClaimName(p, j);
      assert PodAt(w, p, j).None? && ClaimAt(w, p, j).None?;
      assert PodName(q, j) in v.pods ==> PodName(q, j) in w.pods.Keys + {PodName(p, i)};
      assert ClaimName(q, j) in v.claims ==> ClaimName(q, j) in w.claims.Keys + {ClaimName(p, i)};
    }
  }

  /** Whatever calls fail, expansion adds objects of its own slot at most. */
  lemma GrowObjectsAt(c: Ctx, i: nat)
    requires i <= |c.p.pods| == |c.p.claims|
    ensures var d := Grow(c, i).0;
      && d.w.pods.Keys <= c.w.pods.Keys + {PodName(c.p, i)}
      && d.w.claims.Keys <= c.w.claims.Keys + {ClaimName(c.p, i)}
      && |d.p.pods| >= |c.p.pods| && (Grow(c, i).1.None? ==> i < |d.p.pods|)
  {
    hide ExpansionPodEffect, ClaimPart, PodName, ClaimName;
    GrowPieces(c, i);
    PodPartShape(c, i);
    ClaimPartShape(ExpansionPodEffect(c, i).0, i);
  }

  lemma GrowTidy(c: Ctx, i: nat)
    requires i <= |c.p.pods| == |c.p.claims| && Tidy(c.w, c.p)
    requires i < |c.p.pods| || Grow(c, i).1.None?
    ensures Tidy(Grow(c, i).0.w, Grow(c, i).0.p)
    ensures Grow(c, i).1.Some? ==> Tidy(Grow(c, i).0.w, c.p)
  {
    GrowObjectsAt(c, i);
    var g := Grow(c, i).0;
    ObjectsOfOneSlot(c.w, c.p, g.w, g.p, i);
    if i < |c.p.pods| {
      ObjectsOfOneSlot(c.w, c.p, g.w, c.p, i);
    }
  }

  lemma PutTidy(c: Ctx)
    requires Tidy(c.w, c.p)
    ensures Tidy(Put(c).w, Put(c).p) && Put(c).w.stored in {None, Some(Put(c).p)}
    ensures NoOrphans(Put(c).w)
  {
    FewerObjects(c.w, c.p, Put(c).w, Put(c).p);
  }

  lemma ExpansionTidy(c: Ctx, i: nat)
    requires i <= |c.p.pods| == |c.p.claims| && Tidy(c.w, c.p)
    requires i < |c.p.pods| || Grow(c, i).1.None?
    requires c.w.stored in {None, Some(c.p)}
    ensures NoOrphans(ExpansionEffect(c, i).0.w)
  {
    GrowTidy(c, i);
    var (g, early) := Grow(c, i);
    if early.None? {
      PutTidy(g);
    }
  }

  // ----- an append -----

  /** An append whose pod is made and whose claim's creation then fails. */
  predicate AppendInterrupted(w: World, p: Parent)
    requires |p.pods| == |p.claims|
  {
    && !HeldBack(p) && |p.pods| < p.spec.size && ServiceReady(w, p, |p.pods|)
    && p.spec.claimTemplate.Some? && |w.log| !in w.faults && |w.log| + 1 in w.faults
  }

  /** An append that stops before its pod is made leaves the objects as they were. */
  lemma StoppedEarly(c: Ctx)
    requires |c.p.pods| == |c.p.claims|
    requires !ServiceReady(c.w, c.p, |c.p.pods|) || |c.w.log| in c.w.faults
    ensures var (g, early) := Grow(c, |c.p.pods|);
      early.Some? && g.w.pods == c.w.pods && g.w.claims == c.w.claims
  {
  }

  lemma AppendTidyExactly(w: World, p: Parent)
    requires w.stored == Some(p) && WellFormed(p) && !HeldBack(p) && |p.pods| < p.spec.size && Tidy(w, p)
    ensures NoOrphans(ExpansionEffect(Ctx(w, p), |p.pods|).0.w) <==> !AppendInterrupted(w, p)
  {
    var c, n := Ctx(w, p), |p.pods|;
    assert PodAt(w, p, n).None? && ClaimAt(w, p, n).None?;
    GrowReachesEnd(c);
    if AppendInterrupted(w, p) {
      FailedClaimLeavesStrayPod(w, p);
      assert GetIndex(p) == n && Core(w) == ExpansionEffect(c, n).0.w;
    } else if !ServiceReady(w, p, n) || |w.log| in w.faults {
      StoppedEarly(c);
      FewerObjects(w, p, Grow(c, n).0.w, p);
    } else {
      ExpansionTidy(c, n);
    }
  }

  // ----- CoreCtrl -----

  lemma MaintainTidy(c: Ctx)
    requires |c.p.pods| == |c.p.claims| && Tidy(c.w, c.p)
    requires c.w.stored in {None, Some(c.p)}
    ensures NoOrphans(MaintainEffect(c).0.w)
  {
    var marked := PodIsOkEffect(c.w, c.p);
    FewerObjects(c.w, c.p, c.w, marked.0);
    PutTidy(Ctx(c.w, marked.0));
    var c1 := MarkEffect(c);
    assert Tidy(c1.w, c1.p);
    var index := FirstNeedingPod(c1.w, c1.p.pods);
    if index.Some? {
      ExpansionTidy(c1, index.value);
    }
  }

  lemma DeleteTidy(c: Ctx)
    requires |c.p.pods| == |c.p.claims| && Tidy(c.w, c.p) && c.w.stored == Some(c.p)
    ensures NoOrphans(DeleteEffect(c).0.w)
  {
    var (d, early) := Erase(c);
    EraseShrinks(c);
    FewerObjects(c.w, c.p, d.w, d.p);
    FewerObjects(c.w, c.p, d.w, c.p);
    if early.None? {
      PutTidy(d);
    }
  }

  lemma EraseShrinks(c: Ctx)
    requires |c.p.pods| == |c.p.claims|
    ensures var d := Erase(c).0;
      && d.w.pods.Keys <= c.w.pods.Keys && d.w.claims.Keys <= c.w.claims.Keys && d.w.stored == c.w.stored
      && (d.p == c.p || d.p == DropFinalizer(c.p))
  {
    hide Erase, DropFinalizer;
    ErasePieces(c);
    var w1 := VolumeControl.SetPVRetainEffect(c.w, c.p).0;
    Deletion.RetainLoop(c.w, c.p.claims, 0, 0);
    var w2 := DeletePodAllEffect(w1, c.p).0;
    Deletion.PodLoop(w1, c.p.pods, 0, 0);
    var w3 := DeletePvcAllEffect(w2, c.p).0;
    Deletion.ClaimLoop(w2, c.p.claims, 0, 0);
    Deletion.FreeLoop(w3, c.p.claims, 0, 0);
  }

  /** The two ways a reconcile of the parent leaves an orphan. */
  predicate CoreLeavesOrphan(w: World, p: Parent)
    requires |p.pods| == |p.claims|
  {
    AppendInterrupted(w, p) || (DropsTwo(w, p) && !SlotGone(w, p, |p.pods| - 1))
  }

  /** Whatever calls fail, a reconcile leaves an orphan exactly if it makes a pod past the end and
      fails to make its claim, or drops two slots while an object of the last one is still there. */
  lemma CoreTidyExactly(w: World, p: Parent)
    requires w.stored == Some(p) && WellFormed(p) && Storable(p) && NoOrphans(w)
    ensures NoOrphans(Core(w)) <==> !CoreLeavesOrphan(w, p)
  {
    var c, n := Ctx(w, p), GetIndex(p);
    GetIndexExactly(p);
    if p.deletionMarked && n == p.spec.size {
      DeleteTidy(c);
    } else if n < p.spec.size {
      if HeldBack(p) {
        ExpansionTidy(c, n);
      } else {
        AppendTidyExactly(w, p);
      }
    } else if n > p.spec.size {
      ShrinkOrphans(w, p);
    } else {
      FewerObjects(w, p, w, AddFinalizer(p));
      PutTidy(Ctx(w, AddFinalizer(p)));
      MaintainTidy(SetFinalizerEffect(c));
    }
  }

  // ----- events -----

  ghost predicate OnlyRemoves(c: Ctx, d: Ctx) {
    && d.w.pods.Keys <= c.w.pods.Keys && d.w.claims.Keys == c.w.claims.Keys && d.w.stored == c.w.stored
    && SameHead(d.p, c.p)
  }

  lemma NodeLostRemoves(c: Ctx, pod: Pod, i: nat)
    requires i < |c.p.pods| == |c.p.claims|
    ensures OnlyRemoves(c, NodeLostEffect(c, pod, i).0)
  {
    NodeLostCases(c, pod, i);
    var (w1, ok) := DeletePodMandatoryEffect(c.w, pod);
    assert w1.pods.Keys <= c.w.pods.Keys && w1.claims == c.w.claims && w1.stored == c.w.stored;
  }

  lemma TimedOutRemoves(c: Ctx, pod: Pod, i: nat)
    requires i < |c.p.pods| == |c.p.claims|
    ensures OnlyRemoves(c, TimedOutEffect(c, pod, i).0)
    ensures TimedOutEffect(c, pod, i).0.w.pods.Keys == c.w.pods.Keys
  {
    var w1 := DeletePodIn(c.w, pod.name).0;
    assert w1.pods.Keys == c.w.pods.Keys;
    InsistentDeleteKeepsPods(w1, ClaimName(c.p, i));
  }

  lemma PodEventObjects(c: Ctx, pod: Pod, i: nat)
    requires i < |c.p.pods| == |c.p.claims|
    ensures OnlyRemoves(c, MonitorPodEffect(c, pod, i).0)
  {
    if !pod.terminating && !NodeReadyIn(c.w, pod.nodeName) {
      NodeLostRemoves(c, pod, i);
    } else if !pod.terminating && !PodRunning(pod) && c.p.pods[i].status == CreateTimeOut {
      TimedOutRemoves(c, pod, i);
    }
  }

  /** A pod event that cuts the last slot off: its second timeout notice, with a delete that succeeds. */
  predicate Cuts(w: World, p: Parent, pod: Pod) {
    && |p.pods| > 0 && Ordinal(pod.annotations) == |p.pods| - 1 && p.pods[|p.pods| - 1].status == CreateTimeOut
    && !pod.terminating && NodeReadyIn(w, pod.nodeName) && !PodRunning(pod) && |w.log| !in w.faults
  }

  lemma CutsShorten(w: World, p: Parent, pod: Pod)
    requires |p.pods| == |p.claims| && NamedByOwner(pod)
    ensures var i, d := Ordinal(pod.annotations), MonitorPodEffect(Ctx(w, p), pod, Ordinal(pod.annotations)).0;
      && (Cuts(w, p, pod) <==> |d.p.pods| < |p.pods|)
      && (Cuts(w, p, pod) ==> MonitorPodEffect(Ctx(w, p), pod, i).1 && d == TimedOutEffect(Ctx(w, p), pod, i).0)
  {
    var i := Ordinal(pod.annotations);
    if i < |p.pods| {
      MonitorPodSlots(Ctx(w, p), pod, i);
      SecondNoticeRecords(Ctx(w, p), pod, i);
    }
  }

  /** A pod event leaves an orphan exactly if it cuts a slot one of whose objects is still there. */
  lemma PodEventTidyExactly(w: World, p: Parent, pod: Pod)
    requires w.stored == Some(p) && |p.pods| == |p.claims| && Storable(p) && NamedByOwner(pod) && NoOrphans(w)
    requires OwnerStored(w, pod.annotations)
    ensures NoOrphans(MonitorPod(w, pod)) <==> !(Cuts(w, p, pod) && !SlotGone(w, p, |p.pods| - 1))
  {
    var c, i := Ctx(w, p), Ordinal(pod.annotations);
    CutsShorten(w, p, pod);
    if i < |p.pods| {
      var (d, changed) := MonitorPodEffect(c, pod, i);
      PodEventObjects(c, pod, i);
      if Cuts(w, p, pod) {
        CutTidyExactly(w, p, pod);
      } else {
        MonitorPodSlots(c, pod, i);
        FewerObjects(w, p, d.w, d.p);
        FewerObjects(w, p, d.w, p);
        PutTidy(d);
      }
    }
  }

  lemma CutTidyExactly(w: World, p: Parent, pod: Pod)
    requires w.stored == Some(p) && |p.pods| == |p.claims| && Storable(p) && NamedByOwner(pod) && NoOrphans(w)
    requires OwnerStored(w, pod.annotations) && Cuts(w, p, pod)
    ensures NoOrphans(MonitorPod(w, pod)) <==> SlotGone(w, p, |p.pods| - 1)
  {
    var c, i := Ctx(w, p), Ordinal(pod.annotations);
    CutsShorten(w, p, pod);
    SecondNoticeRecords(c, pod, i);
    TimedOutRemoves(c, pod, i);
    var d := TimedOutEffect(c, pod, i).0;
    var v, q := Put(d).w, Put(d).p;
    assert MonitorPod(w, pod) == v && v.stored == Some(q) && |q.pods| == i;
    ObjectsSame(w, p, v, q);
    assert SlotGone(v, q, i) <==> SlotGone(w, p, i);
    forall j: nat | j > i ensures PodAt(v, q, j).None? && ClaimAt(v, q, j).None? {
      assert SlotGone(w, p, j) && SlotGone(v, q, j);
    }
    if !SlotGone(w, p, i) {
      assert !(PodAt(v, q, i).None? && ClaimAt(v, q, i).None?);
    }
  }

  lemma ClaimEventTidy(w: World, claim: Claim)
    requires ListsAgree(w) && NoOrphans(w)
    ensures NoOrphans(MonitorClaim(w, claim))
  {
    if OwnerStored(w, claim.annotations) && Ordinal(claim.annotations) >= 0 {
      var p := w.stored.value;
      var (q, changed) := MonitorClaimEffect(p, claim, Ordinal(claim.annotations));
      FewerObjects(w, p, w, q);
      PutTidy(Ctx(w, q));
    }
  }

  // ----- runs -----

  ghost predicate StoredFits(w: World) {
    w.stored.Some? ==> Storable(w.stored.value)
  }

  /** From outside no object appears under the parent's names, and only storable parents are stored. */
  ghost predicate Undemanding(w: World, e: Event) {
    match e
    case Meanwhile(v) =>
      && v.pods.Keys <= w.pods.Keys && v.claims.Keys <= w.claims.Keys && StoredFits(v)
      && (v.stored.Some? ==> w.stored.Some?)
      && (v.stored.Some? && v.stored.value.spec.claimTemplate.Some? ==> w.stored.value.spec.claimTemplate.Some?)
    case _ => true
  }

  /** The steps that leave an orphan. */
  predicate LeavesOrphan(w: World, e: Event) {
    w.stored.Some? && ListsAgree(w) &&
    var p := w.stored.value;
    match e
    case CoreRuns => CoreLeavesOrphan(w, p)
    case PodEvent(pod) =>
      NamedByOwner(pod) && OwnerStored(w, pod.annotations) && Cuts(w, p, pod) && !SlotGone(w, p, |p.pods| - 1)
    case _ => false
  }

  lemma DoTidyExactly(scope: Scope, w: World, e: Event)
    requires Sound(scope, w) && StoredFits(w) && Allowed(scope, w, e) && Undemanding(w, e) && NoOrphans(w)
    ensures NoOrphans(Do(w, e)) <==> !LeavesOrphan(w, e)
  {
    match e
    case CoreRuns => if w.stored.Some? { CoreTidyExactly(w, w.stored.value); }
    case PodEvent(pod) =>
      if NamedByOwner(pod) && OwnerStored(w, pod.annotations) { PodEventTidyExactly(w, w.stored.value, pod); }
    case ClaimEvent(claim) => ClaimEventTidy(w, claim);
    case Meanwhile(v) =>
      if v.stored.Some? {
        FewerObjects(w, w.stored.value, v, v.stored.value);
      }
  }

  lemma MaintainFits(c: Ctx)
    requires |c.p.pods| == |c.p.claims| && StoredFits(c.w)
    ensures StoredFits(MaintainEffect(c).0.w)
  {
    hide Grow, FirstFrom, PodIsOkEffect;
  }

  lemma PutFits(c: Ctx)
    requires StoredFits(c.w)
    ensures StoredFits(Put(c).w)
  {
  }

  lemma CallsFit(c: Ctx, n: nat)
    requires |c.p.pods| == |c.p.claims| && StoredFits(c.w)
    ensures StoredFits(DeleteEffect(c).0.w) && StoredFits(SetFinalizerEffect(c).w)
    ensures n <= |c.p.pods| ==> StoredFits(ExpansionEffect(c, n).0.w)
    ensures 1 <= n <= |c.p.pods| ==> StoredFits(ShrinkEffect(c, n).0.w)
  {
    Deletion.EraseWorld(c);
    PutFits(Erase(c).0);
    PutFits(Ctx(c.w, AddFinalizer(c.p)));
    if n <= |c.p.pods| {
      PutFits(Grow(c, n).0);
    }
    if 1 <= n <= |c.p.pods| {
      CutShape(c, n);
      PutFits(Cut(c, n).0);
    }
    hide Erase, Grow, Cut, WantsFinalizer, Put;
  }

  lemma CoreFits(w: World)
    requires ListsAgree(w) && StoredFits(w)
    ensures StoredFits(Core(w))
  {
    if w.stored.Some? {
      var c := Ctx(w, w.stored.value);
      hide Erase, Grow, Cut, DeleteEffect, ExpansionEffect, ShrinkEffect, MaintainEffect, SetFinalizerEffect;
      hide StoredFits;
      CallsFit(c, GetIndex(c.p));
      assert |SetFinalizerEffect(c).p.pods| == |SetFinalizerEffect(c).p.claims|;
      MaintainFits(SetFinalizerEffect(c));
    }
  }

  lemma DoFits(scope: Scope, w: World, e: Event)
    requires Sound(scope, w) && StoredFits(w) && Allowed(scope, w, e) && Undemanding(w, e)
    ensures StoredFits(Do(w, e))
  {
    match e
    case CoreRuns => CoreFits(w);
    case PodEvent(pod) =>
      if NamedByOwner(pod) && OwnerStored(w, pod.annotations) && Ordinal(pod.annotations) < |w.stored.value.pods| {
        PodEventObjects(Ctx(w, w.stored.value), pod, Ordinal(pod.annotations));
      }
    case _ =>
  }

  ghost predicate UndemandingAt(w: World, events: seq<Event>, m: nat)
    requires m < |events|
  {
    Undemanding(StateAt(w, events, m), events[m])
  }

  ghost predicate TidyHistory(scope: Scope, w: World, events: seq<Event>) {
    && History(scope, w, events) && StoredFits(w) && NoOrphans(w)
    && forall m: nat :: m < |events| ==> UndemandingAt(w, events, m)
  }

  lemma {:induction false} FitsAt(scope: Scope, w: World, events: seq<Event>, k: nat)
    requires TidyHistory(scope, w, events) && k <= |events|
    ensures Sound(scope, StateAt(w, events, k)) && StoredFits(StateAt(w, events, k))
  {
    hide Do, Undemanding, Sound, Allowed, StoredFits, NoOrphans;
    SoundAt(scope, w, events, k);
    if k > 0 {
      FitsAt(scope, w, events, k - 1);
      assert AllowedAt(scope, w, events, k - 1) && UndemandingAt(w, events, k - 1);
      DoFits(scope, StateAt(w, events, k - 1), events[k - 1]);
    }
  }

  /** Every state of a run none of whose steps is one of these is free of orphans, whatever calls fail,
      pods die, nodes are lost, sizes are set and events arrive in between. */
  lemma {:induction false} BenignRunsLeaveNoOrphans(scope: Scope, w: World, events: seq<Event>, k: nat)
    requires TidyHistory(scope, w, events) && k <= |events|
    requires forall m :: 0 <= m < k ==> !LeavesOrphan(StateAt(w, events, m), events[m])
    ensures NoOrphans(StateAt(w, events, k))
  {
    hide Do, Undemanding, Sound, Allowed, NoOrphans, LeavesOrphan, StoredFits;
    if k > 0 {
      BenignRunsLeaveNoOrphans(scope, w, events, k - 1);
      FitsAt(scope, w, events, k - 1);
      assert AllowedAt(scope, w, events, k - 1) && UndemandingAt(w, events, k - 1);
      DoTidyExactly(scope, StateAt(w, events, k - 1), events[k - 1]);
    }
  }

  lemma OrphanStep(scope: Scope, w: World, events: seq<Event>, m: nat)
    requires TidyHistory(scope, w, events) && m < |events| && NoOrphans(StateAt(w, events, m))
    requires LeavesOrphan(StateAt(w, events, m), events[m])
    ensures !NoOrphans(StateAt(w, events, m + 1))
  {
    hide Do, Undemanding, Sound, Allowed, NoOrphans, LeavesOrphan, StoredFits;
    FitsAt(scope, w, events, m);
    assert AllowedAt(scope, w, events, m) && UndemandingAt(w, events, m);
    DoTidyExactly(scope, StateAt(w, events, m), events[m]);
  }

  ghost predicate AlwaysTidy(w: World, events: seq<Event>) {
    forall k :: 0 <= k <= |events| ==> NoOrphans(StateAt(w, events, k))
  }

  ghost predicate NoStepLeavesOrphan(w: World, events: seq<Event>) {
    forall m :: 0 <= m < |events| ==> !LeavesOrphan(StateAt(w, events, m), events[m])
  }

  /** And no other: the first such step of any other run leaves one. */
  lemma OrphansExactly(scope: Scope, w: World, events: seq<Event>)
    requires TidyHistory(scope, w, events)
    ensures AlwaysTidy(w, events) <==> NoStepLeavesOrphan(w, events)
  {
    hide Do, NoOrphans, LeavesOrphan, TidyHistory, StateAt;
    if NoStepLeavesOrphan(w, events) {
      forall k | 0 <= k <= |events| ensures NoOrphans(StateAt(w, events, k)) {
        BenignRunsLeaveNoOrphans(scope, w, events, k);
      }
    }
    if AlwaysTidy(w, events) {
      forall m | 0 <= m < |events| ensures !LeavesOrphan(StateAt(w, events, m), events[m]) {
        assert NoOrphans(StateAt(w, events, m)) && NoOrphans(StateAt(w, events, m + 1));
        if LeavesOrphan(StateAt(w, events, m), events[m]) {
          OrphanStep(scope, w, events, m);
        }
      }
    }
  }
}
