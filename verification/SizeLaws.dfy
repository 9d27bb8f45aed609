// How one call of CoreCtrl moves the number of slots: never past the requested size, one slot up in
// order, one slot down or, exactly when the last slot holds getIndex back, two; and what that leaves.
module SizeLaws {
  import opened Tools
  import opened Types
  import opened Api
  import opened PodControl
  import opened ClaimControl
  import opened Controller
  import opened Convergence
  import opened Examples

  /** The last slot holds the slot count back: it timed out, waits for its claim, or is still being
      created within the requested size. */
  predicate HeldBack(p: Parent)
    requires |p.pods| == |p.claims|
  {
    |p.pods| > 0 &&
    var last := |p.pods| - 1;
    || p.pods[last].status == CreateTimeOut
    || (p.pods[last].status == Preparing && last < p.spec.size)
    || p.claims[last].status == ClaimPending
  }

  /** getIndex steps back exactly then. */
  lemma GetIndexExactly(p: Parent)
    requires |p.pods| == |p.claims|
    ensures GetIndex(p) == if HeldBack(p) then |p.pods| - 1 else |p.pods|
  {
  }

  /** Both objects of slot i are gone, as far as a shrink of it looks. */
  predicate SlotGone(w: World, p: Parent, i: nat) {
    PodAt(w, p, i).None? && ClaimAt(w, p, i).None?
  }

  /** What one call does to the number of slots, on any copy, in any world, with any failing calls. */
  lemma SlotCountLaw(c: Ctx)
    requires WellFormed(c.p)
    ensures var n, s, held, m := |c.p.pods|, c.p.spec.size, HeldBack(c.p), |CoreEffect(c).0.p.pods|;
      && |CoreEffect(c).0.p.claims| == m
      && (m == n || (m == n + 1 && !held && m <= s)
          || (m == n - 1 && !held && m >= s) || (m == n - 2 && held && m >= s))
      && (m == n + 1 ==> n == 0 || c.p.pods[n - 1].status != Preparing)
      && (m == n - 1 <==> n > s && !held && SlotGone(c.w, c.p, n - 1))
      && (m == n - 2 && n >= 2 <==> n - 1 > s && held && SlotGone(c.w, c.p, n - 2))
  {
    var n: int, s: int := GetIndex(c.p), c.p.spec.size;
    if c.p.deletionMarked && n == s {
      RemoveKeepsSlots(c);
    } else if n < s {
      GrowCounts(c, n);
    } else if n > s {
      CutCounts(c, n);
    } else {
      MaintainCounts(SetFinalizerEffect(c));
    }
  }

  lemma RemoveKeepsSlots(c: Ctx)
    ensures DeleteEffect(c).0.p.pods == c.p.pods && DeleteEffect(c).0.p.claims == c.p.claims
  {
  }

  lemma GrowCounts(c: Ctx, i: nat)
    requires i <= |c.p.pods| == |c.p.claims|
    ensures var q := ExpansionEffect(c, i).0.p;
      && |q.pods| == |q.claims|
      && (|q.pods| == |c.p.pods| || (i == |c.p.pods| && |q.pods| == i + 1))
  {
  }

  lemma CutCounts(c: Ctx, i: nat)
    requires 1 <= i <= |c.p.pods| == |c.p.claims|
    ensures var q := ShrinkEffect(c, i).0.p;
      && |q.pods| == |q.claims|
      && |q.pods| == if SlotGone(c.w, c.p, i - 1) then i - 1 else |c.p.pods|
  {
  }

  lemma MaintainCounts(c: Ctx)
    requires |c.p.pods| == |c.p.claims|
    ensures var q := MaintainEffect(c).0.p; |q.pods| == |c.p.pods| && |q.claims| == |c.p.claims|
  {
    var c1 := MarkEffect(c);
    var index := FirstNeedingPod(c1.w, c1.p.pods);
    if index.Some? {
      GrowCounts(c1, index.value);
    }
  }

  /** So no call overshoots or undershoots the requested size. */
  lemma DistanceNeverGrows(c: Ctx)
    requires WellFormed(c.p)
    ensures Distance(CoreEffect(c).0.p.(spec := c.p.spec)) <= Distance(c.p)
    ensures |CoreEffect(c).0.p.pods| <= (if |c.p.pods| > c.p.spec.size then |c.p.pods| else c.p.spec.size)
    ensures |CoreEffect(c).0.p.pods| < |c.p.pods| ==> |CoreEffect(c).0.p.pods| >= c.p.spec.size
  {
    SlotCountLaw(c);
  }

  lemma AppendShape(c: Ctx)
    requires |c.p.pods| == |c.p.claims| < 0x7fff_ffff
    ensures var n, q := |c.p.pods|, ExpansionEffect(c, |c.p.pods|).0.p;
      |q.pods| == n + 1 ==>
        && |q.claims| == n + 1 && q.pods[..n] == c.p.pods && q.claims[..n] == c.p.claims
        && q.pods[n] == PodSlot(PodName(c.p, n), Preparing, n, "")
        && q.claims[n].index == n
        && q.claims[n].status == (if c.p.spec.claimTemplate.Some? then ClaimPending else NoPhase)
        && (c.p.spec.claimTemplate.None? ==> q.claims[n] == ClaimSlot(n, "none", NoPhase, "", ["none"], "", ""))
  {
    var n := |c.p.pods|;
    if Grow(c, n).1.None? {
      var (d, pod) := ExpansionPodEffect(c, n);
      var (e, claim) := Controller.ClaimPart(d, n);
      assert SameSlots(e.p, c.p) && SameSlots(d.p, c.p);
      assert Grow(c, n).0.p == WithSlots(e.p, n, pod.value, claim.value);
    }
  }

  /** Ordered rollout: a slot is only ever appended after one that is neither being created, nor
      timed out, nor waiting for its claim; and it is the next in order and itself in flight. */
  lemma OrderedRollout(c: Ctx)
    requires WellFormed(c.p) && |CoreEffect(c).0.p.pods| > |c.p.pods|
    ensures var n, q := |c.p.pods|, CoreEffect(c).0.p;
      && (n > 0 ==> c.p.pods[n - 1].status !in {Preparing, CreateTimeOut} && c.p.claims[n - 1].status != ClaimPending)
      && |q.pods| == |q.claims| == n + 1 && q.pods[..n] == c.p.pods && q.claims[..n] == c.p.claims
      && q.pods[n] == PodSlot(PodName(c.p, n), Preparing, n, "")
      && q.claims[n].index == n
      && q.claims[n].status == (if c.p.spec.claimTemplate.Some? then ClaimPending else NoPhase)
      && (c.p.spec.claimTemplate.None? ==> q.claims[n] == ClaimSlot(n, "none", NoPhase, "", ["none"], "", ""))
  {
    SlotCountLaw(c);
    var n := |c.p.pods|;
    assert GetIndex(c.p) == n < c.p.spec.size;
    assert CoreEffect(c) == ExpansionEffect(c, n);
    AppendShape(c);
  }

  /** Expansion past the end gets to its write exactly when both names are free, the service is there
      if slot 0 needs it, and the calls it makes succeed. */
  lemma GrowReachesEnd(c: Ctx)
    requires |c.p.pods| == |c.p.claims|
    ensures var n, t := |c.p.pods|, |c.w.log|;
      Grow(c, n).1.None? <==>
        && (n == 0 && c.p.spec.hasService ==> ServiceName(c.p) in c.w.services)
        && SlotGone(c.w, c.p, n)
        && t !in c.w.faults && (c.p.spec.claimTemplate.Some? ==> t + 1 !in c.w.faults)
  {
    hide Stamp, Dashed, IsPvCanUse, IntToInt32;
    var n := |c.p.pods|;
    var (d, pod) := ExpansionPodEffect(c, n);
    if pod.Some? {
      var (e, claim) := Controller.ClaimPart(d, n);
      assert SameSlots(e.p, c.p) && ClaimName(d.p, n) == ClaimName(c.p, n);
    }
  }

  lemma AppendExactly(c: Ctx)
    requires WellFormed(c.p) && !HeldBack(c.p) && |c.p.pods| < c.p.spec.size
    ensures var n, t := |c.p.pods|, |c.w.log|;
      |CoreEffect(c).0.p.pods| == n + 1 <==>
        && (n == 0 && c.p.spec.hasService ==> ServiceName(c.p) in c.w.services)
        && SlotGone(c.w, c.p, n)
        && t !in c.w.faults && (c.p.spec.claimTemplate.Some? ==> t + 1 !in c.w.faults)
  {
    hide ShrinkEffect, MaintainEffect, DeleteEffect, GrowObjects;
    var n := |c.p.pods|;
    assert GetIndex(c.p) == n;
    GrowReachesEnd(c);
    AppendLength(c);
  }

  lemma AppendLength(c: Ctx)
    requires |c.p.pods| == |c.p.claims|
    ensures |ExpansionEffect(c, |c.p.pods|).0.p.pods| == |c.p.pods| + 1 <==> Grow(c, |c.p.pods|).1.None?
  {
    hide ExpansionPodEffect, ClaimPart;
  }

  /** An interrupted append wedges: once the pod is there without its slot, the call changes nothing
      until something else removes the pod. */
  lemma StrayPodWedges(c: Ctx)
    requires WellFormed(c.p) && !HeldBack(c.p) && |c.p.pods| < c.p.spec.size
    requires |c.p.pods| == 0 && c.p.spec.hasService ==> ServiceName(c.p) in c.w.services
    requires PodAt(c.w, c.p, |c.p.pods|).Some?
    ensures CoreEffect(c) == (c, Requeue)
  {
    assert GetIndex(c.p) == |c.p.pods|;
  }

  /** ... and a claim step that fails after the pod step is how such a pod comes about. */
  lemma FailedClaimLeavesStrayPod(w: World, p: Parent)
    requires w.stored == Some(p) && WellFormed(p) && !HeldBack(p) && |p.pods| < p.spec.size
    requires |p.pods| == 0 && p.spec.hasService ==> ServiceName(p) in w.services
    requires p.spec.claimTemplate.Some? && PodAt(w, p, |p.pods|).None?
    requires |w.log| !in w.faults
    requires |w.log| + 1 in w.faults || ClaimAt(w, p, |p.pods|).Some?
    ensures Core(w).stored == Some(p) && PodAt(Core(w), p, |p.pods|).Some?
    ensures Core(Core(w)) == Core(w)
  {
    hide Dashed, Stamp, IsPvCanUse, MaintainEffect, Cut, Erase, SetFinalizerEffect;
    var n, c := |p.pods|, Ctx(w, p);
    assert GetIndex(p) == n;
    var (d, pod) := ExpansionPodEffect(c, n);
    assert d.w.pods == w.pods[PodName(p, n) := TemplatePod(w.now, p, n)];
    var (e, claim) := Controller.ClaimPart(d, n);
    assert ClaimName(d.p, n) == ClaimName(p, n);
    assert claim.None?;
    assert Core(w) == e.w;
    StrayPodWedges(Ctx(e.w, p));
  }

  // ----- orphans -----

  /** What can be stored: the server drops a marked object that has no finalizer left. */
  predicate Storable(p: Parent) {
    p.deletionMarked ==> p.finalizers != []
  }

  /** No object of the parent stands beyond its recorded slots. */
  ghost predicate NoOrphans(w: World) {
    w.stored.Some? ==> NothingBeyond(w, w.stored.value, |w.stored.value.pods|)
  }

  /** The two slots a held-back shrink drops, while it looks at the first of them only. */
  predicate DropsTwo(w: World, p: Parent)
    requires |p.pods| == |p.claims|
  {
    |p.pods| - 1 > p.spec.size && HeldBack(p) && SlotGone(w, p, |p.pods| - 2)
  }

  /** The same objects seen by the same names. */
  lemma ObjectsSame(w: World, p: Parent, v: World, q: Parent)
    requires v.pods.Keys == w.pods.Keys && v.claims.Keys == w.claims.Keys && SameHead(q, p)
    ensures forall j: nat :: SlotGone(v, q, j) <==> SlotGone(w, p, j)
  {
    forall j: nat ensures SlotGone(v, q, j) <==> SlotGone(w, p, j) {
      assert PodName(q, j) == PodName(p, j) && ClaimName(q, j) == ClaimName(p, j);
      assert PodName(p, j) in v.pods <==> PodName(p, j) in w.pods;
      assert ClaimName(p, j) in v.claims <==> ClaimName(p, j) in w.claims;
    }
  }

  /** A shrink deletes no object outright, and truncates to the slot it found gone. */
  lemma CutShape(c: Ctx, i: nat)
    requires 1 <= i <= |c.p.pods| == |c.p.claims|
    ensures var (d, early) := Cut(c, i);
      && d.w.pods.Keys == c.w.pods.Keys && d.w.claims.Keys == c.w.claims.Keys && d.w.stored == c.w.stored
      && SameHead(d.p, c.p)
      && (early.None? <==> SlotGone(c.w, c.p, i - 1))
      && (early.None? ==> |d.p.pods| == i - 1)
  {
  }

  lemma ShrinkShape(w: World, p: Parent)
    requires w.stored == Some(p) && WellFormed(p) && GetIndex(p) > p.spec.size
    ensures var i, v := GetIndex(p), ShrinkEffect(Ctx(w, p), GetIndex(p)).0.w;
      && v.pods.Keys == w.pods.Keys && v.claims.Keys == w.claims.Keys
      && (Storable(p) ==> v.stored.Some?)
      && (v.stored.Some? ==>
            && SameHead(v.stored.value, p)
            && |v.stored.value.pods| == if SlotGone(w, p, i - 1) then i - 1 else |p.pods|)
  {
    CutShape(Ctx(w, p), GetIndex(p));
  }

  /** With calls that succeed, a shrink leaves no orphan behind exactly unless it drops two slots
      while an object of the last one is still there. */
  lemma ShrinkOrphans(w: World, p: Parent)
    requires w.stored == Some(p) && WellFormed(p) && NoOrphans(w) && Storable(p)
    requires GetIndex(p) > p.spec.size
    ensures NoOrphans(Core(w)) <==> !(DropsTwo(w, p) && !SlotGone(w, p, |p.pods| - 1))
  {
    hide ShrinkEffect, ExpansionEffect, MaintainEffect, DeleteEffect;
    var i: nat, n: nat, v := GetIndex(p), |p.pods|, Core(w);
    assert v == ShrinkEffect(Ctx(w, p), i).0.w;
    ShrinkShape(w, p);
    var q := v.stored.value;
    ObjectsSame(w, p, v, q);
    assert forall j: nat :: j >= n ==> SlotGone(w, p, j);
    assert DropsTwo(w, p) <==> i == n - 1 && SlotGone(w, p, i - 1);
    if DropsTwo(w, p) && !SlotGone(w, p, n - 1) {
      assert !SlotGone(v, q, n - 1) && |q.pods| == n - 2;
    } else {
      forall j: nat | j >= |q.pods| ensures PodAt(v, q, j).None? && ClaimAt(v, q, j).None? {
        assert SlotGone(w, p, j) && SlotGone(v, q, j);
      }
    }
  }

  // ----- a run that drops two slots -----

  /** Size 1, three slots, the last of which still waits for its claim. */
  ghost predicate ThreeForOne(w: World, p: Parent) {
    && w.stored == Some(p) && WellFormed(p) && !p.deletionMarked && w.faults == {}
    && |p.pods| == 3 && p.spec.size == 1 && p.spec.claimTemplate.Some?
    && p.pods[2].status == Running && p.claims[2].status == ClaimPending
  }

  function WithoutPod(w: World, n: string): World {
    w.(pods := w.pods - {n})
  }

  function WithoutClaim(w: World, n: string): World {
    w.(claims := w.claims - {n})
  }

  /** The size of three slots is set to 1 while the last one waits for its claim. The reconciles delete
      pod 1, and once it has vanished claim 1, and once that has vanished they drop slots 1 and 2, though
      pod 2 was never looked at: it lives on without a slot. */
  lemma DoubleDrop(w: World, p: Parent)
    requires ThreeForOne(w, p)
    requires PodAt(w, p, 1).Some? && ClaimAt(w, p, 1).Some? && PodAt(w, p, 2).Some?
    ensures var w1 := WithoutPod(Core(w), PodName(p, 1));
      var w2 := WithoutClaim(Core(w1), ClaimName(p, 1));
      && PodAt(Core(w), p, 1).Some? && PodAt(Core(w), p, 1).value.terminating
      && ClaimAt(Core(w1), p, 1).Some? && ClaimAt(Core(w1), p, 1).value.terminating
      && w1.stored == w2.stored == Some(p) && DropsTwo(w2, p)
      && Core(w2).stored.Some? && |Core(w2).stored.value.pods| == 1
      && PodAt(Core(w2), p, 2) == PodAt(w, p, 2) && !NoOrphans(Core(w2))
  {
    PodNamesDistinct(p);
    ClaimNamesDistinct(p);
    var w1 := WithoutPod(Core(w), PodName(p, 1));
    CoreDropsTwo(w, p);
    CoreDropsTwo(w1, p);
    var w2 := WithoutClaim(Core(w1), ClaimName(p, 1));
    CoreDropsTwo(w2, p);
    assert !SlotGone(w2, p, 2);
    assert PodName(Core(w2).stored.value, 2) == PodName(p, 2);
    assert PodAt(Core(w2), Core(w2).stored.value, 2).Some?;
  }

  /** Such a cluster, with no orphan in it yet. */
  lemma DoubleDropHappens() returns (w: World, p: Parent)
    ensures ThreeForOne(w, p) && NoOrphans(w)
    ensures PodAt(w, p, 1).Some? && ClaimAt(w, p, 1).Some? && PodAt(w, p, 2).Some?
  {
    hide TemplatePod, TemplateClaim, UpPod, Numeral, NothingBeyond;
    var q := SomeParent(3, 1, Some(TEMPLATE));
    p := q.(claims := q.claims[2 := q.claims[2].(status := ClaimPending)]);
    w := SomeWorld(p, map[PodName(p, 1) := UpPod(p, 1), PodName(p, 2) := UpPod(p, 2)],
      map[ClaimName(p, 1) := TemplateClaim(p, 1).(phase := Bound)]);
    OnlyThese(w, p);
  }

  lemma OnlyThese(w: World, p: Parent)
    requires w.pods.Keys == {PodName(p, 1), PodName(p, 2)} && w.claims.Keys == {ClaimName(p, 1)}
    ensures NothingBeyond(w, p, 3)
  {
    hide Dashed;
    PodNamesDistinct(p);
    ClaimNamesDistinct(p);
    forall i: nat | i >= 3 ensures PodAt(w, p, i).None? && ClaimAt(w, p, i).None? {
      assert PodName(p, i) !in w.pods.Keys && ClaimName(p, i) !in w.claims.Keys;
    }
  }

  /** One such reconcile: pod 1, then claim 1, then both slots. */
  lemma CoreDropsTwo(w: World, p: Parent)
    requires ThreeForOne(w, p)
    ensures var v := Core(w);
      if PodAt(w, p, 1).Some? then
        v == w.(pods := w.pods[PodName(p, 1) := Terminated(w.pods[PodName(p, 1)])], log := v.log)
      else if ClaimAt(w, p, 1).Some? then
        v == w.(claims := w.claims[ClaimName(p, 1) := w.claims[ClaimName(p, 1)].(terminating := true)], log := v.log)
      else v == Put(Ctx(w, Truncated(Defaulted(p), 1))).w
  {
    assert GetIndex(p) == 2;
    assert Core(w) == ShrinkEffect(Ctx(w, p), 2).0.w;
  }
}
