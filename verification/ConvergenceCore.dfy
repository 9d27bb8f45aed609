// CoreCtrl inside Convergence: shrink, expansion at a slot, expansion past the end, maintain.
module ConvergenceCore {
  import opened Tools
  import opened Types
  import opened Api
  import opened PodControl
  import opened ClaimControl
  import opened Controller
  import opened Convergence
  import opened ConvergenceSteps

  /** The slot count moved one towards the size, and the measure fell. */
  ghost predicate Advanced(w: World, p: Parent, v: World)
    requires |p.pods| == |p.claims|
  {
    && v.stored.Some? && Good(v, v.stored.value) && Total(v, v.stored.value) < Total(w, p)
    && v.stored.value.spec.size == p.spec.size != |p.pods|
    && |v.stored.value.pods| <= (if |p.pods| > p.spec.size then |p.pods| else p.spec.size)
  }

  lemma NoFurtherTransitive(w: World, p: Parent, v: World, q: Parent, u: World, r: Parent)
    requires |p.pods| == |p.claims| && NoFurther(w, p, v, q) && NoFurther(v, q, u, r)
    ensures NoFurther(w, p, u, r)
    ensures Nearer(w, p, v, q) || Nearer(v, q, u, r) ==> Nearer(w, p, u, r)
  {
  }

  lemma {:induction false} WorkSame(w: World, p: Parent, v: World, q: Parent, m: nat)
    requires m <= |p.pods| == |p.claims| && m <= |q.pods| == |q.claims|
    requires forall i :: 0 <= i < m ==> PodWork(v, q, i) == PodWork(w, p, i) && ClaimWork(v, q, i) == ClaimWork(w, p, i)
    ensures Work(v, q, m) == Work(w, p, m)
  {
    if m > 0 {
      WorkSame(w, p, v, q, m - 1);
    }
  }

  // ----- shrink -----

  /** Dropping a last slot that has no objects left. */
  lemma TruncationAdvances(w: World, p: Parent, v: World, q: Parent)
    requires w.stored == Some(p) && Good(w, p) && |p.pods| > p.spec.size
    requires PodAt(w, p, |p.pods| - 1).None? && ClaimAt(w, p, |p.pods| - 1).None?
    requires v == w.(stored := v.stored) && v.stored == Some(q)
    requires q.name == p.name && q.finalizers == p.finalizers && !q.deletionMarked
    requires q.spec.size == p.spec.size && q.spec.hasService == p.spec.hasService && ClaimBase(q) == ClaimBase(p)
    requires q.spec.claimTemplate == p.spec.claimTemplate
    requires q.pods == p.pods[..|p.pods| - 1] && q.claims == p.claims[..|p.pods| - 1]
    ensures Advanced(w, p, v)
  {
    hide Dashed, PodCost, ClaimCost, IsNodeReady, PodRunning;
    forall i: nat ensures PodAt(v, q, i) == PodAt(w, p, i) && ClaimAt(v, q, i) == ClaimAt(w, p, i) {
    }
    forall i | 0 <= i < |q.pods| ensures GoodSlot(v, q, i) && InLine(q, i) {
      assert GoodSlot(w, p, i);
    }
    forall i: nat | i >= |q.pods| ensures PodAt(v, q, i).None? && ClaimAt(v, q, i).None? {
    }
    WorkSame(w, p, v, q, Kept(p));
  }

  /** The three things a shrink of a good state may do. */
  lemma ShrinkCases(w: World, p: Parent)
    requires w.stored == Some(p) && Good(w, p) && |p.pods| > p.spec.size
    ensures var i, v := |p.pods| - 1, Core(w);
      if PodAt(w, p, i).Some? then
        v == WithPod(w, p, i, Some(Terminated(PodAt(w, p, i).value))).(log := v.log)
      else if ClaimAt(w, p, i).Some? then
        v == WithClaim(w, p, i, Some(ClaimAt(w, p, i).value.(terminating := true))).(log := v.log)
      else
        var q := if p.spec.claimTemplate.Some? then Defaulted(p) else p;
        v == Put(Ctx(w, Truncated(q, i))).w
  {
    var i := |p.pods| - 1;
    assert GoodSlot(w, p, i);
    assert GetIndex(p) == i + 1;
    assert Core(w) == ShrinkEffect(Ctx(w, p), i + 1).0.w;
  }

  lemma ShrinkTruncates(w: World, p: Parent)
    requires w.stored == Some(p) && Good(w, p) && |p.pods| > p.spec.size
    requires PodAt(w, p, |p.pods| - 1).None? && ClaimAt(w, p, |p.pods| - 1).None?
    ensures Advanced(w, p, Core(w))
  {
    hide CoreEffect, Core, Dashed, Advanced;
    ShrinkCases(w, p);
    TruncationAdvances(w, p, Core(w), Core(w).stored.value);
  }

  lemma ShrinkFine(w: World, p: Parent)
    requires w.stored == Some(p) && Good(w, p) && |p.pods| > p.spec.size
    ensures Fine(w, p, Core(w)) || Advanced(w, p, Core(w))
    ensures TailClaim(w, p) != 1 && TailPod(w, p) != 1 ==> Closer(w, p, Core(w)) || Advanced(w, p, Core(w))
  {
    hide CoreEffect, Core, Dashed, Advanced, Put, Truncated;
    var i, v := |p.pods| - 1, Core(w);
    if PodAt(w, p, i).None? && ClaimAt(w, p, i).None? {
      ShrinkTruncates(w, p);
    } else {
      ShrinkCases(w, p);
      assert GoodSlot(w, p, i) && InLine(p, i);
      if PodAt(w, p, i).Some? {
        PodChanged(w, p, i, Some(Terminated(PodAt(w, p, i).value)), v);
      } else {
        ClaimChanged(w, p, i, Some(ClaimAt(w, p, i).value.(terminating := true)), v);
      }
      OneSlot(w, p, v, p, i);
    }
  }

  // ----- expansion: the objects of slot i -----

  lemma StampReadsBack(m: Annotations, name: string, i: nat)
    requires i <= 0x7fff_ffff
    ensures OwnerName(Stamp(m, name, i)) == name && Ordinal(Stamp(m, name, i)) == i
  {
    assert PARENT_NAME[0] != INDEX[0];
    ParsePrinted(i);
  }

  // What expansion puts at slot i: the pod and slot that are there, or new ones.
  function NewPod(w: World, p: Parent, i: nat): Option<Pod> {
    if PodAt(w, p, i).Some? then PodAt(w, p, i) else Some(TemplatePod(w.now, p, i))
  }

  function NewPodSlot(w: World, p: Parent, i: nat): PodSlot
    requires i < |p.pods| || PodAt(w, p, i).None?
  {
    if PodAt(w, p, i).Some? then p.pods[i] else PodSlot(PodName(p, i), Preparing, IntToInt32(i), "")
  }

  predicate NewClaim(w: World, p: Parent, i: nat, claim: Option<Claim>, slot: ClaimSlot)
    requires i < |p.claims| || ClaimAt(w, p, i).None?
  {
    if p.spec.claimTemplate.None? then claim.None? && slot == NoClaimSlot(i)
    else if ClaimAt(w, p, i).Some? then claim == ClaimAt(w, p, i) && slot == p.claims[i]
    else
      && claim.Some? && !claim.value.terminating && claim.value.phase == ClaimPending
      && claim.value.annotations == Stamp(map[], p.name, i)
      && slot.index == IntToInt32(i) && slot.claimName == ClaimName(p, i) && slot.status == ClaimPending
  }

  lemma PodMade(c: Ctx, i: nat)
    requires c.w.faults == {}
    requires i < |c.p.pods| || PodAt(c.w, c.p, i).None?
    ensures var (d, slot) := ExpansionPodEffect(c, i);
      && d.w == c.w.(pods := d.w.pods, log := d.w.log)
      && SameElsewhere(c.w, c.p, d.w, d.p, i)
      && PodAt(d.w, d.p, i) == NewPod(c.w, c.p, i)
      && ClaimAt(d.w, d.p, i) == ClaimAt(c.w, c.p, i)
      && slot == Some(NewPodSlot(c.w, c.p, i))
  {
    PodNamesDistinct(c.p);
    var (d, slot) := ExpansionPodEffect(c, i);
    forall j: nat
      ensures j != i ==> PodAt(d.w, d.p, j) == PodAt(c.w, c.p, j)
      ensures ClaimAt(d.w, d.p, j) == ClaimAt(c.w, c.p, j)
    {
      assert ClaimName(d.p, j) == ClaimName(c.p, j) && PodName(d.p, j) == PodName(c.p, j);
    }
  }

  /** The same names and the claims map with at most claim i added: the objects follow. */
  lemma ClaimsFollow(w: World, p: Parent, v: World, q: Parent, i: nat)
    requires v == w.(claims := v.claims, log := v.log) && SameSlots(q, p)
    requires v.claims == w.claims ||
      (ClaimName(p, i) in v.claims && v.claims - {ClaimName(p, i)} == w.claims - {ClaimName(p, i)})
    ensures SameElsewhere(w, p, v, q, i) && PodAt(v, q, i) == PodAt(w, p, i)
  {
    ClaimNamesDistinct(p);
    forall j: nat
      ensures PodAt(v, q, j) == PodAt(w, p, j)
      ensures j != i ==> ClaimAt(v, q, j) == ClaimAt(w, p, j)
    {
      var n := ClaimName(p, j);
      assert ClaimName(q, j) == n;
      if j != i {
        assert n in v.claims <==> n in v.claims - {ClaimName(p, i)};
        assert n in w.claims <==> n in w.claims - {ClaimName(p, i)};
      }
    }
  }

  lemma ClaimPartMade(c: Ctx, i: nat)
    requires c.w.faults == {}
    requires i < |c.p.claims| || ClaimAt(c.w, c.p, i).None?
    ensures var (d, slot) := Controller.ClaimPart(c, i); var name := ClaimName(c.p, i);
      && d.w == c.w.(claims := d.w.claims, log := d.w.log)
      && (d.w.claims == c.w.claims || (name in d.w.claims && d.w.claims - {name} == c.w.claims - {name}))
      && slot.Some? && NewClaim(c.w, c.p, i, ClaimAt(d.w, d.p, i), slot.value)
  {
    hide Dashed, IsPvCanUse, Stamp, IntToInt32, NoClaimSlot;
  }

  lemma ClaimMade(c: Ctx, i: nat)
    requires c.w.faults == {}
    requires i < |c.p.claims| || ClaimAt(c.w, c.p, i).None?
    ensures var (d, slot) := Controller.ClaimPart(c, i);
      && d.w == c.w.(claims := d.w.claims, log := d.w.log)
      && SameElsewhere(c.w, c.p, d.w, d.p, i)
      && PodAt(d.w, d.p, i) == PodAt(c.w, c.p, i)
      && slot.Some? && NewClaim(c.w, c.p, i, ClaimAt(d.w, d.p, i), slot.value)
  {
    hide ClaimPart, NewClaim, SameElsewhere, SameSlots, Dashed;
    ClaimPartMade(c, i);
    var d := Controller.ClaimPart(c, i).0;
    ClaimsFollow(c.w, c.p, d.w, d.p, i);
  }

  predicate ServiceReady(w: World, p: Parent, i: nat) {
    i == 0 && p.spec.hasService ==> ServiceName(p) in w.services
  }

  lemma SameElsewhereTwice(w: World, p: Parent, v: World, q: Parent, u: World, r: Parent, i: nat)
    requires SameElsewhere(w, p, v, q, i) && SameElsewhere(v, q, u, r, i)
    ensures SameElsewhere(w, p, u, r, i)
  {
    forall j: nat | j != i ensures PodAt(u, r, j) == PodAt(w, p, j) && ClaimAt(u, r, j) == ClaimAt(w, p, j) {
    }
  }

  lemma SlotsAreNotObjects(w: World, p: Parent, i: nat, pods: seq<PodSlot>, claims: seq<ClaimSlot>)
    ensures var q := p.(pods := pods, claims := claims);
      SameElsewhere(w, p, w, q, i) && PodAt(w, q, i) == PodAt(w, p, i) && ClaimAt(w, q, i) == ClaimAt(w, p, i)
  {
    var q := p.(pods := pods, claims := claims);
    forall j: nat ensures PodAt(w, q, j) == PodAt(w, p, j) && ClaimAt(w, q, j) == ClaimAt(w, p, j) {
    }
  }

  /** With calls that succeed both objects of slot i are there before the slots are set. */
  lemma ObjectsMade(c: Ctx, i: nat)
    requires c.w.faults == {}
    requires i < |c.p.pods| == |c.p.claims| || (PodAt(c.w, c.p, i).None? && ClaimAt(c.w, c.p, i).None?)
    ensures var (d, pod) := ExpansionPodEffect(c, i); var (e, claim) := Controller.ClaimPart(d, i);
      && e.w == c.w.(pods := e.w.pods, claims := e.w.claims, log := e.w.log)
      && SameElsewhere(c.w, c.p, e.w, e.p, i)
      && PodAt(e.w, e.p, i) == NewPod(c.w, c.p, i)
      && pod == Some(NewPodSlot(c.w, c.p, i))
      && claim.Some? && NewClaim(c.w, c.p, i, ClaimAt(e.w, e.p, i), claim.value)
  {
    PodMade(c, i);
    var (d, pod) := ExpansionPodEffect(c, i);
    ClaimMade(d, i);
    var (e, claim) := Controller.ClaimPart(d, i);
    SameElsewhereTwice(c.w, c.p, d.w, d.p, e.w, e.p, i);
  }

  /** Expansion with calls that succeed reaches its write, with both objects of slot i in place. */
  lemma GrowShape(c: Ctx, i: nat)
    requires c.w.faults == {} && i <= |c.p.pods| == |c.p.claims| && ServiceReady(c.w, c.p, i)
    requires i < |c.p.pods| || (PodAt(c.w, c.p, i).None? && ClaimAt(c.w, c.p, i).None?)
    ensures var (g, early) := Grow(c, i);
      && early.None?
      && g.w == c.w.(pods := g.w.pods, claims := g.w.claims, log := g.w.log)
      && SameElsewhere(c.w, c.p, g.w, g.p, i)
      && PodAt(g.w, g.p, i) == NewPod(c.w, c.p, i)
      && |g.p.pods| == |g.p.claims| == (if i == |c.p.pods| then i + 1 else |c.p.pods|)
      && (forall j :: 0 <= j < |c.p.pods| && j != i ==> g.p.pods[j] == c.p.pods[j] && g.p.claims[j] == c.p.claims[j])
      && g.p.pods[i] == NewPodSlot(c.w, c.p, i)
      && NewClaim(c.w, c.p, i, ClaimAt(g.w, g.p, i), g.p.claims[i])
  {
    hide ExpansionPodEffect, ClaimPart, NewPod, NewPodSlot, NewClaim, Dashed;
    ObjectsMade(c, i);
    var (d, pod) := ExpansionPodEffect(c, i);
    var (e, claim) := Controller.ClaimPart(d, i);
    assert SameSlots(d.p, c.p) && SameSlots(e.p, d.p);
    var g := Ctx(e.w, WithSlots(e.p, i, pod.value, claim.value));
    assert Grow(c, i) == (g, None);
    SlotsAreNotObjects(e.w, e.p, i, g.p.pods, g.p.claims);
    SameElsewhereTwice(c.w, c.p, e.w, e.p, g.w, g.p, i);
  }

  /** The final write of an expansion changes nothing but the version. */
  lemma GrowWritten(c: Ctx, i: nat)
    requires c.w.stored == Some(c.p) && !c.p.deletionMarked
    requires c.w.faults == {} && i <= |c.p.pods| == |c.p.claims| && ServiceReady(c.w, c.p, i)
    requires i < |c.p.pods| || (PodAt(c.w, c.p, i).None? && ClaimAt(c.w, c.p, i).None?)
    ensures var g, d := Grow(c, i).0, ExpansionEffect(c, i).0;
      && d.w.stored == Some(d.p) && d.w == g.w.(stored := d.w.stored)
      && d.p == g.p.(version := d.p.version)
      && forall j: nat :: PodAt(d.w, d.p, j) == PodAt(g.w, g.p, j) && ClaimAt(d.w, d.p, j) == ClaimAt(g.w, g.p, j)
  {
    hide Grow, NewPod, NewPodSlot, NewClaim, SameElsewhere, Dashed, ServiceReady;
    GrowShape(c, i);
  }

  lemma NewSlotGood(w: World, p: Parent, v: World, q: Parent, i: nat)
    requires WellFormed(p) && w.faults == {} && w.podTimeout > 0 && i < 0x7fff_ffff && i < p.spec.size
    requires if i < |p.pods| then GoodSlot(w, p, i) else PodAt(w, p, i).None? && ClaimAt(w, p, i).None?
    requires SameElsewhere(w, p, v, q, i) && i < |q.pods| == |q.claims|
    requires PodAt(v, q, i) == NewPod(w, p, i) && q.pods[i] == NewPodSlot(w, p, i)
    requires NewClaim(w, p, i, ClaimAt(v, q, i), q.claims[i])
    ensures GoodSlot(v, q, i) && InLine(q, i)
    ensures if PodAt(w, p, i).None? then PodWork(v, q, i) <= 3 else PodWork(v, q, i) == PodWork(w, p, i)
    ensures if ClaimAt(w, p, i).None? then ClaimWork(v, q, i) <= 3 else ClaimWork(v, q, i) == ClaimWork(w, p, i)
  {
    StampReadsBack(if p.annotations.Some? then p.annotations.value else map[], p.name, i);
    StampReadsBack(map[], p.name, i);
  }

  // ----- expansion inside the list, past its end, and held up by the service -----

  lemma RegrowFine(w: World, p: Parent, i: nat)
    requires w.stored == Some(p) && Good(w, p) && ServiceReady(w, p, i)
    requires i < |p.pods| && i < p.spec.size
    ensures var d := ExpansionEffect(Ctx(w, p), i).0;
      && d.w.stored == Some(d.p) && Fine(w, p, d.w)
      && (PodAt(w, p, i).None? ==> Closer(w, p, d.w))
  {
    hide Grow, ExpansionEffect, Dashed;
    var c := Ctx(w, p);
    GrowShape(c, i);
    GrowWritten(c, i);
    var g, d := Grow(c, i).0, ExpansionEffect(c, i).0;
    assert GoodSlot(w, p, i) && InLine(p, i);
    assert SameElsewhere(w, p, d.w, d.p, i);
    NewSlotGood(w, p, d.w, d.p, i);
    OneSlot(w, p, d.w, d.p, i);
  }

  /** The old slots and one more after them. */
  ghost predicate OneMore(w: World, p: Parent, v: World, q: Parent) {
    && |q.pods| == |q.claims| == |p.pods| + 1 == |p.claims| + 1
    && SameElsewhere(w, p, v, q, |p.pods|)
    && forall j :: 0 <= j < |p.pods| ==> q.pods[j] == p.pods[j] && q.claims[j] == p.claims[j]
  }

  lemma OneMoreGood(w: World, p: Parent, v: World, q: Parent)
    requires Good(w, p) && |p.pods| < p.spec.size && OneMore(w, p, v, q)
    requires GoodSlot(v, q, |p.pods|) && InLine(q, |p.pods|)
    ensures Good(v, q)
  {
    var n := |p.pods|;
    forall j | 0 <= j < |q.pods| ensures GoodSlot(v, q, j) && InLine(q, j) {
      if j < n {
        assert GoodSlot(w, p, j) && InLine(p, j);
      }
    }
    forall j: nat | j >= |q.pods| ensures PodAt(v, q, j).None? && ClaimAt(v, q, j).None? {
      assert PodAt(w, p, j).None? && ClaimAt(w, p, j).None?;
    }
  }

  lemma OneMoreTotal(w: World, p: Parent, v: World, q: Parent)
    requires |p.pods| == |p.claims| && |p.pods| < p.spec.size && OneMore(w, p, v, q)
    requires PodWork(v, q, |p.pods|) <= 3 && ClaimWork(v, q, |p.pods|) <= 3
    ensures Total(v, q) < Total(w, p)
  {
    WorkSame(w, p, v, q, |p.pods|);
  }

  /** An append as a whole: one slot more, with both its objects. */
  lemma Appended(w: World, p: Parent)
    requires w.stored == Some(p) && Good(w, p) && |p.pods| < p.spec.size && ServiceReady(w, p, |p.pods|)
    ensures var n, d := |p.pods|, ExpansionEffect(Ctx(w, p), |p.pods|).0;
      && d.w.stored == Some(d.p) && OneMore(w, p, d.w, d.p)
      && PodAt(w, p, n).None? && ClaimAt(w, p, n).None?
      && PodAt(d.w, d.p, n) == NewPod(w, p, n) && d.p.pods[n] == NewPodSlot(w, p, n)
      && NewClaim(w, p, n, ClaimAt(d.w, d.p, n), d.p.claims[n])
  {
    hide Grow, ExpansionEffect, Dashed, NewPod, NewPodSlot, NewClaim;
    var c, n := Ctx(w, p), |p.pods|;
    assert PodAt(w, p, n).None? && ClaimAt(w, p, n).None?;
    GrowShape(c, n);
    GrowWritten(c, n);
    var d := ExpansionEffect(c, n).0;
    assert SameElsewhere(w, p, d.w, d.p, n);
  }

  lemma AppendAdvances(w: World, p: Parent)
    requires w.stored == Some(p) && Good(w, p) && |p.pods| < p.spec.size && ServiceReady(w, p, |p.pods|)
    ensures Advanced(w, p, ExpansionEffect(Ctx(w, p), |p.pods|).0.w)
  {
    hide ExpansionEffect, Dashed, NewPod, NewPodSlot, NewClaim;
    Appended(w, p);
    var d := ExpansionEffect(Ctx(w, p), |p.pods|).0;
    NewSlotGood(w, p, d.w, d.p, |p.pods|);
    OneMoreGood(w, p, d.w, d.p);
    OneMoreTotal(w, p, d.w, d.p);
  }

  lemma ServiceFirst(w: World, p: Parent)
    requires w.stored == Some(p) && Good(w, p) && !ServiceReady(w, p, 0)
    ensures Closer(w, p, ExpansionEffect(Ctx(w, p), 0).0.w)
  {
    var v := ExpansionEffect(Ctx(w, p), 0).0.w;
    assert v == w.(services := w.services + {ServiceName(p)}, log := v.log);
    forall j: nat ensures PodAt(v, p, j) == PodAt(w, p, j) && ClaimAt(v, p, j) == ClaimAt(w, p, j) {
    }
    forall j | 0 <= j < |p.pods| ensures GoodSlot(v, p, j) {
      assert GoodSlot(w, p, j);
    }
  }

  lemma ExpansionFine(w: World, p: Parent, i: nat)
    requires w.stored == Some(p) && Good(w, p) && i <= |p.pods| && i < p.spec.size
    ensures var v := ExpansionEffect(Ctx(w, p), i).0.w;
      && (Fine(w, p, v) || Advanced(w, p, v))
      && (i == |p.pods| || PodAt(w, p, i).None? ==> Closer(w, p, v) || Advanced(w, p, v))
  {
    if !ServiceReady(w, p, i) {
      ServiceFirst(w, p);
    } else if i < |p.pods| {
      RegrowFine(w, p, i);
    } else {
      AppendAdvances(w, p);
    }
  }

  // ----- maintain at the requested size -----

  /** A slot means the same after a write that leaves it alone. */
  lemma SlotUnmoved(w: World, p: Parent, v: World, q: Parent, i: nat)
    requires v == w.(stored := v.stored) && i < |p.pods| == |p.claims| && GoodSlot(w, p, i)
    requires q.name == p.name && q.spec == p.spec && q.pods == p.pods && q.claims == p.claims
    ensures GoodSlot(v, q, i)
  {
  }

  lemma FinalizerFine(w: World, p: Parent)
    requires w.stored == Some(p) && Good(w, p)
    ensures var c := SetFinalizerEffect(Ctx(w, p));
      && c.w.stored == Some(c.p) && Fine(w, p, c.w) && GROUP_VERSION in c.p.finalizers
      && (GROUP_VERSION !in p.finalizers ==> Closer(w, p, c.w))
      && c.p.pods == p.pods
      && forall j: nat :: PodAt(c.w, c.p, j) == PodAt(w, p, j) && ClaimAt(c.w, c.p, j) == ClaimAt(w, p, j)
  {
    hide PodCost, ClaimCost, PodRunning, IsNodeReady, Dashed, GoodSlot;
    var c := SetFinalizerEffect(Ctx(w, p));
    forall j: nat ensures PodAt(c.w, c.p, j) == PodAt(w, p, j) && ClaimAt(c.w, c.p, j) == ClaimAt(w, p, j) {
    }
    forall j | 0 <= j < |p.pods| ensures GoodSlot(c.w, c.p, j) && InLine(c.p, j) {
      assert GoodSlot(w, p, j) && InLine(p, j);
      SlotUnmoved(w, p, c.w, c.p, j);
    }
  }

  /** Marking the first slot that is out of step with its pod. */
  lemma MarkFine(w: World, p: Parent)
    requires w.stored == Some(p) && Good(w, p) && |p.pods| == p.spec.size
    ensures var c := MarkEffect(Ctx(w, p));
      && c.w.stored == Some(c.p) && Fine(w, p, c.w)
      && forall j: nat :: PodAt(c.w, c.p, j) == PodAt(w, p, j)
  {
    var c := MarkEffect(Ctx(w, p));
    var first := FirstOutOfStep(w, p.pods);
    if first.Some? {
      var i := first.value;
      assert GoodSlot(w, p, i) && InLine(p, i);
      var slot := c.p.pods[i];
      assert p.claims[i := p.claims[i]] == p.claims;
      assert c == Put(Ctx(w, Edited(p, i, slot, p.claims[i])));
      SlotChanged(w, p, i, slot, p.claims[i]);
      OneSlot(w, p, c.w, c.p, i);
    } else {
      Still(w, p);
    }
  }

  /** Some slot has lost its pod, and no other slot has anything left to do for its pod. */
  ghost predicate OnlyMissing(w: World, p: Parent) {
    && (exists i :: 0 <= i < |p.pods| && PodAt(w, p, i).None?)
    && (forall i :: 0 <= i < |p.pods| && PodAt(w, p, i).Some? ==> PodWork(w, p, i) == 0)
  }

  lemma MaintainFine(w: World, p: Parent)
    requires w.stored == Some(p) && Good(w, p) && |p.pods| == p.spec.size
    ensures var v := MaintainEffect(Ctx(w, p)).0.w;
      Fine(w, p, v) && (OnlyMissing(w, p) ==> Closer(w, p, v))
  {
    MarkFine(w, p);
    var c := MarkEffect(Ctx(w, p));
    var index := FirstNeedingPod(c.w, c.p.pods);
    if index.Some? {
      assert InLine(c.p, index.value);
      assert PodAt(c.w, c.p, index.value).None?;
      ExpansionFine(c.w, c.p, index.value);
      var d := ExpansionEffect(c, index.value).0;
      assert Closer(c.w, c.p, d.w);
      NoFurtherTransitive(w, p, c.w, c.p, d.w, d.w.stored.value);
    } else if OnlyMissing(w, p) {
      MarkFindsMissing(w, p);
    }
  }

  /** If the only slots out of step are those whose pod is gone, the mark makes maintain find one. */
  lemma MarkFindsMissing(w: World, p: Parent)
    requires w.stored == Some(p) && Good(w, p) && |p.pods| == p.spec.size
    requires OnlyMissing(w, p)
    ensures var c := MarkEffect(Ctx(w, p)); FirstNeedingPod(c.w, c.p.pods).Some?
  {
    var k :| 0 <= k < |p.pods| && PodAt(w, p, k).None?;
    assert InLine(p, k) && OutOfStep(w, p.pods[k]);
    var i := FirstOutOfStep(w, p.pods).value;
    assert InLine(p, i);
    assert PodAt(w, p, i).Some? ==> PodWork(w, p, i) > 0;
    var c := MarkEffect(Ctx(w, p));
    assert NeedsPod(c.w, c.p.pods[i]);
  }

  // ----- CoreCtrl -----

  lemma {:induction false} NoSlotHelp(w: World, p: Parent, m: nat)
    requires m <= |p.pods| == |p.claims| && FirstHelp(w, p, m) == ReconcileParent
    ensures forall i :: 0 <= i < m ==> SlotHelp(PodWork(w, p, i), ClaimWork(w, p, i), i).None?
  {
    if m > 0 {
      NoSlotHelp(w, p, m - 1);
    }
  }

  /** When no slot waits for the cluster, every slot is done or has lost its pod. */
  lemma WaitingForParent(w: World, p: Parent)
    requires Good(w, p) && |p.pods| <= p.spec.size && HelpFor(w, p) == ReconcileParent
    ensures forall i :: 0 <= i < |p.pods| ==>
      if PodAt(w, p, i).Some? then PodWork(w, p, i) == 0 && ClaimWork(w, p, i) == 0
      else PodWork(w, p, i) > 0
  {
    NoSlotHelp(w, p, |p.pods|);
    forall i | 0 <= i < |p.pods|
      ensures if PodAt(w, p, i).Some? then PodWork(w, p, i) == 0 && ClaimWork(w, p, i) == 0 else PodWork(w, p, i) > 0
    {
      assert GoodSlot(w, p, i);
      assert SlotHelp(PodWork(w, p, i), ClaimWork(w, p, i), i).None?;
    }
  }

  lemma AtSizeFine(w: World, p: Parent)
    requires w.stored == Some(p) && Good(w, p) && |p.pods| == p.spec.size == GetIndex(p)
    ensures Fine(w, p, Core(w))
    ensures HelpFor(w, p) == ReconcileParent && !Settled(w, p) ==> Closer(w, p, Core(w))
  {
    hide ExpansionEffect, ShrinkEffect, DeleteEffect, MaintainEffect;
    FinalizerFine(w, p);
    var c := SetFinalizerEffect(Ctx(w, p));
    MaintainFine(c.w, c.p);
    var v := MaintainEffect(c).0.w;
    assert Core(w) == v;
    NoFurtherTransitive(w, p, c.w, c.p, v, v.stored.value);
    if HelpFor(w, p) == ReconcileParent && !Settled(w, p) && GROUP_VERSION in p.finalizers {
      assert c == Ctx(w, p);
      WaitingForParent(w, p);
      assert exists i :: 0 <= i < |p.pods| && PodAt(w, p, i).None?;
    }
  }

  lemma BelowSizeFine(w: World, p: Parent)
    requires w.stored == Some(p) && Good(w, p) && |p.pods| <= p.spec.size && GetIndex(p) < p.spec.size
    ensures Fine(w, p, Core(w)) || Advanced(w, p, Core(w))
    ensures HelpFor(w, p) == ReconcileParent ==> Closer(w, p, Core(w)) || Advanced(w, p, Core(w))
  {
    hide ExpansionEffect, ShrinkEffect, DeleteEffect, MaintainEffect;
    var i := GetIndex(p);
    assert Core(w) == ExpansionEffect(Ctx(w, p), i).0.w;
    ExpansionFine(w, p, i);
    if i < |p.pods| && HelpFor(w, p) == ReconcileParent {
      WaitingForParent(w, p);
      assert GoodSlot(w, p, i);
    }
  }

  lemma CoreFine(w: World, p: Parent)
    requires w.stored == Some(p) && Good(w, p)
    ensures Fine(w, p, Core(w)) || Advanced(w, p, Core(w))
    ensures HelpFor(w, p) == ReconcileParent && !Settled(w, p) ==> Closer(w, p, Core(w)) || Advanced(w, p, Core(w))
  {
    if |p.pods| > p.spec.size {
      ShrinkFine(w, p);
    } else if GetIndex(p) < p.spec.size {
      BelowSizeFine(w, p);
    } else {
      AtSizeFine(w, p);
    }
  }
}
