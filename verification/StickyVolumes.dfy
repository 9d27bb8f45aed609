// Sticky volume identity: a slot's pod mounts the same claim however often it is made again, making
// it again never deletes or rewrites a claim, and which static volume a claim asks for.
module StickyVolumes {
  import opened Tools
  import opened Types
  import opened Api
  import opened PodControl
  import opened ClaimControl
  import opened Controller
  import opened Workers
  import opened Examples
  import Deletion
  import SizeLaws
  import VolumeControl

  // ----- making a slot's objects again -----

  lemma PodPartShape(c: Ctx, i: nat)
    ensures var (d, pod) := ExpansionPodEffect(c, i);
      && d.w == c.w.(pods := d.w.pods, log := d.w.log)
      && d.w.pods in {c.w.pods, c.w.pods[PodName(c.p, i) := TemplatePod(c.w.now, c.p, i)]}
      && ClaimName(d.p, i) == ClaimName(c.p, i)
  {
  }

  ghost predicate ClaimsKept(w: World, v: World, name: string) {
    && (forall n :: n in w.claims ==> n in v.claims && v.claims[n] == w.claims[n])
    && v.claims.Keys <= w.claims.Keys + {name}
  }

  lemma ClaimPartShape(c: Ctx, i: nat)
    ensures var (d, claim) := Controller.ClaimPart(c, i); var name := ClaimName(c.p, i);
      && d.w == c.w.(claims := d.w.claims, log := d.w.log)
      && ClaimsKept(c.w, d.w, name)
      && (claim.Some? && c.p.spec.claimTemplate.Some? ==>
            && name in d.w.claims
            && (name in c.w.claims ==> i < |c.p.claims| && claim.value == c.p.claims[i]))
  {
    hide Stamp, Dashed, IsPvCanUse, IntToInt32;
    assert ClaimName(Defaulted(c.p), i) == ClaimName(c.p, i);
  }

  /** Whatever calls fail, expansion at a recorded slot leaves every claim as it is and adds at most
      the slot's own; a claim that is there keeps its record; a pod made here mounts the slot's claim,
      and the write is only reached with that claim in place. */
  lemma RegrowKeepsClaims(c: Ctx, i: nat)
    requires i < |c.p.pods| == |c.p.claims|
    ensures var (d, early) := Grow(c, i); var name := ClaimName(c.p, i);
      && ClaimsKept(c.w, d.w, name)
      && (c.p.spec.claimTemplate.Some? ==>
            && (name in c.w.claims ==> d.p.claims == c.p.claims)
            && (early.None? ==> name in d.w.claims))
      && d.w.pods in {c.w.pods, c.w.pods[PodName(c.p, i) := TemplatePod(c.w.now, c.p, i)]}
      && (c.p.spec.claimTemplate.Some? ==> TemplatePod(c.w.now, c.p, i).mountedClaim == name)
  {
    hide Stamp, ClaimName, PodName, NoClaimSlot, ClaimPart, ExpansionPodEffect;
    GrowPieces(c, i);
    PodPartShape(c, i);
    var (d, pod) := ExpansionPodEffect(c, i);
    ClaimPartShape(d, i);
    assert c.p.claims[i := c.p.claims[i]] == c.p.claims;
  }

  /** Repairing a vanished pod therefore never costs a claim, nor the record of one that is there. */
  lemma MaintainKeepsClaims(c: Ctx)
    requires WellFormed(c.p)
    ensures var d := MaintainEffect(c).0;
      && (forall n :: n in c.w.claims ==> n in d.w.claims && d.w.claims[n] == c.w.claims[n])
      && |d.p.claims| == |c.p.claims|
      && (c.p.spec.claimTemplate.Some? ==>
            forall i :: 0 <= i < |c.p.claims| && ClaimName(c.p, i) in c.w.claims ==> d.p.claims[i] == c.p.claims[i])
  {
    hide Grow, FirstFrom, SlotsInLine, ClaimsInLine;
    var c1 := MarkEffect(c);
    var index := FirstNeedingPod(c1.w, c1.p.pods);
    assert c1.p.claims == c.p.claims && c1.w.claims == c.w.claims && c1.p.spec == c.p.spec && c1.p.name == c.p.name;
    if index.Some? {
      RegrowKeepsClaims(c1, index.value);
      RegrowTouchesOneRecord(c1, index.value);
    }
  }

  lemma RegrowTouchesOneRecord(c: Ctx, i: nat)
    requires i < |c.p.pods| == |c.p.claims|
    ensures var d := Grow(c, i).0;
      |d.p.claims| == |c.p.claims| && forall j :: 0 <= j < |c.p.claims| && j != i ==> d.p.claims[j] == c.p.claims[j]
  {
    GrowPieces(c, i);
  }

  // ----- over whole runs -----

  predicate Mounts(prefix: string, pod: Pod) {
    Ordinal(pod.annotations) >= 0 &&
    pod.mountedClaim == Dashed(prefix + "-" + OwnerName(pod.annotations), Ordinal(pod.annotations))
  }

  ghost predicate PodsMount(scope: Scope, pods: map<string, Pod>) {
    forall n :: n in pods && OwnerName(pods[n].annotations) == scope.name ==> Mounts(scope.prefix, pods[n])
  }

  ghost predicate Templated(p: Option<Parent>) {
    p.Some? ==> p.value.spec.claimTemplate.Some?
  }

  ghost predicate AllSticky(scope: Scope, s: System) {
    && AllShaped(scope, s)
    && PodsMount(scope, s.w.pods)
    && Templated(s.w.stored)
    && forall k :: 0 <= k < |s.copies| ==> Templated(s.copies[k])
  }

  /** Observed pods, and pods that come from outside, mount their claims too, and the user keeps the
      claim template. */
  ghost predicate StickyMove(scope: Scope, m: Move) {
    match m
    case PodEvent(_, pod) => OwnerName(pod.annotations) == scope.name ==> Mounts(scope.prefix, pod)
    case Outside(v) => PodsMount(scope, v.pods) && Templated(v.stored)
    case _ => true
  }

  lemma MadePodMounts(now: int, p: Parent, i: nat)
    requires i <= 0x7fff_ffff && p.spec.claimTemplate.Some?
    ensures Mounts(ClaimBase(p), TemplatePod(now, p, i))
  {
    var pod := TemplatePod(now, p, i);
    MadePodIsNamed(now, p, i);
    DashedInjective(p.name, i, OwnerName(pod.annotations), Ordinal(pod.annotations));
  }

  lemma GrowMounts(scope: Scope, c: Ctx, i: nat)
    requires GoodCtx(scope, c) && PodsMount(scope, c.w.pods) && c.p.spec.claimTemplate.Some?
    requires i < |c.p.pods| || (i == |c.p.pods| && i < c.p.spec.size)
    ensures PodsMount(scope, Grow(c, i).0.w.pods)
  {
    hide TemplatePod, ClaimPart, ExpansionPodEffect, WithSlots;
    assert |c.p.pods| == |c.p.claims| && i < 0x7fff_ffff && ClaimBase(c.p) == scope.prefix;
    MadePodMounts(c.w.now, c.p, i);
    GrowPieces(c, i);
    PodPartShape(c, i);
    ClaimPartShape(ExpansionPodEffect(c, i).0, i);
  }

  /** Pods that are only marked, annotated or removed mount what they did. */
  ghost predicate PodsFrom(w: World, v: World) {
    forall n :: n in v.pods ==>
      && n in w.pods
      && v.pods[n].mountedClaim == w.pods[n].mountedClaim && v.pods[n].annotations == w.pods[n].annotations
  }

  lemma {:induction false} DeletesOnlyMark(w: World, slots: seq<PodSlot>, k: nat, sum: nat)
    requires k <= |slots|
    ensures PodsFrom(w, DeletePodsFrom(w, slots, k, sum).0)
    decreases |slots| - k
  {
    if k < |slots| {
      if slots[k].podName in w.pods {
        DeletesOnlyMark(DeletePodIn(w, slots[k].podName).0, slots, k + 1, sum);
      } else {
        DeletesOnlyMark(w, slots, k + 1, sum + 1);
      }
    }
  }

  lemma EraseOnlyMarks(c: Ctx)
    requires |c.p.pods| == |c.p.claims|
    ensures PodsFrom(c.w, Erase(c).0.w)
  {
    hide Erase, DeletePodsFrom;
    ErasePieces(c);
    VolumeUpdatesKeepPods(c.w, c.p.claims, 0, 0);
    var w1 := VolumeControl.SetPVRetainEffect(c.w, c.p).0;
    DeletesOnlyMark(w1, c.p.pods, 0, 0);
    var w2 := DeletePodAllEffect(w1, c.p).0;
    ClaimDeletesKeepPods(w2, c.p.claims, 0, 0);
    VolumeUpdatesKeepPods(DeletePvcAllEffect(w2, c.p).0, c.p.claims, 0, 0);
  }

  lemma CutOnlyMarks(c: Ctx, i: nat)
    requires 1 <= i <= |c.p.pods| == |c.p.claims|
    ensures PodsFrom(c.w, Cut(c, i).0.w)
  {
    hide Cut, Dashed;
    CutPieces(c, i);
  }

  lemma MandatoryMounts(scope: Scope, w: World, pod: Pod)
    requires PodsMount(scope, w.pods) && NamedByOwner(pod)
    requires OwnerName(pod.annotations) == scope.name ==> Mounts(scope.prefix, pod)
    ensures PodsMount(scope, DeletePodMandatoryEffect(w, pod).0.pods)
  {
    assert NODE_UNHEALTHY[0] != INDEX[0] && NODE_UNHEALTHY[0] != PARENT_NAME[0];
  }

  lemma PodEventMounts(scope: Scope, c: Ctx, pod: Pod)
    requires PodsMount(scope, c.w.pods) && |c.p.pods| == |c.p.claims| && NamedByOwner(pod)
    requires OwnerName(pod.annotations) == scope.name ==> Mounts(scope.prefix, pod)
    ensures PodsMount(scope, MonitorPodEffect(c, pod, Ordinal(pod.annotations)).0.w.pods)
  {
    hide Dashed, Ordinal, OwnerName, NodeLostEffect, DeletePodMandatoryEffect, DeleteClaimUntilDone, ForceDeletePodIn;
    var i := Ordinal(pod.annotations);
    if i < |c.p.pods| {
      MandatoryMounts(scope, c.w, pod);
      NodeLostCases(c, pod, i);
      var w1 := DeletePodIn(c.w, pod.name).0;
      assert PodsMount(scope, w1.pods);
      InsistentDeleteKeepsPods(w1, ClaimName(c.p, i));
    }
  }

  /** No piece of work changes the claim template's presence, and the template's claim name only ever
      from "" to its default. */
  lemma ClaimNameSettles(c: Ctx, m: Move)
    requires |c.p.pods| == |c.p.claims|
    ensures var q := Piece(c, m).p;
      && q.spec.claimTemplate.Some? == c.p.spec.claimTemplate.Some?
      && (q.spec.claimName == c.p.spec.claimName || (c.p.spec.claimName == "" && q.spec.claimName == "data"))
  {
    hide Grow, Erase, Ordinal, OwnerName, FirstFrom, Dashed, DeletePodMandatoryEffect, DeleteClaimUntilDone;
    match m
    case GrowAt(_, i) => if i <= |c.p.pods| { GrowSettles(c, i); }
    case EraseAll(_) => EraseSettles(c);
    case PodEvent(_, pod) =>
      if NamedByOwner(pod) && Ordinal(pod.annotations) < |c.p.pods| {
        NodeLostCases(c, pod, Ordinal(pod.annotations));
      }
    case _ =>
  }

  lemma EraseSettles(c: Ctx)
    ensures Erase(c).0.p in {c.p, DropFinalizer(c.p)}
  {
  }

  lemma GrowSettles(c: Ctx, i: nat)
    requires i <= |c.p.pods| == |c.p.claims|
    ensures var q := Grow(c, i).0.p;
      && q.spec.claimTemplate.Some? == c.p.spec.claimTemplate.Some?
      && q.spec.claimName in {c.p.spec.claimName, ClaimBase(c.p)}
  {
    GrowPieces(c, i);
    var (d, _) := ExpansionPodEffect(c, i);
    assert Grow(c, i).0.p.spec in {c.p.spec, d.p.spec, Controller.ClaimPart(d, i).0.p.spec};
  }

  lemma PieceSticks(scope: Scope, c: Ctx, m: Move)
    requires GoodCtx(scope, c) && PodsMount(scope, c.w.pods) && c.p.spec.claimTemplate.Some?
    requires StickyMove(scope, m)
    ensures PodsMount(scope, Piece(c, m).w.pods)
  {
    assert |c.p.pods| == |c.p.claims|;
    hide Grow, Cut, Erase, MonitorPodEffect, MonitorClaimEffect, PodIsOkEffect, Mounts, WellFormed, Ordinal;
    match m
    case GrowAt(_, i) =>
      if i < |c.p.pods| || (i == |c.p.pods| && i < c.p.spec.size) { GrowMounts(scope, c, i); }
    case CutAt(_, i) => if 1 <= i <= |c.p.pods| { CutOnlyMarks(c, i); }
    case EraseAll(_) => EraseOnlyMarks(c);
    case PodEvent(_, pod) =>
      if NamedByOwner(pod) && OwnerName(pod.annotations) == c.p.name { PodEventMounts(scope, c, pod); }
    case _ =>
  }

  lemma MoveSticks(scope: Scope, s: System, m: Move)
    requires AllSticky(scope, s) && StickyMove(scope, m)
    ensures AllSticky(scope, Apply(scope, s, m))
  {
    hide Piece, Mounts;
    MoveKeepsShape(scope, s, m);
    if !m.Outside? && m.k < |s.copies| && !m.Read? && s.copies[m.k].Some? {
      var c := Ctx(s.w, s.copies[m.k].value);
      PieceShaped(scope, c, m);
      PieceSticks(scope, c, m);
      ClaimNameSettles(c, m);
    }
  }

  /** In every run of any number of reconcilers, every pod of the parent mounts the claim of its
      ordinal. */
  lemma {:induction false} RunSticks(scope: Scope, s: System, moves: seq<Move>)
    requires AllSticky(scope, s) && forall k :: 0 <= k < |moves| ==> StickyMove(scope, moves[k])
    ensures AllSticky(scope, ApplyAll(scope, s, moves))
    decreases |moves|
  {
    if moves != [] {
      MoveSticks(scope, s, moves[0]);
      RunSticks(scope, Apply(scope, s, moves[0]), moves[1..]);
    }
  }

  function MountedBy(pods: map<string, Pod>, owner: string, n: string): Option<string> {
    if n in pods && OwnerName(pods[n].annotations) == owner then Some(pods[n].mountedClaim) else None
  }

  /** So a pod mounts what any earlier pod of its name did, however often it was lost and made again
      in between: the claim that expansion makes or finds for that slot. */
  lemma SameClaimEveryTime(scope: Scope, s: System, moves: seq<Move>, p: Parent, i: nat)
    requires AllSticky(scope, s) && forall k :: 0 <= k < |moves| ==> StickyMove(scope, moves[k])
    requires Shaped(scope, p) && MountedBy(s.w.pods, scope.name, PodName(p, i)).Some?
    ensures MountedBy(s.w.pods, scope.name, PodName(p, i)) == Some(ClaimName(p, i))
    ensures var t := ApplyAll(scope, s, moves);
      MountedBy(t.w.pods, scope.name, PodName(p, i)) in {None, Some(ClaimName(p, i))}
  {
    RunSticks(scope, s, moves);
    MountsByName(scope, s, p, i);
    MountsByName(scope, ApplyAll(scope, s, moves), p, i);
  }

  lemma MountsByName(scope: Scope, s: System, p: Parent, i: nat)
    requires AllSticky(scope, s) && Shaped(scope, p)
    ensures MountedBy(s.w.pods, scope.name, PodName(p, i)) in {None, Some(ClaimName(p, i))}
  {
    if MountedBy(s.w.pods, scope.name, PodName(p, i)).Some? {
      var pod := s.w.pods[PodName(p, i)];
      DashedInjective(scope.name, i, OwnerName(pod.annotations), Ordinal(pod.annotations));
    }
  }

  // ----- the static volume of a claim -----

  // What a claim, or a claim template, asks for.
  datatype Request = Request(volumeName: string, storageClass: string)

  function Asks(claim: Claim): Request {
    Request(claim.volumeName, claim.storageClass)
  }

  function AskOf(t: ClaimTemplate): Request {
    Request(t.volumeName, t.storageClass)
  }

  /** A reconcile of the parent makes the claim of slot i, by expansion or by repair. */
  ghost predicate Makes(w: World, i: nat) {
    && w.stored.Some? && WellFormed(w.stored.value) && w.stored.value.spec.claimTemplate.Some?
    && ClaimName(w.stored.value, i) !in w.claims && ClaimName(w.stored.value, i) in Core(w).claims
  }

  /** The slot's static volume if that can be used, and else what the copy's template names by then. */
  function Wanted(w: World, p: Parent, i: nat): Request
    requires p.spec.claimTemplate.Some?
  {
    if HasStaticVolume(w, p, i) then Request(p.spec.volumeNames[i], "") else AskOf(p.spec.claimTemplate.value)
  }

  ghost predicate TemplateAsks(p: Parent, r: Request) {
    p.spec.claimTemplate.Some? && AskOf(p.spec.claimTemplate.value) == r
  }

  lemma ClaimPartAsks(c: Ctx, i: nat)
    requires c.p.spec.claimTemplate.Some? && ClaimName(c.p, i) !in c.w.claims
    ensures var (d, claim) := Controller.ClaimPart(c, i); var name := ClaimName(c.p, i);
      name in d.w.claims ==>
        && claim.Some? && Asks(d.w.claims[name]) == Wanted(c.w, c.p, i)
        && TemplateAsks(d.p, Wanted(c.w, c.p, i))
  {
    hide Stamp, Dashed, IsPvCanUse, IntToInt32;
    assert ClaimName(Defaulted(c.p), i) == ClaimName(c.p, i);
  }

  /** Expansion makes the claim of its own slot at most; that one asks as wanted, and the template asks
      the same from then on. */
  lemma GrowAsks(c: Ctx, i: nat)
    requires i <= |c.p.pods| == |c.p.claims| && c.p.spec.claimTemplate.Some?
    ensures var (g, early) := Grow(c, i); var name := ClaimName(c.p, i);
      && g.w.claims.Keys <= c.w.claims.Keys + {name}
      && (name !in c.w.claims && name in g.w.claims ==>
            && early.None? && Asks(g.w.claims[name]) == Wanted(c.w, c.p, i)
            && TemplateAsks(g.p, Wanted(c.w, c.p, i)))
  {
    hide ClaimPart, ExpansionPodEffect, ClaimName, TemplatePod, IsPvCanUse, AskOf;
    GrowPieces(c, i);
    PodPartShape(c, i);
    var d := ExpansionPodEffect(c, i).0;
    assert SameSlots(d.p, c.p) && d.p.spec.volumeNames == c.p.spec.volumeNames
      && d.p.spec.claimTemplate == c.p.spec.claimTemplate by { PodPartKeepsTemplate(c, i); }
    ClaimPartShape(d, i);
    if ClaimName(c.p, i) !in c.w.claims {
      ClaimPartAsks(d, i);
      assert Wanted(d.w, d.p, i) == Wanted(c.w, c.p, i);
    }
  }

  lemma PodPartKeepsTemplate(c: Ctx, i: nat)
    ensures var d := ExpansionPodEffect(c, i).0;
      d.p.spec.volumeNames == c.p.spec.volumeNames && d.p.spec.claimTemplate == c.p.spec.claimTemplate
  {
  }

  lemma ExpansionAsks(c: Ctx, i: nat, j: nat)
    requires i <= |c.p.pods| == |c.p.claims| && c.p.spec.claimTemplate.Some? && c.w.stored in {None, Some(c.p)}
    requires ClaimName(c.p, j) !in c.w.claims && ClaimName(c.p, j) in ExpansionEffect(c, i).0.w.claims
    ensures var v := ExpansionEffect(c, i).0.w;
      && Asks(v.claims[ClaimName(c.p, j)]) == Wanted(c.w, c.p, j)
      && (v.stored.Some? ==> TemplateAsks(v.stored.value, Wanted(c.w, c.p, j)))
  {
    hide Grow, Wanted, TemplateAsks, ClaimName;
    GrowAsks(c, i);
    var g := Grow(c, i).0;
    assert ExpansionEffect(c, i).0.w.claims == g.w.claims;
    assert ClaimName(c.p, j) in g.w.claims.Keys;
    ClaimNamesDistinct(c.p);
    if Put(g).w.stored.Some? {
      PutAsks(g, Wanted(c.w, c.p, j));
    }
  }

  lemma PutAsks(c: Ctx, r: Request)
    requires TemplateAsks(c.p, r) && Put(c).w.stored.Some?
    ensures TemplateAsks(Put(c).w.stored.value, r)
  {
  }

  lemma EraseKeepsClaimKeys(c: Ctx)
    ensures Erase(c).0.w.claims.Keys == c.w.claims.Keys
  {
    hide Erase, DropFinalizer;
    ErasePieces(c);
    VolumeUpdatesKeepPods(c.w, c.p.claims, 0, 0);
    var w1 := VolumeControl.SetPVRetainEffect(c.w, c.p).0;
    var w2 := DeletePodAllEffect(w1, c.p).0;
    Deletion.PodLoop(w1, c.p.pods, 0, 0);
    ClaimDeletesKeepPods(w2, c.p.claims, 0, 0);
    VolumeUpdatesKeepPods(DeletePvcAllEffect(w2, c.p).0, c.p.claims, 0, 0);
  }

  lemma MaintainAsks(c: Ctx, j: nat)
    requires |c.p.pods| == |c.p.claims| && c.p.spec.claimTemplate.Some? && c.w.stored in {None, Some(c.p)}
    requires ClaimName(c.p, j) !in c.w.claims && ClaimName(c.p, j) in MaintainEffect(c).0.w.claims
    ensures var v := MaintainEffect(c).0.w;
      && Asks(v.claims[ClaimName(c.p, j)]) == Wanted(c.w, c.p, j)
      && (v.stored.Some? ==> TemplateAsks(v.stored.value, Wanted(c.w, c.p, j)))
  {
    hide ExpansionEffect, IsPvCanUse, TemplateAsks, Asks;
    var c1 := MarkEffect(c);
    MarkOnly(c);
    var index := FirstNeedingPod(c1.w, c1.p.pods);
    if index.Some? {
      ExpansionAsks(c1, index.value, j);
      assert Wanted(c1.w, c1.p, j) == Wanted(c.w, c.p, j);
    }
  }

  lemma MarkOnly(c: Ctx)
    requires c.w.stored in {None, Some(c.p)}
    ensures var d := MarkEffect(c);
      && d.w == c.w.(stored := d.w.stored) && d.w.stored in {None, Some(d.p)}
      && d.p.spec == c.p.spec && d.p.name == c.p.name && |d.p.pods| == |c.p.pods| && d.p.claims == c.p.claims
  {
  }

  /** Whichever of its branches makes it: the claim asks as wanted, and what is stored asks the same. */
  lemma CoreAsks(w: World, i: nat)
    requires Makes(w, i)
    ensures var p := w.stored.value;
      && Asks(Core(w).claims[ClaimName(p, i)]) == Wanted(w, p, i)
      && (Core(w).stored.Some? ==> TemplateAsks(Core(w).stored.value, Wanted(w, p, i)))
  {
    hide ExpansionEffect, MaintainEffect, Erase, Cut, WellFormed, Wanted, TemplateAsks, Asks;
    var p := w.stored.value;
    assert |p.pods| == |p.claims| by { SameLengths(p); }
    var c, n := Ctx(w, p), GetIndex(p);
    assert ClaimName(p, i) in Core(w).claims.Keys;
    if p.deletionMarked && n == p.spec.size {
      EraseKeepsClaimKeys(c);
      assert false;
    } else if n < p.spec.size {
      ExpansionAsks(c, n, i);
    } else if n > p.spec.size {
      SizeLaws.CutShape(c, n);
      assert false;
    } else {
      var c1 := SetFinalizerEffect(c);
      FinalizerOnly(c);
      MaintainAsks(c1, i);
      assert Wanted(c1.w, c1.p, i) == Wanted(w, p, i) by { WantedSame(w, p, c1.w, c1.p, i); }
    }
  }

  lemma SameLengths(p: Parent)
    requires WellFormed(p)
    ensures |p.pods| == |p.claims|
  {
  }

  lemma FinalizerOnly(c: Ctx)
    requires c.w.stored == Some(c.p)
    ensures var d := SetFinalizerEffect(c);
      && d.w == c.w.(stored := d.w.stored) && d.w.stored in {None, Some(d.p)}
      && d.p.spec == c.p.spec && d.p.name == c.p.name && d.p.pods == c.p.pods && d.p.claims == c.p.claims
  {
  }

  lemma WantedSame(w: World, p: Parent, v: World, q: Parent, i: nat)
    requires v == w.(stored := v.stored) && q.spec == p.spec && p.spec.claimTemplate.Some?
    ensures Wanted(v, q, i) == Wanted(w, p, i)
  {
  }

  // ----- one claim after another -----

  /** Reconciles that each make a claim, of any slots, with anything in between that leaves the stored
      spec as the one before wrote it. */
  ghost predicate Making(ws: seq<World>, slots: seq<nat>) {
    && |ws| == |slots|
    && (forall t :: 0 <= t < |ws| ==> Makes(ws[t], slots[t]))
    && forall t, u :: 0 <= t < u < |ws| && u == t + 1 ==> KeepsSpec(ws[t], ws[u])
  }

  ghost predicate KeepsSpec(w: World, v: World) {
    && ListsAgree(w) && Core(w).stored.Some? && v.stored.Some?
    && v.stored.value.spec == Core(w).stored.value.spec
  }

  predicate OwnVolume(w: World, i: nat) {
    w.stored.Some? && HasStaticVolume(w, w.stored.value, i)
  }

  /** The last claim up to the t-th whose own static volume could be used. */
  function LastStatic(ws: seq<World>, slots: seq<nat>, t: nat): (r: Option<nat>)
    requires t < |ws| == |slots|
    ensures r.Some? ==> r.value <= t && OwnVolume(ws[r.value], slots[r.value])
    ensures forall k: nat :: (r.Some? ==> r.value < k) && k <= t ==> !OwnVolume(ws[k], slots[k])
  {
    if OwnVolume(ws[t], slots[t]) then Some(t) else if t == 0 then None else LastStatic(ws, slots, t - 1)
  }

  ghost function UsersChoice(ws: seq<World>): Request
    requires |ws| > 0 && ws[0].stored.Some? && ws[0].stored.value.spec.claimTemplate.Some?
  {
    AskOf(ws[0].stored.value.spec.claimTemplate.value)
  }

  ghost function Asked(ws: seq<World>, slots: seq<nat>, t: nat): Request
    requires Making(ws, slots) && t < |ws|
  {
    match LastStatic(ws, slots, t)
    case None => UsersChoice(ws)
    case Some(m) => Wanted(ws[m], ws[m].stored.value, slots[m])
  }

  ghost function ClaimMade(w: World, i: nat): Claim
    requires Makes(w, i)
  {
    Core(w).claims[ClaimName(w.stored.value, i)]
  }

  /** The t-th claim asks for the static volume of the last claim up to it that had a usable one, with no
      storage class, and for what the user's template says only if there was none. */
  lemma {:induction false} ClaimsAskForVolumes(ws: seq<World>, slots: seq<nat>, t: nat)
    requires Making(ws, slots) && t < |ws|
    ensures Asks(ClaimMade(ws[t], slots[t])) == Asked(ws, slots, t) == Wanted(ws[t], ws[t].stored.value, slots[t])
  {
    hide Core, HasStaticVolume;
    CoreAsks(ws[t], slots[t]);
    if t > 0 {
      ClaimsAskForVolumes(ws, slots, t - 1);
      CoreAsks(ws[t - 1], slots[t - 1]);
    }
  }

  /** A claim is meant to ask for its own static volume, or else for what the user's template says. */
  ghost function Meant(ws: seq<World>, slots: seq<nat>, t: nat): Request
    requires Making(ws, slots) && t < |ws|
  {
    if OwnVolume(ws[t], slots[t]) then Request(ws[t].stored.value.spec.volumeNames[slots[t]], "")
    else UsersChoice(ws)
  }

  /** It does exactly if its own volume can be used, or none of an earlier claim could, or the last one
      that could is, with no storage class, what the user's template says anyway. */
  lemma AsksAsMeantExactly(ws: seq<World>, slots: seq<nat>, t: nat)
    requires Making(ws, slots) && t < |ws|
    ensures Asks(ClaimMade(ws[t], slots[t])) == Meant(ws, slots, t) <==>
      match LastStatic(ws, slots, t)
      case None => true
      case Some(m) => m == t || Wanted(ws[m], ws[m].stored.value, slots[m]) == UsersChoice(ws)
  {
    hide Core, IsPvCanUse;
    ClaimsAskForVolumes(ws, slots, t);
  }

  // ----- the leak -----

  /** An expansion that gets to its end makes the claim, and no object of any other slot. */
  lemma AppendMakes(w: World, p: Parent)
    requires w.stored == Some(p) && WellFormed(p) && !SizeLaws.HeldBack(p) && |p.pods| < p.spec.size
    requires p.spec.claimTemplate.Some? && !p.spec.hasService && w.faults == {} && !p.deletionMarked
    requires PodName(p, |p.pods|) !in w.pods && ClaimName(p, |p.pods|) !in w.claims
    ensures var n, v := |p.pods|, Core(w);
      && Makes(w, n) && v.stored.Some? && v.faults == {}
      && v.pods.Keys <= w.pods.Keys + {PodName(p, n)} && v.claims.Keys <= w.claims.Keys + {ClaimName(p, n)}
      && SameHead(v.stored.value, p) && v.stored.value.spec.volumeNames == p.spec.volumeNames
  {
    hide Grow, ClaimPart, ExpansionPodEffect, ClaimName, PodName, TemplatePod;
    var c, n := Ctx(w, p), |p.pods|;
    SizeLaws.GrowReachesEnd(c);
    assert GetIndex(p) == n;
    GrowPieces(c, n);
    PodPartShape(c, n);
    GrowAsks(c, n);
    GrowKeepsVolumeNames(c, n);
    ClaimPartShape(ExpansionPodEffect(c, n).0, n);
    assert Core(w).claims == Grow(c, n).0.w.claims;
  }

  lemma GrowKeepsVolumeNames(c: Ctx, i: nat)
    requires i <= |c.p.pods| == |c.p.claims|
    ensures Grow(c, i).0.p.spec.volumeNames == c.p.spec.volumeNames && Grow(c, i).0.w.faults == c.w.faults
  {
    hide ExpansionPodEffect, ClaimPart, Dashed, Stamp;
    GrowPieces(c, i);
    PodPartShape(c, i);
    PodPartKeepsTemplate(c, i);
    var d := ExpansionPodEffect(c, i).0;
    ClaimPartShape(d, i);
    ClaimPartKeepsVolumeNames(d, i);
  }

  lemma ClaimPartKeepsVolumeNames(c: Ctx, i: nat)
    ensures Controller.ClaimPart(c, i).0.p.spec.volumeNames == c.p.spec.volumeNames
  {
  }

  /** A new parent of two slots whose user chose a storage class, and names a static volume for slot 0. */
  lemma LeakStarts() returns (w: World, p: Parent)
    ensures w.stored == Some(p) && WellFormed(p) && p.pods == [] && !p.deletionMarked && w.faults == {}
    ensures p.name == "db" && p.spec.size == 2 && !p.spec.hasService && ClaimBase(p) == "data"
    ensures p.spec.claimTemplate.Some? && AskOf(p.spec.claimTemplate.value) == Request("", "fast")
    ensures p.spec.volumeNames == ["pv-a"] && HasStaticVolume(w, p, 0)
    ensures w.pods == map[] && w.claims == map[]
  {
    var q := SomeParent(0, 2, Some(TEMPLATE.(storageClass := "fast")));
    p := q.(spec := q.spec.(volumeNames := ["pv-a"]));
    var volume := Volume(map[PROVISION_ON_NODE := "n"], NoPolicy, "", [], None, Available);
    w := SomeWorld(p, map[], map[]).(volumes := map["pv-a" := volume], nodes := map["n" := Node(true, 0)]);
  }

  /** The first claim takes the volume, with no storage class. Once it is bound and slot 0 runs, the second
      claim asks for the same volume, with no storage class. */
  lemma StaticVolumeLeaks() returns (ws: seq<World>)
    ensures |ws| == 2 && Making(ws, [0, 1])
    ensures UsersChoice(ws) == Request("", "fast")
    ensures Asks(ClaimMade(ws[0], 0)) == Asks(ClaimMade(ws[1], 1)) == Request("pv-a", "")
  {
    hide Core, WellFormed, IsPvCanUse, ClaimName, PodName;
    var w, p := LeakStarts();
    assert |p.pods| == |p.claims| by { SameLengths(p); }
    AppendMakes(w, p);
    CoreAsks(w, 0);
    var v := Core(w);
    var u, r := FirstBound(w, v, p);
    AppendMakes(u, r);
    CoreAsks(u, 1);
    ws := [w, u];
  }

  /** The cluster and the events have done their part for slot 0. */
  lemma FirstBound(w: World, v: World, p: Parent) returns (u: World, r: Parent)
    requires v.stored.Some? && v.faults == {} && SameHead(v.stored.value, p) && !p.deletionMarked
    requires p.name == "db" && ClaimBase(p) == "data" && p.spec.size == 2 && !p.spec.hasService
    requires v.pods.Keys <= {PodName(p, 0)} && v.claims.Keys <= {ClaimName(p, 0)}
    ensures u == v.(stored := Some(r), volumes := map[]) && r.spec == v.stored.value.spec && WellFormed(r)
    ensures SameHead(r, p) && |r.pods| == 1 && !SizeLaws.HeldBack(r)
    ensures PodName(r, 1) !in u.pods && ClaimName(r, 1) !in u.claims
  {
    var q := v.stored.value;
    r := q.(pods := [RunningPodSlot(0)], claims := [BoundClaimSlot(0)]);
    u := v.(stored := Some(r), volumes := map[]);
    assert "data" + "-" + "db" == "data-db";
    PodNamesDistinct(p);
    ClaimNamesDistinct(p);
    assert PodName(r, 1) == PodName(p, 1) && ClaimName(r, 1) == ClaimName(p, 1);
    assert PodName(p, 1) !in v.pods.Keys && ClaimName(p, 1) !in v.claims.Keys;
  }
}
