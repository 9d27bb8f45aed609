// Several reconcilers at once: each reads a copy of the parent, works on it in pieces, and writes
// it back whole, in any interleaving with the others, the cluster and the user.
module Workers {
  import opened Tools
  import opened Types
  import opened Api
  import opened PodControl
  import opened ClaimControl
  import opened Controller
  import VolumeControl

  // Which parent a run is about: its name, and the prefix of its claims' names.
  datatype Scope = Scope(name: string, prefix: string)

  datatype System = System(w: World, copies: seq<Option<Parent>>)

  // One piece of one reconciler's work, or a change from outside.
  datatype Move =
    | Read(k: nat)
    | Finalize(k: nat)
    | MarkPods(k: nat)
    | GrowAt(k: nat, i: nat)
    | CutAt(k: nat, i: nat)
    | EraseAll(k: nat)
    | PodEvent(k: nat, pod: Pod)
    | ClaimEvent(k: nat, claim: Claim)
    | Write(k: nat)
    | Outside(w: World)

  /** A pod's name says the same as its identity annotations. */
  predicate NamedByOwner(pod: Pod) {
    Ordinal(pod.annotations) >= 0 && pod.name == Dashed(OwnerName(pod.annotations), Ordinal(pod.annotations))
  }

  /** Pods stand under their own names, and those annotated with the owner are named by it; any other
      pods may be there too. */
  ghost predicate PodsNamed(owner: string, pods: map<string, Pod>) {
    forall n :: n in pods ==>
      pods[n].name == n && (OwnerName(pods[n].annotations) == owner ==> NamedByOwner(pods[n]))
  }

  // What every stored or copied parent looks like: name and claim prefix fixed, lists in line, and
  // the controller's finalizer there at most once.
  ghost predicate Shaped(scope: Scope, p: Parent) {
    && p.name == scope.name && ClaimBase(p) == scope.prefix && WellFormed(p)
    && Count(p.finalizers, GROUP_VERSION) <= 1
  }

  ghost predicate AllShaped(scope: Scope, s: System) {
    && PodsNamed(scope.name, s.w.pods)
    && (s.w.stored.Some? ==> Shaped(scope, s.w.stored.value))
    && forall k :: 0 <= k < |s.copies| && s.copies[k].Some? ==> Shaped(scope, s.copies[k].value)
  }

  /** What a user may do to a stored parent: anything but rename it, change its claim prefix, edit
      its status, or add the controller's finalizer once more. */
  predicate UserEdit(p: Parent, q: Parent) {
    && q.name == p.name && ClaimBase(q) == ClaimBase(p) && q.pods == p.pods && q.claims == p.claims
    && Count(q.finalizers, GROUP_VERSION) <= Count(p.finalizers, GROUP_VERSION)
  }

  /** Objects come and go and change as they like, but pods keep names that fit their annotations,
      and a parent is created without status. */
  ghost predicate OutsideAllowed(scope: Scope, w: World, v: World) {
    && PodsNamed(scope.name, v.pods)
    && match v.stored
       case None => true
       case Some(q) =>
         || (w.stored.Some? && UserEdit(w.stored.value, q))
         || (w.stored.None? && q.name == scope.name && ClaimBase(q) == scope.prefix && q.pods == [] && q.claims == []
             && Count(q.finalizers, GROUP_VERSION) <= 1)
  }

  function WithCopy(s: System, k: nat, c: Ctx): System
    requires k < |s.copies|
  {
    System(c.w, s.copies[k := Some(c.p)])
  }

  /** One piece of work on the copy held; a piece whose guard fails changes nothing. */
  function Piece(c: Ctx, m: Move): Ctx
    requires |c.p.pods| == |c.p.claims|
  {
    match m
    case Finalize(_) => if WantsFinalizer(c.p) then Ctx(c.w, AddFinalizer(c.p)) else c
    case MarkPods(_) => Ctx(c.w, PodIsOkEffect(c.w, c.p).0)
    case GrowAt(_, i) =>
      if i < |c.p.pods| || (i == |c.p.pods| && i < c.p.spec.size) then Grow(c, i).0 else c
    case CutAt(_, i) => if 1 <= i <= |c.p.pods| then Cut(c, i).0 else c
    case EraseAll(_) => Erase(c).0
    case PodEvent(_, pod) =>
      if NamedByOwner(pod) && OwnerName(pod.annotations) == c.p.name
      then MonitorPodEffect(c, pod, Ordinal(pod.annotations)).0 else c
    case ClaimEvent(_, claim) =>
      if Ordinal(claim.annotations) >= 0 && OwnerName(claim.annotations) == c.p.name
      then Ctx(c.w, MonitorClaimEffect(c.p, claim, Ordinal(claim.annotations)).0) else c
    case Write(_) => Put(c)
    case _ => c
  }

  ghost function Apply(scope: Scope, s: System, m: Move): System {
    if m.Outside? then
      if OutsideAllowed(scope, s.w, m.w) then s.(w := m.w) else s
    else if m.k >= |s.copies| then s
    else if m.Read? then s.(copies := s.copies[m.k := s.w.stored])
    else if s.copies[m.k].None? || |s.copies[m.k].value.pods| != |s.copies[m.k].value.claims| then s
    else WithCopy(s, m.k, Piece(Ctx(s.w, s.copies[m.k].value), m))
  }

  ghost function ApplyAll(scope: Scope, s: System, moves: seq<Move>): System
    decreases |moves|
  {
    if moves == [] then s else ApplyAll(scope, Apply(scope, s, moves[0]), moves[1..])
  }

  // ----- each piece of work keeps the shape -----

  ghost predicate GoodCtx(scope: Scope, c: Ctx) {
    Shaped(scope, c.p) && PodsNamed(scope.name, c.w.pods)
  }

  lemma MadePodIsNamed(now: int, p: Parent, i: nat)
    requires i <= 0x7fff_ffff
    ensures NamedByOwner(TemplatePod(now, p, i))
  {
    assert PARENT_NAME[0] != INDEX[0];
    ParsePrinted(i);
  }

  /** q holds the same names and ordinals as p, whatever the states recorded with them. */
  ghost predicate SameNames(p: Parent, q: Parent) {
    && q.name == p.name && ClaimBase(q) == ClaimBase(p) && q.finalizers == p.finalizers
    && |q.pods| == |p.pods| && |q.claims| == |p.claims|
    && (forall i :: 0 <= i < |p.pods| ==> q.pods[i].podName == p.pods[i].podName && q.pods[i].index == p.pods[i].index)
    && (forall i :: 0 <= i < |p.claims| ==>
          q.claims[i].claimName == p.claims[i].claimName && q.claims[i].index == p.claims[i].index)
  }

  lemma SameNamesShaped(scope: Scope, p: Parent, q: Parent)
    requires Shaped(scope, p) && SameNames(p, q)
    ensures Shaped(scope, q)
  {
  }

  lemma SlotsSetShaped(scope: Scope, p: Parent, i: nat, pod: PodSlot, claim: ClaimSlot)
    requires Shaped(scope, p) && i <= |p.pods| && i < 0x7fff_ffff
    requires pod.index == i && pod.podName == PodName(p, i)
    requires claim.index == i && claim.claimName in {ClaimName(p, i), "none"}
    ensures Shaped(scope, WithSlots(p, i, pod, claim))
  {
  }

  lemma MakePodShaped(scope: Scope, c: Ctx, i: nat)
    requires GoodCtx(scope, c) && i < 0x7fff_ffff
    ensures var (d, pod) := ExpansionPodEffect(c, i);
      && GoodCtx(scope, d) && d.w.stored == c.w.stored
      && (pod.Some? ==> pod.value.index == i && pod.value.podName == PodName(c.p, i))
  {
    MadePodIsNamed(c.w.now, c.p, i);
    var (d, pod) := ExpansionPodEffect(c, i);
    SameNamesShaped(scope, c.p, d.p);
  }

  lemma MakeClaimShaped(scope: Scope, c: Ctx, i: nat)
    requires GoodCtx(scope, c) && i < 0x7fff_ffff
    ensures var (d, claim) := Controller.ClaimPart(c, i);
      && GoodCtx(scope, d) && d.w.stored == c.w.stored
      && (claim.Some? ==> claim.value.index == i && claim.value.claimName in {ClaimName(c.p, i), "none"})
  {
    var (d, claim) := Controller.ClaimPart(c, i);
    SameNamesShaped(scope, c.p, d.p);
  }

  lemma GrowShaped(scope: Scope, c: Ctx, i: nat)
    requires GoodCtx(scope, c)
    requires i < |c.p.pods| || (i == |c.p.pods| && i < c.p.spec.size)
    ensures GoodCtx(scope, Grow(c, i).0) && Grow(c, i).0.w.stored == c.w.stored
  {
    if !(i == 0 && c.p.spec.hasService && ServiceName(c.p) !in c.w.services) {
      var (c1, pod) := ExpansionPodEffect(c, i);
      MakePodShaped(scope, c, i);
      if pod.Some? {
        var (c2, claim) := Controller.ClaimPart(c1, i);
        MakeClaimShaped(scope, c1, i);
        if claim.Some? {
          SlotsSetShaped(scope, c2.p, i, pod.value, claim.value);
        }
      }
    }
  }

  lemma CutPieces(c: Ctx, i: nat)
    requires 1 <= i <= |c.p.pods| == |c.p.claims|
    ensures var d := Cut(c, i).0;
      && d.w.stored == c.w.stored
      && d.w.pods in {c.w.pods, DeletePodIn(c.w, PodName(c.p, i - 1)).0.pods}
      && d.p in {c.p, Defaulted(c.p), Truncated(c.p, i - 1), Truncated(Defaulted(c.p), i - 1)}
  {
    hide Dashed;
  }

  lemma TruncatedShaped(scope: Scope, p: Parent, n: nat)
    requires Shaped(scope, p) && n <= |p.pods|
    ensures Shaped(scope, Truncated(p, n))
  {
  }

  lemma CutShaped(scope: Scope, c: Ctx, i: nat)
    requires GoodCtx(scope, c) && 1 <= i <= |c.p.pods|
    ensures GoodCtx(scope, Cut(c, i).0) && Cut(c, i).0.w.stored == c.w.stored
  {
    assert |c.p.pods| == |c.p.claims|;
    hide Cut, Dashed, Truncated;
    CutPieces(c, i);
    SameNamesShaped(scope, c.p, Defaulted(c.p));
    TruncatedShaped(scope, c.p, i - 1);
    TruncatedShaped(scope, Defaulted(c.p), i - 1);
  }

  lemma {:induction false} PodDeletesKeepNames(owner: string, w: World, slots: seq<PodSlot>, k: nat, sum: nat)
    requires k <= |slots| && PodsNamed(owner, w.pods)
    ensures var v := DeletePodsFrom(w, slots, k, sum).0; PodsNamed(owner, v.pods) && v.stored == w.stored
    decreases |slots| - k
  {
    if k < |slots| {
      if slots[k].podName in w.pods {
        var (w1, ok) := DeletePodIn(w, slots[k].podName);
        PodDeletesKeepNames(owner, w1, slots, k + 1, sum);
      } else {
        PodDeletesKeepNames(owner, w, slots, k + 1, sum + 1);
      }
    }
  }

  lemma {:induction false} ClaimDeletesKeepPods(w: World, slots: seq<ClaimSlot>, k: nat, sum: nat)
    requires k <= |slots|
    ensures var v := DeleteClaimsFrom(w, slots, k, sum).0;
      v == w.(claims := v.claims, log := v.log) && v.claims.Keys == w.claims.Keys
    decreases |slots| - k
  {
    if k < |slots| {
      if slots[k].claimName in w.claims {
        ClaimDeletesKeepPods(DeleteClaimIn(w, slots[k].claimName).0, slots, k + 1, sum);
      } else {
        ClaimDeletesKeepPods(w, slots, k + 1, sum + 1);
      }
    }
  }

  lemma {:induction false} VolumeUpdatesKeepPods(w: World, slots: seq<ClaimSlot>, k: nat, sum: nat)
    requires k <= |slots|
    ensures var v := VolumeControl.RetainFrom(w, slots, k, sum).0; v == w.(volumes := v.volumes, log := v.log)
    ensures var v := VolumeControl.FreeFrom(w, slots, k, sum).0; v == w.(volumes := v.volumes, log := v.log)
    decreases |slots| - k
  {
    if k < |slots| {
      var name := slots[k].volumeName;
      VolumeUpdatesKeepPods(w, slots, k + 1, sum + 1);
      if name in w.volumes {
        VolumeUpdatesKeepPods(UpdateVolumeIn(w, name, VolumeControl.Retained(w.volumes[name])).0, slots, k + 1, sum);
        VolumeUpdatesKeepPods(UpdateVolumeIn(w, name, VolumeControl.Freed(w.volumes[name])).0, slots, k + 1, sum);
      }
    }
  }

  lemma EraseShaped(scope: Scope, c: Ctx)
    requires GoodCtx(scope, c)
    ensures GoodCtx(scope, Erase(c).0) && Erase(c).0.w.stored == c.w.stored
  {
    hide Erase, DeletePodsFrom, WithoutFirst;
    ErasePieces(c);
    RemoveCounts(c.p.finalizers, GROUP_VERSION);
    VolumeUpdatesKeepPods(c.w, c.p.claims, 0, 0);
    var w1 := VolumeControl.SetPVRetainEffect(c.w, c.p).0;
    PodDeletesKeepNames(scope.name, w1, c.p.pods, 0, 0);
    var w2 := DeletePodAllEffect(w1, c.p).0;
    ClaimDeletesKeepPods(w2, c.p.claims, 0, 0);
    VolumeUpdatesKeepPods(DeletePvcAllEffect(w2, c.p).0, c.p.claims, 0, 0);
  }

  lemma {:induction false} InsistentDeleteKeepsPods(w: World, name: string)
    ensures var v := DeleteClaimUntilDone(w, name);
      v == w.(claims := v.claims, log := v.log) && v.claims.Keys == w.claims.Keys
    decreases FaultsAhead(w.faults, |w.log|)
  {
    var (w1, ok) := DeleteClaimIn(w, name);
    if !ok {
      assert |w.log| in FaultsAhead(w.faults, |w.log|) - FaultsAhead(w.faults, |w1.log|);
      InsistentDeleteKeepsPods(w1, name);
    }
  }

  lemma MandatoryKeepsNames(owner: string, w: World, pod: Pod)
    requires PodsNamed(owner, w.pods) && NamedByOwner(pod)
    ensures var v := DeletePodMandatoryEffect(w, pod).0; PodsNamed(owner, v.pods) && v.stored == w.stored
  {
    assert NODE_UNHEALTHY[0] != INDEX[0] && NODE_UNHEALTHY[0] != PARENT_NAME[0];
  }

  lemma BothDeletingShaped(scope: Scope, p: Parent, i: nat)
    requires Shaped(scope, p) && i < |p.pods|
    ensures Shaped(scope, Defaulted(p))
    ensures Shaped(scope, BothDeleting(p, i)) && Shaped(scope, BothDeleting(Defaulted(p), i))
  {
    SameNamesShaped(scope, p, Defaulted(p));
    SameNamesShaped(scope, p, BothDeleting(p, i));
    SameNamesShaped(scope, p, BothDeleting(Defaulted(p), i));
  }

  lemma NodeLostCases(c: Ctx, pod: Pod, i: nat)
    requires i < |c.p.pods| == |c.p.claims|
    ensures var (d, w1) := (NodeLostEffect(c, pod, i).0, DeletePodMandatoryEffect(c.w, pod).0);
      && d.w == w1.(claims := d.w.claims, log := d.w.log)
      && d.p in {c.p, Defaulted(c.p), BothDeleting(c.p, i), BothDeleting(Defaulted(c.p), i)}
  {
  }

  lemma NodeLostShaped(scope: Scope, c: Ctx, pod: Pod, i: nat)
    requires GoodCtx(scope, c) && NamedByOwner(pod) && i < |c.p.pods|
    ensures var d := NodeLostEffect(c, pod, i).0; GoodCtx(scope, d) && d.w.stored == c.w.stored
  {
    MandatoryKeepsNames(scope.name, c.w, pod);
    NodeLostCases(c, pod, i);
    BothDeletingShaped(scope, c.p, i);
  }

  lemma TimedOutCases(c: Ctx, pod: Pod, i: nat)
    requires i < |c.p.pods| == |c.p.claims|
    ensures var q := TimedOutEffect(c, pod, i).0.p;
      if i < |c.p.pods| - 1 then q in {c.p, BothDeleting(c.p, i), BothDeleting(Defaulted(c.p), i)}
      else q in {c.p, Truncated(c.p, i), Truncated(Defaulted(c.p), i)}
  {
    hide DeleteClaimUntilDone, Dashed;
  }

  /** No pod event touches the stored object before its write. */
  lemma MonitorKeepsStored(c: Ctx, pod: Pod, i: nat)
    requires |c.p.pods| == |c.p.claims|
    ensures MonitorPodEffect(c, pod, i).0.w.stored == c.w.stored
  {
    hide NodeLostEffect, TimedOutEffect, DeletePodMandatoryEffect, PodRunning, IsNodeReady, Dashed;
    if i < |c.p.pods| {
      NodeLostCases(c, pod, i);
      MandatoryKeepsStored(c.w, pod);
      TimedOutKeepsStored(c, pod, i);
    }
  }

  lemma MandatoryKeepsStored(w: World, pod: Pod)
    ensures DeletePodMandatoryEffect(w, pod).0.stored == w.stored
  {
  }

  lemma TimedOutKeepsStored(c: Ctx, pod: Pod, i: nat)
    requires i < |c.p.pods| == |c.p.claims|
    ensures TimedOutEffect(c, pod, i).0.w.stored == c.w.stored
  {
    hide DeleteClaimUntilDone, Dashed;
    InsistentDeleteKeepsPods(DeletePodIn(c.w, pod.name).0, ClaimName(c.p, i));
  }

  lemma TimedOutShaped(scope: Scope, c: Ctx, pod: Pod, i: nat)
    requires GoodCtx(scope, c) && i < |c.p.pods|
    ensures var d := TimedOutEffect(c, pod, i).0; GoodCtx(scope, d) && d.w.stored == c.w.stored
  {
    var (w1, ok) := DeletePodIn(c.w, pod.name);
    assert PodsNamed(scope.name, w1.pods);
    InsistentDeleteKeepsPods(w1, ClaimName(c.p, i));
    TimedOutCases(c, pod, i);
    BothDeletingShaped(scope, c.p, i);
    TruncatedShaped(scope, c.p, i);
    TruncatedShaped(scope, Defaulted(c.p), i);
    hide Shaped, BothDeleting, Truncated;
  }

  lemma PodEventShaped(scope: Scope, c: Ctx, pod: Pod)
    requires GoodCtx(scope, c) && NamedByOwner(pod) && OwnerName(pod.annotations) == c.p.name
    ensures var d := MonitorPodEffect(c, pod, Ordinal(pod.annotations)).0;
      GoodCtx(scope, d) && d.w.stored == c.w.stored
  {
    var i := Ordinal(pod.annotations);
    var (d, _) := MonitorPodEffect(c, pod, i);
    if i >= |c.p.pods| {
    } else if !pod.terminating && !NodeReadyIn(c.w, pod.nodeName) {
      NodeLostShaped(scope, c, pod, i);
    } else if !pod.terminating && !PodRunning(pod) && c.p.pods[i].status == CreateTimeOut {
      TimedOutShaped(scope, c, pod, i);
    } else {
      assert pod.name == c.p.pods[i].podName;
      SameNamesShaped(scope, c.p, d.p);
    }
  }

  lemma ClaimEventShaped(scope: Scope, p: Parent, claim: Claim)
    requires Shaped(scope, p) && Ordinal(claim.annotations) >= 0
    ensures Shaped(scope, MonitorClaimEffect(p, claim, Ordinal(claim.annotations)).0)
  {
    SameNamesShaped(scope, p, MonitorClaimEffect(p, claim, Ordinal(claim.annotations)).0);
  }

  lemma MarkShaped(scope: Scope, w: World, p: Parent)
    requires Shaped(scope, p)
    ensures Shaped(scope, PodIsOkEffect(w, p).0)
  {
    SameNamesShaped(scope, p, PodIsOkEffect(w, p).0);
  }

  lemma PieceShaped(scope: Scope, c: Ctx, m: Move)
    requires GoodCtx(scope, c)
    ensures var d := Piece(c, m);
      GoodCtx(scope, d) && (d.w.stored == c.w.stored || d.w.stored in {None, Some(d.p)})
  {
    match m
    case GrowAt(_, i) =>
      if i < |c.p.pods| || (i == |c.p.pods| && i < c.p.spec.size) { GrowShaped(scope, c, i); }
    case CutAt(_, i) => if 1 <= i <= |c.p.pods| { CutShaped(scope, c, i); }
    case EraseAll(_) => EraseShaped(scope, c);
    case MarkPods(_) => MarkShaped(scope, c.w, c.p);
    case PodEvent(_, pod) =>
      if NamedByOwner(pod) && OwnerName(pod.annotations) == c.p.name { PodEventShaped(scope, c, pod); }
    case ClaimEvent(_, claim) =>
      if Ordinal(claim.annotations) >= 0 { ClaimEventShaped(scope, c.p, claim); }
    case Write(_) => SameNamesShaped(scope, c.p, Put(c).p);
    case Finalize(_) => assert WellFormed(AddFinalizer(c.p));
    case _ =>
  }

  lemma MoveKeepsShape(scope: Scope, s: System, m: Move)
    requires AllShaped(scope, s)
    ensures AllShaped(scope, Apply(scope, s, m))
    ensures |Apply(scope, s, m).copies| == |s.copies|
  {
    hide Piece, NamedByOwner;
    if !m.Outside? && m.k < |s.copies| && !m.Read? && s.copies[m.k].Some? {
      PieceShaped(scope, Ctx(s.w, s.copies[m.k].value), m);
    }
  }

  /** Interference does no harm: over any run of any number of reconcilers, the stored parent and
      every copy keep their lists equally long and in line with the names. */
  lemma {:induction false} RunKeepsShape(scope: Scope, s: System, moves: seq<Move>)
    requires AllShaped(scope, s)
    ensures AllShaped(scope, ApplyAll(scope, s, moves))
    decreases |moves|
  {
    if moves != [] {
      MoveKeepsShape(scope, s, moves[0]);
      RunKeepsShape(scope, Apply(scope, s, moves[0]), moves[1..]);
    }
  }

  // ----- what the shape is good for -----

  /** Two pods of the parent never share an ordinal. */
  lemma AtMostOnePod(scope: Scope, s: System, m: string, n: string)
    requires AllShaped(scope, s) && m in s.w.pods && n in s.w.pods
    requires OwnerName(s.w.pods[m].annotations) == OwnerName(s.w.pods[n].annotations) == scope.name
    ensures m == n <==> Ordinal(s.w.pods[m].annotations) == Ordinal(s.w.pods[n].annotations)
  {
    DashedInjective(scope.name, Ordinal(s.w.pods[m].annotations), scope.name, Ordinal(s.w.pods[n].annotations));
  }

  /** In every reachable system the event of a pod of this parent reaches exactly the slot recorded
      under its name, and the event of any other pod reaches none. */
  lemma EventFindsItsSlot(scope: Scope, s: System, n: string, i: nat)
    requires AllShaped(scope, s) && s.w.stored.Some? && n in s.w.pods
    requires i < |s.w.stored.value.pods|
    ensures OwnerName(s.w.pods[n].annotations) == scope.name ==>
      (s.w.stored.value.pods[i].podName == n <==> Ordinal(s.w.pods[n].annotations) == i)
    ensures OwnerName(s.w.pods[n].annotations) != scope.name ==> MonitorPod(s.w, s.w.pods[n]) == s.w
  {
    var pod := s.w.pods[n];
    assert s.w.stored.value.pods[i].podName == Dashed(scope.name, i);
    if OwnerName(pod.annotations) == scope.name {
      DashedInjective(scope.name, Ordinal(pod.annotations), scope.name, i);
    }
  }

  /** Claim names are told apart by prefix-and-parent taken together, and by ordinal. */
  lemma ClaimNamesMeetExactly(p: Parent, i: nat, q: Parent, j: nat)
    ensures ClaimName(p, i) == ClaimName(q, j) <==>
      ClaimBase(p) + "-" + p.name == ClaimBase(q) + "-" + q.name && i == j
  {
    DashedInjective(ClaimBase(p) + "-" + p.name, i, ClaimBase(q) + "-" + q.name, j);
  }

  /** So two parents of different names can ask for the same claim. */
  lemma ClaimNamesCanMeet(p: Parent, q: Parent, i: nat)
    requires p.name == "c" && p.spec.claimName == "a-b" && q.name == "b-c" && q.spec.claimName == "a"
    ensures ClaimName(p, i) == ClaimName(q, i)
  {
    assert ClaimBase(p) + "-" + p.name == "a-b-c" == ClaimBase(q) + "-" + q.name;
  }

  // ----- runs, state by state -----

  ghost function SystemAt(scope: Scope, s: System, moves: seq<Move>, n: nat): System
    requires n <= |moves|
  {
    if n == 0 then s else Apply(scope, SystemAt(scope, s, moves, n - 1), moves[n - 1])
  }

  lemma {:induction false} ShapedAt(scope: Scope, s: System, moves: seq<Move>, n: nat)
    requires AllShaped(scope, s) && n <= |moves|
    ensures AllShaped(scope, SystemAt(scope, s, moves, n))
    ensures |SystemAt(scope, s, moves, n).copies| == |s.copies|
  {
    hide Apply, AllShaped;
    if n > 0 {
      ShapedAt(scope, s, moves, n - 1);
      MoveKeepsShape(scope, SystemAt(scope, s, moves, n - 1), moves[n - 1]);
    }
  }

  // ----- CoreCtrl as a run of moves -----

  /** The moves of reconciler k that make up one call of CoreCtrl on the copy it holds. */
  function CoreMoves(c: Ctx, k: nat): seq<Move>
    requires |c.p.pods| == |c.p.claims|
  {
    var n := GetIndex(c.p);
    if c.p.deletionMarked && n == c.p.spec.size then
      [EraseAll(k)] + (if Erase(c).1.None? then [Write(k)] else [])
    else if n < c.p.spec.size then
      [GrowAt(k, n)] + (if Grow(c, n).1.None? then [Write(k)] else [])
    else if n > c.p.spec.size then
      [CutAt(k, n)] + (if Cut(c, n).1.None? then [Write(k)] else [])
    else
      var c1 := SetFinalizerEffect(c);
      (if WantsFinalizer(c.p) then [Finalize(k), Write(k)] else []) + MaintainMoves(c1, k)
  }

  function MaintainMoves(c: Ctx, k: nat): seq<Move>
    requires |c.p.pods| == |c.p.claims|
  {
    var c1 := MarkEffect(c);
    var index := FirstNeedingPod(c1.w, c1.p.pods);
    (if PodIsOkEffect(c.w, c.p).1.Some? then [MarkPods(k), Write(k)] else [])
    + (if index.None? then []
       else [GrowAt(k, index.value)] + (if Grow(c1, index.value).1.None? then [Write(k)] else []))
  }

  lemma {:induction false} ApplyTwice(scope: Scope, s: System, a: seq<Move>, b: seq<Move>)
    ensures ApplyAll(scope, s, a + b) == ApplyAll(scope, ApplyAll(scope, s, a), b)
    decreases |a|
  {
    if a == [] {
      assert a + b == b;
    } else {
      assert (a + b)[1..] == a[1..] + b;
      ApplyTwice(scope, Apply(scope, s, a[0]), a[1..], b);
    }
  }

  predicate WorkOf(m: Move, k: nat) {
    !m.Outside? && !m.Read? && m.k == k
  }

  lemma OneMove(scope: Scope, s: System, k: nat, c: Ctx, m: Move)
    requires |c.p.pods| == |c.p.claims| && WorkOf(m, k) && k < |s.copies|
    ensures ApplyAll(scope, WithCopy(s, k, c), [m]) == WithCopy(s, k, Piece(c, m))
  {
    hide Piece;
    var t := WithCopy(s, k, c);
    assert [m][1..] == [];
    assert ApplyAll(scope, t, [m]) == Apply(scope, t, m);
    assert t.copies[k := Some(Piece(c, m).p)] == s.copies[k := Some(Piece(c, m).p)];
  }

  lemma ThenWrite(scope: Scope, s: System, k: nat, c: Ctx, m: Move)
    requires |c.p.pods| == |c.p.claims| && WorkOf(m, k) && k < |s.copies|
    requires |Piece(c, m).p.pods| == |Piece(c, m).p.claims|
    ensures ApplyAll(scope, WithCopy(s, k, c), [m, Write(k)]) == WithCopy(s, k, Put(Piece(c, m)))
  {
    assert [m, Write(k)] == [m] + [Write(k)];
    ApplyTwice(scope, WithCopy(s, k, c), [m], [Write(k)]);
    OneMove(scope, s, k, c, m);
    OneMove(scope, s, k, Piece(c, m), Write(k));
  }

  lemma MaintainIsMoves(scope: Scope, s: System, k: nat, c: Ctx)
    requires |c.p.pods| == |c.p.claims| && k < |s.copies|
    ensures ApplyAll(scope, WithCopy(s, k, c), MaintainMoves(c, k)) == WithCopy(s, k, MaintainEffect(c).0)
  {
    hide WithCopy, Grow, FirstFrom;
    var c1 := MarkEffect(c);
    var marks := if PodIsOkEffect(c.w, c.p).1.Some? then [MarkPods(k), Write(k)] else [];
    if marks != [] {
      ThenWrite(scope, s, k, c, MarkPods(k));
    }
    var index := FirstNeedingPod(c1.w, c1.p.pods);
    if index.Some? {
      var m := GrowAt(k, index.value);
      OneMove(scope, s, k, c1, m);
      ThenWrite(scope, s, k, c1, m);
      var grows := [m] + (if Grow(c1, index.value).1.None? then [Write(k)] else []);
      assert MaintainMoves(c, k) == marks + grows;
      ApplyTwice(scope, WithCopy(s, k, c), marks, grows);
    } else {
      assert MaintainMoves(c, k) == marks;
    }
  }

  /** Every call of CoreCtrl is such a run, so what holds of all runs of moves holds of it. */
  lemma CoreIsMoves(scope: Scope, s: System, k: nat, c: Ctx)
    requires WellFormed(c.p) && k < |s.copies|
    ensures ApplyAll(scope, WithCopy(s, k, c), CoreMoves(c, k)) == WithCopy(s, k, CoreEffect(c).0)
  {
    hide WithCopy, Grow, Cut, Erase, MaintainMoves, MaintainEffect, SlotsInLine, ClaimsInLine;
    var n := GetIndex(c.p);
    if c.p.deletionMarked && n == c.p.spec.size {
      ErasePieces(c);
      OneMove(scope, s, k, c, EraseAll(k));
      ThenWrite(scope, s, k, c, EraseAll(k));
    } else if n < c.p.spec.size {
      OneMove(scope, s, k, c, GrowAt(k, n));
      ThenWrite(scope, s, k, c, GrowAt(k, n));
    } else if n > c.p.spec.size {
      CutPieces(c, n);
      OneMove(scope, s, k, c, CutAt(k, n));
      ThenWrite(scope, s, k, c, CutAt(k, n));
    } else {
      var c1 := SetFinalizerEffect(c);
      MaintainIsMoves(scope, s, k, c1);
      if WantsFinalizer(c.p) {
        ThenWrite(scope, s, k, c, Finalize(k));
        ApplyTwice(scope, WithCopy(s, k, c), [Finalize(k), Write(k)], MaintainMoves(c1, k));
      } else {
        assert CoreMoves(c, k) == MaintainMoves(c1, k);
      }
    }
  }
}
