// What the objects that CoreCtrl makes look like: a pod inherits its parent's annotations, a claim takes its
// static volume exactly if that can be used, and the new record says the same as the claim.
module MadeObjects {
  import opened Tools
  import opened Types
  import opened Api
  import opened PodControl
  import opened ClaimControl
  import opened Controller
  import opened Workers
  import opened StickyVolumes
  import opened Handshake
  import Deletion
  import NodeLoss
  import Notices
  import SizeLaws

  // ----- pods -----

  /** The annotations that say whose pod it is; all others are the user's. */
  const IDENTITY := {GROUP_VERSION, PARENT_NAME, INDEX}

  predicate Carries(m: Annotations, key: string, value: string) {
    key in m && m[key] == value
  }

  /** A new pod i of the parent p: nothing but its name, its identity and what it inherits. */
  ghost predicate NewPod(w: World, p: Parent, i: nat, pod: Pod) {
    && pod.name == PodName(p, i) && pod.version == 0 && !pod.terminating
    && pod.phase == PodPending && pod.conditions == [] && pod.nodeName == "" && pod.created == w.now
    && Carries(pod.annotations, GROUP_VERSION, "true") && OwnerName(pod.annotations) == p.name
    && (i <= 0x7fff_ffff ==> Ordinal(pod.annotations) == i)
    && pod.annotations - IDENTITY == (if p.annotations.Some? then p.annotations.value else map[]) - IDENTITY
    && pod.mountedClaim == if p.spec.claimTemplate.Some? then ClaimName(p, i) else p.spec.claimName
  }

  lemma TemplateIsNew(w: World, p: Parent, i: nat)
    ensures NewPod(w, p, i, TemplatePod(w.now, p, i))
  {
    StampSays(if p.annotations.Some? then p.annotations.value else map[], p.name, i);
    hide Stamp, OwnerName, Ordinal, Dashed;
  }

  lemma StampSays(m: Annotations, parent: string, i: nat)
    ensures var a := Stamp(m, parent, i);
      && Carries(a, GROUP_VERSION, "true") && OwnerName(a) == parent && (i <= 0x7fff_ffff ==> Ordinal(a) == i)
      && a - IDENTITY == m - IDENTITY
  {
    assert PARENT_NAME[0] != INDEX[0] && PARENT_NAME[0] != GROUP_VERSION[0] && GROUP_VERSION[1] != INDEX[1];
    assert Stamp(m, parent, i)[INDEX] == Itoa(i);
    hide Itoa, StringToInt;
    if i <= 0x7fff_ffff {
      ParsePrinted(i);
    }
  }

  /** Expansion makes at most the pod of its slot, a new one; the parent's copy then bears its annotations, if it
      has any. */
  lemma GrowMakesPod(c: Ctx, i: nat)
    requires i <= |c.p.pods| == |c.p.claims|
    ensures var g := Grow(c, i).0; var n := PodName(c.p, i);
      && (forall m :: m in c.w.pods ==> m in g.w.pods && g.w.pods[m] == c.w.pods[m])
      && g.w.pods.Keys <= c.w.pods.Keys + {n}
      && (n !in c.w.pods && n in g.w.pods ==>
            && NewPod(c.w, c.p, i, g.w.pods[n])
            && g.p.annotations == if c.p.annotations.Some? then Some(g.w.pods[n].annotations) else None)
  {
    hide ClaimPart, ExpansionPodEffect, NewPod, TemplatePod, Stamp, Dashed;
    GrowPieces(c, i);
    PodPartShape(c, i);
    PodPartStamps(c, i);
    var d := ExpansionPodEffect(c, i).0;
    ClaimPartShape(d, i);
    ClaimPartAnnotations(d, i);
    TemplateIsNew(c.w, c.p, i);
  }

  lemma PodPartStamps(c: Ctx, i: nat)
    ensures var d := ExpansionPodEffect(c, i).0;
      && (PodName(c.p, i) in c.w.pods ==> d == c)
      && (PodName(c.p, i) !in c.w.pods ==>
            d.p.annotations ==
              if c.p.annotations.Some? then Some(TemplatePod(c.w.now, c.p, i).annotations) else None)
  {
    hide Stamp, Dashed;
  }

  lemma ClaimPartAnnotations(c: Ctx, i: nat)
    ensures Controller.ClaimPart(c, i).0.p.annotations == c.p.annotations
  {
  }

  lemma EraseMakesNoPod(c: Ctx)
    requires |c.p.pods| == |c.p.claims|
    ensures Erase(c).0.w.pods.Keys <= c.w.pods.Keys
  {
    hide Erase;
    Deletion.EraseWorld(c);
    forall n | n in Erase(c).0.w.pods ensures n in c.w.pods.Keys {
    }
  }

  /** Whichever branch of CoreCtrl makes a pod, it is the new pod of a slot of the stored parent. */
  lemma CoreMakesPods(w: World, p: Parent, n: string)
    requires w.stored == Some(p) && WellFormed(p) && n !in w.pods && n in Core(w).pods
    ensures exists i: nat :: n == PodName(p, i) && i <= 0x7fff_ffff && NewPod(w, p, i, Core(w).pods[n])
  {
    hide ExpansionEffect, MaintainEffect, SetFinalizerEffect, Erase, Cut, NewPod, SlotsInLine, ClaimsInLine, Dashed;
    var c, k := Ctx(w, p), GetIndex(p);
    assert n in Core(w).pods.Keys;
    if p.deletionMarked && k == p.spec.size {
      EraseMakesNoPod(c);
      assert false;
    } else if k < p.spec.size {
      ExpansionMakesPod(c, k, n);
    } else if k > p.spec.size {
      SizeLaws.CutShape(c, k);
      assert false;
    } else {
      var c1 := SetFinalizerEffect(c);
      FinalizerOnly(c);
      MaintainMakesPod(c1, n);
      var i: nat :| n == PodName(c1.p, i) && i <= 0x7fff_ffff && NewPod(c1.w, c1.p, i, Core(w).pods[n]);
      SameNewPod(w, p, c1.w, c1.p, i, Core(w).pods[n]) by { FinalizerKeepsAnnotations(c); }
    }
  }

  lemma ExpansionMakesPod(c: Ctx, i: nat, n: string)
    requires i <= |c.p.pods| == |c.p.claims| && i <= 0x7fff_ffff
    requires n !in c.w.pods && n in ExpansionEffect(c, i).0.w.pods
    ensures n == PodName(c.p, i) && NewPod(c.w, c.p, i, ExpansionEffect(c, i).0.w.pods[n])
  {
    hide Grow, NewPod, Dashed;
    GrowMakesPod(c, i);
    assert n in Grow(c, i).0.w.pods.Keys;
  }

  lemma MaintainMakesPod(c: Ctx, n: string)
    requires WellFormed(c.p) && n !in c.w.pods && n in MaintainEffect(c).0.w.pods && c.w.stored in {None, Some(c.p)}
    ensures exists i: nat ::
      n == PodName(c.p, i) && i <= 0x7fff_ffff && NewPod(c.w, c.p, i, MaintainEffect(c).0.w.pods[n])
  {
    hide ExpansionEffect, MarkEffect, NewPod, NeedsPod, SlotsInLine, ClaimsInLine, Dashed;
    var d := MarkEffect(c);
    MarkOnly(c);
    var index := FirstNeedingPod(d.w, d.p.pods);
    if index.Some? {
      ExpansionMakesPod(d, index.value, n);
      SameNewPod(c.w, c.p, d.w, d.p, index.value, MaintainEffect(c).0.w.pods[n]) by { MarkKeepsAnnotations(c); }
      assert PodName(d.p, index.value) == PodName(c.p, index.value);
    }
  }

  lemma MarkKeepsAnnotations(c: Ctx)
    ensures MarkEffect(c).p.annotations == c.p.annotations
  {
    hide OutOfStep;
  }

  lemma FinalizerKeepsAnnotations(c: Ctx)
    ensures SetFinalizerEffect(c).p.annotations == c.p.annotations
  {
  }

  lemma SameNewPod(w: World, p: Parent, v: World, q: Parent, i: nat, pod: Pod)
    requires v.now == w.now && q.name == p.name && q.spec == p.spec && q.annotations == p.annotations
    ensures NewPod(v, q, i, pod) <==> NewPod(w, p, i, pod)
  {
  }

  // ----- an annotation of the parent, over interleavings -----

  ghost predicate ParentCarries(p: Option<Parent>, key: string, value: string) {
    p.Some? ==> p.value.annotations.Some? && Carries(p.value.annotations.value, key, value)
  }

  ghost predicate PodsCarry(owner: string, pods: map<string, Pod>, key: string, value: string) {
    forall n :: n in pods && OwnerName(pods[n].annotations) == owner ==> Carries(pods[n].annotations, key, value)
  }

  ghost predicate AllCarry(scope: Scope, s: System, key: string, value: string) {
    && PodsCarry(scope.name, s.w.pods, key, value) && ParentCarries(s.w.stored, key, value)
    && forall k :: 0 <= k < |s.copies| ==> ParentCarries(s.copies[k], key, value)
  }

  /** Outside, the parent and its pods keep the annotation, and the observed pods have it. */
  ghost predicate CarryingMove(scope: Scope, m: Move, key: string, value: string) {
    match m
    case PodEvent(_, pod) => OwnerName(pod.annotations) == scope.name ==> Carries(pod.annotations, key, value)
    case Outside(v) => PodsCarry(scope.name, v.pods, key, value) && ParentCarries(v.stored, key, value)
    case _ => true
  }

  lemma NewPodCarries(w: World, p: Parent, i: nat, pod: Pod, key: string, value: string)
    requires NewPod(w, p, i, pod) && ParentCarries(Some(p), key, value) && key !in IDENTITY
    ensures Carries(pod.annotations, key, value)
  {
    assert key in p.annotations.value - IDENTITY;
    assert key in pod.annotations - IDENTITY;
  }

  lemma GrowCarries(owner: string, c: Ctx, i: nat, key: string, value: string)
    requires i <= |c.p.pods| == |c.p.claims| && key !in IDENTITY
    requires PodsCarry(owner, c.w.pods, key, value) && ParentCarries(Some(c.p), key, value)
    ensures PodsCarry(owner, Grow(c, i).0.w.pods, key, value) && ParentCarries(Some(Grow(c, i).0.p), key, value)
  {
    hide Grow, NewPod, Carries, OwnerName;
    GrowMakesPod(c, i);
    var g, n := Grow(c, i).0, PodName(c.p, i);
    if n !in c.w.pods && n in g.w.pods {
      NewPodCarries(c.w, c.p, i, g.w.pods[n], key, value);
    } else {
      GrowKeepsAnnotations(c, i);
      StampCarries(c.p.annotations.value, c.p.name, i, key, value);
    }
    forall m | m in g.w.pods && OwnerName(g.w.pods[m].annotations) == owner
      ensures Carries(g.w.pods[m].annotations, key, value)
    {
      assert m in g.w.pods.Keys;
    }
  }

  lemma StampCarries(m: Annotations, parent: string, i: nat, key: string, value: string)
    requires Carries(m, key, value) && key !in IDENTITY
    ensures Carries(Stamp(m, parent, i), key, value)
  {
  }

  lemma GrowKeepsAnnotations(c: Ctx, i: nat)
    requires i <= |c.p.pods| == |c.p.claims|
    ensures var g := Grow(c, i).0;
      var stamp := Stamp(if c.p.annotations.Some? then c.p.annotations.value else map[], c.p.name, i);
      g.p.annotations in {c.p.annotations, if c.p.annotations.Some? then Some(stamp) else None}
  {
    hide Stamp, Dashed, ClaimPart;
    GrowPieces(c, i);
    ClaimPartAnnotations(ExpansionPodEffect(c, i).0, i);
  }

  lemma MandatoryCarries(owner: string, w: World, pod: Pod, key: string, value: string)
    requires PodsCarry(owner, w.pods, key, value) && key != NODE_UNHEALTHY
    requires OwnerName(pod.annotations) == owner ==> Carries(pod.annotations, key, value)
    ensures PodsCarry(owner, DeletePodMandatoryEffect(w, pod).0.pods, key, value)
  {
    assert NODE_UNHEALTHY[0] != PARENT_NAME[0];
  }

  lemma PodEventCarries(owner: string, c: Ctx, pod: Pod, i: nat, key: string, value: string)
    requires |c.p.pods| == |c.p.claims| && PodsCarry(owner, c.w.pods, key, value) && key != NODE_UNHEALTHY
    requires OwnerName(pod.annotations) == owner ==> Carries(pod.annotations, key, value)
    ensures var d := MonitorPodEffect(c, pod, i).0;
      PodsCarry(owner, d.w.pods, key, value) && d.p.annotations == c.p.annotations
  {
    hide NodeLostEffect, TimedOutEffect, DeletePodMandatoryEffect, PodRunning, IsNodeReady, Dashed;
    if i < |c.p.pods| {
      MandatoryCarries(owner, c.w, pod, key, value);
      NodeLostCases(c, pod, i);
      TimedOutCases(c, pod, i);
      TimedOutPods(c, pod, i);
    }
  }

  lemma TimedOutPods(c: Ctx, pod: Pod, i: nat)
    requires i < |c.p.pods| == |c.p.claims|
    ensures PodsFrom(c.w, TimedOutEffect(c, pod, i).0.w)
  {
    hide DeleteClaimUntilDone, Dashed, BothDeleting, Truncated;
    InsistentDeleteKeepsPods(DeletePodIn(c.w, pod.name).0, ClaimName(c.p, i));
  }

  lemma FromCarries(owner: string, w: World, v: World, key: string, value: string)
    requires PodsCarry(owner, w.pods, key, value) && PodsFrom(w, v)
    ensures PodsCarry(owner, v.pods, key, value)
  {
  }

  lemma PieceCarries(scope: Scope, c: Ctx, m: Move, key: string, value: string)
    requires |c.p.pods| == |c.p.claims| && !m.Outside? && CarryingMove(scope, m, key, value)
    requires key !in IDENTITY && key != NODE_UNHEALTHY
    requires PodsCarry(scope.name, c.w.pods, key, value) && ParentCarries(Some(c.p), key, value)
    requires ParentCarries(c.w.stored, key, value)
    ensures var d := Piece(c, m);
      && PodsCarry(scope.name, d.w.pods, key, value) && ParentCarries(Some(d.p), key, value)
      && ParentCarries(d.w.stored, key, value)
  {
    hide Grow, Cut, Erase, MonitorPodEffect, MonitorClaimEffect, OutOfStep, Ordinal, OwnerName, PodsCarry, Carries;
    if !m.Write? {
      Notices.PieceQuiet(c, m);
    }
    match m
    case GrowAt(_, i) => if i <= |c.p.pods| { GrowCarries(scope.name, c, i, key, value); }
    case CutAt(_, i) =>
      if 1 <= i <= |c.p.pods| {
        CutOnlyMarks(c, i);
        FromCarries(scope.name, c.w, Cut(c, i).0.w, key, value);
        CutPieces(c, i);
      }
    case EraseAll(_) =>
      EraseOnlyMarks(c);
      FromCarries(scope.name, c.w, Erase(c).0.w, key, value);
      EraseSettles(c);
    case PodEvent(_, pod) =>
      if Ordinal(pod.annotations) >= 0 {
        PodEventCarries(scope.name, c, pod, Ordinal(pod.annotations), key, value);
      }
    case ClaimEvent(_, claim) =>
      if Ordinal(claim.annotations) >= 0 { ClaimEventAnnotations(c.p, claim, Ordinal(claim.annotations)); }
    case _ =>
  }

  lemma ClaimEventAnnotations(p: Parent, claim: Claim, i: nat)
    requires |p.pods| == |p.claims|
    ensures MonitorClaimEffect(p, claim, i).0.annotations == p.annotations
  {
  }

  lemma MoveCarries(scope: Scope, s: System, m: Move, key: string, value: string)
    requires AllCarry(scope, s, key, value) && CarryingMove(scope, m, key, value)
    requires key !in IDENTITY && key != NODE_UNHEALTHY
    ensures AllCarry(scope, Apply(scope, s, m), key, value)
  {
    hide Piece, PodsCarry, Carries, OutsideAllowed;
    if !m.Outside? && !m.Read? && m.k < |s.copies| && s.copies[m.k].Some? {
      var c := Ctx(s.w, s.copies[m.k].value);
      if |c.p.pods| == |c.p.claims| {
        PieceCarries(scope, c, m, key, value);
      }
    }
  }

  /** Over every interleaving an annotation that parent and pods have, with a key that is not the controller's, is
      on every pod that is made. */
  lemma {:induction false} AnnotationsAreInherited(
    scope: Scope, s: System, moves: seq<Move>, n: nat, key: string, value: string)
    requires AllCarry(scope, s, key, value) && n <= |moves| && key !in IDENTITY && key != NODE_UNHEALTHY
    requires forall m :: m in moves ==> CarryingMove(scope, m, key, value)
    ensures AllCarry(scope, SystemAt(scope, s, moves, n), key, value)
  {
    hide Apply, AllCarry, CarryingMove;
    if n > 0 {
      AnnotationsAreInherited(scope, s, moves, n - 1, key, value);
      assert moves[n - 1] in moves;
      MoveCarries(scope, SystemAt(scope, s, moves, n - 1), moves[n - 1], key, value);
    }
  }

  /** So every pod of a parent that is annotated as a cockroach is under the handshake: whichever of them, as it
      was at any earlier point, is force-deleted, an earlier successful call had marked it. */
  lemma ParentsPodsForcedOnlyAfterMark(scope: Scope, s: System, moves: seq<Move>, j: nat, n: nat, value: string)
    requires AllCarry(scope, s, COCKROACH_DB, value) && QuietRun(scope, s, moves)
    requires forall m :: m in moves ==> CarryingMove(scope, m, COCKROACH_DB, value)
    requires j <= n < |moves| && ForcesAt(scope, s, moves, n) && SeenAt(scope, s, moves, j, moves[n].pod)
    requires OwnerName(moves[n].pod.annotations) == scope.name
    ensures Annotated(SystemAt(scope, s, moves, n).w.log, moves[n].pod.name)
  {
    hide SystemAt, QuietRun, ForcesAt, Annotated, CarryingMove;
    CockroachIsUsers();
    AnnotationsAreInherited(scope, s, moves, j, COCKROACH_DB, value);
    ForcedOnlyAfterMark(scope, s, moves, j, n);
  }

  lemma CockroachIsUsers()
    ensures COCKROACH_DB !in IDENTITY && COCKROACH_DB != NODE_UNHEALTHY
  {
    assert COCKROACH_DB[0] != GROUP_VERSION[0] && COCKROACH_DB[0] != PARENT_NAME[0] && COCKROACH_DB[0] != INDEX[0];
    assert COCKROACH_DB[0] != NODE_UNHEALTHY[0];
  }

  // ----- claims -----

  /** A static volume that can be taken: it is there, Available, and provisioned on a known node that is not
      lost. */
  predicate Usable(w: World, name: string) {
    && name in w.volumes && w.volumes[name].phase == Available
    && PROVISION_ON_NODE in w.volumes[name].annotations
    && !NodeLoss.NodeLost(w, w.volumes[name].annotations[PROVISION_ON_NODE])
  }

  /** The claim that CoreCtrl makes takes the static volume of its slot, without a storage class, exactly if that
      can be used, and is otherwise as the stored template says. */
  lemma TakesStaticVolumeExactly(w: World, i: nat)
    requires Makes(w, i)
    ensures var p, claim := w.stored.value, Core(w).claims[ClaimName(w.stored.value, i)];
      if i < |p.spec.volumeNames| && Usable(w, p.spec.volumeNames[i]) then
        claim.volumeName == p.spec.volumeNames[i] && claim.storageClass == ""
      else
        && claim.volumeName == p.spec.claimTemplate.value.volumeName
        && claim.storageClass == p.spec.claimTemplate.value.storageClass
  {
    hide Core, ClaimName, WellFormed;
    CoreAsks(w, i);
  }

  /** A new claim i of the parent p. */
  ghost predicate NewClaim(p: Parent, i: nat, claim: Claim)
    requires p.spec.claimTemplate.Some?
  {
    && claim.name == ClaimName(p, i) && !claim.terminating && claim.phase == ClaimPending
    && OwnerName(claim.annotations) == p.name && (i <= 0x7fff_ffff ==> Ordinal(claim.annotations) == i)
    && claim.request == p.spec.claimTemplate.value.request
  }

  /** The parent q records that claim as one that waits for its volume. */
  predicate RecordsNew(p: Parent, i: nat, claim: Claim, q: Parent)
    requires p.spec.claimTemplate.Some?
  {
    && i < |q.claims|
    && q.claims[i].index == IntToInt32(i) && q.claims[i].claimName == claim.name
    && q.claims[i].status == ClaimPending && q.claims[i].capacity == "" && q.claims[i].volumeName == ""
    && q.claims[i].accessModes == p.spec.claimTemplate.value.accessModes
    && q.claims[i].storageClass == claim.storageClass
  }

  lemma TemplateClaimIsNew(p: Parent, q: Parent, i: nat)
    requires p.spec.claimTemplate.Some? && q.spec.claimTemplate.Some?
    requires q.name == p.name && ClaimBase(q) == ClaimBase(p)
    requires q.spec.claimTemplate.value.request == p.spec.claimTemplate.value.request
    ensures NewClaim(p, i, TemplateClaim(q, i))
  {
    StampSays(map[], p.name, i);
    hide Stamp, OwnerName, Ordinal, Dashed;
  }

  lemma ClaimPartIsNew(c: Ctx, i: nat)
    requires c.p.spec.claimTemplate.Some? && ClaimName(c.p, i) !in c.w.claims
    ensures var (d, slot) := Controller.ClaimPart(c, i); var name := ClaimName(c.p, i);
      name in d.w.claims ==>
        && slot.Some? && NewClaim(c.p, i, d.w.claims[name])
        && slot.value == ClaimSlot(IntToInt32(i), d.w.claims[name].name, ClaimPending, "",
                                   c.p.spec.claimTemplate.value.accessModes, d.w.claims[name].storageClass, "")
  {
    hide Stamp, Dashed, IsPvCanUse, IntToInt32, NewClaim;
    var q := WithStaticVolume(c.w, Defaulted(c.p), i);
    assert ClaimName(q, i) == ClaimName(c.p, i);
    TemplateClaimIsNew(c.p, q, i);
  }

  lemma GrowMakesClaim(c: Ctx, i: nat)
    requires i <= |c.p.pods| == |c.p.claims| && c.p.spec.claimTemplate.Some?
    requires ClaimName(c.p, i) !in c.w.claims && ClaimName(c.p, i) in Grow(c, i).0.w.claims
    ensures var (g, early) := Grow(c, i); var claim := g.w.claims[ClaimName(c.p, i)];
      early.None? && NewClaim(c.p, i, claim) && RecordsNew(c.p, i, claim, g.p)
  {
    hide ClaimPart, ExpansionPodEffect, ClaimName, TemplatePod, NewClaim;
    GrowAsks(c, i);
    GrowPieces(c, i);
    PodPartShape(c, i);
    PodPartKeepsTemplate(c, i);
    var d := ExpansionPodEffect(c, i).0;
    ClaimPartIsNew(d, i);
    assert ClaimName(d.p, i) == ClaimName(c.p, i);
    SameNewClaim(d.p, c.p, i);
  }

  lemma SameNewClaim(p: Parent, q: Parent, i: nat)
    requires p.spec.claimTemplate.Some? && q.spec.claimTemplate == p.spec.claimTemplate
    requires q.name == p.name && ClaimName(q, i) == ClaimName(p, i)
    ensures forall claim :: NewClaim(q, i, claim) <==> NewClaim(p, i, claim)
    ensures forall claim, r :: RecordsNew(q, i, claim, r) <==> RecordsNew(p, i, claim, r)
  {
  }

  lemma ExpansionMakesClaim(c: Ctx, i: nat, j: nat)
    requires i <= |c.p.pods| == |c.p.claims| && c.p.spec.claimTemplate.Some? && c.w.stored in {None, Some(c.p)}
    requires ClaimName(c.p, j) !in c.w.claims && ClaimName(c.p, j) in ExpansionEffect(c, i).0.w.claims
    ensures var v := ExpansionEffect(c, i).0.w; var claim := v.claims[ClaimName(c.p, j)];
      NewClaim(c.p, j, claim) && (v.stored.Some? ==> RecordsNew(c.p, j, claim, v.stored.value))
  {
    hide Grow, NewClaim, ClaimName;
    GrowAsks(c, i);
    var g := Grow(c, i).0;
    assert ExpansionEffect(c, i).0.w.claims == g.w.claims;
    assert ClaimName(c.p, j) in g.w.claims.Keys;
    ClaimNamesDistinct(c.p);
    GrowMakesClaim(c, i);
  }

  lemma MaintainMakesClaim(c: Ctx, j: nat)
    requires |c.p.pods| == |c.p.claims| && c.p.spec.claimTemplate.Some? && c.w.stored in {None, Some(c.p)}
    requires ClaimName(c.p, j) !in c.w.claims && ClaimName(c.p, j) in MaintainEffect(c).0.w.claims
    ensures var v := MaintainEffect(c).0.w; var claim := v.claims[ClaimName(c.p, j)];
      NewClaim(c.p, j, claim) && (v.stored.Some? ==> RecordsNew(c.p, j, claim, v.stored.value))
  {
    hide ExpansionEffect, MarkEffect, NewClaim, RecordsNew, NeedsPod, Dashed;
    var d := MarkEffect(c);
    MarkOnly(c);
    var index := FirstNeedingPod(d.w, d.p.pods);
    if index.Some? {
      ExpansionMakesClaim(d, index.value, j);
      SameNewClaim(d.p, c.p, j);
    }
  }

  /** Whichever branch of CoreCtrl makes a claim, it asks for what the template requests, and what is stored then
      records it in its slot, with the claim's own storage class, as waiting for its volume. */
  lemma CoreMakesClaim(w: World, i: nat)
    requires Makes(w, i)
    ensures var p, claim := w.stored.value, Core(w).claims[ClaimName(w.stored.value, i)];
      NewClaim(p, i, claim) && (Core(w).stored.Some? ==> RecordsNew(p, i, claim, Core(w).stored.value))
  {
    hide ExpansionEffect, MaintainEffect, SetFinalizerEffect, Erase, Cut, WellFormed, NewClaim, RecordsNew, ClaimName;
    var p := w.stored.value;
    assert |p.pods| == |p.claims| by { SameLengths(p); }
    var c, n := Ctx(w, p), GetIndex(p);
    assert ClaimName(p, i) in Core(w).claims.Keys;
    if p.deletionMarked && n == p.spec.size {
      EraseKeepsClaimKeys(c);
      assert false;
    } else if n < p.spec.size {
      ExpansionMakesClaim(c, n, i);
    } else if n > p.spec.size {
      SizeLaws.CutShape(c, n);
      assert false;
    } else {
      var c1 := SetFinalizerEffect(c);
      FinalizerOnly(c);
      assert ClaimName(c1.p, i) == ClaimName(p, i) by { NameOf(p, c1.p, i); }
      MaintainMakesClaim(c1, i);
      SameNewClaim(c1.p, p, i);
    }
  }

  lemma NameOf(p: Parent, q: Parent, i: nat)
    requires q.name == p.name && q.spec == p.spec
    ensures ClaimName(q, i) == ClaimName(p, i)
  {
  }
}
