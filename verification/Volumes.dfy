// What the controller does to volumes: to retain one it sets policy and storage class, to free one it clears
// finalizers and claim, nothing else changes, and what it recorded is free when the finalizer goes.
module Volumes {
  import opened Tools
  import opened Types
  import opened Api
  import opened PodControl
  import opened ClaimControl
  import opened VolumeControl
  import opened Controller
  import opened Workers
  import opened FairRuns
  import Deletion
  import DeletionEnds
  import StickyVolumes

  // ----- the two loops -----

  /** A slot from k on records the volume. */
  ghost predicate Records(slots: seq<ClaimSlot>, k: nat, name: string) {
    exists j: nat :: k <= j < |slots| && slots[j].volumeName == name
  }

  /** SetPVRetain changes recorded volumes that are to be kept and are not yet, and of them policy and storage
      class; when no call failed, it has changed them all. */
  lemma {:induction false} RetainChanges(w: World, slots: seq<ClaimSlot>, k: nat, sum: nat)
    requires k <= |slots|
    ensures var (v, r) := RetainFrom(w, slots, k, sum);
      && v.volumes.Keys == w.volumes.Keys
      && (forall n :: n in w.volumes && v.volumes[n] != w.volumes[n] ==>
            && Records(slots, k, n) && REDIS_SLAVE !in w.volumes[n].annotations && w.volumes[n].policy != Retain
            && v.volumes[n] == w.volumes[n].(policy := Retain, storageClass := ""))
      && (r.Some? ==> forall n :: n in v.volumes && Records(slots, k, n) ==>
            REDIS_SLAVE in v.volumes[n].annotations || v.volumes[n].policy == Retain)
    decreases |slots| - k
  {
    if k < |slots| {
      var name := slots[k].volumeName;
      LaterRecords(slots, k);
      if RetainCounts(w, name) {
        RetainChanges(w, slots, k + 1, sum + 1);
      } else {
        RetainChanges(UpdateVolumeIn(w, name, Retained(w.volumes[name])).0, slots, k + 1, sum);
      }
    }
  }

  lemma LaterRecords(slots: seq<ClaimSlot>, k: nat)
    requires k < |slots|
    ensures forall n :: Records(slots, k, n) <==> n == slots[k].volumeName || Records(slots, k + 1, n)
  {
  }

  /** SetPVAvailable changes recorded volumes that are no redis slave's and not Available, and of them
      finalizers, claim and phase; without a slave's volume or a failing call, it has changed them all. */
  lemma {:induction false} FreeChanges(w: World, slots: seq<ClaimSlot>, k: nat, sum: nat)
    requires k <= |slots|
    ensures var (v, r) := FreeFrom(w, slots, k, sum);
      && v.volumes.Keys == w.volumes.Keys
      && (forall n :: n in w.volumes && v.volumes[n] != w.volumes[n] ==>
            && Records(slots, k, n) && REDIS_SLAVE !in w.volumes[n].annotations && w.volumes[n].phase != Available
            && v.volumes[n] == w.volumes[n].(finalizers := [], claimRef := None, phase := Available))
      && (r.Some? && (forall n :: n in w.volumes && Records(slots, k, n) ==> !Redis(w.volumes[n])) ==>
            forall n :: n in v.volumes && Records(slots, k, n) ==> v.volumes[n].phase == Available)
    decreases |slots| - k
  {
    if k < |slots| {
      var name := slots[k].volumeName;
      LaterRecords(slots, k);
      if AvailableCounts(w, name) {
        FreeChanges(w, slots, k + 1, sum + 1);
      } else if !Redis(w.volumes[name]) {
        FreeChanges(UpdateVolumeIn(w, name, Freed(w.volumes[name])).0, slots, k + 1, sum);
      }
    }
  }

  // ----- whatever the controller does -----

  /** The same volume after any updates: kept or not, freed or not. */
  predicate Turned(was: Volume, now: Volume) {
    && now.annotations == was.annotations
    && ((now.policy == was.policy && now.storageClass == was.storageClass)
        || (now.policy == Retain && now.storageClass == ""))
    && ((now.finalizers == was.finalizers && now.claimRef == was.claimRef && now.phase == was.phase)
        || (now.finalizers == [] && now.claimRef == None && now.phase == Available))
  }

  ghost predicate VolumesTurn(w: World, v: World) {
    v.volumes.Keys == w.volumes.Keys && forall n :: n in w.volumes ==> Turned(w.volumes[n], v.volumes[n])
  }

  /** Nodes and clocks, which the controller only reads. */
  predicate SameSurroundings(w: World, v: World) {
    && v.nodes == w.nodes && v.now == w.now && v.podTimeout == w.podTimeout && v.nodeTimeout == w.nodeTimeout
    && v.faults == w.faults
  }

  lemma MandatoryFrame(w: World, pod: Pod)
    ensures var v := DeletePodMandatoryEffect(w, pod).0; v == w.(pods := v.pods, log := v.log)
  {
  }

  lemma TimedOutFrame(c: Ctx, pod: Pod, i: nat)
    requires i < |c.p.pods| == |c.p.claims|
    ensures var v := TimedOutEffect(c, pod, i).0.w; v == c.w.(pods := v.pods, claims := v.claims, log := v.log)
  {
    hide DeleteClaimUntilDone, Dashed, ClaimName, Defaulted, BothDeleting, Truncated, Terminated;
    InsistentDeleteKeepsPods(DeletePodIn(c.w, pod.name).0, ClaimName(c.p, i));
  }

  lemma PodEventFrame(c: Ctx, pod: Pod, i: nat)
    requires |c.p.pods| == |c.p.claims|
    ensures var v := MonitorPodEffect(c, pod, i).0.w; v == c.w.(pods := v.pods, claims := v.claims, log := v.log)
  {
    hide NodeLostEffect, TimedOutEffect, DeletePodMandatoryEffect, PodRunning, IsNodeReady, Dashed;
    if i < |c.p.pods| {
      NodeLostCases(c, pod, i);
      MandatoryFrame(c.w, pod);
      TimedOutFrame(c, pod, i);
    }
  }

  lemma GrowFrame(c: Ctx, i: nat)
    requires i <= |c.p.pods| == |c.p.claims|
    ensures var v := Grow(c, i).0.w;
      v == c.w.(pods := v.pods, claims := v.claims, services := v.services, log := v.log)
  {
    hide ExpansionPodEffect, ClaimPart, WithSlots, ServiceName;
    GrowPieces(c, i);
    StickyVolumes.PodPartShape(c, i);
    StickyVolumes.ClaimPartShape(ExpansionPodEffect(c, i).0, i);
  }

  lemma CutFrame(c: Ctx, i: nat)
    requires 1 <= i <= |c.p.pods| == |c.p.claims|
    ensures var v := Cut(c, i).0.w; v == c.w.(pods := v.pods, claims := v.claims, log := v.log)
  {
    hide PodName, ClaimName, Defaulted, Truncated, Terminated;
  }

  lemma RetainTurns(w: World, p: Parent)
    ensures var v := SetPVRetainEffect(w, p).0; v == w.(volumes := v.volumes, log := v.log) && VolumesTurn(w, v)
  {
    Deletion.RetainLoop(w, p.claims, 0, 0);
    RetainChanges(w, p.claims, 0, 0);
  }

  lemma FreeTurns(w: World, p: Parent)
    ensures var v := SetPVAvailableEffect(w, p).0; v == w.(volumes := v.volumes, log := v.log) && VolumesTurn(w, v)
  {
    Deletion.FreeLoop(w, p.claims, 0, 0);
    FreeChanges(w, p.claims, 0, 0);
  }

  lemma TurnTwice(w: World, v: World, u: World)
    requires VolumesTurn(w, v) && VolumesTurn(v, u)
    ensures VolumesTurn(w, u)
  {
    assert forall n :: n in w.volumes ==> n in v.volumes.Keys;
  }

  lemma SameTurn(w: World, v: World)
    requires v.volumes == w.volumes
    ensures VolumesTurn(w, v)
  {
  }

  lemma EraseFrame(c: Ctx)
    ensures var v := Erase(c).0.w;
      v == c.w.(pods := v.pods, claims := v.claims, volumes := v.volumes, log := v.log) && VolumesTurn(c.w, v)
  {
    hide Erase, VolumesTurn, SetPVRetainEffect, SetPVAvailableEffect;
    ErasePieces(c);
    SameTurn(c.w, c.w);
    var w1 := SetPVRetainEffect(c.w, c.p).0;
    RetainTurns(c.w, c.p);
    var w2 := DeletePodAllEffect(w1, c.p).0;
    Deletion.PodLoop(w1, c.p.pods, 0, 0);
    var w3 := DeletePvcAllEffect(w2, c.p).0;
    Deletion.ClaimLoop(w2, c.p.claims, 0, 0);
    FreeTurns(w3, c.p);
    SameTurn(w1, w2);
    SameTurn(w1, w3);
    TurnTwice(c.w, w1, w2);
    TurnTwice(c.w, w1, w3);
    TurnTwice(c.w, w3, SetPVAvailableEffect(w3, c.p).0);
  }

  /** No piece of work touches a node or the clock, or a volume but to keep or to free it. */
  lemma PieceFrame(c: Ctx, m: Move)
    requires |c.p.pods| == |c.p.claims| && !m.Outside?
    ensures SameSurroundings(c.w, Piece(c, m).w) && VolumesTurn(c.w, Piece(c, m).w)
    ensures !m.EraseAll? ==> Piece(c, m).w.volumes == c.w.volumes
  {
    hide Grow, Cut, Erase, MonitorPodEffect, MonitorClaimEffect, PodIsOkEffect, Ordinal, OwnerName, Dashed;
    match m
    case GrowAt(_, i) => if i <= |c.p.pods| { GrowFrame(c, i); }
    case CutAt(_, i) => if 1 <= i <= |c.p.pods| { CutFrame(c, i); }
    case EraseAll(_) => EraseFrame(c);
    case PodEvent(_, pod) => if Ordinal(pod.annotations) >= 0 { PodEventFrame(c, pod, Ordinal(pod.annotations)); }
    case _ =>
  }

  lemma MoveFrame(scope: Scope, s: System, m: Move)
    requires !m.Outside?
    ensures var t := Apply(scope, s, m); SameSurroundings(s.w, t.w) && VolumesTurn(s.w, t.w)
  {
    hide Piece;
    if m.k < |s.copies| && !m.Read? && s.copies[m.k].Some? {
      var c := Ctx(s.w, s.copies[m.k].value);
      if |c.p.pods| == |c.p.claims| {
        PieceFrame(c, m);
      }
    }
  }

  // ----- a volume that was not Available -----

  /** Of these volumes those that are Available have no claim and no finalizers. */
  ghost predicate FreeIfAvailable(names: set<string>, w: World) {
    forall n :: n in names && n in w.volumes && w.volumes[n].phase == Available ==> IsFree(w.volumes[n])
  }

  predicate IsFree(volume: Volume) {
    volume.claimRef == None && volume.finalizers == []
  }

  /** Outside, none of them becomes Available, or is claimed when it is. */
  ghost predicate LeftAlone(names: set<string>, w: World, v: World) {
    forall n :: n in names && n in v.volumes && v.volumes[n].phase == Available ==>
      n in w.volumes && w.volumes[n].phase == Available
      && v.volumes[n].claimRef == w.volumes[n].claimRef && v.volumes[n].finalizers == w.volumes[n].finalizers
  }

  lemma TurnKeepsFree(names: set<string>, w: World, v: World)
    requires FreeIfAvailable(names, w) && (VolumesTurn(w, v) || LeftAlone(names, w, v))
    ensures FreeIfAvailable(names, v)
  {
    if VolumesTurn(w, v) {
      forall n | n in names && n in v.volumes && v.volumes[n].phase == Available ensures IsFree(v.volumes[n]) {
        assert n in v.volumes.Keys && Turned(w.volumes[n], v.volumes[n]);
      }
    }
  }

  ghost predicate LeftAloneAt(names: set<string>, scope: Scope, s: System, moves: seq<Move>, n: nat)
    requires n < |moves|
  {
    moves[n].Outside? ==> LeftAlone(names, SystemAt(scope, s, moves, n).w, moves[n].w)
  }

  lemma {:induction false} FreeAlong(names: set<string>, scope: Scope, s: System, moves: seq<Move>, n: nat)
    requires FreeIfAvailable(names, s.w) && n <= |moves|
    requires forall m: nat :: m < |moves| ==> LeftAloneAt(names, scope, s, moves, m)
    ensures FreeIfAvailable(names, SystemAt(scope, s, moves, n).w)
  {
    hide Apply, FreeIfAvailable, LeftAlone, VolumesTurn;
    if n > 0 {
      FreeAlong(names, scope, s, moves, n - 1);
      assert LeftAloneAt(names, scope, s, moves, n - 1);
      var t := SystemAt(scope, s, moves, n - 1);
      OneMoveFree(names, scope, t, moves[n - 1]);
    }
  }

  lemma OneMoveFree(names: set<string>, scope: Scope, s: System, m: Move)
    requires FreeIfAvailable(names, s.w) && (m.Outside? ==> LeftAlone(names, s.w, m.w))
    ensures FreeIfAvailable(names, Apply(scope, s, m).w)
  {
    hide Piece, OutsideAllowed, VolumesTurn, LeftAlone, FreeIfAvailable;
    if m.Outside? {
      TurnKeepsFree(names, s.w, Apply(scope, s, m).w) by {
        if !OutsideAllowed(scope, s.w, m.w) { SameTurn(s.w, s.w); }
      }
    } else {
      MoveFrame(scope, s, m);
      TurnKeepsFree(names, s.w, Apply(scope, s, m).w);
    }
  }

  ghost predicate NoneAvailable(names: set<string>, w: World) {
    forall n :: n in names && n in w.volumes ==> w.volumes[n].phase != Available
  }

  /** What SetPVAvailable is to make of a recorded volume. */
  predicate GivenBack(volume: Volume) {
    IsFree(volume) && volume.phase == Available && volume.policy == Retain && REDIS_SLAVE !in volume.annotations
  }

  ghost predicate AllGivenBack(names: set<string>, w: World, slots: seq<ClaimSlot>) {
    forall i: nat :: i < |slots| && slots[i].volumeName in names && slots[i].volumeName in w.volumes ==>
      GivenBack(w.volumes[slots[i].volumeName])
  }

  lemma ClearedGivesBack(names: set<string>, w: World, p: Parent)
    requires FreeIfAvailable(names, w) && Deletion.Cleared(w, p) && p.spec.policy == Retain
    ensures AllGivenBack(names, w, p.claims)
  {
    forall i: nat | i < |p.claims| && p.claims[i].volumeName in names && p.claims[i].volumeName in w.volumes
      ensures GivenBack(w.volumes[p.claims[i].volumeName])
    {
      assert RetainCounts(w, p.claims[i].volumeName) && AvailableCounts(w, p.claims[i].volumeName);
    }
  }

  /** Reconciler k's copy has the controller's finalizer at state n. */
  ghost predicate HasFinalizer(s: System, k: nat) {
    k < |s.copies| && s.copies[k].Some? && GROUP_VERSION in s.copies[k].value.finalizers
  }

  /** Over every interleaving: when a deletion under Retain takes the finalizer off, each volume it recorded that
      still exists, and was not Available at the start, is Available, without claim and finalizers, and kept. */
  lemma FreedWhenFinalizerGoes(names: set<string>, scope: Scope, s: System, moves: seq<Move>, n: nat)
    requires AllShaped(scope, s) && NoneAvailable(names, s.w) && n < |moves| && moves[n].EraseAll?
    requires forall m: nat :: m < |moves| ==> LeftAloneAt(names, scope, s, moves, m)
    requires HasFinalizer(SystemAt(scope, s, moves, n), moves[n].k)
    requires !HasFinalizer(SystemAt(scope, s, moves, n + 1), moves[n].k)
    ensures var r := SystemAt(scope, s, moves, n).copies[moves[n].k].value;
      r.spec.policy == Retain ==> AllGivenBack(names, SystemAt(scope, s, moves, n + 1).w, r.claims)
  {
    hide Erase, Deletion.Cleared, FreeIfAvailable, LeftAloneAt, AllGivenBack;
    ShapedAt(scope, s, moves, n);
    FreeAlong(names, scope, s, moves, n) by { StartsFree(names, s.w); }
    var t, k := SystemAt(scope, s, moves, n), moves[n].k;
    var c := Ctx(t.w, t.copies[k].value);
    assert |c.p.pods| == |c.p.claims|;
    Deletion.EraseExact(c);
    if c.p.spec.policy == Retain {
      ClearedGivesBack(names, t.w, c.p);
    }
  }

  lemma StartsFree(names: set<string>, w: World)
    requires NoneAvailable(names, w)
    ensures FreeIfAvailable(names, w)
  {
  }

  // ----- over the runs in which deletion ends -----

  ghost function After(w: World, acts: seq<DeletionEnds.Action>, k: nat): World
    requires k <= |acts|
  {
    Run(DeletionEnds.Step, w, acts[..k])
  }

  lemma OneMore(w: World, acts: seq<DeletionEnds.Action>, k: nat)
    requires k < |acts|
    ensures After(w, acts, k + 1) == DeletionEnds.Step(After(w, acts, k), acts[k])
  {
    assert acts[..k + 1] == acts[..k] + [acts[k]];
    RunTwice(DeletionEnds.Step, w, acts[..k], [acts[k]]);
    assert [acts[k]][1..] == [];
  }

  lemma {:induction false} WorkTurns(scope: Scope, s: System, k: nat, moves: seq<Move>)
    requires forall m :: m in moves ==> WorkOf(m, k)
    ensures VolumesTurn(s.w, ApplyAll(scope, s, moves).w)
    decreases |moves|
  {
    hide Apply, VolumesTurn;
    SameTurn(s.w, s.w);
    if moves != [] {
      var t := Apply(scope, s, moves[0]);
      assert moves[0] in moves;
      MoveFrame(scope, s, moves[0]);
      WorkTurns(scope, t, k, moves[1..]);
      TurnTwice(s.w, t.w, ApplyAll(scope, t, moves[1..]).w);
    }
  }

  lemma CoreTurns(w: World, p: Parent)
    requires w.stored == Some(p) && WellFormed(p)
    ensures VolumesTurn(w, Core(w))
  {
    hide CoreEffect, VolumesTurn, WellFormed;
    assert |p.pods| == |p.claims| by { StickyVolumes.SameLengths(p); }
    var c, alone := Ctx(w, p), System(w, [None]);
    var scope := Scope(p.name, "");
    CoreIsMoves(scope, alone, 0, c);
    WorkTurns(scope, WithCopy(alone, 0, c), 0, CoreMoves(c, 0)) by { CoreIsWork(c); }
  }

  lemma CoreIsWork(c: Ctx)
    requires |c.p.pods| == |c.p.claims|
    ensures forall m :: m in CoreMoves(c, 0) ==> WorkOf(m, 0)
  {
    hide Grow, Cut, Erase, FirstNeedingPod, FirstOutOfStep, GetIndex;
  }

  lemma PodReconciledVolumes(w: World, p: Parent, i: nat)
    requires w.stored == Some(p) && |p.pods| == |p.claims|
    ensures DeletionEnds.PodReconciled(w, p, i).volumes == w.volumes
  {
    hide MonitorPodEffect, Ordinal, OwnerName;
    if i < |p.pods| && p.pods[i].podName in w.pods {
      var pod := w.pods[p.pods[i].podName];
      if Ordinal(pod.annotations) >= 0 {
        PodEventFrame(Ctx(w, p), pod, Ordinal(pod.annotations));
      }
    }
  }

  lemma ActKeepsFree(names: set<string>, w: World, p: Parent, a: DeletionEnds.Action)
    requires w.stored == Some(p) && WellFormed(p) && FreeIfAvailable(names, w)
    requires a.Meanwhile? ==> LeftAlone(names, w, a.v)
    ensures |p.pods| == |p.claims| && FreeIfAvailable(names, DeletionEnds.Act(w, p, a))
  {
    StickyVolumes.SameLengths(p);
    hide Core, MonitorClaimEffect, VolumesTurn, WellFormed, LeftAlone, Ordinal, OwnerName;
    hide DeletionEnds.MayHappen, DeletionEnds.PodReconciled;
    SameTurn(w, w);
    var v := DeletionEnds.Act(w, p, a);
    match a
    case ReconcileParent => CoreTurns(w, p); TurnKeepsFree(names, w, v);
    case ReconcilePod(i) => PodReconciledVolumes(w, p, i);
    case Meanwhile(_) => TurnKeepsFree(names, w, v);
    case _ =>
  }

  lemma PodEventFinalizers(c: Ctx, pod: Pod, i: nat)
    requires |c.p.pods| == |c.p.claims|
    ensures var d := MonitorPodEffect(c, pod, i).0; d.p.finalizers == c.p.finalizers && d.w.stored == c.w.stored
  {
    MonitorKeepsStored(c, pod, i);
    hide NodeLostEffect, TimedOutEffect, PodRunning, IsNodeReady, Dashed;
    if i < |c.p.pods| {
      NodeLostCases(c, pod, i);
      TimedOutCases(c, pod, i);
    }
  }

  /** Only the parent's reconcile, or the user, takes the finalizer off. */
  lemma OthersKeepFinalizer(w: World, p: Parent, a: DeletionEnds.Action)
    requires w.stored == Some(p) && |p.pods| == |p.claims| && GROUP_VERSION in p.finalizers
    requires !a.ReconcileParent? && !a.Meanwhile?
    ensures !DeletionEnds.Over(DeletionEnds.Act(w, p, a))
  {
    hide MonitorPodEffect, Ordinal, OwnerName, Dashed;
    match a
    case ReconcilePod(i) =>
      if i < |p.pods| && p.pods[i].podName in w.pods {
        var pod := w.pods[p.pods[i].podName];
        if Ordinal(pod.annotations) >= 0 {
          PodEventFinalizers(Ctx(w, p), pod, Ordinal(pod.annotations));
        }
      }
    case _ =>
  }

  ghost predicate LeftAloneAfter(names: set<string>, w: World, acts: seq<DeletionEnds.Action>, k: nat)
    requires k < |acts|
  {
    acts[k].Meanwhile? ==> LeftAlone(names, After(w, acts, k), acts[k].v)
  }

  lemma {:induction false} DeletionAlong(
    names: set<string>, w: World, bound: nat, acts: seq<DeletionEnds.Action>, k: nat)
    requires DeletionEnds.Inv(w, bound) && FreeIfAvailable(names, w) && k <= |acts|
    requires forall m: nat :: m < |acts| ==> LeftAloneAfter(names, w, acts, m)
    ensures DeletionEnds.Inv(After(w, acts, k), bound) && FreeIfAvailable(names, After(w, acts, k))
  {
    hide DeletionEnds.Inv, DeletionEnds.Act, FreeIfAvailable, LeftAlone;
    if k == 0 {
      assert acts[..0] == [];
    } else {
      DeletionAlong(names, w, bound, acts, k - 1);
      var v := After(w, acts, k - 1);
      OneMore(w, acts, k - 1);
      assert LeftAloneAfter(names, w, acts, k - 1);
      DeletionEnds.StepNeverWorse(v, acts[k - 1], bound);
      StepKeepsFree(names, v, acts[k - 1], bound);
    }
  }

  lemma StepKeepsFree(names: set<string>, w: World, a: DeletionEnds.Action, bound: nat)
    requires DeletionEnds.Inv(w, bound) && FreeIfAvailable(names, w) && (a.Meanwhile? ==> LeftAlone(names, w, a.v))
    ensures FreeIfAvailable(names, DeletionEnds.Step(w, a))
  {
    hide DeletionEnds.Act, FreeIfAvailable, LeftAlone;
    if !DeletionEnds.Over(w) {
      ActKeepsFree(names, w, w.stored.value, a);
    }
  }

  /** The first state in which the deletion is over. */
  lemma {:induction false} OverSince(w: World, acts: seq<DeletionEnds.Action>, n: nat) returns (k: nat)
    requires n <= |acts| && !DeletionEnds.Over(w) && DeletionEnds.Over(After(w, acts, n))
    ensures k < n && !DeletionEnds.Over(After(w, acts, k)) && DeletionEnds.Over(After(w, acts, k + 1))
    ensures After(w, acts, k + 1) == After(w, acts, n)
  {
    hide DeletionEnds.Over, DeletionEnds.Act;
    assert acts[..0] == [];
    OneMore(w, acts, n - 1);
    if DeletionEnds.Over(After(w, acts, n - 1)) {
      k := OverSince(w, acts, n - 1);
    } else {
      k := n - 1;
    }
  }

  /** The last reconcile of a deletion under Retain leaves all it recorded given back. */
  lemma LastStepGivesBack(names: set<string>, w: World, bound: nat, a: DeletionEnds.Action)
    requires DeletionEnds.Inv(w, bound) && FreeIfAvailable(names, w) && !a.Meanwhile?
    requires !DeletionEnds.Over(w) && DeletionEnds.Over(DeletionEnds.Step(w, a))
    ensures a.ReconcileParent?
    ensures w.stored.value.spec.policy == Retain ==>
      AllGivenBack(names, DeletionEnds.Step(w, a), w.stored.value.claims)
  {
    var p := w.stored.value;
    hide Erase, DeletionEnds.Act, FreeIfAvailable, AllGivenBack, Deletion.Cleared, WellFormed, GetIndex;
    if !a.ReconcileParent? {
      OthersKeepFinalizer(w, p, a);
    } else {
      LastCall(w, p, bound);
      if p.spec.policy == Retain {
        ClearedGivesBack(names, w, p);
        SameVolumesGiveBack(names, w, Core(w), p.claims);
      }
      assert DeletionEnds.Step(w, a) == Core(w) by { StepIsCore(w, p); }
    }
  }

  lemma StepIsCore(w: World, p: Parent)
    requires w.stored == Some(p) && |p.pods| == |p.claims| && !DeletionEnds.Over(w)
    ensures DeletionEnds.Step(w, DeletionEnds.Action.ReconcileParent) == Core(w)
  {
    hide Core;
  }

  lemma SameVolumesGiveBack(names: set<string>, w: World, v: World, slots: seq<ClaimSlot>)
    requires v.volumes == w.volumes && AllGivenBack(names, w, slots)
    ensures AllGivenBack(names, v, slots)
  {
  }

  lemma LastCall(w: World, p: Parent, bound: nat)
    requires DeletionEnds.Inv(w, bound) && w.stored == Some(p) && !DeletionEnds.Over(w)
    requires |p.pods| == |p.claims| && DeletionEnds.Over(Core(w))
    ensures Deletion.Cleared(w, p) && Core(w).volumes == w.volumes
  {
    hide Erase, Deletion.Cleared, WithoutFirst;
    var c := Ctx(w, p);
    Deletion.EraseExact(c);
    Deletion.EraseWorld(c);
  }

  /** So the deletions that are proved to end leave the volumes free: each that the parent recorded at the last
      reconcile, that still exists and was not Available at the start, unless the user took the parent away. */
  lemma DeletionLeavesVolumesFree(
    names: set<string>, w: World, bound: nat, rounds: seq<seq<DeletionEnds.Action>>) returns (k: nat)
    requires DeletionEnds.Inv(w, bound) && !DeletionEnds.Over(w) && NoneAvailable(names, w)
    requires forall r :: 0 <= r < |rounds| ==> forall a :: a in DeletionEnds.FairActions(bound) ==> a in rounds[r]
    requires |rounds| >= DeletionEnds.Measure(w)
    requires forall m: nat :: m < |Flat(rounds)| ==> LeftAloneAfter(names, w, Flat(rounds), m)
    ensures k < |Flat(rounds)| && !DeletionEnds.Over(After(w, Flat(rounds), k))
    ensures var v := RunRounds(DeletionEnds.Step, w, rounds);
      && v == After(w, Flat(rounds), k + 1) && DeletionEnds.Over(v)
      && (Flat(rounds)[k].ReconcileParent? || Flat(rounds)[k].Meanwhile?)
      && (Flat(rounds)[k].ReconcileParent? && After(w, Flat(rounds), k).stored.value.spec.policy == Retain ==>
            AllGivenBack(names, v, After(w, Flat(rounds), k).stored.value.claims))
  {
    hide DeletionEnds.Inv, DeletionEnds.Over, DeletionEnds.FairActions, DeletionEnds.Measure, DeletionEnds.Step;
    hide FreeIfAvailable, LeftAloneAfter, AllGivenBack;
    var acts := Flat(rounds);
    DeletionEnds.DeletionEnds(w, bound, rounds);
    RoundsAreOneRun(DeletionEnds.Step, w, rounds);
    assert acts[..|acts|] == acts;
    k := OverSince(w, acts, |acts|);
    StartsFree(names, w);
    DeletionAlong(names, w, bound, acts, k);
    OneMore(w, acts, k);
    var u := After(w, acts, k);
    NotOverIsStored(u);
    if !acts[k].Meanwhile? {
      LastStepGivesBack(names, u, bound, acts[k]);
    }
  }

  lemma NotOverIsStored(w: World)
    requires !DeletionEnds.Over(w)
    ensures w.stored.Some?
  {
  }
}
