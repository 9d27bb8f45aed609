// Once deletion has reached the pods, no run leaves it: however calls fail, nodes are lost, pods run
// out of time and events arrive, the controller never builds again.
module DeletionRuns {
  import opened Tools
  import opened Types
  import opened Api
  import opened PodControl
  import opened ClaimControl
  import opened Controller
  import opened Workers
  import opened Histories
  import opened Deletion
  import DeletionEnds

  /** Events of this parent's pods show them as they are stored; from outside no pod is made or revived. */
  ghost predicate LeavingAllowed(w: World, e: Event) {
    match e
    case CoreRuns => true
    case PodEvent(pod) =>
      OwnerStored(w, pod.annotations) ==> NamedByOwner(pod) && pod.name in w.pods && w.pods[pod.name] == pod
    case ClaimEvent(_) => true
    case Meanwhile(v) => OutsideLeaving(w, v)
  }

  lemma DoKeepsLeaving(w: World, e: Event)
    requires Leaving(w) && LeavingAllowed(w, e)
    ensures Leaving(Do(w, e))
  {
    match e
    case CoreRuns => CoreKeepsLeaving(w);
    case PodEvent(pod) => if OwnerStored(w, pod.annotations) { PodEventKeepsLeaving(w, pod); }
    case ClaimEvent(claim) => ClaimEventKeepsLeaving(w, claim);
    case Meanwhile(v) => OutsideKeepsLeaving(w, v);
  }

  ghost predicate LeavingAllowedAt(w: World, events: seq<Event>, m: nat)
    requires m < |events|
  {
    LeavingAllowed(StateAt(w, events, m), events[m])
  }

  lemma {:induction false} DeletionIsNeverLeft(w: World, events: seq<Event>, k: nat)
    requires Leaving(w) && k <= |events|
    requires forall m: nat :: m < |events| ==> LeavingAllowedAt(w, events, m)
    ensures Leaving(StateAt(w, events, k))
  {
    if k > 0 {
      DeletionIsNeverLeft(w, events, k - 1);
      assert LeavingAllowedAt(w, events, k - 1);
      DoKeepsLeaving(StateAt(w, events, k - 1), events[k - 1]);
    }
  }

  /** In such a state a reconcile of the parent only deletes and updates volumes. */
  lemma LeavingBuildsNothing(w: World)
    requires Leaving(w)
    ensures CallsAdded(w, Core(w), {UpdateVolume, DeletePod, DeleteClaim})
    ensures Core(w).stored.Some? ==>
      && w.stored.Some?
      && Core(w).stored.value.pods == w.stored.value.pods && Core(w).stored.value.claims == w.stored.value.claims
  {
    if w.stored.Some? {
      var c := Ctx(w, w.stored.value);
      DestructionInOrder(c);
      EraseExact(c);
      EraseWorld(c);
    }
  }

  /** A deletion gets there with the first pass over the pods none of whose calls fails. */
  lemma FirstPassEnters(w: World)
    requires w.stored.Some?
    requires var p := w.stored.value;
      && p.deletionMarked && WellFormed(p) && |p.pods| == p.spec.size == GetIndex(p)
      && GROUP_VERSION in p.finalizers && (p.spec.policy == Retain ==> AllRetained(w, p.claims, 0))
    ensures Leaving(Core(w)) || DeletionEnds.FaultUsed(w, Core(w))
  {
    var p := w.stored.value;
    var c := Ctx(w, p);
    SetPVRetainExact(w, p);
    if PodsGone(w, p.pods, 0) {
      CoreKeepsLeaving(w);
    } else {
      DeletePodAllExact(w, p);
      PodLoop(w, p.pods, 0, 0);
      DeletionEnds.PodLoopAll(w, p.pods, 0, 0);
      var v := DeletePodAllEffect(w, p).0;
      assert Core(w) == v;
    }
  }

  // ----- several reconcilers -----

  /** The exact condition, which a reconciler can check before it writes: a write keeps the deletion if
      and only if the copy has all its slots and a last one that does not send getIndex back. */
  lemma WriteKeepsLeavingExactly(scope: Scope, s: System, k: nat)
    requires AllShaped(scope, s) && k < |s.copies| && s.copies[k].Some?
    requires s.w.stored.Some? && Leaving(s.w) && s.copies[k].value.spec.size == s.w.stored.value.spec.size
    ensures var p, t := s.copies[k].value, Apply(scope, s, Write(k));
      t.w.stored.Some? ==> (Leaving(t.w) <==> |p.pods| == p.spec.size == GetIndex(p))
  {
    var c, o := Ctx(s.w, s.copies[k].value), s.w.stored.value;
    var t := Apply(scope, s, Write(k));
    assert t.w == Put(c).w;
    if t.w.stored.Some? && |c.p.pods| == c.p.spec.size == GetIndex(c.p) {
      var q := t.w.stored.value;
      SameNamesShaped(scope, c.p, q);
      forall i | 0 <= i < |q.pods| && q.pods[i].podName in t.w.pods ensures t.w.pods[q.pods[i].podName].terminating {
        assert q.pods[i].podName == o.pods[i].podName;
      }
    }
  }

  /** What CoreCtrl does with the copy it was given; events may come at any time. */
  predicate Dispatched(w: World, p: Parent, m: Move)
    requires |p.pods| == |p.claims|
  {
    var n, erases := GetIndex(p), p.deletionMarked && GetIndex(p) == p.spec.size;
    match m
    case EraseAll(_) => erases
    case Finalize(_) => !erases && n == p.spec.size
    case MarkPods(_) => !erases && n == p.spec.size
    case GrowAt(_, i) =>
      !erases && (if n == p.spec.size then FirstNeedingPod(w, p.pods) == Some(i) else n < p.spec.size && i == n)
    case CutAt(_, i) => n > p.spec.size && i == n
    case _ => true
  }

  /** Marked, with all its slots, and in no state that sends getIndex back. */
  ghost predicate LeavingCopy(scope: Scope, size: Size, p: Parent) {
    Shaped(scope, p) && p.deletionMarked && |p.pods| == p.spec.size == GetIndex(p) == size
  }

  ghost predicate OnTheWayOut(name: string, size: Size, pods: map<string, Pod>) {
    forall i: nat :: i < size && Dashed(name, i) in pods ==> pods[Dashed(name, i)].terminating
  }

  ghost predicate AllLeaving(scope: Scope, size: Size, s: System) {
    && AllShaped(scope, s) && OnTheWayOut(scope.name, size, s.w.pods)
    && (s.w.stored.Some? ==> LeavingCopy(scope, size, s.w.stored.value))
    && forall k :: 0 <= k < |s.copies| && s.copies[k].Some? ==> LeavingCopy(scope, size, s.copies[k].value)
  }

  /** Reconcilers dispatch as CoreCtrl does and see pods as they are since the deletion reached them; from
      outside no live pod comes under the parent's names, and the stored parent keeps mark, slots and size. */
  ghost predicate LeavingMove(scope: Scope, size: Size, s: System, m: Move) {
    match m
    case Outside(v) =>
      && OnTheWayOut(scope.name, size, v.pods) && v.log == s.w.log
      && (v.stored.Some? ==> LeavingCopy(scope, size, v.stored.value))
    case PodEvent(_, pod) => OwnerName(pod.annotations) == scope.name ==> pod.terminating
    case Read(_) => true
    case _ =>
      m.k < |s.copies| && s.copies[m.k].Some? && |s.copies[m.k].value.pods| == |s.copies[m.k].value.claims| ==>
        Dispatched(s.w, s.copies[m.k].value, m)
  }

  lemma LeavingIsLeaving(scope: Scope, size: Size, s: System)
    requires AllLeaving(scope, size, s)
    ensures Leaving(s.w)
  {
    if s.w.stored.Some? {
      var p := s.w.stored.value;
      forall i | 0 <= i < |p.pods| && p.pods[i].podName in s.w.pods ensures s.w.pods[p.pods[i].podName].terminating {
        assert p.pods[i].podName == Dashed(scope.name, i);
      }
    }
  }

  lemma LeavingPodEvent(scope: Scope, size: Size, c: Ctx, pod: Pod)
    requires LeavingCopy(scope, size, c.p) && NamedByOwner(pod) && OwnerName(pod.annotations) == scope.name
    requires pod.terminating
    ensures var d := MonitorPodEffect(c, pod, Ordinal(pod.annotations)).0;
      d.w == c.w && LeavingCopy(scope, size, d.p)
  {
    var i := Ordinal(pod.annotations);
    SameNamesShaped(scope, c.p, MonitorPodEffect(c, pod, i).0.p);
  }

  lemma LeavingClaimEvent(scope: Scope, size: Size, p: Parent, claim: Claim)
    requires LeavingCopy(scope, size, p) && Ordinal(claim.annotations) >= 0
    ensures LeavingCopy(scope, size, MonitorClaimEffect(p, claim, Ordinal(claim.annotations)).0)
  {
    hide Ordinal, SlotsInLine, ClaimsInLine, Count, Dashed;
    SameNamesShaped(scope, p, MonitorClaimEffect(p, claim, Ordinal(claim.annotations)).0);
  }

  lemma LeavingErase(scope: Scope, size: Size, c: Ctx)
    requires LeavingCopy(scope, size, c.p) && OnTheWayOut(scope.name, size, c.w.pods) && PodsNamed(scope.name, c.w.pods)
    ensures var d := Erase(c).0;
      && OnTheWayOut(scope.name, size, d.w.pods) && LeavingCopy(scope, size, d.p)
      && CallsAdded(c.w, d.w, {UpdateVolume, DeletePod, DeleteClaim})
  {
    hide Erase;
    EraseWorld(c);
    DestructionInOrder(c);
    EraseShaped(scope, c);
    EraseExact(c);
  }

  /** One piece of work of a reconciler in a deletion: it builds nothing, and its copy stays one of a
      deletion. */
  lemma LeavingPiece(scope: Scope, size: Size, c: Ctx, m: Move)
    requires LeavingCopy(scope, size, c.p) && OnTheWayOut(scope.name, size, c.w.pods) && PodsNamed(scope.name, c.w.pods)
    requires c.w.stored.Some? ==> LeavingCopy(scope, size, c.w.stored.value)
    requires !m.Outside? && !m.Read? && Dispatched(c.w, c.p, m)
    requires m.PodEvent? && OwnerName(m.pod.annotations) == scope.name ==> m.pod.terminating
    ensures var d := Piece(c, m);
      && OnTheWayOut(scope.name, size, d.w.pods) && LeavingCopy(scope, size, d.p)
      && CallsAdded(c.w, d.w, {UpdateVolume, DeletePod, DeleteClaim})
  {
    hide Erase, MonitorPodEffect, MonitorClaimEffect, OnTheWayOut, SlotsInLine, ClaimsInLine, Count;
    match m
    case EraseAll(_) => LeavingErase(scope, size, c);
    case PodEvent(_, pod) =>
      if NamedByOwner(pod) && OwnerName(pod.annotations) == c.p.name { LeavingPodEvent(scope, size, c, pod); }
    case ClaimEvent(_, claim) =>
      if Ordinal(claim.annotations) >= 0 { LeavingClaimEvent(scope, size, c.p, claim); }
    case Write(_) => PieceShaped(scope, c, m);
    case _ =>
  }

  lemma MoveKeepsLeaving(scope: Scope, size: Size, s: System, m: Move)
    requires AllLeaving(scope, size, s) && LeavingMove(scope, size, s, m)
    ensures var t := Apply(scope, s, m);
      AllLeaving(scope, size, t) && CallsAdded(s.w, t.w, {UpdateVolume, DeletePod, DeleteClaim})
  {
    hide Piece, Shaped, PodsNamed, OnTheWayOut;
    MoveKeepsShape(scope, s, m);
    if !m.Outside? && !m.Read? && m.k < |s.copies| && s.copies[m.k].Some? {
      SameLength(scope, s, m.k);
      PieceShaped(scope, Ctx(s.w, s.copies[m.k].value), m);
      LeavingPiece(scope, size, Ctx(s.w, s.copies[m.k].value), m);
    }
  }

  lemma SameLength(scope: Scope, s: System, k: nat)
    requires AllShaped(scope, s) && k < |s.copies| && s.copies[k].Some?
    ensures |s.copies[k].value.pods| == |s.copies[k].value.claims|
  {
  }

  ghost predicate LeavingRun(scope: Scope, size: Size, s: System, moves: seq<Move>)
    decreases |moves|
  {
    moves == [] ||
    (LeavingMove(scope, size, s, moves[0])
      && LeavingRun(scope, size, Apply(scope, s, moves[0]), moves[1..]))
  }

  /** Over every interleaving of any number of reconcilers whose copies are of the deletion, the parent
      stays in its deletion and no object is made. */
  lemma {:induction false} WorkersNeverLeaveDeletion(
    scope: Scope, size: Size, s: System, moves: seq<Move>)
    requires AllLeaving(scope, size, s) && LeavingRun(scope, size, s, moves)
    ensures var t := ApplyAll(scope, s, moves);
      && AllLeaving(scope, size, t) && Leaving(t.w)
      && CallsAdded(s.w, t.w, {UpdateVolume, DeletePod, DeleteClaim})
    decreases |moves|
  {
    hide Apply, AllLeaving, LeavingMove, Leaving;
    LeavingIsLeaving(scope, size, s);
    if moves != [] {
      var t := Apply(scope, s, moves[0]);
      MoveKeepsLeaving(scope, size, s, moves[0]);
      WorkersNeverLeaveDeletion(scope, size, t, moves[1..]);
      var u := ApplyAll(scope, t, moves[1..]);
      assert u.w.log[..|s.w.log|] == u.w.log[..|t.w.log|][..|s.w.log|];
      forall n | |s.w.log| <= n < |u.w.log| ensures u.w.log[n].verb in {UpdateVolume, DeletePod, DeleteClaim} {
        assert n < |t.w.log| ==> u.w.log[n] == u.w.log[..|t.w.log|][n];
      }
    }
  }
}
