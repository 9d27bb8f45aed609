// The force-delete handshake, with any number of reconcilers at once: a cockroach pod is force-deleted on
// node loss only after an earlier call has put the nodeUnhealthy mark on it, and its claim only after the pod.
module Handshake {
  import opened Tools
  import opened Types
  import opened Api
  import opened PodControl
  import opened ClaimControl
  import opened Controller
  import opened Workers
  import opened Histories
  import VolumeControl
  import Deletion

  predicate Marked(pod: Pod) {
    NODE_UNHEALTHY in pod.annotations
  }

  predicate Annotated(log: seq<Call>, n: string) {
    Call(AnnotatePod, n, true) in log
  }

  /** Every mark on a pod was put there by a logged call. */
  ghost predicate MarksLogged(w: World) {
    forall n :: n in w.pods && Marked(w.pods[n]) ==> Annotated(w.log, n)
  }

  predicate PlainParent(p: Parent) {
    p.annotations.Some? ==> NODE_UNHEALTHY !in p.annotations.value
  }

  predicate Plain(w: World) {
    w.stored.Some? ==> PlainParent(w.stored.value)
  }

  /** From w to v the log only grew, and a mark that is new is logged. */
  ghost predicate Tame(w: World, v: World) {
    && |v.log| >= |w.log| && v.log[..|w.log|] == w.log
    && forall n :: n in v.pods && Marked(v.pods[n]) ==>
         (n in w.pods && Marked(w.pods[n])) || Annotated(v.log, n)
  }

  ghost predicate AllPlain(s: System) {
    Plain(s.w) && forall k :: 0 <= k < |s.copies| && s.copies[k].Some? ==> PlainParent(s.copies[k].value)
  }

  /** Nothing but the controller marks pods or makes calls, and no template carries the mark. */
  ghost predicate Quiet(w: World, m: Move) {
    match m
    case Outside(v) =>
      && Plain(v) && v.log == w.log
      && forall n :: n in v.pods && Marked(v.pods[n]) ==> n in w.pods && Marked(w.pods[n])
    case _ => true
  }

  lemma TameTwice(w: World, v: World, u: World)
    requires Tame(w, v) && Tame(v, u)
    ensures Tame(w, u)
  {
    assert u.log[..|w.log|] == u.log[..|v.log|][..|w.log|];
    forall n | Annotated(v.log, n) ensures Annotated(u.log, n) {
      var k :| 0 <= k < |v.log| && v.log[k] == Call(AnnotatePod, n, true);
      assert u.log[k] == u.log[..|v.log|][k];
    }
  }

  lemma TameKeepsLogged(w: World, v: World)
    requires Tame(w, v) && MarksLogged(w)
    ensures MarksLogged(v)
    ensures forall n :: Annotated(w.log, n) ==> Annotated(v.log, n)
  {
    forall n | Annotated(w.log, n) ensures Annotated(v.log, n) {
      var k :| 0 <= k < |w.log| && w.log[k] == Call(AnnotatePod, n, true);
      assert v.log[k] == v.log[..|w.log|][k];
    }
  }

  // ----- the pieces of work are tame -----

  lemma StampIsPlain(m: Annotations, parent: string, i: nat)
    ensures NODE_UNHEALTHY in Stamp(m, parent, i) <==> NODE_UNHEALTHY in m
  {
    assert NODE_UNHEALTHY[0] != INDEX[0] && NODE_UNHEALTHY[0] != PARENT_NAME[0];
    assert NODE_UNHEALTHY[0] != GROUP_VERSION[0];
  }

  lemma MakePodTame(c: Ctx, i: nat)
    requires PlainParent(c.p)
    ensures var d := ExpansionPodEffect(c, i).0; Tame(c.w, d.w) && PlainParent(d.p)
  {
    StampIsPlain(if c.p.annotations.Some? then c.p.annotations.value else map[], c.p.name, i);
  }

  lemma MakeClaimTame(c: Ctx, i: nat)
    requires PlainParent(c.p)
    ensures var d := Controller.ClaimPart(c, i).0; Tame(c.w, d.w) && PlainParent(d.p)
  {
    hide Dashed, Stamp, IsPvCanUse, IntToInt32, Marked, NoClaimSlot, PendingSlot, TemplateClaim;
  }

  lemma PutPlain(c: Ctx)
    requires PlainParent(c.p)
    ensures Tame(c.w, Put(c).w) && PlainParent(Put(c).p) && (Plain(c.w) ==> Plain(Put(c).w))
  {
  }

  lemma GrowTame(c: Ctx, i: nat)
    requires i <= |c.p.pods| == |c.p.claims| && PlainParent(c.p)
    ensures Tame(c.w, Grow(c, i).0.w) && PlainParent(Grow(c, i).0.p)
  {
    hide ExpansionPodEffect, ClaimPart;
    GrowPieces(c, i);
    MakePodTame(c, i);
    var d := ExpansionPodEffect(c, i).0;
    MakeClaimTame(d, i);
    TameTwice(c.w, d.w, Controller.ClaimPart(d, i).0.w);
  }

  lemma CutTame(c: Ctx, i: nat)
    requires 1 <= i <= |c.p.pods| == |c.p.claims| && PlainParent(c.p)
    ensures Tame(c.w, Cut(c, i).0.w) && PlainParent(Cut(c, i).0.p) && Cut(c, i).0.w.stored == c.w.stored
  {
  }

  lemma {:induction false} PodLoopTame(w: World, slots: seq<PodSlot>, k: nat, sum: nat)
    requires k <= |slots|
    ensures Tame(w, DeletePodsFrom(w, slots, k, sum).0)
    decreases |slots| - k
  {
    if k < |slots| {
      if slots[k].podName in w.pods {
        var w1 := DeletePodIn(w, slots[k].podName).0;
        PodLoopTame(w1, slots, k + 1, sum);
        TameTwice(w, w1, DeletePodsFrom(w1, slots, k + 1, sum).0);
      } else {
        PodLoopTame(w, slots, k + 1, sum + 1);
      }
    }
  }

  lemma EraseTame(c: Ctx)
    requires PlainParent(c.p)
    ensures Tame(c.w, Erase(c).0.w) && PlainParent(Erase(c).0.p)
  {
    hide Erase, DeletePodsFrom, Marked;
    ErasePieces(c);
    var w1 := VolumeControl.SetPVRetainEffect(c.w, c.p).0;
    Deletion.RetainLoop(c.w, c.p.claims, 0, 0);
    assert Tame(c.w, w1);
    var w2 := DeletePodAllEffect(w1, c.p).0;
    PodLoopTame(w1, c.p.pods, 0, 0);
    TameTwice(c.w, w1, w2);
    var w3 := DeletePvcAllEffect(w2, c.p).0;
    Deletion.ClaimLoop(w2, c.p.claims, 0, 0);
    TameTwice(c.w, w2, w3);
    var w4 := VolumeControl.SetPVAvailableEffect(w3, c.p).0;
    Deletion.FreeLoop(w3, c.p.claims, 0, 0);
    TameTwice(c.w, w3, w4);
  }

  // ----- pod events -----

  lemma MandatoryTame(w: World, pod: Pod)
    ensures var (v, ok) := DeletePodMandatoryEffect(w, pod);
      && Tame(w, v) && v.stored == w.stored
      && (CallsVerb(w, v, ForceDeletePod) <==> !Unmarked(pod))
      && (ok ==> v.log == w.log + [Call(ForceDeletePod, pod.name, true)])
      && (!ok ==> !CallsVerb(w, v, ForceDeleteClaim))
  {
    var (v, ok) := DeletePodMandatoryEffect(w, pod);
    if Unmarked(pod) {
      var (u, sent) := UpdatePodIn(w, pod.(annotations := pod.annotations[NODE_UNHEALTHY := "true"]));
      if sent {
        assert v.log[|w.log|] == Call(AnnotatePod, pod.name, true);
      }
    } else {
      assert v.log[|w.log|].verb == ForceDeletePod;
    }
  }

  /** The calls of the node-lost branch: the claim's forced delete, if any, comes right after the
      pod's, which succeeded; and neither is made for a pod that still lacks its mark. */
  lemma ForcedDeletesInOrder(c: Ctx, pod: Pod, i: nat)
    requires i < |c.p.pods| == |c.p.claims|
    ensures var v, t := NodeLostEffect(c, pod, i).0.w, |c.w.log|;
      && |v.log| <= t + 2 && Tame(c.w, v) && v.stored == c.w.stored
      && (CallsVerb(c.w, v, ForceDeletePod) <==> !Unmarked(pod))
      && (forall n :: t <= n < |v.log| && v.log[n].verb == ForceDeleteClaim ==>
            n == t + 1 && v.log[t] == Call(ForceDeletePod, pod.name, true))
  {
    MandatoryTame(c.w, pod);
    var (w1, ok) := DeletePodMandatoryEffect(c.w, pod);
    var v := NodeLostEffect(c, pod, i).0.w;
    if v != w1 {
      assert v == Logged(w1, ForceDeleteClaim, ClaimName(c.p, i), v.log[|w1.log|].ok).(claims := v.claims);
      assert v.log[|c.w.log|] == w1.log[|c.w.log|];
    }
  }

  lemma {:induction false} InsistentDeleteTame(w: World, name: string)
    ensures var v := DeleteClaimUntilDone(w, name); Tame(w, v) && !CallsVerb(w, v, ForceDeletePod)
    decreases FaultsAhead(w.faults, |w.log|)
  {
    var (w1, ok) := DeleteClaimIn(w, name);
    if !ok {
      assert |w.log| in FaultsAhead(w.faults, |w.log|) - FaultsAhead(w.faults, |w1.log|);
      InsistentDeleteTame(w1, name);
      TameTwice(w, w1, DeleteClaimUntilDone(w1, name));
      NoSuchCalls(w, w1, DeleteClaimUntilDone(w1, name), ForceDeletePod);
    }
  }

  lemma NoSuchCalls(w: World, v: World, u: World, verb: Verb)
    requires |w.log| <= |v.log| <= |u.log| && u.log[..|v.log|] == v.log
    requires !CallsVerb(w, v, verb) && !CallsVerb(v, u, verb)
    ensures !CallsVerb(w, u, verb)
  {
    forall n | |w.log| <= n < |u.log| ensures u.log[n].verb != verb {
      if n < |v.log| {
        assert u.log[n] == u.log[..|v.log|][n];
      }
    }
  }

  lemma TimedOutTame(c: Ctx, pod: Pod, i: nat)
    requires i < |c.p.pods| == |c.p.claims|
    ensures var v := TimedOutEffect(c, pod, i).0.w; Tame(c.w, v) && !CallsVerb(c.w, v, ForceDeletePod)
  {
    var (w1, ok) := DeletePodIn(c.w, pod.name);
    assert Tame(c.w, w1) && !CallsVerb(c.w, w1, ForceDeletePod);
    var w2 := DeleteClaimUntilDone(w1, ClaimName(c.p, i));
    InsistentDeleteTame(w1, ClaimName(c.p, i));
    TameTwice(c.w, w1, w2);
    NoSuchCalls(c.w, w1, w2, ForceDeletePod);
  }

  lemma PodEffectTame(c: Ctx, pod: Pod, i: nat)
    requires |c.p.pods| == |c.p.claims|
    ensures var d := MonitorPodEffect(c, pod, i).0;
      Tame(c.w, d.w) && (CallsVerb(c.w, d.w, ForceDeletePod) ==> !Unmarked(pod))
  {
    if i < |c.p.pods| {
      if !pod.terminating && !NodeReadyIn(c.w, pod.nodeName) {
        ForcedDeletesInOrder(c, pod, i);
      } else if !pod.terminating && !PodRunning(pod) && c.p.pods[i].status == CreateTimeOut {
        TimedOutTame(c, pod, i);
      } else {
        assert MonitorPodEffect(c, pod, i).0.w == c.w;
      }
    }
  }

  lemma PodEffectPlain(c: Ctx, pod: Pod, i: nat)
    requires |c.p.pods| == |c.p.claims| && PlainParent(c.p) && Plain(c.w)
    ensures var d := MonitorPodEffect(c, pod, i).0; PlainParent(d.p) && Plain(d.w)
  {
    hide NodeLostEffect, TimedOutEffect, DeletePodMandatoryEffect, Dashed, Ordinal, PodRunning, IsNodeReady;
    if i < |c.p.pods| {
      NodeLostCases(c, pod, i);
      MandatoryTame(c.w, pod);
      TimedOutCases(c, pod, i);
      MonitorKeepsStored(c, pod, i);
    }
  }

  // ----- whole runs -----

  /** One piece of work is tame, and force-deletes a pod only at a pod event that does not find the mark
      lacking. */
  lemma PieceTame(c: Ctx, m: Move)
    requires |c.p.pods| == |c.p.claims| && PlainParent(c.p) && Plain(c.w) && !m.Outside?
    ensures var d := Piece(c, m); Tame(c.w, d.w) && PlainParent(d.p) && Plain(d.w)
    ensures m.PodEvent? && CallsVerb(c.w, Piece(c, m).w, ForceDeletePod) ==> !Unmarked(m.pod)
  {
    hide Grow, Cut, Erase, MonitorPodEffect, Marked, Unmarked, PlainParent;
    StillTame(c.w);
    match m
    case GrowAt(_, i) => if i <= |c.p.pods| { GrowTame(c, i); }
    case CutAt(_, i) => if 1 <= i <= |c.p.pods| { CutTame(c, i); }
    case EraseAll(_) => EraseTame(c); ErasePlain(c);
    case PodEvent(_, pod) =>
      if NamedByOwner(pod) {
        PodEffectTame(c, pod, Ordinal(pod.annotations));
        PodEffectPlain(c, pod, Ordinal(pod.annotations));
      }
    case Write(_) => PutPlain(c);
    case _ => SlotsOnlyPlain(c, m);
  }

  lemma StillTame(w: World)
    ensures Tame(w, w)
  {
  }

  lemma ErasePlain(c: Ctx)
    requires |c.p.pods| == |c.p.claims| && Plain(c.w)
    ensures Plain(Erase(c).0.w)
  {
    hide Erase;
    Deletion.EraseWorld(c);
  }

  lemma SlotsOnlyPlain(c: Ctx, m: Move)
    requires |c.p.pods| == |c.p.claims| && PlainParent(c.p)
    requires m.Finalize? || m.MarkPods? || m.ClaimEvent? || m.Read?
    ensures Piece(c, m).w == c.w && PlainParent(Piece(c, m).p)
  {
    hide Ordinal, OwnerName, FirstFrom;
  }

  lemma MoveTame(scope: Scope, s: System, m: Move)
    requires AllPlain(s) && Quiet(s.w, m)
    ensures var t := Apply(scope, s, m); Tame(s.w, t.w) && AllPlain(t)
    ensures m.PodEvent? && CallsVerb(s.w, Apply(scope, s, m).w, ForceDeletePod) ==> !Unmarked(m.pod)
  {
    hide Piece, Marked, PlainParent, Unmarked, OutsideAllowed;
    StillTame(s.w);
    if !m.Outside? && m.k < |s.copies| && s.copies[m.k].Some? {
      var p := s.copies[m.k].value;
      if |p.pods| == |p.claims| {
        PieceTame(Ctx(s.w, p), m);
      }
    }
  }

  ghost predicate QuietAt(scope: Scope, s: System, moves: seq<Move>, n: nat)
    requires n < |moves|
  {
    Quiet(SystemAt(scope, s, moves, n).w, moves[n])
  }

  ghost predicate QuietRun(scope: Scope, s: System, moves: seq<Move>) {
    MarksLogged(s.w) && AllPlain(s) && forall n: nat :: n < |moves| ==> QuietAt(scope, s, moves, n)
  }

  /** The systems of a run from j to n, taken as one step. */
  lemma {:induction false} RunTame(scope: Scope, s: System, moves: seq<Move>, j: nat, n: nat)
    requires QuietRun(scope, s, moves) && j <= n <= |moves| && AllPlain(SystemAt(scope, s, moves, j))
    ensures Tame(SystemAt(scope, s, moves, j).w, SystemAt(scope, s, moves, n).w)
    ensures AllPlain(SystemAt(scope, s, moves, n))
    decreases n - j
  {
    hide Apply, AllPlain, Tame, Quiet, MarksLogged;
    StillTame(SystemAt(scope, s, moves, j).w);
    if j < n {
      RunTame(scope, s, moves, j, n - 1);
      var t := SystemAt(scope, s, moves, n - 1);
      assert QuietAt(scope, s, moves, n - 1);
      MoveTame(scope, t, moves[n - 1]);
      TameTwice(SystemAt(scope, s, moves, j).w, t.w, SystemAt(scope, s, moves, n).w);
    }
  }

  lemma MarksLoggedAlong(scope: Scope, s: System, moves: seq<Move>, j: nat, n: nat)
    requires QuietRun(scope, s, moves) && j <= n <= |moves|
    ensures MarksLogged(SystemAt(scope, s, moves, j).w) && AllPlain(SystemAt(scope, s, moves, n))
    ensures forall m :: Annotated(SystemAt(scope, s, moves, j).w.log, m) ==>
      Annotated(SystemAt(scope, s, moves, n).w.log, m)
  {
    hide Tame, MarksLogged, AllPlain;
    RunTame(scope, s, moves, 0, j);
    TameKeepsLogged(s.w, SystemAt(scope, s, moves, j).w);
    RunTame(scope, s, moves, j, n);
    TameKeepsLogged(SystemAt(scope, s, moves, j).w, SystemAt(scope, s, moves, n).w);
  }

  /** The pod as it was in some state of the run. */
  ghost predicate SeenAt(scope: Scope, s: System, moves: seq<Move>, j: nat, pod: Pod)
    requires j <= |moves|
  {
    var v := SystemAt(scope, s, moves, j).w;
    pod.name in v.pods && v.pods[pod.name] == pod
  }

  /** Move n is a pod event that force-deletes. */
  ghost predicate ForcesAt(scope: Scope, s: System, moves: seq<Move>, n: nat)
    requires n < |moves|
  {
    && moves[n].PodEvent?
    && CallsVerb(SystemAt(scope, s, moves, n).w, SystemAt(scope, s, moves, n + 1).w, ForceDeletePod)
  }

  /** Over every interleaving, if a reconcile that saw a cockroach pod (as it was at any earlier point)
      force-deletes, an earlier successful call had marked that pod. */
  lemma ForcedOnlyAfterMark(scope: Scope, s: System, moves: seq<Move>, j: nat, n: nat)
    requires QuietRun(scope, s, moves) && j <= n < |moves| && ForcesAt(scope, s, moves, n)
    requires SeenAt(scope, s, moves, j, moves[n].pod) && COCKROACH_DB in moves[n].pod.annotations
    ensures Annotated(SystemAt(scope, s, moves, n).w.log, moves[n].pod.name)
  {
    hide Apply, AllPlain, Quiet, CallsVerb, Annotated;
    MarksLoggedAlong(scope, s, moves, j, n);
    assert QuietAt(scope, s, moves, n);
    MoveTame(scope, SystemAt(scope, s, moves, n), moves[n]);
  }
}
