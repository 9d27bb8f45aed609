// When a node counts as lost, and what the events of the pods on it do: nothing is forced before the timeout, an
// unmarked cockroach pod gets its mark, and two events of a lost pod remove it.
module NodeLoss {
  import opened Tools
  import opened Types
  import opened Api
  import opened PodControl
  import opened Controller
  import opened Workers
  import opened Histories
  import Deletion
  import Volumes

  /** The pod is on a node that is gone, or has not been ready for as long as the timeout. */
  predicate NodeLost(w: World, node: string) {
    node != "" &&
    (node !in w.nodes || (!w.nodes[node].lastIsTrue && w.now - w.nodes[node].lastTransition >= w.nodeTimeout))
  }

  /** A forced delete, or the mark that must come before it, is called. */
  ghost predicate Forces(w: World, v: World) {
    CallsVerb(w, v, ForceDeletePod) || CallsVerb(w, v, AnnotatePod) || CallsVerb(w, v, ForceDeleteClaim)
  }

  /** The observed pod is the stored one, as far as its version tells. */
  predicate Current(w: World, pod: Pod) {
    pod.name in w.pods && w.pods[pod.name].version == pod.version
  }

  // ----- when anything is forced -----

  lemma {:induction false} InsistentDeleteCalls(w: World, name: string)
    ensures Deletion.CallsAdded(w, DeleteClaimUntilDone(w, name), {DeleteClaim})
    decreases FaultsAhead(w.faults, |w.log|)
  {
    var (w1, ok) := DeleteClaimIn(w, name);
    if !ok {
      assert |w.log| in FaultsAhead(w.faults, |w.log|) - FaultsAhead(w.faults, |w1.log|);
      InsistentDeleteCalls(w1, name);
      var v := DeleteClaimUntilDone(w1, name);
      assert v.log[..|w.log|] == v.log[..|w1.log|][..|w.log|];
      assert v.log[|w.log|] == v.log[..|w1.log|][|w.log|];
    }
  }

  lemma TimedOutCalls(c: Ctx, pod: Pod, i: nat)
    requires i < |c.p.pods| == |c.p.claims|
    ensures !Forces(c.w, TimedOutEffect(c, pod, i).0.w)
  {
    hide DeleteClaimUntilDone, ClaimName, Terminated;
    var w1 := DeletePodIn(c.w, pod.name).0;
    InsistentDeleteCalls(w1, ClaimName(c.p, i));
    var v := TimedOutEffect(c, pod, i).0.w;
    forall n | |c.w.log| <= n < |v.log| ensures v.log[n].verb in {DeletePod, DeleteClaim} {
      if n == |c.w.log| {
        assert v.log[n] == v.log[..|w1.log|][n];
      }
    }
  }

  lemma MandatoryCalls(w: World, pod: Pod)
    ensures var v := DeletePodMandatoryEffect(w, pod).0;
      && |w.log| <= |v.log| <= |w.log| + 1 && v.log[..|w.log|] == w.log
      && (|v.log| > |w.log| <==> !Unmarked(pod) || Current(w, pod))
      && (|v.log| > |w.log| ==> v.log[|w.log|].verb == if Unmarked(pod) then AnnotatePod else ForceDeletePod)
  {
  }

  lemma NodeLostCalls(c: Ctx, pod: Pod, i: nat)
    requires i < |c.p.pods| == |c.p.claims|
    ensures var v := NodeLostEffect(c, pod, i).0.w;
      && (CallsVerb(c.w, v, ForceDeletePod) <==> !Unmarked(pod))
      && (CallsVerb(c.w, v, AnnotatePod) <==> Unmarked(pod) && Current(c.w, pod))
  {
    MandatoryCalls(c.w, pod);
    NodeLostLog(c, pod, i);
    hide DeletePodMandatoryEffect, NodeLostEffect;
    var w1, v := DeletePodMandatoryEffect(c.w, pod).0, NodeLostEffect(c, pod, i).0.w;
    if |w1.log| > |c.w.log| {
      assert v.log[|c.w.log|] == w1.log[|c.w.log|];
    }
  }

  lemma NodeLostLog(c: Ctx, pod: Pod, i: nat)
    requires i < |c.p.pods| == |c.p.claims|
    ensures var (w1, ok) := DeletePodMandatoryEffect(c.w, pod); var v := NodeLostEffect(c, pod, i).0.w;
      && (!ok ==> v == w1)
      && (v.log == w1.log
          || (|v.log| == |w1.log| + 1 && v.log[..|w1.log|] == w1.log && v.log[|w1.log|].verb == ForceDeleteClaim))
  {
    hide DeletePodMandatoryEffect, ClaimName;
  }

  /** The event of a live pod with a slot calls its forced delete, or puts the mark that comes before it, exactly
      when its node is lost; the mark only on the stored version. Otherwise nothing is forced. */
  lemma ForcesExactly(c: Ctx, pod: Pod, i: nat)
    requires i < |c.p.pods| == |c.p.claims| && !pod.terminating
    ensures var v := MonitorPodEffect(c, pod, i).0.w; var lost := NodeLost(c.w, pod.nodeName);
      && (CallsVerb(c.w, v, ForceDeletePod) <==> lost && !Unmarked(pod))
      && (CallsVerb(c.w, v, AnnotatePod) <==> lost && Unmarked(pod) && Current(c.w, pod))
      && (!lost ==> !Forces(c.w, v))
  {
    hide NodeLostEffect, TimedOutEffect, PodRunning;
    NodeLostCalls(c, pod, i);
    TimedOutCalls(c, pod, i);
  }

  lemma PieceForces(c: Ctx, m: Move)
    requires |c.p.pods| == |c.p.claims| && m.PodEvent? && Forces(c.w, Piece(c, m).w)
    ensures !m.pod.terminating && NodeLost(c.w, m.pod.nodeName)
  {
    hide MonitorPodEffect, NodeLost, Ordinal, OwnerName;
    var i := Ordinal(m.pod.annotations);
    if NamedByOwner(m.pod) && i < |c.p.pods| {
      if m.pod.terminating {
        TerminatingCalls(c, m.pod, i);
      } else {
        ForcesExactly(c, m.pod, i);
      }
    } else if i >= 0 {
      BeyondCalls(c, m.pod, i);
    }
  }

  lemma TerminatingCalls(c: Ctx, pod: Pod, i: nat)
    requires i < |c.p.pods| == |c.p.claims| && pod.terminating
    ensures MonitorPodEffect(c, pod, i).0.w == c.w
  {
  }

  lemma BeyondCalls(c: Ctx, pod: Pod, i: nat)
    requires i >= |c.p.pods| == |c.p.claims|
    ensures MonitorPodEffect(c, pod, i).0.w == c.w
  {
  }

  // ----- the timeout, over interleavings -----

  /** Outside, the clock does not go back, the node stays, and a condition that is not True says when it last
      changed: no earlier than it was True. */
  ghost predicate Steady(node: string, w: World, v: World) {
    && v.now >= w.now && v.nodeTimeout == w.nodeTimeout
    && (node in w.nodes ==>
          && node in v.nodes
          && (!v.nodes[node].lastIsTrue ==>
                v.nodes[node].lastTransition >=
                  if w.nodes[node].lastIsTrue then w.now else w.nodes[node].lastTransition))
  }

  /** The node is there and was ready at time t or later. */
  predicate ReadySince(w: World, node: string, t: int) {
    w.now >= t && node in w.nodes && (w.nodes[node].lastIsTrue || w.nodes[node].lastTransition >= t)
  }

  ghost predicate SteadyAt(node: string, scope: Scope, s: System, moves: seq<Move>, n: nat)
    requires n < |moves|
  {
    moves[n].Outside? ==> Steady(node, SystemAt(scope, s, moves, n).w, moves[n].w)
  }

  lemma MoveSteady(node: string, t: int, scope: Scope, s: System, m: Move)
    requires ReadySince(s.w, node, t) && (m.Outside? ==> Steady(node, s.w, m.w))
    ensures var v := Apply(scope, s, m).w; ReadySince(v, node, t) && v.nodeTimeout == s.w.nodeTimeout
  {
    hide Piece, OutsideAllowed, Volumes.VolumesTurn;
    if !m.Outside? {
      Volumes.MoveFrame(scope, s, m);
    }
  }

  lemma {:induction false} ReadyAlong(
    node: string, t: int, scope: Scope, s: System, moves: seq<Move>, j: nat, n: nat)
    requires j <= n <= |moves| && ReadySince(SystemAt(scope, s, moves, j).w, node, t)
    requires forall m: nat :: j <= m < n ==> SteadyAt(node, scope, s, moves, m)
    ensures ReadySince(SystemAt(scope, s, moves, n).w, node, t)
    ensures SystemAt(scope, s, moves, n).w.nodeTimeout == SystemAt(scope, s, moves, j).w.nodeTimeout
    decreases n
  {
    hide Apply, ReadySince, Steady;
    if j < n {
      ReadyAlong(node, t, scope, s, moves, j, n - 1);
      assert SteadyAt(node, scope, s, moves, n - 1);
      MoveSteady(node, t, scope, SystemAt(scope, s, moves, n - 1), moves[n - 1]);
    }
  }

  /** Over every interleaving: whatever a pod event forces, the pod's node is lost at that moment; and if it was
      ready at state j, then at least the timeout has passed since. */
  lemma NothingForcedInTime(scope: Scope, s: System, moves: seq<Move>, j: nat, n: nat)
    requires j <= n < |moves| && moves[n].PodEvent?
    requires Forces(SystemAt(scope, s, moves, n).w, SystemAt(scope, s, moves, n + 1).w)
    ensures NodeLost(SystemAt(scope, s, moves, n).w, moves[n].pod.nodeName)
    ensures var node, w, v := moves[n].pod.nodeName, SystemAt(scope, s, moves, j).w, SystemAt(scope, s, moves, n).w;
      node in w.nodes && w.nodes[node].lastIsTrue
      && (forall m: nat :: j <= m < n ==> SteadyAt(node, scope, s, moves, m)) ==>
        v.now - w.now >= v.nodeTimeout
  {
    hide Piece, Forces, SteadyAt;
    var node, w, v := moves[n].pod.nodeName, SystemAt(scope, s, moves, j).w, SystemAt(scope, s, moves, n);
    assert SystemAt(scope, s, moves, n + 1) == Apply(scope, v, moves[n]);
    NothingForced(v.w);
    PieceForces(Ctx(v.w, v.copies[moves[n].k].value), moves[n]);
    if node in w.nodes && w.nodes[node].lastIsTrue
       && forall m: nat :: j <= m < n ==> SteadyAt(node, scope, s, moves, m)
    {
      ReadyAlong(node, w.now, scope, s, moves, j, n);
    }
  }

  lemma NothingForced(w: World)
    ensures !Forces(w, w)
  {
  }

  // ----- the mark -----

  /** The event of a cockroach pod that it observes unmarked on a lost node changes no slot and no other object;
      the stored pod bears the mark afterwards if and only if it did before, or the observed version is the
      stored one and the call succeeds. */
  lemma MarkPutExactly(c: Ctx, pod: Pod, i: nat)
    requires i < |c.p.pods| == |c.p.claims| && !pod.terminating && NodeLost(c.w, pod.nodeName)
    requires COCKROACH_DB in pod.annotations && NODE_UNHEALTHY !in pod.annotations
    ensures var (d, changed) := MonitorPodEffect(c, pod, i); var n, w, v := pod.name, c.w, d.w;
      && !changed && d.p == c.p && v == w.(pods := v.pods, log := v.log)
      && v.pods.Keys == w.pods.Keys && v.pods - {n} == w.pods - {n}
      && (n in v.pods && NODE_UNHEALTHY in v.pods[n].annotations <==>
            n in w.pods
            && (NODE_UNHEALTHY in w.pods[n].annotations || (w.pods[n].version == pod.version && |w.log| !in w.faults)))
      && (n in w.pods && w.pods[n] == pod ==>
            v.pods[n] == pod.(version := v.pods[n].version, annotations := v.pods[n].annotations)
            && v.pods[n].annotations - {NODE_UNHEALTHY} == pod.annotations
            && (v.pods[n].version > pod.version <==> |w.log| !in w.faults))
  {
  }

  // ----- a lost pod goes -----

  /** A node-lost event comes to its end exactly if it need not mark first and its calls succeed; then the pod is
      gone, its claim is gone or going, and both records say so. */
  lemma NodeLostDone(c: Ctx, pod: Pod, i: nat)
    requires i < |c.p.pods| == |c.p.claims| && !pod.terminating && NodeLost(c.w, pod.nodeName)
    ensures var (d, changed) := MonitorPodEffect(c, pod, i); var name, t := ClaimName(c.p, i), |c.w.log|;
      && (changed <==>
            && !Unmarked(pod) && pod.name in c.w.pods && t !in c.w.faults
            && (c.p.spec.claimTemplate.Some? && name in c.w.claims ==> t + 1 !in c.w.faults))
      && (changed ==>
            && pod.name !in d.w.pods
            && (c.p.spec.claimTemplate.Some? && name in d.w.claims ==> d.w.claims[name].terminating)
            && d.p.pods == c.p.pods[i := c.p.pods[i].(status := Deleting)]
            && d.p.claims == c.p.claims[i := c.p.claims[i].(status := ClaimDeleting)])
      && (!changed ==> d.p.pods == c.p.pods && d.p.claims == c.p.claims)
  {
    hide Dashed;
  }

  /** The parent of the pod's annotations is stored and has a slot for it. */
  predicate HasSlot(w: World, pod: Pod) {
    && OwnerStored(w, pod.annotations) && ListsAgree(w)
    && 0 <= Ordinal(pod.annotations) < |w.stored.value.pods|
  }

  /** A live pod on a lost node is gone after two of its events whose calls succeed, whatever happens to anything
      else in between, and after one unless it must be marked first. */
  lemma LostPodGoes(w: World, u: World, pod: Pod)
    requires HasSlot(w, pod) && pod.name in w.pods && w.pods[pod.name] == pod && !pod.terminating
    requires NodeLost(w, pod.nodeName) && |w.log| !in w.faults
    requires var v := MonitorPod(w, pod);
      pod.name in u.pods ==>
        && pod.name in v.pods && u.pods[pod.name] == v.pods[pod.name]
        && HasSlot(u, u.pods[pod.name]) && NodeLost(u, pod.nodeName) && |u.log| !in u.faults
    ensures pod.name in MonitorPod(w, pod).pods <==> Unmarked(pod)
    ensures pod.name in u.pods ==> ListsAgree(u) && pod.name !in MonitorPod(u, u.pods[pod.name]).pods
  {
    hide Ordinal, NodeLost;
    LostEvent(w, pod);
    if pod.name in u.pods {
      assert NODE_UNHEALTHY[0] != INDEX[0] && NODE_UNHEALTHY[0] != PARENT_NAME[0];
      LostEvent(u, u.pods[pod.name]);
    }
  }

  lemma LostEvent(w: World, pod: Pod)
    requires HasSlot(w, pod) && pod.name in w.pods && w.pods[pod.name] == pod && !pod.terminating
    requires NodeLost(w, pod.nodeName) && |w.log| !in w.faults
    ensures var v := MonitorPod(w, pod);
      if Unmarked(pod) then
        v.pods == w.pods[pod.name := Updated(pod, pod.(annotations := pod.annotations[NODE_UNHEALTHY := "true"]))]
      else pod.name !in v.pods
  {
    hide Ordinal, Dashed;
  }
}
