// What the events of pods and claims record, told from the objects as they stand: nodes are in NodeLoss.
module PodEvents {
  import opened Tools
  import opened Types
  import opened Api
  import opened PodControl
  import opened ClaimControl
  import opened Workers
  import NodeLoss
  import Notices

  /** The pod is in phase Running, and none of its conditions says that it is not ready. */
  ghost predicate Ready(pod: Pod) {
    pod.phase == Running && PodCondition(true, false) !in pod.conditions
  }

  /** It has had as much time as it gets. */
  predicate Late(w: World, pod: Pod) {
    w.now >= pod.created + w.podTimeout
  }

  lemma ReadyMeans(pod: Pod)
    ensures Ready(pod) <==> PodRunning(pod)
  {
    if !Ready(pod) && pod.phase == Running {
      var k :| 0 <= k < |pod.conditions| && pod.conditions[k] == PodCondition(true, false);
    }
    if Ready(pod) {
      forall k | 0 <= k < |pod.conditions| && pod.conditions[k].isReadyType ensures pod.conditions[k].isTrue {
        assert pod.conditions[k] in pod.conditions;
      }
    }
  }

  /** Only slot i's pod record differs. */
  ghost predicate OnlyPodSlot(p: Parent, q: Parent, i: nat)
    requires i < |p.pods|
  {
    |q.pods| == |p.pods| && q == p.(pods := p.pods[i := q.pods[i]])
  }

  /** What the event of a pod records that needs nothing done: it is on its way out, it is ready, or its time is up
      for the first time. It is written exactly if that is news. */
  lemma EventRecordsExactly(c: Ctx, pod: Pod, i: nat)
    requires i < |c.p.pods| == |c.p.claims|
    requires pod.terminating || (!NodeLoss.NodeLost(c.w, pod.nodeName)
      && (Ready(pod) || c.p.pods[i].status != CreateTimeOut))
    ensures var (d, changed) := MonitorPodEffect(c, pod, i); var was, slot := c.p.pods[i], d.p.pods[i];
      && d.w == c.w && OnlyPodSlot(c.p, d.p, i) && (changed <==> d.p != c.p)
      && (pod.terminating ==> slot == was.(status := if was.status == CreateTimeOut then CreateTimeOut else Deleting))
      && (!pod.terminating && Ready(pod) ==>
            slot == if was.status == Running then was
                    else was.(podName := pod.name, status := Running, nodeName := pod.nodeName))
      && (!pod.terminating && !Ready(pod) ==>
            slot == if Late(c.w, pod) then was.(status := CreateTimeOut) else was)
  {
    ReadyMeans(pod);
    hide PodRunning, Ready;
    assert c.p.pods[i := c.p.pods[i]] == c.p.pods;
  }

  /** The second notice: exactly if its delete succeeds, the pod and its claim are gone or on their way out, and
      the slot is cut if it is the last one, or both its records say Deleting. */
  lemma SecondNoticeExactly(c: Ctx, pod: Pod, i: nat)
    requires i < |c.p.pods| == |c.p.claims| && c.p.pods[i].status == CreateTimeOut
    requires !pod.terminating && !NodeLoss.NodeLost(c.w, pod.nodeName) && !Ready(pod)
    ensures var (d, changed) := MonitorPodEffect(c, pod, i); var name := ClaimName(c.p, i);
      && (changed <==> |c.w.log| !in c.w.faults)
      && (!changed ==> d.p == c.p && d.w.pods == c.w.pods && d.w.claims == c.w.claims)
      && (changed ==>
            && (pod.name in d.w.pods ==> d.w.pods[pod.name].terminating)
            && (c.p.spec.claimTemplate.Some? && name in d.w.claims ==> d.w.claims[name].terminating)
            && d.w.pods - {pod.name} == c.w.pods - {pod.name} && d.w.claims - {name} == c.w.claims - {name}
            && d.w.pods.Keys == c.w.pods.Keys && d.w.claims.Keys == c.w.claims.Keys
            && (if i == |c.p.pods| - 1 then d.p.pods == c.p.pods[..i] && d.p.claims == c.p.claims[..i]
                else
                  && d.p.pods == c.p.pods[i := c.p.pods[i].(status := Deleting)]
                  && d.p.claims == c.p.claims[i := c.p.claims[i].(status := ClaimDeleting)]))
  {
    ReadyMeans(pod);
    TimedOutClaims(c, pod, i);
    hide PodRunning, Ready, DeleteClaimUntilDone, Dashed;
  }

  lemma TimedOutClaims(c: Ctx, pod: Pod, i: nat)
    requires i < |c.p.pods| == |c.p.claims|
    ensures var (d, done) := TimedOutEffect(c, pod, i); var name := ClaimName(c.p, i);
      && d.w == c.w.(pods := d.w.pods, claims := d.w.claims, log := d.w.log)
      && d.w.pods == DeletePodIn(c.w, pod.name).0.pods
      && d.w.claims - {name} == c.w.claims - {name} && d.w.claims.Keys == c.w.claims.Keys
      && (!done ==> d.w.claims == c.w.claims)
      && (done && c.p.spec.claimTemplate.Some? && name in d.w.claims ==> d.w.claims[name].terminating)
  {
    hide DeleteClaimUntilDone, ClaimName, Defaulted, DeletePodIn, BothDeleting, Truncated;
    DeleteKeepsClaims(c.w, pod.name);
    InsistentDeleteEnds(DeletePodIn(c.w, pod.name).0, ClaimName(c.p, i));
  }

  lemma DeleteKeepsClaims(w: World, name: string)
    ensures var v := DeletePodIn(w, name).0; v == w.(pods := v.pods, log := v.log)
  {
  }

  /** The retried delete marks its claim in the end, and touches no other. */
  lemma {:induction false} InsistentDeleteEnds(w: World, name: string)
    ensures var v := DeleteClaimUntilDone(w, name);
      && v == w.(claims := v.claims, log := v.log)
      && v.claims == if name in w.claims then w.claims[name := w.claims[name].(terminating := true)] else w.claims
    decreases FaultsAhead(w.faults, |w.log|)
  {
    var (w1, ok) := DeleteClaimIn(w, name);
    if !ok {
      assert |w.log| in FaultsAhead(w.faults, |w.log|) - FaultsAhead(w.faults, |w1.log|);
      InsistentDeleteEnds(w1, name);
    }
  }

  /** What a first notice is, over any interleaving or serial run: the pod is live on a node that is not lost, not
      ready, and late. */
  lemma NoticeMeans(s: System, m: Move, i: nat)
    requires Notices.TakesNotice(s, m, i)
    ensures m.PodEvent? && !m.pod.terminating && !NodeLoss.NodeLost(s.w, m.pod.nodeName)
    ensures !Ready(m.pod) && Late(s.w, m.pod)
  {
    ReadyMeans(m.pod);
    hide NamedByOwner, Ready, PodRunning;
  }

  /** The event of a pod with a negative ordinal comes to the first access of the lists, and panics, unless its node
      is lost and a call there comes to nothing; what is forced by then is not recorded. */
  lemma NegativeOrdinal(w: World, p: Parent, pod: Pod, i: int)
    requires i < 0
    ensures var (v, panics) := MonitorNegativeEffect(w, p, pod, i); var t := |w.log|;
      var name := ClaimBase(p) + "-" + p.name + "-" + Itoa(i);
      var lost := !pod.terminating && NodeLoss.NodeLost(w, pod.nodeName);
      && v.stored == w.stored
      && (!lost ==> panics && v == w)
      && (lost ==>
            && (panics <==>
                  && !Unmarked(pod) && pod.name in w.pods && t !in w.faults
                  && (p.spec.claimTemplate.Some? && name in w.claims ==> t + 1 !in w.faults))
            && (panics ==> pod.name !in v.pods)
            && (panics && p.spec.claimTemplate.Some? && name in v.claims ==> v.claims[name].terminating))
  {
  }

  // ----- claims -----

  /** What the event of a claim records: that it is on its way out, unless its slot's pod has run out of time, or
      its volume once it is bound. It is written exactly if that is news. */
  lemma ClaimEventExactly(p: Parent, claim: Claim, i: nat)
    requires |p.pods| == |p.claims|
    ensures var (q, changed) := MonitorClaimEffect(p, claim, i);
      && (changed <==> q.claims != p.claims)
      && (i >= |p.claims| ==> q == p)
      && (i < |p.claims| ==>
            && |q.claims| == |p.claims| && q == p.(claims := p.claims[i := q.claims[i]])
            && (claim.terminating ==>
                  q.claims[i] == if p.pods[i].status == CreateTimeOut then p.claims[i]
                                 else p.claims[i].(status := ClaimDeleting))
            && (!claim.terminating && claim.phase == Bound ==>
                  && q.claims[i].status == Bound
                  && (p.claims[i].status != Bound ==> q.claims[i].volumeName == claim.volumeName)
                  && (p.claims[i].status == Bound ==> q == p))
            && (!claim.terminating && claim.phase != Bound ==> q == p))
  {
    if i < |p.claims| {
      assert p.claims[i := p.claims[i]] == p.claims;
    }
  }
}
