// Whole runs, one reconcile after another on fresh copies, with anything happening in between.
module Histories {
  import opened Tools
  import opened Types
  import opened Api
  import opened PodControl
  import opened ClaimControl
  import opened Controller
  import opened Workers
  import Deletion
  import SizeLaws

  datatype Event = CoreRuns | PodEvent(pod: Pod) | ClaimEvent(claim: Claim) | Meanwhile(w: World)

  ghost predicate Sound(scope: Scope, w: World) {
    PodsNamed(scope.name, w.pods) && (w.stored.Some? ==> Shaped(scope, w.stored.value))
  }

  ghost predicate Allowed(scope: Scope, w: World, e: Event) {
    match e
    case CoreRuns => true
    case PodEvent(pod) => OwnerName(pod.annotations) == scope.name ==> NamedByOwner(pod)
    case ClaimEvent(_) => true
    case Meanwhile(v) => OutsideAllowed(scope, w, v) && v.log == w.log
  }

  ghost function Do(w: World, e: Event): World {
    if !ListsAgree(w) then w else
    match e
    case CoreRuns => Core(w)
    case PodEvent(pod) => if NamedByOwner(pod) then MonitorPod(w, pod) else w
    case ClaimEvent(claim) => MonitorClaim(w, claim)
    case Meanwhile(v) => v
  }

  ghost function StateAt(w: World, events: seq<Event>, k: nat): World
    requires k <= |events|
  {
    if k == 0 then w else Do(StateAt(w, events, k - 1), events[k - 1])
  }

  ghost predicate AllowedAt(scope: Scope, w: World, events: seq<Event>, k: nat)
    requires k < |events|
  {
    Allowed(scope, StateAt(w, events, k), events[k])
  }

  ghost predicate History(scope: Scope, w: World, events: seq<Event>) {
    Sound(scope, w) && forall k: nat :: k < |events| ==> AllowedAt(scope, w, events, k)
  }

  // ----- the shape along a run -----

  lemma CoreSound(scope: Scope, w: World)
    requires Sound(scope, w)
    ensures Sound(scope, Core(w))
  {
    if w.stored.Some? {
      var c := Ctx(w, w.stored.value);
      var d := CoreEffect(c).0;
      var alone := System(w, [None]);
      CoreIsMoves(scope, alone, 0, c);
      RunKeepsShape(scope, WithCopy(alone, 0, c), CoreMoves(c, 0));
      assert AllShaped(scope, WithCopy(alone, 0, d));
    }
  }

  lemma DoSound(scope: Scope, w: World, e: Event)
    requires Sound(scope, w) && Allowed(scope, w, e)
    ensures Sound(scope, Do(w, e))
  {
    match e
    case CoreRuns => CoreSound(scope, w);
    case PodEvent(pod) =>
      if OwnerStored(w, pod.annotations) {
        var c := Ctx(w, w.stored.value);
        PodEventShaped(scope, c, pod);
        SameNamesShaped(scope, MonitorPodEffect(c, pod, Ordinal(pod.annotations)).0.p,
          Put(MonitorPodEffect(c, pod, Ordinal(pod.annotations)).0).p);
      }
    case ClaimEvent(claim) =>
      if OwnerStored(w, claim.annotations) && Ordinal(claim.annotations) >= 0 {
        ClaimEventShaped(scope, w.stored.value, claim);
        var q := MonitorClaimEffect(w.stored.value, claim, Ordinal(claim.annotations)).0;
        SameNamesShaped(scope, q, Put(Ctx(w, q)).p);
      }
    case Meanwhile(v) =>
  }

  lemma {:induction false} SoundAt(scope: Scope, w: World, events: seq<Event>, k: nat)
    requires History(scope, w, events) && k <= |events|
    ensures Sound(scope, StateAt(w, events, k))
  {
    hide Do, Sound;
    if k > 0 {
      SoundAt(scope, w, events, k - 1);
      assert AllowedAt(scope, w, events, k - 1);
      DoSound(scope, StateAt(w, events, k - 1), events[k - 1]);
    }
  }

  // ----- timeouts take two notices -----

  function SlotStatus(w: World, i: nat): Option<PodPhase> {
    if w.stored.Some? && i < |w.stored.value.pods| then Some(w.stored.value.pods[i].status) else None
  }

  predicate TimedOut(w: World, i: nat) {
    SlotStatus(w, i) == Some(CreateTimeOut)
  }

  /** The first notice: an event of slot i's pod, which is live on a ready node, does not run, and is
      overdue. */
  predicate FirstNotice(w: World, e: Event, i: nat) {
    && !TimedOut(w, i) && SlotStatus(w, i).Some?
    && e.PodEvent? && NamedByOwner(e.pod) && e.pod.name == PodName(w.stored.value, i)
    && !e.pod.terminating && NodeReadyIn(w, e.pod.nodeName) && !PodRunning(e.pod) && Overdue(w, e.pod)
  }

  /** Every slot of q recorded as timed out is so recorded in p. */
  ghost predicate NoNewTimeouts(p: Parent, q: Parent) {
    forall j :: 0 <= j < |q.pods| && q.pods[j].status == CreateTimeOut ==>
      j < |p.pods| && p.pods[j].status == CreateTimeOut
  }

  lemma GrowKeepsTimeouts(c: Ctx, i: nat)
    requires i <= |c.p.pods| == |c.p.claims|
    ensures NoNewTimeouts(c.p, ExpansionEffect(c, i).0.p)
  {
    if Grow(c, i).1.None? {
      var (d, pod) := ExpansionPodEffect(c, i);
      var (e, claim) := Controller.ClaimPart(d, i);
      assert SameSlots(e.p, c.p) && Grow(c, i).0.p == WithSlots(e.p, i, pod.value, claim.value);
    }
  }

  lemma MaintainKeepsTimeouts(c: Ctx)
    requires |c.p.pods| == |c.p.claims|
    ensures NoNewTimeouts(c.p, MaintainEffect(c).0.p)
  {
    var c1 := MarkEffect(c);
    assert NoNewTimeouts(c.p, c1.p);
    var index := FirstNeedingPod(c1.w, c1.p.pods);
    if index.Some? {
      GrowKeepsTimeouts(c1, index.value);
    }
  }

  lemma CutKeepsTimeouts(c: Ctx, i: nat)
    requires 1 <= i <= |c.p.pods| == |c.p.claims|
    ensures NoNewTimeouts(c.p, ShrinkEffect(c, i).0.p)
  {
    var (w1, gone) := ShrinkPodEffect(c.w, c.p, i - 1);
    assert Cut(c, i).1.Some? ==> Cut(c, i).0.p.pods == c.p.pods;
    assert Cut(c, i).1.None? ==> Cut(c, i).0.p.pods == c.p.pods[..i - 1];
  }

  lemma CoreEffectKeepsTimeouts(c: Ctx)
    requires |c.p.pods| == |c.p.claims|
    ensures NoNewTimeouts(c.p, CoreEffect(c).0.p)
  {
    var n := GetIndex(c.p);
    if c.p.deletionMarked && n == c.p.spec.size {
      assert CoreEffect(c).0.p.pods == c.p.pods by { SizeLaws.RemoveKeepsSlots(c); }
    } else if n < c.p.spec.size {
      GrowKeepsTimeouts(c, n);
    } else if n > c.p.spec.size {
      CutKeepsTimeouts(c, n);
    } else {
      MaintainKeepsTimeouts(SetFinalizerEffect(c));
    }
  }

  /** What a reconcile of the parent leaves stored records no new timeout. */
  lemma CoreStores(w: World, p: Parent)
    requires w.stored == Some(p) && |p.pods| == |p.claims|
    ensures Core(w).stored.Some? ==> NoNewTimeouts(p, Core(w).stored.value)
  {
    hide GrowObjects, Erase, FirstFrom, Dashed;
    var c, n := Ctx(w, p), GetIndex(p);
    CoreEffectKeepsTimeouts(c);
    if p.deletionMarked && n == p.spec.size {
      Deletion.EraseWorld(c);
    } else if n == p.spec.size {
      MaintainStores(SetFinalizerEffect(c));
    } else if n > p.spec.size {
      assert Cut(c, n).0.w.stored == w.stored;
    }
  }

  lemma MarkStores(c: Ctx)
    requires c.w.stored in {None, Some(c.p)}
    ensures MarkEffect(c).w.stored in {None, Some(MarkEffect(c).p)} && NoNewTimeouts(c.p, MarkEffect(c).p)
  {
  }

  lemma ExpansionStores(c: Ctx, i: nat)
    requires i <= |c.p.pods| == |c.p.claims|
    ensures ExpansionEffect(c, i).0.w.stored in {c.w.stored, None, Some(ExpansionEffect(c, i).0.p)}
  {
  }

  lemma MaintainStores(c: Ctx)
    requires c.w.stored in {None, Some(c.p)} && |c.p.pods| == |c.p.claims|
    ensures var v := MaintainEffect(c).0.w; v.stored.Some? ==> NoNewTimeouts(c.p, v.stored.value)
  {
    MaintainKeepsTimeouts(c);
    MarkStores(c);
    var c1 := MarkEffect(c);
    var index := FirstNeedingPod(c1.w, c1.p.pods);
    if index.Some? {
      ExpansionStores(c1, index.value);
    }
  }

  lemma CoreKeepsTimeouts(w: World, i: nat)
    requires ListsAgree(w) && TimedOut(Core(w), i)
    ensures TimedOut(w, i)
  {
    if w.stored.Some? {
      CoreStores(w, w.stored.value);
    }
  }

  /** What a pod event does to the slots: nothing, one new state, or the last slot cut off. */
  lemma MonitorPodSlots(c: Ctx, pod: Pod, i: nat)
    requires i < |c.p.pods| == |c.p.claims|
    ensures var q, was := MonitorPodEffect(c, pod, i).0.p, c.p.pods[i].status;
      && |q.pods| == |q.claims|
      && (|q.pods| != |c.p.pods| ==>
            && i == |c.p.pods| - 1 && was == CreateTimeOut
            && q.pods == c.p.pods[..i] && q.claims == c.p.claims[..i])
      && (|q.pods| == |c.p.pods| ==>
            && (forall j :: 0 <= j < |c.p.pods| && j != i ==> q.pods[j] == c.p.pods[j])
            && (q.pods[i] == c.p.pods[i] || q.pods[i].status in {Running, Deleting, CreateTimeOut})
            && (q.pods[i].status == CreateTimeOut && was != CreateTimeOut ==>
                  !pod.terminating && NodeReadyIn(c.w, pod.nodeName) && !PodRunning(pod) && Overdue(c.w, pod)))
  {
    NodeLostCases(c, pod, i);
  }

  lemma EventWritesTimeout(scope: Scope, w: World, e: Event, i: nat)
    requires Sound(scope, w) && Allowed(scope, w, e) && TimedOut(Do(w, e), i)
    ensures TimedOut(w, i) || FirstNotice(w, e, i)
  {
    match e
    case CoreRuns => CoreKeepsTimeouts(w, i);
    case PodEvent(pod) => if NamedByOwner(pod) { PodEventWritesTimeout(scope, w, pod, i); }
    case ClaimEvent(claim) =>
      if OwnerStored(w, claim.annotations) && Ordinal(claim.annotations) >= 0 {
        var q := MonitorClaimEffect(w.stored.value, claim, Ordinal(claim.annotations)).0;
        assert q.pods == w.stored.value.pods && Put(Ctx(w, q)).p.pods == q.pods;
      }
    case Meanwhile(v) =>
  }

  lemma PodEventStores(w: World, pod: Pod)
    requires w.stored.Some? && ListsAgree(w) && NamedByOwner(pod) && OwnerStored(w, pod.annotations)
    ensures var q := MonitorPodEffect(Ctx(w, w.stored.value), pod, Ordinal(pod.annotations)).0.p;
      var v := MonitorPod(w, pod);
      v.stored.Some? ==> v.stored == w.stored || v.stored.value.pods == q.pods
  {
    hide MonitorPodEffect;
    MonitorKeepsStored(Ctx(w, w.stored.value), pod, Ordinal(pod.annotations));
  }

  lemma PodEventWritesTimeout(scope: Scope, w: World, pod: Pod, i: nat)
    requires Sound(scope, w) && NamedByOwner(pod) && TimedOut(MonitorPod(w, pod), i)
    ensures TimedOut(w, i) || FirstNotice(w, Event.PodEvent(pod), i)
  {
    if OwnerStored(w, pod.annotations) {
      PodEventStores(w, pod);
      var k := Ordinal(pod.annotations);
      if k < |w.stored.value.pods| {
        MonitorPodSlots(Ctx(w, w.stored.value), pod, k);
      }
    }
  }

  lemma StepNotice(scope: Scope, w: World, events: seq<Event>, k: nat, i: nat)
    requires History(scope, w, events) && k < |events| && TimedOut(StateAt(w, events, k + 1), i)
    ensures TimedOut(StateAt(w, events, k), i) || FirstNotice(StateAt(w, events, k), events[k], i)
  {
    SoundAt(scope, w, events, k);
    assert AllowedAt(scope, w, events, k);
    EventWritesTimeout(scope, StateAt(w, events, k), events[k], i);
  }

  /** A property that holds at k but not at 0 has held without a break since some first time. */
  lemma {:induction false} LastRise(f: nat -> bool, k: nat) returns (j: nat)
    requires !f(0) && f(k)
    ensures j < k && !f(j) && forall m: nat :: j < m <= k ==> f(m)
  {
    if f(k - 1) {
      j := LastRise(f, k - 1);
    } else {
      j := k - 1;
    }
  }

  /** A slot that is recorded as timed out has been so without a break since a first notice. */
  lemma TimeoutHasNotice(scope: Scope, w: World, events: seq<Event>, k: nat, i: nat) returns (j: nat)
    requires History(scope, w, events) && k <= |events|
    requires !TimedOut(w, i) && TimedOut(StateAt(w, events, k), i)
    ensures j < k && FirstNotice(StateAt(w, events, j), events[j], i)
    ensures forall m: nat :: j < m <= k ==> TimedOut(StateAt(w, events, m), i)
  {
    hide Do, Sound, AllowedAt, TimedOut, FirstNotice;
    ghost var f := (m: nat) => m <= |events| && TimedOut(StateAt(w, events, m), i);
    j := LastRise(f, k);
    assert f(j + 1) && !f(j);
    StepNotice(scope, w, events, j, i);
    forall m: nat | j < m <= k ensures TimedOut(StateAt(w, events, m), i) {
      assert f(m);
    }
  }

  predicate CallsVerb(w: World, v: World, verb: Verb) {
    |v.log| > |w.log| && exists n :: |w.log| <= n < |v.log| && v.log[n].verb == verb
  }

  lemma MandatoryIsNotGraceful(w: World, pod: Pod)
    ensures !CallsVerb(w, DeletePodMandatoryEffect(w, pod).0, DeletePod)
    ensures |DeletePodMandatoryEffect(w, pod).0.log| >= |w.log|
  {
  }

  lemma NodeLostIsNotGraceful(c: Ctx, pod: Pod, i: nat)
    requires i < |c.p.pods| == |c.p.claims|
    ensures !CallsVerb(c.w, NodeLostEffect(c, pod, i).0.w, DeletePod)
  {
    MandatoryIsNotGraceful(c.w, pod);
  }

  lemma SecondNoticeAt(c: Ctx, pod: Pod, i: nat)
    requires i < |c.p.pods| == |c.p.claims|
    requires var d := MonitorPodEffect(c, pod, i).0; CallsVerb(c.w, d.w, DeletePod) || |d.p.pods| < |c.p.pods|
    ensures c.p.pods[i].status == CreateTimeOut
  {
    MonitorPodSlots(c, pod, i);
    NodeLostIsNotGraceful(c, pod, i);
  }

  /** A pod event deletes a pod gracefully, or shortens the lists, only for a slot recorded as timed
      out; then a last slot is cut off, and any other becomes Deleting in its place. */
  lemma SecondNotice(w: World, pod: Pod)
    requires w.stored.Some? && ListsAgree(w) && NamedByOwner(pod) && OwnerStored(w, pod.annotations)
    requires CallsVerb(w, MonitorPod(w, pod), DeletePod) || Shortens(w, pod)
    ensures TimedOut(w, Ordinal(pod.annotations))
  {
    var c, i := Ctx(w, w.stored.value), Ordinal(pod.annotations);
    if i < |c.p.pods| {
      assert MonitorPod(w, pod).log == MonitorPodEffect(c, pod, i).0.w.log;
      SecondNoticeAt(c, pod, i);
    }
  }

  predicate Shortens(w: World, pod: Pod)
    requires w.stored.Some? && ListsAgree(w) && NamedByOwner(pod)
  {
    |MonitorPodEffect(Ctx(w, w.stored.value), pod, Ordinal(pod.annotations)).0.p.pods| < |w.stored.value.pods|
  }

  /** What the second notice records: the last slot goes, any other stays in its place as Deleting,
      so the ordinals stay contiguous. */
  lemma SecondNoticeRecords(c: Ctx, pod: Pod, i: nat)
    requires i < |c.p.pods| == |c.p.claims|
    ensures var (d, done) := TimedOutEffect(c, pod, i);
      && (!done ==> d.p == c.p)
      && (done && i == |c.p.pods| - 1 ==> d.p.pods == c.p.pods[..i] && d.p.claims == c.p.claims[..i])
      && (done && i < |c.p.pods| - 1 ==>
            && d.p.pods == c.p.pods[i := c.p.pods[i].(status := Deleting)]
            && d.p.claims == c.p.claims[i := c.p.claims[i].(status := ClaimDeleting)])
  {
  }

  /** Over any run: whatever a timeout destroys had its first notice in an earlier event, with no
      other state recorded in between. */
  lemma TimeoutsTakeTwoNotices(scope: Scope, w: World, events: seq<Event>, k: nat) returns (j: nat)
    requires History(scope, w, events) && k < |events| && events[k].PodEvent?
    requires forall i: nat :: !TimedOut(w, i)
    requires var v, pod := StateAt(w, events, k), events[k].pod;
      && v.stored.Some? && ListsAgree(v) && NamedByOwner(pod) && OwnerStored(v, pod.annotations)
      && (CallsVerb(v, MonitorPod(v, pod), DeletePod) || Shortens(v, pod))
    ensures var i := Ordinal(events[k].pod.annotations);
      && i >= 0 && j < k && FirstNotice(StateAt(w, events, j), events[j], i)
      && forall m: nat :: j < m <= k ==> TimedOut(StateAt(w, events, m), i)
  {
    SecondNotice(StateAt(w, events, k), events[k].pod);
    j := TimeoutHasNotice(scope, w, events, k, Ordinal(events[k].pod.annotations));
  }
}
