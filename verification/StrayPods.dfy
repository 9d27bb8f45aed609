// A pod that stands where the next slot would be blocks the slot: as long as it is not removed from
// outside, no reconciler in any interleaving ever records that many slots.
module StrayPods {
  import opened Tools
  import opened Types
  import opened Api
  import opened PodControl
  import opened ClaimControl
  import opened Controller
  import opened Workers
  import opened Histories
  import Deletion
  import Races
  import VolumeControl

  /** Pod n of the parent stands, and neither the stored parent nor a copy has a slot n. */
  ghost predicate Blocked(scope: Scope, n: nat, s: System) {
    && Dashed(scope.name, n) in s.w.pods
    && AtMost(s.w.stored, n) && forall k :: 0 <= k < |s.copies| ==> AtMost(s.copies[k], n)
  }

  predicate AtMost(p: Option<Parent>, n: nat) {
    p.Some? ==> |p.value.pods| <= n
  }

  ghost predicate KeepsPod(scope: Scope, n: nat, m: Move) {
    m.Outside? ==> Dashed(scope.name, n) in m.w.pods
  }

  lemma GrowBlocked(c: Ctx, i: nat, n: nat)
    requires i <= |c.p.pods| == |c.p.claims| <= n && PodName(c.p, n) in c.w.pods
    ensures var g := Grow(c, i).0; |g.p.pods| <= n && PodName(c.p, n) in g.w.pods
  {
    hide ClaimPart, TemplatePod, Dashed, WithSlots;
    GrowPieces(c, i);
    var (d, pod) := ExpansionPodEffect(c, i);
    Races.ClaimPartKeepsPods(d, i);
    assert SameSlots(d.p, c.p) && SameSlots(Controller.ClaimPart(d, i).0.p, d.p);
    if pod.Some? {
      SlotsSetCount(Controller.ClaimPart(d, i).0.p, i);
    }
  }

  lemma SlotsSetCount(p: Parent, i: nat)
    requires i <= |p.pods| == |p.claims|
    ensures forall pod, claim :: |WithSlots(p, i, pod, claim).pods| == if i == |p.pods| then i + 1 else |p.pods|
  {
  }

  lemma EraseBlocked(c: Ctx)
    requires |c.p.pods| == |c.p.claims|
    ensures Erase(c).0.w.pods.Keys == c.w.pods.Keys && Erase(c).0.p.pods == c.p.pods
  {
    hide Erase;
    ErasePieces(c);
    VolumeUpdatesKeepPods(c.w, c.p.claims, 0, 0);
    var w1 := VolumeControl.SetPVRetainEffect(c.w, c.p).0;
    Deletion.PodLoop(w1, c.p.pods, 0, 0);
    var w2 := DeletePodAllEffect(w1, c.p).0;
    ClaimDeletesKeepPods(w2, c.p.claims, 0, 0);
    VolumeUpdatesKeepPods(DeletePvcAllEffect(w2, c.p).0, c.p.claims, 0, 0);
  }

  /** The event of another pod leaves pod n where it is. */
  lemma PodEventBlocked(c: Ctx, pod: Pod, i: nat, name: string)
    requires |c.p.pods| == |c.p.claims| && name in c.w.pods && name != pod.name
    ensures var d := MonitorPodEffect(c, pod, i).0; name in d.w.pods && |d.p.pods| <= |c.p.pods|
  {
    hide NodeLostEffect, TimedOutEffect, PodRunning, IsNodeReady, Dashed;
    if i < |c.p.pods| {
      NodeLostCases(c, pod, i);
      TimedOutCases(c, pod, i);
      TimedOutKeeps(c, pod, i);
      assert name in DeletePodMandatoryEffect(c.w, pod).0.pods;
    }
  }

  lemma TimedOutKeeps(c: Ctx, pod: Pod, i: nat)
    requires i < |c.p.pods| == |c.p.claims|
    ensures TimedOutEffect(c, pod, i).0.w.pods.Keys == c.w.pods.Keys
  {
    var w1 := DeletePodIn(c.w, pod.name).0;
    assert w1.pods.Keys == c.w.pods.Keys;
    InsistentDeleteKeepsPods(w1, ClaimName(c.p, i));
  }

  lemma CutKeeps(c: Ctx, i: nat)
    requires 1 <= i <= |c.p.pods| == |c.p.claims|
    ensures Cut(c, i).0.w.pods.Keys == c.w.pods.Keys && |Cut(c, i).0.p.pods| <= |c.p.pods|
  {
    CutPieces(c, i);
  }

  lemma ClaimEventKeepsSlots(p: Parent, claim: Claim, i: nat)
    requires |p.pods| == |p.claims|
    ensures MonitorClaimEffect(p, claim, i).0.pods == p.pods
  {
  }

  lemma PieceBlocked(scope: Scope, n: nat, c: Ctx, m: Move)
    requires Shaped(scope, c.p) && |c.p.pods| <= n && Dashed(scope.name, n) in c.w.pods && !m.Outside?
    ensures var d := Piece(c, m); |d.p.pods| <= n && Dashed(scope.name, n) in d.w.pods
  {
    assert |c.p.pods| == |c.p.claims| && c.p.name == scope.name;
    hide Grow, Cut, Erase, MonitorPodEffect, MonitorClaimEffect, Ordinal, OwnerName, Dashed, Shaped;
    match m
    case GrowAt(_, i) => if i <= |c.p.pods| { GrowBlocked(c, i, n); }
    case CutAt(_, i) => if 1 <= i <= |c.p.pods| { CutKeeps(c, i); }
    case EraseAll(_) => EraseBlocked(c);
    case PodEvent(_, pod) =>
      if NamedByOwner(pod) && OwnerName(pod.annotations) == c.p.name {
        PodEventOfSlot(c, pod, n);
      }
    case ClaimEvent(_, claim) =>
      if Ordinal(claim.annotations) >= 0 { ClaimEventKeepsSlots(c.p, claim, Ordinal(claim.annotations)); }
    case _ =>
  }

  lemma PodEventOfSlot(c: Ctx, pod: Pod, n: nat)
    requires |c.p.pods| == |c.p.claims| <= n && PodName(c.p, n) in c.w.pods
    requires NamedByOwner(pod) && OwnerName(pod.annotations) == c.p.name
    ensures var d := MonitorPodEffect(c, pod, Ordinal(pod.annotations)).0;
      PodName(c.p, n) in d.w.pods && |d.p.pods| <= |c.p.pods|
  {
    var i := Ordinal(pod.annotations);
    DashedInjective(c.p.name, i, c.p.name, n);
    if i < |c.p.pods| {
      PodEventBlocked(c, pod, i, PodName(c.p, n));
    }
  }

  lemma MoveBlocked(scope: Scope, n: nat, s: System, m: Move)
    requires AllShaped(scope, s) && Blocked(scope, n, s) && KeepsPod(scope, n, m)
    ensures AllShaped(scope, Apply(scope, s, m)) && Blocked(scope, n, Apply(scope, s, m))
  {
    hide Piece, PodsNamed, WellFormed, Dashed;
    MoveKeepsShape(scope, s, m);
    if !m.Outside? && !m.Read? && m.k < |s.copies| && s.copies[m.k].Some? {
      var c := Ctx(s.w, s.copies[m.k].value);
      PieceBlocked(scope, n, c, m);
      PieceShaped(scope, c, m);
    }
  }

  /** Over every interleaving in which pod n is not removed from outside, slot n is never recorded. */
  lemma {:induction false} StrayPodBlocks(scope: Scope, n: nat, s: System, moves: seq<Move>)
    requires AllShaped(scope, s) && Blocked(scope, n, s)
    requires forall l :: 0 <= l < |moves| ==> KeepsPod(scope, n, moves[l])
    ensures Blocked(scope, n, ApplyAll(scope, s, moves))
    decreases |moves|
  {
    hide Apply, AllShaped, Blocked, KeepsPod;
    if moves != [] {
      MoveBlocked(scope, n, s, moves[0]);
      StrayPodBlocks(scope, n, Apply(scope, s, moves[0]), moves[1..]);
    }
  }

  // ----- serial runs -----

  ghost predicate BlockedWorld(scope: Scope, n: nat, w: World) {
    Dashed(scope.name, n) in w.pods && AtMost(w.stored, n)
  }

  lemma InsideKeepsPods(scope: Scope, n: nat, c: Ctx, k: nat)
    requires |c.p.pods| == |c.p.claims|
    ensures forall l :: 0 <= l < |CoreMoves(c, k)| ==> KeepsPod(scope, n, CoreMoves(c, k)[l])
  {
    hide Grow, Cut, Erase, FirstFrom;
  }

  lemma CoreBlocked(scope: Scope, n: nat, w: World)
    requires Sound(scope, w) && BlockedWorld(scope, n, w)
    ensures BlockedWorld(scope, n, Core(w))
  {
    if w.stored.Some? {
      var c := Ctx(w, w.stored.value);
      var alone := System(w, [None]);
      hide CoreEffect, CoreMoves;
      CoreIsMoves(scope, alone, 0, c);
      InsideKeepsPods(scope, n, c, 0);
      StrayPodBlocks(scope, n, WithCopy(alone, 0, c), CoreMoves(c, 0));
      assert Blocked(scope, n, WithCopy(alone, 0, CoreEffect(c).0));
    }
  }

  lemma DoBlocked(scope: Scope, n: nat, w: World, e: Event)
    requires Sound(scope, w) && Allowed(scope, w, e) && BlockedWorld(scope, n, w)
    requires e.Meanwhile? ==> Dashed(scope.name, n) in e.w.pods
    ensures BlockedWorld(scope, n, Do(w, e))
  {
    hide Core, MonitorPodEffect, MonitorClaimEffect, Ordinal, Dashed;
    match e
    case CoreRuns => CoreBlocked(scope, n, w);
    case PodEvent(pod) =>
      if OwnerStored(w, pod.annotations) {
        PodEventOfSlot(Ctx(w, w.stored.value), pod, n);
        PodEventStores(w, pod);
      }
    case ClaimEvent(claim) =>
      if OwnerStored(w, claim.annotations) && Ordinal(claim.annotations) >= 0 {
        ClaimEventKeepsSlots(w.stored.value, claim, Ordinal(claim.annotations));
      }
    case Meanwhile(v) =>
  }

  ghost predicate PodStays(scope: Scope, n: nat, e: Event) {
    e.Meanwhile? ==> Dashed(scope.name, n) in e.w.pods
  }

  lemma {:induction false} StrayPodBlocksRuns(scope: Scope, n: nat, w: World, events: seq<Event>, k: nat)
    requires History(scope, w, events) && k <= |events| && BlockedWorld(scope, n, w)
    requires forall l :: 0 <= l < |events| ==> PodStays(scope, n, events[l])
    ensures BlockedWorld(scope, n, StateAt(w, events, k))
  {
    hide Do, Sound, Allowed, BlockedWorld;
    if k > 0 {
      StrayPodBlocksRuns(scope, n, w, events, k - 1);
      SoundAt(scope, w, events, k - 1);
      assert AllowedAt(scope, w, events, k - 1) && PodStays(scope, n, events[k - 1]);
      DoBlocked(scope, n, StateAt(w, events, k - 1), events[k - 1]);
    }
  }

  /** A lost append is lost for good: over every serial run that follows it, with any failing calls, sizes set,
      nodes lost and events, as long as pod 1 is not removed from outside, slot 1 is not recorded again. */
  lemma LostAppendIsForGood(scope: Scope, w: World, p: Parent, pod: Pod, events: seq<Event>, k: nat)
    requires Races.HalfGrown(w, p, pod) && scope.name == p.name
    requires var t := ApplyAll(scope, System(w, [Some(p), Some(p)]), Races.LostAppendMoves(pod));
      History(scope, t.w, events) && k <= |events|
    requires forall l :: 0 <= l < |events| ==> PodStays(scope, 1, events[l])
    ensures var t := ApplyAll(scope, System(w, [Some(p), Some(p)]), Races.LostAppendMoves(pod));
      BlockedWorld(scope, 1, StateAt(t.w, events, k))
  {
    hide ApplyAll, StateAt, History, Core, Races.HalfGrown;
    Races.LostAppend(scope, w, p, pod);
    StrayPodBlocksRuns(scope, 1,
      ApplyAll(scope, System(w, [Some(p), Some(p)]), Races.LostAppendMoves(pod)).w, events, k);
  }
}
