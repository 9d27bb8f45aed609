// Which runs of several reconcilers are serial runs, and that such runs converge.
module TimelyRuns {
  import opened Tools
  import opened Types
  import opened Api
  import opened PodControl
  import opened ClaimControl
  import opened Controller
  import opened Workers
  import opened Histories
  import opened Examples
  import Convergence
  import ConvergenceTheorem
  import FairRuns

  // A reconciler reads the parent, or makes one call with the copy it holds, or something outside happens.
  datatype Item = Looks(k: nat) | Calls(k: nat, e: Event) | Around(w: World)

  /** The moves of one call of reconciler k on the copy it holds. */
  function CallMoves(c: Ctx, k: nat, e: Event): seq<Move>
    requires |c.p.pods| == |c.p.claims|
  {
    match e
    case CoreRuns => CoreMoves(c, k)
    case PodEvent(pod) =>
      if NamedByOwner(pod) && OwnerName(pod.annotations) == c.p.name then
        [Move.PodEvent(k, pod)]
        + (if MonitorPodEffect(c, pod, Ordinal(pod.annotations)).1 then [Write(k)] else [])
      else []
    case ClaimEvent(claim) =>
      if Ordinal(claim.annotations) >= 0 && OwnerName(claim.annotations) == c.p.name then
        [Move.ClaimEvent(k, claim)]
        + (if MonitorClaimEffect(c.p, claim, Ordinal(claim.annotations)).1 then [Write(k)] else [])
      else []
    case Meanwhile(_) => []
  }

  /** A call is timely if the copy its reconciler holds is still what is stored: it was read at the version
      that is stored when the call begins to act. */
  ghost predicate Timely(scope: Scope, s: System, item: Item) {
    match item
    case Looks(_) => true
    case Calls(k, e) =>
      && k < |s.copies| && s.w.stored.Some? && s.copies[k] == s.w.stored
      && !e.Meanwhile? && Allowed(scope, s.w, e)
    case Around(v) => OutsideAllowed(scope, s.w, v) && v.log == s.w.log
  }

  ghost function RunItem(scope: Scope, s: System, item: Item): System {
    match item
    case Looks(k) => Apply(scope, s, Read(k))
    case Calls(k, e) =>
      if k < |s.copies| && s.copies[k].Some? && |s.copies[k].value.pods| == |s.copies[k].value.claims|
      then ApplyAll(scope, s, CallMoves(Ctx(s.w, s.copies[k].value), k, e)) else s
    case Around(v) => Apply(scope, s, Outside(v))
  }

  ghost function ItemsDone(scope: Scope, s: System, items: seq<Item>): System {
    if items == [] then s else RunItem(scope, ItemsDone(scope, s, items[..|items| - 1]), items[|items| - 1])
  }

  function EventsOf(items: seq<Item>): seq<Event> {
    if items == [] then []
    else EventsOf(items[..|items| - 1]) + match items[|items| - 1]
      case Looks(_) => []
      case Calls(_, e) => [e]
      case Around(v) => [Meanwhile(v)]
  }

  ghost predicate TimelyRun(scope: Scope, s: System, items: seq<Item>) {
    items == [] ||
    var init := items[..|items| - 1];
    TimelyRun(scope, s, init) && Timely(scope, ItemsDone(scope, s, init), items[|items| - 1])
  }

  /** A timely call, piece by piece and write by write, leaves the world of one serial reconcile. */
  lemma CallIsSerial(scope: Scope, s: System, k: nat, e: Event)
    requires AllShaped(scope, s) && Timely(scope, s, Calls(k, e))
    ensures RunItem(scope, s, Calls(k, e)).w == Do(s.w, e)
  {
    hide MonitorPodEffect, MonitorClaimEffect, CoreMoves, CoreEffect, Piece, Put;
    var c := Ctx(s.w, s.copies[k].value);
    assert WithCopy(s, k, c) == s;
    match e
    case CoreRuns => CoreIsMoves(scope, s, k, c);
    case PodEvent(pod) =>
      if NamedByOwner(pod) && OwnerName(pod.annotations) == c.p.name { PodCallIsSerial(scope, s, k, c, pod); }
    case ClaimEvent(claim) =>
      if Ordinal(claim.annotations) >= 0 && OwnerName(claim.annotations) == c.p.name {
        ClaimCallIsSerial(scope, s, k, c, claim);
      }
  }

  lemma PodCallIsSerial(scope: Scope, s: System, k: nat, c: Ctx, pod: Pod)
    requires AllShaped(scope, s) && k < |s.copies|
    requires c.w.stored == Some(c.p) && s == WithCopy(s, k, c)
    requires NamedByOwner(pod) && OwnerName(pod.annotations) == c.p.name
    ensures RunItem(scope, s, Calls(k, Event.PodEvent(pod))).w == MonitorPod(c.w, pod)
  {
    assert Ordinal(pod.annotations) >= 0;
    hide MonitorPodEffect, NamedByOwner;
    var i := Ordinal(pod.annotations);
    PieceShaped(scope, c, Move.PodEvent(k, pod));
    OneMove(scope, s, k, c, Move.PodEvent(k, pod));
    ThenWrite(scope, s, k, c, Move.PodEvent(k, pod));
  }

  lemma ClaimCallIsSerial(scope: Scope, s: System, k: nat, c: Ctx, claim: Claim)
    requires AllShaped(scope, s) && k < |s.copies|
    requires c.w.stored == Some(c.p) && s == WithCopy(s, k, c)
    requires Ordinal(claim.annotations) >= 0 && OwnerName(claim.annotations) == c.p.name
    ensures RunItem(scope, s, Calls(k, Event.ClaimEvent(claim))).w == MonitorClaim(c.w, claim)
  {
    hide MonitorClaimEffect;
    PieceShaped(scope, c, Move.ClaimEvent(k, claim));
    OneMove(scope, s, k, c, Move.ClaimEvent(k, claim));
    ThenWrite(scope, s, k, c, Move.ClaimEvent(k, claim));
    assert !MonitorClaimEffect(c.p, claim, Ordinal(claim.annotations)).1 ==>
      Piece(c, Move.ClaimEvent(k, claim)).w == c.w;
  }

  lemma ItemShaped(scope: Scope, s: System, item: Item)
    requires AllShaped(scope, s)
    ensures AllShaped(scope, RunItem(scope, s, item))
  {
    hide AllShaped, CallMoves, Apply;
    match item
    case Looks(k) => MoveKeepsShape(scope, s, Read(k));
    case Calls(k, e) =>
      if k < |s.copies| && s.copies[k].Some? && |s.copies[k].value.pods| == |s.copies[k].value.claims| {
        RunKeepsShape(scope, s, CallMoves(Ctx(s.w, s.copies[k].value), k, e));
      }
    case Around(v) => MoveKeepsShape(scope, s, Outside(v));
  }

  lemma {:induction false} PrefixStates(w: World, events: seq<Event>, more: seq<Event>, k: nat)
    requires k <= |events|
    ensures StateAt(w, events + more, k) == StateAt(w, events, k)
  {
    if k > 0 {
      PrefixStates(w, events, more, k - 1);
    }
  }

  lemma OneMoreEvent(scope: Scope, w: World, events: seq<Event>, e: Event)
    requires History(scope, w, events) && Allowed(scope, StateAt(w, events, |events|), e)
    ensures History(scope, w, events + [e])
    ensures StateAt(w, events + [e], |events| + 1) == Do(StateAt(w, events, |events|), e)
  {
    forall k: nat | k < |events| + 1 ensures AllowedAt(scope, w, events + [e], k) {
      PrefixStates(w, events, [e], k);
      assert k < |events| ==> AllowedAt(scope, w, events, k);
    }
    PrefixStates(w, events, [e], |events|);
  }

  /** A run of any number of reconcilers in which every call begins with a copy that is still the stored
      object and acts without another in between is, move by move, a serial run: whatever is proved of
      serial runs holds of it. */
  lemma {:induction false} TimelyRunsAreSerial(scope: Scope, s: System, items: seq<Item>)
    requires AllShaped(scope, s) && TimelyRun(scope, s, items)
    ensures AllShaped(scope, ItemsDone(scope, s, items))
    ensures History(scope, s.w, EventsOf(items))
    ensures ItemsDone(scope, s, items).w == StateAt(s.w, EventsOf(items), |EventsOf(items)|)
    decreases |items|
  {
    hide AllShaped, Apply, CallMoves, Do, Allowed;
    if items == [] {
      ShapedIsSound(scope, s);
    } else {
      var init, item := items[..|items| - 1], items[|items| - 1];
      TimelyRunsAreSerial(scope, s, init);
      var t, events := ItemsDone(scope, s, init), EventsOf(init);
      ItemShaped(scope, t, item);
      match item
      case Looks(k) =>
        ReadsChangeNothing(scope, t, k);
        assert EventsOf(items) == events + [] == events;
      case Calls(k, e) =>
        CallIsSerial(scope, t, k, e);
        OneMoreEvent(scope, s.w, events, e);
      case Around(v) =>
        OutsideIsMeanwhile(scope, t, v);
        OneMoreEvent(scope, s.w, events, Meanwhile(v));
    }
  }

  lemma ShapedIsSound(scope: Scope, s: System)
    requires AllShaped(scope, s)
    ensures Sound(scope, s.w)
  {
  }

  lemma ReadsChangeNothing(scope: Scope, s: System, k: nat)
    ensures RunItem(scope, s, Looks(k)).w == s.w
  {
  }

  lemma OutsideIsMeanwhile(scope: Scope, s: System, v: World)
    requires AllShaped(scope, s) && Timely(scope, s, Around(v))
    ensures Allowed(scope, s.w, Meanwhile(v)) && RunItem(scope, s, Around(v)).w == Do(s.w, Meanwhile(v))
  {
  }

  // ----- timely writes are not enough -----

  /** A settled parent of size 2, and a copy from when its size was 1. */
  ghost predicate OlderSize(scope: Scope, w: World, p: Parent, r: Parent) {
    && w.stored == Some(p) && Shaped(scope, p) && !p.deletionMarked && GROUP_VERSION in p.finalizers
    && PodsNamed(scope.name, w.pods) && w.faults == {}
    && |p.pods| == 2 == p.spec.size && r == p.(version := r.version, spec := p.spec.(size := 1))
    && (forall i :: 0 <= i < 2 ==> p.pods[i].status == Running && p.claims[i].status != ClaimPending)
    && (forall i :: 0 <= i < 2 ==> p.pods[i].podName in w.pods && w.pods[p.pods[i].podName].phase == Running)
  }

  /** It is not enough that each write meets its version: a call that comes to no write, on a copy that is no
      longer stored, deletes pod 1, which no serial run of reconciles does, however long. */
  lemma WritesAreNotEnough(scope: Scope, w: World, p: Parent, r: Parent, n: nat)
    requires OlderSize(scope, w, p, r)
    ensures var s := System(w, [Some(r)]);
      && AllShaped(scope, s) && CoreMoves(Ctx(w, r), 0) == [CutAt(0, 2)]
      && ApplyAll(scope, s, [CutAt(0, 2)]).w.log == w.log + [Call(DeletePod, PodName(p, 1), true)]
    ensures var events := seq(n, _ => CoreRuns); StateAt(w, events, n) == w
  {
    CutsOlder(scope, w, p, r);
    SettledRests(scope, w, p, r);
    hide Core, OlderSize, ApplyAll, CoreMoves;
    RestsForGood(w, n, n);
  }

  lemma CutsOlder(scope: Scope, w: World, p: Parent, r: Parent)
    requires OlderSize(scope, w, p, r)
    ensures var s := System(w, [Some(r)]);
      && AllShaped(scope, s) && CoreMoves(Ctx(w, r), 0) == [CutAt(0, 2)]
      && ApplyAll(scope, s, [CutAt(0, 2)]).w.log == w.log + [Call(DeletePod, PodName(p, 1), true)]
  {
    var s, c := System(w, [Some(r)]), Ctx(w, r);
    assert PodName(r, 1) == p.pods[1].podName && PodName(r, 1) in w.pods;
    assert Shaped(scope, r) && GetIndex(r) == 2;
    assert WithCopy(s, 0, c) == s;
    OneMove(scope, s, 0, c, CutAt(0, 2));
  }

  lemma SettledRests(scope: Scope, w: World, p: Parent, r: Parent)
    requires OlderSize(scope, w, p, r)
    ensures ListsAgree(w) && Core(w) == w
  {
    assert GetIndex(p) == 2;
    assert forall i :: 0 <= i < 2 ==> !OutOfStep(w, p.pods[i]) && !NeedsPod(w, p.pods[i]);
    assert FirstOutOfStep(w, p.pods).None? && FirstNeedingPod(w, p.pods).None?;
  }

  lemma {:induction false} RestsForGood(w: World, n: nat, k: nat)
    requires ListsAgree(w) && Core(w) == w && k <= n
    ensures StateAt(w, seq(n, _ => CoreRuns), k) == w
  {
    hide Core;
    if k > 0 {
      RestsForGood(w, n, k - 1);
    }
  }

  lemma OlderSizeHappens() returns (w: World, p: Parent, r: Parent)
    ensures OlderSize(Scope("db", "data"), w, p, r)
  {
    hide Numeral, TemplatePod;
    p := SomeParent(2, 2, None);
    r := p.(version := 0, spec := p.spec.(size := 1));
    var a, b := UpPod(p, 0), UpPod(p, 1);
    w := SomeWorld(p, map[PodName(p, 0) := a, PodName(p, 1) := b], map[]);
    UpPodIsNamed(p, 0);
    UpPodIsNamed(p, 1);
    DashedInjective(p.name, 0, p.name, 1);
  }

  lemma UpPodIsNamed(p: Parent, i: nat)
    requires i <= 0x7fff_ffff
    ensures NamedByOwner(UpPod(p, i)) && UpPod(p, i).name == PodName(p, i) && UpPod(p, i).phase == Running
  {
    MadePodIsNamed(0, p, i);
  }

  // ----- so they converge -----

  /** The event or outside change that a convergence action is. */
  ghost function EventFor(w: World, a: Convergence.Action): Event {
    if w.stored.None? then Meanwhile(w)
    else
      var p := w.stored.value;
      match a
      case ReconcileParent => CoreRuns
      case ReconcilePod(i) =>
        if Convergence.PodAt(w, p, i).Some? then Event.PodEvent(Convergence.PodAt(w, p, i).value) else Meanwhile(w)
      case ReconcileClaim(i) =>
        if Convergence.ClaimAt(w, p, i).Some? then Event.ClaimEvent(Convergence.ClaimAt(w, p, i).value)
        else Meanwhile(w)
      case _ => Meanwhile(Convergence.Step(w, a))
  }

  /** In a good state it does just that. */
  lemma ActionIsEvent(w: World, p: Parent, a: Convergence.Action)
    requires w.stored == Some(p) && Convergence.Good(w, p)
    ensures Do(w, EventFor(w, a)) == Convergence.Step(w, a)
  {
    hide Core, MonitorPod, MonitorClaim;
    match a
    case ReconcilePod(i) =>
      if Convergence.PodAt(w, p, i).Some? {
        assert i < |p.pods| && Convergence.GoodSlot(w, p, i);
      }
    case ReconcileClaim(i) =>
      if Convergence.ClaimAt(w, p, i).Some? {
        assert i < |p.pods| && Convergence.GoodSlot(w, p, i);
      }
    case _ =>
  }

  ghost predicate IsEventOf(w: World, events: seq<Event>, k: nat, a: Convergence.Action)
    requires k < |events|
  {
    events[k] == EventFor(StateAt(w, events, k), a)
  }

  /** The events are those of the actions, taken in the states where they occur. */
  ghost predicate EventsOfActions(w: World, events: seq<Event>, acts: seq<Convergence.Action>) {
    |events| == |acts| && forall k: nat :: k < |events| ==> IsEventOf(w, events, k, acts[k])
  }

  lemma {:induction false} StatesOfActions(
    w: World, bound: nat, events: seq<Event>, acts: seq<Convergence.Action>, k: nat)
    requires Convergence.Inv(w, bound) && EventsOfActions(w, events, acts) && k <= |events|
    ensures StateAt(w, events, k) == FairRuns.Run(Convergence.Step, w, acts[..k])
    ensures Convergence.Inv(StateAt(w, events, k), bound)
  {
    hide Do, Convergence.Step, EventFor, Convergence.Good;
    if k > 0 {
      StatesOfActions(w, bound, events, acts, k - 1);
      var v := StateAt(w, events, k - 1);
      assert IsEventOf(w, events, k - 1, acts[k - 1]);
      ActionIsEvent(v, v.stored.value, acts[k - 1]);
      ConvergenceTheorem.StepNeverWorse(v, acts[k - 1], bound);
      assert acts[..k] == acts[..k - 1] + [acts[k - 1]];
      FairRuns.RunTwice(Convergence.Step, w, acts[..k - 1], [acts[k - 1]]);
      OneAction(v, acts[k - 1]);
    }
  }

  lemma OneAction(w: World, a: Convergence.Action)
    ensures FairRuns.Run(Convergence.Step, w, [a]) == Convergence.Step(w, a)
  {
    assert [a][1..] == [];
  }

  /** Any number of reconcilers whose calls are timely reach the requested size, as one does. */
  lemma TimelyRunsConverge(
    scope: Scope, s: System, items: seq<Item>, bound: nat, rounds: seq<seq<Convergence.Action>>)
    requires AllShaped(scope, s) && TimelyRun(scope, s, items)
    requires Convergence.Inv(s.w, bound) && EventsOfActions(s.w, EventsOf(items), FairRuns.Flat(rounds))
    requires ConvergenceTheorem.FairRounds(bound, rounds) && |rounds| >= 12 * bound + 6
    ensures var v := ItemsDone(scope, s, items).w;
      ConvergenceTheorem.Reached(v) && v.stored.value.spec.size == s.w.stored.value.spec.size
  {
    hide AllShaped, TimelyRun, ItemsDone, EventsOf, StateAt, History, Convergence.Inv, ConvergenceTheorem.FairRounds;
    hide ConvergenceTheorem.Reached, FairRuns.Flat, FairRuns.Run, FairRuns.RunRounds, Convergence.Step;
    var events, acts := EventsOf(items), FairRuns.Flat(rounds);
    TimelyRunsAreSerial(scope, s, items);
    StatesOfActions(s.w, bound, events, acts, |events|);
    assert acts[..|events|] == acts;
    FairRuns.RoundsAreOneRun(Convergence.Step, s.w, rounds);
    ConvergenceTheorem.Converges(s.w, bound, rounds);
  }
}
