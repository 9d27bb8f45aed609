// Growth, shrink and repair reach the requested size: fair runs of the reconciler and its cluster,
// with calls that succeed and a fixed size.
module Convergence {
  import opened Types
  import opened Api
  import opened PodControl
  import opened Controller

  // ----- the objects of slot i -----

  function PodAt(w: World, p: Parent, i: nat): Option<Pod> {
    if PodName(p, i) in w.pods then Some(w.pods[PodName(p, i)]) else None
  }

  function ClaimAt(w: World, p: Parent, i: nat): Option<Claim> {
    if p.spec.claimTemplate.Some? && ClaimName(p, i) in w.claims then Some(w.claims[ClaimName(p, i)]) else None
  }

  // ----- invariant -----

  predicate GoodPod(w: World, p: Parent, i: nat, pod: Pod) {
    && pod.name == PodName(p, i)
    && OwnerName(pod.annotations) == p.name
    && Ordinal(pod.annotations) == i
    && NodeReadyIn(w, pod.nodeName)
    && (!pod.terminating && !PodRunning(pod) ==> !Overdue(w, pod))
  }

  predicate GoodClaim(p: Parent, i: nat, claim: Claim) {
    OwnerName(claim.annotations) == p.name && Ordinal(claim.annotations) == i
  }

  /** A live pod has its live claim, and a claim on its way out has a pod on its way out. */
  predicate ClaimFollowsPod(pod: Option<Pod>, claim: Option<Claim>) {
    && (pod.Some? && !pod.value.terminating ==> claim.Some? && !claim.value.terminating)
    && (claim.Some? && claim.value.terminating ==> pod.Some?)
  }

  predicate GoodSlot(w: World, p: Parent, i: nat)
    requires i < |p.pods| == |p.claims|
  {
    var pod, claim := PodAt(w, p, i), ClaimAt(w, p, i);
    && p.pods[i].status != CreateTimeOut
    && (i >= p.spec.size || p.spec.claimTemplate.None? ==> p.claims[i].status != ClaimPending)
    && (pod.Some? ==> GoodPod(w, p, i, pod.value))
    && (claim.Some? ==> GoodClaim(p, i, claim.value))
    && (i < p.spec.size && p.spec.claimTemplate.Some? ==> ClaimFollowsPod(pod, claim))
  }

  ghost predicate NothingBeyond(w: World, p: Parent, n: nat) {
    forall i: nat :: i >= n ==> PodAt(w, p, i).None? && ClaimAt(w, p, i).None?
  }

  ghost predicate Good(w: World, p: Parent) {
    && WellFormed(p) && !p.deletionMarked
    && w.faults == {} && w.podTimeout > 0
    && NothingBeyond(w, p, |p.pods|)
    && forall i :: 0 <= i < |p.pods| ==> GoodSlot(w, p, i)
  }

  ghost predicate Inv(w: World, bound: nat) {
    && w.stored.Some? && Good(w, w.stored.value)
    && |w.stored.value.pods| <= bound && w.stored.value.spec.size <= bound
  }

  // ----- goal and measure -----

  function PodCost(pod: Option<Pod>, status: PodPhase): nat {
    if pod.None? then (if status == Deleting then 4 else 5)
    else if pod.value.terminating then 6
    else (if PodRunning(pod.value) then 0 else 2) + (if status == Running then 0 else 1)
  }

  function ClaimCost(template: bool, claim: Option<Claim>, status: ClaimPhase): nat {
    if !template then 0
    else if claim.None? then 4
    else if claim.value.terminating then 5
    else (if claim.value.phase == Bound then 0 else 2) + (if status == Bound then 0 else 1)
  }

  function PodWork(w: World, p: Parent, i: nat): nat
    requires i < |p.pods|
  {
    PodCost(PodAt(w, p, i), p.pods[i].status)
  }

  function ClaimWork(w: World, p: Parent, i: nat): nat
    requires i < |p.claims|
  {
    ClaimCost(p.spec.claimTemplate.Some?, ClaimAt(w, p, i), p.claims[i].status)
  }

  function Work(w: World, p: Parent, m: nat): nat
    requires m <= |p.pods| == |p.claims|
  {
    if m == 0 then 0 else Work(w, p, m - 1) + PodWork(w, p, m - 1) + ClaimWork(w, p, m - 1)
  }

  function TailPod(w: World, p: Parent): nat {
    if |p.pods| <= p.spec.size then 0
    else var pod := PodAt(w, p, |p.pods| - 1);
      if pod.None? then 0 else if pod.value.terminating then 1 else 2
  }

  function TailClaim(w: World, p: Parent): nat {
    if |p.pods| <= p.spec.size then 0
    else var claim := ClaimAt(w, p, |p.pods| - 1);
      if claim.None? then 0 else if claim.value.terminating then 1 else 2
  }

  function Distance(p: Parent): nat {
    if |p.pods| < p.spec.size then p.spec.size - |p.pods| else |p.pods| - p.spec.size
  }

  function ServiceWork(w: World, p: Parent): nat {
    if p.spec.hasService && ServiceName(p) !in w.services then 1 else 0
  }

  function FinalizerWork(p: Parent): nat {
    if GROUP_VERSION in p.finalizers then 0 else 1
  }

  function Kept(p: Parent): nat {
    if |p.pods| < p.spec.size then |p.pods| else p.spec.size
  }

  function Total(w: World, p: Parent): nat
    requires |p.pods| == |p.claims|
  {
    12 * Distance(p) + Work(w, p, Kept(p)) + TailPod(w, p) + TailClaim(w, p)
      + ServiceWork(w, p) + FinalizerWork(p)
  }

  /** The requested size, with every slot Running on a ready pod and every claim Bound (or absent by
      design), and the finalizer in place. */
  ghost predicate Settled(w: World, p: Parent)
    requires |p.pods| == |p.claims|
  {
    && |p.pods| == p.spec.size
    && (forall i :: 0 <= i < |p.pods| ==> PodWork(w, p, i) == 0 && ClaimWork(w, p, i) == 0)
    && GROUP_VERSION in p.finalizers
  }

  // ----- actions -----

  datatype Action =
    | ReconcileParent
    | ReconcilePod(i: nat)
    | ReconcileClaim(i: nat)
    | PodStarts(i: nat)
    | PodVanishes(i: nat)
    | ClaimBinds(i: nat)
    | ClaimVanishes(i: nat)
    | TimePasses(d: nat)

  function ReadyPod(pod: Pod): Pod {
    pod.(phase := Running, conditions := [PodCondition(true, true)])
  }

  function BoundClaim(claim: Claim): Claim {
    claim.(phase := Bound, volumeName := if claim.volumeName == "" then "pv-" + claim.name else claim.volumeName)
  }

  /** A pod starts once it is live and its claim, if it has one, is bound. */
  predicate CanStart(w: World, p: Parent, i: nat) {
    var pod, claim := PodAt(w, p, i), ClaimAt(w, p, i);
    && pod.Some? && !pod.value.terminating
    && (p.spec.claimTemplate.Some? ==> claim.Some? && claim.value.phase == Bound)
  }

  /** A terminating pod vanishes no earlier than a claim of its that is terminating too. */
  predicate CanVanish(w: World, p: Parent, i: nat) {
    var pod, claim := PodAt(w, p, i), ClaimAt(w, p, i);
    pod.Some? && pod.value.terminating && (claim.Some? ==> !claim.value.terminating)
  }

  /** Time may pass as long as no live pod misses its deadline and no pod's node is lost. */
  ghost predicate InTime(w: World, p: Parent) {
    forall i :: 0 <= i < |p.pods| && PodAt(w, p, i).Some? ==> GoodPod(w, p, i, PodAt(w, p, i).value)
  }

  function PodReconciled(w: World, p: Parent, i: nat): World
    requires ListsAgree(w)
  {
    var pod := PodAt(w, p, i);
    if pod.Some? && Ordinal(pod.value.annotations) >= 0 then MonitorPod(w, pod.value) else w
  }

  function ClaimReconciled(w: World, p: Parent, i: nat): World
    requires ListsAgree(w)
  {
    var claim := ClaimAt(w, p, i);
    if claim.Some? && Ordinal(claim.value.annotations) >= 0 then MonitorClaim(w, claim.value) else w
  }

  function PodStarted(w: World, p: Parent, i: nat): World {
    if CanStart(w, p, i) then w.(pods := w.pods[PodName(p, i) := ReadyPod(PodAt(w, p, i).value)]) else w
  }

  function PodGone(w: World, p: Parent, i: nat): World {
    if CanVanish(w, p, i) then w.(pods := w.pods - {PodName(p, i)}) else w
  }

  function ClaimBound(w: World, p: Parent, i: nat): World {
    var claim := ClaimAt(w, p, i);
    if claim.Some? && !claim.value.terminating
    then w.(claims := w.claims[ClaimName(p, i) := BoundClaim(claim.value)]) else w
  }

  function ClaimGone(w: World, p: Parent, i: nat): World {
    var claim := ClaimAt(w, p, i);
    if claim.Some? && claim.value.terminating then w.(claims := w.claims - {ClaimName(p, i)}) else w
  }

  ghost function Later(w: World, p: Parent, d: nat): World {
    var later := w.(now := w.now + d);
    if InTime(later, p) then later else w
  }

  ghost function Act(w: World, p: Parent, a: Action): World
    requires w.stored == Some(p) && |p.pods| == |p.claims|
  {
    match a
    case ReconcileParent => Core(w)
    case ReconcilePod(i) => PodReconciled(w, p, i)
    case ReconcileClaim(i) => ClaimReconciled(w, p, i)
    case PodStarts(i) => PodStarted(w, p, i)
    case PodVanishes(i) => PodGone(w, p, i)
    case ClaimBinds(i) => ClaimBound(w, p, i)
    case ClaimVanishes(i) => ClaimGone(w, p, i)
    case TimePasses(d) => Later(w, p, d)
  }

  ghost function Step(w: World, a: Action): World {
    if w.stored.Some? && |w.stored.value.pods| == |w.stored.value.claims|
    then Act(w, w.stored.value, a) else w
  }

  // ----- which action helps -----

  function SlotHelp(podWork: nat, claimWork: nat, i: nat): Option<Action> {
    if claimWork == 5 then Some(ClaimVanishes(i))
    else if podWork == 6 then Some(PodVanishes(i))
    else if claimWork == 2 || claimWork == 3 then Some(ClaimBinds(i))
    else if claimWork == 1 then Some(ReconcileClaim(i))
    else if podWork == 2 || podWork == 3 then Some(PodStarts(i))
    else if podWork == 1 then Some(ReconcilePod(i))
    else None
  }

  /** The action some slot below m waits for, or the parent's own reconcile. */
  function FirstHelp(w: World, p: Parent, m: nat): Action
    requires m <= |p.pods| == |p.claims|
  {
    if m == 0 then ReconcileParent
    else
      var h := SlotHelp(PodWork(w, p, m - 1), ClaimWork(w, p, m - 1), m - 1);
      if h.Some? then h.value else FirstHelp(w, p, m - 1)
  }

  function HelpFor(w: World, p: Parent): Action
    requires |p.pods| == |p.claims|
  {
    if |p.pods| > p.spec.size then
      if TailClaim(w, p) == 1 then ClaimVanishes(|p.pods| - 1)
      else if TailPod(w, p) == 1 then PodVanishes(|p.pods| - 1)
      else ReconcileParent
    else FirstHelp(w, p, |p.pods|)
  }

  // ----- comparing two worlds slot by slot -----

  /** Nothing is further from its goal than before, slot by slot. */
  ghost predicate NoFurther(w: World, p: Parent, v: World, q: Parent)
    requires |p.pods| == |p.claims|
  {
    && |q.pods| == |q.claims| == |p.pods| && q.spec.size == p.spec.size
    && (forall i :: 0 <= i < Kept(p) ==>
          PodWork(v, q, i) <= PodWork(w, p, i) && ClaimWork(v, q, i) <= ClaimWork(w, p, i))
    && TailPod(v, q) <= TailPod(w, p) && TailClaim(v, q) <= TailClaim(w, p)
    && ServiceWork(v, q) <= ServiceWork(w, p) && FinalizerWork(q) <= FinalizerWork(p)
  }

  lemma {:induction false} WorkMonotone(w: World, p: Parent, v: World, q: Parent, m: nat)
    requires |p.pods| == |p.claims| && NoFurther(w, p, v, q) && m <= Kept(p)
    ensures Work(v, q, m) <= Work(w, p, m)
    ensures Work(v, q, m) == Work(w, p, m) ==> forall i :: 0 <= i < m ==>
      PodWork(v, q, i) == PodWork(w, p, i) && ClaimWork(v, q, i) == ClaimWork(w, p, i)
  {
    if m > 0 {
      WorkMonotone(w, p, v, q, m - 1);
    }
  }

  lemma {:induction false} FirstHelpStable(w: World, p: Parent, v: World, q: Parent, m: nat)
    requires m <= |p.pods| == |p.claims| && m <= |q.pods| == |q.claims|
    requires forall i :: 0 <= i < m ==>
      PodWork(v, q, i) == PodWork(w, p, i) && ClaimWork(v, q, i) == ClaimWork(w, p, i)
    ensures FirstHelp(v, q, m) == FirstHelp(w, p, m)
  {
    if m > 0 {
      FirstHelpStable(w, p, v, q, m - 1);
    }
  }

  lemma NoFurtherTotal(w: World, p: Parent, v: World, q: Parent)
    requires |p.pods| == |p.claims| && NoFurther(w, p, v, q)
    ensures Total(v, q) <= Total(w, p)
    ensures Settled(w, p) ==> Settled(v, q)
    ensures Total(v, q) == Total(w, p) ==> HelpFor(v, q) == HelpFor(w, p)
  {
    WorkMonotone(w, p, v, q, Kept(p));
    if Total(v, q) == Total(w, p) && |p.pods| <= p.spec.size {
      FirstHelpStable(w, p, v, q, |p.pods|);
    }
  }

  /** ... and strictly nearer somewhere. */
  ghost predicate Nearer(w: World, p: Parent, v: World, q: Parent)
    requires |p.pods| == |p.claims| && NoFurther(w, p, v, q)
  {
    || (exists i :: 0 <= i < Kept(p) &&
          PodWork(v, q, i) + ClaimWork(v, q, i) < PodWork(w, p, i) + ClaimWork(w, p, i))
    || TailPod(v, q) + TailClaim(v, q) < TailPod(w, p) + TailClaim(w, p)
    || ServiceWork(v, q) < ServiceWork(w, p) || FinalizerWork(q) < FinalizerWork(p)
  }

  lemma NearerTotal(w: World, p: Parent, v: World, q: Parent)
    requires |p.pods| == |p.claims| && NoFurther(w, p, v, q) && Nearer(w, p, v, q)
    ensures Total(v, q) < Total(w, p)
  {
    WorkMonotone(w, p, v, q, Kept(p));
  }

  lemma {:induction false} WorkBounded(w: World, p: Parent, m: nat)
    requires m <= |p.pods| == |p.claims|
    ensures Work(w, p, m) <= 11 * m
  {
    if m > 0 {
      WorkBounded(w, p, m - 1);
    }
  }

  // ----- a change at one slot -----

  /** The objects of all slots but i, and all that decides what they mean, are the same. */
  ghost predicate SameElsewhere(w: World, p: Parent, v: World, q: Parent, i: nat) {
    && v.nodes == w.nodes && v.now == w.now && v.podTimeout == w.podTimeout
    && v.nodeTimeout == w.nodeTimeout && v.faults == w.faults && v.services == w.services
    && q.name == p.name && q.deletionMarked == p.deletionMarked && q.finalizers == p.finalizers
    && q.spec.size == p.spec.size && q.spec.hasService == p.spec.hasService
    && q.spec.claimTemplate.Some? == p.spec.claimTemplate.Some? && ClaimBase(q) == ClaimBase(p)
    && (forall j: nat :: j != i ==> PodAt(v, q, j) == PodAt(w, p, j) && ClaimAt(v, q, j) == ClaimAt(w, p, j))
  }

  /** v, q differ from w, p at slot i at most. */
  ghost predicate ChangedAt(w: World, p: Parent, v: World, q: Parent, i: nat) {
    && SameElsewhere(w, p, v, q, i)
    && |q.pods| == |p.pods| && |q.claims| == |p.claims|
    && (forall j :: 0 <= j < |p.pods| && j != i ==> q.pods[j] == p.pods[j])
    && (forall j :: 0 <= j < |p.claims| && j != i ==> q.claims[j] == p.claims[j])
  }

  ghost predicate InLine(p: Parent, i: nat)
    requires i < |p.pods| == |p.claims|
  {
    && p.pods[i].index == i && p.pods[i].podName == PodName(p, i)
    && p.claims[i].index == i && p.claims[i].claimName in {ClaimName(p, i), "none"}
  }

  /** If the changed slot is good and no further from its goal, so is the whole. */
  lemma OneSlot(w: World, p: Parent, v: World, q: Parent, i: nat)
    requires Good(w, p) && i < |p.pods|
    requires ChangedAt(w, p, v, q, i) && InLine(q, i) && GoodSlot(v, q, i)
    requires i < p.spec.size ==> PodWork(v, q, i) <= PodWork(w, p, i) && ClaimWork(v, q, i) <= ClaimWork(w, p, i)
    requires i >= p.spec.size && i == |p.pods| - 1 ==>
      TailPod(v, q) <= TailPod(w, p) && TailClaim(v, q) <= TailClaim(w, p)
    ensures Good(v, q) && NoFurther(w, p, v, q)
  {
    forall j | 0 <= j < |q.pods| ensures GoodSlot(v, q, j) && InLine(q, j) {
      assert GoodSlot(w, p, j);
    }
  }
}
