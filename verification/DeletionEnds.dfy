// Deletion terminates: fair runs of a marked parent lose the controller's finalizer, whatever calls
// fail, whichever claims still bind, and whatever time, nodes and pods do.
module DeletionEnds {
  import opened Tools
  import opened Types
  import opened Api
  import opened PodControl
  import opened ClaimControl
  import opened Controller
  import opened VolumeControl
  import opened Deletion
  import opened FairRuns
  import opened Workers
  import Convergence

  // ----- sums and searches over slots -----

  ghost function Sum(f: nat -> nat, n: nat): nat {
    if n == 0 then 0 else Sum(f, n - 1) + f(n - 1)
  }

  /** The least number below n where f has the value x, or n. */
  ghost function First(f: nat -> nat, x: nat, n: nat): (r: nat)
    ensures r <= n && (r < n ==> f(r) == x)
    ensures forall i: nat :: i < r ==> f(i) != x
  {
    if n == 0 then 0
    else
      var r := First(f, x, n - 1);
      if r < n - 1 || f(n - 1) == x then r else n
  }

  lemma {:induction false} SumFalls(f: nat -> nat, g: nat -> nat, n: nat)
    requires forall i: nat :: i < n ==> g(i) <= f(i)
    ensures Sum(g, n) <= Sum(f, n)
    ensures Sum(g, n) == Sum(f, n) ==> forall i: nat :: i < n ==> g(i) == f(i)
  {
    if n > 0 {
      SumFalls(f, g, n - 1);
    }
  }

  lemma FirstSame(f: nat -> nat, g: nat -> nat, x: nat, n: nat)
    requires forall i: nat :: i < n ==> g(i) == f(i)
    ensures First(g, x, n) == First(f, x, n)
  {
    var a, b := First(f, x, n), First(g, x, n);
    assert a < n ==> g(a) == x;
    assert b < n ==> f(b) == x;
  }

  // ----- how far slot i's objects are from gone -----

  ghost function PodLeft(w: World, p: Parent): nat -> nat {
    (i: nat) =>
      if i >= |p.pods| || p.pods[i].podName !in w.pods then 0
      else if w.pods[p.pods[i].podName].terminating then 1 else 2
  }

  ghost function ClaimLeft(w: World, p: Parent): nat -> nat {
    (i: nat) =>
      if i >= |p.claims| || p.claims[i].claimName !in w.claims then 0
      else if w.claims[p.claims[i].claimName].terminating then 1 else 2
  }

  ghost function ToRetain(w: World, p: Parent): nat -> nat {
    (i: nat) => if p.spec.policy != Retain || i >= |p.claims| || RetainCounts(w, p.claims[i].volumeName) then 0 else 1
  }

  /** 2 for a redis slave's volume, which only the cluster can remove; 1 for one to be freed. */
  ghost function ToFree(w: World, p: Parent): nat -> nat {
    (i: nat) =>
      if p.spec.policy != Retain || i >= |p.claims| || AvailableCounts(w, p.claims[i].volumeName) then 0
      else if Redis(w.volumes[p.claims[i].volumeName]) then 2 else 1
  }

  /** 4 for a live claim of slot i that is not bound, or bound to a volume the slot does not record: once
      it is recorded, its volume may have to be retained and freed. */
  ghost function Unrecorded(w: World, p: Parent): nat -> nat {
    (i: nat) =>
      var claim := Convergence.ClaimAt(w, p, i);
      if i >= |p.claims| || claim.None? || claim.value.terminating then 0
      else if claim.value.phase == Bound && p.claims[i].volumeName == claim.value.volumeName then 0 else 4
  }

  // ----- invariant, goal, measure -----

  /** A pod that stands under the name of slot i, and is this parent's only as pod i. One thing alone can
      stop the deletion: a live pod of the last slot that runs out of time before it is ready. */
  predicate PodBehaves(w: World, p: Parent, i: nat, pod: Pod)
    requires i < |p.pods|
  {
    && pod.name == p.pods[i].podName
    && (OwnerName(pod.annotations) == p.name ==>
          && Ordinal(pod.annotations) == i
          && (i == |p.pods| - 1 && !pod.terminating && NodeReadyIn(w, pod.nodeName) && !PodRunning(pod) ==>
                !Overdue(w, pod)))
  }

  /** A claim that stands under the name of slot i is this parent's only as claim i. */
  predicate ClaimBehaves(p: Parent, i: nat, claim: Claim) {
    OwnerName(claim.annotations) == p.name ==> Ordinal(claim.annotations) == i
  }

  ghost predicate Deletes(w: World, p: Parent) {
    && p.deletionMarked && WellFormed(p) && |p.pods| == p.spec.size == GetIndex(p)
    && Count(p.finalizers, GROUP_VERSION) == 1
    && (forall i :: 0 <= i < |p.pods| && p.pods[i].podName in w.pods ==>
          PodBehaves(w, p, i, w.pods[p.pods[i].podName]))
    && (forall i: nat :: i < |p.claims| && Convergence.ClaimAt(w, p, i).Some? ==>
          ClaimBehaves(p, i, Convergence.ClaimAt(w, p, i).value))
  }

  ghost predicate Over(w: World) {
    w.stored.None? || GROUP_VERSION !in w.stored.value.finalizers
  }

  ghost predicate Inv(w: World, bound: nat) {
    && (w.stored.Some? ==> |w.stored.value.pods| == |w.stored.value.claims|)
    && (Over(w) || (Deletes(w, w.stored.value) && |w.stored.value.pods| <= bound))
  }

  ghost function Left(w: World, p: Parent): nat {
    var n := |p.claims|;
    1 + Sum(ToRetain(w, p), n) + Sum(PodLeft(w, p), n) + Sum(ClaimLeft(w, p), n) + Sum(ToFree(w, p), n)
      + Sum(Unrecorded(w, p), n) + |FaultsAhead(w.faults, |w.log|)|
  }

  ghost function Measure(w: World): nat {
    if Over(w) then 0 else Left(w, w.stored.value)
  }

  // ----- actions -----

  datatype Action =
    | ReconcileParent
    | ReconcilePod(i: nat)
    | ReconcileClaim(i: nat)
    | PodVanishes(i: nat)
    | ClaimVanishes(i: nat)
    | SlaveVolumeVanishes(i: nat)
    | Meanwhile(v: World)

  function PodReconciled(w: World, p: Parent, i: nat): World
    requires ListsAgree(w)
  {
    if i < |p.pods| && p.pods[i].podName in w.pods && Ordinal(w.pods[p.pods[i].podName].annotations) >= 0
    then MonitorPod(w, w.pods[p.pods[i].podName]) else w
  }

  function ClaimReconciled(w: World, p: Parent, i: nat): World
    requires ListsAgree(w)
  {
    var claim := Convergence.ClaimAt(w, p, i);
    if i < |p.claims| && claim.Some? && Ordinal(claim.value.annotations) >= 0 then MonitorClaim(w, claim.value) else w
  }

  predicate PodLeaving(w: World, p: Parent, i: nat) {
    i < |p.pods| && p.pods[i].podName in w.pods && w.pods[p.pods[i].podName].terminating
  }

  predicate ClaimLeaving(w: World, p: Parent, i: nat) {
    i < |p.claims| && p.claims[i].claimName in w.claims && w.claims[p.claims[i].claimName].terminating
  }

  predicate SlaveVolume(w: World, p: Parent, i: nat) {
    && p.spec.policy == Retain && i < |p.claims| && p.claims[i].volumeName in w.volumes
    && Redis(w.volumes[p.claims[i].volumeName])
  }

  function PodGone(w: World, p: Parent, i: nat): World {
    if PodLeaving(w, p, i) then w.(pods := w.pods - {p.pods[i].podName}) else w
  }

  function ClaimGone(w: World, p: Parent, i: nat): World {
    if ClaimLeaving(w, p, i) then w.(claims := w.claims - {p.claims[i].claimName}) else w
  }

  function VolumeGone(w: World, p: Parent, i: nat): World {
    if SlaveVolume(w, p, i) then w.(volumes := w.volumes - {p.claims[i].volumeName}) else w
  }

  /** The same claim later: a deletion is not taken back, and a live claim keeps its volume once bound. */
  predicate ClaimOlder(was: Claim, claim: Claim) {
    && (was.terminating ==> claim.terminating)
    && (!claim.terminating && was.phase == Bound ==> claim.phase == Bound && claim.volumeName == was.volumeName)
  }

  /** Of the objects of p's slots none is made or revived between w and v, and no recorded volume loses
      its policy or is bound again. They may vanish or change in any other way, claims may bind, and all
      other objects, the nodes and the clock are free. */
  ghost predicate ObjectsOnlyGo(w: World, p: Parent, v: World, q: Parent)
    requires |p.pods| == |p.claims| == |q.pods| == |q.claims|
  {
    && (forall i :: 0 <= i < |p.pods| && p.pods[i].podName in v.pods ==>
          && p.pods[i].podName in w.pods
          && (w.pods[p.pods[i].podName].terminating ==> v.pods[p.pods[i].podName].terminating)
          && PodBehaves(v, q, i, v.pods[p.pods[i].podName]))
    && (forall i :: 0 <= i < |p.claims| && p.claims[i].claimName in v.claims ==>
          && p.claims[i].claimName in w.claims
          && (w.claims[p.claims[i].claimName].terminating ==> v.claims[p.claims[i].claimName].terminating))
    && (forall i: nat :: i < |p.claims| && Convergence.ClaimAt(v, q, i).Some? ==>
          && ClaimBehaves(q, i, Convergence.ClaimAt(v, q, i).value)
          && Convergence.ClaimAt(w, p, i).Some?
          && ClaimOlder(Convergence.ClaimAt(w, p, i).value, Convergence.ClaimAt(v, q, i).value))
    && (forall i :: 0 <= i < |p.claims| ==> VolumeOnlyGoes(w, v, p.claims[i].volumeName))
  }

  predicate VolumeOnlyGoes(w: World, v: World, name: string) {
    && (RetainCounts(w, name) ==> RetainCounts(v, name))
    && (AvailableCounts(w, name) ==> AvailableCounts(v, name))
    && (name in v.volumes && Redis(v.volumes[name]) ==> name in w.volumes && Redis(w.volumes[name]))
  }

  /** The user may edit the marked parent, but not its name, size, policy, status or the controller's
      finalizer; or take it away altogether. */
  predicate UserLeaves(p: Parent, q: Parent) {
    && q.deletionMarked && q.name == p.name && ClaimBase(q) == ClaimBase(p)
    && q.spec.size == p.spec.size && q.spec.policy == p.spec.policy
    && q.pods == p.pods && q.claims == p.claims && Count(q.finalizers, GROUP_VERSION) == 1
  }

  ghost predicate MayHappen(w: World, p: Parent, v: World)
    requires |p.pods| == |p.claims|
  {
    v.stored.None? ||
    (v.faults == w.faults && v.log == w.log
      && UserLeaves(p, v.stored.value) && ObjectsOnlyGo(w, p, v, v.stored.value))
  }

  ghost function Act(w: World, p: Parent, a: Action): World
    requires w.stored == Some(p) && |p.pods| == |p.claims|
  {
    match a
    case ReconcileParent => Core(w)
    case ReconcilePod(i) => PodReconciled(w, p, i)
    case ReconcileClaim(i) => ClaimReconciled(w, p, i)
    case PodVanishes(i) => PodGone(w, p, i)
    case ClaimVanishes(i) => ClaimGone(w, p, i)
    case SlaveVolumeVanishes(i) => VolumeGone(w, p, i)
    case Meanwhile(v) => if MayHappen(w, p, v) then v else w
  }

  ghost function Step(w: World, a: Action): World {
    if w.stored.Some? && |w.stored.value.pods| == |w.stored.value.claims| && !Over(w)
    then Act(w, w.stored.value, a) else w
  }

  ghost function HelpFor(w: World, p: Parent): Action {
    var n := |p.claims|;
    if First(ToRetain(w, p), 1, n) < n then ReconcileParent
    else if First(PodLeft(w, p), 2, n) < n then ReconcileParent
    else if First(PodLeft(w, p), 1, n) < n then PodVanishes(First(PodLeft(w, p), 1, n))
    else if First(ClaimLeft(w, p), 2, n) < n then ReconcileParent
    else if First(ClaimLeft(w, p), 1, n) < n then ClaimVanishes(First(ClaimLeft(w, p), 1, n))
    else if First(ToFree(w, p), 2, n) < n then SlaveVolumeVanishes(First(ToFree(w, p), 2, n))
    else ReconcileParent
  }

  ghost function Help(w: World): Action {
    if Over(w) then ReconcileParent else HelpFor(w, w.stored.value)
  }

  ghost function FairActions(bound: nat): set<Action> {
    {ReconcileParent}
    + (set i: nat | i < bound :: PodVanishes(i)) + (set i: nat | i < bound :: ClaimVanishes(i))
    + (set i: nat | i < bound :: SlaveVolumeVanishes(i))
  }

  // ----- comparing -----

  ghost predicate NoFurther(w: World, p: Parent, v: World, q: Parent) {
    && |q.claims| == |p.claims| && v.faults == w.faults && |v.log| >= |w.log|
    && forall i: nat :: i < |p.claims| ==>
      && ToRetain(v, q)(i) <= ToRetain(w, p)(i) && PodLeft(v, q)(i) <= PodLeft(w, p)(i)
      && ClaimLeft(v, q)(i) <= ClaimLeft(w, p)(i) && ToFree(v, q)(i) <= ToFree(w, p)(i)
      && Unrecorded(v, q)(i) <= Unrecorded(w, p)(i)
  }

  ghost predicate Nearer(w: World, p: Parent, v: World, q: Parent, i: nat) {
    i < |p.claims| &&
    ToRetain(v, q)(i) + PodLeft(v, q)(i) + ClaimLeft(v, q)(i) + ToFree(v, q)(i)
      < ToRetain(w, p)(i) + PodLeft(w, p)(i) + ClaimLeft(w, p)(i) + ToFree(w, p)(i)
  }

  /** A call made between w and v was one of those that fail. */
  ghost predicate FaultUsed(w: World, v: World) {
    exists n: nat :: |w.log| <= n < |v.log| && n in w.faults
  }

  lemma SameHelp(w: World, p: Parent, v: World, q: Parent)
    requires |q.claims| == |p.claims|
    requires forall i: nat :: i < |p.claims| ==>
      && ToRetain(v, q)(i) == ToRetain(w, p)(i) && PodLeft(v, q)(i) == PodLeft(w, p)(i)
      && ClaimLeft(v, q)(i) == ClaimLeft(w, p)(i) && ToFree(v, q)(i) == ToFree(w, p)(i)
    ensures HelpFor(v, q) == HelpFor(w, p)
  {
    var n := |p.claims|;
    FirstSame(ToRetain(w, p), ToRetain(v, q), 1, n);
    FirstSame(PodLeft(w, p), PodLeft(v, q), 2, n);
    FirstSame(PodLeft(w, p), PodLeft(v, q), 1, n);
    FirstSame(ClaimLeft(w, p), ClaimLeft(v, q), 2, n);
    FirstSame(ClaimLeft(w, p), ClaimLeft(v, q), 1, n);
    FirstSame(ToFree(w, p), ToFree(v, q), 2, n);
  }

  lemma FaultsFall(faults: set<nat>, m: nat, n: nat)
    requires m <= n
    ensures |FaultsAhead(faults, n)| <= |FaultsAhead(faults, m)|
    ensures (exists k: nat :: m <= k < n && k in faults) ==> |FaultsAhead(faults, n)| < |FaultsAhead(faults, m)|
  {
    var a, b := FaultsAhead(faults, m), FaultsAhead(faults, n);
    SubsetSize(b, a);
    if k: nat :| m <= k < n && k in faults {
      SubsetSize(b, a - {k});
    }
  }

  lemma {:induction false} SubsetSize(a: set<nat>, b: set<nat>)
    requires a <= b
    ensures |a| <= |b|
  {
    if x :| x in a {
      SubsetSize(a - {x}, b - {x});
    }
  }

  lemma NoFurtherLeft(w: World, p: Parent, v: World, q: Parent)
    requires NoFurther(w, p, v, q)
    ensures Left(v, q) <= Left(w, p)
    ensures Left(v, q) == Left(w, p) ==> HelpFor(v, q) == HelpFor(w, p)
    ensures Left(v, q) == Left(w, p) ==> !FaultUsed(w, v) && forall i: nat :: !Nearer(w, p, v, q, i)
  {
    hide FaultsAhead;
    var n := |p.claims|;
    SumFalls(ToRetain(w, p), ToRetain(v, q), n);
    SumFalls(PodLeft(w, p), PodLeft(v, q), n);
    SumFalls(ClaimLeft(w, p), ClaimLeft(v, q), n);
    SumFalls(ToFree(w, p), ToFree(v, q), n);
    SumFalls(Unrecorded(w, p), Unrecorded(v, q), n);
    FaultsFall(w.faults, |w.log|, |v.log|);
    if Left(v, q) == Left(w, p) {
      SameHelp(w, p, v, q);
    }
  }

  ghost predicate Fine(w: World, p: Parent, v: World) {
    || (Over(v) && Inv(v, 0))
    || (v.stored.Some? && Deletes(v, v.stored.value) && |v.stored.value.pods| == |p.pods|
        && (NoFurther(w, p, v, v.stored.value) || Left(v, v.stored.value) < Left(w, p)))
  }

  /** The slots keep their names, and no state is recorded that would stop the deletion. */
  ghost predicate SlotsRecorded(p: Parent, q: Parent) {
    && q.deletionMarked && q.name == p.name && ClaimBase(q) == ClaimBase(p)
    && q.spec.size == p.spec.size && q.spec.policy == p.spec.policy && Count(q.finalizers, GROUP_VERSION) == 1
    && |q.pods| == |p.pods| && |q.claims| == |p.claims|
    && (forall j :: 0 <= j < |p.pods| ==>
          && q.pods[j].podName == p.pods[j].podName && q.pods[j].index == p.pods[j].index
          && (q.pods[j].status == p.pods[j].status || q.pods[j].status in {Deleting, Running}
              || (q.pods[j].status == CreateTimeOut && j < |p.pods| - 1)))
    && (forall j :: 0 <= j < |p.claims| ==>
          && q.claims[j].claimName == p.claims[j].claimName && q.claims[j].index == p.claims[j].index
          && (q.claims[j].status == p.claims[j].status || q.claims[j].status in {ClaimDeleting, Bound}))
  }

  ghost predicate SameVolumes(p: Parent, q: Parent)
    requires |q.claims| == |p.claims|
  {
    forall j :: 0 <= j < |p.claims| ==> q.claims[j].volumeName == p.claims[j].volumeName
  }

  ghost predicate AllBehave(v: World, q: Parent)
    requires |q.pods| == |q.claims|
  {
    && (forall i :: 0 <= i < |q.pods| && q.pods[i].podName in v.pods ==>
          PodBehaves(v, q, i, v.pods[q.pods[i].podName]))
    && (forall i: nat :: i < |q.claims| && Convergence.ClaimAt(v, q, i).Some? ==>
          ClaimBehaves(q, i, Convergence.ClaimAt(v, q, i).value))
  }

  lemma StillDeletes(p: Parent, w: World, v: World, q: Parent)
    requires Deletes(w, p) && SlotsRecorded(p, q) && AllBehave(v, q)
    ensures Deletes(v, q)
  {
    hide PodBehaves, ClaimBehaves;
    assert WellFormed(q);
    assert GetIndex(q) == |q.pods|;
  }

  /** Fewer objects, and slots that record no obstacle: the invariant stays and nothing is further off. */
  lemma OnlyGoes(w: World, p: Parent, v: World, q: Parent)
    requires Deletes(w, p) && SlotsRecorded(p, q) && SameVolumes(p, q) && ObjectsOnlyGo(w, p, v, q)
    requires v.faults == w.faults && |v.log| >= |w.log|
    ensures Deletes(v, q) && NoFurther(w, p, v, q)
  {
    StillDeletes(p, w, v, q);
    hide Deletes, PodBehaves, ClaimBehaves;
    forall i: nat | i < |p.claims|
      ensures ToRetain(v, q)(i) <= ToRetain(w, p)(i) && ToFree(v, q)(i) <= ToFree(w, p)(i)
      ensures PodLeft(v, q)(i) <= PodLeft(w, p)(i) && ClaimLeft(v, q)(i) <= ClaimLeft(w, p)(i)
      ensures Unrecorded(v, q)(i) <= Unrecorded(w, p)(i)
    {
      SlotOnlyGoes(w, p, v, q, i);
    }
    hide SlotsRecorded, ObjectsOnlyGo, ToRetain, ToFree, PodLeft, ClaimLeft, Unrecorded;
  }

  lemma SlotOnlyGoes(w: World, p: Parent, v: World, q: Parent, i: nat)
    requires Deletes(w, p) && SlotsRecorded(p, q) && SameVolumes(p, q) && ObjectsOnlyGo(w, p, v, q) && i < |p.claims|
    ensures ToRetain(v, q)(i) <= ToRetain(w, p)(i) && ToFree(v, q)(i) <= ToFree(w, p)(i)
    ensures PodLeft(v, q)(i) <= PodLeft(w, p)(i) && ClaimLeft(v, q)(i) <= ClaimLeft(w, p)(i)
    ensures Unrecorded(v, q)(i) <= Unrecorded(w, p)(i)
  {
    assert |p.pods| == |p.claims|;
    hide PodBehaves, ClaimBehaves, Redis, Deletes, Dashed;
    assert VolumeOnlyGoes(w, v, p.claims[i].volumeName);
  }

  lemma SameRecorded(w: World, p: Parent)
    requires Deletes(w, p)
    ensures SlotsRecorded(p, p) && SameVolumes(p, p)
  {
  }

  // ----- what the loops do: everything, or they use up a failing call -----

  lemma {:induction false} RetainLoopAll(w: World, slots: seq<ClaimSlot>, k: nat, sum: nat)
    requires k <= |slots|
    ensures var (v, r) := RetainFrom(w, slots, k, sum);
      && v.volumes.Keys == w.volumes.Keys
      && (forall n :: n in w.volumes ==> v.volumes[n] in {w.volumes[n], Retained(w.volumes[n])})
      && (FaultUsed(w, v) || AllRetained(v, slots, k))
    decreases |slots| - k
  {
    hide FaultUsed;
    if k < |slots| {
      var name := slots[k].volumeName;
      if RetainCounts(w, name) {
        RetainLoopAll(w, slots, k + 1, sum + 1);
      } else {
        var (w1, ok) := UpdateVolumeIn(w, name, Retained(w.volumes[name]));
        if ok {
          RetainLoopAll(w1, slots, k + 1, sum);
        }
        FaultStep(w, w1, RetainFrom(w, slots, k, sum).0, ok);
      }
    }
  }

  /** A failed call uses up a fault, and so does one that a later call used up. */
  lemma FaultStep(w: World, w1: World, v: World, ok: bool)
    requires |w1.log| == |w.log| + 1 && w1.faults == w.faults
    requires !ok ==> |w.log| in w.faults && v == w1
    ensures !ok || FaultUsed(w1, v) ==> FaultUsed(w, v)
  {
    if !ok {
      assert |w.log| in w.faults;
    }
  }

  lemma {:induction false} FreeLoopAll(w: World, slots: seq<ClaimSlot>, k: nat, sum: nat)
    requires k <= |slots|
    requires forall j :: k <= j < |slots| && slots[j].volumeName in w.volumes ==> !Redis(w.volumes[slots[j].volumeName])
    ensures var v := FreeFrom(w, slots, k, sum).0;
      && v.volumes.Keys == w.volumes.Keys
      && (forall n :: n in w.volumes ==> v.volumes[n] in {w.volumes[n], Freed(w.volumes[n])})
      && (FaultUsed(w, v) || AllAvailable(v, slots, k))
    decreases |slots| - k
  {
    hide FaultUsed;
    if k < |slots| {
      var name := slots[k].volumeName;
      if AvailableCounts(w, name) {
        FreeLoopAll(w, slots, k + 1, sum + 1);
      } else {
        var (w1, ok) := UpdateVolumeIn(w, name, Freed(w.volumes[name]));
        if ok {
          FreeLoopAll(w1, slots, k + 1, sum);
        }
        FaultStep(w, w1, FreeFrom(w, slots, k, sum).0, ok);
      }
    }
  }

  lemma {:induction false} PodLoopAll(w: World, slots: seq<PodSlot>, k: nat, sum: nat)
    requires k <= |slots|
    ensures var v := DeletePodsFrom(w, slots, k, sum).0;
      && v.pods.Keys == w.pods.Keys
      && (forall n :: n in w.pods ==> v.pods[n] in {w.pods[n], Terminated(w.pods[n])})
      && (FaultUsed(w, v) ||
          forall j :: k <= j < |slots| && slots[j].podName in w.pods ==> v.pods[slots[j].podName].terminating)
    decreases |slots| - k
  {
    hide FaultUsed;
    if k < |slots| {
      if slots[k].podName in w.pods {
        var (w1, ok) := DeletePodIn(w, slots[k].podName);
        if ok {
          PodLoopAll(w1, slots, k + 1, sum);
        }
        FaultStep(w, w1, DeletePodsFrom(w, slots, k, sum).0, ok);
      } else {
        PodLoopAll(w, slots, k + 1, sum + 1);
      }
    }
  }

  lemma {:induction false} ClaimLoopAll(w: World, slots: seq<ClaimSlot>, k: nat, sum: nat)
    requires k <= |slots|
    ensures var v := DeleteClaimsFrom(w, slots, k, sum).0;
      && v.claims.Keys == w.claims.Keys
      && (forall n :: n in w.claims ==> v.claims[n] in {w.claims[n], w.claims[n].(terminating := true)})
      && (FaultUsed(w, v) ||
          forall j :: k <= j < |slots| && slots[j].claimName in w.claims ==> v.claims[slots[j].claimName].terminating)
    decreases |slots| - k
  {
    hide FaultUsed;
    if k < |slots| {
      if slots[k].claimName in w.claims {
        var (w1, ok) := DeleteClaimIn(w, slots[k].claimName);
        if ok {
          ClaimLoopAll(w1, slots, k + 1, sum);
        }
        FaultStep(w, w1, DeleteClaimsFrom(w, slots, k, sum).0, ok);
      } else {
        ClaimLoopAll(w, slots, k + 1, sum + 1);
      }
    }
  }

  // ----- the parent's reconcile, stage by stage -----

  predicate Retaining(p: Parent) {
    p.spec.policy == Retain
  }

  /** Which of its loops a reconcile of a deleting parent stops in, and the world it leaves. */
  lemma CoreStage(w: World, p: Parent)
    requires w.stored == Some(p) && Deletes(w, p)
    ensures Core(w) ==
      if Retaining(p) && !AllRetained(w, p.claims, 0) then RetainFrom(w, p.claims, 0, 0).0
      else if !PodsGone(w, p.pods, 0) then DeletePodsFrom(w, p.pods, 0, 0).0
      else if !ClaimsGone(w, p.claims, 0) then DeleteClaimsFrom(w, p.claims, 0, 0).0
      else if Retaining(p) && !AllAvailable(w, p.claims, 0) then FreeFrom(w, p.claims, 0, 0).0
      else Put(Ctx(w, DropFinalizer(p))).w
  {
    assert GROUP_VERSION in p.finalizers;
    assert Core(w) == DeleteEffect(Ctx(w, p)).0.w;
    SetPVRetainExact(w, p);
    if SetPVRetainEffect(w, p).1 {
      DeletePodAllExact(w, p);
      if DeletePodAllEffect(w, p).1 {
        DeletePvcAllExact(w, p);
        if DeletePvcAllEffect(w, p).1 {
          SetPVAvailableExact(w, p);
        }
      }
    }
  }

  // ----- marked or updated objects keep the invariant and come no further -----

  lemma VolumesUpdated(w: World, p: Parent, v: World)
    requires Deletes(w, p) && v == w.(volumes := v.volumes, log := v.log) && v.volumes.Keys == w.volumes.Keys
    requires forall n :: n in w.volumes ==> v.volumes[n] in {w.volumes[n], Retained(w.volumes[n]), Freed(w.volumes[n])}
    requires |v.log| >= |w.log|
    ensures Deletes(v, p) && NoFurther(w, p, v, p)
  {
    hide Deletes, ClaimBehaves, SlotsRecorded, NoFurther;
    DeletesMeans(w, p);
    SameRecorded(w, p);
    forall i | 0 <= i < |p.claims| ensures VolumeOnlyGoes(w, v, p.claims[i].volumeName) {
      assert p.claims[i].volumeName in v.volumes <==> p.claims[i].volumeName in w.volumes.Keys;
    }
    forall i: nat ensures Convergence.ClaimAt(v, p, i) == Convergence.ClaimAt(w, p, i) {
    }
    OnlyGoes(w, p, v, p);
  }

  lemma DeletesMeans(w: World, p: Parent)
    requires Deletes(w, p)
    ensures |p.pods| == |p.claims|
    ensures forall i :: 0 <= i < |p.pods| && p.pods[i].podName in w.pods ==>
      PodBehaves(w, p, i, w.pods[p.pods[i].podName])
    ensures forall i: nat :: i < |p.claims| && Convergence.ClaimAt(w, p, i).Some? ==>
      ClaimBehaves(p, i, Convergence.ClaimAt(w, p, i).value)
  {
  }

  /** Fewer pods, each as it was or marked. */
  ghost predicate PodsGo(w: World, v: World) {
    forall n :: n in v.pods ==> n in w.pods && v.pods[n] in {w.pods[n], Terminated(w.pods[n])}
  }

  ghost predicate ClaimsGo(w: World, v: World) {
    forall n :: n in v.claims ==> n in w.claims && v.claims[n] in {w.claims[n], w.claims[n].(terminating := true)}
  }

  ghost predicate VolumesGo(w: World, v: World) {
    forall n :: n in v.volumes ==> n in w.volumes && v.volumes[n] == w.volumes[n]
  }

  lemma ClaimsStillBehave(w: World, p: Parent, v: World, q: Parent)
    requires Deletes(w, p) && SlotsRecorded(p, q) && ClaimsGo(w, v)
    requires q.spec.claimTemplate.Some? == p.spec.claimTemplate.Some?
    ensures |q.pods| == |q.claims|
    ensures forall i: nat :: i < |p.claims| && Convergence.ClaimAt(v, q, i).Some? ==>
      && ClaimBehaves(q, i, Convergence.ClaimAt(v, q, i).value)
      && Convergence.ClaimAt(w, p, i).Some?
      && ClaimOlder(Convergence.ClaimAt(w, p, i).value, Convergence.ClaimAt(v, q, i).value)
  {
    hide Ordinal;
    forall i: nat | i < |p.claims| && Convergence.ClaimAt(v, q, i).Some?
      ensures ClaimBehaves(q, i, Convergence.ClaimAt(v, q, i).value)
      ensures Convergence.ClaimAt(w, p, i).Some?
      ensures ClaimOlder(Convergence.ClaimAt(w, p, i).value, Convergence.ClaimAt(v, q, i).value)
    {
      assert ClaimName(q, i) == ClaimName(p, i);
      assert Convergence.ClaimAt(w, p, i).Some?;
    }
  }

  /** Marked or removed objects, and statuses recorded. */
  lemma MarkedOrGone(w: World, p: Parent, v: World, q: Parent)
    requires Deletes(w, p) && SlotsRecorded(p, q) && SameVolumes(p, q)
    requires q.spec.claimTemplate.Some? == p.spec.claimTemplate.Some?
    requires v == w.(pods := v.pods, claims := v.claims, volumes := v.volumes, stored := v.stored, log := v.log)
    requires PodsGo(w, v) && ClaimsGo(w, v) && VolumesGo(w, v) && |v.log| >= |w.log|
    ensures Deletes(v, q) && NoFurther(w, p, v, q)
  {
    hide Ordinal, PodRunning, IsNodeReady, SlotsInLine, ClaimsInLine, NoFurther;
    ClaimsStillBehave(w, p, v, q);
    forall i | 0 <= i < |p.pods| && p.pods[i].podName in v.pods ensures PodBehaves(v, q, i, v.pods[p.pods[i].podName]) {
      assert PodBehaves(w, p, i, w.pods[p.pods[i].podName]);
    }
    forall i | 0 <= i < |p.claims| ensures VolumeOnlyGoes(w, v, p.claims[i].volumeName) {
    }
    hide Deletes, SlotsRecorded, PodBehaves, ClaimBehaves;
    OnlyGoes(w, p, v, q);
  }

  ghost predicate SomeNearer(w: World, p: Parent, v: World) {
    FaultUsed(w, v) || exists i: nat :: Nearer(w, p, v, p, i)
  }

  /** A reconcile that left the parent as it was. */
  ghost predicate Stage(w: World, p: Parent, v: World) {
    v.stored == Some(p) && Deletes(v, p) && NoFurther(w, p, v, p)
  }

  lemma RetainStage(w: World, p: Parent)
    requires w.stored == Some(p) && Deletes(w, p) && Retaining(p) && !AllRetained(w, p.claims, 0)
    ensures Stage(w, p, Core(w)) && SomeNearer(w, p, Core(w))
  {
    hide FaultUsed, Retained, Freed;
    var v := Core(w);
    CoreStage(w, p);
    RetainLoop(w, p.claims, 0, 0);
    RetainLoopAll(w, p.claims, 0, 0);
    VolumesUpdated(w, p, v);
    if !FaultUsed(w, v) {
      var i :| 0 <= i < |p.claims| && !RetainCounts(w, p.claims[i].volumeName);
      assert RetainCounts(v, p.claims[i].volumeName);
      assert Nearer(w, p, v, p, i);
    }
  }

  lemma PodMarkedNearer(w: World, p: Parent, v: World, i: nat)
    requires i < |p.claims| && PodLeft(w, p)(i) == 2 && NoFurther(w, p, v, p)
    requires p.pods[i].podName in v.pods ==> v.pods[p.pods[i].podName].terminating
    ensures Nearer(w, p, v, p, i)
  {
  }

  lemma PodDeletesGo(w: World, slots: seq<PodSlot>)
    ensures var v := DeletePodsFrom(w, slots, 0, 0).0;
      && v == w.(pods := v.pods, log := v.log) && |v.log| >= |w.log|
      && v.pods.Keys == w.pods.Keys && PodsGo(w, v)
      && (FaultUsed(w, v) ||
          forall j :: 0 <= j < |slots| && slots[j].podName in w.pods ==> v.pods[slots[j].podName].terminating)
  {
    hide FaultUsed;
    PodLoop(w, slots, 0, 0);
    PodLoopAll(w, slots, 0, 0);
    var v := DeletePodsFrom(w, slots, 0, 0).0;
    forall n | n in v.pods ensures n in w.pods {
      assert n in v.pods.Keys;
    }
  }

  lemma PodStage(w: World, p: Parent, i: nat)
    requires w.stored == Some(p) && Deletes(w, p) && !(Retaining(p) && !AllRetained(w, p.claims, 0))
    requires !PodsGone(w, p.pods, 0)
    ensures Stage(w, p, Core(w))
    ensures i < |p.claims| && PodLeft(w, p)(i) == 2 ==> SomeNearer(w, p, Core(w))
  {
    assert |p.pods| == |p.claims|;
    hide FaultUsed, Deletes, NoFurther, Nearer, SlotsRecorded, Core, DeleteClaimsFrom, DeletePodsFrom;
    var v := Core(w);
    CoreStage(w, p);
    PodDeletesGo(w, p.pods);
    SameRecorded(w, p);
    MarkedOrGone(w, p, v, p);
    if i < |p.claims| && PodLeft(w, p)(i) == 2 && !FaultUsed(w, v) {
      PodMarkedNearer(w, p, v, i);
    }
  }

  lemma ClaimMarkedNearer(w: World, p: Parent, v: World, i: nat)
    requires i < |p.claims| && ClaimLeft(w, p)(i) == 2 && NoFurther(w, p, v, p)
    requires p.claims[i].claimName in v.claims ==> v.claims[p.claims[i].claimName].terminating
    ensures Nearer(w, p, v, p, i)
  {
  }

  lemma ClaimDeletesGo(w: World, slots: seq<ClaimSlot>)
    ensures var v := DeleteClaimsFrom(w, slots, 0, 0).0;
      && v == w.(claims := v.claims, log := v.log) && |v.log| >= |w.log|
      && v.claims.Keys == w.claims.Keys && ClaimsGo(w, v)
      && (FaultUsed(w, v) ||
          forall j :: 0 <= j < |slots| && slots[j].claimName in w.claims ==> v.claims[slots[j].claimName].terminating)
  {
    hide FaultUsed;
    ClaimLoop(w, slots, 0, 0);
    ClaimLoopAll(w, slots, 0, 0);
    var v := DeleteClaimsFrom(w, slots, 0, 0).0;
    forall n | n in v.claims ensures n in w.claims {
      assert n in v.claims.Keys;
    }
  }

  lemma ClaimStage(w: World, p: Parent, i: nat)
    requires w.stored == Some(p) && Deletes(w, p) && !(Retaining(p) && !AllRetained(w, p.claims, 0))
    requires PodsGone(w, p.pods, 0) && !ClaimsGone(w, p.claims, 0)
    ensures Stage(w, p, Core(w))
    ensures i < |p.claims| && ClaimLeft(w, p)(i) == 2 ==> SomeNearer(w, p, Core(w))
  {
    assert |p.pods| == |p.claims|;
    hide FaultUsed, Deletes, NoFurther, Nearer, SlotsRecorded, Core, DeleteClaimsFrom, DeletePodsFrom;
    var v := Core(w);
    CoreStage(w, p);
    ClaimDeletesGo(w, p.claims);
    SameRecorded(w, p);
    MarkedOrGone(w, p, v, p);
    if i < |p.claims| && ClaimLeft(w, p)(i) == 2 && !FaultUsed(w, v) {
      ClaimMarkedNearer(w, p, v, i);
    }
  }

  lemma {:induction false} FreeLoopSome(w: World, slots: seq<ClaimSlot>, k: nat, sum: nat)
    requires k <= |slots|
    ensures var v := FreeFrom(w, slots, k, sum).0;
      && v.volumes.Keys == w.volumes.Keys
      && (forall n :: n in w.volumes ==> v.volumes[n] in {w.volumes[n], Freed(w.volumes[n])})
    decreases |slots| - k
  {
    if k < |slots| {
      var name := slots[k].volumeName;
      if AvailableCounts(w, name) {
        FreeLoopSome(w, slots, k + 1, sum + 1);
      } else {
        FreeLoopSome(UpdateVolumeIn(w, name, Freed(w.volumes[name])).0, slots, k + 1, sum);
      }
    }
  }

  lemma FreeStage(w: World, p: Parent)
    requires w.stored == Some(p) && Deletes(w, p) && Retaining(p) && AllRetained(w, p.claims, 0)
    requires PodsGone(w, p.pods, 0) && ClaimsGone(w, p.claims, 0) && !AllAvailable(w, p.claims, 0)
    ensures Stage(w, p, Core(w))
    ensures (forall i: nat :: i < |p.claims| ==> ToFree(w, p)(i) != 2) ==> SomeNearer(w, p, Core(w))
  {
    hide FaultUsed, Retained, Freed;
    var v := Core(w);
    CoreStage(w, p);
    FreeLoop(w, p.claims, 0, 0);
    FreeLoopSome(w, p.claims, 0, 0);
    VolumesUpdated(w, p, v);
    if forall i: nat :: i < |p.claims| ==> ToFree(w, p)(i) != 2 {
      FreeStageNearer(w, p);
    }
  }

  lemma FreeStageNearer(w: World, p: Parent)
    requires w.stored == Some(p) && Deletes(w, p) && Retaining(p) && AllRetained(w, p.claims, 0)
    requires PodsGone(w, p.pods, 0) && ClaimsGone(w, p.claims, 0) && !AllAvailable(w, p.claims, 0)
    requires forall i: nat :: i < |p.claims| ==> ToFree(w, p)(i) != 2
    ensures Stage(w, p, Core(w)) ==> SomeNearer(w, p, Core(w))
  {
    hide FaultUsed, Retained, Freed;
    var v := Core(w);
    CoreStage(w, p);
    forall j | 0 <= j < |p.claims| && p.claims[j].volumeName in w.volumes
      ensures !Redis(w.volumes[p.claims[j].volumeName])
    {
      assert ToFree(w, p)(j) != 2;
    }
    FreeLoopAll(w, p.claims, 0, 0);
    if Stage(w, p, v) && !FaultUsed(w, v) {
      var i :| 0 <= i < |p.claims| && !AvailableCounts(w, p.claims[i].volumeName);
      assert AvailableCounts(v, p.claims[i].volumeName);
      assert Nearer(w, p, v, p, i);
    }
  }

  lemma LastStage(w: World, p: Parent)
    requires w.stored == Some(p) && Deletes(w, p) && Cleared(w, p)
    ensures Over(Core(w)) && Inv(Core(w), 0)
  {
    CoreStage(w, p);
    RemoveCounts(p.finalizers, GROUP_VERSION);
  }

  /** What it takes for the parent's own reconcile to be the one that helps. */
  lemma HelpMeans(w: World, p: Parent, i: nat)
    requires HelpFor(w, p) == ReconcileParent && i < |p.claims|
    requires forall j: nat :: j < |p.claims| ==> ToRetain(w, p)(j) == 0
    ensures PodLeft(w, p)(i) == 1 ==> First(PodLeft(w, p), 2, |p.claims|) < |p.claims|
    ensures (forall j: nat :: j < |p.claims| ==> PodLeft(w, p)(j) == 0) && ClaimLeft(w, p)(i) == 1 ==>
      First(ClaimLeft(w, p), 2, |p.claims|) < |p.claims|
    ensures (forall j: nat :: j < |p.claims| ==> PodLeft(w, p)(j) == 0 && ClaimLeft(w, p)(j) == 0) ==>
      ToFree(w, p)(i) != 2
  {
  }

  ghost predicate Helpful(w: World, p: Parent)
    requires ListsAgree(w)
  {
    Stage(w, p, Core(w)) && (HelpFor(w, p) == ReconcileParent ==> SomeNearer(w, p, Core(w)))
  }

  lemma PodsHelp(w: World, p: Parent, j: nat)
    requires w.stored == Some(p) && Deletes(w, p) && !(Retaining(p) && !AllRetained(w, p.claims, 0))
    requires j < |p.claims| && p.pods[j].podName in w.pods
    ensures Helpful(w, p)
  {
    PodStage(w, p, j);
    if HelpFor(w, p) == ReconcileParent {
      HelpMeans(w, p, j);
      if PodLeft(w, p)(j) == 1 {
        PodStage(w, p, First(PodLeft(w, p), 2, |p.claims|));
      }
    }
  }

  lemma ClaimsHelp(w: World, p: Parent, j: nat)
    requires w.stored == Some(p) && Deletes(w, p) && !(Retaining(p) && !AllRetained(w, p.claims, 0))
    requires PodsGone(w, p.pods, 0) && j < |p.claims| && p.claims[j].claimName in w.claims
    ensures Helpful(w, p)
  {
    ClaimStage(w, p, j);
    if HelpFor(w, p) == ReconcileParent {
      HelpMeans(w, p, j);
      if ClaimLeft(w, p)(j) == 1 {
        ClaimStage(w, p, First(ClaimLeft(w, p), 2, |p.claims|));
      }
    }
  }

  lemma VolumesHelp(w: World, p: Parent)
    requires w.stored == Some(p) && Deletes(w, p) && Retaining(p) && AllRetained(w, p.claims, 0)
    requires PodsGone(w, p.pods, 0) && ClaimsGone(w, p.claims, 0) && !AllAvailable(w, p.claims, 0)
    ensures Helpful(w, p)
  {
    FreeStage(w, p);
    if HelpFor(w, p) == ReconcileParent {
      forall j: nat | j < |p.claims| ensures ToFree(w, p)(j) != 2 {
        HelpMeans(w, p, j);
      }
    }
  }

  lemma CoreFine(w: World, p: Parent)
    requires w.stored == Some(p) && Deletes(w, p)
    ensures Helpful(w, p) || (Over(Core(w)) && Inv(Core(w), 0))
  {
    if Retaining(p) && !AllRetained(w, p.claims, 0) {
      RetainStage(w, p);
    } else if j: nat :| j < |p.pods| && p.pods[j].podName in w.pods {
      PodsHelp(w, p, j);
    } else if j: nat :| j < |p.claims| && p.claims[j].claimName in w.claims {
      ClaimsHelp(w, p, j);
    } else if Retaining(p) && !AllAvailable(w, p.claims, 0) {
      VolumesHelp(w, p);
    } else {
      LastStage(w, p);
    }
  }

  // ----- events and the cluster's actions -----

  /** What deleting, force-deleting or annotating slot i's pod, and marking its claim, does to the world. */
  ghost predicate PodTouched(w: World, v: World, n: string) {
    && v == w.(pods := v.pods, claims := v.claims, log := v.log) && |v.log| >= |w.log|
    && v.pods - {n} == w.pods - {n}
    && (n in v.pods ==> n in w.pods && Aged(w.pods[n], v.pods[n]))
    && ClaimsGo(w, v)
  }

  /** The same pod later: marked, or annotated with another key than the identity's. */
  predicate Aged(was: Pod, pod: Pod) {
    && pod == was.(annotations := pod.annotations, version := pod.version, terminating := pod.terminating)
    && (was.terminating ==> pod.terminating)
    && OwnerName(pod.annotations) == OwnerName(was.annotations) && Ordinal(pod.annotations) == Ordinal(was.annotations)
  }

  lemma MandatoryTouches(w: World, pod: Pod)
    requires pod.name in w.pods && w.pods[pod.name] == pod
    ensures PodTouched(w, DeletePodMandatoryEffect(w, pod).0, pod.name)
    ensures DeletePodMandatoryEffect(w, pod).0.claims == w.claims
  {
    assert NODE_UNHEALTHY[0] != INDEX[0] && NODE_UNHEALTHY[0] != PARENT_NAME[0];
  }

  lemma NodeLostTouches(c: Ctx, pod: Pod, i: nat)
    requires i < |c.p.pods| == |c.p.claims| && pod.name in c.w.pods && c.w.pods[pod.name] == pod
    ensures PodTouched(c.w, NodeLostEffect(c, pod, i).0.w, pod.name)
  {
    hide DeletePodMandatoryEffect, Aged;
    MandatoryTouches(c.w, pod);
  }

  lemma {:induction false} InsistentDeleteMarks(w: World, name: string)
    requires name in w.claims
    ensures var v := DeleteClaimUntilDone(w, name);
      v == w.(claims := v.claims, log := v.log) && |v.log| >= |w.log| && ClaimsGo(w, v)
    decreases FaultsAhead(w.faults, |w.log|)
  {
    var (w1, ok) := DeleteClaimIn(w, name);
    if !ok {
      assert |w.log| in FaultsAhead(w.faults, |w.log|) - FaultsAhead(w.faults, |w1.log|);
      InsistentDeleteMarks(w1, name);
    }
  }

  lemma TimedOutTouches(c: Ctx, pod: Pod, i: nat)
    requires i < |c.p.pods| == |c.p.claims| && pod.name in c.w.pods && c.w.pods[pod.name] == pod
    ensures PodTouched(c.w, TimedOutEffect(c, pod, i).0.w, pod.name)
  {
    hide DeleteClaimUntilDone;
    var (w1, ok) := DeletePodIn(c.w, pod.name);
    assert PodTouched(c.w, w1, pod.name);
    if ClaimName(c.p, i) in w1.claims {
      InsistentDeleteMarks(w1, ClaimName(c.p, i));
    }
  }

  lemma PodEventTouches(w: World, p: Parent, i: nat, pod: Pod)
    requires i < |p.pods| == |p.claims| && pod.name in w.pods && w.pods[pod.name] == pod
    ensures PodTouched(w, MonitorPodEffect(Ctx(w, p), pod, i).0.w, pod.name)
  {
    hide PodRunning, IsNodeReady, NodeLostEffect, TimedOutEffect, Aged;
    var c := Ctx(w, p);
    SameAge(pod);
    NodeLostTouches(c, pod, i);
    TimedOutTouches(c, pod, i);
  }

  /** What a pod event records, other than for a last slot's second timeout notice: a state of its slot. */
  lemma PodEventCases(c: Ctx, pod: Pod, i: nat)
    requires i < |c.p.pods| == |c.p.claims| && (i == |c.p.pods| - 1 ==> c.p.pods[i].status != CreateTimeOut)
    ensures var q := MonitorPodEffect(c, pod, i).0.p; var slot, claim := c.p.pods[i], c.p.claims[i];
      && q.spec in {c.p.spec, Defaulted(c.p).spec}
      && exists s, r: ClaimPhase :: Records(c.p, q, i, s, r)
           && (s.podName == slot.podName || (PodRunning(pod) && s.podName == pod.name)) && s.index == slot.index
           && (s.status in {slot.status, Deleting, Running} || (s.status == CreateTimeOut && !pod.terminating
                 && NodeReadyIn(c.w, pod.nodeName) && !PodRunning(pod) && Overdue(c.w, pod)))
           && r in {claim.status, ClaimDeleting}
  {
    hide NodeLostEffect, TimedOutEffect, PodRunning, IsNodeReady, Dashed;
    NodeLostCases(c, pod, i);
    TimedOutCases(c, pod, i);
    var q := MonitorPodEffect(c, pod, i).0.p;
    assert Records(c.p, q, i, q.pods[i], q.claims[i].status);
  }

  predicate Records(p: Parent, q: Parent, i: nat, slot: PodSlot, claim: ClaimPhase)
    requires i < |p.pods| && i < |p.claims|
  {
    q == p.(spec := q.spec, pods := p.pods[i := slot], claims := p.claims[i := p.claims[i].(status := claim)])
  }

  /** What a pod event records of a slot of a deleting parent. */
  lemma PodEventRecords(w: World, p: Parent, i: nat, pod: Pod)
    requires Deletes(w, p) && i < |p.pods| && PodBehaves(w, p, i, pod) && OwnerName(pod.annotations) == p.name
    ensures var q := MonitorPodEffect(Ctx(w, p), pod, i).0.p;
      SlotsRecorded(p, q) && SameVolumes(p, q) && q.spec.claimTemplate.Some? == p.spec.claimTemplate.Some?
  {
    assert |p.pods| == |p.claims| && (i == |p.pods| - 1 ==> p.pods[i].status != CreateTimeOut);
    assert p.deletionMarked && Count(p.finalizers, GROUP_VERSION) == 1;
    hide MonitorPodEffect, Deletes, SlotsRecorded, SameVolumes, Records, Count, Defaulted;
    PodEventCases(Ctx(w, p), pod, i);
    var q := MonitorPodEffect(Ctx(w, p), pod, i).0.p;
    var s, r: ClaimPhase :| Records(p, q, i, s, r)
      && s.podName == p.pods[i].podName && s.index == p.pods[i].index
      && (s.status in {p.pods[i].status, Deleting, Running} || (s.status == CreateTimeOut && i < |p.pods| - 1))
      && r in {p.claims[i].status, ClaimDeleting};
    RecordsKeep(p, q, i, s, r);
  }

  lemma RecordsKeep(p: Parent, q: Parent, i: nat, slot: PodSlot, claim: ClaimPhase)
    requires i < |p.pods| == |p.claims| && Records(p, q, i, slot, claim) && q.spec in {p.spec, Defaulted(p).spec}
    requires p.deletionMarked && Count(p.finalizers, GROUP_VERSION) == 1
    requires slot.podName == p.pods[i].podName && slot.index == p.pods[i].index
    requires slot.status in {p.pods[i].status, Deleting, Running} || (slot.status == CreateTimeOut && i < |p.pods| - 1)
    requires claim in {p.claims[i].status, ClaimDeleting}
    ensures SlotsRecorded(p, q) && SameVolumes(p, q) && q.spec.claimTemplate.Some? == p.spec.claimTemplate.Some?
  {
  }

  lemma SameAge(pod: Pod)
    ensures Aged(pod, pod)
  {
  }

  lemma TouchedFine(w: World, p: Parent, v: World, q: Parent, i: nat)
    requires Deletes(w, p) && SlotsRecorded(p, q) && SameVolumes(p, q) && i < |p.pods| && p.pods[i].podName in w.pods
    requires q.spec.claimTemplate.Some? == p.spec.claimTemplate.Some?
    requires PodTouched(w, v, p.pods[i].podName)
    ensures var u := v.(stored := Some(q)); Deletes(u, q) && NoFurther(w, p, u, q)
  {
    hide Ordinal, IsNodeReady, SlotsInLine, ClaimsInLine, NoFurther, Dashed;
    var u := v.(stored := Some(q));
    ClaimsStillBehave(w, p, u, q);
    forall j | 0 <= j < |p.pods| && p.pods[j].podName in u.pods
      ensures p.pods[j].podName in w.pods
      ensures w.pods[p.pods[j].podName].terminating ==> u.pods[p.pods[j].podName].terminating
      ensures PodBehaves(u, q, j, u.pods[p.pods[j].podName])
    {
      var n := p.pods[j].podName;
      if n != p.pods[i].podName {
        assert n in v.pods - {p.pods[i].podName};
        assert n in w.pods - {p.pods[i].podName} && w.pods[n] == v.pods[n];
      }
      assert PodBehaves(w, p, j, w.pods[n]);
    }
    forall j | 0 <= j < |p.claims| ensures VolumeOnlyGoes(w, u, p.claims[j].volumeName) {
    }
    hide Deletes, SlotsRecorded, PodBehaves, ClaimBehaves;
    OnlyGoes(w, p, u, q);
  }

  lemma PodReconcileFine(w: World, p: Parent, i: nat)
    requires w.stored == Some(p) && Deletes(w, p)
    ensures Fine(w, p, PodReconciled(w, p, i))
  {
    hide MonitorPodEffect, PodTouched, NoFurther, SlotsInLine, ClaimsInLine, Ordinal;
    SameRecorded(w, p);
    Still(w, p);
    if i < |p.pods| && p.pods[i].podName in w.pods {
      var pod := w.pods[p.pods[i].podName];
      assert PodBehaves(w, p, i, pod);
      if OwnerName(pod.annotations) == p.name {
        PodEventRecords(w, p, i, pod);
        PodEventTouches(w, p, i, pod);
        var (d, changed) := MonitorPodEffect(Ctx(w, p), pod, i);
        assert d.w.stored == w.stored by { TouchedStored(w, d.w, pod.name); }
        if changed {
          var q := Put(d).p;
          TouchedFine(w, p, d.w, q, i);
        } else {
          TouchedFine(w, p, d.w, p, i);
          assert d.w.(stored := Some(p)) == d.w;
        }
      }
    }
  }

  lemma TouchedStored(w: World, v: World, n: string)
    requires PodTouched(w, v, n)
    ensures v.stored == w.stored
  {
  }

  lemma Still(w: World, p: Parent)
    requires w.stored == Some(p) && Deletes(w, p)
    ensures Fine(w, p, w)
  {
  }

  lemma ClaimEventRecords(w: World, p: Parent, i: nat, claim: Claim)
    requires Deletes(w, p) && i < |p.claims|
    ensures var r := MonitorClaimEffect(p, claim, i).0;
      && SlotsRecorded(p, r) && r.spec == p.spec
      && (forall j :: 0 <= j < |p.claims| && j != i ==> r.claims[j] == p.claims[j])
      && (SameVolumes(p, r)
          || (!claim.terminating && claim.phase == Bound && r.claims[i].volumeName == claim.volumeName))
  {
  }

  lemma {:induction false} SumAt(f: nat -> nat, g: nat -> nat, n: nat, i: nat)
    requires i < n && forall j: nat :: j < n && j != i ==> g(j) == f(j)
    ensures Sum(g, n) + f(i) == Sum(f, n) + g(i)
  {
    if i < n - 1 {
      SumAt(f, g, n - 1, i);
    } else {
      SumFalls(f, g, n - 1);
      SumFalls(g, f, n - 1);
    }
  }

  /** The event of a claim that bound since: its volume may now have to be retained and freed, but the
      claim need not be recorded any more. */
  lemma BindingCounts(w: World, p: Parent, v: World, q: Parent, i: nat)
    requires v == w.(stored := v.stored) && i < |p.claims| == |q.claims| == |p.pods| == |q.pods|
    requires q.name == p.name && ClaimBase(q) == ClaimBase(p) && q.spec.policy == p.spec.policy
    requires q.spec.claimTemplate.Some? == p.spec.claimTemplate.Some?
    requires forall j :: 0 <= j < |p.pods| ==> q.pods[j].podName == p.pods[j].podName
    requires q.claims[i].claimName == p.claims[i].claimName
    requires forall j :: 0 <= j < |p.claims| && j != i ==> q.claims[j] == p.claims[j]
    ensures forall j: nat :: j < |p.claims| ==>
      PodLeft(v, q)(j) == PodLeft(w, p)(j) && ClaimLeft(v, q)(j) == ClaimLeft(w, p)(j)
    ensures forall j: nat :: j < |p.claims| && j != i ==>
      && ToRetain(v, q)(j) == ToRetain(w, p)(j) && ToFree(v, q)(j) == ToFree(w, p)(j)
      && Unrecorded(v, q)(j) == Unrecorded(w, p)(j)
    ensures ToRetain(v, q)(i) <= 1 && ToFree(v, q)(i) <= 2
    ensures Convergence.ClaimAt(v, q, i) == Convergence.ClaimAt(w, p, i)
  {
    hide Dashed, Redis;
    forall j: nat ensures Convergence.ClaimAt(v, q, j) == Convergence.ClaimAt(w, p, j) {
      assert ClaimName(q, j) == ClaimName(p, j);
    }
  }

  lemma BindingRecorded(w: World, p: Parent, q: Parent, i: nat)
    requires Deletes(w, p) && SlotsRecorded(p, q) && i < |p.claims|
    requires q.spec.claimTemplate.Some? == p.spec.claimTemplate.Some?
    requires forall j :: 0 <= j < |p.claims| && j != i ==> q.claims[j] == p.claims[j]
    requires var claim := Convergence.ClaimAt(w, p, i);
      && claim.Some? && !claim.value.terminating && claim.value.phase == Bound
      && q.claims[i].volumeName == claim.value.volumeName != p.claims[i].volumeName
    ensures var v := w.(stored := Some(q)); Deletes(v, q) && Left(v, q) < Left(w, p)
  {
    var v, n := w.(stored := Some(q)), |p.claims|;
    StillBehaves(w, p, q);
    StillDeletes(p, w, v, q);
    BindingCounts(w, p, v, q, i);
    assert Unrecorded(w, p)(i) == 4 && Unrecorded(v, q)(i) == 0;
    hide Deletes, SlotsRecorded, ToRetain, ToFree, PodLeft, ClaimLeft, Unrecorded, AllBehave;
    SumAt(ToRetain(w, p), ToRetain(v, q), n, i);
    SumAt(ToFree(w, p), ToFree(v, q), n, i);
    SumAt(PodLeft(w, p), PodLeft(v, q), n, i);
    SumAt(ClaimLeft(w, p), ClaimLeft(v, q), n, i);
    SumAt(Unrecorded(w, p), Unrecorded(v, q), n, i);
  }

  lemma StillBehaves(w: World, p: Parent, q: Parent)
    requires Deletes(w, p) && SlotsRecorded(p, q) && q.spec.claimTemplate.Some? == p.spec.claimTemplate.Some?
    ensures |q.pods| == |q.claims| && AllBehave(w.(stored := Some(q)), q)
  {
    hide Ordinal, OwnerName, PodRunning, Dashed;
    var v := w.(stored := Some(q));
    forall i: nat | i < |q.claims| && Convergence.ClaimAt(v, q, i).Some?
      ensures ClaimBehaves(q, i, Convergence.ClaimAt(v, q, i).value)
    {
      assert ClaimName(q, i) == ClaimName(p, i) && Convergence.ClaimAt(w, p, i).Some?;
    }
  }

  lemma ClaimReconcileFine(w: World, p: Parent, i: nat)
    requires w.stored == Some(p) && Deletes(w, p)
    ensures Fine(w, p, ClaimReconciled(w, p, i))
  {
    hide MonitorClaimEffect, NoFurther, SlotsInLine, ClaimsInLine, Ordinal;
    Still(w, p);
    var claim := Convergence.ClaimAt(w, p, i);
    if i < |p.claims| && claim.Some? && OwnerName(claim.value.annotations) == p.name {
      assert ClaimBehaves(p, i, claim.value);
      ClaimEventRecords(w, p, i, claim.value);
      var (r, changed) := MonitorClaimEffect(p, claim.value, i);
      if changed {
        var q := Put(Ctx(w, r)).p;
        if SameVolumes(p, r) {
          MarkedOrGone(w, p, Put(Ctx(w, r)).w, q);
        } else {
          BindingRecorded(w, p, q, i);
        }
      }
    }
  }

  lemma MeanwhileFine(w: World, p: Parent, v: World)
    requires w.stored == Some(p) && Deletes(w, p) && MayHappen(w, p, v)
    ensures Fine(w, p, v)
  {
    hide NoFurther, PodBehaves, ClaimBehaves;
    if v.stored.Some? {
      OnlyGoes(w, p, v, v.stored.value);
    }
  }

  /** Fewer objects and nothing else: the invariant stays. */
  lemma RemovalKeeps(w: World, p: Parent, v: World)
    requires w.stored == Some(p) && Deletes(w, p)
    requires v == w.(pods := v.pods, claims := v.claims, volumes := v.volumes)
    requires PodsGo(w, v) && ClaimsGo(w, v) && VolumesGo(w, v)
    ensures Deletes(v, p)
  {
    SameRecorded(w, p);
    MarkedOrGone(w, p, v, p);
  }

  lemma PodGoneNearer(w: World, p: Parent, i: nat)
    requires |p.pods| == |p.claims|
    ensures NoFurther(w, p, PodGone(w, p, i), p)
    ensures PodLeaving(w, p, i) ==> Nearer(w, p, PodGone(w, p, i), p, i)
  {
    hide Dashed;
  }

  lemma PodGoneFine(w: World, p: Parent, i: nat)
    requires w.stored == Some(p) && Deletes(w, p)
    ensures Stage(w, p, PodGone(w, p, i))
    ensures PodLeaving(w, p, i) ==> Nearer(w, p, PodGone(w, p, i), p, i)
  {
    assert |p.pods| == |p.claims|;
    hide Deletes, NoFurther, Nearer;
    PodGoneNearer(w, p, i);
    RemovalKeeps(w, p, PodGone(w, p, i));
  }

  lemma ClaimGoneNearer(w: World, p: Parent, i: nat)
    requires |p.pods| == |p.claims|
    ensures NoFurther(w, p, ClaimGone(w, p, i), p)
    ensures ClaimLeaving(w, p, i) ==> Nearer(w, p, ClaimGone(w, p, i), p, i)
  {
    hide Dashed;
  }

  lemma ClaimGoneFine(w: World, p: Parent, i: nat)
    requires w.stored == Some(p) && Deletes(w, p)
    ensures Stage(w, p, ClaimGone(w, p, i))
    ensures ClaimLeaving(w, p, i) ==> Nearer(w, p, ClaimGone(w, p, i), p, i)
  {
    assert |p.pods| == |p.claims|;
    hide Deletes, NoFurther, Nearer;
    ClaimGoneNearer(w, p, i);
    RemovalKeeps(w, p, ClaimGone(w, p, i));
  }

  lemma VolumeGoneNearer(w: World, p: Parent, i: nat)
    requires |p.pods| == |p.claims|
    ensures NoFurther(w, p, VolumeGone(w, p, i), p)
    ensures SlaveVolume(w, p, i) ==> Nearer(w, p, VolumeGone(w, p, i), p, i)
  {
    hide Dashed;
  }

  lemma VolumeGoneFine(w: World, p: Parent, i: nat)
    requires w.stored == Some(p) && Deletes(w, p)
    ensures Stage(w, p, VolumeGone(w, p, i))
    ensures SlaveVolume(w, p, i) ==> Nearer(w, p, VolumeGone(w, p, i), p, i)
  {
    assert |p.pods| == |p.claims|;
    hide Deletes, NoFurther, Nearer;
    VolumeGoneNearer(w, p, i);
    RemovalKeeps(w, p, VolumeGone(w, p, i));
  }

  // ----- the theorem -----

  lemma ActFine(w: World, p: Parent, a: Action)
    requires w.stored == Some(p) && Deletes(w, p)
    ensures Fine(w, p, Act(w, p, a))
  {
    match a
    case ReconcileParent => CoreFine(w, p);
    case ReconcilePod(i) => PodReconcileFine(w, p, i);
    case ReconcileClaim(i) => ClaimReconcileFine(w, p, i);
    case PodVanishes(i) => PodGoneFine(w, p, i);
    case ClaimVanishes(i) => ClaimGoneFine(w, p, i);
    case SlaveVolumeVanishes(i) => VolumeGoneFine(w, p, i);
    case Meanwhile(v) => if MayHappen(w, p, v) { MeanwhileFine(w, p, v); } else { Still(w, p); }
  }

  lemma StepNeverWorse(w: World, a: Action, bound: nat)
    requires Inv(w, bound)
    ensures var v := Step(w, a);
      && Inv(v, bound) && Measure(v) <= Measure(w) && (Over(w) ==> Over(v))
      && (Measure(v) == Measure(w) && !Over(v) ==> Help(v) == Help(w))
  {
    if !Over(w) {
      var p, v := w.stored.value, Step(w, a);
      assert |p.pods| == |p.claims|;
      hide Act, Deletes, NoFurther, Left, HelpFor;
      ActFine(w, p, a);
      if !Over(v) && NoFurther(w, p, v, v.stored.value) {
        NoFurtherLeft(w, p, v, v.stored.value);
      }
    }
  }

  /** What the cluster is waited for to do, it can do. */
  lemma HelpIsPossible(w: World, p: Parent)
    requires |p.pods| == |p.claims|
    ensures match HelpFor(w, p)
      case PodVanishes(i) => PodLeaving(w, p, i)
      case ClaimVanishes(i) => ClaimLeaving(w, p, i)
      case SlaveVolumeVanishes(i) => SlaveVolume(w, p, i)
      case a => a == ReconcileParent
  {
  }

  lemma HelpForLowers(w: World, p: Parent)
    requires w.stored == Some(p) && Deletes(w, p)
    ensures var v := Act(w, p, HelpFor(w, p));
      (Over(v) && Inv(v, 0)) || (Stage(w, p, v) && SomeNearer(w, p, v))
  {
    assert |p.pods| == |p.claims|;
    hide Core, Deletes, HelpFor, PodReconciled, ClaimReconciled, PodGone, ClaimGone, VolumeGone, NoFurther, Nearer;
    HelpIsPossible(w, p);
    match HelpFor(w, p)
    case ReconcileParent => CoreFine(w, p);
    case PodVanishes(i) => PodGoneFine(w, p, i);
    case ClaimVanishes(i) => ClaimGoneFine(w, p, i);
    case SlaveVolumeVanishes(i) => VolumeGoneFine(w, p, i);
  }

  lemma HelpLowers(w: World, bound: nat)
    requires Inv(w, bound) && !Over(w)
    ensures Help(w) in FairActions(bound) && Measure(Step(w, Help(w))) < Measure(w)
  {
    var p, v := w.stored.value, Step(w, Help(w));
    HelpForLowers(w, p);
    if !Over(v) {
      NoFurtherLeft(w, p, v, p);
    }
  }

  /** Every fair run of a deleting parent gives up its finalizer: as many rounds as the objects left
      count are enough. */
  lemma DeletionEnds(w: World, bound: nat, rounds: seq<seq<Action>>)
    requires Inv(w, bound)
    requires forall k :: 0 <= k < |rounds| ==> forall a :: a in FairActions(bound) ==> a in rounds[k]
    requires |rounds| >= Measure(w)
    ensures Over(RunRounds(Step, w, rounds))
  {
    var inv := (v: World) => Inv(v, bound);
    forall v, a | inv(v) {
      StepNeverWorse(v, a, bound);
    }
    forall v | inv(v) && !Over(v) {
      HelpLowers(v, bound);
    }
    FairRunsReachGoal(Step, inv, Over, Measure, Help, FairActions(bound), w, rounds);
  }
}
