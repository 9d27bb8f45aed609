// Three runs in which a timeout destroys a pod although Running was recorded since its notice: a notice
// written over Running, a delete from an older copy, and an older copy that brings the timeout back.
module StaleTimeouts {
  import opened Tools
  import opened Types
  import opened Api
  import opened PodControl
  import opened ClaimControl
  import opened Controller
  import opened Workers
  import Histories
  import opened Notices
  import opened Examples

  // ----- the cluster -----

  function Ready(pod: Pod): Pod {
    pod.(conditions := [PodCondition(true, true)])
  }

  /** Two slots. Slot 0 is recorded Preparing or Running and waits for its claim, which is bound by now; its pod
      runs, but is not ready, and overdue. */
  ghost predicate Slow(scope: Scope, w: World, p: Parent, pod: Pod, claim: Claim) {
    && w.stored == Some(p) && Shaped(scope, p) && PodsNamed(scope.name, w.pods) && w.faults == {}
    && !p.deletionMarked && |p.pods| == 2 == p.spec.size
    && SlotOf(p, pod) && p.claims[0].status == ClaimPending
    && p.pods[1].status == Running && p.claims[1].status != ClaimPending
    && InCluster(w, p, pod, claim)
    && !PodRunning(pod) && PodRunning(Ready(pod)) && Overdue(w, pod)
  }

  predicate SlotOf(p: Parent, pod: Pod)
    requires |p.pods| > 0
  {
    p.pods[0].status in {Preparing, Running} && p.pods[0] == PodSlot(pod.name, p.pods[0].status, 0, pod.nodeName)
  }

  /** The pod and the claim of slot 0 are in the cluster, live, and annotated as its own. */
  ghost predicate InCluster(w: World, p: Parent, pod: Pod, claim: Claim) {
    && pod.name in w.pods && w.pods[pod.name] == pod && claim.name in w.claims && w.claims[claim.name] == claim
    && NamedByOwner(pod) && OwnerName(pod.annotations) == OwnerName(claim.annotations) == p.name
    && Ordinal(pod.annotations) == Ordinal(claim.annotations) == 0
    && !pod.terminating && pod.phase == Running && pod.nodeName == ""
    && !claim.terminating && claim.phase == Bound
  }

  lemma SlowHappens(was: PodPhase) returns (w: World, p: Parent, pod: Pod, claim: Claim)
    requires was in {Preparing, Running}
    ensures Slow(Scope("db", "data"), w, p, pod, claim) && p.pods[0].status == was
  {
    var q := SomeParent(2, 2, Some(TEMPLATE));
    p := q.(pods := [q.pods[0].(status := was), q.pods[1]],
            claims := [q.claims[0].(status := ClaimPending), q.claims[1]]);
    pod := UpPod(q, 0).(conditions := [PodCondition(true, false)]);
    MadePodIsNamed(0, q, 0);
    claim := TemplateClaim(q, 0).(phase := Bound, annotations := pod.annotations);
    w := SomeWorld(p, map[pod.name := pod], map[claim.name := claim]).(now := 100);
    DashedInjective("db", 0, OwnerName(pod.annotations), Ordinal(pod.annotations));
    assert PodRunning(Ready(pod));
    assert pod.conditions[0].isReadyType && !pod.conditions[0].isTrue;
  }

  // ----- systems of two reconcilers in it -----

  // What the store or a copy says of slot 0, and its version.
  datatype Snap = Snap(status: PodPhase, bound: bool, version: nat)

  function Copy(p: Parent, claim: Claim, a: Snap): Parent
    requires |p.pods| == |p.claims| == 2
  {
    p.(version := a.version,
       pods := [p.pods[0].(status := a.status), p.pods[1]],
       claims := [if a.bound then BoundSlot(p.claims[0], claim) else p.claims[0], p.claims[1]])
  }

  function WithPod(w: World, pod: Pod): World {
    w.(pods := w.pods[pod.name := pod])
  }

  /** The cluster w with the snap o stored. */
  function Stores(w: World, p: Parent, claim: Claim, o: Snap): World
    requires |p.pods| == |p.claims| == 2
  {
    w.(stored := Some(Copy(p, claim, o)))
  }

  /** The cluster w with stored, first and second copy as the three snaps say. */
  function Trio(w: World, p: Parent, claim: Claim, o: Snap, a: Snap, b: Snap): System
    requires |p.pods| == |p.claims| == 2
  {
    System(Stores(w, p, claim, o), [Some(Copy(p, claim, a)), Some(Copy(p, claim, b))])
  }

  /** Everything that the moves look at, with the pod now ready or not. */
  ghost predicate Scene(scope: Scope, w: World, p: Parent, pod: Pod, claim: Claim) {
    && Shaped(scope, p) && PodsNamed(scope.name, w.pods) && w.faults == {} && !p.deletionMarked
    && |p.pods| == |p.claims| == 2
    && SlotOf(p, pod) && p.claims[0].status == ClaimPending
    && InCluster(w, p, pod, claim)
  }

  lemma SlowScene(scope: Scope, w: World, p: Parent, pod: Pod, claim: Claim)
    requires Slow(scope, w, p, pod, claim)
    ensures Scene(scope, w, p, pod, claim)
    ensures var o := Snap(p.pods[0].status, false, p.version);
      Trio(w, p, claim, o, o, o) == System(w, [Some(p), Some(p)])
  {
    assert p.pods == [p.pods[0], p.pods[1]] && p.claims == [p.claims[0], p.claims[1]];
  }

  function Held(a: Snap, b: Snap, k: nat): Snap {
    if k == 0 then a else b
  }

  function Recopied(a: Snap, b: Snap, k: nat, c: Snap): (Snap, Snap) {
    if k == 0 then (c, b) else (a, c)
  }

  /** A piece of work that only changes what the copy says. */
  lemma Works(scope: Scope, w: World, p: Parent, claim: Claim, o: Snap, a: Snap, b: Snap, m: Move, c: Snap)
    requires |p.pods| == |p.claims| == 2 && !m.Outside? && !m.Read? && m.k < 2
    requires var v := w.(stored := Some(Copy(p, claim, o)));
      Piece(Ctx(v, Copy(p, claim, Held(a, b, m.k))), m) == Ctx(v, Copy(p, claim, c))
    ensures var (x, y) := Recopied(a, b, m.k, c);
      Apply(scope, Trio(w, p, claim, o, a, b), m) == Trio(w, p, claim, o, x, y)
  {
    hide Piece;
    var s := Trio(w, p, claim, o, a, b);
    assert s.copies[m.k] == Some(Copy(p, claim, Held(a, b, m.k)));
    var (x, y) := Recopied(a, b, m.k, c);
    assert s.copies[m.k := Some(Copy(p, claim, c))] == [Some(Copy(p, claim, x)), Some(Copy(p, claim, y))];
  }

  lemma Noticed(scope: Scope, w: World, p: Parent, pod: Pod, claim: Claim, o: Snap, a: Snap, b: Snap)
    requires Scene(scope, w, p, pod, claim) && !PodRunning(pod) && Overdue(w, pod) && a.status != CreateTimeOut
    ensures Apply(scope, Trio(w, p, claim, o, a, b), PodEvent(0, pod))
      == Trio(w, p, claim, o, a.(status := CreateTimeOut), b)
    ensures TakesNotice(Trio(w, p, claim, o, a, b), PodEvent(0, pod), 0)
  {
    hide Ordinal, OwnerName, PodRunning, SlotsInLine, ClaimsInLine;
    var c := Ctx(w.(stored := Some(Copy(p, claim, o))), Copy(p, claim, a));
    assert Piece(c, PodEvent(0, pod)) == Ctx(c.w, WithStatus(c.p, 0, CreateTimeOut));
    assert WithStatus(c.p, 0, CreateTimeOut) == Copy(p, claim, a.(status := CreateTimeOut));
    Works(scope, w, p, claim, o, a, b, PodEvent(0, pod), a.(status := CreateTimeOut));
  }

  lemma SeenReady(scope: Scope, w: World, p: Parent, pod: Pod, claim: Claim, o: Snap, a: Snap, b: Snap)
    requires Scene(scope, w, p, pod, claim) && PodRunning(pod) && a.status != Running
    ensures Apply(scope, Trio(w, p, claim, o, a, b), PodEvent(0, pod))
      == Trio(w, p, claim, o, a.(status := Running), b)
  {
    hide Ordinal, OwnerName, PodRunning, SlotsInLine, ClaimsInLine;
    var c := Ctx(w.(stored := Some(Copy(p, claim, o))), Copy(p, claim, a));
    assert Piece(c, PodEvent(0, pod)) == Ctx(c.w, c.p.(pods := c.p.pods[0 := RunningSlot(c.p.pods[0], pod)]));
    assert c.p.(pods := c.p.pods[0 := RunningSlot(c.p.pods[0], pod)]) == Copy(p, claim, a.(status := Running));
    Works(scope, w, p, claim, o, a, b, PodEvent(0, pod), a.(status := Running));
  }

  lemma SeenInPhase(scope: Scope, w: World, p: Parent, pod: Pod, claim: Claim, o: Snap, a: Snap, b: Snap)
    requires Scene(scope, w, p, pod, claim) && b.status != Running
    ensures Apply(scope, Trio(w, p, claim, o, a, b), MarkPods(1)) == Trio(w, p, claim, o, a, b.(status := Running))
  {
    hide Ordinal, OwnerName, SlotsInLine, ClaimsInLine;
    var c := Ctx(w.(stored := Some(Copy(p, claim, o))), Copy(p, claim, b));
    assert OutOfStep(c.w, c.p.pods[0]);
    assert FirstOutOfStep(c.w, c.p.pods) == Some(0);
    assert WithStatus(c.p, 0, Running) == Copy(p, claim, b.(status := Running));
    Works(scope, w, p, claim, o, a, b, MarkPods(1), b.(status := Running));
  }

  lemma SeenBound(scope: Scope, w: World, p: Parent, pod: Pod, claim: Claim, o: Snap, a: Snap, b: Snap)
    requires Scene(scope, w, p, pod, claim) && !b.bound
    ensures Apply(scope, Trio(w, p, claim, o, a, b), ClaimEvent(1, claim)) == Trio(w, p, claim, o, a, b.(bound := true))
  {
    hide Ordinal, OwnerName, SlotsInLine, ClaimsInLine;
    var c := Ctx(w.(stored := Some(Copy(p, claim, o))), Copy(p, claim, b));
    assert c.p.(claims := c.p.claims[0 := BoundSlot(c.p.claims[0], claim)]) == Copy(p, claim, b.(bound := true));
    Works(scope, w, p, claim, o, a, b, ClaimEvent(1, claim), b.(bound := true));
  }

  lemma Written(scope: Scope, w: World, p: Parent, claim: Claim, o: Snap, a: Snap, b: Snap, k: nat)
    requires |p.pods| == |p.claims| == 2 && !p.deletionMarked && k < 2
    ensures var c := Held(a, b, k).(version := o.version + 1); var (x, y) := Recopied(a, b, k, c);
      Apply(scope, Trio(w, p, claim, o, a, b), Write(k)) == Trio(w, p, claim, c, x, y)
  {
  }

  lemma ReadAnew(scope: Scope, w: World, p: Parent, claim: Claim, o: Snap, a: Snap, b: Snap, k: nat)
    requires |p.pods| == |p.claims| == 2 && k < 2
    ensures var (x, y) := Recopied(a, b, k, o);
      Apply(scope, Trio(w, p, claim, o, a, b), Read(k)) == Trio(w, p, claim, o, x, y)
  {
  }

  /** The pod changes in the cluster, and nothing else. */
  lemma PodChanges(scope: Scope, w: World, p: Parent, pod: Pod, claim: Claim, o: Snap, a: Snap, b: Snap, later: Pod)
    requires Scene(scope, w, p, pod, claim) && later == pod.(conditions := later.conditions)
    ensures var v := WithPod(w, later);
      && Apply(scope, Trio(w, p, claim, o, a, b), Outside(Stores(v, p, claim, o))) == Trio(v, p, claim, o, a, b)
      && Versioned(Trio(w, p, claim, o, a, b), Outside(Stores(v, p, claim, o)))
      && Scene(scope, v, p, later, claim)
  {
    hide Shaped;
  }

  /** A pod event that finds the timeout in its copy deletes the pod. */
  lemma Deletes(scope: Scope, w: World, p: Parent, pod: Pod, claim: Claim, o: Snap, a: Snap, b: Snap)
    requires Scene(scope, w, p, pod, claim) && !PodRunning(pod) && a.status == CreateTimeOut
    ensures Destroys(scope, Trio(w, p, claim, o, a, b), PodEvent(0, pod))
  {
    hide Ordinal, OwnerName, PodRunning, DeleteClaimUntilDone, NamedByOwner, SlotsInLine, ClaimsInLine;
    var c := Ctx(w.(stored := Some(Copy(p, claim, o))), Copy(p, claim, a));
    var w1 := DeletePodIn(c.w, pod.name).0;
    assert w1.log[|c.w.log|].verb == DeletePod;
    InsistentDeleteKeepsLog(w1, ClaimName(c.p, 0));
    var d := TimedOutEffect(c, pod, 0).0;
    assert Piece(c, PodEvent(0, pod)) == d;
    assert d.w.log[|c.w.log|] == w1.log[|c.w.log|];
  }

  lemma {:induction false} InsistentDeleteKeepsLog(w: World, name: string)
    ensures var v := DeleteClaimUntilDone(w, name); |v.log| >= |w.log| && v.log[..|w.log|] == w.log
    decreases FaultsAhead(w.faults, |w.log|)
  {
    var (w1, ok) := DeleteClaimIn(w, name);
    if !ok {
      assert |w.log| in FaultsAhead(w.faults, |w.log|) - FaultsAhead(w.faults, |w1.log|);
      InsistentDeleteKeepsLog(w1, name);
      var v := DeleteClaimUntilDone(w1, name);
      assert v.log[..|w.log|] == v.log[..|w1.log|][..|w.log|];
    }
  }

  // ----- the runs -----

  /** Events show the objects as they are in the cluster. */
  ghost predicate Shows(s: System, m: Move) {
    match m
    case PodEvent(_, pod) => pod.name in s.w.pods && s.w.pods[pod.name] == pod
    case ClaimEvent(_, claim) => claim.name in s.w.claims && s.w.claims[claim.name] == claim
    case _ => true
  }

  ghost predicate ShownAt(scope: Scope, s: System, moves: seq<Move>, n: nat)
    requires n < |moves|
  {
    Shows(SystemAt(scope, s, moves, n), moves[n])
  }

  /** A run of well-formed copies, versions that the server raises and events that show what is there, whose
      move n deletes slot 0's pod for its timeout although another state was stored since the notice. */
  ghost predicate Forgets(scope: Scope, s: System, moves: seq<Move>, n: nat) {
    && AllShaped(scope, s) && NoneTimedOut(s) && VersionedRun(scope, s, moves)
    && (forall m: nat :: m < |moves| ==> ShownAt(scope, s, moves, m))
    && n < |moves| && Destroys(scope, SystemAt(scope, s, moves, n), moves[n]) && !Recorded(scope, s, moves, n, 0)
  }

  // A run, its cluster at first, and the parent and claim it is about.
  datatype Run = Run(scope: Scope, s: System, moves: seq<Move>, p: Parent, claim: Claim)

  /** State n of the run, in the cluster w. */
  ghost predicate Line(x: Run, w: World, n: nat, o: Snap, a: Snap, b: Snap)
    requires |x.p.pods| == |x.p.claims| == 2
  {
    n <= |x.moves| && SystemAt(x.scope, x.s, x.moves, n) == Trio(w, x.p, x.claim, o, a, b)
  }

  lemma Goes(x: Run, w: World, n: nat, o: Snap, a: Snap, b: Snap, v: World, o1: Snap, a1: Snap, b1: Snap)
    requires |x.p.pods| == |x.p.claims| == 2 && Line(x, w, n, o, a, b) && n < |x.moves|
    requires Apply(x.scope, Trio(w, x.p, x.claim, o, a, b), x.moves[n]) == Trio(v, x.p, x.claim, o1, a1, b1)
    ensures Line(x, v, n + 1, o1, a1, b1)
  {
    hide Apply, Trio;
  }

  lemma GoesOnNotice(x: Run, w: World, pod: Pod, n: nat, o: Snap, a: Snap, b: Snap)
    requires Scene(x.scope, w, x.p, pod, x.claim) && Line(x, w, n, o, a, b) && n < |x.moves|
    requires x.moves[n] == PodEvent(0, pod) && !PodRunning(pod) && Overdue(w, pod) && a.status != CreateTimeOut
    ensures Line(x, w, n + 1, o, a.(status := CreateTimeOut), b)
  {
    Noticed(x.scope, w, x.p, pod, x.claim, o, a, b);
    hide Apply, Trio, Line, Scene, PodRunning, Overdue;
    Goes(x, w, n, o, a, b, w, o, a.(status := CreateTimeOut), b);
  }

  lemma GoesOnReady(x: Run, w: World, pod: Pod, n: nat, o: Snap, a: Snap, b: Snap)
    requires Scene(x.scope, w, x.p, pod, x.claim) && Line(x, w, n, o, a, b) && n < |x.moves|
    requires x.moves[n] == PodEvent(0, pod) && PodRunning(pod) && a.status != Running
    ensures Line(x, w, n + 1, o, a.(status := Running), b)
  {
    SeenReady(x.scope, w, x.p, pod, x.claim, o, a, b);
    hide Apply, Trio, Line, Scene, PodRunning;
    Goes(x, w, n, o, a, b, w, o, a.(status := Running), b);
  }

  lemma GoesOnPhase(x: Run, w: World, pod: Pod, n: nat, o: Snap, a: Snap, b: Snap)
    requires Scene(x.scope, w, x.p, pod, x.claim) && Line(x, w, n, o, a, b) && n < |x.moves|
    requires x.moves[n] == MarkPods(1) && b.status != Running
    ensures Line(x, w, n + 1, o, a, b.(status := Running))
  {
    SeenInPhase(x.scope, w, x.p, pod, x.claim, o, a, b);
    hide Apply, Trio, Line, Scene;
    Goes(x, w, n, o, a, b, w, o, a, b.(status := Running));
  }

  lemma GoesOnClaim(x: Run, w: World, pod: Pod, n: nat, o: Snap, a: Snap, b: Snap)
    requires Scene(x.scope, w, x.p, pod, x.claim) && Line(x, w, n, o, a, b) && n < |x.moves|
    requires x.moves[n] == ClaimEvent(1, x.claim) && !b.bound
    ensures Line(x, w, n + 1, o, a, b.(bound := true))
  {
    SeenBound(x.scope, w, x.p, pod, x.claim, o, a, b);
    hide Apply, Trio, Line, Scene;
    Goes(x, w, n, o, a, b, w, o, a, b.(bound := true));
  }

  lemma GoesOnWrite(x: Run, w: World, n: nat, k: nat, o: Snap, a: Snap, b: Snap)
    requires |x.p.pods| == |x.p.claims| == 2 && !x.p.deletionMarked && Line(x, w, n, o, a, b) && n < |x.moves|
    requires x.moves[n] == Write(k) && k < 2
    ensures var c := (if k == 0 then a else b).(version := o.version + 1);
      Line(x, w, n + 1, c, if k == 0 then c else a, if k == 0 then b else c)
  {
    Written(x.scope, w, x.p, x.claim, o, a, b, k);
    hide Apply, Trio, Line;
    var c := Held(a, b, k).(version := o.version + 1);
    Goes(x, w, n, o, a, b, w, c, if k == 0 then c else a, if k == 0 then b else c);
  }

  lemma GoesOnRead(x: Run, w: World, n: nat, k: nat, o: Snap, a: Snap, b: Snap)
    requires |x.p.pods| == |x.p.claims| == 2 && Line(x, w, n, o, a, b) && n < |x.moves|
    requires x.moves[n] == Read(k) && k < 2
    ensures Line(x, w, n + 1, o, if k == 0 then o else a, if k == 0 then b else o)
  {
    ReadAnew(x.scope, w, x.p, x.claim, o, a, b, k);
    hide Apply, Trio, Line;
    Goes(x, w, n, o, a, b, w, o, if k == 0 then o else a, if k == 0 then b else o);
  }

  lemma GoesOnOutside(x: Run, w: World, pod: Pod, later: Pod, n: nat, o: Snap, a: Snap, b: Snap)
    requires Scene(x.scope, w, x.p, pod, x.claim) && Line(x, w, n, o, a, b) && n < |x.moves|
    requires later == pod.(conditions := later.conditions)
    requires x.moves[n] == Outside(Stores(WithPod(w, later), x.p, x.claim, o))
    ensures Line(x, WithPod(w, later), n + 1, o, a, b)
    ensures Scene(x.scope, WithPod(w, later), x.p, later, x.claim)
    ensures VersionedAt(x.scope, x.s, x.moves, n)
  {
    PodChanges(x.scope, w, x.p, pod, x.claim, o, a, b, later);
    assert VersionedAt(x.scope, x.s, x.moves, n);
    hide Apply, Line, Scene, VersionedAt, WithPod, Stores;
    Goes(x, w, n, o, a, b, WithPod(w, later), o, a, b);
  }

  ghost function StoredVersion(x: Run, n: nat): Option<nat>
    requires n <= |x.moves|
  {
    var p := SystemAt(x.scope, x.s, x.moves, n).w.stored;
    if p.None? then None else Some(p.value.version)
  }

  lemma LineMeans(x: Run, w: World, n: nat, o: Snap, a: Snap, b: Snap)
    requires |x.p.pods| == |x.p.claims| == 2 && Line(x, w, n, o, a, b)
    ensures n <= |x.moves| && StatusAt(x.scope, x.s, x.moves, n, 0) == Some(o.status)
    ensures StandsAt(x.scope, x.s, x.moves, n, 0) <==> o.status == CreateTimeOut
    ensures MeetsVersion(SystemAt(x.scope, x.s, x.moves, n), 0) <==> a.version == o.version
    ensures MeetsVersion(SystemAt(x.scope, x.s, x.moves, n), 1) <==> b.version == o.version
    ensures StoredVersion(x, n) == Some(o.version)
  {
    hide SystemAt;
  }

  lemma LineShows(x: Run, w: World, pod: Pod, n: nat, o: Snap, a: Snap, b: Snap)
    requires Scene(x.scope, w, x.p, pod, x.claim) && Line(x, w, n, o, a, b) && n < |x.moves|
    requires x.moves[n] in {PodEvent(0, pod), ClaimEvent(1, x.claim)}
    ensures ShownAt(x.scope, x.s, x.moves, n)
  {
    hide SystemAt;
  }

  lemma LineDeletes(x: Run, w: World, pod: Pod, n: nat, o: Snap, a: Snap, b: Snap)
    requires Scene(x.scope, w, x.p, pod, x.claim) && Line(x, w, n, o, a, b) && n < |x.moves|
    requires x.moves[n] == PodEvent(0, pod) && !PodRunning(pod) && a.status == CreateTimeOut
    ensures Destroys(x.scope, SystemAt(x.scope, x.s, x.moves, n), x.moves[n])
  {
    Deletes(x.scope, w, x.p, pod, x.claim, o, a, b);
  }

  lemma InsideIsVersioned(x: Run, n: nat)
    requires n < |x.moves| && !x.moves[n].Outside?
    ensures VersionedAt(x.scope, x.s, x.moves, n)
  {
  }

  lemma OthersAreShown(x: Run, n: nat)
    requires n < |x.moves| && !x.moves[n].PodEvent? && !x.moves[n].ClaimEvent?
    ensures ShownAt(x.scope, x.s, x.moves, n)
  {
  }

  /** Something was stored between 0 and l, where no timeout stands, and before n no notice was taken but the one
      of move 0. */
  lemma NotRecorded(x: Run, l: nat, n: nat)
    requires 0 < l <= n <= |x.moves|
    requires StoredVersion(x, l) != StoredVersion(x, 0) && !StandsAt(x.scope, x.s, x.moves, l, 0)
    requires forall j: nat :: 0 < j < n ==> !TakesNotice(SystemAt(x.scope, x.s, x.moves, j), x.moves[j], 0)
    ensures !Recorded(x.scope, x.s, x.moves, n, 0)
  {
    hide SystemAt, TakesNotice, StandsAt, Raises, Holds, MeetsVersion;
    if Recorded(x.scope, x.s, x.moves, n, 0) {
      var j: nat, m: nat :| j < m < n && NoticeOf(x.scope, x.s, x.moves, j, m, n, 0);
      if m >= l {
        NothingStoredMeans(x, l, m);
      }
    }
  }

  lemma NothingStoredMeans(x: Run, l: nat, m: nat)
    requires l <= m <= |x.moves| && NothingStored(x.scope, x.s, x.moves, 0, m)
    ensures StoredVersion(x, l) == StoredVersion(x, 0)
  {
    hide SystemAt;
  }

  lemma TrioStarts(scope: Scope, w: World, p: Parent, pod: Pod, claim: Claim)
    requires Slow(scope, w, p, pod, claim)
    ensures var s := System(w, [Some(p), Some(p)]); AllShaped(scope, s) && NoneTimedOut(s) && Ordered(s)
  {
  }

  // --- a notice written over Running ---

  function OverRunning(pod: Pod): seq<Move> {
    [ PodEvent(0, pod),         // the notice
      MarkPods(1), Write(1),    // the other reconciler records Running, by the pod's phase
      Write(0),                 // the notice is recorded over it
      Read(0), PodEvent(0, pod) ]
  }

  lemma OverRunningStates(x: Run, w: World, pod: Pod, o: Snap, t: Snap, r: Snap)
    requires Scene(x.scope, w, x.p, pod, x.claim) && !PodRunning(pod) && Overdue(w, pod)
    requires |x.p.pods| == |x.p.claims| == 2 && !x.p.deletionMarked
    requires |x.moves| == 6 && x.moves[0] == PodEvent(0, pod) && x.moves[1] == MarkPods(1)
    requires x.moves[2] == Write(1) && x.moves[3] == Write(0) && x.moves[4] == Read(0)
    requires o.status == Preparing && t == o.(status := CreateTimeOut) && r == o.(status := Running)
    requires Line(x, w, 0, o, o, o)
    ensures Line(x, w, 1, o, t, o) && Line(x, w, 2, o, t, r)
    ensures var r1, t2 := r.(version := o.version + 1), t.(version := o.version + 2);
      Line(x, w, 3, r1, t, r1) && Line(x, w, 4, t2, t2, r1) && Line(x, w, 5, t2, t2, r1)
  {
    hide *;
    GoesOnNotice(x, w, pod, 0, o, o, o);
    GoesOnPhase(x, w, pod, 1, o, t, o);
    GoesOnWrite(x, w, 2, 1, o, t, r);
    var r1, t2 := r.(version := o.version + 1), t.(version := o.version + 2);
    GoesOnWrite(x, w, 3, 0, r1, t, r1);
    GoesOnRead(x, w, 4, 0, t2, t2, r1);
  }

  ghost predicate Opening(x: Run) {
    AllShaped(x.scope, x.s) && NoneTimedOut(x.s) && Ordered(x.s)
  }

  lemma OpeningMeans(x: Run)
    requires Opening(x)
    ensures AllShaped(x.scope, x.s) && NoneTimedOut(x.s) && Ordered(x.s)
  {
  }

  lemma LineStarts(x: Run, w: World, pod: Pod)
    requires Slow(x.scope, w, x.p, pod, x.claim) && x.s == System(w, [Some(x.p), Some(x.p)])
    ensures |x.p.pods| == |x.p.claims| == 2 && !x.p.deletionMarked
    ensures Scene(x.scope, w, x.p, pod, x.claim) && !PodRunning(pod) && Overdue(w, pod)
    ensures var o := Snap(x.p.pods[0].status, false, x.p.version);
      o.status in {Preparing, Running} && Line(x, w, 0, o, o, o) && Opening(x)
  {
    SlowScene(x.scope, w, x.p, pod, x.claim);
    TrioStarts(x.scope, w, x.p, pod, x.claim);
  }

  lemma OnlyFirstNotice(x: Run, n: nat)
    requires n <= |x.moves| && forall j: nat :: 0 < j < n ==> !x.moves[j].PodEvent?
    ensures forall j: nat :: 0 < j < n ==> !TakesNotice(SystemAt(x.scope, x.s, x.moves, j), x.moves[j], 0)
  {
  }

  lemma ForgetsMeans(x: Run, n: nat)
    requires AllShaped(x.scope, x.s) && NoneTimedOut(x.s) && Ordered(x.s)
    requires forall m: nat :: m < |x.moves| ==>
      VersionedAt(x.scope, x.s, x.moves, m) && ShownAt(x.scope, x.s, x.moves, m)
    requires n < |x.moves| && Destroys(x.scope, SystemAt(x.scope, x.s, x.moves, n), x.moves[n])
    requires !Recorded(x.scope, x.s, x.moves, n, 0)
    ensures Forgets(x.scope, x.s, x.moves, n)
  {
    hide AllShaped, NoneTimedOut, Ordered, VersionedAt, ShownAt, Destroys, SystemAt, Recorded;
  }

  lemma RaisesMeans(x: Run, m: nat)
    requires m < |x.moves|
    requires !StandsAt(x.scope, x.s, x.moves, m, 0) && StandsAt(x.scope, x.s, x.moves, m + 1, 0)
    ensures Raises(x.scope, x.s, x.moves, m, 0)
  {
    hide StandsAt;
  }

  /** The moves of a run of six or more are versioned and shown if its outside moves and events are. */
  lemma AllVersionedAndShown(x: Run)
    requires forall m: nat :: m < |x.moves| && x.moves[m].Outside? ==> VersionedAt(x.scope, x.s, x.moves, m)
    requires forall m: nat :: m < |x.moves| && (x.moves[m].PodEvent? || x.moves[m].ClaimEvent?) ==>
      ShownAt(x.scope, x.s, x.moves, m)
    ensures forall m: nat :: m < |x.moves| ==>
      VersionedAt(x.scope, x.s, x.moves, m) && ShownAt(x.scope, x.s, x.moves, m)
  {
    hide VersionedAt, ShownAt;
    forall m: nat | m < |x.moves| ensures VersionedAt(x.scope, x.s, x.moves, m) && ShownAt(x.scope, x.s, x.moves, m) {
      if !x.moves[m].Outside? {
        InsideIsVersioned(x, m);
      }
      if !x.moves[m].PodEvent? && !x.moves[m].ClaimEvent? {
        OthersAreShown(x, m);
      }
    }
  }

  lemma OverRunningForgets(x: Run, w: World, pod: Pod, o: Snap)
    requires Opening(x) && Scene(x.scope, w, x.p, pod, x.claim) && !PodRunning(pod) && Overdue(w, pod)
    requires |x.p.pods| == |x.p.claims| == 2 && !x.p.deletionMarked && Line(x, w, 0, o, o, o)
    requires o == Snap(x.p.pods[0].status, false, x.p.version) && o.status == Preparing
    requires |x.moves| == 6 && x.moves[0] == x.moves[5] == PodEvent(0, pod) && x.moves[1] == MarkPods(1)
    requires x.moves[2] == Write(1) && x.moves[3] == Write(0) && x.moves[4] == Read(0)
    ensures Forgets(x.scope, x.s, x.moves, 5) && StatusAt(x.scope, x.s, x.moves, 3, 0) == Some(Running)
    ensures StandsAt(x.scope, x.s, x.moves, 5, 0)
    ensures Raises(x.scope, x.s, x.moves, 3, 0) && !MeetsVersion(SystemAt(x.scope, x.s, x.moves, 3), 0)
  {
    hide *;
    var t, r := o.(status := CreateTimeOut), o.(status := Running);
    var r1, t2 := r.(version := o.version + 1), t.(version := o.version + 2);
    OverRunningStates(x, w, pod, o, t, r);
    LineMeans(x, w, 0, o, o, o);
    LineMeans(x, w, 3, r1, t, r1);
    LineMeans(x, w, 4, t2, t2, r1);
    LineMeans(x, w, 5, t2, t2, r1);
    RaisesMeans(x, 3);
    LineShows(x, w, pod, 0, o, o, o);
    LineShows(x, w, pod, 5, t2, t2, r1);
    AllVersionedAndShown(x);
    LineDeletes(x, w, pod, 5, t2, t2, r1);
    OnlyFirstNotice(x, 5);
    NotRecorded(x, 3, 5);
    OpeningMeans(x);
    ForgetsMeans(x, 5);
  }

  /** Of a slot that is Preparing at first. The write of the notice does not meet its version; when the timeout is
      acted on, it is what is stored. */
  lemma NoticeOverRunning(scope: Scope, w: World, p: Parent, pod: Pod, claim: Claim)
    requires Slow(scope, w, p, pod, claim) && p.pods[0].status == Preparing
    ensures var s, moves := System(w, [Some(p), Some(p)]), OverRunning(pod);
      && Forgets(scope, s, moves, 5) && StatusAt(scope, s, moves, 3, 0) == Some(Running)
      && StandsAt(scope, s, moves, 5, 0)
      && Raises(scope, s, moves, 3, 0) && !MeetsVersion(SystemAt(scope, s, moves, 3), 0)
  {
    var x := Run(scope, System(w, [Some(p), Some(p)]), OverRunning(pod), p, claim);
    LineStarts(x, w, pod);
    hide Slow, Scene, Opening, Forgets, StatusAt, StandsAt, Raises, MeetsVersion, SystemAt, Line;
    hide PodRunning, Overdue;
    OverRunningForgets(x, w, pod, Snap(p.pods[0].status, false, p.version));
  }

  // --- a delete from an older copy ---

  function FromOlderCopy(pod: Pod): seq<Move> {
    [ PodEvent(0, pod), Write(0),     // the notice, recorded
      Read(0), Read(1),
      MarkPods(1), Write(1),          // the other reconciler records Running over it
      PodEvent(0, pod) ]              // the first acts on the copy it read before
  }

  lemma FromOlderCopyMoves(pod: Pod)
    ensures var moves := FromOlderCopy(pod);
      && |moves| == 7 && moves[0] == moves[6] == PodEvent(0, pod) && moves[1] == Write(0)
      && moves[2] == Read(0) && moves[3] == Read(1) && moves[4] == MarkPods(1) && moves[5] == Write(1)
  {
  }

  lemma OlderCopyStates(x: Run, w: World, pod: Pod, o: Snap, t: Snap)
    requires Scene(x.scope, w, x.p, pod, x.claim) && !PodRunning(pod) && Overdue(w, pod)
    requires |x.p.pods| == |x.p.claims| == 2 && !x.p.deletionMarked
    requires |x.moves| == 7 && x.moves[0] == PodEvent(0, pod) && x.moves[1] == Write(0)
    requires x.moves[2] == Read(0) && x.moves[3] == Read(1) && x.moves[4] == MarkPods(1) && x.moves[5] == Write(1)
    requires o.status != CreateTimeOut && t == o.(status := CreateTimeOut)
    requires Line(x, w, 0, o, o, o)
    ensures var t1 := t.(version := o.version + 1);
      var r1, r2 := t1.(status := Running), Snap(Running, o.bound, o.version + 2);
      && Line(x, w, 1, o, t, o) && Line(x, w, 2, t1, t1, o) && Line(x, w, 3, t1, t1, o) && Line(x, w, 4, t1, t1, t1)
      && Line(x, w, 5, t1, t1, r1) && Line(x, w, 6, r2, t1, r2)
  {
    hide *;
    var t1 := t.(version := o.version + 1);
    var r1 := t1.(status := Running);
    GoesOnNotice(x, w, pod, 0, o, o, o);
    GoesOnWrite(x, w, 1, 0, o, t, o);
    GoesOnRead(x, w, 2, 0, t1, t1, o);
    GoesOnRead(x, w, 3, 1, t1, t1, o);
    GoesOnPhase(x, w, pod, 4, t1, t1, t1);
    GoesOnWrite(x, w, 5, 1, t1, t1, r1);
  }

  lemma OlderCopyForgets(x: Run, w: World, pod: Pod, o: Snap)
    requires Opening(x) && Scene(x.scope, w, x.p, pod, x.claim) && !PodRunning(pod) && Overdue(w, pod)
    requires |x.p.pods| == |x.p.claims| == 2 && !x.p.deletionMarked && Line(x, w, 0, o, o, o)
    requires o == Snap(x.p.pods[0].status, false, x.p.version) && o.status != CreateTimeOut
    requires |x.moves| == 7 && x.moves[0] == x.moves[6] == PodEvent(0, pod) && x.moves[1] == Write(0)
    requires x.moves[2] == Read(0) && x.moves[3] == Read(1) && x.moves[4] == MarkPods(1) && x.moves[5] == Write(1)
    ensures Forgets(x.scope, x.s, x.moves, 6) && StatusAt(x.scope, x.s, x.moves, 6, 0) == Some(Running)
    ensures StandsAt(x.scope, x.s, x.moves, 2, 0) && EachInTime(x, 6)
  {
    hide *;
    var t := o.(status := CreateTimeOut);
    var t1 := t.(version := o.version + 1);
    var r1, r2 := t1.(status := Running), Snap(Running, o.bound, o.version + 2);
    OlderCopyStates(x, w, pod, o, t);
    LineMeans(x, w, 0, o, o, o);
    LineMeans(x, w, 1, o, t, o);
    LineMeans(x, w, 2, t1, t1, o);
    LineMeans(x, w, 3, t1, t1, o);
    LineMeans(x, w, 4, t1, t1, t1);
    LineMeans(x, w, 5, t1, t1, r1);
    LineMeans(x, w, 6, r2, t1, r2);
    LineShows(x, w, pod, 0, o, o, o);
    LineShows(x, w, pod, 6, r2, t1, r2);
    AllVersionedAndShown(x);
    LineDeletes(x, w, pod, 6, r2, t1, r2);
    OnlyFirstNotice(x, 6);
    NotRecorded(x, 6, 6);
    OpeningMeans(x);
    ForgetsMeans(x, 6);
    RaisedOnce(x);
  }

  /** Every write before n that makes a timeout of slot 0 stand meets its version. */
  ghost predicate EachInTime(x: Run, n: nat)
    requires n <= |x.moves|
  {
    forall m: nat :: m < n && Raises(x.scope, x.s, x.moves, m, 0) ==>
      x.moves[m].Write? && MeetsVersion(SystemAt(x.scope, x.s, x.moves, m), x.moves[m].k)
  }

  lemma RaisedOnce(x: Run)
    requires |x.moves| == 7 && x.moves[1] == Write(0) && MeetsVersion(SystemAt(x.scope, x.s, x.moves, 1), 0)
    requires forall n: nat :: 2 <= n <= 5 ==> StandsAt(x.scope, x.s, x.moves, n, 0)
    requires !StandsAt(x.scope, x.s, x.moves, 0, 0) && !StandsAt(x.scope, x.s, x.moves, 1, 0)
    ensures EachInTime(x, 6)
  {
    hide StandsAt, SystemAt, MeetsVersion;
  }

  /** The timeout is stored, and every write that raises it meets its version; but when it is acted on, Running is
      stored. */
  lemma DeleteFromOlderCopy(scope: Scope, w: World, p: Parent, pod: Pod, claim: Claim)
    requires Slow(scope, w, p, pod, claim)
    ensures var s, moves := System(w, [Some(p), Some(p)]), FromOlderCopy(pod);
      && Forgets(scope, s, moves, 6) && StatusAt(scope, s, moves, 6, 0) == Some(Running)
      && StandsAt(scope, s, moves, 2, 0) && EachInTime(Run(scope, s, moves, p, claim), 6)
  {
    hide *;
    ReadyRuns(scope, w, p, pod, claim);
    var x := Run(scope, System(w, [Some(p), Some(p)]), FromOlderCopy(pod), p, claim);
    LineStarts(x, w, pod);
    FromOlderCopyMoves(pod);
    OlderCopyForgets(x, w, pod, Snap(p.pods[0].status, false, p.version));
  }

  // --- a timeout brought back over Running ---

  function BroughtBack(w: World, p: Parent, pod: Pod, claim: Claim): seq<Move>
    requires |p.pods| == |p.claims| == 2
  {
    var v := WithPod(w, Ready(pod));
    [ PodEvent(0, pod), Write(0), Read(1),    // the notice, recorded, and a copy that has it
      Outside(Stores(v, p, claim, Snap(CreateTimeOut, false, p.version + 1))),
      PodEvent(0, Ready(pod)), Write(0),      // the pod is ready, and recorded Running
      ClaimEvent(1, claim), Write(1),         // the older copy is written back for a claim event
      Outside(Stores(WithPod(v, pod), p, claim, Snap(CreateTimeOut, true, p.version + 3))),
      Read(0), PodEvent(0, pod) ]             // the next time the pod is not ready
  }

  lemma BroughtBackStates(
    x: Run, w: World, v: World, u: World, pod: Pod, ready: Pod, o: Snap, t: Snap, r: Snap, c: Snap)
    requires Scene(x.scope, w, x.p, pod, x.claim) && !PodRunning(pod) && Overdue(w, pod) && PodRunning(ready)
    requires |x.p.pods| == |x.p.claims| == 2 && !x.p.deletionMarked
    requires ready == pod.(conditions := ready.conditions) && pod == ready.(conditions := pod.conditions)
    requires v == WithPod(w, ready) && u == WithPod(v, pod)
    requires t == Snap(CreateTimeOut, false, o.version + 1) && r == Snap(Running, false, o.version + 2)
    requires o.status != CreateTimeOut && !o.bound && c == Snap(CreateTimeOut, true, o.version + 3)
    requires |x.moves| == 11 && x.moves[0] == PodEvent(0, pod) && x.moves[4] == PodEvent(0, ready)
    requires x.moves[1] == x.moves[5] == Write(0) && x.moves[2] == Read(1) && x.moves[6] == ClaimEvent(1, x.claim)
    requires x.moves[7] == Write(1) && x.moves[9] == Read(0)
    requires x.moves[3] == Outside(Stores(v, x.p, x.claim, t)) && x.moves[8] == Outside(Stores(u, x.p, x.claim, c))
    requires Line(x, w, 0, o, o, o)
    ensures Line(x, w, 1, o, o.(status := CreateTimeOut), o) && Line(x, v, 4, t, t, t)
    ensures Line(x, v, 6, r, r, t) && Line(x, v, 7, r, r, t.(bound := true)) && Line(x, v, 8, c, r, c)
    ensures Line(x, u, 10, c, c, c)
    ensures VersionedAt(x.scope, x.s, x.moves, 3) && VersionedAt(x.scope, x.s, x.moves, 8)
    ensures Scene(x.scope, v, x.p, ready, x.claim) && Scene(x.scope, u, x.p, pod, x.claim)
  {
    hide *;
    GoesOnNotice(x, w, pod, 0, o, o, o);
    GoesOnWrite(x, w, 1, 0, o, o.(status := CreateTimeOut), o);
    GoesOnRead(x, w, 2, 1, t, t, o);
    GoesOnOutside(x, w, pod, ready, 3, t, t, t);
    GoesOnReady(x, v, ready, 4, t, t, t);
    GoesOnWrite(x, v, 5, 0, t, t.(status := Running), t);
    GoesOnClaim(x, v, ready, 6, r, r, t);
    GoesOnWrite(x, v, 7, 1, r, r, t.(bound := true));
    GoesOnOutside(x, v, ready, pod, 8, c, r, c);
    GoesOnRead(x, u, 9, 0, c, r, c);
  }

  lemma ReadyIsNoNotice(x: Run, ready: Pod, n: nat)
    requires n < |x.moves| && x.moves[n] == PodEvent(0, ready) && PodRunning(ready)
    ensures !TakesNotice(SystemAt(x.scope, x.s, x.moves, n), x.moves[n], 0)
  {
  }

  lemma NoOtherNotices(x: Run, ready: Pod)
    requires |x.moves| == 11 && !TakesNotice(SystemAt(x.scope, x.s, x.moves, 4), x.moves[4], 0)
    requires forall j: nat :: 0 < j < 10 && j != 4 ==> !x.moves[j].PodEvent?
    ensures forall j: nat :: 0 < j < 10 ==> !TakesNotice(SystemAt(x.scope, x.s, x.moves, j), x.moves[j], 0)
  {
    forall j: nat | 0 < j < 10 ensures !TakesNotice(SystemAt(x.scope, x.s, x.moves, j), x.moves[j], 0) {
      if j != 4 {
        assert !x.moves[j].PodEvent?;
      }
    }
  }

  lemma BroughtBackForgets(x: Run, w: World, v: World, u: World, pod: Pod, ready: Pod, o: Snap)
    requires Opening(x) && Scene(x.scope, w, x.p, pod, x.claim) && !PodRunning(pod) && Overdue(w, pod)
    requires PodRunning(ready) && ready == pod.(conditions := ready.conditions)
    requires pod == ready.(conditions := pod.conditions)
    requires v == WithPod(w, ready) && u == WithPod(v, pod)
    requires |x.p.pods| == |x.p.claims| == 2 && !x.p.deletionMarked && Line(x, w, 0, o, o, o)
    requires o == Snap(x.p.pods[0].status, false, x.p.version) && o.status != CreateTimeOut
    requires |x.moves| == 11 && x.moves[0] == x.moves[10] == PodEvent(0, pod) && x.moves[4] == PodEvent(0, ready)
    requires x.moves[1] == x.moves[5] == Write(0) && x.moves[2] == Read(1) && x.moves[6] == ClaimEvent(1, x.claim)
    requires x.moves[7] == Write(1) && x.moves[9] == Read(0)
    requires x.moves[3] == Outside(Stores(v, x.p, x.claim, Snap(CreateTimeOut, false, o.version + 1)))
    requires x.moves[8] == Outside(Stores(u, x.p, x.claim, Snap(CreateTimeOut, true, o.version + 3)))
    ensures Forgets(x.scope, x.s, x.moves, 10) && StatusAt(x.scope, x.s, x.moves, 6, 0) == Some(Running)
    ensures StandsAt(x.scope, x.s, x.moves, 4, 0) && StandsAt(x.scope, x.s, x.moves, 10, 0)
    ensures Raises(x.scope, x.s, x.moves, 7, 0) && !MeetsVersion(SystemAt(x.scope, x.s, x.moves, 7), 1)
  {
    hide *;
    var t, r := Snap(CreateTimeOut, false, o.version + 1), Snap(Running, false, o.version + 2);
    var c := Snap(CreateTimeOut, true, o.version + 3);
    BroughtBackStates(x, w, v, u, pod, ready, o, t, r, c);
    LineMeans(x, w, 0, o, o, o);
    LineMeans(x, v, 4, t, t, t);
    LineMeans(x, v, 6, r, r, t);
    LineMeans(x, v, 7, r, r, t.(bound := true));
    LineMeans(x, v, 8, c, r, c);
    LineMeans(x, u, 10, c, c, c);
    RaisesMeans(x, 7);
    LineShows(x, w, pod, 0, o, o, o);
    LineShows(x, v, ready, 4, t, t, t);
    LineShows(x, v, ready, 6, r, r, t);
    LineShows(x, u, pod, 10, c, c, c);
    AllVersionedAndShown(x);
    LineDeletes(x, u, pod, 10, c, c, c);
    ReadyIsNoNotice(x, ready, 4);
    NoOtherNotices(x, ready);
    NotRecorded(x, 6, 10);
    OpeningMeans(x);
    ForgetsMeans(x, 10);
  }

  lemma ReadyRuns(scope: Scope, w: World, p: Parent, pod: Pod, claim: Claim)
    requires Slow(scope, w, p, pod, claim)
    ensures PodRunning(Ready(pod)) && |p.pods| == |p.claims| == 2
  {
  }

  lemma ReadyDiffers(pod: Pod)
    ensures Ready(pod) == pod.(conditions := Ready(pod).conditions) && pod == Ready(pod).(conditions := pod.conditions)
  {
  }

  lemma BroughtBackMoves(w: World, p: Parent, pod: Pod, claim: Claim)
    requires |p.pods| == |p.claims| == 2
    ensures var moves, v := BroughtBack(w, p, pod, claim), WithPod(w, Ready(pod));
      && |moves| == 11 && moves[0] == moves[10] == PodEvent(0, pod) && moves[4] == PodEvent(0, Ready(pod))
      && moves[1] == moves[5] == Write(0) && moves[2] == Read(1) && moves[6] == ClaimEvent(1, claim)
      && moves[7] == Write(1) && moves[9] == Read(0)
      && moves[3] == Outside(Stores(v, p, claim, Snap(CreateTimeOut, false, p.version + 1)))
      && moves[8] == Outside(Stores(WithPod(v, pod), p, claim, Snap(CreateTimeOut, true, p.version + 3)))
  {
    hide Stores, WithPod, Ready;
  }

  /** Running is recorded after the timeout, an older copy that had only read the timeout brings it back, and
      the pod is then deleted at the first sign of trouble: the write of that copy does not meet its version. */
  lemma StaleTimeoutRestored(scope: Scope, w: World, p: Parent, pod: Pod, claim: Claim)
    requires Slow(scope, w, p, pod, claim) && |p.claims| == 2
    ensures var s, moves := System(w, [Some(p), Some(p)]), BroughtBack(w, p, pod, claim);
      && Forgets(scope, s, moves, 10) && StatusAt(scope, s, moves, 6, 0) == Some(Running)
      && StandsAt(scope, s, moves, 4, 0) && StandsAt(scope, s, moves, 10, 0)
      && Raises(scope, s, moves, 7, 0) && !MeetsVersion(SystemAt(scope, s, moves, 7), 1)
  {
    hide *;
    ReadyRuns(scope, w, p, pod, claim);
    var x := Run(scope, System(w, [Some(p), Some(p)]), BroughtBack(w, p, pod, claim), p, claim);
    LineStarts(x, w, pod);
    ReadyDiffers(pod);
    BroughtBackMoves(w, p, pod, claim);
    var v := WithPod(w, Ready(pod));
    BroughtBackForgets(x, w, v, WithPod(v, pod), pod, Ready(pod), Snap(p.pods[0].status, false, p.version));
  }
}
