// Convergence: every fair run reaches the requested size with every slot settled, and stays there.
module ConvergenceTheorem {
  import opened Types
  import opened Api
  import opened Controller
  import opened Convergence
  import opened ConvergenceSteps
  import opened ConvergenceCore
  import opened FairRuns

  ghost predicate Reached(w: World) {
    && w.stored.Some? && |w.stored.value.pods| == |w.stored.value.claims|
    && Settled(w, w.stored.value)
  }

  ghost function Measure(w: World): nat {
    if w.stored.Some? && |w.stored.value.pods| == |w.stored.value.claims| then Total(w, w.stored.value) else 0
  }

  ghost function Help(w: World): Action {
    if w.stored.Some? && |w.stored.value.pods| == |w.stored.value.claims|
    then HelpFor(w, w.stored.value) else ReconcileParent
  }

  /** What must keep happening: reconciles of the parent and of each slot's pod and claim, and the
      cluster's own work on them. */
  ghost function FairActions(bound: nat): set<Action> {
    {ReconcileParent}
    + (set i: nat | i < bound :: ReconcilePod(i)) + (set i: nat | i < bound :: ReconcileClaim(i))
    + (set i: nat | i < bound :: PodStarts(i)) + (set i: nat | i < bound :: PodVanishes(i))
    + (set i: nat | i < bound :: ClaimBinds(i)) + (set i: nat | i < bound :: ClaimVanishes(i))
  }

  lemma ActFine(w: World, p: Parent, a: Action)
    requires w.stored == Some(p) && Good(w, p)
    ensures Fine(w, p, Act(w, p, a)) || Advanced(w, p, Act(w, p, a))
  {
    assert |p.pods| == |p.claims|;
    hide Core, PodReconciled, ClaimReconciled, PodStarted, PodGone, ClaimBound, ClaimGone, Later, Good, Fine, Advanced;
    match a
    case ReconcileParent => CoreFine(w, p);
    case ReconcilePod(i) => PodReconcilesFine(w, p, i);
    case ReconcileClaim(i) => ClaimReconcilesFine(w, p, i);
    case PodStarts(i) => PodStartsFine(w, p, i);
    case PodVanishes(i) => PodVanishesFine(w, p, i);
    case ClaimBinds(i) => ClaimBindsFine(w, p, i);
    case ClaimVanishes(i) => ClaimVanishesFine(w, p, i);
    case TimePasses(d) => TimePassesFine(w, p, d);
  }

  lemma StepNeverWorse(w: World, a: Action, bound: nat)
    requires Inv(w, bound)
    ensures var v := Step(w, a);
      && Inv(v, bound) && v.stored.value.spec.size == w.stored.value.spec.size
      && Measure(v) <= Measure(w)
      && (Reached(w) ==> Reached(v))
      && (Measure(v) == Measure(w) ==> Help(v) == Help(w))
  {
    var p, v := w.stored.value, Step(w, a);
    ActFine(w, p, a);
    if Fine(w, p, v) {
      NoFurtherTotal(w, p, v, v.stored.value);
    }
  }

  /** The first slot that waits for something is in range, and what it waits for is possible. */
  lemma {:induction false} FirstHelpOf(w: World, p: Parent, m: nat) returns (i: nat)
    requires m <= |p.pods| == |p.claims| && FirstHelp(w, p, m) != ReconcileParent
    ensures i < m && SlotHelp(PodWork(w, p, i), ClaimWork(w, p, i), i) == Some(FirstHelp(w, p, m))
  {
    i := m - 1;
    if SlotHelp(PodWork(w, p, i), ClaimWork(w, p, i), i).None? {
      i := FirstHelpOf(w, p, m - 1);
    }
  }

  /** In a good state the cluster can do what a slot waits for. */
  lemma SlotHelpPossible(w: World, p: Parent, i: nat)
    requires Good(w, p) && i < |p.pods| <= p.spec.size
    ensures match SlotHelp(PodWork(w, p, i), ClaimWork(w, p, i), i)
      case Some(PodStarts(j)) => j == i && CanStart(w, p, i) && PodWork(w, p, i) >= 2
      case Some(PodVanishes(j)) => j == i && CanVanish(w, p, i)
      case Some(ClaimBinds(j)) => j == i && ClaimWork(w, p, i) in {2, 3}
      case Some(ClaimVanishes(j)) => j == i && ClaimWork(w, p, i) == 5
      case Some(ReconcilePod(j)) => j == i && PodWork(w, p, i) == 1
      case Some(ReconcileClaim(j)) => j == i && ClaimWork(w, p, i) == 1
      case a => a == None
  {
    assert GoodSlot(w, p, i);
  }

  lemma SlotHelpHelps(w: World, p: Parent, i: nat)
    requires w.stored == Some(p) && Good(w, p) && i < |p.pods| <= p.spec.size
    requires SlotHelp(PodWork(w, p, i), ClaimWork(w, p, i), i).Some?
    ensures Closer(w, p, Act(w, p, SlotHelp(PodWork(w, p, i), ClaimWork(w, p, i), i).value))
  {
    assert |p.pods| == |p.claims|;
    hide Core, PodReconciled, ClaimReconciled, PodStarted, PodGone, ClaimBound, ClaimGone, Closer;
    hide Good, PodWork, ClaimWork, SlotHelp, CanStart, CanVanish;
    SlotHelpPossible(w, p, i);
    match SlotHelp(PodWork(w, p, i), ClaimWork(w, p, i), i).value
    case ReconcilePod(_) => PodReconcilesFine(w, p, i);
    case ReconcileClaim(_) => ClaimReconcilesFine(w, p, i);
    case PodStarts(_) => PodStartsFine(w, p, i);
    case PodVanishes(_) => PodVanishesFine(w, p, i);
    case ClaimBinds(_) => ClaimBindsFine(w, p, i);
    case ClaimVanishes(_) => ClaimVanishesFine(w, p, i);
  }

  lemma HelpForHelps(w: World, p: Parent)
    requires w.stored == Some(p) && Good(w, p) && !Settled(w, p)
    ensures var v := Act(w, p, HelpFor(w, p)); Closer(w, p, v) || Advanced(w, p, v)
  {
    assert |p.pods| == |p.claims|;
    hide Core, PodReconciled, ClaimReconciled, PodStarted, PodGone, ClaimBound, ClaimGone, Later, NoFurther, Total;
    hide GoodSlot, SlotsInLine, ClaimsInLine;
    if HelpFor(w, p) == ReconcileParent {
      CoreFine(w, p);
      if |p.pods| > p.spec.size { ShrinkFine(w, p); }
    } else if |p.pods| > p.spec.size {
      ClaimVanishesFine(w, p, |p.pods| - 1);
      PodVanishesFine(w, p, |p.pods| - 1);
    } else {
      var i := FirstHelpOf(w, p, |p.pods|);
      SlotHelpHelps(w, p, i);
    }
  }

  lemma HelpIsFair(w: World, bound: nat)
    requires Inv(w, bound)
    ensures Help(w) in FairActions(bound)
  {
    var p := w.stored.value;
    if |p.pods| <= p.spec.size && HelpFor(w, p) != ReconcileParent {
      var i := FirstHelpOf(w, p, |p.pods|);
    }
  }

  lemma HelpLowers(w: World, bound: nat)
    requires Inv(w, bound) && !Reached(w)
    ensures Help(w) in FairActions(bound) && Measure(Step(w, Help(w))) < Measure(w)
  {
    var p, v := w.stored.value, Step(w, Help(w));
    HelpIsFair(w, bound);
    HelpForHelps(w, p);
    if Closer(w, p, v) {
      NearerTotal(w, p, v, v.stored.value);
    }
  }

  lemma MeasureBounded(w: World, bound: nat)
    requires Inv(w, bound)
    ensures Measure(w) <= 12 * bound + 6
  {
    WorkBounded(w, w.stored.value, Kept(w.stored.value));
  }

  ghost predicate FairRounds(bound: nat, rounds: seq<seq<Action>>) {
    forall k :: 0 <= k < |rounds| ==> forall a :: a in FairActions(bound) ==> a in rounds[k]
  }

  /** Fair rounds in a number linear in the slots involved are enough, whatever else happens in
      them and in whatever order, and no later action undoes the result. */
  lemma Converges(w: World, bound: nat, rounds: seq<seq<Action>>)
    requires Inv(w, bound) && FairRounds(bound, rounds)
    requires |rounds| >= 12 * bound + 6 || Reached(w)
    ensures var v := RunRounds(Step, w, rounds);
      Inv(v, bound) && Reached(v) && v.stored.value.spec.size == w.stored.value.spec.size
  {
    MeasureBounded(w, bound);
    var size := w.stored.value.spec.size;
    var inv := (v: World) => Inv(v, bound) && v.stored.value.spec.size == size;
    forall v, a | inv(v) {
      StepNeverWorse(v, a, bound);
    }
    forall v | inv(v) && !Reached(v) {
      HelpLowers(v, bound);
    }
    FairRunsReachGoal(Step, inv, Reached, Measure, Help, FairActions(bound), w, rounds);
  }

  // ----- one size after another -----

  /** The user sets another size. */
  function Resized(w: World, size: Size): World {
    if w.stored.None? then w
    else
      var p := w.stored.value;
      w.(stored := Some(p.(version := p.version + 1, spec := p.spec.(size := size))))
  }

  /** A settled state with any other size is one the theorem starts from. */
  lemma ResizeIsGood(w: World, bound: nat, size: Size)
    requires Inv(w, bound) && Reached(w) && size <= bound
    ensures Inv(Resized(w, size), bound)
  {
    var p, v := w.stored.value, Resized(w, size);
    var q := v.stored.value;
    forall i: nat ensures PodAt(v, q, i) == PodAt(w, p, i) && ClaimAt(v, q, i) == ClaimAt(w, p, i) {
    }
    forall i | 0 <= i < |q.pods| ensures GoodSlot(v, q, i) {
      assert GoodSlot(w, p, i) && PodWork(w, p, i) == 0 && ClaimWork(w, p, i) == 0;
    }
  }

  // A size that is set, and the rounds that follow.
  datatype Phase = Phase(size: Size, rounds: seq<seq<Action>>)

  ghost predicate LongEnough(bound: nat, phase: Phase) {
    phase.size <= bound && FairRounds(bound, phase.rounds) && |phase.rounds| >= 12 * bound + 6
  }

  ghost function AfterPhases(w: World, phases: seq<Phase>): World
    decreases |phases|
  {
    if phases == [] then w
    else AfterPhases(RunRounds(Step, Resized(w, phases[0].size), phases[0].rounds), phases[1..])
  }

  /** Every size set after the last one was reached is reached in its turn. */
  lemma {:induction false} EverySizeIsReached(w: World, bound: nat, phases: seq<Phase>)
    requires Inv(w, bound) && Reached(w) && forall k :: 0 <= k < |phases| ==> LongEnough(bound, phases[k])
    ensures var v := AfterPhases(w, phases);
      && Inv(v, bound) && Reached(v)
      && v.stored.value.spec.size == if phases == [] then w.stored.value.spec.size else phases[|phases| - 1].size
    decreases |phases|
  {
    hide Inv, Reached;
    if phases != [] {
      assert LongEnough(bound, phases[0]);
      ResizeIsGood(w, bound, phases[0].size);
      Converges(Resized(w, phases[0].size), bound, phases[0].rounds);
      EverySizeIsReached(RunRounds(Step, Resized(w, phases[0].size), phases[0].rounds), bound, phases[1..]);
    }
  }

  /** A run may start from a new object with nothing in the cluster under its names. */
  lemma FreshStartIsGood(w: World, p: Parent)
    requires w.stored == Some(p) && p.pods == [] && p.claims == [] && !p.deletionMarked
    requires w.faults == {} && w.podTimeout > 0
    requires forall i: nat :: PodName(p, i) !in w.pods && ClaimName(p, i) !in w.claims
    ensures Inv(w, p.spec.size)
  {
  }
}
