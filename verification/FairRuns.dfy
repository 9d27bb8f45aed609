// A weak-fairness rule for a deterministic step function: a measure that no action raises, and in
// every unfinished state one action that lowers it and stays the right one until it is taken.
module FairRuns {

  ghost function Run<S, A>(step: (S, A) -> S, s: S, acts: seq<A>): S {
    if acts == [] then s else Run(step, step(s, acts[0]), acts[1..])
  }

  ghost function RunRounds<S, A>(step: (S, A) -> S, s: S, rounds: seq<seq<A>>): S {
    if rounds == [] then s else RunRounds(step, Run(step, s, rounds[0]), rounds[1..])
  }

  ghost function Flat<A>(rounds: seq<seq<A>>): seq<A> {
    if rounds == [] then [] else rounds[0] + Flat(rounds[1..])
  }

  lemma {:induction false} RunTwice<S, A>(step: (S, A) -> S, s: S, a: seq<A>, b: seq<A>)
    ensures Run(step, s, a + b) == Run(step, Run(step, s, a), b)
    decreases |a|
  {
    if a == [] {
      assert a + b == b;
    } else {
      assert (a + b)[1..] == a[1..] + b;
      RunTwice(step, step(s, a[0]), a[1..], b);
    }
  }

  lemma {:induction false} RoundsAreOneRun<S, A>(step: (S, A) -> S, s: S, rounds: seq<seq<A>>)
    ensures RunRounds(step, s, rounds) == Run(step, s, Flat(rounds))
    decreases |rounds|
  {
    if rounds != [] {
      RunTwice(step, s, rounds[0], Flat(rounds[1..]));
      RoundsAreOneRun(step, Run(step, s, rounds[0]), rounds[1..]);
    }
  }

  ghost predicate NeverWorse<S(!new), A(!new)>(
    step: (S, A) -> S, inv: S -> bool, goal: S -> bool, measure: S -> nat, help: S -> A)
  {
    forall s, a :: inv(s) ==>
      var t := step(s, a);
      && inv(t)
      && measure(t) <= measure(s)
      && (goal(s) ==> goal(t))
      && (measure(t) == measure(s) && !goal(t) ==> help(t) == help(s))
  }

  ghost predicate HelpHelps<S(!new), A>(
    step: (S, A) -> S, inv: S -> bool, goal: S -> bool, measure: S -> nat, help: S -> A, fair: set<A>)
  {
    forall s :: inv(s) && !goal(s) ==> help(s) in fair && measure(step(s, help(s))) < measure(s)
  }

  /** One round in which every fair action occurs reaches the goal or lowers the measure. */
  lemma {:induction false} RoundHelps<S(!new), A(!new)>(
    step: (S, A) -> S, inv: S -> bool, goal: S -> bool, measure: S -> nat, help: S -> A, s: S, acts: seq<A>)
    requires NeverWorse(step, inv, goal, measure, help)
    requires forall t :: inv(t) && !goal(t) ==> measure(step(t, help(t))) < measure(t)
    requires inv(s)
    ensures var t := Run(step, s, acts);
      && inv(t) && measure(t) <= measure(s) && (goal(s) ==> goal(t))
      && (help(s) in acts ==> goal(t) || measure(t) < measure(s))
    decreases |acts|
  {
    if acts != [] {
      var t := step(s, acts[0]);
      RoundHelps(step, inv, goal, measure, help, t, acts[1..]);
      assert help(s) in acts ==> acts[0] == help(s) || help(s) in acts[1..];
    }
  }

  /** As many fair rounds as the measure counts are enough, and the goal is never left again. */
  lemma {:induction false} FairRunsReachGoal<S(!new), A(!new)>(
    step: (S, A) -> S, inv: S -> bool, goal: S -> bool, measure: S -> nat, help: S -> A, fair: set<A>,
    s: S, rounds: seq<seq<A>>)
    requires NeverWorse(step, inv, goal, measure, help)
    requires HelpHelps(step, inv, goal, measure, help, fair)
    requires inv(s)
    requires forall k :: 0 <= k < |rounds| ==> forall a :: a in fair ==> a in rounds[k]
    requires |rounds| >= measure(s) || goal(s)
    ensures inv(RunRounds(step, s, rounds)) && goal(RunRounds(step, s, rounds))
    decreases |rounds|
  {
    if !goal(s) {
      assert measure(step(s, help(s))) < measure(s);
    }
    if rounds != [] {
      RoundHelps(step, inv, goal, measure, help, s, rounds[0]);
      FairRunsReachGoal(step, inv, goal, measure, help, fair, Run(step, s, rounds[0]), rounds[1..]);
    }
  }
}
