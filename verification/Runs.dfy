/** Runs of a step machine: a start state, then one action after another. */
module Runs {

  /** states[0] is a start state and actions[i] leads from states[i] to states[i + 1]. */
  ghost predicate IsRun<S(!new), A(!new)>(init: S -> bool, next: (S, A, S) -> bool, states: seq<S>, actions: seq<A>)
  {
    && |states| == |actions| + 1
    && init(states[0])
    && forall i :: 0 <= i < |actions| ==> next(states[i], actions[i], states[i + 1])
  }

  /** What holds at the start and is kept by every action holds in every state of every run. */
  lemma {:induction false} InvariantOfRun<S(!new), A(!new)>(
    init: S -> bool, next: (S, A, S) -> bool, inv: S -> bool, states: seq<S>, actions: seq<A>)
    requires forall s :: init(s) ==> inv(s)
    requires forall s, a, s' :: inv(s) && next(s, a, s') ==> inv(s')
    requires IsRun(init, next, states, actions)
    ensures forall i :: 0 <= i < |states| ==> inv(states[i])
    decreases |actions|
  {
    if |actions| > 0 {
      var n := |actions| - 1;
      InvariantOfRun(init, next, inv, states[..n + 1], actions[..n]);
      assert inv(states[..n + 1][n]);
      assert next(states[n], actions[n], states[n + 1]);
    }
  }

  /** Some run ends in s. */
  ghost predicate Reachable<S(!new), A(!new)>(init: S -> bool, next: (S, A, S) -> bool, s: S)
  {
    exists states: seq<S>, actions: seq<A> :: IsRun(init, next, states, actions) && states[|actions|] == s
  }

  lemma StepStaysReachable<S(!new), A(!new)>(init: S -> bool, next: (S, A, S) -> bool, s: S, a: A, s': S)
    requires Reachable(init, next, s) && next(s, a, s')
    ensures Reachable(init, next, s')
  {
    var states: seq<S>, actions: seq<A> :| IsRun(init, next, states, actions) && states[|actions|] == s;
    assert IsRun(init, next, states + [s'], actions + [a]);
  }

  lemma ReachableKeepsInvariant<S(!new), A(!new)>(init: S -> bool, next: (S, A, S) -> bool, inv: S -> bool, s: S)
    requires forall r :: init(r) ==> inv(r)
    requires forall r, a, r' :: inv(r) && next(r, a, r') ==> inv(r')
    requires Reachable(init, next, s)
    ensures inv(s)
  {
    var states: seq<S>, actions: seq<A> :| IsRun(init, next, states, actions) && states[|actions|] == s;
    InvariantOfRun(init, next, inv, states, actions);
  }
}
