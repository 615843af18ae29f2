/** Runs of any machine, and what can be said of all the states they come to. */
module Paths {

  /** Each state follows from the one before by the action in between. */
  ghost predicate AllSteps<S, A>(step: (S, A, S) -> bool, states: seq<S>, actions: seq<A>) {
    |states| == |actions| + 1 && forall k | 0 <= k < |actions| :: step(states[k], actions[k], states[k + 1])
  }

  /** A run goes on with any step from where it is. */
  lemma AllStepsExtended<S, A>(step: (S, A, S) -> bool, states: seq<S>, actions: seq<A>, a: A, d: S)
    requires AllSteps(step, states, actions) && step(states[|actions|], a, d)
    ensures AllSteps(step, states + [d], actions + [a])
  {
  }

  /** When of three kinds of step any two at once make the third, so do the runs of them. */
  lemma AllStepsAlike<S(!new), A(!new)>(p: (S, A, S) -> bool, q: (S, A, S) -> bool, h: (S, A, S) -> bool,
                                        states: seq<S>, actions: seq<A>)
    requires forall c, a, d {:trigger p(c, a, d)} | p(c, a, d) :: q(c, a, d) <==> h(c, a, d)
    requires AllSteps(p, states, actions)
    ensures AllSteps(q, states, actions) <==> AllSteps(h, states, actions)
  {
    forall k | 0 <= k < |actions|
      ensures q(states[k], actions[k], states[k + 1]) <==> h(states[k], actions[k], states[k + 1])
    {
      assert p(states[k], actions[k], states[k + 1]);
    }
  }

  /** A property that every step keeps. */
  ghost predicate Closed<S(!new), A(!new)>(R: S -> bool, step: (S, A, S) -> bool) {
    forall c, a, d {:trigger R(c), step(c, a, d)} | R(c) && step(c, a, d) :: R(d)
  }

  lemma Goes<S(!new), A(!new)>(R: S -> bool, step: (S, A, S) -> bool, c: S, a: A, d: S)
    requires Closed(R, step) && R(c) && step(c, a, d)
    ensures R(d)
  {
  }

  /** A run never leaves what it starts in. */
  lemma {:induction false} AlwaysIn<S(!new), A(!new)>(R: S -> bool, step: (S, A, S) -> bool,
                                                      states: seq<S>, actions: seq<A>, k: nat)
    requires Closed(R, step) && AllSteps(step, states, actions) && R(states[0]) && k < |states|
    ensures R(states[k])
  {
    if k > 0 {
      AlwaysIn(R, step, states, actions, k - 1);
      assert step(states[k - 1], actions[k - 1], states[k - 1 + 1]);
    }
  }

  /** Some run from a start comes to `c`. */
  ghost predicate Arrives<S(!new), A(!new)>(start: S -> bool, step: (S, A, S) -> bool, c: S) {
    exists states: seq<S>, actions: seq<A> {:trigger AllSteps(step, states, actions)} ::
      AllSteps(step, states, actions) && start(states[0]) && states[|actions|] == c
  }

  lemma ArrivesAtStart<S(!new), A(!new)>(start: S -> bool, step: (S, A, S) -> bool, c: S)
    requires start(c)
    ensures Arrives(start, step, c)
  {
    var none: seq<A> := [];
    assert AllSteps(step, [c], none);
  }

  /** Being arrived at is kept by every step. */
  lemma ArrivesFurther<S(!new), A(!new)>(start: S -> bool, step: (S, A, S) -> bool, c: S, a: A, d: S)
    requires Arrives(start, step, c) && step(c, a, d)
    ensures Arrives(start, step, d)
  {
    var states, actions: seq<A> :| AllSteps(step, states, actions) && start(states[0]) && states[|actions|] == c;
    AllStepsExtended(step, states, actions, a, d);
    assert (states + [d])[0] == states[0];
  }
}
