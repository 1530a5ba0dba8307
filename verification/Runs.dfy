/** Runs of a state machine whose every step is a function of the state and an arbitrary action. */
module Runs {
  /** `states` is what the machine goes through from `init` under `actions`. */
  predicate IsRun<S(==), A>(init: S, next: (S, A) -> S, actions: seq<A>, states: seq<S>) {
    && |states| == |actions| + 1
    && states[0] == init
    && forall k :: 0 <= k < |actions| ==> states[k + 1] == next(states[k], actions[k])
  }

  /** What holds at first and is kept by every step holds in every state of every run. */
  lemma {:induction false} Invariant<S(!new), A(!new)>(
      init: S, next: (S, A) -> S, actions: seq<A>, states: seq<S>, inv: S -> bool, n: nat)
    requires IsRun(init, next, actions, states) && n < |states|
    requires inv(init)
    requires forall s, a :: inv(s) ==> inv(next(s, a))
    ensures inv(states[n])
  {
    if n > 0 {
      Invariant(init, next, actions, states, inv, n - 1);
      assert inv(next(states[n - 1], actions[n - 1]));
    }
  }

  /** One step from a good state: it stays good exactly if the action is not a bad one. */
  predicate StaysGood<S, A>(states: seq<S>, actions: seq<A>, good: S -> bool, bad: (S, A) -> bool, k: nat) {
    k < |actions| && |states| == |actions| + 1
    && (good(states[k]) ==> (good(states[k + 1]) <==> !bad(states[k], actions[k])))
  }

  /** A run stays good exactly as long as no bad action is taken. */
  lemma {:induction false} GoodAsLongAs<S(!new), A(!new)>(
      states: seq<S>, actions: seq<A>, good: S -> bool, bad: (S, A) -> bool, n: nat)
    requires |states| == |actions| + 1 && n < |states| && good(states[0])
    requires forall k: nat :: k < n ==> StaysGood(states, actions, good, bad, k)
    ensures (forall k :: 0 <= k <= n ==> good(states[k])) <==> (forall k :: 0 <= k < n ==> !bad(states[k], actions[k]))
  {
    if n > 0 {
      GoodAsLongAs(states, actions, good, bad, n - 1);
      assert StaysGood(states, actions, good, bad, n - 1);
    }
  }

  /** Some run ends here. */
  ghost predicate Ends<S(!new), A(!new)>(init: S, next: (S, A) -> S, s: S) {
    exists actions, states :: IsRun(init, next, actions, states) && states[|actions|] == s
  }

  lemma EndsAtFirst<S(!new), A(!new)>(init: S, next: (S, A) -> S)
    ensures Ends(init, next, init)
  {
    var actions: seq<A> := [];
    assert IsRun(init, next, actions, [init]) && [init][|actions|] == init;
  }

  lemma EndsAtNext<S(!new), A(!new)>(init: S, next: (S, A) -> S, s: S, a: A)
    requires Ends(init, next, s)
    ensures Ends(init, next, next(s, a))
  {
    var actions, states :| IsRun(init, next, actions, states) && states[|actions|] == s;
    var more, longer := actions + [a], states + [next(s, a)];
    assert IsRun(init, next, more, longer) && longer[|more|] == next(s, a);
  }

  /** The same for a machine whose steps are a relation. */
  predicate IsTrace<S, A>(step: (S, A, S) -> bool, actions: seq<A>, states: seq<S>) {
    && |states| == |actions| + 1
    && forall k :: 0 <= k < |actions| ==> step(states[k], actions[k], states[k + 1])
  }

  lemma {:induction false} TraceInvariant<S(!new), A(!new)>(
      step: (S, A, S) -> bool, actions: seq<A>, states: seq<S>, inv: S -> bool, n: nat)
    requires IsTrace(step, actions, states) && n < |states|
    requires inv(states[0])
    requires forall s, a, t :: inv(s) && step(s, a, t) ==> inv(t)
    ensures inv(states[n])
  {
    if n > 0 {
      TraceInvariant(step, actions, states, inv, n - 1);
      assert step(states[n - 1], actions[n - 1], states[n]);
    }
  }
}
