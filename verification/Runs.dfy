/** Runs of a transition relation, for every protocol of this project. */
module Runs {

  /** states[0], actions[0], states[1], ..., states[|actions|]. */
  ghost predicate IsRun<S(!new), A(!new)>(next: (S, A, S) -> bool, states: seq<S>, actions: seq<A>) {
    && |states| == |actions| + 1
    && (forall i :: 0 <= i < |actions| ==> next(states[i], actions[i], states[i + 1]))
  }

  ghost predicate Leads<S(!new), A(!new)>(next: (S, A, S) -> bool, s: S, s': S) {
    exists states: seq<S>, actions: seq<A> ::
      IsRun(next, states, actions) && states[0] == s && states[|actions|] == s'
  }

  /** What every step keeps, every run keeps. */
  lemma {:induction false} RunKeeps<S(!new), A(!new)>(
    next: (S, A, S) -> bool, inv: S -> bool, states: seq<S>, actions: seq<A>, i: nat)
    requires IsRun(next, states, actions) && inv(states[0]) && i <= |actions|
    requires forall s, a, s' :: inv(s) && next(s, a, s') ==> inv(s')
    ensures inv(states[i])
  {
    if i > 0 {
      RunKeeps(next, inv, states, actions, i - 1);
      assert next(states[i - 1], actions[i - 1], states[i]);
    }
  }

  lemma LeadsKeeps<S(!new), A(!new)>(next: (S, A, S) -> bool, inv: S -> bool, s: S, s': S)
    requires Leads(next, s, s') && inv(s)
    requires forall s, a, s' :: inv(s) && next(s, a, s') ==> inv(s')
    ensures inv(s')
  {
    var states, actions :| IsRun(next, states, actions) && states[0] == s && states[|actions|] == s';
    RunKeeps(next, inv, states, actions, |actions|);
  }

  /** A preorder on states that every step of an invariant-satisfying state respects relates the ends of a run. */
  lemma {:induction false} RunRelates<S(!new), A(!new)>(
    next: (S, A, S) -> bool, inv: S -> bool, rel: (S, S) -> bool, states: seq<S>, actions: seq<A>, i: nat, k: nat)
    requires IsRun(next, states, actions) && inv(states[0]) && i <= k <= |actions|
    requires forall s, a, s' :: inv(s) && next(s, a, s') ==> inv(s') && rel(s, s')
    requires forall s :: rel(s, s)
    requires forall s, t, u :: rel(s, t) && rel(t, u) ==> rel(s, u)
    ensures rel(states[i], states[k])
  {
    if i < k {
      RunRelates(next, inv, rel, states, actions, i, k - 1);
      RunKeeps(next, inv, states, actions, k - 1);
      assert next(states[k - 1], actions[k - 1], states[k]);
    }
  }

  lemma PrefixLeads<S(!new), A(!new)>(next: (S, A, S) -> bool, states: seq<S>, actions: seq<A>, i: nat)
    requires IsRun(next, states, actions) && i <= |actions|
    ensures Leads(next, states[0], states[i])
  {
    assert IsRun(next, states[..i + 1], actions[..i]);
  }

  lemma LeadsSelf<S(!new), A(!new)>(next: (S, A, S) -> bool, s: S)
    ensures Leads(next, s, s)
  {
    var none: seq<A> := [];
    assert IsRun(next, [s], none);
  }

  lemma LeadsStep<S(!new), A(!new)>(next: (S, A, S) -> bool, s: S, s': S, a: A, s'': S)
    requires Leads(next, s, s') && next(s', a, s'')
    ensures Leads(next, s, s'')
  {
    var states: seq<S>, actions: seq<A> :|
      IsRun(next, states, actions) && states[0] == s && states[|actions|] == s';
    var states', actions' := states + [s''], actions + [a];
    forall i | 0 <= i < |actions'| ensures next(states'[i], actions'[i], states'[i + 1]) {
    }
    assert IsRun(next, states', actions') && states'[0] == s && states'[|actions'|] == s'';
  }
}
