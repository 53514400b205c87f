/** Runs of a transition system, and the two ways to reason about all of them. */
module Runs {
  ghost predicate Run<S(!new), M(!new)>(step: (S, M, S) -> bool, states: seq<S>, moves: seq<M>) {
    && |states| == |moves| + 1
    && forall i :: 0 <= i < |moves| ==> step(states[i], moves[i], states[i + 1])
  }

  lemma Extended<S(!new), M(!new)>(step: (S, M, S) -> bool, states: seq<S>, moves: seq<M>, m: M, s: S)
    requires Run(step, states, moves) && step(states[|states| - 1], m, s)
    ensures Run(step, states + [s], moves + [m])
  {
    var more, ms := states + [s], moves + [m];
    forall i | 0 <= i < |ms| ensures step(more[i], ms[i], more[i + 1]) {
      if i < |moves| { assert step(states[i], moves[i], states[i + 1]); }
    }
  }

  lemma Shortened<S(!new), M(!new)>(step: (S, M, S) -> bool, states: seq<S>, moves: seq<M>)
    requires Run(step, states, moves) && moves != []
    ensures Run(step, states[..|moves|], moves[..|moves| - 1])
  {
    var ss, ms := states[..|moves|], moves[..|moves| - 1];
    forall i | 0 <= i < |ms| ensures step(ss[i], ms[i], ss[i + 1]) {
      assert step(states[i], moves[i], states[i + 1]);
    }
  }

  /** A stretch of a run all of whose steps are of a kind is a run of that kind. */
  lemma Stretch<S(!new), M(!new)>(step: (S, M, S) -> bool, states: seq<S>, moves: seq<M>, i: nat, k: nat)
    requires |states| == |moves| + 1 && i <= k < |states|
    requires forall j :: i <= j < k ==> step(states[j], moves[j], states[j + 1])
    ensures Run(step, states[i..k + 1], moves[i..k])
  {
    var ss, ms := states[i..k + 1], moves[i..k];
    forall j | 0 <= j < |ms| ensures step(ss[j], ms[j], ss[j + 1]) {
      assert step(states[i + j], moves[i + j], states[i + j + 1]);
    }
  }

  /** An invariant that holds first and survives every step holds throughout. */
  lemma {:induction false} Always<S(!new), M(!new)>(step: (S, M, S) -> bool, inv: S -> bool, states: seq<S>, moves: seq<M>, i: nat)
    requires Run(step, states, moves) && i < |states|
    requires inv(states[0]) && forall s, m, n :: inv(s) && step(s, m, n) ==> inv(n)
    ensures inv(states[i])
  {
    if i > 0 {
      Always(step, inv, states, moves, i - 1);
      assert step(states[i - 1], moves[i - 1], states[i - 1 + 1]);
    }
  }

  /** A relation that is reflexive and survives every step of the later state holds between any two states of a run. */
  lemma {:induction false} Throughout<S(!new), M(!new)>(
    step: (S, M, S) -> bool, inv: S -> bool, rel: (S, S) -> bool, states: seq<S>, moves: seq<M>, i: nat, k: nat)
    requires Run(step, states, moves) && i <= k < |states|
    requires inv(states[0]) && forall s, m, n :: inv(s) && step(s, m, n) ==> inv(n)
    requires forall s :: rel(s, s)
    requires forall a, s, m, n :: rel(a, s) && inv(s) && step(s, m, n) ==> rel(a, n)
    ensures rel(states[i], states[k])
    decreases k
  {
    if i < k {
      Throughout(step, inv, rel, states, moves, i, k - 1);
      Always(step, inv, states, moves, k - 1);
      assert step(states[k - 1], moves[k - 1], states[k - 1 + 1]);
    }
  }

  /** A stretch of a run, whose steps are of a narrower kind, is a run of that kind from a state that keeps the invariant. */
  lemma Cut<S(!new), M(!new)>(
    step: (S, M, S) -> bool, narrow: (S, M, S) -> bool, inv: S -> bool, states: seq<S>, moves: seq<M>, i: nat, k: nat)
    returns (ss: seq<S>, ms: seq<M>)
    requires Run(step, states, moves) && i <= k < |states|
    requires inv(states[0]) && forall s, m, n :: inv(s) && step(s, m, n) ==> inv(n)
    requires forall j :: i <= j < k ==> narrow(states[j], moves[j], states[j + 1])
    ensures Run(narrow, ss, ms) && inv(ss[0]) && ss[0] == states[i] && ss[|ms|] == states[k]
  {
    Always(step, inv, states, moves, i);
    Stretch(narrow, states, moves, i, k);
    ss, ms := states[i..k + 1], moves[i..k];
  }
}
