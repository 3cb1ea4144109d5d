/** Small vocabulary shared by every model. */
module Basics {

  datatype Option<+T> = None | Some(value: T)

  function Lookup<K, V>(m: map<K, V>, k: K): Option<V> {
    if k in m then Some(m[k]) else None
  }

  /** The opaque ids of the step systems, spelled as non-empty strings. */
  function Spell(id: nat): (s: string)
    ensures s != "" && |s| == id + 1
  {
    seq(id + 1, _ => '1')
  }

  ghost predicate Distinct<T>(xs: seq<T>) {
    forall i, j :: 0 <= i < j < |xs| ==> xs[i] != xs[j]
  }

  /** A run of a step system: each state follows from the one before by its step. */
  predicate IsChain<S, L>(states: seq<S>, steps: seq<L>, next: (S, L, S) -> bool) {
    |states| == |steps| + 1 && forall i :: 0 < i < |states| ==> next(states[i - 1], steps[i - 1], states[i])
  }

  /** What one state hands on to the next holds all along. */
  lemma {:induction false} KeptAlong<S>(states: seq<S>, inv: S -> bool, n: nat)
    requires n < |states| && inv(states[0])
    requires forall i :: 0 < i < |states| && inv(states[i - 1]) ==> inv(states[i])
    ensures inv(states[n])
  {
    if n > 0 { KeptAlong(states, inv, n - 1); }
  }

  lemma ChainGrows<S, L>(states: seq<S>, steps: seq<L>, next: (S, L, S) -> bool, l: L, s: S)
    requires IsChain(states, steps, next) && next(states[|steps|], l, s)
    ensures IsChain(states + [s], steps + [l], next)
  {
  }

  /** A number above all of `qs`. */
  lemma Above(qs: set<nat>) returns (q: nat)
    ensures q !in qs && forall x :: x in qs ==> x < q
  {
    if qs == {} { q := 0; }
    else {
      var x :| x in qs;
      var y := Above(qs - {x});
      q := if x < y then y else x + 1;
      assert forall z :: z in qs ==> z == x || z in qs - {x};
    }
  }
}
