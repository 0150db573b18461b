/** Increasing lists of positions, to say what a filter keeps and in which order. */
module Positions {
  ghost predicate Increasing(idx: seq<nat>) {
    forall i, j :: 0 <= i < j < |idx| ==> idx[i] < idx[j]
  }

  ghost predicate Below(idx: seq<nat>, n: nat) {
    forall i :: 0 <= i < |idx| ==> idx[i] < n
  }

  lemma Later(idx: seq<nat>, n: nat)
    requires Increasing(idx) && Below(idx, n)
    ensures Increasing(idx + [n]) && Below(idx + [n], n + 1)
  {
  }
}
