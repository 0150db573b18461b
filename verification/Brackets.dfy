/** Histories of create commands read as brackets: a producer opens, a consumer closes. */
module Brackets {
  import opened ProdConsSteps

  /** Producers minus consumers among the first commands of `h` from `a` up to `b`. */
  function Depth(h: seq<Role>, a: nat, b: nat): int
    requires a <= b <= |h|
  {
    if a == b then 0 else Depth(h, a, b - 1) + if h[b - 1].Producer? then 1 else -1
  }

  ghost predicate NeverBelow(h: seq<Role>, a: nat, b: nat)
    requires b <= |h|
  {
    forall k :: a <= k <= b ==> Depth(h, a, k) >= 0
  }

  /** Read as brackets, the consumer at `j` closes the producer at `i`. */
  ghost predicate Matches(h: seq<Role>, i: nat, j: nat) {
    && i < j < |h| && h[i].Producer? && h[j].Consumer?
    && Depth(h, i + 1, j) == 0
    && NeverBelow(h, i + 1, j)
  }

  lemma {:induction false} DepthSplit(h: seq<Role>, a: nat, b: nat, c: nat)
    requires a <= b <= c <= |h|
    ensures Depth(h, a, c) == Depth(h, a, b) + Depth(h, b, c)
  {
    if b < c {
      DepthSplit(h, a, b, c - 1);
    }
  }

  lemma {:induction false} DepthPrefix(h: seq<Role>, g: seq<Role>, a: nat, b: nat)
    requires a <= b <= |h| <= |g| && g[..|h|] == h
    ensures Depth(g, a, b) == Depth(h, a, b)
  {
    if a < b {
      DepthPrefix(h, g, a, b - 1);
      assert g[b - 1] == g[..|h|][b - 1];
    }
  }

  lemma NotBothMatch(h: seq<Role>, a: nat, b: nat, j: nat)
    requires a < b && Matches(h, a, j)
    ensures !Matches(h, b, j)
  {
    if b < j && h[b].Producer? {
      var c := a + 1;
      assert Depth(h, c, b) >= 0;
      DepthSplit(h, c, b, j);
      DepthSplit(h, b, b + 1, j);
      assert Depth(h, b, b) == 0;
    }
  }

  lemma MatchesUnique(h: seq<Role>, i: nat, i': nat, j: nat)
    requires Matches(h, i, j) && Matches(h, i', j)
    ensures i == i'
  {
    if i < i' { NotBothMatch(h, i, i', j); }
    if i' < i { NotBothMatch(h, i', i, j); }
  }

  /** Every prefix has at least as many producers as consumers. */
  ghost predicate PrefixBalanced(h: seq<Role>) {
    NeverBelow(h, 0, |h|)
  }

  /** The producers nobody has closed yet, last one first. */
  function Open(h: seq<Role>): seq<nat> {
    if h == [] then [] else
      var k := |h| - 1;
      var o := Open(h[..k]);
      if h[k].Producer? then [k] + o else if o == [] then [] else o[1..]
  }

  /** The p-th open producer has p open ones after it. */
  ghost predicate IsOpen(h: seq<Role>, i: nat, p: nat) {
    && i < |h| && h[i].Producer? && Depth(h, i + 1, |h|) == p
    && NeverBelow(h, i + 1, |h|)
  }

  lemma IsOpenStep(h: seq<Role>, g: seq<Role>, i: nat, p: nat)
    requires |g| == |h| + 1 && g[..|h|] == h && IsOpen(h, i, p)
    requires g[|h|].Consumer? ==> p > 0
    ensures IsOpen(g, i, if g[|h|].Producer? then p + 1 else p - 1)
  {
    assert g[i] == g[..|h|][i];
    var a := i + 1;
    forall k | a <= k <= |g|
      ensures Depth(g, a, k) >= 0
    {
      if k <= |h| { DepthPrefix(h, g, a, k); } else { DepthPrefix(h, g, a, |h|); }
    }
    DepthPrefix(h, g, i + 1, |h|);
  }

  lemma {:induction false} OpenIsOpen(h: seq<Role>, p: nat)
    requires p < |Open(h)|
    ensures IsOpen(h, Open(h)[p], p)
  {
    var k := |h| - 1;
    if h[k].Consumer? {
      OpenIsOpen(h[..k], p + 1);
      IsOpenStep(h[..k], h, Open(h)[p], p + 1);
    } else if p > 0 {
      OpenIsOpen(h[..k], p - 1);
      IsOpenStep(h[..k], h, Open(h)[p], p - 1);
    }
  }

  lemma MatchIsThis(h: seq<Role>, i: nat, j: nat)
    requires Matches(h, i, j)
    ensures forall x :: Matches(h, x, j) ==> x == i
  {
    forall x: nat | Matches(h, x, j)
      ensures x == i
    {
      MatchesUnique(h, i, x, j);
    }
  }

  lemma MatchesExtend(h: seq<Role>, i: nat, j: nat)
    requires h != [] && Matches(h[..|h| - 1], i, j)
    ensures Matches(h, i, j)
  {
    var g, a := h[..|h| - 1], i + 1;
    forall k | a <= k <= j
      ensures Depth(h, a, k) == Depth(g, a, k)
    {
      DepthPrefix(g, h, a, k);
    }
  }

  lemma OpenMatches(h: seq<Role>, i: nat)
    requires h != [] && h[|h| - 1].Consumer? && IsOpen(h[..|h| - 1], i, 0)
    ensures Matches(h, i, |h| - 1)
  {
    var g, a := h[..|h| - 1], i + 1;
    forall k | a <= k <= |g|
      ensures Depth(h, a, k) == Depth(g, a, k)
    {
      DepthPrefix(g, h, a, k);
    }
  }
}
