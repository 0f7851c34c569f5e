/** The tree on which the logging runtime sends broadcasts: PE p's children are the eight PEs
    from 8p + 1 on, as far as they exist.
 */
module SpanningTree {
  import opened Seqs

  const BFACTOR: nat := 8

  /** k consecutive PEs from `first`, as far as they exist. */
  function Span(first: nat, k: nat, n: nat): seq<nat> {
    if k == 0 then []
    else Span(first, k - 1, n) + if first + k - 1 < n then [first + k - 1] else []
  }

  function Children(pe: nat, n: nat): seq<nat> {
    Span(BFACTOR * pe + 1, BFACTOR, n)
  }

  lemma {:induction false} SpanStops(first: nat, k: nat, m: nat, n: nat)
    requires k <= m && first + k >= n
    ensures Span(first, m, n) == Span(first, k, n)
  {
    if m > k { SpanStops(first, k, m - 1, n); }
  }

  /** The level loop, which sums a geometric series, always arrives at 8p + 1. */
  method ComputeChildren(pe: nat, numPes: nat) returns (children: seq<nat>)
    ensures children == Children(pe, numPes)
  {
    var level, aux, factor := 0, pe as int, BFACTOR;
    var startLevel, startNextLevel := 0, 1;
    while aux >= 0
      invariant startLevel >= 0 && startNextLevel == BFACTOR * startLevel + 1 && factor == (BFACTOR - 1) * startNextLevel + 1
      decreases aux
    {
      level := level + 1;
      startLevel := startNextLevel;
      startNextLevel := startNextLevel + factor;
      aux := aux - factor;
      factor := factor * BFACTOR;
    }
    var first := startNextLevel + (pe - startLevel) * BFACTOR;
    assert first == BFACTOR * pe + 1;
    children := [];
    var i := 0;
    while i < BFACTOR
      invariant i <= BFACTOR
      invariant children == Span(first, i, numPes)
    {
      if first + i >= numPes {
        SpanStops(first, i, BFACTOR, numPes);
        return;
      }
      children := children + [first + i];
      i := i + 1;
    }
  }

  // ---------------------------------------------------------------- the tree

  function Parent(q: nat): nat
    requires q > 0
  {
    (q - 1) / BFACTOR
  }

  lemma {:induction false} SpanHas(first: nat, k: nat, n: nat, q: nat)
    ensures q in Span(first, k, n) <==> first <= q < first + k && q < n
  {
    if k > 0 { SpanHas(first, k - 1, n, q); }
  }

  /** The children lists partition the PEs other than 0. */
  lemma ChildrenPartition(p: nat, n: nat, q: nat)
    ensures q in Children(p, n) <==> 0 < q < n && p == Parent(q)
  {
    SpanHas(BFACTOR * p + 1, BFACTOR, n, q);
  }

  /** p is q or above it. */
  predicate Above(p: nat, q: nat) {
    p == q || (q > 0 && Above(p, Parent(q)))
  }

  function Weight(p: nat, q: nat): nat { if Above(p, q) then 1 else 0 }

  /** How many of these PEs are above q. */
  function Over(ps: seq<nat>, q: nat): nat {
    if ps == [] then 0 else Over(ps[..|ps| - 1], q) + Weight(ps[|ps| - 1], q)
  }

  lemma {:induction false} AboveIsLess(p: nat, q: nat)
    requires Above(p, q)
    ensures p <= q
  {
    if p != q { AboveIsLess(p, Parent(q)); }
  }

  lemma {:induction false} OverConcat(a: seq<nat>, b: seq<nat>, q: nat)
    ensures Over(a + b, q) == Over(a, q) + Over(b, q)
    decreases |b|
  {
    if b == [] {
      assert a + b == a;
    } else {
      OverConcat(a, b[..|b| - 1], q);
      assert (a + b)[..|a + b| - 1] == a + b[..|b| - 1];
    }
  }

  /** Between q and its parent, only q itself joins those above. */
  lemma {:induction false} OverParent(first: nat, k: nat, n: nat, q: nat)
    requires 0 < q < n
    ensures Over(Span(first, k, n), q) == Over(Span(first, k, n), Parent(q)) + if first <= q < first + k then 1 else 0
  {
    if k > 0 {
      OverParent(first, k - 1, n, q);
      var c := first + k - 1;
      var s := Span(first, k - 1, n);
      if c < n {
        assert (s + [c])[..|s|] == s;
        if c == q && Above(c, Parent(q)) { AboveIsLess(c, Parent(q)); }
      } else {
        assert s + [] == s;
      }
    }
  }

  lemma {:induction false} OverBelow(first: nat, k: nat, n: nat, q: nat)
    requires q < first
    ensures Over(Span(first, k, n), q) == 0
  {
    if k > 0 {
      OverBelow(first, k - 1, n, q);
      var s, c := Span(first, k - 1, n), first + k - 1;
      assert (s + [c])[..|s|] == s && s + [] == s;
      if Above(c, q) { AboveIsLess(c, q); }
    }
  }

  /** Those below p are p itself and, once each, those below one of its children. */
  lemma {:induction false} Below(p: nat, n: nat, q: nat)
    requires q < n
    ensures Weight(p, q) == Over(Children(p, n), q) + if p == q then 1 else 0
    decreases q
  {
    if q <= p {
      OverBelow(BFACTOR * p + 1, BFACTOR, n, q);
      if Above(p, q) { AboveIsLess(p, q); }
    } else {
      OverParent(BFACTOR * p + 1, BFACTOR, n, q);
      Below(p, n, Parent(q));
    }
  }

  // ---------------------------------------------------------------- a broadcast

  /** PEs the message is under way to, and PEs it has been delivered on. */
  datatype Cast = Cast(net: seq<nat>, got: seq<nat>)

  /** A PE takes its message, passes it to its children and delivers it. */
  function Step(c: Cast, i: nat, n: nat): Cast
    requires i < |c.net|
  {
    Cast(c.net[..i] + c.net[i + 1..] + Children(c.net[i], n), c.got + [c.net[i]])
  }

  ghost predicate Run(n: nat, root: nat, states: seq<Cast>, picks: seq<nat>) {
    && |states| == |picks| + 1 && root < n && states[0] == Cast([root], [])
    && forall k :: 0 <= k < |picks| ==> picks[k] < |states[k].net| && states[k + 1] == Step(states[k], picks[k], n)
  }

  /** Every PE below the root has the message or is below exactly one PE it is under way to. */
  ghost predicate Good(n: nat, root: nat, c: Cast) {
    && (forall q: nat :: q < n ==> Occ(c.got, q) + Over(c.net, q) == Weight(root, q))
    && (forall k :: 0 <= k < |c.net| ==> c.net[k] < n)
    && (forall k :: 0 <= k < |c.got| ==> c.got[k] < n)
  }

  lemma StepCounts(n: nat, c: Cast, i: nat, q: nat)
    requires i < |c.net| && q < n
    ensures var c' := Step(c, i, n); Occ(c'.got, q) + Over(c'.net, q) == Occ(c.got, q) + Over(c.net, q)
  {
    var p := c.net[i];
    assert c.net == c.net[..i] + [p] + c.net[i + 1..];
    OverConcat(c.net[..i] + [p], c.net[i + 1..], q);
    OverConcat(c.net[..i], [p], q);
    OverConcat(c.net[..i], c.net[i + 1..], q);
    OverConcat(c.net[..i] + c.net[i + 1..], Children(p, n), q);
    Below(p, n, q);
    assert (c.got + [p])[..|c.got|] == c.got;
    hide Children;
  }

  lemma StepGood(n: nat, root: nat, c: Cast, i: nat)
    requires Good(n, root, c) && i < |c.net|
    ensures Good(n, root, Step(c, i, n))
  {
    var c' := Step(c, i, n);
    forall q: nat | q < n
      ensures Occ(c'.got, q) + Over(c'.net, q) == Weight(root, q)
    {
      StepCounts(n, c, i, q);
    }
    hide Occ, Over, Weight;
    forall q: nat
      ensures q in Children(c.net[i], n) ==> q < n
    {
      ChildrenPartition(c.net[i], n, q);
    }
    hide Children;
    forall k | 0 <= k < |c'.net|
      ensures c'.net[k] < n
    {
      assert c'.net[k] in c.net || c'.net[k] in Children(c.net[i], n);
    }
  }

  lemma {:induction false} RunGood(n: nat, root: nat, states: seq<Cast>, picks: seq<nat>, k: nat)
    requires Run(n, root, states, picks) && k < |states|
    ensures Good(n, root, states[k])
  {
    hide Step;
    if k == 0 {
      forall q: nat | q < n
        ensures Occ([], q) + Over([root], q) == Weight(root, q)
      {
        assert [root][..0] == [];
      }
    } else {
      RunGood(n, root, states, picks, k - 1);
      hide Good;
      StepGood(n, root, states[k - 1], picks[k - 1]);
    }
  }

  lemma {:induction false} RootAbove(q: nat)
    ensures Above(0, q)
  {
    if q > 0 { RootAbove(Parent(q)); }
  }

  /** Distinct PEs below n are at most n. */
  lemma {:induction false} Pigeonhole(ps: seq<nat>, n: nat)
    requires (forall k :: 0 <= k < |ps| ==> ps[k] < n) && (forall q: nat :: q < n ==> Occ(ps, q) <= 1)
    ensures |ps| <= n
  {
    Members(ps, n, UpTo(n));
  }

  ghost function UpTo(n: nat): (r: set<nat>)
    ensures |r| == n && forall q: nat :: q in r <==> q < n
  {
    if n == 0 then {} else UpTo(n - 1) + {n - 1}
  }

  lemma {:induction false} Members(ps: seq<nat>, n: nat, all: set<nat>)
    requires (forall k :: 0 <= k < |ps| ==> ps[k] in all) && (forall q :: q in all ==> Occ(ps, q) <= 1)
    ensures |ps| <= |all|
  {
    if ps != [] {
      var m, rest := ps[|ps| - 1], ps[..|ps| - 1];
      assert Occ(ps, m) <= 1;
      forall k | 0 <= k < |rest|
        ensures rest[k] in all - {m}
      {
        OccIn(rest, rest[k]);
        assert rest[k] == ps[k];
      }
      forall q | q in all - {m}
        ensures Occ(rest, q) <= 1
      {
        assert Occ(ps, q) <= 1;
      }
      Members(rest, n, all - {m});
    }
  }

  /** A broadcast is over after at most n deliveries, in whatever order they happen; no PE is ever
      delivered twice; and when it is over exactly the PEs below the root have it. */
  lemma BroadcastReaches(n: nat, root: nat, states: seq<Cast>, picks: seq<nat>, k: nat)
    requires Run(n, root, states, picks) && k < |states|
    ensures |states[k].got| <= n
    ensures forall q: nat :: q < n ==> Occ(states[k].got, q) <= 1
    ensures states[k].net == [] ==> forall q: nat :: q < n ==> Occ(states[k].got, q) == Weight(root, q)
  {
    RunGood(n, root, states, picks, k);
    hide Run;
    forall q: nat | q < n
      ensures Occ(states[k].got, q) <= 1
    {
      assert Occ(states[k].got, q) + Over(states[k].net, q) == Weight(root, q);
    }
    Pigeonhole(states[k].got, n);
  }

  /** Started anywhere but on PE 0 it misses PE 0; started there it reaches everyone. */
  lemma ReachesAllIffRootZero(n: nat, root: nat, states: seq<Cast>, picks: seq<nat>, k: nat)
    requires Run(n, root, states, picks) && k < |states| && states[k].net == []
    ensures root == 0 <==> forall q: nat :: q < n ==> Occ(states[k].got, q) == 1
  {
    BroadcastReaches(n, root, states, picks, k);
    if root == 0 {
      forall q: nat | q < n
        ensures Occ(states[k].got, q) == 1
      {
        RootAbove(q);
        assert Occ(states[k].got, q) == Weight(root, q);
      }
    } else {
      assert Weight(root, 0) == 0;
      assert Occ(states[k].got, 0) == Weight(root, 0);
    }
  }
}
