/** The default map of a dense array: indices are flattened row by row, and the flat positions
    cut into consecutive blocks of nearly equal size, one per PE, or per node and then per PE.
 */
module BlockMap {
  import opened Arith

  // ---------------------------------------------------------------- flattening

  function Product(dims: seq<nat>): nat {
    if dims == [] then 1 else Product(dims[..|dims| - 1]) * dims[|dims| - 1]
  }

  predicate InBounds(dims: seq<nat>, idx: seq<nat>) {
    |idx| == |dims| && forall i :: 0 <= i < |dims| ==> idx[i] < dims[i]
  }

  function Flatten(dims: seq<nat>, idx: seq<nat>): nat
    requires |idx| == |dims|
  {
    if dims == [] then 0
    else Flatten(dims[..|dims| - 1], idx[..|dims| - 1]) * dims[|dims| - 1] + idx[|dims| - 1]
  }

  /** The index at a flat position. */
  ghost function Unflatten(dims: seq<nat>, n: nat): (idx: seq<nat>)
    requires forall i :: 0 <= i < |dims| ==> dims[i] > 0
    ensures |idx| == |dims|
  {
    if dims == [] then []
    else
      var d := dims[|dims| - 1];
      Unflatten(dims[..|dims| - 1], n / d) + [n % d]
  }

  lemma InBoundsInit(dims: seq<nat>, idx: seq<nat>)
    requires dims != [] && InBounds(dims, idx)
    ensures InBounds(dims[..|dims| - 1], idx[..|dims| - 1])
  {
  }

  /** Every index has a position below the number of elements, at which it is found again. */
  lemma {:induction false} FlattenInjective(dims: seq<nat>, idx: seq<nat>)
    requires InBounds(dims, idx)
    ensures Flatten(dims, idx) < Product(dims)
    ensures Unflatten(dims, Flatten(dims, idx)) == idx
  {
    if dims == [] {
      assert idx == [];
    } else {
      var k := |dims| - 1;
      InBoundsInit(dims, idx);
      FlattenInjective(dims[..k], idx[..k]);
      var f, d, p := Flatten(dims[..k], idx[..k]), dims[k], Product(dims[..k]);
      DivOf(f, d, idx[k]);
      Mono(f + 1, p, d);
      Distribute(f, 0, d);
      assert idx == idx[..k] + [idx[k]];
    }
  }

  /** Every position below the number of elements is that of an index. */
  lemma {:induction false} FlattenSurjective(dims: seq<nat>, n: nat)
    requires (forall i :: 0 <= i < |dims| ==> dims[i] > 0) && n < Product(dims)
    ensures InBounds(dims, Unflatten(dims, n)) && Flatten(dims, Unflatten(dims, n)) == n
  {
    if dims != [] {
      var k := |dims| - 1;
      var d, p := dims[k], Product(dims[..k]);
      DivMod(n, d);
      DivBounds(n, d);
      if n / d >= p { Mono(p, n / d, d); }
      FlattenSurjective(dims[..k], n / d);
      var idx := Unflatten(dims, n);
      assert idx[..k] == Unflatten(dims[..k], n / d);
    }
  }

  // ---------------------------------------------------------------- blocks

  /** Where block k begins: the first n % p blocks have one element more. */
  function Start(n: nat, p: nat, k: nat): nat
    requires p > 0
  {
    k * (n / p) + if k <= n % p then k else n % p
  }

  function Size(n: nat, p: nat, k: nat): nat
    requires p > 0
  {
    n / p + if k < n % p then 1 else 0
  }

  lemma Blocks(n: nat, p: nat, k: nat)
    requires p > 0
    ensures Start(n, p, 0) == 0 && Start(n, p, p) == n && Start(n, p, k + 1) == Start(n, p, k) + Size(n, p, k)
  {
    DivMod(n, p);
    Distribute(k, 0, n / p);
  }

  lemma {:induction false} StartMono(n: nat, p: nat, j: nat, k: nat)
    requires p > 0 && j <= k
    ensures Start(n, p, j) <= Start(n, p, k)
  {
    hide Start, Size;
    if j < k {
      StartMono(n, p, j, k - 1);
      Blocks(n, p, k - 1);
    }
  }

  /** procNum, by PE: a position beyond the initial elements goes round robin. */
  function PeOf(n: nat, p: nat, flat: nat): nat
    requires p > 0
  {
    var (bin, rem) := (n / p, n % p);
    var first := rem * (bin + 1);
    if flat < first then flat / (bin + 1)
    else if flat < n then NonEmpty(n, p, flat); rem + (flat - first) / bin
    else flat % p
  }

  /** The second set is only reached when its blocks are not empty. */
  lemma NonEmpty(n: nat, p: nat, flat: nat)
    requires p > 0 && n % p * (n / p + 1) <= flat < n
    ensures n / p > 0
  {
    DivMod(n, p);
    Distribute(n / p, 0, n % p);
    TimesZero(n / p, p);
  }

  lemma TimesZero(a: nat, b: nat)
    ensures a == 0 ==> a * b == 0
  {
  }

  lemma FirstSet(bin: nat, rem: nat, flat: nat)
    requires flat < rem * (bin + 1)
    ensures var k := flat / (bin + 1);
      k < rem && k * bin + k <= flat < k * bin + k + bin + 1 && flat % (bin + 1) == flat - (k * bin + k)
  {
    var k := flat / (bin + 1);
    DivMod(flat, bin + 1);
    Distribute(bin, 0, k);
    if k >= rem { Mono(rem, k, bin + 1); }
  }

  lemma SecondSet(n: nat, p: nat, bin: nat, rem: nat, flat: nat)
    requires n == bin * p + rem && bin > 0 && rem * (bin + 1) <= flat < n
    ensures var x := flat - rem * (bin + 1);
      var k := rem + x / bin;
      k < p && k * bin + rem <= flat < k * bin + rem + bin && x % bin == flat - (k * bin + rem)
  {
    var x := flat - rem * (bin + 1);
    var q := x / bin;
    DivMod(x, bin);
    Distribute(bin, 0, rem);
    assert (rem + q) * bin == rem * bin + q * bin;
    if rem + q >= p { Mono(p, rem + q, bin); }
  }

  /** Each position lies in the block of its PE. */
  lemma PeOfBlock(n: nat, p: nat, flat: nat)
    requires p > 0 && flat < n
    ensures var k := PeOf(n, p, flat); k < p && Start(n, p, k) <= flat < Start(n, p, k) + Size(n, p, k)
  {
    hide PeOf, Start, Size;
    if flat < n % p * (n / p + 1) { InFirstSet(n, p, flat); } else { InSecondSet(n, p, flat); }
  }

  lemma InFirstSet(n: nat, p: nat, flat: nat)
    requires p > 0 && flat < n % p * (n / p + 1)
    ensures var k := PeOf(n, p, flat); k < p && Start(n, p, k) <= flat < Start(n, p, k) + Size(n, p, k)
  {
    var k := PeOf(n, p, flat);
    assert k == flat / (n / p + 1);
    hide PeOf, Start, Size;
    DivMod(n, p);
    FirstSet(n / p, n % p, flat);
    FirstStart(n, p, k);
  }

  lemma InSecondSet(n: nat, p: nat, flat: nat)
    requires p > 0 && n % p * (n / p + 1) <= flat < n
    ensures var k := PeOf(n, p, flat); k < p && Start(n, p, k) <= flat < Start(n, p, k) + Size(n, p, k)
  {
    var k := PeOf(n, p, flat);
    NonEmpty(n, p, flat);
    assert k == n % p + (flat - n % p * (n / p + 1)) / (n / p);
    hide PeOf, Start, Size;
    DivMod(n, p);
    SecondSet(n, p, n / p, n % p, flat);
    SecondStart(n, p, k);
  }

  lemma FirstStart(n: nat, p: nat, k: nat)
    requires p > 0 && k < n % p
    ensures Start(n, p, k) == k * (n / p) + k && Size(n, p, k) == n / p + 1
  {
  }

  lemma SecondStart(n: nat, p: nat, k: nat)
    requires p > 0 && k >= n % p
    ensures Start(n, p, k) == k * (n / p) + n % p && Size(n, p, k) == n / p
  {
  }

  /** The map is the partition into blocks: PE k gets exactly the positions of block k. */
  lemma PeOfExact(n: nat, p: nat, flat: nat, k: nat)
    requires p > 0 && flat < n && k < p
    ensures PeOf(n, p, flat) == k <==> Start(n, p, k) <= flat < Start(n, p, k) + Size(n, p, k)
  {
    PeOfBlock(n, p, flat);
    var j := PeOf(n, p, flat);
    hide PeOf, Start, Size;
    Blocks(n, p, j);
    Blocks(n, p, k);
    if j < k { StartMono(n, p, j + 1, k); } else if k < j { StartMono(n, p, k + 1, j); }
  }

  lemma PeOfMonotone(n: nat, p: nat, a: nat, b: nat)
    requires p > 0 && a <= b < n
    ensures PeOf(n, p, a) <= PeOf(n, p, b) < p
  {
    PeOfBlock(n, p, a);
    PeOfBlock(n, p, b);
    var j, k := PeOf(n, p, a), PeOf(n, p, b);
    hide PeOf, Start, Size;
    Blocks(n, p, k);
    if k < j { StartMono(n, p, k + 1, j); }
  }

  // ---------------------------------------------------------------- node blocks

  /** The node of a position, how many elements that node has, and the offset among them. */
  function NodeSplit(n: nat, nodes: nat, flat: nat): (nat, nat, nat)
    requires nodes > 0 && flat < n
  {
    var (bin, rem) := (n / nodes, n % nodes);
    var first := rem * (bin + 1);
    if flat < first then DivBounds(flat, bin + 1); (flat / (bin + 1), bin + 1, flat % (bin + 1))
    else NonEmpty(n, nodes, flat); DivBounds(flat - first, bin); (rem + (flat - first) / bin, bin, (flat - first) % bin)
  }

  /** procNum, by node: `nodes` nodes of `ns` PEs each; within the node the same two-set formula. */
  function NodePeOf(n: nat, nodes: nat, ns: nat, flat: nat): nat
    requires nodes > 0 && ns > 0
  {
    if flat < n then
      var (node, onNode, offset) := NodeSplit(n, nodes, flat);
      node * ns + PeOf(onNode, ns, offset)
    else Positive(nodes - 1, ns); Distribute(0, nodes - 1, ns); flat % (nodes * ns)
  }

  /** Positions beyond the initial elements take the PEs in turn, starting over after the last: the
      multiples of their number get PE 0, and each position the PE after its predecessor's. */
  lemma RoundRobin(n: nat, p: nat, flat: nat)
    requires p > 0 && flat >= n
    ensures PeOf(n, p, flat) < p && (flat - PeOf(n, p, flat)) % p == 0
    ensures PeOf(n, p, flat + 1) == if PeOf(n, p, flat) == p - 1 then 0 else PeOf(n, p, flat) + 1
  {
    DivMod(n, p);
    Distribute(n / p, 0, n % p);
    BeyondFirst(n, p);
    Successor(flat, p);
  }

  lemma BeyondFirst(n: nat, p: nat)
    requires p > 0
    ensures n % p * (n / p + 1) <= n
  {
    DivMod(n, p);
    Distribute(n / p, 0, n % p);
    Mono(n % p, p, n / p);
  }

  lemma Successor(x: nat, p: nat)
    requires p > 0
    ensures (x - x % p) % p == 0 && (x + 1) % p == if x % p == p - 1 then 0 else x % p + 1
  {
    DivMod(x, p);
    NextOf(x / p, x % p, p);
  }

  lemma NextOf(q: int, r: nat, p: nat)
    requires r < p
    ensures q * p % p == 0 && (q * p + r + 1) % p == if r == p - 1 then 0 else r + 1
  {
    DivOf(q, p, 0);
    if r == p - 1 {
      Distribute(q, 0, p);
      DivOf(q + 1, p, 0);
    } else {
      DivOf(q, p, r + 1);
    }
  }

  lemma NodeRoundRobin(n: nat, nodes: nat, ns: nat, flat: nat)
    requires nodes > 0 && ns > 0 && flat >= n
    ensures NodePeOf(n, nodes, ns, flat) == PeOf(0, nodes * ns, flat)
  {
  }

  /** The node is the block by node, and the offset the position within that block. */
  lemma NodeSplitExact(n: nat, nodes: nat, flat: nat)
    requires nodes > 0 && flat < n
    ensures var k := PeOf(n, nodes, flat);
      Start(n, nodes, k) <= flat && NodeSplit(n, nodes, flat) == (k, Size(n, nodes, k), flat - Start(n, nodes, k))
  {
    hide PeOf, NodeSplit, Start, Size;
    if flat < n % nodes * (n / nodes + 1) { FirstSplit(n, nodes, flat); } else { SecondSplit(n, nodes, flat); }
  }

  lemma FirstSplit(n: nat, nodes: nat, flat: nat)
    requires nodes > 0 && flat < n && flat < n % nodes * (n / nodes + 1)
    ensures var k := PeOf(n, nodes, flat);
      Start(n, nodes, k) <= flat && NodeSplit(n, nodes, flat) == (k, Size(n, nodes, k), flat - Start(n, nodes, k))
  {
    var k := PeOf(n, nodes, flat);
    assert k == flat / (n / nodes + 1) && NodeSplit(n, nodes, flat) == (k, n / nodes + 1, flat % (n / nodes + 1));
    hide PeOf, NodeSplit, Start, Size;
    DivMod(n, nodes);
    FirstSet(n / nodes, n % nodes, flat);
    FirstStart(n, nodes, k);
  }

  lemma SecondSplit(n: nat, nodes: nat, flat: nat)
    requires nodes > 0 && n % nodes * (n / nodes + 1) <= flat < n
    ensures var k := PeOf(n, nodes, flat);
      Start(n, nodes, k) <= flat && NodeSplit(n, nodes, flat) == (k, Size(n, nodes, k), flat - Start(n, nodes, k))
  {
    var k := PeOf(n, nodes, flat);
    NonEmpty(n, nodes, flat);
    var x := flat - n % nodes * (n / nodes + 1);
    assert k == n % nodes + x / (n / nodes) && NodeSplit(n, nodes, flat) == (k, n / nodes, x % (n / nodes));
    hide PeOf, NodeSplit, Start, Size;
    DivMod(n, nodes);
    SecondSet(n, nodes, n / nodes, n % nodes, flat);
    SecondStart(n, nodes, k);
  }

  /** How many positions the node variant gives PE j of a node. */
  function NodeSize(n: nat, nodes: nat, ns: nat, node: nat, j: nat): nat
    requires nodes > 0 && ns > 0
  {
    Size(Size(n, nodes, node), ns, j)
  }

  function NodeStart(n: nat, nodes: nat, ns: nat, node: nat, j: nat): nat
    requires nodes > 0 && ns > 0
  {
    Start(n, nodes, node) + Start(Size(n, nodes, node), ns, j)
  }

  /** PE j of a node gets exactly its sub-block of the node's block. */
  lemma NodePeOfExact(n: nat, nodes: nat, ns: nat, flat: nat, node: nat, j: nat)
    requires nodes > 0 && ns > 0 && flat < n && node < nodes && j < ns
    ensures NodePeOf(n, nodes, ns, flat) == node * ns + j <==>
            NodeStart(n, nodes, ns, node, j) <= flat < NodeStart(n, nodes, ns, node, j) + NodeSize(n, nodes, ns, node, j)
    ensures NodePeOf(n, nodes, ns, flat) < nodes * ns
  {
    NodeSplitExact(n, nodes, flat);
    PeOfBlock(n, nodes, flat);
    var k := PeOf(n, nodes, flat);
    var size, offset := Size(n, nodes, k), flat - Start(n, nodes, k);
    PeOfBlock(size, ns, offset);
    var i := PeOf(size, ns, offset);
    assert NodePeOf(n, nodes, ns, flat) == k * ns + i;
    hide PeOf, Start, Size, NodePeOf, NodeSplit;
    Mono(k + 1, nodes, ns);
    Distribute(k, 0, ns);
    if k * ns + i == node * ns + j { Unique(k, i, node, j, ns); }
    if k == node {
      PeOfExact(size, ns, offset, j);
    } else {
      OtherNode(n, nodes, ns, flat, k, node, j);
    }
  }

  /** The node variant is monotone too, and in range. */
  lemma NodePeOfMonotone(n: nat, nodes: nat, ns: nat, a: nat, b: nat)
    requires nodes > 0 && ns > 0 && a <= b < n
    ensures NodePeOf(n, nodes, ns, a) <= NodePeOf(n, nodes, ns, b) < nodes * ns
  {
    NodeSplitExact(n, nodes, a);
    NodeSplitExact(n, nodes, b);
    PeOfMonotone(n, nodes, a, b);
    PeOfBlock(n, nodes, a);
    PeOfBlock(n, nodes, b);
    var j, k := PeOf(n, nodes, a), PeOf(n, nodes, b);
    var x, y := a - Start(n, nodes, j), b - Start(n, nodes, k);
    PeOfBlock(Size(n, nodes, j), ns, x);
    PeOfBlock(Size(n, nodes, k), ns, y);
    assert NodePeOf(n, nodes, ns, a) == j * ns + PeOf(Size(n, nodes, j), ns, x);
    assert NodePeOf(n, nodes, ns, b) == k * ns + PeOf(Size(n, nodes, k), ns, y);
    hide PeOf, NodePeOf, Start, Size, NodeSplit;
    if j == k {
      PeOfMonotone(Size(n, nodes, j), ns, x, y);
    } else {
      Mono(j + 1, k, ns);
      Distribute(j, 0, ns);
    }
    Mono(k + 1, nodes, ns);
    Distribute(k, 0, ns);
  }

  lemma OtherNode(n: nat, nodes: nat, ns: nat, flat: nat, k: nat, node: nat, j: nat)
    requires nodes > 0 && ns > 0 && k != node && j < ns
    requires Start(n, nodes, k) <= flat < Start(n, nodes, k) + Size(n, nodes, k)
    ensures !(NodeStart(n, nodes, ns, node, j) <= flat < NodeStart(n, nodes, ns, node, j) + NodeSize(n, nodes, ns, node, j))
  {
    hide Start, Size;
    Blocks(n, nodes, k);
    Blocks(n, nodes, node);
    Blocks(Size(n, nodes, node), ns, j);
    StartMono(Size(n, nodes, node), ns, j + 1, ns);
    if k < node { StartMono(n, nodes, k + 1, node); } else { StartMono(n, nodes, node + 1, k); }
  }

  lemma DivStep(c: nat, ns: nat)
    requires ns > 0
    ensures var (m, r) := ((c + 1) / ns, (c + 1) % ns);
      if c % ns + 1 == ns then m == c / ns + 1 && r == 0 else m == c / ns && r == c % ns + 1
  {
    DivMod(c, ns);
    if c % ns + 1 == ns {
      Distribute(c / ns, 0, ns);
      DivOf(c / ns + 1, ns, 0);
    } else {
      DivOf(c / ns, ns, c % ns + 1);
    }
  }

  /** Balance: any two PEs get counts that differ by at most one, in both variants. */
  lemma Balanced(n: nat, nodes: nat, ns: nat, node: nat, j: nat, node': nat, j': nat)
    requires nodes > 0 && ns > 0
    ensures Size(n, nodes, node) <= Size(n, nodes, node') + 1
    ensures NodeSize(n, nodes, ns, node, j) <= NodeSize(n, nodes, ns, node', j') + 1
  {
    DivStep(n / nodes, ns);
    var c := n / nodes;
    assert Size(n, nodes, node) == c || Size(n, nodes, node) == c + 1;
    assert Size(n, nodes, node') == c || Size(n, nodes, node') == c + 1;
  }
}
