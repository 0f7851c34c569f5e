/** Proportional mapping: n elements shared out among PEs by speed, with the largest-remainder
    rule for what rounding down leaves over.  Quotas are exact fractions.
 */
module PropMap {
  import opened Arith
  import opened Seqs

  function Sum(s: seq<nat>): nat {
    if s == [] then 0 else Sum(s[..|s| - 1]) + s[|s| - 1]
  }

  /** The exact quota of a PE is speed * n / total. */
  function FloorQuota(speed: nat, n: nat, total: nat): nat
    requires total > 0
  {
    Positive(speed, n);
    speed * n / total
  }

  function Remainder(speed: nat, n: nat, total: nat): nat
    requires total > 0
  {
    speed * n % total
  }

  predicate FloorOrCeil(share: nat, speed: nat, n: nat, total: nat)
    requires total > 0
  {
    || share == FloorQuota(speed, n, total)
    || (share == FloorQuota(speed, n, total) + 1 && Remainder(speed, n, total) > 0)
  }

  /** Whoever got one more than the floor had at least the remainder of whoever did not. */
  predicate LargestFirst(cp: seq<nat>, speeds: seq<nat>, n: nat, total: nat)
    requires total > 0 && |cp| == |speeds|
  {
    forall i, j ::
      (0 <= i < |cp| && 0 <= j < |cp| && cp[i] > FloorQuota(speeds[i], n, total) && cp[j] == FloorQuota(speeds[j], n, total)) ==>
      Remainder(speeds[i], n, total) >= Remainder(speeds[j], n, total)
  }

  ghost predicate Floors(speeds: seq<nat>, n: nat, total: nat, cp: seq<nat>, rem: seq<nat>) {
    && total > 0 && |cp| == |speeds| && |rem| == |speeds|
    && forall i :: 0 <= i < |speeds| ==> cp[i] == FloorQuota(speeds[i], n, total) && rem[i] == Remainder(speeds[i], n, total)
  }

  // ---------------------------------------------------------------- the leftover

  /** Summing speed * n == floor * total + remainder over the PEs. */
  lemma {:induction false} SumQuotas(speeds: seq<nat>, n: nat, total: nat, cp: seq<nat>, rem: seq<nat>)
    requires Floors(speeds, n, total, cp, rem)
    ensures Sum(speeds) * n == Sum(cp) * total + Sum(rem)
    ensures Sum(rem) + |rem| <= |rem| * total
  {
    if speeds != [] {
      var k := |speeds| - 1;
      assert Floors(speeds[..k], n, total, cp[..k], rem[..k]);
      SumQuotas(speeds[..k], n, total, cp[..k], rem[..k]);
      DivMod(speeds[k] * n, total);
      assert (Sum(speeds[..k]) + speeds[k]) * n == Sum(speeds[..k]) * n + speeds[k] * n;
      assert (Sum(cp[..k]) + cp[k]) * total == Sum(cp[..k]) * total + cp[k] * total;
      Distribute(k, 0, total);
    }
  }

  /** The leftover after rounding down is between 0 and the number of PEs, exclusive. */
  lemma LeftoverRange(speeds: seq<nat>, n: nat, cp: seq<nat>, rem: seq<nat>)
    requires Sum(speeds) > 0 && Floors(speeds, n, Sum(speeds), cp, rem)
    ensures 0 <= n - Sum(cp) < |speeds| && Sum(rem) == (n - Sum(cp)) * Sum(speeds)
  {
    SumQuotas(speeds, n, Sum(speeds), cp, rem);
    hide Floors;
    LeftoverArith(Sum(speeds), n, Sum(cp), Sum(rem), |speeds|);
  }

  lemma LeftoverArith(total: nat, n: nat, c: nat, r: nat, m: nat)
    requires total > 0 && m > 0 && total * n == c * total + r && r + m <= m * total
    ensures 0 <= n - c < m && r == (n - c) * total
  {
    var nr := n - c;
    Minus(n, c, total);
    if nr < 0 { Mono(nr, -1, total); }
    if nr >= m { Mono(m, nr, total); }
  }

  lemma Minus(a: int, b: int, d: int)
    ensures (a - b) * d == d * a - b * d
  {
  }

  // ---------------------------------------------------------------- sorting by remainder

  /** Remainders of the PEs in this order. */
  function SumOf(order: seq<nat>, rem: seq<nat>): nat
    requires forall j :: 0 <= j < |order| ==> order[j] < |rem|
  {
    if order == [] then 0 else SumOf(order[..|order| - 1], rem) + rem[order[|order| - 1]]
  }

  ghost predicate Descending(order: seq<nat>, rem: seq<nat>) {
    && (forall j :: 0 <= j < |order| ==> order[j] < |rem|)
    && (forall i, j :: 0 <= i < j < |order| ==> rem[order[i]] >= rem[order[j]])
  }

  /** A permutation of the PEs. */
  ghost predicate AllPes(order: seq<nat>, n: nat) {
    |order| == n && forall x: nat :: Occ(order, x) == if x < n then 1 else 0
  }

  lemma {:induction false} SumOfConcat(a: seq<nat>, b: seq<nat>, rem: seq<nat>)
    requires forall j :: 0 <= j < |a + b| ==> (a + b)[j] < |rem|
    ensures (forall j :: 0 <= j < |a| ==> a[j] < |rem|) && (forall j :: 0 <= j < |b| ==> b[j] < |rem|)
    ensures SumOf(a + b, rem) == SumOf(a, rem) + SumOf(b, rem)
    decreases |b|
  {
    assert forall j :: 0 <= j < |a| ==> a[j] == (a + b)[j];
    assert forall j :: 0 <= j < |b| ==> b[j] == (a + b)[|a| + j];
    if b == [] {
      assert a + b == a;
    } else {
      var k := |b| - 1;
      assert (a + b)[..|a + b| - 1] == a + b[..k];
      SumOfConcat(a, b[..k], rem);
    }
  }

  /** Summing in any order gives the same. */
  lemma {:induction false} SumOfAll(order: seq<nat>, rem: seq<nat>)
    requires AllPes(order, |rem|) && forall j :: 0 <= j < |order| ==> order[j] < |rem|
    ensures SumOf(order, rem) == Sum(rem)
    decreases |rem|
  {
    if rem != [] {
      var n: nat := |rem| - 1;
      assert Occ(order, n) == 1;
      OccIn(order, n);
      var j :| 0 <= j < |order| && order[j] == n;
      var rest: seq<nat> := Drop(order, j);
      WithoutLast(order, rest, n, j);
      SumOfDrop(order, rem, j);
      SumOfShorter(rest, rem, rem[..n]);
      SumOfAll(rest, rem[..n]);
    }
  }

  lemma WithoutLast(order: seq<nat>, rest: seq<nat>, n: nat, j: nat)
    requires AllPes(order, n + 1) && j < |order| && order[j] == n && rest == Drop(order, j)
    ensures AllPes(rest, n) && forall i :: 0 <= i < |rest| ==> rest[i] < n
  {
    hide Occ;
    forall x: nat
      ensures Occ(rest, x) == if x < n then 1 else 0
    {
      OccSplit<nat>(order, j, x);
    }
    forall i | 0 <= i < |rest|
      ensures rest[i] < n
    {
      OccIn<nat>(rest, rest[i]);
    }
  }

  lemma SumOfDrop(order: seq<nat>, rem: seq<nat>, j: nat)
    requires j < |order| && forall i :: 0 <= i < |order| ==> order[i] < |rem|
    ensures (forall i :: 0 <= i < |Drop(order, j)| ==> Drop(order, j)[i] < |rem|) && SumOf(order, rem) == SumOf(Drop(order, j), rem) + rem[order[j]]
  {
    var a, x, b := order[..j], [order[j]], order[j + 1..];
    assert order == a + x + b;
    SumOfConcat(a + x, b, rem);
    SumOfConcat(a, x, rem);
    assert x[..0] == [];
    SumOfConcat(a, b, rem);
  }

  lemma {:induction false} SumOfShorter(order: seq<nat>, rem: seq<nat>, rem': seq<nat>)
    requires |rem'| <= |rem| && (forall i :: 0 <= i < |rem'| ==> rem'[i] == rem[i])
    requires forall j :: 0 <= j < |order| ==> order[j] < |rem'|
    ensures SumOf(order, rem) == SumOf(order, rem')
  {
    if order != [] { SumOfShorter(order[..|order| - 1], rem, rem'); }
  }

  lemma {:induction false} SumOfBelow(order: seq<nat>, rem: seq<nat>, total: nat)
    requires order != [] && (forall j :: 0 <= j < |order| ==> order[j] < |rem| && rem[order[j]] < total)
    ensures SumOf(order, rem) < |order| * total
  {
    var k := |order| - 1;
    Distribute(k, 0, total);
    if k > 0 { SumOfBelow(order[..k], rem, total); }
  }

  lemma {:induction false} SumOfZero(order: seq<nat>, rem: seq<nat>)
    requires forall j :: 0 <= j < |order| ==> order[j] < |rem| && rem[order[j]] == 0
    ensures SumOf(order, rem) == 0
  {
    if order != [] { SumOfZero(order[..|order| - 1], rem); }
  }

  /** Only PEs with something left over are among the first ones: so one more element makes the
      ceiling of their quota. */
  lemma FirstHaveRemainder(order: seq<nat>, rem: seq<nat>, nr: nat, total: nat, k: nat)
    requires AllPes(order, |rem|) && Descending(order, rem) && k < nr <= |order|
    requires Sum(rem) == nr * total && forall i :: 0 <= i < |rem| ==> rem[i] < total
    ensures rem[order[k]] > 0
  {
    if rem[order[k]] == 0 {
      SumOfAll(order, rem);
      hide AllPes, Sum;
      OnlyFirst(order, rem, k);
      hide SumOf, Descending;
      if k > 0 { SumOfBelow(order[..k], rem, total); } else { SumOfZero(order[..0], rem); }
      Mono(k, nr, total);
      Mono(1, nr, total);
    }
  }

  /** If the k-th largest is zero, only those before it count. */
  lemma OnlyFirst(order: seq<nat>, rem: seq<nat>, k: nat)
    requires Descending(order, rem) && k < |order| && rem[order[k]] == 0
    ensures forall j :: 0 <= j < k ==> order[..k][j] < |rem|
    ensures SumOf(order, rem) == SumOf(order[..k], rem)
  {
    var a, b := order[..k], order[k..];
    hide SumOf;
    forall j | 0 <= j < |b|
      ensures b[j] < |rem| && rem[b[j]] == 0
    {
      assert b[j] == order[k + j];
    }
    hide Descending;
    assert order == a + b;
    SumOfConcat(a, b, rem);
    SumOfZero(b, rem);
  }

  /** Stands for the library sort; any order of equal remainders would do. */
  method SortByRemainder(rem: seq<nat>) returns (pes: seq<nat>)
    ensures AllPes(pes, |rem|) && Descending(pes, rem)
  {
    pes := [];
    var i := 0;
    while i < |rem|
      invariant i <= |rem| && AllPes(pes, i) && Descending(pes, rem)
    {
      var j := |pes|;
      while j > 0 && rem[pes[j - 1]] < rem[i]
        invariant 0 <= j <= |pes|
        invariant forall m :: j <= m < |pes| ==> rem[pes[m]] <= rem[i]
      {
        j := j - 1;
      }
      InsertKeeps(pes, rem, i, j);
      pes := pes[..j] + [i] + pes[j..];
      i := i + 1;
    }
  }

  lemma InsertKeeps(pes: seq<nat>, rem: seq<nat>, i: nat, j: nat)
    requires i < |rem| && AllPes(pes, i) && Descending(pes, rem) && j <= |pes|
    requires (forall m :: j <= m < |pes| ==> rem[pes[m]] <= rem[i]) && (j > 0 ==> rem[pes[j - 1]] >= rem[i])
    ensures AllPes(pes[..j] + [i] + pes[j..], i + 1) && Descending(pes[..j] + [i] + pes[j..], rem)
  {
    InsertPes(pes, i, j);
    hide AllPes;
    var r := pes[..j] + [i] + pes[j..];
    forall a, b | 0 <= a < b < |r|
      ensures rem[r[a]] >= rem[r[b]]
    {
      if b < j {
      } else if a > j {
        assert r[a] == pes[a - 1] && r[b] == pes[b - 1];
      } else if a == j {
        assert r[b] == pes[b - 1];
      } else if b > j {
        assert r[b] == pes[b - 1];
      } else if a < j - 1 {
        assert rem[pes[a]] >= rem[pes[j - 1]];
      }
    }
  }

  lemma InsertPes(pes: seq<nat>, i: nat, j: nat)
    requires AllPes(pes, i) && j <= |pes|
    ensures AllPes(pes[..j] + [i] + pes[j..], i + 1)
  {
    hide Occ;
    var r := pes[..j] + [i] + pes[j..];
    assert pes == pes[..j] + pes[j..];
    forall x: nat
      ensures Occ(r, x) == if x < i + 1 then 1 else 0
    {
      OccConcat(pes[..j], pes[j..], x);
      OccConcat(pes[..j] + [i], pes[j..], x);
      OccConcat(pes[..j], [i], x);
      OccOne(i, x);
    }
  }

  // ---------------------------------------------------------------- the map

  function Copies(x: nat, k: nat): seq<nat> {
    if k == 0 then [] else Copies(x, k - 1) + [x]
  }

  /** PE 0 as often as its share, then PE 1, and so on. */
  function Fill(cp: seq<nat>): seq<nat> {
    if cp == [] then [] else Fill(cp[..|cp| - 1]) + Copies(|cp| - 1, cp[|cp| - 1])
  }

  lemma {:induction false} CopiesAre(x: nat, k: nat, y: nat)
    ensures |Copies(x, k)| == k && (forall i :: 0 <= i < k ==> Copies(x, k)[i] == x)
    ensures Occ(Copies(x, k), y) == if x == y then k else 0
  {
    if k > 0 {
      CopiesAre(x, k - 1, y);
      OccConcat(Copies(x, k - 1), [x], y);
      OccOne(x, y);
    }
  }

  /** Nondecreasing, and all below the bound. */
  ghost predicate Ascending(s: seq<nat>, bound: nat) {
    && (forall i :: 0 <= i < |s| ==> s[i] < bound)
    && (forall i, j :: 0 <= i < j < |s| ==> s[i] <= s[j])
  }

  lemma AscendingConcat(f: seq<nat>, c: seq<nat>, k: nat)
    requires Ascending(f, k) && forall i :: 0 <= i < |c| ==> c[i] == k
    ensures Ascending(f + c, k + 1)
  {
  }

  /** The filled map has each PE exactly as often as its share, in nondecreasing order. */
  lemma {:induction false} FillExact(cp: seq<nat>, pe: nat)
    ensures |Fill(cp)| == Sum(cp)
    ensures Occ(Fill(cp), pe) == if pe < |cp| then cp[pe] else 0
    ensures Ascending(Fill(cp), |cp|)
  {
    if cp != [] {
      var k := |cp| - 1;
      var f, c := Fill(cp[..k]), Copies(k, cp[k]);
      assert Fill(cp) == f + c && Sum(cp) == Sum(cp[..k]) + cp[k];
      hide Occ, Fill, Copies, Sum, Ascending;
      FillExact(cp[..k], pe);
      CopiesAre(k, cp[k], pe);
      OccConcat(f, c, pe);
      AscendingConcat(f, c, k);
    }
  }

  // ---------------------------------------------------------------- distrib

  method FloorShares(speeds: seq<nat>, n: nat, total: nat) returns (cp: seq<nat>, rem: seq<nat>)
    requires total > 0
    ensures Floors(speeds, n, total, cp, rem)
  {
    cp, rem := [], [];
    var i := 0;
    while i < |speeds|
      invariant i <= |speeds| && Floors(speeds[..i], n, total, cp, rem)
    {
      cp := cp + [FloorQuota(speeds[i], n, total)];
      rem := rem + [Remainder(speeds[i], n, total)];
      assert speeds[..i + 1] == speeds[..i] + [speeds[i]];
      i := i + 1;
    }
    assert speeds[..i] == speeds;
  }

  method Total(s: seq<nat>) returns (total: nat)
    ensures total == Sum(s)
  {
    total := 0;
    var i := 0;
    while i < |s|
      invariant i <= |s| && total == Sum(s[..i])
    {
      assert s[..i + 1][..i] == s[..i];
      total := total + s[i];
      i := i + 1;
    }
    assert s[..i] == s;
  }

  /** Shares that add up to n, each the floor or the ceiling of its PE's exact quota. */
  method Shares(speeds: seq<nat>, n: nat) returns (cp: seq<nat>)
    requires Sum(speeds) > 0
    ensures |cp| == |speeds| && Sum(cp) == n
    ensures forall i :: 0 <= i < |speeds| ==> FloorOrCeil(cp[i], speeds[i], n, Sum(speeds))
    ensures LargestFirst(cp, speeds, n, Sum(speeds))
  {
    var total := Total(speeds);
    var floors, rem := FloorShares(speeds, n, total);
    var given := Total(floors);
    LeftoverRange(speeds, n, floors, rem);
    var nr := n - given;
    cp := floors;
    if nr == 0 { return; }
    var pes := SortByRemainder(rem);
    RemaindersSmall(speeds, n, total, floors, rem);
    assert nr == 0 || |pes| == |rem|;
    hide Sum, Remainder, FloorQuota, LargestFirst, FloorOrCeil;
    var i := 0;
    while i < nr
      invariant i <= nr && |cp| == |speeds| && Sum(cp) == given + i
      invariant Bumped(floors, cp, pes, i)
    {
      SumBump(cp, pes[i]);
      BumpNext(floors, cp, pes, i);
      cp := cp[pes[i] := cp[pes[i]] + 1];
      i := i + 1;
    }
    BumpedShares(speeds, n, total, floors, rem, cp, pes, nr);
    BumpedLargest(speeds, n, total, floors, rem, cp, pes, nr);
  }

  lemma RemaindersSmall(speeds: seq<nat>, n: nat, total: nat, cp: seq<nat>, rem: seq<nat>)
    requires Floors(speeds, n, total, cp, rem)
    ensures forall i :: 0 <= i < |rem| ==> rem[i] < total
  {
  }

  /** The first i PEs of the order have one more than their floor, the others their floor. */
  ghost predicate Bumped(floors: seq<nat>, cp: seq<nat>, pes: seq<nat>, i: nat) {
    && |cp| == |floors| && i <= |pes|
    && forall x :: 0 <= x < |cp| ==> cp[x] == floors[x] + if x in pes[..i] then 1 else 0
  }

  lemma BumpNext(floors: seq<nat>, cp: seq<nat>, pes: seq<nat>, i: nat)
    requires Bumped(floors, cp, pes, i) && AllPes(pes, |floors|) && i < |pes| && pes[i] < |cp|
    ensures Bumped(floors, cp[pes[i] := cp[pes[i]] + 1], pes, i + 1)
  {
    assert Occ(pes, pes[i]) == 1;
    if pes[i] in pes[..i] {
      var j :| 0 <= j < i && pes[..i][j] == pes[i];
      OccTwo(pes, j, i);
    }
    assert pes[..i + 1] == pes[..i] + [pes[i]];
  }

  lemma {:induction false} SumBump(cp: seq<nat>, x: nat)
    requires x < |cp|
    ensures Sum(cp[x := cp[x] + 1]) == Sum(cp) + 1
  {
    var k := |cp| - 1;
    if x < k {
      SumBump(cp[..k], x);
      assert cp[x := cp[x] + 1][..k] == cp[..k][x := cp[x] + 1];
    } else {
      assert cp[x := cp[x] + 1][..k] == cp[..k];
    }
  }

  lemma BumpedShares(speeds: seq<nat>, n: nat, total: nat, floors: seq<nat>, rem: seq<nat>, cp: seq<nat>, pes: seq<nat>, nr: nat)
    requires Floors(speeds, n, total, floors, rem) && Bumped(floors, cp, pes, nr)
    requires AllPes(pes, |rem|) && Descending(pes, rem) && Sum(rem) == nr * total
    ensures forall i :: 0 <= i < |speeds| ==> FloorOrCeil(cp[i], speeds[i], n, total)
  {
    RemaindersSmall(speeds, n, total, floors, rem);
    forall i | 0 <= i < |speeds|
      ensures FloorOrCeil(cp[i], speeds[i], n, total)
    {
      if i in pes[..nr] {
        var k :| 0 <= k < nr && pes[..nr][k] == i;
        FirstHaveRemainder(pes, rem, nr, total, k);
      }
    }
  }

  lemma InPrefix(pes: seq<nat>, nr: nat, m: nat)
    requires m < |pes| && nr <= |pes|
    ensures m < nr ==> pes[m] in pes[..nr]
  {
    assert m < nr ==> pes[..nr][m] == pes[m];
  }

  lemma BumpedLargest(speeds: seq<nat>, n: nat, total: nat, floors: seq<nat>, rem: seq<nat>, cp: seq<nat>, pes: seq<nat>, nr: nat)
    requires Floors(speeds, n, total, floors, rem) && Bumped(floors, cp, pes, nr)
    requires AllPes(pes, |rem|) && Descending(pes, rem)
    ensures LargestFirst(cp, speeds, n, total)
  {
    forall i: nat, j: nat | i < |cp| && j < |cp| && cp[i] > floors[i] && cp[j] == floors[j]
      ensures rem[i] >= rem[j]
    {
      assert Occ(pes, j) == 1;
      OccIn(pes, j);
      var k :| 0 <= k < nr && pes[..nr][k] == i;
      var m :| 0 <= m < |pes| && pes[m] == j;
      InPrefix(pes, nr, m);
    }
    hide Occ, Descending, Bumped, FloorQuota, Remainder;
  }

  /** distrib: the shares, written out as a map from flat positions to PEs. */
  method Distrib(speeds: seq<nat>, n: nat) returns (cp: seq<nat>, pmap: array<nat>)
    requires Sum(speeds) > 0
    ensures |cp| == |speeds| && Sum(cp) == n
    ensures forall i :: 0 <= i < |speeds| ==> FloorOrCeil(cp[i], speeds[i], n, Sum(speeds))
    ensures LargestFirst(cp, speeds, n, Sum(speeds))
    ensures fresh(pmap) && pmap[..] == Fill(cp)
  {
    cp := Shares(speeds, n);
    FillExact(cp, 0);
    pmap := new nat[n];
    assert Fill(cp[..0]) == [];
    hide Sum, Occ, FloorOrCeil, LargestFirst, Fill, Copies;
    var k: nat, i: nat := 0, 0;
    while i < |cp|
      invariant i <= |cp| && k <= n && pmap[..k] == Fill(cp[..i])
    {
      FillNext(cp, i);
      assert |pmap[..k]| == k;
      WriteCopies(pmap, k, i, cp[i]);
      k := k + cp[i];
      i := i + 1;
    }
    assert cp[..i] == cp && |pmap[..k]| == n;
  }

  /** The inner loop: the next positions all map to one PE. */
  method WriteCopies(pmap: array<nat>, k: nat, pe: nat, count: nat)
    requires k + count <= pmap.Length
    modifies pmap
    ensures pmap[..k + count] == old(pmap[..k]) + Copies(pe, count)
  {
    var j := 0;
    while j < count
      invariant j <= count && pmap[..k + j] == old(pmap[..k]) + Copies(pe, j)
    {
      pmap[k + j] := pe;
      assert pmap[..k + j + 1] == pmap[..k + j] + [pe];
      j := j + 1;
    }
  }

  lemma FillNext(cp: seq<nat>, i: nat)
    requires i < |cp|
    ensures Fill(cp[..i + 1]) == Fill(cp[..i]) + Copies(i, cp[i]) && |Fill(cp[..i])| + cp[i] <= |Fill(cp)|
  {
    FillPrefix(cp, i + 1);
    assert cp[..i + 1][..i] == cp[..i];
    CopiesAre(i, cp[i], 0);
  }

  lemma {:induction false} FillPrefix(cp: seq<nat>, i: nat)
    requires i <= |cp|
    ensures |Fill(cp[..i])| <= |Fill(cp)|
    decreases |cp|
  {
    if i == |cp| {
      assert cp[..i] == cp;
    } else {
      FillPrefix(cp[..|cp| - 1], i);
      assert cp[..|cp| - 1][..i] == cp[..i];
    }
  }
}
