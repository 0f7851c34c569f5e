/** Packing a bounded array index into an element ID: each dimension gets as many bits as its
    bound needs, 48 bits in all at most.
 */
module Compressor {
  import opened Options
  import opened Arith
  import opened Bits

  const MAX_BITS := 48

  /** The largest bound whose bit count the 32-bit computation gets right. */
  const MAX_BOUND := 0x4000_0000

  const INT_MAX := 0x7fff_ffff

  // ---------------------------------------------------------------- bits for a bound

  /** n bits are enough for the indices below the bound, and no fewer are. */
  predicate NeedsBits(bound: nat, n: nat) {
    bound <= Pow2(n) && forall m: nat :: bound <= Pow2(m) ==> n <= m
  }

  function Smear(x: nat): nat {
    var a := BitOr(x, Shr(x, 1));
    var b := BitOr(a, Shr(a, 2));
    var c := BitOr(b, Shr(b, 4));
    var d := BitOr(c, Shr(c, 8));
    BitOr(d, Shr(d, 16))
  }

  lemma SmearBy(x: nat, n: nat, j: nat)
    requires TopOnes(x, n, Min(j, n))
    ensures TopOnes(BitOr(x, Shr(x, j)), n, Min(2 * j, n))
  {
    hide TopOnes, BitOr, Shr;
    if j <= n { SmearStep(x, n, j); } else { SmearDone(x, n, j); }
  }

  lemma {:induction false} FirstOne(x: nat, n: nat)
    requires 0 < n && Pow2(n - 1) <= x < Pow2(n)
    ensures TopOnes(x, n, 1)
  {
    if n > 1 { FirstOne(x / 2, n - 1); }
  }

  /** The five steps set every bit below the highest. */
  lemma SmearRoundsUp(x: nat, n: nat)
    requires 0 < n <= 32 && Pow2(n - 1) <= x < Pow2(n)
    ensures Smear(x) == Pow2(n) - 1
  {
    FirstOne(x, n);
    hide TopOnes, BitOr, Shr;
    var a := BitOr(x, Shr(x, 1));
    var b := BitOr(a, Shr(a, 2));
    var c := BitOr(b, Shr(b, 4));
    var d := BitOr(c, Shr(c, 8));
    SmearBy(x, n, 1);
    SmearBy(a, n, 2);
    SmearBy(b, n, 4);
    SmearBy(c, n, 8);
    SmearBy(d, n, 16);
    Full(Smear(x), n);
  }

  lemma Full(x: nat, n: nat)
    requires TopOnes(x, n, n)
    ensures x == Pow2(n) - 1
  {
  }

  lemma SmearZero()
    ensures Smear(0) == 0
  {
  }

  lemma {:induction false} HighestBit(x: nat) returns (n: nat)
    requires x > 0
    ensures 0 < n && Pow2(n - 1) <= x < Pow2(n)
  {
    if x == 1 {
      n := 1;
    } else {
      n := HighestBit(x / 2);
      n := n + 1;
    }
  }

  lemma Pow2At30()
    ensures Pow2(30) == MAX_BOUND && Pow2(31) == INT_MAX + 1
  {
    assert Pow2(10) == 1024;
    Pow2Add(10, 10);
    Pow2Add(20, 10);
  }

  /** What smearing leaves, plus one, is the least power of two not below the bound. */
  lemma RoundedUp(bound: nat) returns (n: nat)
    requires 0 < bound <= INT_MAX
    ensures Smear(bound - 1) + 1 == Pow2(n) && n <= 31 && NeedsBits(bound, n)
    ensures bound <= MAX_BOUND <==> n <= 30
  {
    hide Smear;
    Pow2At30();
    if bound == 1 {
      SmearZero();
      n := 0;
    } else {
      n := HighestBit(bound - 1);
      if n > 31 { Pow2Mono(31, n - 1); }
      SmearRoundsUp(bound - 1, n);
      forall m: nat | bound <= Pow2(m)
        ensures n <= m
      {
        if m < n { Pow2Mono(m, n - 1); }
      }
      if n <= 30 { Pow2Mono(n, 30); } else { Pow2Mono(30, n - 1); }
    }
  }

  /** The bit count is computed in 32-bit signed integers; the rounded-up bound fits exactly up to
      2^30.  Beyond, it wraps to a negative number, which no shifting brings to zero. */
  lemma BitCountFitsIff(bound: nat)
    requires 0 < bound <= INT_MAX
    ensures bound <= MAX_BOUND <==> Smear(bound - 1) + 1 <= INT_MAX
  {
    hide Smear;
    var n := RoundedUp(bound);
    Pow2At30();
    if n <= 30 { Pow2Mono(n, 30); } else { Pow2Mono(31, n); }
  }

  /** A 32-bit signed integer. */
  function Wrap32(x: nat): int {
    if x <= INT_MAX then x else x - 2 * (INT_MAX + 1)
  }

  /** k shifts to the right by one; of a negative number, arithmetically. */
  function Halved(x: int, k: nat): int {
    if k == 0 then x else Halved(x, k - 1) / 2
  }

  lemma {:induction false} NegativeStays(x: int, k: nat)
    requires x < 0
    ensures Halved(x, k) < 0
  {
    if k > 0 { NegativeStays(x, k - 1); }
  }

  lemma {:induction false} HalvedPow2(n: nat, k: nat)
    requires k <= n
    ensures Halved(Pow2(n), k) == Pow2(n - k)
  {
    if k > 0 { HalvedPow2(n, k - 1); }
  }

  ghost predicate ReachesZero(x: int) {
    exists k: nat :: Halved(x, k) == 0
  }

  /** The counting loop of the source, which shifts until it has zero, ends if and only if the bound
      is at most 2^30. */
  lemma BitCountEndsIff(bound: nat)
    requires 0 < bound <= INT_MAX
    ensures bound <= MAX_BOUND <==> ReachesZero(Wrap32(Smear(bound - 1) + 1))
  {
    hide Smear;
    var n := RoundedUp(bound);
    var x := Wrap32(Smear(bound - 1) + 1);
    Pow2At30();
    if bound <= MAX_BOUND {
      Pow2Mono(n, 30);
      assert x == Pow2(n);
      HalvedPow2(n, n);
      assert Halved(x, n + 1) == 0;
    } else {
      assert n == 31 && x < 0;
      forall k: nat
        ensures Halved(x, k) != 0
      {
        NegativeStays(x, k);
      }
    }
  }

  /** bitCount: None where its loop never ends. */
  method BitCount(bound: nat) returns (bits: Option<nat>)
    requires 0 < bound <= INT_MAX
    ensures bits.Some? <==> ReachesZero(Wrap32(Smear(bound - 1) + 1))
    ensures bits.Some? <==> bound <= MAX_BOUND
    ensures bits.Some? ==> NeedsBits(bound, bits.value) && bits.value <= 30
  {
    hide NeedsBits, ReachesZero, TopOnes, BitOr, Shr;
    BitCountEndsIff(bound);
    BitCountFitsIff(bound);
    ghost var n := RoundedUp(bound);
    var b := bound - 1;
    b := BitOr(b, Shr(b, 1));
    b := BitOr(b, Shr(b, 2));
    b := BitOr(b, Shr(b, 4));
    b := BitOr(b, Shr(b, 8));
    b := BitOr(b, Shr(b, 16));
    assert b == Smear(bound - 1);
    hide Smear;
    b := b + 1;
    if b > INT_MAX { return None; }
    var result := 0;
    b := b / 2;
    while b != 0
      invariant result <= n && b == if result == n then 0 else Pow2(n - result - 1)
      decreases b
    {
      result := result + 1;
      b := b / 2;
    }
    return Some(result);
  }

  // ---------------------------------------------------------------- the compressor

  function Sum(bits: seq<nat>): nat {
    if bits == [] then 0 else Sum(bits[..|bits| - 1]) + bits[|bits| - 1]
  }

  /** Every coordinate fits its field. */
  predicate Fits(bits: seq<nat>, idx: seq<nat>) {
    |idx| == |bits| && forall i :: 0 <= i < |bits| ==> idx[i] < Pow2(bits[i])
  }

  ghost predicate InBounds(bounds: seq<nat>, idx: seq<nat>) {
    |idx| == |bounds| && forall i :: 0 <= i < |bounds| ==> idx[i] < bounds[i]
  }

  /** The coordinates as digits, the first one highest. */
  function Pack(bits: seq<nat>, idx: seq<nat>): nat
    requires |idx| == |bits|
  {
    if bits == [] then 0
    else Shl(Pack(bits[..|bits| - 1], idx[..|bits| - 1]), bits[|bits| - 1]) + idx[|bits| - 1]
  }

  function Unpack(bits: seq<nat>, id: nat): (idx: seq<nat>)
    ensures |idx| == |bits|
  {
    if bits == [] then []
    else Unpack(bits[..|bits| - 1], Shr(id, bits[|bits| - 1])) + [Low(id, bits[|bits| - 1])]
  }

  lemma FitsInit(bits: seq<nat>, idx: seq<nat>)
    requires bits != [] && Fits(bits, idx)
    ensures Fits(bits[..|bits| - 1], idx[..|bits| - 1])
  {
  }

  lemma {:induction false} RoundTrip(bits: seq<nat>, idx: seq<nat>)
    requires Fits(bits, idx)
    ensures Unpack(bits, Pack(bits, idx)) == idx
  {
    if bits == [] {
      assert idx == [];
    } else {
      var n := |bits| - 1;
      FitsInit(bits, idx);
      RoundTrip(bits[..n], idx[..n]);
      Join(Pack(bits[..n], idx[..n]), idx[n], bits[n]);
      assert idx == idx[..n] + [idx[n]];
    }
  }

  lemma {:induction false} PackBound(bits: seq<nat>, idx: seq<nat>)
    requires Fits(bits, idx)
    ensures Pack(bits, idx) < Pow2(Sum(bits))
  {
    if bits != [] {
      var n := |bits| - 1;
      FitsInit(bits, idx);
      PackBound(bits[..n], idx[..n]);
      Pow2Add(Sum(bits[..n]), bits[n]);
      Below(Pack(bits[..n], idx[..n]), Pow2(Sum(bits[..n])), Pow2(bits[n]), idx[n]);
    }
  }

  lemma Below(a: nat, p: nat, q: nat, v: nat)
    requires a < p && v < q
    ensures a * q + v < p * q
  {
    Distribute(a, p - a - 1, q);
    Positive(p - a - 1, q);
  }

  /** make: None without dimensions, or if the fields need more than 48 bits. */
  method Make(bounds: seq<nat>) returns (bits: Option<seq<nat>>)
    requires forall i :: 0 <= i < |bounds| ==> 0 < bounds[i] <= MAX_BOUND
    ensures bits.Some? ==> |bits.value| == |bounds| && Sum(bits.value) <= MAX_BITS
    ensures bits.Some? ==> forall i :: 0 <= i < |bounds| ==> NeedsBits(bounds[i], bits.value[i])
    ensures bounds == [] ==> bits.None?
    ensures bits.None? && bounds != [] ==>
      exists bs: seq<nat> :: |bs| == |bounds| && Sum(bs) > MAX_BITS && forall i :: 0 <= i < |bounds| ==> NeedsBits(bounds[i], bs[i])
  {
    if bounds == [] { return None; }
    var bs: seq<nat>, sum, i := [], 0, 0;
    while i < |bounds|
      invariant i <= |bounds| && |bs| == i && sum == Sum(bs)
      invariant forall k :: 0 <= k < i ==> NeedsBits(bounds[k], bs[k])
    {
      var count := BitCount(bounds[i]);
      var b := count.value;
      assert (bs + [b])[..i] == bs;
      bs := bs + [b];
      sum := sum + b;
      i := i + 1;
    }
    if sum > MAX_BITS { return None; }
    return Some(bs);
  }

  /** compress: None where an assertion of the source fails. */
  method Compress(bits: seq<nat>, idx: seq<nat>) returns (id: Option<nat>)
    ensures id.Some? <==> Fits(bits, idx)
    ensures id.Some? ==> id.value == Pack(bits, idx)
  {
    if |idx| != |bits| { return None; }
    var eid, i := 0, 0;
    while i < |idx|
      invariant i <= |idx| && Fits(bits[..i], idx[..i]) && eid == Pack(bits[..i], idx[..i])
    {
      var numBits := bits[i];
      if idx[i] >= Pow2(numBits) { return None; }
      OrDisjoint(eid, idx[i], numBits);
      assert bits[..i + 1][..i] == bits[..i] && idx[..i + 1][..i] == idx[..i];
      eid := BitOr(Shl(eid, numBits), idx[i]);
      i := i + 1;
    }
    assert bits[..i] == bits && idx[..i] == idx;
    return Some(eid);
  }

  method Decompress(bits: seq<nat>, id: nat) returns (idx: seq<nat>)
    ensures idx == Unpack(bits, id)
  {
    var rest, i := id, |bits|;
    idx := [];
    assert bits[..i] == bits && Unpack(bits, id) + [] == Unpack(bits, id);
    while i > 0
      invariant i <= |bits| && Unpack(bits, id) == Unpack(bits[..i], rest) + idx
    {
      i := i - 1;
      AndMask(rest, bits[i]);
      assert bits[..i + 1][..i] == bits[..i];
      idx := [BitAnd(rest, Pow2(bits[i]) - 1)] + idx;
      rest := Shr(rest, bits[i]);
    }
  }

  /** For the bounds a compressor was made for, every in-bounds index gets an ID below 2^48, from
      which it is recovered: so distinct indices get distinct IDs, and anything determined by the
      index, such as its home, is determined by the ID. */
  lemma CompressorSound(bounds: seq<nat>, bits: seq<nat>, idx: seq<nat>)
    requires |bits| == |bounds| && Sum(bits) <= MAX_BITS && InBounds(bounds, idx)
    requires forall i :: 0 <= i < |bounds| ==> NeedsBits(bounds[i], bits[i])
    ensures Fits(bits, idx) && Pack(bits, idx) < Pow2(MAX_BITS)
    ensures Unpack(bits, Pack(bits, idx)) == idx
    ensures forall other :: InBounds(bounds, other) && Pack(bits, other) == Pack(bits, idx) ==> other == idx
  {
    FitsBounds(bounds, bits, idx);
    PackBound(bits, idx);
    Pow2Mono(Sum(bits), MAX_BITS);
    RoundTrip(bits, idx);
    hide NeedsBits, Pack, Unpack;
    forall other | InBounds(bounds, other) && Pack(bits, other) == Pack(bits, idx)
      ensures other == idx
    {
      FitsBounds(bounds, bits, other);
      RoundTrip(bits, other);
    }
  }

  lemma FitsBounds(bounds: seq<nat>, bits: seq<nat>, idx: seq<nat>)
    requires |bits| == |bounds| && InBounds(bounds, idx)
    requires forall i :: 0 <= i < |bounds| ==> NeedsBits(bounds[i], bits[i])
    ensures Fits(bits, idx)
  {
    forall i | 0 <= i < |bits|
      ensures idx[i] < Pow2(bits[i])
    {
      assert NeedsBits(bounds[i], bits[i]);
    }
  }
}
