/** Bitwise operations on natural numbers, and how they meet powers of two. */
module Bits {

  function Pow2(n: nat): (p: nat)
    ensures p >= 1
  {
    if n == 0 then 1 else 2 * Pow2(n - 1)
  }

  function Bit(on: bool): nat { if on then 1 else 0 }

  function BitOr(a: nat, b: nat): nat
    decreases a + b
  {
    if a == 0 && b == 0 then 0 else Bit(a % 2 == 1 || b % 2 == 1) + 2 * BitOr(a / 2, b / 2)
  }

  function BitAnd(a: nat, b: nat): nat
    decreases a + b
  {
    if a == 0 && b == 0 then 0 else Bit(a % 2 == 1 && b % 2 == 1) + 2 * BitAnd(a / 2, b / 2)
  }

  function Shl(a: nat, n: nat): nat { a * Pow2(n) }

  function Shr(a: nat, n: nat): nat
    decreases n
  {
    if n == 0 then a else Shr(a / 2, n - 1)
  }

  /** The n lowest bits. */
  function Low(a: nat, n: nat): nat
    decreases n
  {
    if n == 0 then 0 else a % 2 + 2 * Low(a / 2, n - 1)
  }

  lemma {:induction false} Pow2Add(a: nat, b: nat)
    ensures Pow2(a + b) == Pow2(a) * Pow2(b)
  {
    if a > 0 {
      Pow2Add(a - 1, b);
      assert 2 * (Pow2(a - 1) * Pow2(b)) == (2 * Pow2(a - 1)) * Pow2(b);
    }
  }

  lemma {:induction false} Pow2Mono(a: nat, b: nat)
    requires a <= b
    ensures Pow2(a) <= Pow2(b)
  {
    if a < b { Pow2Mono(a, b - 1); }
  }

  lemma Doubled(h: nat, p: nat)
    ensures h * (2 * p) == 2 * (h * p)
  {
  }

  /** A number is its high part and its low part. */
  lemma {:induction false} Split(x: nat, n: nat)
    ensures x == Shl(Shr(x, n), n) + Low(x, n) && Low(x, n) < Pow2(n)
    decreases n
  {
    if n > 0 {
      Split(x / 2, n - 1);
      Doubled(Shr(x, n), Pow2(n - 1));
    }
  }

  lemma {:induction false} Join(h: nat, l: nat, n: nat)
    requires l < Pow2(n)
    ensures Shr(Shl(h, n) + l, n) == h && Low(Shl(h, n) + l, n) == l
    decreases n
  {
    if n > 0 {
      Doubled(h, Pow2(n - 1));
      assert (Shl(h, n) + l) / 2 == Shl(h, n - 1) + l / 2;
      Join(h, l / 2, n - 1);
    }
  }

  lemma {:induction false} OrZero(a: nat)
    ensures BitOr(a, 0) == a
  {
    if a > 0 { OrZero(a / 2); }
  }

  lemma {:induction false} AndZero(a: nat)
    ensures BitAnd(a, 0) == 0
  {
    if a > 0 { AndZero(a / 2); }
  }

  /** Or with a number below bit n adds it to a multiple of 2^n. */
  lemma {:induction false} OrDisjoint(h: nat, v: nat, n: nat)
    requires v < Pow2(n)
    ensures BitOr(Shl(h, n), v) == Shl(h, n) + v
    decreases n
  {
    if n == 0 {
      OrZero(h);
    } else {
      Doubled(h, Pow2(n - 1));
      OrDisjoint(h, v / 2, n - 1);
    }
  }

  /** And with a mask of n ones keeps the n lowest bits. */
  lemma {:induction false} AndMask(x: nat, n: nat)
    ensures BitAnd(x, Pow2(n) - 1) == Low(x, n)
    decreases n
  {
    if n == 0 { AndZero(x); } else { AndMask(x / 2, n - 1); }
  }

  /** Or with a mask of n ones sets the n lowest bits. */
  lemma {:induction false} OrMask(x: nat, n: nat)
    ensures var y := BitOr(x, Pow2(n) - 1); Shr(y, n) == Shr(x, n) && Low(y, n) == Pow2(n) - 1
    decreases n
  {
    if n == 0 {
      OrZero(x);
    } else {
      var mask := Pow2(n) - 1;
      assert mask / 2 == Pow2(n - 1) - 1 && mask % 2 == 1;
      OrMask(x / 2, n - 1);
    }
  }

  lemma {:induction false} OrShr(a: nat, b: nat, n: nat)
    ensures Shr(BitOr(a, b), n) == BitOr(Shr(a, n), Shr(b, n))
    decreases n
  {
    if n > 0 { OrShr(a / 2, b / 2, n - 1); }
  }

  lemma {:induction false} ShrTwice(x: nat, a: nat, b: nat)
    ensures Shr(Shr(x, a), b) == Shr(x, a + b)
    decreases a
  {
    if a > 0 { ShrTwice(x / 2, a - 1, b); }
  }

  lemma {:induction false} OrBound(a: nat, b: nat, n: nat)
    requires a < Pow2(n) && b < Pow2(n)
    ensures BitOr(a, b) < Pow2(n)
    decreases n
  {
    if n > 0 { OrBound(a / 2, b / 2, n - 1); }
  }

  lemma {:induction false} ShrLess(x: nat, j: nat)
    ensures Shr(x, j) <= x
    decreases j
  {
    if j > 0 { ShrLess(x / 2, j - 1); }
  }

  lemma {:induction false} ShrSmall(x: nat, j: nat)
    requires x < Pow2(j)
    ensures Shr(x, j) == 0
    decreases j
  {
    if j > 0 { ShrSmall(x / 2, j - 1); }
  }

  lemma {:induction false} ShrOnes(j: nat, m: nat)
    requires m <= j
    ensures Shr(Pow2(j) - 1, m) == Pow2(j - m) - 1
    decreases m
  {
    if m > 0 { ShrOnes(j - 1, m - 1); }
  }

  lemma OneLess(p: int, q: int)
    ensures (p - 1) * q + q == p * q
  {
  }

  lemma AllOnes(z: nat, a: nat, b: nat)
    requires Shr(z, b) == Pow2(a) - 1 && Low(z, b) == Pow2(b) - 1
    ensures z == Pow2(a + b) - 1
  {
    hide Pow2, Shr, Low;
    Split(z, b);
    Pow2Add(a, b);
    OneLess(Pow2(a), Pow2(b));
  }

  // ---------------------------------------------------------------- smearing the highest bit

  /** x has n bits, of which the highest j are ones. */
  predicate TopOnes(x: nat, n: nat, j: nat) {
    j <= n && x < Pow2(n) && Shr(x, n - j) == Pow2(j) - 1
  }

  function Min(a: nat, b: nat): nat { if a <= b then a else b }

  lemma SmearFits(x: nat, n: nat, j: nat)
    requires TopOnes(x, n, j) && 2 * j <= n
    ensures TopOnes(BitOr(x, Shr(x, j)), n, 2 * j)
  {
    hide Pow2, Shr, BitOr, Low;
    var m := n - 2 * j;
    var a := Shr(x, m);
    OrShr(x, Shr(x, j), m);
    ShrTwice(x, j, m);
    ShrTwice(x, m, j);
    OrMask(a, j);
    AllOnes(BitOr(a, Pow2(j) - 1), j, j);
    ShrLess(x, j);
    OrBound(x, Shr(x, j), n);
  }

  lemma SmearFills(x: nat, n: nat, j: nat)
    requires TopOnes(x, n, j) && 2 * j > n
    ensures TopOnes(BitOr(x, Shr(x, j)), n, n)
  {
    hide Pow2, Shr, BitOr, Low;
    var k := n - j;
    ShrTwice(x, k, j - k);
    ShrOnes(j, j - k);
    OrMask(x, k);
    AllOnes(BitOr(x, Pow2(k) - 1), j, k);
    ShrNone(BitOr(x, Shr(x, j)));
  }

  lemma ShrNone(x: nat)
    ensures Shr(x, 0) == x
  {
  }

  /** One step of the smear doubles the run of ones at the top. */
  lemma SmearStep(x: nat, n: nat, j: nat)
    requires TopOnes(x, n, j)
    ensures TopOnes(BitOr(x, Shr(x, j)), n, Min(2 * j, n))
  {
    hide TopOnes, BitOr, Shr;
    if 2 * j <= n { SmearFits(x, n, j); } else { SmearFills(x, n, j); }
  }

  /** Past the last bit it does nothing. */
  lemma SmearDone(x: nat, n: nat, j: nat)
    requires TopOnes(x, n, n) && j >= n
    ensures BitOr(x, Shr(x, j)) == x
  {
    Pow2Mono(n, j);
    ShrSmall(x, j);
    OrZero(x);
  }
}
