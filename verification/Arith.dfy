/** Division by a variable, in small steps. */
module Arith {

  lemma Distribute(a: int, d: int, q: int)
    ensures (a + 1 + d) * q == a * q + q + d * q
  {
  }

  /** Quotient and remainder are unique. */
  lemma Unique(a: int, v: int, b: int, w: int, d: int)
    requires a * d + v == b * d + w && 0 <= v < d && 0 <= w < d
    ensures a == b && v == w
  {
    if a < b {
      Distribute(a, b - a - 1, d);
      Positive(b - a - 1, d);
    } else if b < a {
      Distribute(b, a - b - 1, d);
      Positive(a - b - 1, d);
    }
  }

  lemma Positive(a: int, d: int)
    requires a >= 0 && d >= 0
    ensures a * d >= 0
  {
  }

  lemma DivMod(x: int, d: int)
    requires d > 0
    ensures x == x / d * d + x % d && 0 <= x % d < d
  {
  }

  lemma DivOf(a: int, d: int, v: int)
    requires 0 <= v < d
    ensures (a * d + v) / d == a && (a * d + v) % d == v
  {
    var x := a * d + v;
    DivMod(x, d);
    Unique(a, v, x / d, x % d, d);
  }

  lemma DivBounds(x: int, d: int)
    requires d > 0 && x >= 0
    ensures 0 <= x / d && x / d * d <= x < (x / d + 1) * d
  {
    DivMod(x, d);
    Distribute(x / d, 0, d);
  }

  lemma Mono(a: int, b: int, d: int)
    requires a <= b && d >= 0
    ensures a * d <= b * d
  {
    if a < b {
      Distribute(a, b - a - 1, d);
      Positive(b - a - 1, d);
    }
  }
}
