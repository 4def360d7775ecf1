// Rows and columns laid out one after another.

module Grids {
  // Index of column x of row y.
  function At(y: nat, x: nat, scan: nat): nat {
    y * scan + x
  }

  lemma AtInverse(y: nat, x: nat, scan: nat)
    requires x < scan
    ensures At(y, x, scan) / scan == y && At(y, x, scan) % scan == x
  {
    DivIs(At(y, x, scan), scan, y, x);
  }

  lemma DivIs(n: int, d: nat, q: int, r: nat)
    requires d > 0 && n == q * d + r && r < d
    ensures n / d == q && n % d == r
  {
    assert (n / d - q) * d == r - n % d;
    SmallMultiple(n / d - q, d);
  }

  lemma SmallMultiple(t: int, d: int)
    requires -d < t * d < d
    ensures t == 0
  {
  }

  lemma NatProduct(a: nat, b: nat)
    ensures a * b >= 0
  {
  }

  lemma TimesMonotone(a: nat, b: nat, c: nat, d: nat)
    requires a <= b && c <= d
    ensures a * c <= b * c <= b * d
  {
    NatProduct(b - a, c);
    NatProduct(b, d - c);
    assert (b - a) * c == b * c - a * c && b * (d - c) == b * d - b * c;
  }

  lemma AtOrder(y: nat, y': nat, scan: nat)
    requires y < y'
    ensures y * scan + scan <= y' * scan
  {
    NatProduct(y' - y - 1, scan);
    assert (y' - y - 1) * scan == y' * scan - y * scan - scan;
  }

  lemma AtNext(y: nat, x: nat, scan: nat)
    ensures At(y + 1, x, scan) == At(y, x, scan) + scan && At(y, x, scan) == At(y, 0, scan) + x && At(0, x, scan) == x
  {
  }
}
