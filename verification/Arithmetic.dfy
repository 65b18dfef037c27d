/** Products and remainders of naturals. */
module Arithmetic {

  lemma Distribute(a: nat, b: nat, m: nat)
    requires a < b
    ensures a * m + m <= b * m
  {
    assert b * m == a * m + m + (b - a - 1) * m;
  }

  lemma MulMono(a: nat, b: nat, m: nat)
    ensures a <= b ==> a * m <= b * m
  {
    if a < b { Distribute(a, b, m); }
  }

  lemma DivMod(k: nat, m: nat)
    requires m > 0
    ensures k == (k / m) * m + k % m && k % m < m
  {
  }

  /** Two-digit numbers of radix `m` are written in one way. */
  lemma RadixUnique(h1: nat, l1: nat, h2: nat, l2: nat, m: nat)
    requires l1 < m && l2 < m && h1 * m + l1 == h2 * m + l2
    ensures h1 == h2 && l1 == l2
  {
    if h1 < h2 { Distribute(h1, h2, m); }
    if h2 < h1 { Distribute(h2, h1, m); }
  }
}
