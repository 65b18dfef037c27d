/**
 The 64-bit saturating built-ins, for any width: `max` is the largest signed value (or the largest
 unsigned one), and values that leave the range wrap around as in two's complement.
 */
module Saturation {

  /** The lowest signed value: LONG_MIN for LONG_MAX. */
  function Min(max: nat): int { -1 - max }

  predicate Signed(max: nat, x: int) { Min(max) <= x <= max }

  function Clamp(lo: int, hi: int, x: int): int { if x < lo then lo else if x > hi then hi else x }

  /** Two's complement wrap-around. */
  function Wrap(max: nat, x: int): int {
    var r := x % (2 * max + 2);
    if r > max then r - (2 * max + 2) else r
  }

  function Abs(x: int): nat { if x < 0 then -x else x }

  /** Division of C, towards zero. */
  function Quotient(a: int, b: int): int
    requires b != 0
  {
    if (a >= 0) == (b > 0) then Abs(a) / Abs(b) else -1 * (Abs(a) / Abs(b))
  }

  function AddSat(max: nat, x: int, y: int): int {
    if x > 0 && y > max - x then max
    else if x < 0 && y < Min(max) - x then Min(max)
    else Wrap(max, x + y)
  }

  function SubSat(max: nat, x: int, y: int): int {
    var negated := Wrap(max, -y);
    if x > 0 && negated > max - x then max
    else if x < 0 && negated < Min(max) - x then Min(max)
    else Wrap(max, x - y)
  }

  function MadSat(max: nat, a: int, b: int, c: int): int {
    if a > 0 && b > 0 && a > Quotient(max, b) then max
    else if a > 0 && b < 0 && b < Quotient(Min(max), a) then Min(max)
    else if a < 0 && b > 0 && a < Quotient(Min(max), b) then Min(max)
    else if a < 0 && b < 0 && b < Quotient(max, a) then max
    else AddSat(max, Wrap(max, a * b), c)
  }

  function AddSatUnsigned(max: nat, x: nat, y: nat): nat
    requires x <= max && y <= max
  {
    if y > max - x then max else (x + y) % (max + 1)
  }

  function MadSatUnsigned(max: nat, a: nat, b: nat, c: nat): nat
    requires a <= max && 0 < b <= max && c <= max
  {
    if a > max / b then max else AddSatUnsigned(max, (a * b) % (max + 1), c)
  }

  // ----- Arithmetic

  lemma MulBound(m: int, q: int)
    requires m > 0
    ensures q >= 1 ==> m * q >= m
    ensures q <= -1 ==> m * q <= -m
  {
    if q >= 1 { assert m * q == m + m * (q - 1) && m * (q - 1) >= 0; }
    if q <= -1 { assert m * q == -m + m * (q + 1) && m * (q + 1) <= 0; }
  }

  lemma ModNear(x: int, m: int)
    requires m > 0
    ensures 0 <= x < m ==> x % m == x
    ensures -m <= x < 0 ==> x % m == x + m
  {
    var q := x / m;
    assert x == m * q + x % m;
    MulBound(m, q);
    MulBound(m, q + 1);
    assert m * q == m * (q + 1) - m;
  }

  lemma WrapInside(max: nat, x: int)
    requires Signed(max, x)
    ensures Wrap(max, x) == x
  {
    ModNear(x, 2 * max + 2);
  }

  /** One range above, the wrapped value is negative. */
  lemma WrapAbove(max: nat, x: int)
    requires max < x < 2 * max + 2
    ensures Wrap(max, x) == x - (2 * max + 2)
  {
    ModNear(x, 2 * max + 2);
  }

  // ----- Exactness

  lemma AddSatExact(max: nat, x: int, y: int)
    requires Signed(max, x) && Signed(max, y)
    ensures AddSat(max, x, y) == Clamp(Min(max), max, x + y)
  {
    if Signed(max, x + y) { WrapInside(max, x + y); }
  }

  /** Subtraction is exact if and only if the subtrahend can be negated. */
  lemma SubSatExact(max: nat, x: int, y: int)
    requires Signed(max, x) && Signed(max, y)
    ensures SubSat(max, x, y) == Clamp(Min(max), max, x - y) <==> y != Min(max)
  {
    if y != Min(max) {
      WrapInside(max, -y);
      if Signed(max, x - y) { WrapInside(max, x - y); }
    } else {
      WrapAbove(max, -y);
      if x >= 0 { WrapAbove(max, x - y); }
    }
  }

  /** Comparing with a truncated quotient is comparing with the product. */
  lemma QuotientBound(n: nat, d: nat, k: nat)
    requires d > 0
    ensures k > n / d <==> k * d > n
  {
    var q := n / d;
    assert n == d * q + n % d && 0 <= n % d < d;
    if k > q {
      assert k * d == d * q + d * (k - q);
      MulBound(d, k - q);
    } else {
      assert d * q == k * d + d * (q - k);
      assert d * (q - k) >= 0;
    }
  }

  lemma GuardSame(max: nat, a: int, b: int)
    requires a != 0 && b != 0 && (a > 0) == (b > 0)
    ensures Abs(a) > max / Abs(b) <==> a * b > max
  {
    QuotientBound(max, Abs(b), Abs(a));
    assert Abs(a) * Abs(b) == a * b;
  }

  lemma GuardMixed(max: nat, a: int, b: int)
    requires a != 0 && b != 0 && (a > 0) != (b > 0)
    ensures Abs(a) > (max + 1) / Abs(b) <==> a * b < Min(max)
  {
    QuotientBound(max + 1, Abs(b), Abs(a));
    assert Abs(a) * Abs(b) == -(a * b);
  }

  /** The guards of `mad_sat` find exactly the products that leave the range. */
  lemma MadGuards(max: nat, a: int, b: int)
    ensures a > 0 && b > 0 ==> (a > Quotient(max, b) <==> a * b > max)
    ensures a > 0 && b < 0 ==> (b < Quotient(Min(max), a) <==> a * b < Min(max))
    ensures a < 0 && b > 0 ==> (a < Quotient(Min(max), b) <==> a * b < Min(max))
    ensures a < 0 && b < 0 ==> (b < Quotient(max, a) <==> a * b > max)
  {
    if a > 0 && b > 0 {
      GuardSame(max, a, b);
    } else if a > 0 && b < 0 {
      GuardMixed(max, b, a);
    } else if a < 0 && b > 0 {
      GuardMixed(max, a, b);
    } else if a < 0 && b < 0 {
      GuardSame(max, b, a);
    }
  }

  lemma ProductSign(a: int, b: int)
    ensures (a > 0 && b > 0) || (a < 0 && b < 0) ==> a * b > 0
    ensures (a > 0 && b < 0) || (a < 0 && b > 0) ==> a * b < 0
    ensures a == 0 || b == 0 ==> a * b == 0
  {
  }

  /** `mad_sat` never overflows: it saturates the product, then the sum. */
  lemma MadSatValue(max: nat, a: int, b: int, c: int)
    requires Signed(max, a) && Signed(max, b) && Signed(max, c)
    ensures MadSat(max, a, b, c) ==
      if Signed(max, a * b) then Clamp(Min(max), max, a * b + c) else Clamp(Min(max), max, a * b)
  {
    MadGuards(max, a, b);
    ProductSign(a, b);
    if Signed(max, a * b) {
      WrapInside(max, a * b);
      AddSatExact(max, a * b, c);
    }
  }

  /** It is the saturated multiply-add if and only if the addend does not bring an overflowing
      product back below the limit. */
  lemma MadSatExact(max: nat, a: int, b: int, c: int)
    requires Signed(max, a) && Signed(max, b) && Signed(max, c)
    ensures MadSat(max, a, b, c) == Clamp(Min(max), max, a * b + c) <==>
      (a * b > max ==> a * b + c >= max) && (a * b < Min(max) ==> a * b + c <= Min(max))
  {
    MadSatValue(max, a, b, c);
  }

  lemma MadSatUnsignedExact(max: nat, a: nat, b: nat, c: nat)
    requires a <= max && 0 < b <= max && c <= max
    ensures MadSatUnsigned(max, a, b, c) == Clamp(0, max, a * b + c)
  {
    QuotientBound(max, b, a);
    if a <= max / b {
      ModNear(a * b, max + 1);
      if a * b + c <= max { ModNear(a * b + c, max + 1); }
    }
  }
}
