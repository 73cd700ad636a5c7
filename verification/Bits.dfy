/** The bit operators of C on non-negative numbers, bit by bit. */
module Bits {

  function And(a: nat, b: nat): nat {
    if a == 0 || b == 0 then 0 else (if a % 2 == 1 && b % 2 == 1 then 1 else 0) + 2 * And(a / 2, b / 2)
  }

  function Or(a: nat, b: nat): nat {
    if a == 0 then b else if b == 0 then a
    else (if a % 2 == 1 || b % 2 == 1 then 1 else 0) + 2 * Or(a / 2, b / 2)
  }

  function Shl(a: nat, n: nat): nat {
    if n == 0 then a else 2 * Shl(a, n - 1)
  }

  function Pow2(n: nat): (p: nat)
    ensures p > 0
  {
    if n == 0 then 1 else 2 * Pow2(n - 1)
  }

  /** Masking the low bits is taking the remainder. */
  lemma {:induction false} AndMask(a: nat, n: nat, mask: nat)
    requires mask + 1 == Pow2(n)
    ensures And(a, mask) == a % Pow2(n)
  {
    if n > 0 && a > 0 {
      AndMask(a / 2, n - 1, mask / 2);
      HalfRemainder(a, Pow2(n - 1));
    }
  }

  lemma {:induction false} AndAll(a: nat, n: nat, mask: nat)
    requires mask + 1 == Pow2(n) && a <= mask
    ensures And(a, mask) == a
  {
    if n > 0 && a > 0 {
      AndAll(a / 2, n - 1, mask / 2);
    }
  }

  lemma HalfRemainder(a: nat, p: nat)
    requires p > 0
    ensures a % (2 * p) == a % 2 + 2 * (a / 2 % p)
  {
    var q, r := a / 2 / p, a / 2 % p;
    assert a / 2 == q * p + r;
    assert a == (2 * p) * q + (a % 2 + 2 * r);
    Remainder(a, 2 * p, q, a % 2 + 2 * r);
  }

  lemma Remainder(a: nat, m: nat, q: nat, r: nat)
    requires m > 0 && a == m * q + r && r < m
    ensures a % m == r
  {
    assert m * (q - a / m) == a % m - r;
    if q - a / m != 0 {
      AwayFromZero(m, q - a / m);
    }
  }

  lemma AwayFromZero(m: nat, d: int)
    requires d != 0
    ensures m * d >= m || m * d <= 0 - m
  {
  }

  lemma {:induction false} ShlIsProduct(a: nat, n: nat)
    ensures Shl(a, n) == a * Pow2(n)
  {
    if n > 0 {
      ShlIsProduct(a, n - 1);
    }
  }

  /** Bits that do not overlap add up. */
  lemma {:induction false} OrDisjoint(a: nat, b: nat, n: nat)
    requires b < Pow2(n)
    ensures Or(Shl(a, n), b) == Shl(a, n) + b
  {
    if n > 0 {
      OrDisjoint(a, b / 2, n - 1);
      assert Shl(a, n) / 2 == Shl(a, n - 1) && Shl(a, n) % 2 == 0;
    }
  }
}
