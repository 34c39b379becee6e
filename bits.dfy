/** Python's bit operators on non-negative integers, written out as arithmetic.
    Python integers are unbounded, so these work on `nat` with no width. */
module Bits {

  /** 2 to the power k. */
  function Pow2(k: nat): (r: nat)
    ensures r >= 1
  {
    if k == 0 then 1 else 2 * Pow2(k - 1)
  }

  /** `x << k` for a non-negative `x`. */
  function Shl(x: nat, k: nat): nat
  {
    x * Pow2(k)
  }

  /** `x >> k` for a non-negative `x` (floor division by 2^k). */
  function Shr(x: nat, k: nat): nat
  {
    DivNonNegative(x, Pow2(k));
    x / Pow2(k)
  }

  /** Floor division of a natural number by a positive one stays natural. */
  lemma DivNonNegative(x: nat, d: nat)
    requires d >= 1
    ensures x / d >= 0
  {
  }

  /** `a & b`, bit by bit from the least significant end. */
  function BitAnd(a: nat, b: nat): nat
    decreases a
  {
    if a == 0 || b == 0 then 0
    else 2 * BitAnd(a / 2, b / 2) + (if a % 2 == 1 && b % 2 == 1 then 1 else 0)
  }

  /** `a | b`, bit by bit from the least significant end. */
  function BitOr(a: nat, b: nat): nat
    decreases a + b
  {
    if a == 0 then b
    else if b == 0 then a
    else 2 * BitOr(a / 2, b / 2) + (if a % 2 == 1 || b % 2 == 1 then 1 else 0)
  }

  lemma Pow2Values()
    ensures Pow2(5) == 32 && Pow2(6) == 64 && Pow2(8) == 256 && Pow2(11) == 2048
  {
  }

  /** The shifts the converters use, as divisions by constants. */
  lemma ShrValues(x: nat)
    ensures Shr(x, 5) == x / 32 && Shr(x, 8) == x / 256 && Shr(x, 11) == x / 2048
  {
    Pow2Values();
  }

  /** Splitting off the lowest bit commutes with taking a remainder by an even power of two. */
  lemma ModDouble(x: nat, p: nat)
    requires p >= 1
    ensures x % (2 * p) == 2 * ((x / 2) % p) + x % 2
  {
    var q := x / 2;
    var r := q % p;
    var m := q / p;
    assert q == p * m + r;
    assert x == 2 * q + x % 2;
    assert x == (2 * p) * m + (2 * r + x % 2);
    assert 0 <= 2 * r + x % 2 < 2 * p;
    ModUnique(x, 2 * p, m, 2 * r + x % 2);
  }

  /** A quotient and remainder that satisfy the division equation are the quotient and remainder. */
  lemma ModUnique(x: int, d: int, q: int, r: int)
    requires d > 0 && x == d * q + r && 0 <= r < d
    ensures x % d == r && x / d == q
  {
    var q', r' := x / d, x % d;
    assert d * q + r == d * q' + r';
    if q < q' {
      assert d * (q' - q) == d * q' - d * q;
      MulDistance(d, q' - q);
    } else if q > q' {
      assert d * (q - q') == d * q - d * q';
      MulDistance(d, q - q');
    }
  }

  lemma MulDistance(d: int, n: int)
    requires d > 0 && n >= 1
    ensures d * n >= d
  {
    assert d * n == d + d * (n - 1);
    assert d * (n - 1) >= 0;
  }

  /** Masking with 2^k - 1 keeps the low k bits, that is, it is `x % 2^k`. */
  lemma {:induction false} AndLowMask(x: nat, k: nat)
    ensures BitAnd(x, Pow2(k) - 1) == x % Pow2(k)
    decreases k
  {
    if k == 0 {
    } else if x == 0 {
    } else {
      var p := Pow2(k - 1);
      assert Pow2(k) == 2 * p;
      assert Pow2(k) - 1 == 2 * p - 1;
      MaskStep(x, p);
      AndLowMask(x / 2, k - 1);
      ModDouble(x, p);
    }
  }

  /** One step of the bitwise and with a mask of ones: the low bit of x survives. */
  lemma MaskStep(x: nat, p: nat)
    requires x > 0 && p >= 1
    ensures BitAnd(x, 2 * p - 1) == 2 * BitAnd(x / 2, p - 1) + x % 2
  {
    assert (2 * p - 1) / 2 == p - 1 && (2 * p - 1) % 2 == 1;
  }

  /** A value that already fits in k bits passes the k-bit mask unchanged. */
  lemma MaskKeepsSmall(q: nat, k: nat, mask: nat)
    requires mask == Pow2(k) - 1 && q <= mask
    ensures BitAnd(q, mask) == q
  {
    ModUnique(q, Pow2(k), 0, q);
    AndLowMask(q, k);
  }

  /** Or-ing a value below 2^k into a value shifted left by k is addition: the bits do not overlap. */
  lemma {:induction false} OrShifted(a: nat, b: nat, k: nat)
    requires b < Pow2(k)
    ensures BitOr(a * Pow2(k), b) == a * Pow2(k) + b
    decreases k
  {
    if a == 0 || b == 0 {
    } else {
      var p := Pow2(k - 1);
      assert a * Pow2(k) == 2 * (a * p);
      assert (a * Pow2(k)) / 2 == a * p && (a * Pow2(k)) % 2 == 0;
      OrShifted(a, b / 2, k - 1);
    }
  }
}
