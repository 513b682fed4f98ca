/**
 * The JavaScript integer operators the lattice hash relies on, stated over
 * unbounded integers. `^` converts both operands, and `>>` its left
 * operand, to 32-bit two's-complement integers (ToInt32, section 7.1.6 of
 * ECMA-262); `>>` takes its right operand through ToUint32 and keeps its low
 * five bits, which leaves the constant 13 as it is. `%` is a remainder whose
 * sign follows the dividend.
 */
module JsArith {
  const TwoTo31: int := 0x8000_0000
  const TwoTo32: int := 0x1_0000_0000

  /** `n` is a value a 32-bit signed integer can hold. */
  predicate IsInt32(n: int) {
    -TwoTo31 <= n < TwoTo31
  }

  /** ToInt32 on an integral Number: the one int32 congruent to `n` modulo 2^32. */
  function ToInt32(n: int): (r: int)
    ensures IsInt32(r)
    ensures (n - r) % TwoTo32 == 0
    ensures IsInt32(n) ==> r == n
  {
    var m := n % TwoTo32;
    if m < TwoTo31 then m else m - TwoTo32
  }

  /** 2 to the power `k`. */
  function Pow2(k: nat): (p: nat)
    ensures p >= 1
  {
    if k == 0 then 1 else 2 * Pow2(k - 1)
  }

  lemma Pow2Word()
    ensures Pow2(31) == TwoTo31 && Pow2(32) == TwoTo32
  {
    assert Pow2(8) == 0x100;
    assert Pow2(16) == 0x1_0000;
    assert Pow2(24) == 0x100_0000;
  }

  /** Exclusive or of the low `k` bits of `a` and `b`, least significant bit first. */
  function XorBits(a: nat, b: nat, k: nat): (r: nat)
    ensures r < Pow2(k)
  {
    if k == 0 then 0
    else 2 * XorBits(a / 2, b / 2, k - 1) + (if a % 2 == b % 2 then 0 else 1)
  }

  /** The top bit of a `k`-bit exclusive or is set iff it is set in exactly one operand. */
  lemma {:induction false} XorBitsTop(a: nat, b: nat, k: nat)
    requires 1 <= k && a < Pow2(k) && b < Pow2(k)
    ensures (XorBits(a, b, k) >= Pow2(k - 1)) == ((a >= Pow2(k - 1)) != (b >= Pow2(k - 1)))
  {
    if k > 1 {
      XorBitsTop(a / 2, b / 2, k - 1);
    }
  }

  /** The two's-complement bit pattern of an int32, read as an unsigned number. */
  function Unsigned(a: int): (u: nat)
    requires IsInt32(a)
    ensures u < TwoTo32
    ensures (u >= TwoTo31) == (a < 0)
  {
    if a < 0 then a + TwoTo32 else a
  }

  /** The int32 whose two's-complement bit pattern is the unsigned number `u`. */
  function Signed(u: nat): (r: int)
    requires u < TwoTo32
    ensures IsInt32(r)
    ensures (r < 0) == (u >= TwoTo31)
  {
    if u < TwoTo31 then u else u - TwoTo32
  }

  /** JavaScript `a ^ b` on int32 operands: the sign of the result is the exclusive or of the signs. */
  function Xor(a: int, b: int): (r: int)
    requires IsInt32(a) && IsInt32(b)
    ensures IsInt32(r)
    ensures (r < 0) == ((a < 0) != (b < 0))
  {
    Pow2Word();
    XorBitsTop(Unsigned(a), Unsigned(b), 32);
    Signed(XorBits(Unsigned(a), Unsigned(b), 32))
  }

  /**
   * JavaScript `a >> count` on an int32 operand with a count below 32: the
   * sign-propagating shift, one bit at a time, each step a division by two
   * rounded toward minus infinity.
   */
  function ShiftRight(a: int, count: nat): (r: int)
    requires IsInt32(a) && count < 32
    ensures IsInt32(r)
    ensures (r < 0) == (a < 0)
    ensures Pow2(count) * r <= a < Pow2(count) * (r + 1)
    decreases count
  {
    if count == 0 then a
    else
      var half := a / 2;
      var r := ShiftRight(half, count - 1);
      HalvingFloor(a, half, r, Pow2(count - 1));
      r
  }

  /** Floor division by `p` after floor division by 2 is floor division by `2 p`. */
  lemma HalvingFloor(a: int, half: int, r: int, p: nat)
    requires 2 * half <= a < 2 * half + 2
    requires p * r <= half < p * (r + 1)
    ensures 2 * p * r <= a < 2 * p * (r + 1)
  {
    assert half <= p * (r + 1) - 1;
    assert 2 * (p * r) == 2 * p * r;
    assert 2 * (p * (r + 1)) == 2 * p * (r + 1);
  }

  /** JavaScript `n % d` for a positive divisor: truncated remainder, sign of the dividend. */
  function Remainder(n: int, d: int): (r: int)
    requires d > 0
    ensures -d < r < d
    ensures n >= 0 ==> r >= 0
    ensures n <= 0 ==> r <= 0
    ensures (n - r) % d == 0
  {
    if n >= 0 then
      MultipleMod(n / d, d);
      assert n - n % d == (n / d) * d;
      n % d
    else
      var m := -n;
      MultipleMod(-(m / d), d);
      assert m == d * (m / d) + m % d;
      assert n + m % d == (-(m / d)) * d;
      -(m % d)
  }

  /** A multiple of `d` leaves no remainder. */
  lemma MultipleMod(k: int, d: int)
    requires d > 0
    ensures (k * d) % d == 0
  {
    var q := (k * d) / d;
    var m := (k * d) % d;
    var t := k - q;
    assert t * d == m by {
      assert k * d == d * q + m;
      assert t * d == k * d - q * d;
    }
    MultipleSize(t, d);
  }

  /** A non-zero multiple of `d` is at least `d` away from 0. */
  lemma MultipleSize(t: int, d: int)
    requires d > 0
    ensures t >= 1 ==> t * d >= d
    ensures t <= -1 ==> t * d <= -d
  {
    if t >= 1 {
      assert t * d == (t - 1) * d + d;
      assert (t - 1) * d >= 0;
    } else if t <= -1 {
      assert t * d == -((-t - 1) * d) - d;
      assert (-t - 1) * d >= 0;
    }
  }
}
