/** Casts between integral types: the value modulo a power of two, and when widening the target changes nothing; and the
  numbers that binary floating-point formats represent. */
module Casts {
  import opened Arith

  /** What C++ makes of an integer in a target with so many bits. */
  function Wrap(bits: nat, signed: bool, n: int): int
    requires bits > 0
  {
    PowPositive(bits);
    var m := n % Pow2(bits);
    if signed && m >= Pow2(bits - 1) then m - Pow2(bits) else m
  }

  predicate InRange(bits: nat, signed: bool, n: int)
    requires bits > 0
  {
    if signed then 0 - Pow2(bits - 1) <= n < Pow2(bits - 1) else 0 <= n < Pow2(bits)
  }

  lemma WrapInRange(bits: nat, signed: bool, n: int)
    requires bits > 0
    ensures InRange(bits, signed, Wrap(bits, signed, n))
  {
    PowPositive(bits);
  }

  /** A value in range is kept. */
  lemma WrapKeeps(bits: nat, signed: bool, n: int)
    requires bits > 0 && InRange(bits, signed, n)
    ensures Wrap(bits, signed, n) == n
  {
    PowPositive(bits);
    var p := Pow2(bits);
    if n < 0 { ModIs(n, p, -1, n + p); } else { ModIs(n, p, 0, n); }
  }

  lemma WrapCongruent(bits: nat, signed: bool, n: int) returns (q: int)
    requires bits > 0
    ensures n == Pow2(bits) * q + Wrap(bits, signed, n)
  {
    PowPositive(bits);
    var p := Pow2(bits);
    q := if Wrap(bits, signed, n) == n % p then n / p else n / p + 1;
    assert p * (n / p + 1) == p * (n / p) + p;
  }

  /** Wrapping to more bits first makes no difference. */
  lemma WrapTwice(bits: nat, signed: bool, wide: nat, n: int)
    requires 0 < bits <= wide
    ensures Wrap(bits, signed, Wrap(wide, true, n)) == Wrap(bits, signed, n)
  {
    var a, b, x := Pow2(bits), Pow2(wide - bits), Wrap(wide, true, n);
    PowPositive(bits);
    PowSplit(bits, wide - bits);
    var q := WrapCongruent(wide, true, n);
    MulAssociative(a, b, q);
    ModShift(x, a, b * q);
  }

  /** Wrapped to `bits` or to 64 signed bits, a value is the same exactly if the latter lies in the range of the
    former. */
  lemma WidenedIff(bits: nat, signed: bool, n: int)
    requires 0 < bits <= 64
    ensures Wrap(64, true, n) == Wrap(bits, signed, n) <==> InRange(bits, signed, Wrap(64, true, n))
  {
    WrapInRange(bits, signed, n);
    if InRange(bits, signed, Wrap(64, true, n)) {
      WrapKeeps(bits, signed, Wrap(64, true, n));
      WrapTwice(bits, signed, 64, n);
    }
  }

  /** Truncation toward zero. */
  function Trunc(v: real): int
  {
    if v < 0.0 then -((-v).Floor) else v.Floor
  }

  /** Some `m * 2^e` with so many bits for `m`, and `e` in the range of the format. */
  ghost predicate FloatHolds(bits: nat, low: int, high: int, v: real)
  {
    exists m: int, e: int :: low <= e <= high && IsFloat(bits, v, m, e)
  }

  ghost predicate IsFloat(bits: nat, v: real, m: int, e: int)
  {
    0 - Pow2(bits) < m < Pow2(bits) && IsScaled(v, m, e)
  }

  ghost predicate IsScaled(v: real, m: int, e: int)
  {
    if e >= 0 then v == (m * Pow2(e)) as real else v * (Pow2(-e) as real) == m as real
  }

  lemma PowersOfTwo()
    ensures Pow2(16) == 65536 && Pow2(24) == 16777216 && Pow2(31) == 2147483648 && Pow2(32) == 4294967296
    ensures Pow2(53) > 16777217 && Pow2(63) > 2147483648 && Pow2(64) > 2147483648
  {
    assert Pow2(4) == 16 && Pow2(5) == 32;
    PowSplit(4, 4);
    PowSplit(8, 8);
    PowSplit(8, 16);
    PowSplit(16, 15);
    PowSplit(16, 16);
    PowSplit(32, 21);
    PowSplit(32, 31);
    PowPositive(21);
    PowPositive(31);
    assert Pow2(32) * Pow2(21) >= Pow2(32) * 1 && Pow2(32) * Pow2(31) >= Pow2(32) * 1;
  }

  lemma OddIsNoMultiple(n: int, m: int, e: nat)
    requires n % 2 == 1 && e > 0
    ensures n != m * Pow2(e)
  {
    MulAssociative(2, Pow2(e - 1), m);
    var half := Pow2(e - 1) * m;
    assert m * Pow2(e) == 2 * half;
  }

  lemma ScaledIsLarger(v: real, p: real)
    requires v >= 0.0 && p >= 1.0
    ensures v * p >= v
  {
  }

  /** Scaled down, a number has a larger mantissa. */
  lemma ScaledDown(v: real, m: int, e: int)
    requires v >= 0.0 && e <= 0 && IsScaled(v, m, e)
    ensures v <= m as real
  {
    PowPositive(-e);
    ScaledIsLarger(v, Pow2(-e) as real);
  }

  lemma OddIsNotScaledUp(n: int, m: int, e: int)
    requires n % 2 == 1 && e > 0
    ensures !IsScaled(n as real, m, e)
  {
    OddIsNoMultiple(n, m, e);
  }

  lemma OddIsNoFloat(bits: nat, n: nat, v: real, m: int, e: int)
    requires n % 2 == 1 && n > Pow2(bits) && v == n as real
    ensures !IsFloat(bits, v, m, e)
  {
    if e > 0 {
      OddIsNotScaledUp(n, m, e);
    } else if IsScaled(v, m, e) {
      ScaledDown(v, m, e);
    }
  }

  /** An odd number with more bits than the format has is not represented. */
  lemma OddIsNotHeld(bits: nat, low: int, high: int, n: nat, v: real)
    requires n % 2 == 1 && n > Pow2(bits) && v == n as real
    ensures !FloatHolds(bits, low, high, v)
  {
    if m: int, e: int :| low <= e <= high && IsFloat(bits, v, m, e) {
      OddIsNoFloat(bits, n, v, m, e);
    }
  }

  /** FLOAT32 represents 0 and 2^25, but not 2^24 + 1, which FLOAT64 does. */
  lemma OddFloats()
    ensures FloatHolds(24, -149, 104, 0.0) && FloatHolds(24, -149, 104, 33554432.0)
    ensures !FloatHolds(24, -149, 104, 16777217.0) && FloatHolds(53, -1074, 971, 16777217.0)
  {
    PowersOfTwo();
    PowSplit(24, 1);
    assert Pow2(0) == 1 && Pow2(1) == 2;
    assert IsFloat(24, 0.0, 0, 0) && IsFloat(24, 33554432.0, 1, 25) && IsFloat(53, 16777217.0, 16777217, 0);
    OddIsNotHeld(24, -149, 104, 16777217, 16777217.0);
  }
}
