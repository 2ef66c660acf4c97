/** Division and powers of two: strided root lists, round-robin ranks, block sizes and casts. */
module Arith {

  lemma MulAtLeast(n: int, d: int)
    requires n > 0 && d >= 1
    ensures n * d >= n
  {
  }

  lemma QuotientUnique(n: int, q: int, r: int, q': int, r': int)
    requires n > 0 && 0 <= r < n && 0 <= r' < n && n * q + r == n * q' + r'
    ensures q == q' && r == r'
  {
    assert n * (q - q') == r' - r;
    if q > q' {
      MulAtLeast(n, q - q');
    } else if q < q' {
      MulAtLeast(n, q' - q);
    }
  }

  lemma StrideStep(a: nat, n: nat)
    requires n > 0
    ensures (a + n) % n == a % n
  {
    assert n * (a / n + 1) == n * (a / n) + n;
    QuotientUnique(n, (a + n) / n, (a + n) % n, a / n + 1, a % n);
  }

  /** Two positions of one stride less than a stride apart are equal. */
  lemma StrideGap(a: nat, b: nat, n: nat)
    requires n > 0 && a % n == b % n && a <= b < a + n
    ensures a == b
  {
    var i, j, r := a / n, b / n, a % n;
    assert a == n * i + r && b == n * j + r;
    StrideGapOf(n, i, j, b - a);
  }

  lemma StrideGapOf(n: int, i: int, j: int, gap: int)
    requires n > 0 && 0 <= gap < n && n * j == n * i + gap
    ensures gap == 0
  {
    QuotientUnique(n, j, 0, i, gap);
  }

  lemma MulAssociative(a: int, b: int, c: int)
    ensures (a * b) * c == a * (b * c)
  {
  }

  lemma ModIs(n: int, a: int, q: int, r: int)
    requires a > 0 && 0 <= r < a && n == a * q + r
    ensures n % a == r
  {
    QuotientUnique(a, n / a, n % a, q, r);
  }

  lemma ModBelow(n: nat, a: nat)
    requires a > 0
    ensures n % a <= n && n % a < a && (n % a) % a == n % a
  {
    ModIs(n % a, a, 0, n % a);
    if n < a { ModIs(n, a, 0, n); }
  }

  lemma ModShift(x: int, a: int, q: int)
    requires a > 0
    ensures (a * q + x) % a == x % a
  {
    assert a * (q + x / a) == a * q + a * (x / a);
    ModIs(a * q + x, a, q + x / a, x % a);
  }

  function Pow2(k: nat): nat
  {
    if k == 0 then 1 else 2 * Pow2(k - 1)
  }

  lemma {:induction false} PowSplit(a: nat, b: nat)
    ensures Pow2(a + b) == Pow2(a) * Pow2(b)
    decreases b
  {
    if b > 0 { PowSplit(a, b - 1); }
  }

  lemma {:induction false} PowPositive(k: nat)
    ensures Pow2(k) >= 1
  {
    if k > 0 { PowPositive(k - 1); }
  }
}
