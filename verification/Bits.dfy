/** Machine words: powers of two, bitwise and, and remainders. */
module Bits {

  const WORD: nat := 0x1_0000_0000_0000_0000

  /** Subtraction of 64-bit unsigned integers. */
  function Minus(x: nat, y: nat): (r: nat)
    ensures r < WORD && (y <= x < WORD ==> r == x - y)
  {
    (x - y) % WORD
  }

  function Pow2(k: nat): (r: nat)
    ensures r > 0
  {
    if k == 0 then 1 else 2 * Pow2(k - 1)
  }

  /** Bitwise and of two natural numbers. */
  function And(a: nat, b: nat): nat
    decreases a
  {
    if a == 0 then 0 else 2 * And(a / 2, b / 2) + (if a % 2 == 1 && b % 2 == 1 then 1 else 0)
  }

  /** Masking with 2^k - 1 is the remainder by 2^k. */
  lemma {:induction false} AndMask(x: nat, k: nat)
    ensures And(x, Pow2(k) - 1) == x % Pow2(k)
    decreases x
  {
    var m := Pow2(k);
    if k == 0 {
      AndZero(x);
      assert m == 1 && x % m == 0;
    } else if x == 0 {
      assert x % m == 0;
    } else {
      var p := Pow2(k - 1);
      AndMask(x / 2, k - 1);
      AndOdd(x, p - 1, m - 1);
      HalfRemainder(x, p, m);
    }
  }

  lemma AndOdd(x: nat, b: nat, m: nat)
    requires x > 0 && m == 2 * b + 1
    ensures And(x, m) == 2 * And(x / 2, b) + x % 2
  {
    assert m / 2 == b && m % 2 == 1;
  }

  lemma {:induction false} AndZero(x: nat)
    ensures And(x, 0) == 0
  {
    if x > 0 { AndZero(x / 2); }
  }

  lemma HalfRemainder(x: nat, p: nat, m: nat)
    requires p > 0 && m == 2 * p
    ensures x % m == 2 * ((x / 2) % p) + x % 2
  {
    var q, r := (x / 2) / p, (x / 2) % p;
    assert x / 2 == q * p + r;
    assert q * m == 2 * (q * p);
    assert x == q * m + (2 * r + x % 2);
    RemainderUnique(x, m, q, 2 * r + x % 2);
  }

  lemma RemainderUnique(x: int, m: nat, q: int, r: nat)
    requires m > 0 && r < m && x == q * m + r
    ensures x % m == r
  {
    var q', r' := x / m, x % m;
    var d := q' - q;
    assert d * m == q' * m - q * m;
    assert d * m == r - r' && (-d) * m == r' - r;
    if d >= 1 { AtLeastOnce(d, m); }
    if d <= -1 { AtLeastOnce(-d, m); }
    assert d == 0;
  }

  lemma {:induction false} AtLeastOnce(d: nat, m: nat)
    requires d >= 1
    ensures d * m >= m
  {
    if d > 1 {
      AtLeastOnce(d - 1, m);
      assert d * m == (d - 1) * m + m;
    }
  }

  lemma {:induction false} Pow2Sum(a: nat, b: nat)
    ensures Pow2(a + b) == Pow2(a) * Pow2(b)
  {
    if a > 0 { Pow2Sum(a - 1, b); }
  }

  /** Adding a multiple does not change a remainder. */
  lemma AddMultiple(x: int, m: nat, n: int)
    requires m > 0
    ensures (x + n * m) % m == x % m
  {
    var q, r := x / m, x % m;
    assert x == q * m + r;
    assert x + n * m == (q + n) * m + r;
    RemainderUnique(x + n * m, m, q + n, r);
  }

  /** Reducing first by a multiple of m does not change a remainder by m. */
  lemma ReduceTwice(x: int, m: nat, n: nat)
    requires m > 0 && n > 0
    ensures (x % (m * n)) % m == x % m
  {
    var w := m * n;
    var q := x / w;
    assert x == q * w + x % w;
    assert x % w == x + (-q * n) * m by { assert (-q * n) * m == -q * w; }
    AddMultiple(x, m, -q * n);
  }
}
