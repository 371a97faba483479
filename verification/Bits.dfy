/** Python's bit operators on unbounded integers, in two's complement. */
module Bits {

  function Pow2(k: nat): (r: nat)
    ensures r >= 1
  {
    if k == 0 then 1 else 2 * Pow2(k - 1)
  }

  function Magnitude(a: int): nat {
    if a >= 0 then a else -a
  }

  /** n << k */
  function Shl(n: int, k: nat): int { n * Pow2(k) }

  /** n >> k; division by a positive number rounds down, as Python's shift does. */
  function Shr(n: int, k: nat): int { n / Pow2(k) }

  function BitAnd(a: int, b: int): int
    decreases Magnitude(a) + Magnitude(b)
  {
    if a == 0 || b == 0 then 0
    else if a == -1 then b
    else if b == -1 then a
    else 2 * BitAnd(a / 2, b / 2) + (a % 2) * (b % 2)
  }

  function BitOr(a: int, b: int): int
    decreases Magnitude(a) + Magnitude(b)
  {
    if a == 0 || b == -1 then b
    else if b == 0 || a == -1 then a
    else 2 * BitOr(a / 2, b / 2) + (a % 2 + b % 2 - (a % 2) * (b % 2))
  }

  function BitXor(a: int, b: int): int
    decreases Magnitude(a) + Magnitude(b)
  {
    if a == 0 then b
    else if b == 0 then a
    else if a == -1 then -b - 1
    else if b == -1 then -a - 1
    else 2 * BitXor(a / 2, b / 2) + (a % 2 + b % 2) % 2
  }

  lemma {:induction false} Pow2Adds(a: nat, b: nat)
    ensures Pow2(a + b) == Pow2(a) * Pow2(b)
  {
    if a > 0 {
      Pow2Adds(a - 1, b);
      assert Pow2(a + b) == 2 * Pow2(a - 1 + b);
      assert Pow2(a) * Pow2(b) == 2 * (Pow2(a - 1) * Pow2(b));
    }
  }

  lemma {:induction false} Pow2Grows(a: nat, b: nat)
    requires a <= b
    ensures Pow2(a) <= Pow2(b)
    decreases b
  {
    if a < b { Pow2Grows(a, b - 1); }
  }

  lemma ShrOfPower(a: nat, b: nat)
    ensures Shr(Pow2(a + b), b) == Pow2(a)
  {
    Pow2Adds(a, b);
    DivModIs(Pow2(a + b), Pow2(b), Pow2(a), 0);
  }

  lemma Halves(q: int, r: int, n: int, p: int)
    requires p >= 1 && n == 2 * q + r && 0 <= r < 2
    ensures n % (2 * p) == 2 * (q % p) + r && n / (2 * p) == q / p
  {
    var d, m := q / p, q % p;
    assert q == d * p + m && 0 <= m < p;
    assert n == d * (2 * p) + (2 * m + r);
    DivModIs(n, 2 * p, d, 2 * m + r);
  }

  lemma DivModIs(n: int, p: int, d: int, m: int)
    requires p >= 1 && n == d * p + m && 0 <= m < p
    ensures n / p == d && n % p == m
  {
    SameQuotient(p, d, m, n / p, n % p);
  }

  lemma SameQuotient(p: int, d: int, m: int, e: int, k: int)
    requires p >= 1 && 0 <= m < p && 0 <= k < p && d * p + m == e * p + k
    ensures d == e && m == k
  {
    assert (d - e) * p == k - m;
    if d - e >= 1 {
      AtLeastOnce(d - e, p);
      assert false;
    } else if e - d >= 1 {
      assert (e - d) * p == m - k;
      AtLeastOnce(e - d, p);
      assert false;
    }
  }

  lemma AtLeastOnce(x: int, p: int)
    requires x >= 1 && p >= 1
    ensures x * p >= p
  {
  }

  /** Masking with k ones keeps the remainder by 2^k, also of negative numbers. */
  lemma {:induction false} MaskIsModulo(n: int, k: nat)
    ensures BitAnd(n, Pow2(k) - 1) == n % Pow2(k)
    decreases k
  {
    var m := Pow2(k) - 1;
    if k > 0 {
      var p := Pow2(k - 1);
      assert m == 2 * (p - 1) + 1 && m / 2 == p - 1 && m % 2 == 1;
      Halves(n / 2, n % 2, n, p);
      MaskIsModulo(n / 2, k - 1);
      if n == -1 {
        DivModIs(-1, 2 * p, -1, 2 * p - 1);
      }
    }
  }

  /** Putting a number above the k lowest bits of another is addition. */
  lemma {:induction false} OrIsSum(low: nat, high: nat, k: nat)
    requires low < Pow2(k)
    ensures BitOr(low, high * Pow2(k)) == low + high * Pow2(k)
  {
    if k > 0 && low > 0 && high > 0 {
      var p := Pow2(k - 1);
      var h := high * Pow2(k);
      assert h == 2 * (high * p);
      assert h / 2 == high * p && h % 2 == 0;
      assert h > 0 by { assert high * p >= 1; }
      OrIsSum(low / 2, high, k - 1);
    }
  }

  lemma {:induction false} OrCommutes(a: nat, b: nat)
    ensures BitOr(a, b) == BitOr(b, a)
    decreases a + b
  {
    if a != 0 && b != 0 {
      OrCommutes(a / 2, b / 2);
      assert (a % 2) * (b % 2) == (b % 2) * (a % 2);
    }
  }

  /** A single higher bit is added by an exclusive or, too. */
  lemma {:induction false} XorIsSum(k: nat, low: nat)
    requires low < Pow2(k)
    ensures BitXor(Pow2(k), low) == Pow2(k) + low
  {
    if low > 0 { XorIsSum(k - 1, low / 2); }
  }

  /** The sign of an exclusive or: negative exactly if one side is. */
  lemma {:induction false} XorSign(a: int, b: int)
    ensures BitXor(a, b) >= 0 <==> (a >= 0 <==> b >= 0)
    decreases Magnitude(a) + Magnitude(b)
  {
    if a != 0 && b != 0 && a != -1 && b != -1 {
      XorSign(a / 2, b / 2);
    }
  }

  /** n ^ 0 is n, and n ^ -1 is its complement. */
  lemma XorWithSign(n: int)
    ensures BitXor(n, 0) == n && BitXor(n, -1) == -n - 1
  {
  }
}
