/** Powers of two, and division by a number that is not a literal. */
module Powers {

  function Pow2(n: nat): (r: nat)
    ensures r >= 1
  {
    if n == 0 then 1 else 2 * Pow2(n - 1)
  }

  lemma {:induction false} Pow2Sum(a: nat, b: nat)
    ensures Pow2(a + b) == Pow2(a) * Pow2(b)
  {
    if a > 0 {
      Pow2Sum(a - 1, b);
      assert Pow2(a + b) == 2 * Pow2(a - 1 + b);
    }
  }

  lemma Pow2At32()
    ensures Pow2(32) == 0x1_0000_0000
  {
    assert Pow2(8) == 0x100;
    Pow2Sum(8, 8);
    Pow2Sum(16, 16);
  }

  lemma Pow2Least(n: nat)
    requires n >= 2
    ensures Pow2(n) >= 4
  {
    assert Pow2(n) == 4 * Pow2(n - 2);
  }

  lemma Pow2Divides(n: nat, m: nat)
    requires n <= m
    ensures Pow2(m - n) * Pow2(n) == Pow2(m)
  {
    Pow2Sum(m - n, n);
  }

  lemma Multiple(k: int, m: int)
    requires m > 0
    ensures k == 0 || k * m >= m || k * m <= -m
  {
    if k >= 1 {
      assert (k - 1) * m >= 0;
    } else if k <= -1 {
      assert (-k - 1) * m >= 0;
    }
  }

  /** Division with remainder is unique. */
  lemma Quotient(x: int, m: int, q: int)
    requires m > 0
    ensures x / m == q <==> q * m <= x < q * m + m
    ensures x / m == q ==> x % m == x - q * m
  {
    var p := x / m;
    assert x == p * m + x % m;
    assert (q - p) * m == q * m - p * m;
    Multiple(q - p, m);
  }

  /** Clearing the low part of a number below `k * m`. */
  lemma Masked(v: int, k: int, m: int)
    requires m > 0 && 0 <= v < k * m
    ensures var b := v - v % m; 0 <= b <= v < b + m && b % m == 0 && b + m <= k * m
  {
    var q := v / m;
    Quotient(v, m, q);
    Quotient(q * m, m, q);
    assert (k - q) * m == k * m - q * m;
    Multiple(k - q, m);
    Quotient(0, m, 0);
    assert q * m >= 0;
  }

  lemma SameQuotient(x: int, b: int, m: int)
    requires m > 0 && b % m == 0
    ensures x / m == b / m <==> b <= x < b + m
  {
    Quotient(b, m, b / m);
    Quotient(x, m, b / m);
  }
}
