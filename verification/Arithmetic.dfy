/** Division facts for symbolic divisors. */
module Arithmetic {

  lemma ProductAtLeast(d: int, k: int)
    requires d > 0 && k >= 1
    ensures d * k >= d
  {
  }

  /** Quotient and remainder are determined by their defining equation. */
  lemma DivModUnique(n: int, d: int, q: int, r: int)
    requires d > 0 && 0 <= r < d && n == d * q + r
    ensures n / d == q && n % d == r
  {
    var q', r' := n / d, n % d;
    assert n == d * q' + r';
    assert d * (q - q') == r' - r by {
      Distribute(d, q, q');
    }
    if q > q' {
      ProductAtLeast(d, q - q');
    } else if q < q' {
      ProductAtLeast(d, q' - q);
      Distribute(d, q', q);
    }
  }

  lemma Distribute(d: int, a: int, b: int)
    ensures d * (a - b) == d * a - d * b
  {
  }

  lemma ProductMonotone(d: int, a: int, b: int)
    requires d > 0
    ensures a <= b <==> d * a <= d * b
  {
    Distribute(d, b, a);
    Distribute(d, a, b);
    if a < b {
      ProductAtLeast(d, b - a);
    } else if b < a {
      ProductAtLeast(d, a - b);
    }
  }

  /** Counting one more item either fills a group of c or extends the current one. */
  lemma CountOneMore(p: nat, c: int)
    requires c > 0
    ensures (p + 1) % c == 0 ==> (p + 1) / c == p / c + 1 && p % c == c - 1
    ensures (p + 1) % c != 0 ==> (p + 1) / c == p / c && (p + 1) % c == p % c + 1
  {
    var q, m := p / c, p % c;
    assert p == c * q + m;
    if m == c - 1 {
      assert c * (q + 1) == c * q + c by { Distribute(c, q + 1, q); }
      DivModUnique(p + 1, c, q + 1, 0);
    } else {
      DivModUnique(p + 1, c, q, m + 1);
    }
  }

  lemma DivOne(n: int)
    ensures n / 1 == n
  {
  }

  lemma SmallQuotient(n: int, d: int)
    requires 0 <= n < d
    ensures n / d == 0 && n % d == n
  {
  }

  /** A quotient of at most one bounds the dividend. */
  lemma QuotientAtMostOne(n: nat, d: int)
    requires d > 0
    ensures n / d == 0 ==> n < d
    ensures n / d == 1 && n % d == 0 ==> n == d
  {
    assert n == d * (n / d) + n % d;
  }

  /** Division rounding up. */
  function CeilDiv(n: nat, d: nat): nat
    requires d > 0
  {
    (n + d - 1) / d
  }

  /** The n-th group of d is begun exactly if n is within the rounded-up quotient. */
  lemma CeilDivExact(total: nat, d: nat, n: int)
    requires d > 0 && n >= 1
    ensures d * (n - 1) < total <==> n <= CeilDiv(total, d)
  {
    var q, r := (total + d - 1) / d, (total + d - 1) % d;
    assert total + d - 1 == d * q + r;
    assert d * (q - 1) == d * q - d by { Distribute(d, q, 1); }
    ProductMonotone(d, n - 1, q - 1);
    ProductMonotone(d, q, n - 1);
  }

  lemma OneMore(d: int, n: int)
    ensures d * (n + 1) == d * n + d
  {
  }

  /** The rounded-up quotient is the number of groups that just suffices. */
  lemma CeilDivIs(total: nat, d: nat, n: nat)
    requires d > 0 && n >= 1 && d * n - d < total <= d * n
    ensures n == CeilDiv(total, d)
  {
    OneMore(d, n - 1);
    CeilDivExact(total, d, n);
    CeilDivExact(total, d, n + 1);
  }
}
