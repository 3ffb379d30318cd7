/** Order of products, where the solver needs help. */
module Arith {

  function Min(a: int, b: int): int { if a < b then a else b }

  function Max(a: int, b: int): int { if a < b then b else a }

  lemma Order(n: nat, a: int, b: int)
    requires n >= 1
    ensures n * a < n * b <==> a < b
    ensures n * a <= n * b <==> a <= b
  {
    if a < b {
      assert n * (b - a) >= b - a;
      assert n * (b - a) == n * b - n * a;
    } else {
      assert n * (a - b) >= a - b;
      assert n * (a - b) == n * a - n * b;
    }
  }

  function Quotient(n: nat, p: nat): nat
    requires p >= 1
  {
    n / p
  }

  lemma QuotientIs(n: nat, p: nat, q: nat)
    requires p >= 1 && p * q <= n < p * (q + 1)
    ensures n / p == q
  {
    var d := n / p;
    Between(n, p);
    Order(p, q, d + 1);
    Order(p, d, q + 1);
  }

  /** A greater divisor makes no greater quotient. */
  lemma QuotientAtMost(n: nat, p: nat, m: nat)
    requires 1 <= m <= p
    ensures n / p <= n / m
  {
    Between(n, p);
    Between(n, m);
    Less(n, p, m, n / p, n / m);
  }

  lemma Between(n: nat, p: nat)
    requires p >= 1
    ensures n / p >= 0 && p * (n / p) <= n < p * (n / p + 1)
  {
    var q := n / p;
    assert n == p * q + n % p;
    assert p * (q + 1) == p * q + p;
  }

  lemma Less(n: nat, p: nat, m: nat, x: nat, y: nat)
    requires 1 <= m <= p && p * x <= n < m * (y + 1)
    ensures x <= y
  {
    assert p * x >= m * x by {
      assert (p - m) * x >= 0;
      assert (p - m) * x == p * x - m * x;
    }
    Order(m, x, y + 1);
  }

  lemma Multiple(n: nat, q: nat)
    requires n >= 1
    ensures n * q % n == 0
  {
    var m := n * q;
    var d, e := m / n, m % n;
    assert m == n * d + e && n * (d + 1) == n * d + n;
    Order(n, d, q);
    Order(n, q, d + 1);
  }

  lemma SmallRemainder(n: nat, m: nat)
    requires m >= 1
    ensures n < m ==> n % m == n
  {}
}
