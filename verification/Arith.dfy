// Facts about products and floor division, each small enough to be cheap.
module Arith {

  lemma {:induction false} MulNonNegative(a: nat, b: nat)
    ensures 0 <= a * b
  {
    if a > 0 {
      MulNonNegative(a - 1, b);
      assert a * b == (a - 1) * b + b;
    }
  }

  lemma MulMono(a: nat, b: nat, c: nat)
    requires a <= b
    ensures a * c <= b * c
  {
    var k := b - a;
    MulNonNegative(k, c);
    assert (a + k) * c == a * c + k * c;
  }

  lemma MulMonoStrict(a: nat, b: nat, c: nat)
    requires a < b
    ensures a * c + c <= b * c
  {
    MulMono(a + 1, b, c);
    assert (a + 1) * c == a * c + c;
  }

  /** n = d * (n / d) + n % d with the remainder in range. */
  lemma DivDef(n: nat, d: nat)
    requires d > 0
    ensures n / d * d <= n < n / d * d + d
    ensures n % d == n - n / d * d
  {
    assert n == d * (n / d) + n % d;
  }

  lemma DivNonNegative(n: nat, d: nat)
    requires d > 0
    ensures n / d >= 0
  {
  }

  /** The quotient is the only integer that brackets the dividend. */
  lemma DivUnique(n: nat, d: nat, q: nat)
    requires d > 0
    requires q * d <= n < q * d + d
    ensures n / d == q && n % d == n - q * d
  {
    var k := n / d;
    DivDef(n, d);
    if k < q {
      MulMonoStrict(k, q, d);
      assert false;
    }
    if k > q {
      MulMonoStrict(q, k, d);
      assert false;
    }
  }

  lemma DivMono(m: nat, n: nat, d: nat)
    requires d > 0 && m <= n
    ensures m / d <= n / d
  {
    DivDef(m, d);
    DivDef(n, d);
    if m / d > n / d {
      MulMonoStrict(n / d, m / d, d);
      assert false;
    }
  }

  lemma DivAtMost(n: nat, d: nat)
    requires d > 0
    ensures n / d <= n
  {
    DivDef(n, d);
    MulMono(1, d, n / d);
    assert n / d * d == d * (n / d);
  }

  lemma DivShift(a: nat, b: nat, k: nat)
    requires k > 0
    ensures (a * k + b) / k == a + b / k
  {
    DivDef(b, k);
    assert (a + b / k) * k == a * k + b / k * k;
    DivUnique(a * k + b, k, a + b / k);
  }

  lemma DivDiv(n: nat, a: nat, b: nat)
    requires a > 0 && b > 0
    ensures a * b > 0 && n / (a * b) == n / a / b
  {
    var m := n / a;
    var q := m / b;
    DivDef(n, a);
    DivDef(m, b);
    MulMono(q * b, m, a);
    MulMono(m + 1, q * b + b, a);
    assert (m + 1) * a == m * a + a;
    assert (q * b + b) * a == q * b * a + b * a;
    assert q * b * a == q * (a * b) by { MulAssoc(q, b, a); }
    MulMono(1, a, b);
    DivUnique(n, a * b, q);
  }

  lemma MulAssoc(a: nat, b: nat, c: nat)
    ensures a * b * c == a * (c * b)
  {
  }
}
