/** Facts about products and quotients that the solver should not have to look for. */
module Arithmetic {

  lemma CeilDiv(a: nat, b: nat, k: nat)
    requires b > 0
    ensures k < (a + (b - 1)) / b <==> k * b < a
  {
    var q, r := (a + (b - 1)) / b, (a + (b - 1)) % b;
    assert a + (b - 1) == q * b + r;
    if k < q {
      assert (k + 1) * b <= q * b by { MulLe(k + 1, q, b); }
      assert (k + 1) * b == k * b + b;
    } else {
      assert q * b <= k * b by { MulLe(q, k, b); }
    }
  }

  lemma MulLe(x: int, y: int, b: int)
    requires x <= y && 0 <= b
    ensures x * b <= y * b
  {
  }

  lemma FloorBelow(p: nat, d: nat, m: int)
    requires d > 0
    ensures p / d < m <==> p < m * d
  {
    var q, r := p / d, p % d;
    assert p == q * d + r;
    if q < m {
      MulLe(q + 1, m, d);
      assert (q + 1) * d == q * d + d;
    } else {
      MulLe(m, q, d);
    }
  }

  lemma DivStep(n: nat, f: nat)
    requires f > 0
    ensures n % f + 1 == f ==> (n + 1) / f == n / f + 1 && (n + 1) % f == 0 && n + 1 == (n / f + 1) * f
    ensures n % f + 1 != f ==> (n + 1) / f == n / f && (n + 1) % f == n % f + 1
  {
    var q, r := n / f, n % f;
    assert n == q * f + r;
    assert (q + 1) * f == q * f + f;
    if r + 1 == f {
      DivUnique(n + 1, f, q + 1, 0);
    } else {
      DivUnique(n + 1, f, q, r + 1);
    }
  }

  lemma GroupFits(n: nat, f: nat, j: nat)
    requires f > 0 && j < n / f
    ensures (j + 1) * f <= n
  {
    MulLe(j + 1, n / f, f);
    assert n == n / f * f + n % f;
  }

  lemma DivUnique(n: nat, f: nat, q: nat, r: nat)
    requires f > 0 && r < f && n == q * f + r
    ensures n / f == q && n % f == r
  {
    FloorBelow(n, f, q);
    FloorBelow(n, f, q + 1);
    assert (q + 1) * f == q * f + f;
    assert n == n / f * f + n % f;
  }

  lemma DivAtLeastOne(a: nat, b: nat)
    requires 0 < b <= a
    ensures a / b >= 1
  {
  }

  lemma MulDivLe(k: nat, a: nat, b: nat)
    requires b > 0 && k <= a / b
    ensures k * b <= a
  {
    MulLe(k, a / b, b);
    assert a == a / b * b + a % b;
  }

  /** q groups of b > 0 fit in n groups only if q <= n. */
  lemma GroupsFit(q: nat, n: nat, b: nat)
    requires b > 0 && q * b <= n * b
    ensures q <= n
  {
    assert (n + 1) * b == n * b + b;
    if q > n {
      MulLe(n + 1, q, b);
    }
  }

  lemma MulPred(k: nat, b: nat)
    requires k > 0
    ensures k * b == (k - 1) * b + b
  {
  }
}
