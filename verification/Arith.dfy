/** Facts about multiplication, division and remainder that the solver needs spelled out. */
module Arith {

  function Min(a: int, b: int): int {
    if a < b then a else b
  }

  lemma MulMono(d: int, a: int, b: int)
    requires d >= 0 && a <= b
    ensures d * a <= d * b
  {
    assert d * (b - a) >= 0;
  }

  lemma Distribute(d: int, a: int, b: int)
    ensures d * (a + b) == d * a + d * b
  {
  }

  /** Quotient and remainder are the only pair that rebuilds `n`. */
  lemma DivModUnique(n: int, d: int, q: int, r: int)
    requires d > 0 && 0 <= r < d && n == d * q + r
    ensures n / d == q && n % d == r
  {
    var q', r' := n / d, n % d;
    assert n == d * q' + r';
    if q' + 1 <= q {
      MulMono(d, q' + 1, q);
      Distribute(d, q', 1);
    } else if q + 1 <= q' {
      MulMono(d, q + 1, q');
      Distribute(d, q, 1);
    }
  }

  lemma DivModStep(n: int, d: int)
    requires d > 0
    ensures n % d + 1 < d ==> (n + 1) / d == n / d && (n + 1) % d == n % d + 1
    ensures n % d + 1 == d ==> (n + 1) / d == n / d + 1 && (n + 1) % d == 0
  {
    var q, r := n / d, n % d;
    assert n == d * q + r;
    if r + 1 < d {
      DivModUnique(n + 1, d, q, r + 1);
    } else {
      Distribute(d, q, 1);
      DivModUnique(n + 1, d, q + 1, 0);
    }
  }

  /** Division of a non-negative number truncates the same way in every language. */
  lemma DivBounds(n: int, d: int)
    requires d > 0
    ensures d * (n / d) <= n < d * (n / d) + d
  {
  }

  lemma DivMono(a: int, b: int, d: int)
    requires d > 0 && a <= b
    ensures a / d <= b / d
  {
    DivBounds(a, d);
    DivBounds(b, d);
    if b / d + 1 <= a / d {
      MulMono(d, b / d + 1, a / d);
      Distribute(d, b / d, 1);
    }
  }
}
