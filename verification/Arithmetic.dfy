/** The few facts about products and quotients that the solver needs spelled out. */
module Arithmetic {

  lemma ScaleAtMost(a: int, b: int, m: int)
    requires m >= 0 && a <= b
    ensures a * m <= b * m
  {
    assert (b - a) * m >= 0;
  }

  lemma CancelLess(a: int, b: int, m: int)
    requires m > 0 && a * m < b * m
    ensures a < b
  {
    if b <= a {
      ScaleAtMost(b, a, m);
      assert false;
    }
  }

  lemma Distribute(a: int, b: int, m: int)
    ensures (a + b) * m == a * m + b * m
  {}

  lemma FloorBounds(a: int, b: int)
    requires b > 0
    ensures (a / b) * b <= a < (a / b + 1) * b
  {
    assert a == (a / b) * b + a % b;
    assert (a / b + 1) * b == (a / b) * b + b;
  }

  lemma AtMostQuotient(n: int, a: int, b: int)
    requires b > 0 && n * b <= a
    ensures n <= a / b
  {
    FloorBounds(a, b);
    CancelLess(n, a / b + 1, b);
  }
}
