// Products of reals behind a named function, with the few sign and scaling facts proofs use.
module Reals {

  function Product(x: real, y: real): (r: real)
    ensures (x > 0.0 && y > 0.0) || (x < 0.0 && y < 0.0) ==> r > 0.0
    ensures (x >= 0.0 && y >= 0.0) || (x <= 0.0 && y <= 0.0) ==> r >= 0.0
    ensures (x >= 0.0 && y <= 0.0) || (x <= 0.0 && y >= 0.0) ==> r <= 0.0
    ensures x == 0.0 || y == 0.0 ==> r == 0.0
  {
    x * y
  }

  function Square(x: real): (r: real)
    ensures r >= 0.0
    ensures r == 0.0 <==> x == 0.0
  {
    Product(x, x)
  }

  lemma ScaleUp(a: real, b: real, factor: real)
    requires a < b && factor > 0.0
    ensures Product(a, factor) < Product(b, factor)
  {
    assert Product(b - a, factor) > 0.0;
    assert Product(b - a, factor) == Product(b, factor) - Product(a, factor);
  }

  lemma ProductMonotone(factor: real, a: real, b: real)
    requires factor >= 0.0 && a <= b
    ensures Product(factor, a) <= Product(factor, b)
  {
    assert Product(factor, b - a) == Product(factor, b) - Product(factor, a);
  }

  lemma ProductAdds(a: real, b: real, factor: real)
    ensures Product(a + b, factor) == Product(a, factor) + Product(b, factor)
  {
  }

  lemma QuotientTimes(t: real, d: real)
    requires d != 0.0
    ensures Product(t / d, d) == t
  {
  }
}
