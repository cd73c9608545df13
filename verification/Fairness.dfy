// Jain's fairness index, which every scheduler reports over all candidates.
module Fairness {
  import opened Reals
  import opened Collections

  function Squares(values: seq<real>): real {
    Sum(Map(Square, values))
  }

  function JainIndex(values: seq<real>): real {
    if values == [] then 1.0
    else
      var total := Sum(values);
      if total <= 0.0 then 0.0
      else
        PositiveSquares(values);
        Square(total) / Product(|values| as real, Squares(values))
  }

  ghost predicate NonNegative(values: seq<real>) {
    forall i :: 0 <= i < |values| ==> values[i] >= 0.0
  }

  ghost predicate AllEqual(values: seq<real>) {
    forall i, j :: 0 <= i < |values| && 0 <= j < |values| ==> values[i] == values[j]
  }

  ghost predicate AllAre(values: seq<real>, x: real) {
    forall i :: 0 <= i < |values| ==> values[i] == x
  }

  lemma SquaresStep(values: seq<real>)
    requires values != []
    ensures var n := |values| - 1; Squares(values) == Squares(values[..n]) + Square(values[n])
  {
    var n := |values| - 1;
    assert Map(Square, values)[..n] == Map(Square, values[..n]);
  }

  // The squared distance of a list from a point.
  ghost function Spread(values: seq<real>, x: real): real {
    if values == [] then 0.0
    else Spread(values[..|values| - 1], x) + Square(values[|values| - 1] - x)
  }

  // The squared distances of every pair of positions.
  ghost function PairSpread(values: seq<real>): real {
    if values == [] then 0.0
    else
      var n := |values| - 1;
      PairSpread(values[..n]) + Spread(values[..n], values[n])
  }

  lemma {:induction false} SpreadSign(values: seq<real>, x: real)
    ensures Spread(values, x) >= 0.0
    ensures Spread(values, x) == 0.0 <==> AllAre(values, x)
  {
    if values != [] {
      var n := |values| - 1;
      SpreadSign(values[..n], x);
      assert values == values[..n] + [values[n]];
    }
  }

  lemma {:induction false} PairSpreadSign(values: seq<real>)
    ensures PairSpread(values) >= 0.0
    ensures PairSpread(values) == 0.0 <==> AllEqual(values)
  {
    if values != [] {
      var n := |values| - 1;
      PairSpreadSign(values[..n]);
      SpreadSign(values[..n], values[n]);
      assert values == values[..n] + [values[n]];
      assert AllEqual(values) <==> AllEqual(values[..n]) && AllAre(values[..n], values[n]);
    }
  }

  lemma {:induction false} SpreadExpands(values: seq<real>, x: real, n: real, q: real, s: real)
    requires n == |values| as real && q == Squares(values) && s == Sum(values)
    ensures Spread(values, x) == q - 2.0 * Product(x, s) + Product(n, Square(x))
  {
    if values != [] {
      var front, y := values[..|values| - 1], values[|values| - 1];
      SquaresStep(values);
      SpreadExpands(front, x, n - 1.0, Squares(front), Sum(front));
      SpreadGrows(n, Squares(front), Sum(front), x, y);
    }
  }

  lemma SpreadGrows(n: real, q: real, s: real, x: real, y: real)
    ensures q - 2.0 * Product(x, s) + Product(n - 1.0, Square(x)) + Square(y - x)
      == (q + Square(y)) - 2.0 * Product(x, s + y) + Product(n, Square(x))
  {
  }

  // n times the sum of squares exceeds the squared sum by exactly the pairwise spread.
  lemma {:induction false} SumSquared(values: seq<real>, n: real, q: real, s: real)
    requires n == |values| as real && q == Squares(values) && s == Sum(values)
    ensures Product(n, q) - Square(s) == PairSpread(values)
  {
    if values != [] {
      var front, y := values[..|values| - 1], values[|values| - 1];
      SquaresStep(values);
      SumSquared(front, n - 1.0, Squares(front), Sum(front));
      SpreadExpands(front, y, n - 1.0, Squares(front), Sum(front));
      GapGrows(n, Squares(front), Sum(front), y);
    }
  }

  lemma GapGrows(n: real, q: real, s: real, y: real)
    ensures Product(n, q + Square(y)) - Square(s + y)
      == Product(n - 1.0, q) - Square(s) + (q - 2.0 * Product(y, s) + Product(n - 1.0, Square(y)))
  {
  }

  lemma PositiveSquares(values: seq<real>)
    requires Sum(values) > 0.0
    ensures Squares(values) > 0.0 && Product(|values| as real, Squares(values)) > 0.0
  {
    SumSquared(values, |values| as real, Squares(values), Sum(values));
    PairSpreadSign(values);
    assert Product(|values| as real, Squares(values)) >= Square(Sum(values)) > 0.0;
  }

  lemma {:induction false} SquaresBelow(values: seq<real>, s: real)
    requires NonNegative(values) && s == Sum(values)
    ensures Squares(values) <= Square(s)
  {
    if values != [] {
      var front, y := values[..|values| - 1], values[|values| - 1];
      SquaresStep(values);
      SquaresBelow(front, Sum(front));
      SumBounds(front);
      CrossTerm(Sum(front), y);
    }
  }

  lemma CrossTerm(s: real, y: real)
    requires s >= 0.0 && y >= 0.0
    ensures Square(s + y) >= Square(s) + Square(y)
  {
    assert s * y >= 0.0;
    assert Square(s + y) == Square(s) + Square(y) + 2.0 * Product(s, y);
  }

  lemma RatioBounds(t: real, n: real, q: real, d: real)
    requires n >= 1.0 && d == Product(n, q) && d > 0.0 && q <= t <= d
    ensures 1.0 / n <= t / d <= 1.0
    ensures t / d == 1.0 <==> d - t == 0.0
  {
    var r, m := t / d, 1.0 / n;
    QuotientTimes(t, d);
    QuotientTimes(1.0, n);
    assert Product(m, Product(n, q)) == Product(Product(m, n), q);
    assert Product(1.0, d) == d && Product(1.0, q) == q;
    if r < m {
      ScaleUp(r, m, d);
    }
    if r > 1.0 {
      ScaleUp(1.0, r, d);
    }
  }

  // The index of n shares lies in [1/n, 1] and reaches 1 exactly on equal shares.
  lemma JainBounds(values: seq<real>)
    requires NonNegative(values) && Sum(values) > 0.0
    ensures 1.0 / |values| as real <= JainIndex(values) <= 1.0
    ensures JainIndex(values) == 1.0 <==> AllEqual(values)
  {
    var n, q, s := |values| as real, Squares(values), Sum(values);
    SumSquared(values, n, q, s);
    PairSpreadSign(values);
    SquaresBelow(values, s);
    PositiveSquares(values);
    RatioBounds(Square(s), n, q, Product(n, q));
  }

  lemma JainRange(values: seq<real>)
    requires NonNegative(values)
    ensures 0.0 <= JainIndex(values) <= 1.0
  {
    if values != [] && Sum(values) > 0.0 {
      JainBounds(values);
      assert 1.0 / |values| as real >= 0.0;
    }
  }

  // The index depends only on which shares were handed out, not on their order.
  lemma JainPermutation(values: seq<real>, others: seq<real>)
    requires multiset(values) == multiset(others)
    ensures JainIndex(values) == JainIndex(others)
  {
    assert |multiset(values)| == |values| && |multiset(others)| == |others|;
    SumPermutation(values, others);
    MapPermutation(Square, values, others);
    SumPermutation(Map(Square, values), Map(Square, others));
  }
}
