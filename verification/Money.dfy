/** Amounts of money and the two roundings the service relies on.

    An `Amount` counts 1/10000 ruble, the precision every stored figure is rounded to.
    The simulated platform keeps whole kopecks, each worth `KOPECK` such units. */
module Money {

  type Amount = int

  const KOPECK: Amount := 100

  /** Round-half-to-even of num/den, the rounding of the language's built-in `round`. */
  function RoundHalfEven(num: int, den: int): (r: int)
    requires den > 0
    ensures -den <= 2 * (num - r * den) <= den
    ensures 2 * (num - r * den) == den || 2 * (num - r * den) == -den ==> r % 2 == 0
  {
    var q := num / den;
    var rest := num - q * den;
    assert 0 <= rest < den by {
      assert num == q * den + num % den;
    }
    if 2 * rest < den || (2 * rest == den && q % 2 == 0) then q
    else
      assert num - (q + 1) * den == rest - den;
      q + 1
  }

  /** The two clauses of `RoundHalfEven` leave exactly one candidate. */
  lemma RoundingIsUnique(num: int, den: int, r: int)
    requires den > 0
    requires -den <= 2 * (num - r * den) <= den
    requires 2 * (num - r * den) == den || 2 * (num - r * den) == -den ==> r % 2 == 0
    ensures r == RoundHalfEven(num, den)
  {
    var s := RoundHalfEven(num, den);
    RemaindersApart(num, den, r, s);
    SameRounding(num - r * den, num - s * den, den, r, s);
  }

  lemma RemaindersApart(num: int, den: int, r: int, s: int)
    ensures (num - s * den) - (num - r * den) == (r - s) * den
  {
  }

  lemma SameRounding(a: int, b: int, den: int, r: int, s: int)
    requires den > 0 && b - a == (r - s) * den
    requires -den <= 2 * a <= den && -den <= 2 * b <= den
    requires 2 * a == den || 2 * a == -den ==> r % 2 == 0
    requires 2 * b == den || 2 * b == -den ==> s % 2 == 0
    ensures r == s
  {
    var k := r - s;
    if k >= 2 {
      MulAtLeast(k, 2, den);
    } else if k <= -2 {
      MulAtLeast(-2, k, den);
    }
    OneApart(a, b, den, r, s);
  }

  /** Two roundings at most one apart: at a tie both would have to be even. */
  lemma OneApart(a: int, b: int, den: int, r: int, s: int)
    requires den > 0 && -1 <= r - s <= 1 && b - a == (r - s) * den
    requires -den <= 2 * a <= den && -den <= 2 * b <= den
    requires 2 * a == den || 2 * a == -den ==> r % 2 == 0
    requires 2 * b == den || 2 * b == -den ==> s % 2 == 0
    ensures r == s
  {
  }

  lemma MulAtLeast(a: int, b: int, d: int)
    requires a >= b && d > 0
    ensures a * d >= b * d
  {
    assert (a - b) * d >= 0;
  }

  /** Rounding is monotone: a larger fraction never rounds to a smaller integer. */
  lemma RoundingBelow(num: int, den: int, bound: int)
    requires den > 0 && num <= bound * den
    ensures RoundHalfEven(num, den) <= bound
  {
    var r := RoundHalfEven(num, den);
    if r >= bound + 1 {
      MulAtLeast(r, bound + 1, den);
    }
  }

  lemma RoundingAbove(num: int, den: int, bound: int)
    requires den > 0 && num >= bound * den
    ensures RoundHalfEven(num, den) >= bound
  {
    var r := RoundHalfEven(num, den);
    if r <= bound - 1 {
      MulAtLeast(bound - 1, r, den);
    }
  }

  function Max(a: int, b: int): int {
    if a >= b then a else b
  }

  function Sum(xs: seq<Amount>): Amount {
    if xs == [] then 0 else Sum(xs[..|xs| - 1]) + xs[|xs| - 1]
  }

  lemma {:induction false} SumOfUpdate(xs: seq<Amount>, i: nat, x: Amount)
    requires i < |xs|
    ensures Sum(xs[i := x]) == Sum(xs) - xs[i] + x
  {
    var n := |xs| - 1;
    var ys := xs[i := x];
    if i == n {
      assert ys[..n] == xs[..n];
    } else {
      assert ys[..n] == xs[..n][i := x];
      SumOfUpdate(xs[..n], i, x);
    }
  }

  lemma {:induction false} SumBounds(xs: seq<Amount>, i: nat)
    requires i < |xs|
    requires forall k :: 0 <= k < |xs| ==> xs[k] >= 0
    ensures xs[i] <= Sum(xs)
  {
    var n := |xs| - 1;
    SumNonNegative(xs[..n]);
    if i < n {
      SumBounds(xs[..n], i);
      assert xs[..n][i] == xs[i];
    }
  }

  lemma {:induction false} SumNonNegative(xs: seq<Amount>)
    requires forall k :: 0 <= k < |xs| ==> xs[k] >= 0
    ensures Sum(xs) >= 0
  {
    if xs != [] {
      SumNonNegative(xs[..|xs| - 1]);
    }
  }

  lemma {:induction false} SumOfZeros(xs: seq<Amount>)
    requires forall k :: 0 <= k < |xs| ==> xs[k] == 0
    ensures Sum(xs) == 0
  {
    if xs != [] {
      SumOfZeros(xs[..|xs| - 1]);
    }
  }

  lemma {:induction false} SumOfConcat(xs: seq<Amount>, ys: seq<Amount>)
    ensures Sum(xs + ys) == Sum(xs) + Sum(ys)
  {
    if ys == [] {
      assert xs + ys == xs;
    } else {
      var n := |ys| - 1;
      assert (xs + ys)[..|xs| + n] == xs + ys[..n];
      SumOfConcat(xs, ys[..n]);
    }
  }

  lemma SumOfRemoval(xs: seq<Amount>, i: nat)
    requires i < |xs|
    ensures Sum(xs[..i] + xs[i + 1..]) == Sum(xs) - xs[i]
  {
    assert xs == (xs[..i] + [xs[i]]) + xs[i + 1..];
    SumOfConcat(xs[..i] + [xs[i]], xs[i + 1..]);
    assert (xs[..i] + [xs[i]])[..i] == xs[..i];
    SumOfConcat(xs[..i], xs[i + 1..]);
  }
}
