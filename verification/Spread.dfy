/** The spread of day costs around their mean, and the band a forecast draws from it, over real numbers. */
module Spreads {
  import opened Wrappers

  function Total(xs: seq<int>): int
    decreases |xs|
  {
    if xs == [] then 0 else Total(xs[..|xs| - 1]) + xs[|xs| - 1]
  }

  function Times(a: real, b: real): real { a * b }

  lemma Positive(a: real, b: real)
    requires a > 0.0 && b > 0.0
    ensures Times(a, b) > 0.0
  {}

  lemma TimesZero(a: real, b: real)
    requires b == 0.0
    ensures Times(a, b) == 0.0
  {}

  lemma TimesNegated(a: real)
    ensures Times(-a, -a) == Times(a, a)
  {}

  lemma TimesCommutes(a: real, b: real)
    ensures Times(a, b) == Times(b, a)
  {}

  lemma Distribute(p: real, a: real, b: real)
    ensures Times(p, a) + Times(p, b) == Times(p, a + b)
  {}

  lemma TimesOne(p: real)
    ensures Times(p, 1.0) == p
  {}

  lemma Scaled(v: real, a: real, b: real)
    requires v >= 0.0 && a <= b
    ensures Times(v, a) <= Times(v, b)
  {
    hide Times;
    Distribute(v, a, b - a);
    if v > 0.0 && a < b {
      Positive(v, b - a);
    } else if a == b {
    } else {
      TimesCommutes(v, b - a);
      TimesZero(b - a, v);
    }
  }

  lemma TimesSelf(d: real)
    ensures Times(d, d) >= 0.0 && (Times(d, d) == 0.0 <==> d == 0.0)
  {
    hide Times;
    if d == 0.0 {
      TimesZero(d, d);
    } else if d > 0.0 {
      Positive(d, d);
    } else {
      Positive(-d, -d);
      TimesNegated(d);
    }
  }

  function Square(d: real): (q: real)
    ensures q >= 0.0
  {
    TimesSelf(d);
    Times(d, d)
  }

  /** Sum of squared distances from `c`. */
  function SquaresFrom(xs: seq<int>, c: real): (s: real)
    ensures s >= 0.0
    decreases |xs|
  {
    if xs == [] then 0.0
    else SquaresFrom(xs[..|xs| - 1], c) + Square(xs[|xs| - 1] as real - c)
  }

  function Mean(xs: seq<int>): real
    requires xs != []
  {
    Total(xs) as real / |xs| as real
  }

  /** The population variance. */
  function Variance(xs: seq<int>): (v: real)
    requires xs != []
    ensures v >= 0.0
  {
    SquaresFrom(xs, Mean(xs)) / |xs| as real
  }

  /** `b` is the root of `x` rounded to a whole number, halves up. */
  predicate IsRoundRoot(b: nat, x: real) {
    x < Square(b as real + 0.5) && (b == 0 || Square(b as real - 0.5) <= x)
  }

  function RootFrom(x: real, b: nat): (r: nat)
    requires b == 0 || Square(b as real - 0.5) <= x
    ensures IsRoundRoot(r, x)
    decreases Max(0, x.Floor + 1 - b)
  {
    if x < Square(b as real + 0.5) then b
    else
      RootBound(x, b);
      RootFrom(x, b + 1)
  }

  lemma RootBound(x: real, b: nat)
    requires Square(b as real + 0.5) <= x
    ensures b <= x.Floor
  {
    var r := b as real;
    assert (r + 0.5) * (r + 0.5) == r * r + r + 0.25;
    assert r * r >= 0.0;
  }

  /** The root of a non-negative number, rounded. */
  function RoundRoot(x: real): (r: nat)
    ensures IsRoundRoot(r, x)
  {
    RootFrom(x, 0)
  }

  /** One standard deviation over the remaining days: `round(sqrt(variance) * sqrt(remaining))`. */
  function Band(xs: seq<int>, remaining: nat): nat {
    if xs == [] then 0 else RoundRoot(Times(Variance(xs), remaining as real))
  }

  method SumOfSquares(xs: seq<int>, c: real) returns (squares: real)
    ensures squares == SquaresFrom(xs, c)
  {
    hide Square;
    squares := 0.0;
    for i := 0 to |xs|
      invariant squares == SquaresFrom(xs[..i], c)
    {
      assert xs[..i + 1][..i] == xs[..i];
      squares := squares + Square(xs[i] as real - c);
    }
    assert xs[..|xs|] == xs;
  }

  /** `spent` is the sum of the day costs. */
  method BandOf(perDay: seq<int>, spent: int, remaining: nat) returns (band: nat)
    requires perDay != [] && spent == Total(perDay)
    ensures band == Band(perDay, remaining)
  {
    hide Square, SquaresFrom, Total, RoundRoot, Times;
    var mean := spent as real / |perDay| as real;
    var squares := SumOfSquares(perDay, mean);
    var variance := squares / |perDay| as real;
    assert variance == Variance(perDay);
    band := RoundRoot(Times(variance, remaining as real));
  }

  // ---- what the band says --------------------------------------------------

  lemma SquareMonotone(a: real, b: real)
    requires 0.0 <= a <= b
    ensures Square(a) <= Square(b)
  {
    hide Times;
    Scaled(a, a, b);
    Scaled(b, a, b);
    TimesCommutes(a, b);
  }

  lemma RootMonotone(b: nat, c: nat, x: real, y: real)
    requires IsRoundRoot(b, x) && IsRoundRoot(c, y) && x <= y
    ensures b <= c
  {
    if c < b {
      SquareMonotone(c as real + 0.5, b as real - 0.5);
      hide Square;
    }
  }

  /** A number has one rounded root. */
  lemma RoundRootUnique(b: nat, c: nat, x: real)
    requires IsRoundRoot(b, x) && IsRoundRoot(c, x)
    ensures b == c
  {
    RootMonotone(b, c, x, x);
    RootMonotone(c, b, x, x);
  }

  /** The binomial formula. */
  lemma SquareStep(x: real, c: real, m: real)
    ensures Square(x - c) == Square(x - m) + Times(2.0 * (m - c), x - m) + Square(m - c)
  {
    var a, k := x - m, m - c;
    assert x - c == a + k;
    hide Times;
    Distribute(a + k, a, k);
    TimesCommutes(a + k, a);
    TimesCommutes(a + k, k);
    Distribute(a, a, k);
    Distribute(k, a, k);
    TimesCommutes(a, k);
    Distribute(a, k, k);
    TimesCommutes(a, 2.0 * k);
  }

  lemma {:induction false} SquaresShift(xs: seq<int>, c: real, m: real)
    ensures SquaresFrom(xs, c)
            == SquaresFrom(xs, m) + Times(2.0 * (m - c), Total(xs) as real - Times(m, |xs| as real)) + Times(Square(m - c), |xs| as real)
    decreases |xs|
  {
    hide Square, Times;
    if xs == [] {
      TimesZero(m, 0.0);
      TimesZero(2.0 * (m - c), 0.0);
      TimesZero(Square(m - c), 0.0);
    } else {
      var before, x := xs[..|xs| - 1], xs[|xs| - 1] as real;
      var n, s, p, q := |before| as real, Total(before) as real, 2.0 * (m - c), Square(m - c);
      SquaresShift(before, c, m);
      SquareStep(x, c, m);
      Distribute(p, s - Times(m, n), x - m);
      Distribute(m, n, 1.0);
      Distribute(q, n, 1.0);
      TimesOne(m);
      TimesOne(q);
      assert Total(xs) as real == s + x && |xs| as real == n + 1.0;
    }
  }

  lemma MeanTimes(xs: seq<int>)
    requires xs != []
    ensures Total(xs) as real - Times(Mean(xs), |xs| as real) == 0.0
  {}

  /** No point is closer to the day costs, in squares, than their mean. */
  lemma MeanIsBest(xs: seq<int>, c: real)
    requires xs != []
    ensures SquaresFrom(xs, c) == SquaresFrom(xs, Mean(xs)) + Times(Square(Mean(xs) - c), |xs| as real)
    ensures SquaresFrom(xs, Mean(xs)) <= SquaresFrom(xs, c)
  {
    MeanTimes(xs);
    hide Square, SquaresFrom, Mean, Total, Times;
    SquaresShift(xs, c, Mean(xs));
    TimesZero(2.0 * (Mean(xs) - c), Total(xs) as real - Times(Mean(xs), |xs| as real));
    Scaled(Square(Mean(xs) - c), 0.0, |xs| as real);
    TimesZero(Square(Mean(xs) - c), 0.0);
  }

  function SumOfSquaresOf(xs: seq<int>): int
    decreases |xs|
  {
    if xs == [] then 0 else SumOfSquaresOf(xs[..|xs| - 1]) + xs[|xs| - 1] * xs[|xs| - 1]
  }

  lemma SquareOfInt(x: int)
    ensures Square(x as real - 0.0) == (x * x) as real
  {}

  lemma {:induction false} SquaresFromZero(xs: seq<int>)
    ensures SquaresFrom(xs, 0.0) == SumOfSquaresOf(xs) as real
    decreases |xs|
  {
    hide Square, Times;
    if xs == [] {
    } else {
      SquaresFromZero(xs[..|xs| - 1]);
      SquareOfInt(xs[|xs| - 1]);
    }
  }

  lemma QuotientTimes(a: real, b: real)
    requires b > 0.0
    ensures Times(a / b, b) == a
  {}

  lemma VarianceTimes(xs: seq<int>)
    requires xs != []
    ensures Times(Variance(xs), |xs| as real) == SquaresFrom(xs, Mean(xs))
  {
    hide SquaresFrom, Mean, Times;
    QuotientTimes(SquaresFrom(xs, Mean(xs)), |xs| as real);
  }

  /** The variance is the mean of the squares less the square of the mean. */
  lemma VarianceIs(xs: seq<int>)
    requires xs != []
    ensures Times(Mean(xs), |xs| as real) == Total(xs) as real
    ensures Times(Variance(xs) + Square(Mean(xs)), |xs| as real) == SumOfSquaresOf(xs) as real
  {
    MeanTimes(xs);
    SquaresFromZero(xs);
    VarianceTimes(xs);
    MeanIsBest(xs, 0.0);
    hide Square, SquaresFrom, Mean, Total, Times, Variance;
    var n := |xs| as real;
    TimesCommutes(n, Variance(xs));
    TimesCommutes(n, Square(Mean(xs)));
    TimesCommutes(n, Variance(xs) + Square(Mean(xs)));
    Distribute(n, Variance(xs), Square(Mean(xs)));
    assert Mean(xs) - 0.0 == Mean(xs);
  }

  lemma SquaresMore(xs: seq<int>, c: real)
    requires xs != []
    ensures SquaresFrom(xs, c) == 0.0 <==> SquaresFrom(xs[..|xs| - 1], c) == 0.0 && xs[|xs| - 1] as real == c
  {
    NoSquare(xs[|xs| - 1] as real - c);
    hide Square;
  }

  lemma {:induction false} NoSquares(xs: seq<int>, c: real)
    ensures SquaresFrom(xs, c) == 0.0 <==> forall i :: 0 <= i < |xs| ==> xs[i] as real == c
    decreases |xs|
  {
    if xs == [] {
    } else {
      NoSquares(xs[..|xs| - 1], c);
      SquaresMore(xs, c);
      hide SquaresFrom;
    }
  }

  lemma NoSquare(d: real)
    ensures Square(d) == 0.0 <==> d == 0.0
  {
    hide Times;
    TimesSelf(d);
  }

  /** The spread is nothing exactly when all days cost the same. */
  lemma NoSpreadIff(xs: seq<int>)
    requires xs != []
    ensures Variance(xs) == 0.0 <==> forall i :: 0 <= i < |xs| ==> xs[i] == xs[0]
  {
    Quotient(SquaresFrom(xs, Mean(xs)), |xs| as real);
    NoSquares(xs, Mean(xs));
    NoSquares(xs, xs[0] as real);
    MeanIsBest(xs, xs[0] as real);
    hide SquaresFrom, Mean, Square;
  }

  lemma Quotient(s: real, n: real)
    requires n > 0.0
    ensures s / n == 0.0 <==> s == 0.0
  {}

  /** With equal days, or with no day left, there is no band. */
  lemma NoBand(xs: seq<int>, remaining: nat)
    requires remaining == 0 || forall i :: 0 <= i < |xs| ==> xs[i] == xs[0]
    ensures Band(xs, remaining) == 0
  {
    if xs != [] {
      NoSpreadIff(xs);
      assert Times(Variance(xs), remaining as real) == 0.0;
      RoundRootUnique(RoundRoot(0.0), 0, 0.0);
    }
  }

  /** More days left never narrow the band. */
  lemma BandWidens(xs: seq<int>, r: nat, q: nat)
    requires r <= q
    ensures Band(xs, r) <= Band(xs, q)
  {
    if xs != [] {
      hide Variance, RoundRoot, IsRoundRoot, Times;
      Scaled(Variance(xs), r as real, q as real);
      RootMonotone(Band(xs, r), Band(xs, q), Times(Variance(xs), r as real), Times(Variance(xs), q as real));
    }
  }
}
