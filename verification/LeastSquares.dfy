/** The regression endpoint is the last point of the unique least-squares line. */
module LeastSquares {
  import opened Prelude

  function Times(a: real, b: real): real {
    a * b
  }

  function SumX(n: nat): real {
    if n == 0 then 0.0 else SumX(n - 1) + (n - 1) as real
  }

  function SumXX(n: nat): real {
    if n == 0 then 0.0 else SumXX(n - 1) + Times((n - 1) as real, (n - 1) as real)
  }

  /** Each value times its index. */
  function SumXY(ys: seq<real>): real
    decreases |ys|
  {
    if |ys| == 0 then 0.0 else SumXY(ys[..|ys| - 1]) + Times((|ys| - 1) as real, ys[|ys| - 1])
  }

  datatype Line = Line(slope: real, intercept: real)

  function At(line: Line, x: real): real {
    Times(line.slope, x) + line.intercept
  }

  function Square(x: real): (s: real)
    ensures s >= 0.0
  {
    Times(x, x)
  }

  /** What least squares minimises. */
  function SquaredError(ys: seq<real>, line: Line): real
    decreases |ys|
  {
    if |ys| == 0 then 0.0
    else SquaredError(ys[..|ys| - 1], line) + Square(ys[|ys| - 1] - At(line, (|ys| - 1) as real))
  }

  // ---- The constants the constructor computes ----

  function ClosedSumX(n: real): real {
    n * (n - 1.0) / 2.0
  }

  function ClosedSumXX(n: real): real {
    n * (n - 1.0) * (2.0 * n - 1.0) / 6.0
  }

  lemma {:induction false} ClosedForms(n: nat)
    ensures SumX(n) == ClosedSumX(n as real)
    ensures SumXX(n) == ClosedSumXX(n as real)
  {
    if n == 0 {
    } else {
      ClosedForms(n - 1);
      var m := (n - 1) as real;
      assert n as real == m + 1.0;
      assert (m + 1.0) * m / 2.0 == m * (m - 1.0) / 2.0 + m;
      assert (m + 1.0) * m * (2.0 * m + 1.0) / 6.0 == m * (m - 1.0) * (2.0 * m - 1.0) / 6.0 + m * m;
    }
  }

  function Denominator(n: real): real {
    n * ClosedSumXX(n) - ClosedSumX(n) * ClosedSumX(n)
  }

  lemma {:induction false} DenominatorIsPositive(n: real)
    requires n >= 2.0
    ensures Denominator(n) > 0.0
  {
    var k := n * n;
    assert Denominator(n) == k * (k - 1.0) / 12.0 by { Expand(n); }
    assert k >= 4.0;
    assert k * (k - 1.0) > 0.0;
  }

  lemma {:induction false} Expand(n: real)
    ensures Denominator(n) == n * n * (n * n - 1.0) / 12.0
  {
    assert n * (n * (n - 1.0) * (2.0 * n - 1.0) / 6.0) == n * n * (n - 1.0) * (2.0 * n - 1.0) / 6.0;
    assert (n * (n - 1.0) / 2.0) * (n * (n - 1.0) / 2.0) == n * n * (n - 1.0) * (n - 1.0) / 4.0;
  }

  // ---- The fitted line ----

  function FittedSlope(ys: seq<real>): real
    requires |ys| >= 2
  {
    var n := |ys| as real;
    DenominatorIsPositive(n);
    (n * SumXY(ys) - ClosedSumX(n) * Sum(ys)) / Denominator(n)
  }

  function Fitted(ys: seq<real>): Line
    requires |ys| >= 2
  {
    var slope := FittedSlope(ys);
    Line(slope, (Sum(ys) - slope * ClosedSumX(|ys| as real)) / |ys| as real)
  }

  /** The fitted line meets both normal equations. */
  lemma {:induction false} NormalEquations(ys: seq<real>)
    requires |ys| >= 2
    ensures
      var f := Fitted(ys);
      && Times(f.slope, SumX(|ys|)) + Times(f.intercept, |ys| as real) == Sum(ys)
      && Times(f.slope, SumXX(|ys|)) + Times(f.intercept, SumX(|ys|)) == SumXY(ys)
  {
    hide SumX, SumXX, Sum, SumXY, ClosedSumX, ClosedSumXX;
    var n := |ys| as real;
    ClosedForms(|ys|);
    DenominatorIsPositive(n);
    var slope := FittedSlope(ys);
    QuotientTimes(n * SumXY(ys) - ClosedSumX(n) * Sum(ys), Denominator(n), slope);
    var rest := Sum(ys) - slope * ClosedSumX(n);
    QuotientTimes(rest, n, rest / n);
    Solve(n, ClosedSumX(n), ClosedSumXX(n), Sum(ys), SumXY(ys), slope, rest / n);
  }

  lemma {:induction false} Solve(n: real, sx: real, sxx: real, sy: real, sxy: real, slope: real, intercept: real)
    requires n > 0.0
    requires slope * (n * sxx - sx * sx) == n * sxy - sx * sy
    requires intercept * n == sy - slope * sx
    ensures slope * sx + intercept * n == sy
    ensures slope * sxx + intercept * sx == sxy
  {
    var left := slope * sxx + intercept * sx;
    assert n * left == slope * (n * sxx) + (intercept * n) * sx;
    assert slope * (n * sxx) + (sy - slope * sx) * sx == slope * (n * sxx - sx * sx) + sx * sy;
    assert n * left == n * sxy;
    Cancel(n, left, sxy);
  }

  lemma {:induction false} Cancel(n: real, a: real, b: real)
    requires n > 0.0 && n * a == n * b
    ensures a == b
  {
  }

  // ---- Optimality ----

  /** How far two lines are apart over the first n points. */
  function Spread(n: nat, d: Line): real {
    if n == 0 then 0.0 else Spread(n - 1, d) + Square(At(d, (n - 1) as real))
  }

  function Residual(ys: seq<real>, line: Line, i: nat): real
    requires i < |ys|
  {
    ys[i] - At(line, i as real)
  }

  function Residuals(ys: seq<real>, line: Line): real
    decreases |ys|
  {
    if |ys| == 0 then 0.0 else Residuals(ys[..|ys| - 1], line) + Residual(ys, line, |ys| - 1)
  }

  function ResidualsX(ys: seq<real>, line: Line): real
    decreases |ys|
  {
    if |ys| == 0 then 0.0
    else ResidualsX(ys[..|ys| - 1], line) + Times((|ys| - 1) as real, Residual(ys, line, |ys| - 1))
  }

  function Difference(g: Line, f: Line): Line {
    Line(g.slope - f.slope, g.intercept - f.intercept)
  }

  lemma {:induction false} SquareOfDifference(r: real, e: real)
    ensures Square(r - e) == Square(r) + Square(e) - 2.0 * Times(e, r)
  {
  }

  lemma {:induction false} OneTerm(y: real, f: Line, g: Line, x: real, r: real)
    requires r == y - At(f, x)
    ensures
      var d := Difference(g, f);
      Square(y - At(g, x)) == Square(r) + Square(At(d, x)) - 2.0 * (Times(d.slope, Times(x, r)) + Times(d.intercept, r))
  {
    hide Square;
    var d := Difference(g, f);
    var e := At(d, x);
    assert At(g, x) == At(f, x) + e;
    assert y - At(g, x) == r - e;
    SquareOfDifference(r, e);
    Spreads(d.slope, x, d.intercept, r);
  }

  lemma {:induction false} Spreads(s: real, x: real, b: real, r: real)
    ensures Times(Times(s, x) + b, r) == Times(s, Times(x, r)) + Times(b, r)
  {
  }

  /** `k` times a grown sum. */
  lemma {:induction false} Grows(k: real, sum: real, term: real, grown: real)
    requires grown == sum + term
    ensures Times(k, grown) == Times(k, sum) + Times(k, term)
  {
  }

  /** Any other line's error: the first line's, plus their spread, less twice what the residuals share with it. */
  lemma {:induction false} ErrorDecomposes(ys: seq<real>, f: Line, g: Line)
    ensures
      var d := Difference(g, f);
      SquaredError(ys, g)
        == SquaredError(ys, f) + Spread(|ys|, d)
           - 2.0 * (Times(d.slope, ResidualsX(ys, f)) + Times(d.intercept, Residuals(ys, f)))
    decreases |ys|
  {
    hide Square, At, Times;
    var d := Difference(g, f);
    if |ys| == 0 {
      NoProduct(d.slope);
      NoProduct(d.intercept);
    } else {
      var before, x := ys[..|ys| - 1], (|ys| - 1) as real;
      var r := Residual(ys, f, |ys| - 1);
      ErrorDecomposes(before, f, g);
      OneTerm(ys[|ys| - 1], f, g, x, r);
      Grows(d.slope, ResidualsX(before, f), Times(x, r), ResidualsX(ys, f));
      Grows(d.intercept, Residuals(before, f), r, Residuals(ys, f));
    }
  }

  lemma {:induction false} NoProduct(k: real)
    ensures Times(k, 0.0) == 0.0
  {
  }

  /** The residual sums in terms of the moments. */
  lemma {:induction false} ResidualSums(ys: seq<real>, f: Line)
    ensures Residuals(ys, f) == Sum(ys) - (Times(f.slope, SumX(|ys|)) + Times(f.intercept, |ys| as real))
    ensures ResidualsX(ys, f) == SumXY(ys) - (Times(f.slope, SumXX(|ys|)) + Times(f.intercept, SumX(|ys|)))
    decreases |ys|
  {
    hide Times;
    if |ys| == 0 {
      NoProduct(f.slope);
      NoProduct(f.intercept);
    } else {
      var n, x, y := |ys| - 1, (|ys| - 1) as real, ys[|ys| - 1];
      ResidualSums(ys[..n], f);
      Grows(f.slope, SumX(n), x, SumX(|ys|));
      Grows(f.slope, SumXX(n), Times(x, x), SumXX(|ys|));
      Grows(f.intercept, SumX(n), x, SumX(|ys|));
      Grows(f.intercept, x, 1.0, |ys| as real);
      ResidualTerm(f, x, y, Residual(ys, f, n));
    }
  }

  lemma {:induction false} ResidualTerm(f: Line, x: real, y: real, r: real)
    requires r == y - At(f, x)
    ensures Times(x, r) == Times(x, y) - Times(f.slope, Times(x, x)) - Times(f.intercept, x)
    ensures Times(f.intercept, 1.0) == f.intercept
  {
    var p := f.slope * x;
    assert x * (y - p - f.intercept) == x * y - x * p - f.intercept * x;
    assert x * p == f.slope * (x * x);
  }

  lemma {:induction false} SpreadIsNonNegative(n: nat, d: Line)
    ensures Spread(n, d) >= 0.0
  {
    if n == 0 {
    } else {
      SpreadIsNonNegative(n - 1, d);
    }
  }

  lemma {:induction false} PositiveProduct(a: real, b: real)
    requires a > 0.0 && b > 0.0
    ensures Times(a, b) > 0.0
  {
  }

  lemma {:induction false} SignsCancel(a: real, b: real)
    ensures Times(-a, -b) == Times(a, b)
  {
  }

  lemma {:induction false} OnlyZeroSquares(x: real)
    ensures Square(x) == 0.0 ==> x == 0.0
  {
    hide Times;
    if x > 0.0 {
      PositiveProduct(x, x);
    } else if x < 0.0 {
      PositiveProduct(-x, -x);
      SignsCancel(x, x);
    }
  }

  /** Over two points or more, only a line's own copy is at no distance from it. */
  lemma {:induction false} NoSpreadMeansSame(n: nat, d: Line)
    requires n >= 2 && Spread(n, d) == 0.0
    ensures d.slope == 0.0 && d.intercept == 0.0
    decreases n
  {
    hide Square;
    SpreadIsNonNegative(n - 1, d);
    if n > 2 {
      NoSpreadMeansSame(n - 1, d);
    } else {
      SpreadIsNonNegative(0, d);
      assert Spread(2, d) == Spread(1, d) + Square(At(d, 1.0));
      assert Spread(1, d) == Spread(0, d) + Square(At(d, 0.0));
      OnlyZeroSquares(At(d, 0.0));
      OnlyZeroSquares(At(d, 1.0));
    }
  }

  /**
   * No other line has a smaller squared error than the fitted one, and only the fitted line itself
   * has the same.
   */
  lemma {:induction false} FittedIsTheLeastSquaresLine(ys: seq<real>, g: Line)
    requires |ys| >= 2
    ensures SquaredError(ys, Fitted(ys)) <= SquaredError(ys, g)
    ensures SquaredError(ys, Fitted(ys)) == SquaredError(ys, g) <==> g == Fitted(ys)
  {
    hide Fitted, Spread, SquaredError, Residuals, ResidualsX, SumX, SumXX, Sum, SumXY, Times;
    var f := Fitted(ys);
    NormalEquations(ys);
    ResidualSums(ys, f);
    ErrorDecomposes(ys, f, g);
    var d := Difference(g, f);
    NoProduct(d.slope);
    NoProduct(d.intercept);
    SpreadIsNonNegative(|ys|, d);
    if Spread(|ys|, d) == 0.0 {
      NoSpreadMeansSame(|ys|, d);
    }
  }

  // ---- The streaming indicator ----

  /** The sums, accumulated value by value. */
  method Accumulate(ys: seq<real>) returns (sum: real, sumXY: real)
    ensures sum == Sum(ys) && sumXY == SumXY(ys)
  {
    sum, sumXY := 0.0, 0.0;
    for i := 0 to |ys|
      invariant sum == Sum(ys[..i]) && sumXY == SumXY(ys[..i])
    {
      assert ys[..i + 1][..i] == ys[..i];
      sum := sum + ys[i];
      sumXY := sumXY + i as real * ys[i];
    }
    assert ys[..|ys|] == ys;
  }

  lemma {:induction false} FitsLike(ys: seq<real>, n: real, sumX: real, denominator: real, slope: real, intercept: real)
    requires |ys| >= 2 && n == |ys| as real
    requires sumX == ClosedSumX(n) && denominator == Denominator(n) && denominator > 0.0
    requires slope == (n * SumXY(ys) - sumX * Sum(ys)) / denominator
    requires intercept == (Sum(ys) - slope * sumX) / n
    ensures Fitted(ys) == Line(slope, intercept)
  {
    hide Sum, SumXY, Denominator, ClosedSumX;
  }

  method Endpoint(ys: seq<real>, n: real, sumX: real, denominator: real) returns (end: real)
    requires |ys| >= 2 && n == |ys| as real && sumX == ClosedSumX(n) && denominator == Denominator(n)
    ensures end == At(Fitted(ys), n - 1.0)
  {
    hide Denominator, ClosedSumX, Fitted, At, Sum, SumXY;
    DenominatorIsPositive(n);
    var sumY, sumXY := Accumulate(ys);
    var slope := (n * sumXY - sumX * sumY) / denominator;
    var intercept := (sumY - slope * sumX) / n;
    FitsLike(ys, n, sumX, denominator, slope, intercept);
    end := At(Line(slope, intercept), n - 1.0);
  }

  class LinregEndpoint {
    const length: nat
    const sumX: real
    const denominator: real
    var window: seq<real>
    ghost var seen: seq<real>

    ghost predicate Valid()
      reads this
    {
      && length >= 2
      && sumX == ClosedSumX(length as real)
      && denominator == Denominator(length as real)
      && window == LastOf(seen, length)
    }

    constructor (length: nat)
      requires length >= 2
      ensures Valid() && this.length == length && seen == []
    {
      this.length := length;
      var n := length as real;
      sumX := n * (n - 1.0) / 2.0;
      var sumXX := n * (n - 1.0) * (2.0 * n - 1.0) / 6.0;
      denominator := n * sumXX - n * (n - 1.0) / 2.0 * (n * (n - 1.0) / 2.0);
      window := [];
      seen := [];
    }

    /** No indicator over fewer than two values. */
    static method Create(length: int) returns (r: Option<LinregEndpoint>)
      ensures r.Some? <==> length >= 2
      ensures r.Some? ==> fresh(r.value) && r.value.Valid() && r.value.length == length && r.value.seen == []
    {
      if length < 2 { return None; }
      var indicator := new LinregEndpoint(length);
      r := Some(indicator);
    }

    /** The value at the last point of the least-squares line through the last `length` values. */
    method Update(value: real) returns (result: Option<real>)
      requires Valid()
      modifies this
      ensures Valid() && seen == old(seen) + [value]
      ensures result == if |seen| < length then None
                        else Some(At(Fitted(LastOf(seen, length)), (length - 1) as real))
    {
      hide Fitted;
      window := LastOf(window + [value], length);
      seen := seen + [value];
      assert window == LastOf(seen, length);
      if |window| < length {
        return None;
      }
      var end := Endpoint(window, length as real, sumX, denominator);
      return Some(end);
    }
  }
}
