/** The least-squares slope of the dose analysis. */
module Regression {
  import opened Wire

  function Product(x: real, y: real): real {
    x * y
  }

  /** How far the point (x, y) is above the line a + b·x. */
  function Residual(a: real, b: real, x: real, y: real): real {
    y - (a + b * x)
  }

  /** Sums over the first `n` points. */
  function Sx(xs: seq<real>, n: nat): real
    requires n <= |xs|
  {
    if n == 0 then 0.0 else Sx(xs, n - 1) + xs[n - 1]
  }

  function Sxy(xs: seq<real>, ys: seq<real>, n: nat): real
    requires n <= |xs| && n <= |ys|
  {
    if n == 0 then 0.0 else Sxy(xs, ys, n - 1) + Product(xs[n - 1], ys[n - 1])
  }

  function Determinant(n: real, sum: real, left: real, right: real): real {
    n * sum - left * right
  }

  /** n times the sum of squares, less the square of the sum. */
  function Denominator(xs: seq<real>, n: nat): real
    requires n <= |xs|
  {
    Determinant(n as real, Sxy(xs, xs, n), Sx(xs, n), Sx(xs, n))
  }

  function Numerator(xs: seq<real>, ys: seq<real>, n: nat): real
    requires n <= |xs| && n <= |ys|
  {
    Determinant(n as real, Sxy(xs, ys, n), Sx(xs, n), Sx(ys, n))
  }

  /** The slope, or nothing where the program answers NaN. */
  method OlsSlope(xs: seq<real>, ys: seq<real>) returns (slope: Option<real>)
    requires |xs| <= |ys|
    ensures var n := |xs|;
            slope == if n < 2 || Denominator(xs, n) == 0.0 then None
                     else Some(Numerator(xs, ys, n) / Denominator(xs, n))
  {
    var n := |xs|;
    if n < 2 {
      return None;
    }
    var sx, sy, sxx, sxy := Sums(xs, ys);
    hide Determinant;
    var den := Determinant(n as real, sxx, sx, sx);
    if den == 0.0 {
      return None;
    }
    slope := Some(Determinant(n as real, sxy, sx, sy) / den);
  }

  method Sums(xs: seq<real>, ys: seq<real>) returns (sx: real, sy: real, sxx: real, sxy: real)
    requires |xs| <= |ys|
    ensures sx == Sx(xs, |xs|) && sy == Sx(ys, |xs|)
    ensures sxx == Sxy(xs, xs, |xs|) && sxy == Sxy(xs, ys, |xs|)
  {
    sx, sy, sxx, sxy := 0.0, 0.0, 0.0, 0.0;
    for i := 0 to |xs|
      invariant sx == Sx(xs, i) && sy == Sx(ys, i)
      invariant sxx == Sxy(xs, xs, i) && sxy == Sxy(xs, ys, i)
    {
      sx := sx + xs[i];
      sy := sy + ys[i];
      sxx := sxx + xs[i] * xs[i];
      sxy := sxy + xs[i] * ys[i];
    }
  }

  // ---------- the denominator ----------

  lemma ProductPositive(x: real, y: real)
    requires x > 0.0 && y > 0.0
    ensures Product(x, y) > 0.0
  {
  }

  lemma SquarePositive(x: real)
    ensures Product(x, x) >= 0.0
    ensures x == 0.0 <==> Product(x, x) == 0.0
  {
    if x < 0.0 {
      ProductPositive(0.0 - x, 0.0 - x);
      assert Product(x, x) == Product(0.0 - x, 0.0 - x);
    } else if x > 0.0 {
      ProductPositive(x, x);
    }
    hide Product;
  }

  function Square(x: real): (s: real)
    ensures s >= 0.0
    ensures s == 0.0 <==> x == 0.0
  {
    SquarePositive(x);
    Product(x, x)
  }

  /** The squared distances of the first `n` points from `c`. */
  function Spread(xs: seq<real>, n: nat, c: real): real
    requires n <= |xs|
  {
    if n == 0 then 0.0 else Spread(xs, n - 1, c) + Square(xs[n - 1] - c)
  }

  /** The spread about c, from the sums: sum of squares `q`, sum `s`, and `k` points. */
  function Expanded(q: real, s: real, k: real, c: real): real {
    q - 2.0 * c * s + k * (c * c)
  }

  lemma ExpandedGrows(q: real, s: real, k: real, c: real, x: real)
    ensures Expanded(q + Product(x, x), s + x, k + 1.0, c) == Expanded(q, s, k, c) + Square(x - c)
  {
    assert 2.0 * c * (s + x) == 2.0 * c * s + 2.0 * c * x;
    assert (k + 1.0) * (c * c) == k * (c * c) + c * c;
    assert (x - c) * (x - c) == x * x - 2.0 * c * x + c * c;
  }

  lemma {:induction false} SpreadExpands(xs: seq<real>, n: nat, c: real)
    requires n <= |xs|
    ensures Spread(xs, n, c) == Expanded(Sxy(xs, xs, n), Sx(xs, n), n as real, c)
  {
    if n > 0 {
      hide Expanded, Square, Product;
      SpreadExpands(xs, n - 1, c);
      ExpandedGrows(Sxy(xs, xs, n - 1), Sx(xs, n - 1), (n - 1) as real, c, xs[n - 1]);
    }
  }

  lemma {:induction false} SpreadIsZero(xs: seq<real>, n: nat, c: real)
    requires n <= |xs|
    ensures Spread(xs, n, c) >= 0.0
    ensures Spread(xs, n, c) == 0.0 <==> forall i | 0 <= i < n :: xs[i] == c
  {
    if n > 0 {
      SpreadIsZero(xs, n - 1, c);
    }
  }

  lemma DeterminantGrows(q: real, s: real, k: real, x: real)
    ensures Determinant(k + 1.0, q + Product(x, x), s + x, s + x) == Determinant(k, q, s, s) + Expanded(q, s, k, x)
  {
    assert (k + 1.0) * (q + x * x) == k * q + q + k * (x * x) + x * x;
    assert (s + x) * (s + x) == s * s + 2.0 * x * s + x * x;
  }

  /** One more point adds its squared distances from all the others. */
  lemma DenominatorGrows(xs: seq<real>, n: nat)
    requires 0 < n <= |xs|
    ensures Denominator(xs, n) == Denominator(xs, n - 1) + Spread(xs, n - 1, xs[n - 1])
  {
    hide Determinant, Expanded, Spread, Product;
    SpreadExpands(xs, n - 1, xs[n - 1]);
    assert n as real == (n - 1) as real + 1.0;
    DeterminantGrows(Sxy(xs, xs, n - 1), Sx(xs, n - 1), (n - 1) as real, xs[n - 1]);
  }

  /** The denominator is never negative, and is zero exactly when all the points have one abscissa. */
  lemma {:induction false} DenominatorIsZeroExactlyWhen(xs: seq<real>, n: nat)
    requires n <= |xs|
    ensures Denominator(xs, n) >= 0.0
    ensures Denominator(xs, n) == 0.0 <==> forall i, j | 0 <= i < n && 0 <= j < n :: xs[i] == xs[j]
  {
    hide Denominator, Spread;
    if n == 0 {
      EmptyDenominator(xs);
    } else {
      DenominatorIsZeroExactlyWhen(xs, n - 1);
      DenominatorGrows(xs, n);
      SpreadIsZero(xs, n - 1, xs[n - 1]);
    }
  }

  lemma EmptyDenominator(xs: seq<real>)
    ensures Denominator(xs, 0) == 0.0
  {
  }

  // ---------- the line ----------

  /** The squared error of the line a + b·x on the first `n` points. */
  function SquaredError(xs: seq<real>, ys: seq<real>, n: nat, a: real, b: real): real
    requires n <= |xs| && n <= |ys|
  {
    if n == 0 then 0.0 else SquaredError(xs, ys, n - 1, a, b) + Square(Residual(a, b, xs[n - 1], ys[n - 1]))
  }

  /** What the normal equations set to zero: the errors' sum, and their sum weighted by abscissa. */
  function Bias(xs: seq<real>, ys: seq<real>, n: nat, a: real, b: real): real
    requires n <= |xs| && n <= |ys|
  {
    if n == 0 then 0.0 else Bias(xs, ys, n - 1, a, b) + Residual(a, b, xs[n - 1], ys[n - 1])
  }

  function Tilt(xs: seq<real>, ys: seq<real>, n: nat, a: real, b: real): real
    requires n <= |xs| && n <= |ys|
  {
    if n == 0 then 0.0 else Tilt(xs, ys, n - 1, a, b) + Product(Residual(a, b, xs[n - 1], ys[n - 1]), xs[n - 1])
  }

  /** Both from the sums. */
  function BiasFrom(k: real, sx: real, sy: real, a: real, b: real): real {
    sy - k * a - b * sx
  }

  function TiltFrom(sx: real, sxx: real, sxy: real, a: real, b: real): real {
    sxy - a * sx - b * sxx
  }

  lemma FromGrows(k: real, sx: real, sy: real, sxx: real, sxy: real, a: real, b: real, x: real, y: real)
    ensures BiasFrom(k + 1.0, sx + x, sy + y, a, b) == BiasFrom(k, sx, sy, a, b) + Residual(a, b, x, y)
    ensures TiltFrom(sx + x, sxx + Product(x, x), sxy + Product(x, y), a, b)
         == TiltFrom(sx, sxx, sxy, a, b) + Product(Residual(a, b, x, y), x)
  {
    assert (k + 1.0) * a == k * a + a;
    assert b * (sx + x) == b * sx + b * x && a * (sx + x) == a * sx + a * x;
    assert b * (sxx + x * x) == b * sxx + b * x * x;
    assert (y - (a + b * x)) * x == x * y - a * x - b * x * x;
  }

  lemma {:induction false} BiasAndTilt(xs: seq<real>, ys: seq<real>, n: nat, a: real, b: real)
    requires n <= |xs| && n <= |ys|
    ensures Bias(xs, ys, n, a, b) == BiasFrom(n as real, Sx(xs, n), Sx(ys, n), a, b)
    ensures Tilt(xs, ys, n, a, b) == TiltFrom(Sx(xs, n), Sxy(xs, xs, n), Sxy(xs, ys, n), a, b)
  {
    if n > 0 {
      hide BiasFrom, TiltFrom, Product, Residual;
      var m := n - 1;
      assert n as real == m as real + 1.0;
      BiasAndTilt(xs, ys, m, a, b);
      FromGrows(m as real, Sx(xs, m), Sx(ys, m), Sxy(xs, xs, m), Sxy(xs, ys, m), a, b, xs[m], ys[m]);
    }
  }

  /** The squared distances between two lines that differ by da + db·x. */
  function Apart(xs: seq<real>, n: nat, da: real, db: real): (s: real)
    requires n <= |xs|
    ensures s >= 0.0
  {
    if n == 0 then 0.0 else Apart(xs, n - 1, da, db) + Square(Residual(0.0 - da, 0.0 - db, xs[n - 1], 0.0))
  }

  lemma SquareOfDifference(e: real, da: real, db: real, x: real)
    ensures Square(e - (da + db * x)) == Square(e) - 2.0 * da * e - 2.0 * db * (e * x) + Square(da + db * x)
  {
    var d := da + db * x;
    assert (e - d) * (e - d) == e * e - 2.0 * (e * d) + d * d;
    assert e * d == da * e + db * (e * x);
  }

  /** What moving a line by da + db·x takes off its squared error, given its bias and tilt. */
  function Gain(da: real, db: real, bias: real, tilt: real): real {
    2.0 * da * bias + 2.0 * db * tilt
  }

  lemma GainGrows(da: real, db: real, bias: real, tilt: real, a: real, b: real, x: real, y: real)
    ensures var e := Residual(a, b, x, y);
            && Gain(da, db, bias + e, tilt + Product(e, x)) == Gain(da, db, bias, tilt) + Gain(da, db, e, Product(e, x))
            && Square(Residual(a + da, b + db, x, y))
               == Square(e) - Gain(da, db, e, Product(e, x)) + Square(Residual(0.0 - da, 0.0 - db, x, 0.0))
  {
    var e := y - (a + b * x);
    assert (b + db) * x == b * x + db * x;
    SquareOfDifference(e, da, db, x);
    assert 2.0 * da * (bias + e) == 2.0 * da * bias + 2.0 * da * e;
    assert 2.0 * db * (tilt + e * x) == 2.0 * db * tilt + 2.0 * db * (e * x);
    assert (0.0 - db) * x == 0.0 - db * x;
  }

  lemma {:induction false} MovingTheLine(xs: seq<real>, ys: seq<real>, n: nat, a: real, b: real, da: real, db: real)
    requires n <= |xs| && n <= |ys|
    ensures SquaredError(xs, ys, n, a + da, b + db)
         == SquaredError(xs, ys, n, a, b) - Gain(da, db, Bias(xs, ys, n, a, b), Tilt(xs, ys, n, a, b))
            + Apart(xs, n, da, db)
  {
    if n > 0 {
      hide Gain, Square, Product, Residual;
      var m := n - 1;
      MovingTheLine(xs, ys, m, a, b, da, db);
      GainGrows(da, db, Bias(xs, ys, m, a, b), Tilt(xs, ys, m, a, b), a, b, xs[m], ys[m]);
    }
  }

  function Slope(xs: seq<real>, ys: seq<real>, n: nat): real
    requires n <= |xs| && n <= |ys| && Denominator(xs, n) != 0.0
  {
    Numerator(xs, ys, n) / Denominator(xs, n)
  }

  function Intercept(xs: seq<real>, ys: seq<real>, n: nat): real
    requires 0 < n <= |xs| && n <= |ys| && Denominator(xs, n) != 0.0
  {
    (Sx(ys, n) - Slope(xs, ys, n) * Sx(xs, n)) / n as real
  }

  lemma NormalEquations(k: real, sx: real, sy: real, sxx: real, sxy: real, a: real, b: real)
    requires k > 0.0
    requires b * Determinant(k, sxx, sx, sx) == Determinant(k, sxy, sx, sy)
    requires k * a == sy - b * sx
    ensures BiasFrom(k, sx, sy, a, b) == 0.0
    ensures TiltFrom(sx, sxx, sxy, a, b) == 0.0
  {
    var tilt := sxy - a * sx - b * sxx;
    assert k * tilt == k * sxy - (k * a) * sx - b * (k * sxx);
    assert (k * a) * sx == sy * sx - b * (sx * sx);
    assert b * (k * sxx - sx * sx) == b * (k * sxx) - b * (sx * sx);
    ZeroFactor(k, tilt);
  }

  lemma ZeroFactor(k: real, x: real)
    requires k > 0.0 && k * x == 0.0
    ensures x == 0.0
  {
    if x > 0.0 {
      ProductPositive(k, x);
    } else if x < 0.0 {
      ProductPositive(k, 0.0 - x);
    }
  }

  lemma DivideBack(x: real, y: real)
    requires y != 0.0
    ensures x / y * y == x && y * (x / y) == x
  {
  }

  lemma SlopeAndIntercept(xs: seq<real>, ys: seq<real>, n: nat)
    requires 0 < n <= |xs| && n <= |ys| && Denominator(xs, n) != 0.0
    ensures var a, b := Intercept(xs, ys, n), Slope(xs, ys, n);
            Bias(xs, ys, n, a, b) == 0.0 && Tilt(xs, ys, n, a, b) == 0.0
  {
    hide Determinant, BiasFrom, TiltFrom;
    var a, b := Intercept(xs, ys, n), Slope(xs, ys, n);
    DivideBack(Numerator(xs, ys, n), Denominator(xs, n));
    DivideBack(Sx(ys, n) - b * Sx(xs, n), n as real);
    NormalEquations(n as real, Sx(xs, n), Sx(ys, n), Sxy(xs, xs, n), Sxy(xs, ys, n), a, b);
    BiasAndTilt(xs, ys, n, a, b);
  }

  /** With the slope goes a line that no other line beats: whatever a and b, its squared error is no more
      than theirs. */
  lemma SlopeIsLeastSquares(xs: seq<real>, ys: seq<real>, a: real, b: real)
    requires 0 < |xs| <= |ys| && Denominator(xs, |xs|) != 0.0
    ensures var n := |xs|;
            SquaredError(xs, ys, n, Intercept(xs, ys, n), Slope(xs, ys, n)) <= SquaredError(xs, ys, n, a, b)
  {
    hide Denominator, Slope, Intercept, SquaredError, Bias, Tilt;
    var n := |xs|;
    var a0, b0 := Intercept(xs, ys, n), Slope(xs, ys, n);
    SlopeAndIntercept(xs, ys, n);
    MovingTheLine(xs, ys, n, a0, b0, a - a0, b - b0);
    assert a0 + (a - a0) == a && b0 + (b - b0) == b;
  }

  lemma {:induction false} ApartIsZero(xs: seq<real>, n: nat, da: real, db: real)
    requires n <= |xs| && Apart(xs, n, da, db) == 0.0
    ensures forall i | 0 <= i < n :: da + db * xs[i] == 0.0
  {
    if n > 0 {
      hide Square;
      ApartIsZero(xs, n - 1, da, db);
      assert Residual(0.0 - da, 0.0 - db, xs[n - 1], 0.0) == 0.0;
      NegatedLine(da, db, xs[n - 1]);
    }
  }

  lemma NegatedLine(da: real, db: real, x: real)
    ensures Residual(0.0 - da, 0.0 - db, x, 0.0) == da + db * x
  {
    assert (0.0 - db) * x == 0.0 - db * x;
  }

  /** A line through zero at two abscissas is zero. */
  lemma ZeroTwice(da: real, db: real, x: real, y: real)
    requires da + db * x == 0.0 && da + db * y == 0.0 && x != y
    ensures da == 0.0 && db == 0.0
  {
    assert db * (x - y) == db * x - db * y;
    if x > y {
      ZeroFactor(x - y, db);
    } else {
      assert (y - x) * db == db * y - db * x;
      ZeroFactor(y - x, db);
    }
    assert 0.0 * x == 0.0;
  }

  /** And it is the only best line: any other has a larger squared error. */
  lemma BestLineIsUnique(xs: seq<real>, ys: seq<real>, a: real, b: real)
    requires 0 < |xs| <= |ys| && Denominator(xs, |xs|) != 0.0
    ensures var n := |xs|;
            SquaredError(xs, ys, n, a, b) == SquaredError(xs, ys, n, Intercept(xs, ys, n), Slope(xs, ys, n)) <==>
              a == Intercept(xs, ys, n) && b == Slope(xs, ys, n)
  {
    hide Denominator, Slope, Intercept, SquaredError, Bias, Tilt, Apart;
    var n := |xs|;
    var a0, b0 := Intercept(xs, ys, n), Slope(xs, ys, n);
    SlopeAndIntercept(xs, ys, n);
    MovingTheLine(xs, ys, n, a0, b0, a - a0, b - b0);
    assert a0 + (a - a0) == a && b0 + (b - b0) == b;
    if SquaredError(xs, ys, n, a, b) == SquaredError(xs, ys, n, a0, b0) {
      ApartIsZero(xs, n, a - a0, b - b0);
      DenominatorIsZeroExactlyWhen(xs, n);
      var i, j :| 0 <= i < n && 0 <= j < n && xs[i] != xs[j];
      ZeroTwice(a - a0, b - b0, xs[i], xs[j]);
    }
  }

  lemma {:induction false} ErrorsOnALine(xs: seq<real>, ys: seq<real>, n: nat, a: real, b: real)
    requires n <= |xs| && n <= |ys| && forall i | 0 <= i < n :: Residual(a, b, xs[i], ys[i]) == 0.0
    ensures Bias(xs, ys, n, a, b) == 0.0 && Tilt(xs, ys, n, a, b) == 0.0
  {
    if n > 0 {
      hide Residual;
      ErrorsOnALine(xs, ys, n - 1, a, b);
    }
  }

  lemma SlopeFromEquations(k: real, sx: real, sy: real, sxx: real, sxy: real, a: real, b: real)
    requires BiasFrom(k, sx, sy, a, b) == 0.0 && TiltFrom(sx, sxx, sxy, a, b) == 0.0
    ensures Determinant(k, sxy, sx, sy) == b * Determinant(k, sxx, sx, sx)
  {
    assert k * sxy == k * (a * sx) + k * (b * sxx);
    assert sx * sy == sx * (k * a) + sx * (b * sx);
    assert k * (a * sx) == sx * (k * a);
    assert b * (k * sxx - sx * sx) == b * (k * sxx) - b * (sx * sx);
  }

  /** On points of a line the slope is the line's. */
  lemma SlopeIsRecovered(xs: seq<real>, ys: seq<real>, a: real, b: real)
    requires 0 < |xs| <= |ys| && Denominator(xs, |xs|) != 0.0
    requires forall i | 0 <= i < |xs| :: ys[i] == a + b * xs[i]
    ensures Slope(xs, ys, |xs|) == b
  {
    hide Determinant, BiasFrom, TiltFrom, Bias, Tilt, Product;
    var n := |xs|;
    ErrorsOnALine(xs, ys, n, a, b);
    BiasAndTilt(xs, ys, n, a, b);
    SlopeFromEquations(n as real, Sx(xs, n), Sx(ys, n), Sxy(xs, xs, n), Sxy(xs, ys, n), a, b);
    CancelFactor(b, Denominator(xs, n));
  }

  lemma CancelFactor(b: real, d: real)
    requires d != 0.0
    ensures b * d / d == b
  {
  }
}
