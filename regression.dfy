/** The least-squares slope of `np.polyfit(np.arange(n), data, 1)`, computed
    exactly over the reals: the line is fitted against the positions 0..n-1
    of the values. */
module Regression {

  /** The five sums a degree-1 least-squares fit against the positions
      0..n-1 needs: n, Σy, Σ i·y_i, Σi and Σi². */
  datatype FitSums = FitSums(count: real, sum: real, moment: real, indexSum: real, indexSquareSum: real)

  const NoValues := FitSums(0.0, 0.0, 0.0, 0.0, 0.0)

  /** The sums after one more value, which sits at position `f.count`. */
  function Extend(f: FitSums, y: real): FitSums
  {
    FitSums(f.count + 1.0, f.sum + y, f.moment + f.count * y,
            f.indexSum + f.count, f.indexSquareSum + f.count * f.count)
  }

  /** The sums of a sequence of values, accumulated from the left. */
  function Sums(ys: seq<real>): FitSums
  {
    if ys == [] then NoValues else Extend(Sums(ys[..|ys| - 1]), ys[|ys| - 1])
  }

  /** The numerator n·Σ i·y_i − Σi·Σy. */
  function Covariance(f: FitSums): real
  {
    f.count * f.moment - f.indexSum * f.sum
  }

  /** The denominator n·Σi² − (Σi)². */
  function Spread(f: FitSums): real
  {
    f.count * f.indexSquareSum - f.indexSum * f.indexSum
  }

  /** The count is the number of values. */
  lemma {:induction false} SumsCount(ys: seq<real>)
    ensures Sums(ys).count == |ys| as real
  {
    if ys != [] {
      SumsCount(ys[..|ys| - 1]);
    }
  }

  /** The position sum depends only on the count: Σi = n(n−1)/2. */
  lemma {:induction false} IndexSumClosedForm(ys: seq<real>)
    ensures 2.0 * Sums(ys).indexSum == Sums(ys).count * (Sums(ys).count - 1.0)
  {
    if ys != [] {
      var f := Sums(ys[..|ys| - 1]);
      IndexSumClosedForm(ys[..|ys| - 1]);
      var k := f.count;
      assert k * (k - 1.0) + 2.0 * k == (k + 1.0) * k;
    }
  }

  /** The square sum depends only on the count: Σi² = (n−1)n(2n−1)/6. */
  lemma {:induction false} IndexSquareSumClosedForm(ys: seq<real>)
    ensures 6.0 * Sums(ys).indexSquareSum
            == (Sums(ys).count - 1.0) * Sums(ys).count * (2.0 * Sums(ys).count - 1.0)
  {
    if ys != [] {
      var f := Sums(ys[..|ys| - 1]);
      IndexSquareSumClosedForm(ys[..|ys| - 1]);
      var k := f.count;
      assert (k - 1.0) * k * (2.0 * k - 1.0) + 6.0 * (k * k) == k * (k + 1.0) * (2.0 * k + 1.0);
    }
  }

  /** With Σi and Σi² in closed form the spread is n²(n²−1)/12, positive from
      two values on. */
  lemma SpreadPolynomial(f: FitSums)
    requires 2.0 * f.indexSum == f.count * (f.count - 1.0)
    requires 6.0 * f.indexSquareSum == (f.count - 1.0) * f.count * (2.0 * f.count - 1.0)
    ensures 12.0 * Spread(f) == f.count * f.count * (f.count * f.count - 1.0)
    ensures f.count >= 2.0 ==> Spread(f) > 0.0
  {
    var x, s1, s2 := f.count, f.indexSum, f.indexSquareSum;
    assert 12.0 * (x * s2) == 2.0 * x * (6.0 * s2);
    assert 12.0 * (s1 * s1) == 3.0 * ((2.0 * s1) * (2.0 * s1));
    assert 2.0 * x * ((x - 1.0) * x * (2.0 * x - 1.0)) - 3.0 * ((x * (x - 1.0)) * (x * (x - 1.0)))
        == x * x * (x * x - 1.0);
    if x >= 2.0 {
      assert x * x >= 2.0 * x;
      assert x * x - 1.0 >= 3.0;
      assert x * x * (x * x - 1.0) >= 4.0 * 3.0;
    }
  }

  /** From two values on the spread is positive, so the slope is defined. */
  lemma SpreadPositive(ys: seq<real>)
    requires |ys| >= 2
    ensures Spread(Sums(ys)) > 0.0
  {
    SumsCount(ys);
    IndexSumClosedForm(ys);
    IndexSquareSumClosedForm(ys);
    SpreadPolynomial(Sums(ys));
  }

  /** The least-squares normal equations for the line a + b·i: with the
      intercept a chosen so that the residuals sum to zero, the residuals are
      also orthogonal to the positions, Σ i·y_i == a·Σi + b·Σi². */
  lemma NormalEquations(f: FitSums, b: real)
    requires f.count != 0.0 && Spread(f) != 0.0 && b == Covariance(f) / Spread(f)
    ensures f.moment == (f.sum - b * f.indexSum) / f.count * f.indexSum + b * f.indexSquareSum
  {
    var n, s, m, si, sq := f.count, f.sum, f.moment, f.indexSum, f.indexSquareSum;
    var a := (s - b * si) / n;
    assert b * Spread(f) == Covariance(f);
    assert a * n == s - b * si;
    assert n * (a * si + b * sq) == (a * n) * si + b * (n * sq);
    assert (s - b * si) * si + b * (n * sq) == s * si + b * Spread(f);
    assert n * (a * si + b * sq) == n * m;
  }

  /** The fitted slope, defined from two values on (a degree-1 fit through
      fewer points has no unique slope): the slope of the line that satisfies
      both normal equations. */
  function Slope(ys: seq<real>): (b: real)
    requires |ys| >= 2
    ensures var f := Sums(ys);
            f.count == |ys| as real
            && f.moment == (f.sum - b * f.indexSum) / f.count * f.indexSum + b * f.indexSquareSum
  {
    SpreadPositive(ys);
    SumsCount(ys);
    var b := Covariance(Sums(ys)) / Spread(Sums(ys));
    NormalEquations(Sums(ys), b);
    b
  }

  /** The values with the line a + b·i added at each position i. */
  function AddLine(ys: seq<real>, a: real, b: real): (zs: seq<real>)
    ensures |zs| == |ys|
    ensures forall i :: 0 <= i < |ys| ==> zs[i] == ys[i] + a + b * i as real
  {
    seq(|ys|, i requires 0 <= i < |ys| => ys[i] + a + b * i as real)
  }

  lemma {:induction false} AddLinePrefix(ys: seq<real>, a: real, b: real)
    requires ys != []
    ensures AddLine(ys, a, b)[..|ys| - 1] == AddLine(ys[..|ys| - 1], a, b)
  {
  }

  /** The sums after adding the line a + b·i to every value. */
  function Shift(f: FitSums, a: real, b: real): FitSums
  {
    FitSums(f.count, f.sum + f.count * a + b * f.indexSum,
            f.moment + a * f.indexSum + b * f.indexSquareSum, f.indexSum, f.indexSquareSum)
  }

  /** The sum field of ExtendShift: y + a + b·c joins the shifted sum. */
  lemma ShiftSumStep(s: real, c: real, si: real, y: real, a: real, b: real)
    ensures (s + c * a + b * si) + (y + a + b * c) == (s + y) + (c + 1.0) * a + b * (si + c)
  {
    assert (c + 1.0) * a == c * a + a;
    assert b * (si + c) == b * si + b * c;
  }

  /** The moment field of ExtendShift: the new value sits at position c. */
  lemma ShiftMomentStep(m: real, c: real, si: real, sq: real, y: real, a: real, b: real)
    ensures (m + a * si + b * sq) + c * (y + a + b * c) == (m + c * y) + a * (si + c) + b * (sq + c * c)
  {
    assert c * (y + a + b * c) == c * y + a * c + b * (c * c);
    assert a * (si + c) == a * si + a * c;
    assert b * (sq + c * c) == b * sq + b * (c * c);
  }

  /** Extending then shifting is shifting then extending by the shifted value. */
  lemma ExtendShift(f: FitSums, y: real, a: real, b: real)
    ensures Extend(Shift(f, a, b), y + a + b * f.count) == Shift(Extend(f, y), a, b)
  {
    var l, r := Extend(Shift(f, a, b), y + a + b * f.count), Shift(Extend(f, y), a, b);
    ShiftSumStep(f.sum, f.count, f.indexSum, y, a, b);
    assert l.sum == r.sum;
    ShiftMomentStep(f.moment, f.count, f.indexSum, f.indexSquareSum, y, a, b);
    assert l.moment == r.moment;
  }

  /** Adding a line to the values shifts their sums. */
  lemma {:induction false} AddLineShiftsSums(ys: seq<real>, a: real, b: real)
    ensures Sums(AddLine(ys, a, b)) == Shift(Sums(ys), a, b)
  {
    if ys != [] {
      var n := |ys|;
      var zs := AddLine(ys, a, b);
      var f := Sums(ys[..n - 1]);
      AddLinePrefix(ys, a, b);
      AddLineShiftsSums(ys[..n - 1], a, b);
      SumsCount(ys[..n - 1]);
      assert zs[n - 1] == ys[n - 1] + a + b * f.count;
      ExtendShift(f, ys[n - 1], a, b);
    }
  }

  /** On the sums, a shift by a + b·i adds b to the slope. */
  lemma ShiftSlope(f: FitSums, a: real, b: real)
    requires Spread(f) != 0.0
    ensures Spread(Shift(f, a, b)) == Spread(f)
    ensures Covariance(Shift(f, a, b)) / Spread(Shift(f, a, b)) == Covariance(f) / Spread(f) + b
  {
    var n, s, m, si, sq := f.count, f.sum, f.moment, f.indexSum, f.indexSquareSum;
    var d := Spread(f);
    assert n * (m + a * si + b * sq) == n * m + n * a * si + b * (n * sq);
    assert si * (s + n * a + b * si) == si * s + n * a * si + b * (si * si);
    assert b * d == b * (n * sq) - b * (si * si);
    assert Covariance(Shift(f, a, b)) == Covariance(f) + b * d;
  }

  /** Adding the line a + b·i to the values adds exactly b to the fitted slope:
      a vertical shift leaves it unchanged and the slope of a line is its own. */
  lemma {:induction false} AddLineSlope(ys: seq<real>, a: real, b: real)
    requires |ys| >= 2
    ensures Slope(AddLine(ys, a, b)) == Slope(ys) + b
  {
    AddLineShiftsSums(ys, a, b);
    SpreadPositive(ys);
    ShiftSlope(Sums(ys), a, b);
  }

  lemma {:induction false} ZeroSums(zeros: seq<real>)
    requires forall i :: 0 <= i < |zeros| ==> zeros[i] == 0.0
    ensures Sums(zeros).sum == 0.0 && Sums(zeros).moment == 0.0
  {
    if zeros != [] {
      ZeroSums(zeros[..|zeros| - 1]);
    }
  }

  /** Values that are all the same have slope 0. */
  lemma {:induction false} ConstantSlope(n: nat, c: real)
    requires n >= 2
    ensures Slope(seq(n, i => c)) == 0.0
  {
    var zeros := seq(n, i => 0.0);
    ZeroSums(zeros);
    SpreadPositive(zeros);
    assert Slope(zeros) == 0.0;
    AddLineSlope(zeros, c, 0.0);
    assert AddLine(zeros, c, 0.0) == seq(n, i => c);
  }

  /** The values of the line a + b·i have slope b. */
  lemma {:induction false} LineSlope(n: nat, a: real, b: real)
    requires n >= 2
    ensures Slope(seq(n, i => a + b * i as real)) == b
  {
    var zeros := seq(n, i => 0.0);
    ZeroSums(zeros);
    SpreadPositive(zeros);
    assert Slope(zeros) == 0.0;
    AddLineSlope(zeros, a, b);
    assert AddLine(zeros, a, b) == seq(n, i => a + b * i as real);
  }
}
