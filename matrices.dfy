/**
 * Dense real matrices and the numpy expressions the FactorAnalysis pipeline
 * evaluates on them: column means, broadcasting subtraction and division,
 * `X.T.dot(X) / (n - 1)` and matrix products. Arithmetic is idealised `real`.
 */
module Matrices {

  /** A `rows` x `cols` matrix stored row by row; its shape is kept even when it has no rows. */
  datatype Matrix = Matrix(rows: nat, cols: nat, at: seq<seq<real>>) {
    predicate Shaped() {
      |at| == rows && forall i :: 0 <= i < rows ==> |at[i]| == cols
    }
  }

  /** A matrix whose entries agree with its shape, as every numpy 2-d array does. */
  type Mat = m: Matrix | m.Shaped() witness Matrix(0, 0, [])

  predicate IsSquare(m: Mat) {
    m.rows == m.cols
  }

  predicate IsSymmetric(m: Mat) {
    IsSquare(m) && forall i, j :: 0 <= i < m.rows && 0 <= j < m.rows ==> m.at[i][j] == m.at[j][i]
  }

  /** Two matrices with the same shape and the same entries are the same matrix. */
  lemma SameEntries(x: Mat, y: Mat)
    requires x.rows == y.rows && x.cols == y.cols
    requires forall i, j :: 0 <= i < x.rows && 0 <= j < x.cols ==> x.at[i][j] == y.at[i][j]
    ensures x == y
  {
    forall i | 0 <= i < x.rows
      ensures x.at[i] == y.at[i]
    {
    }
  }

  // ---------------------------------------------------------------------------
  // Sums and means

  function Sum(s: seq<real>): real {
    if s == [] then 0.0 else s[0] + Sum(s[1..])
  }

  function Mean(s: seq<real>): real
    requires |s| > 0
  {
    Sum(s) / (|s| as real)
  }

  /** `s` with `c` subtracted from every element. */
  function Offset(s: seq<real>, c: real): (r: seq<real>)
    ensures |r| == |s|
    ensures forall k :: 0 <= k < |s| ==> r[k] == s[k] - c
  {
    seq(|s|, k requires 0 <= k < |s| => s[k] - c)
  }

  /** Subtracting a constant from every element lowers the sum by that constant once per element. */
  lemma {:induction false} SumOffset(s: seq<real>, c: real)
    ensures Sum(Offset(s, c)) == Sum(s) - (|s| as real) * c
  {
    if s != [] {
      SumOffset(s[1..], c);
      assert Offset(s, c)[1..] == Offset(s[1..], c);
    }
  }

  /** After subtracting its own mean, a non-empty sequence has mean zero. */
  lemma MeanOfCentred(s: seq<real>)
    requires |s| > 0
    ensures Mean(Offset(s, Mean(s))) == 0.0
  {
    var n := |s| as real;
    SumOffset(s, Mean(s));
    assert n * (Sum(s) / n) == Sum(s);
  }

  function Squares(s: seq<real>): (r: seq<real>)
    ensures |r| == |s|
  {
    seq(|s|, k requires 0 <= k < |s| => s[k] * s[k])
  }

  /** `np.mean(x ** 2)` of one column. */
  function MeanSquare(s: seq<real>): real
    requires |s| > 0
  {
    Mean(Squares(s))
  }

  // ---------------------------------------------------------------------------
  // Columns and column statistics

  function Column(m: Mat, j: nat): (c: seq<real>)
    requires j < m.cols
    ensures |c| == m.rows
    ensures forall k :: 0 <= k < m.rows ==> c[k] == m.at[k][j]
  {
    seq(m.rows, k requires 0 <= k < m.rows => m.at[k][j])
  }

  /** `np.mean(m, axis=0)`: one mean per column. */
  function ColumnMeans(m: Mat): (v: seq<real>)
    requires m.rows > 0
    ensures |v| == m.cols
    ensures forall j :: 0 <= j < m.cols ==> v[j] == Mean(Column(m, j))
  {
    seq(m.cols, j requires 0 <= j < m.cols => Mean(Column(m, j)))
  }

  /** `s` is `np.sqrt(np.mean(m ** 2, axis=0))`: a non-negative root of every column's mean square. */
  ghost predicate IsRootMeanSquare(s: seq<real>, m: Mat)
    requires m.rows > 0
  {
    |s| == m.cols &&
    forall j :: 0 <= j < m.cols ==> 0.0 <= s[j] && s[j] * s[j] == MeanSquare(Column(m, j))
  }

  /** `s` is `np.sqrt(np.diag(m))`: a non-negative root of every diagonal entry. */
  ghost predicate IsRootOfDiagonal(s: seq<real>, m: Mat)
    requires IsSquare(m)
  {
    |s| == m.rows &&
    forall i :: 0 <= i < m.rows ==> 0.0 <= s[i] && s[i] * s[i] == m.at[i][i]
  }

  /** A real number has at most one non-negative square root. */
  lemma NonNegativeRootUnique(a: real, b: real, x: real)
    requires 0.0 <= a && 0.0 <= b && a * a == x && b * b == x
    ensures a == b
  {
    assert (a - b) * (a + b) == 0.0;
    if a + b != 0.0 {
      assert a - b == ((a - b) * (a + b)) / (a + b);
    }
  }

  /** The root of the diagonal is determined by the matrix, as `np.sqrt` is. */
  lemma RootOfDiagonalIsUnique(s: seq<real>, t: seq<real>, m: Mat)
    requires IsSquare(m) && IsRootOfDiagonal(s, m) && IsRootOfDiagonal(t, m)
    ensures s == t
  {
    forall i | 0 <= i < m.rows
      ensures s[i] == t[i]
    {
      NonNegativeRootUnique(s[i], t[i], m.at[i][i]);
    }
  }

  /** The root mean square of every column is determined by the matrix, as `np.sqrt` is. */
  lemma RootMeanSquareIsUnique(s: seq<real>, t: seq<real>, m: Mat)
    requires m.rows > 0 && IsRootMeanSquare(s, m) && IsRootMeanSquare(t, m)
    ensures s == t
  {
    forall j | 0 <= j < m.cols
      ensures s[j] == t[j]
    {
      NonNegativeRootUnique(s[j], t[j], MeanSquare(Column(m, j)));
    }
  }

  predicate Positive(s: seq<real>) {
    forall k :: 0 <= k < |s| ==> s[k] > 0.0
  }

  predicate NonZero(s: seq<real>) {
    forall k :: 0 <= k < |s| ==> s[k] != 0.0
  }

  // ---------------------------------------------------------------------------
  // Broadcasting a 1 x p row vector over an n x q matrix (numpy's rule for `x -= v`, `x /= v`)

  /** An in-place operation with a `1 x |v|` operand fits a matrix with `cols` columns. */
  predicate Broadcasts(v: seq<real>, cols: nat) {
    |v| == cols || |v| == 1
  }

  /** The element of the broadcast row vector that meets column `j`. */
  function Pick(v: seq<real>, j: nat): (x: real)
    requires |v| == 1 || j < |v|
    ensures x in v
    ensures |v| == 1 ==> x == v[0]
    ensures |v| != 1 ==> x == v[j]
  {
    if |v| == 1 then v[0] else v[j]
  }

  /** `m - v` for a row vector `v`: every row loses `v`. */
  function SubtractRowVector(m: Mat, v: seq<real>): (r: Mat)
    requires Broadcasts(v, m.cols)
    ensures r.rows == m.rows && r.cols == m.cols
    ensures forall i, j :: 0 <= i < m.rows && 0 <= j < m.cols ==> r.at[i][j] == m.at[i][j] - Pick(v, j)
  {
    Matrix(m.rows, m.cols,
      seq(m.rows, i requires 0 <= i < m.rows =>
        seq(m.cols, j requires 0 <= j < m.cols => m.at[i][j] - Pick(v, j))))
  }

  /** `m / v` for a row vector `v`: column `j` is divided by the element of `v` that meets it. */
  function DivideByRowVector(m: Mat, v: seq<real>): (r: Mat)
    requires Broadcasts(v, m.cols) && NonZero(v)
    ensures r.rows == m.rows && r.cols == m.cols
    ensures forall i, j :: 0 <= i < m.rows && 0 <= j < m.cols ==> r.at[i][j] == m.at[i][j] / Pick(v, j)
  {
    Matrix(m.rows, m.cols,
      seq(m.rows, i requires 0 <= i < m.rows =>
        seq(m.cols, j requires 0 <= j < m.cols => m.at[i][j] / Pick(v, j))))
  }

  /** `m / v.T` for a column vector `v` with one entry per row: row `i` is divided by `v[i]`. */
  function DivideByColumnVector(m: Mat, v: seq<real>): (r: Mat)
    requires |v| == m.rows && NonZero(v)
    ensures r.rows == m.rows && r.cols == m.cols
    ensures forall i, j :: 0 <= i < m.rows && 0 <= j < m.cols ==> r.at[i][j] == m.at[i][j] / v[i]
  {
    Matrix(m.rows, m.cols,
      seq(m.rows, i requires 0 <= i < m.rows =>
        seq(m.cols, j requires 0 <= j < m.cols => m.at[i][j] / v[i])))
  }

  // ---------------------------------------------------------------------------
  // Centring: the sample path's `data -= np.mean(data, axis=0)`

  /** Column `j` of the centred matrix is column `j` of `m` offset by that column's mean. */
  lemma CentredColumn(m: Mat, j: nat)
    requires m.rows > 0 && j < m.cols
    ensures Column(SubtractRowVector(m, ColumnMeans(m)), j) == Offset(Column(m, j), ColumnMeans(m)[j])
  {
  }

  /** After subtracting the column means, every column of the working data has mean zero. */
  lemma DemeanedColumnsHaveZeroMean(m: Mat)
    requires m.rows > 0
    ensures forall j :: 0 <= j < m.cols ==> ColumnMeans(SubtractRowVector(m, ColumnMeans(m)))[j] == 0.0
  {
    forall j | 0 <= j < m.cols
      ensures ColumnMeans(SubtractRowVector(m, ColumnMeans(m)))[j] == 0.0
    {
      CentredColumn(m, j);
      MeanOfCentred(Column(m, j));
    }
  }

  /** `s` with every element divided by `c`. */
  function Scaled(s: seq<real>, c: real): (r: seq<real>)
    requires c != 0.0
    ensures |r| == |s|
    ensures forall k :: 0 <= k < |s| ==> r[k] == s[k] / c
  {
    seq(|s|, k requires 0 <= k < |s| => s[k] / c)
  }

  /** Dividing every element by `c` divides the sum by `c`. */
  lemma {:induction false} SumScaled(s: seq<real>, c: real)
    requires c != 0.0
    ensures Sum(Scaled(s, c)) == Sum(s) / c
  {
    if s != [] {
      SumScaled(s[1..], c);
      assert Scaled(s, c)[1..] == Scaled(s[1..], c);
    }
  }

  /** Scaling a column whose mean is zero keeps its mean zero. */
  lemma ScaledMeanZero(s: seq<real>, c: real)
    requires |s| > 0 && c != 0.0 && Mean(s) == 0.0
    ensures Mean(Scaled(s, c)) == 0.0
  {
    var n := |s| as real;
    SumScaled(s, c);
    assert Sum(s) == Mean(s) * n;
  }

  /** Dividing columns of zero mean by non-zero scale factors keeps every column mean at zero. */
  lemma ScalingKeepsZeroMeans(m: Mat, v: seq<real>)
    requires m.rows > 0 && Broadcasts(v, m.cols) && NonZero(v)
    requires forall j :: 0 <= j < m.cols ==> ColumnMeans(m)[j] == 0.0
    ensures forall j :: 0 <= j < m.cols ==> ColumnMeans(DivideByRowVector(m, v))[j] == 0.0
  {
    forall j | 0 <= j < m.cols
      ensures ColumnMeans(DivideByRowVector(m, v))[j] == 0.0
    {
      var c := Pick(v, j);
      assert Mean(Column(m, j)) == ColumnMeans(m)[j];
      assert Column(DivideByRowVector(m, v), j) == Scaled(Column(m, j), c);
      ScaledMeanZero(Column(m, j), c);
    }
  }

  // ---------------------------------------------------------------------------
  // Products and the covariance `X.T.dot(X) / (n - 1)`

  function Transpose(m: Mat): (t: Mat)
    ensures t.rows == m.cols && t.cols == m.rows
    ensures forall i, j :: 0 <= i < m.cols && 0 <= j < m.rows ==> t.at[i][j] == m.at[j][i]
  {
    Matrix(m.cols, m.rows,
      seq(m.cols, i requires 0 <= i < m.cols =>
        seq(m.rows, j requires 0 <= j < m.rows => m.at[j][i])))
  }

  function Dot(a: seq<real>, b: seq<real>): real
    requires |a| == |b|
  {
    Sum(seq(|a|, k requires 0 <= k < |a| => a[k] * b[k]))
  }

  lemma DotCommutes(a: seq<real>, b: seq<real>)
    requires |a| == |b|
    ensures Dot(a, b) == Dot(b, a)
  {
    assert seq(|a|, k requires 0 <= k < |a| => a[k] * b[k]) == seq(|b|, k requires 0 <= k < |b| => b[k] * a[k]);
  }

  /** `a.dot(b)`, numpy's product of two 2-d arrays. */
  function MatMul(a: Mat, b: Mat): (r: Mat)
    requires a.cols == b.rows
    ensures r.rows == a.rows && r.cols == b.cols
    ensures forall i, j :: 0 <= i < a.rows && 0 <= j < b.cols ==> r.at[i][j] == Dot(a.at[i], Column(b, j))
  {
    Matrix(a.rows, b.cols,
      seq(a.rows, i requires 0 <= i < a.rows =>
        seq(b.cols, j requires 0 <= j < b.cols => Dot(a.at[i], Column(b, j)))))
  }

  /** `m / d` for a non-zero scalar `d`. */
  function DivideBy(m: Mat, d: real): (r: Mat)
    requires d != 0.0
    ensures r.rows == m.rows && r.cols == m.cols
    ensures forall i, j :: 0 <= i < m.rows && 0 <= j < m.cols ==> r.at[i][j] == m.at[i][j] / d
  {
    Matrix(m.rows, m.cols,
      seq(m.rows, i requires 0 <= i < m.rows =>
        seq(m.cols, j requires 0 <= j < m.cols => m.at[i][j] / d)))
  }

  /**
   * The sample covariance `X.T.dot(X) / (n - 1)` of an n x p matrix: a p x p
   * symmetric matrix whose entry (i, j) is the dot product of columns i and j over n - 1.
   */
  function Covariance(x: Mat): (c: Mat)
    requires x.rows >= 2
    ensures c.rows == x.cols && c.cols == x.cols
    ensures IsSymmetric(c)
    ensures forall i, j :: 0 <= i < x.cols && 0 <= j < x.cols ==>
      c.at[i][j] == Dot(Column(x, i), Column(x, j)) / ((x.rows - 1) as real)
  {
    var t := Transpose(x);
    forall i | 0 <= i < x.cols
      ensures t.at[i] == Column(x, i)
    {
    }
    forall i, j | 0 <= i < x.cols && 0 <= j < x.cols
      ensures Dot(Column(x, i), Column(x, j)) == Dot(Column(x, j), Column(x, i))
    {
      DotCommutes(Column(x, i), Column(x, j));
    }
    DivideBy(MatMul(t, x), (x.rows - 1) as real)
  }

  // ---------------------------------------------------------------------------
  // The covariance path's outer normalisation `data /= s; data /= s.T`

  /**
   * `d / s` followed by `d / s.T`: entry (i, j) is divided by `s[j]` and then by `s[i]`,
   * that is, by the product `s[i] * s[j]`.
   */
  function OuterNormalize(d: Mat, s: seq<real>): (r: Mat)
    requires IsSquare(d) && |s| == d.rows && NonZero(s)
    ensures r.rows == d.rows && r.cols == d.cols
    ensures forall i, j :: 0 <= i < d.rows && 0 <= j < d.rows ==> r.at[i][j] == (d.at[i][j] / s[j]) / s[i]
  {
    var q := DivideByRowVector(d, s);
    assert forall j :: 0 <= j < d.rows ==> Pick(s, j) == s[j];
    DivideByColumnVector(q, s)
  }

  /** Dividing by the two factors in either order gives the same quotient. */
  lemma DivisionsCommute(x: real, a: real, b: real)
    requires a != 0.0 && b != 0.0
    ensures (x / a) / b == (x / b) / a
  {
    assert (x / a) / b * (a * b) == x;
    assert (x / b) / a * (a * b) == x;
  }

  lemma DivideByRootTwice(x: real, r: real)
    requires r != 0.0 && x == r * r
    ensures (x / r) / r == 1.0
  {
    assert x / r == r;
  }

  /** When `s` is the positive root of the diagonal, the normalised matrix has a unit diagonal. */
  lemma OuterNormalizeUnitDiagonal(d: Mat, s: seq<real>)
    requires IsSquare(d) && IsRootOfDiagonal(s, d) && Positive(s)
    ensures forall i :: 0 <= i < d.rows ==> OuterNormalize(d, s).at[i][i] == 1.0
  {
    forall i | 0 <= i < d.rows
      ensures OuterNormalize(d, s).at[i][i] == 1.0
    {
      DivideByRootTwice(d.at[i][i], s[i]);
    }
  }

  /** Outer normalisation keeps a symmetric matrix symmetric. */
  lemma OuterNormalizeKeepsSymmetry(d: Mat, s: seq<real>)
    requires IsSquare(d) && |s| == d.rows && NonZero(s)
    ensures IsSymmetric(d) ==> IsSymmetric(OuterNormalize(d, s))
  {
    if IsSymmetric(d) {
      var r := OuterNormalize(d, s);
      forall i, j | 0 <= i < d.rows && 0 <= j < d.rows
        ensures r.at[i][j] == r.at[j][i]
      {
        DivisionsCommute(d.at[i][j], s[j], s[i]);
      }
    }
  }

  predicate IsDiagonal(m: Mat) {
    IsSquare(m) && forall i, j :: 0 <= i < m.rows && 0 <= j < m.rows && i != j ==> m.at[i][j] == 0.0
  }

  /** A diagonal covariance with positive variances normalises to the identity, a correlation matrix. */
  lemma OuterNormalizeDiagonalIsIdentity(d: Mat, s: seq<real>)
    requires IsDiagonal(d) && IsRootOfDiagonal(s, d) && Positive(s)
    ensures forall i, j :: 0 <= i < d.rows && 0 <= j < d.rows ==>
      OuterNormalize(d, s).at[i][j] == if i == j then 1.0 else 0.0
  {
    OuterNormalizeUnitDiagonal(d, s);
  }

  // ---------------------------------------------------------------------------
  // Sample data divided by its root mean square: what its covariance's diagonal holds

  /** The dot product of a vector with itself is its sum of squares. */
  lemma DotSelfIsSumOfSquares(a: seq<real>)
    ensures Dot(a, a) == Sum(Squares(a))
  {
    assert seq(|a|, k requires 0 <= k < |a| => a[k] * a[k]) == Squares(a);
  }

  lemma ProductOfQuotients(x: real, a: real, y: real, b: real)
    requires a != 0.0 && b != 0.0
    ensures (x / a) * (y / b) == ((x * y) / a) / b
  {
    var u := x / a;
    var v := y / b;
    assert u * a == x;
    assert v * b == y;
    assert (u * v) * a == x * v;
    assert (x * y) / a == u * y;
  }

  /** Squaring after dividing by `c` is dividing the squares by `c` twice. */
  lemma SquaresOfScaled(s: seq<real>, c: real)
    requires c != 0.0
    ensures Squares(Scaled(s, c)) == Scaled(Scaled(Squares(s), c), c)
  {
    forall k | 0 <= k < |s|
      ensures Squares(Scaled(s, c))[k] == Scaled(Scaled(Squares(s), c), c)[k]
    {
      var x := s[k];
      ProductOfQuotients(x, c, x, c);
      assert Scaled(s, c)[k] == x / c;
      assert Squares(s)[k] == x * x;
      assert Scaled(Squares(s), c)[k] == (x * x) / c;
    }
  }

  lemma MultiplyBack(t: real, n: real, m: real)
    requires n != 0.0 && m == t / n
    ensures t == n * m
  {
  }

  lemma DivideMultipleByRootTwice(x: real, r: real, n: real)
    requires r != 0.0 && x == r * r
    ensures ((n * x) / r) / r == n
  {
    assert x / r == r;
    assert (n * x) / r == n * r;
  }

  /**
   * A column of length `n` divided by its own root mean square `c` has sum of
   * squares `n`: each square is divided by `c` twice, and the squares summed to `n * c * c`.
   */
  lemma NormalisedColumnSumOfSquares(s: seq<real>, c: real)
    requires |s| > 0 && c != 0.0 && c * c == MeanSquare(s)
    ensures Dot(Scaled(s, c), Scaled(s, c)) == |s| as real
  {
    var n := |s| as real;
    DotSelfIsSumOfSquares(Scaled(s, c));
    SquaresOfScaled(s, c);
    SumScaled(Scaled(Squares(s), c), c);
    SumScaled(Squares(s), c);
    var total := Sum(Squares(s));
    var m := MeanSquare(s);
    assert m == total / n;
    MultiplyBack(total, n, m);
    DivideMultipleByRootTwice(m, c, n);
    assert Dot(Scaled(s, c), Scaled(s, c)) == (total / c) / c;
  }

  /** Column `j` of `m / s` is column `j` of `m` divided by `s[j]`. */
  lemma ColumnOfDivided(m: Mat, s: seq<real>, j: nat)
    requires |s| == m.cols && NonZero(s) && j < m.cols
    ensures Column(DivideByRowVector(m, s), j) == Scaled(Column(m, j), s[j])
  {
  }

  /**
   * Data of n >= 2 rows divided column-wise by its positive root mean square has a
   * sample covariance whose every diagonal entry is `n / (n - 1)`, never `1`: the scale
   * averages the squares over `n`, the covariance divides their sum by `n - 1`.
   */
  lemma RootMeanSquareScaledCovarianceDiagonal(y: Mat, s: seq<real>)
    requires y.rows >= 2 && IsRootMeanSquare(s, y) && Positive(s)
    ensures forall j :: 0 <= j < y.cols ==>
      Covariance(DivideByRowVector(y, s)).at[j][j] == (y.rows as real) / ((y.rows - 1) as real)
    ensures forall j :: 0 <= j < y.cols ==> Covariance(DivideByRowVector(y, s)).at[j][j] != 1.0
  {
    var w := DivideByRowVector(y, s);
    var n := y.rows as real;
    forall j | 0 <= j < y.cols
      ensures Covariance(w).at[j][j] == n / (n - 1.0)
    {
      ColumnOfDivided(y, s, j);
      NormalisedColumnSumOfSquares(Column(y, j), s[j]);
    }
    assert n / (n - 1.0) != 1.0 by {
      if n / (n - 1.0) == 1.0 {
        assert n == (n / (n - 1.0)) * (n - 1.0);
      }
    }
  }

  /** `X.T.dot(X) / n`: the covariance over the same divisor `n` that the root mean square uses. */
  function GramOverRows(x: Mat): (c: Mat)
    requires x.rows > 0
    ensures c.rows == x.cols && c.cols == x.cols
    ensures forall i, j :: 0 <= i < x.cols && 0 <= j < x.cols ==>
      c.at[i][j] == Dot(Column(x, i), Column(x, j)) / (x.rows as real)
  {
    var t := Transpose(x);
    assert forall i :: 0 <= i < x.cols ==> t.at[i] == Column(x, i);
    DivideBy(MatMul(t, x), x.rows as real)
  }

  /** Over `n` the same scaled data gives the unit diagonal of a correlation matrix. */
  lemma RootMeanSquareScaledGramIsUnitDiagonal(y: Mat, s: seq<real>)
    requires y.rows > 0 && IsRootMeanSquare(s, y) && Positive(s)
    ensures forall j :: 0 <= j < y.cols ==> GramOverRows(DivideByRowVector(y, s)).at[j][j] == 1.0
  {
    var w := DivideByRowVector(y, s);
    forall j | 0 <= j < y.cols
      ensures GramOverRows(w).at[j][j] == 1.0
    {
      ColumnOfDivided(y, s, j);
      NormalisedColumnSumOfSquares(Column(y, j), s[j]);
    }
  }
}
