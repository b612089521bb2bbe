/**
 * The numpy statements that overwrite an array in place (`data -= v`,
 * `data /= v`, `data /= v.T`) and `array.copy()`, on a two-dimensional array.
 * Each is specified by the pure matrix function of the same operation.
 */
module InPlace {
  import opened Matrices

  /** The current contents of `a` as a matrix value. */
  function Grid(a: array2<real>): (m: Mat)
    reads a
    ensures m.rows == a.Length0 && m.cols == a.Length1
    ensures forall i, j :: 0 <= i < a.Length0 && 0 <= j < a.Length1 ==> m.at[i][j] == a[i, j]
  {
    Matrix(a.Length0, a.Length1,
      seq(a.Length0, i requires 0 <= i < a.Length0 reads a =>
        seq(a.Length1, j requires 0 <= j < a.Length1 reads a => a[i, j])))
  }

  /** `a -= v` for a `1 x |v|` row vector. */
  method Subtract(a: array2<real>, v: seq<real>)
    requires Broadcasts(v, a.Length1)
    modifies a
    ensures Grid(a) == SubtractRowVector(old(Grid(a)), v)
  {
    ghost var before := Grid(a);
    var i := 0;
    while i < a.Length0
      invariant 0 <= i <= a.Length0
      invariant forall r, c :: 0 <= r < i && 0 <= c < a.Length1 ==> a[r, c] == before.at[r][c] - Pick(v, c)
      invariant forall r, c :: i <= r < a.Length0 && 0 <= c < a.Length1 ==> a[r, c] == before.at[r][c]
    {
      var j := 0;
      while j < a.Length1
        invariant 0 <= j <= a.Length1
        invariant forall r, c :: 0 <= r < i && 0 <= c < a.Length1 ==> a[r, c] == before.at[r][c] - Pick(v, c)
        invariant forall c :: 0 <= c < j ==> a[i, c] == before.at[i][c] - Pick(v, c)
        invariant forall c :: j <= c < a.Length1 ==> a[i, c] == before.at[i][c]
        invariant forall r, c :: i < r < a.Length0 && 0 <= c < a.Length1 ==> a[r, c] == before.at[r][c]
      {
        a[i, j] := a[i, j] - Pick(v, j);
        j := j + 1;
      }
      i := i + 1;
    }
    SameEntries(Grid(a), SubtractRowVector(before, v));
  }

  /** `a /= v` for a `1 x |v|` row vector: column `j` is divided by the element of `v` that meets it. */
  method DivideColumns(a: array2<real>, v: seq<real>)
    requires Broadcasts(v, a.Length1) && NonZero(v)
    modifies a
    ensures Grid(a) == DivideByRowVector(old(Grid(a)), v)
  {
    ghost var before := Grid(a);
    var i := 0;
    while i < a.Length0
      invariant 0 <= i <= a.Length0
      invariant forall r, c :: 0 <= r < i && 0 <= c < a.Length1 ==> a[r, c] == before.at[r][c] / Pick(v, c)
      invariant forall r, c :: i <= r < a.Length0 && 0 <= c < a.Length1 ==> a[r, c] == before.at[r][c]
    {
      var j := 0;
      while j < a.Length1
        invariant 0 <= j <= a.Length1
        invariant forall r, c :: 0 <= r < i && 0 <= c < a.Length1 ==> a[r, c] == before.at[r][c] / Pick(v, c)
        invariant forall c :: 0 <= c < j ==> a[i, c] == before.at[i][c] / Pick(v, c)
        invariant forall c :: j <= c < a.Length1 ==> a[i, c] == before.at[i][c]
        invariant forall r, c :: i < r < a.Length0 && 0 <= c < a.Length1 ==> a[r, c] == before.at[r][c]
      {
        a[i, j] := a[i, j] / Pick(v, j);
        j := j + 1;
      }
      i := i + 1;
    }
    SameEntries(Grid(a), DivideByRowVector(before, v));
  }

  /** `a /= v.T` for a column vector with one entry per row: row `i` is divided by `v[i]`. */
  method DivideRows(a: array2<real>, v: seq<real>)
    requires |v| == a.Length0 && NonZero(v)
    modifies a
    ensures Grid(a) == DivideByColumnVector(old(Grid(a)), v)
  {
    ghost var before := Grid(a);
    var i := 0;
    while i < a.Length0
      invariant 0 <= i <= a.Length0
      invariant forall r, c :: 0 <= r < i && 0 <= c < a.Length1 ==> a[r, c] == before.at[r][c] / v[r]
      invariant forall r, c :: i <= r < a.Length0 && 0 <= c < a.Length1 ==> a[r, c] == before.at[r][c]
    {
      var j := 0;
      while j < a.Length1
        invariant 0 <= j <= a.Length1
        invariant forall r, c :: 0 <= r < i && 0 <= c < a.Length1 ==> a[r, c] == before.at[r][c] / v[r]
        invariant forall c :: 0 <= c < j ==> a[i, c] == before.at[i][c] / v[i]
        invariant forall c :: j <= c < a.Length1 ==> a[i, c] == before.at[i][c]
        invariant forall r, c :: i < r < a.Length0 && 0 <= c < a.Length1 ==> a[r, c] == before.at[r][c]
      {
        a[i, j] := a[i, j] / v[i];
        j := j + 1;
      }
      i := i + 1;
    }
    SameEntries(Grid(a), DivideByColumnVector(before, v));
  }

  /** `a.copy()`: a new array with the same shape and contents. */
  method Copy(a: array2<real>) returns (b: array2<real>)
    ensures fresh(b)
    ensures Grid(b) == Grid(a)
  {
    b := new real[a.Length0, a.Length1];
    var i := 0;
    while i < a.Length0
      invariant 0 <= i <= a.Length0
      invariant forall r, c :: 0 <= r < i && 0 <= c < a.Length1 ==> b[r, c] == a[r, c]
    {
      var j := 0;
      while j < a.Length1
        invariant 0 <= j <= a.Length1
        invariant forall r, c :: 0 <= r < i && 0 <= c < a.Length1 ==> b[r, c] == a[r, c]
        invariant forall c :: 0 <= c < j ==> b[i, c] == a[i, c]
      {
        b[i, j] := a[i, j];
        j := j + 1;
      }
      i := i + 1;
    }
    SameEntries(Grid(b), Grid(a));
  }
}
