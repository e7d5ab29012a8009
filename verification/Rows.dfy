/** Rows of real numbers and their coordinate-wise mean (the numpy operations the kernels share). */
module Rows {
  type Row = seq<real>

  function Add(a: Row, b: Row): (s: Row)
    requires |a| == |b|
    ensures |s| == |a|
  {
    if a == [] then [] else [a[0] + b[0]] + Add(a[1..], b[1..])
  }

  function Scale(a: Row, t: real): (s: Row)
    ensures |s| == |a|
    decreases |a|, 1
  {
    if a == [] then [] else ScaleFrom(a, t)
  }

  // Split off so that the solver meets the products only in proofs that name this function.
  function ScaleFrom(a: Row, t: real): (s: Row)
    requires a != []
    ensures |s| == |a|
    decreases |a|, 0
  {
    [a[0] * t] + Scale(a[1..], t)
  }

  function Zero(dim: nat): (z: Row)
    ensures |z| == dim
  {
    if dim == 0 then [] else [0.0] + Zero(dim - 1)
  }

  predicate Matrix(rows: seq<Row>, dim: nat) {
    forall i :: 0 <= i < |rows| ==> |rows[i]| == dim
  }

  function RowSum(rows: seq<Row>, dim: nat): (s: Row)
    requires Matrix(rows, dim)
    ensures |s| == dim
  {
    if rows == [] then Zero(dim) else Add(rows[0], RowSum(rows[1..], dim))
  }

  /** `rows.mean(axis=0)`. */
  function Mean(rows: seq<Row>, dim: nat): (m: Row)
    requires Matrix(rows, dim) && rows != []
    ensures |m| == dim
  {
    Scale(RowSum(rows, dim), 1.0 / |rows| as real)
  }

  /** n copies of x added up; spelled as repeated addition to keep the solver's arithmetic linear. */
  function Times(n: nat, x: real): (t: real)
    ensures n > 0 ==> (t < 0.0 <==> x < 0.0)
    ensures n > 0 ==> (t > 0.0 <==> x > 0.0)
    ensures x == 0.0 ==> t == 0.0
  {
    if n == 0 then 0.0 else x + Times(n - 1, x)
  }

  lemma {:induction false} TimesAdd(n: nat, x: real, y: real)
    ensures Times(n, x + y) == Times(n, x) + Times(n, y)
  {
    if n > 0 { TimesAdd(n - 1, x, y); }
  }

  lemma {:induction false} TimesIsProduct(n: nat, x: real)
    ensures Times(n, x) == n as real * x
  {
    if n > 0 {
      TimesIsProduct(n - 1, x);
      assert n as real == (n - 1) as real + 1.0;
    }
  }

  lemma TimesOfShare(n: nat, t: real, s: real)
    requires n > 0 && t == 1.0 / n as real
    ensures Times(n, t * s) == s
  {
    TimesIsProduct(n, t * s);
    var m := n as real;
    assert m * t == 1.0;
    assert m * (t * s) == (m * t) * s;
  }

  lemma {:induction false} TimesOrder(n: nat, x: real, y: real)
    requires n > 0
    ensures Times(n, x) <= Times(n, y) <==> x <= y
  {
    if n > 1 { TimesOrder(n - 1, x, y); }
  }

  lemma {:induction false} AddAt(a: Row, b: Row, j: nat)
    requires |a| == |b| && j < |a|
    ensures Add(a, b)[j] == a[j] + b[j]
  {
    if j > 0 { AddAt(a[1..], b[1..], j - 1); }
  }

  lemma {:induction false} ScaleAt(a: Row, t: real, j: nat)
    requires j < |a|
    ensures Scale(a, t)[j] == a[j] * t
  {
    assert Scale(a, t) == ScaleFrom(a, t);
    if j > 0 { ScaleAt(a[1..], t, j - 1); }
  }

  lemma {:induction false} ZeroAt(dim: nat, j: nat)
    requires j < dim
    ensures Zero(dim)[j] == 0.0
  {
    if j > 0 { ZeroAt(dim - 1, j - 1); }
  }

  /** The sum of one column. */
  function ColumnSum(rows: seq<Row>, j: nat): real
    requires forall i :: 0 <= i < |rows| ==> j < |rows[i]|
  {
    if rows == [] then 0.0 else rows[0][j] + ColumnSum(rows[1..], j)
  }

  lemma {:induction false} RowSumAt(rows: seq<Row>, dim: nat, j: nat)
    requires Matrix(rows, dim) && j < dim
    ensures RowSum(rows, dim)[j] == ColumnSum(rows, j)
  {
    if rows == [] {
      ZeroAt(dim, j);
    } else {
      RowSumAt(rows[1..], dim, j);
      AddAt(rows[0], RowSum(rows[1..], dim), j);
    }
  }

  /** Coordinate by coordinate, the number of rows times their mean is their sum. */
  lemma MeanTimesSize(rows: seq<Row>, dim: nat, j: nat)
    requires Matrix(rows, dim) && rows != [] && j < dim
    ensures Times(|rows|, Mean(rows, dim)[j]) == ColumnSum(rows, j)
  {
    hide RowSum, Scale, Times, ColumnSum;
    RowSumAt(rows, dim, j);
    SharesAddUp(RowSum(rows, dim), |rows|, j);
  }

  lemma SharesAddUp(x: Row, n: nat, j: nat)
    requires n > 0 && j < |x|
    ensures Times(n, Scale(x, 1.0 / n as real)[j]) == x[j]
  {
    var t, s := 1.0 / n as real, x[j];
    assert Times(n, t * s) == s by { TimesOfShare(n, t, s); }
    hide Times;
    assert Scale(x, t)[j] == s * t by { ScaleAt(x, t, j); }
    hide Scale;
    assert s * t == t * s;
  }

  predicate ColumnWithin(rows: seq<Row>, j: nat, lo: real, hi: real) {
    forall i :: 0 <= i < |rows| ==> j < |rows[i]| && lo <= rows[i][j] <= hi
  }

  lemma {:induction false} RowSumWithin(rows: seq<Row>, dim: nat, j: nat, lo: real, hi: real)
    requires Matrix(rows, dim) && j < dim && ColumnWithin(rows, j, lo, hi)
    ensures Times(|rows|, lo) <= RowSum(rows, dim)[j] <= Times(|rows|, hi)
  {
    if rows == [] {
      ZeroAt(dim, j);
    } else {
      RowSumWithin(rows[1..], dim, j, lo, hi);
      AddAt(rows[0], RowSum(rows[1..], dim), j);
    }
  }

  /** A mean stays, coordinate by coordinate, within the range of the rows it averages. */
  lemma MeanWithin(rows: seq<Row>, dim: nat, j: nat, lo: real, hi: real)
    requires Matrix(rows, dim) && rows != [] && j < dim && ColumnWithin(rows, j, lo, hi)
    ensures lo <= Mean(rows, dim)[j] <= hi
  {
    hide RowSum, Scale, Matrix, ColumnWithin, Times;
    var n, t, s := |rows|, 1.0 / |rows| as real, RowSum(rows, dim)[j];
    RowSumWithin(rows, dim, j, lo, hi);
    ScaleAt(RowSum(rows, dim), t, j);
    ShareWithin(n, t, s, lo, hi);
  }

  lemma ShareWithin(n: nat, t: real, s: real, lo: real, hi: real)
    requires n > 0 && t == 1.0 / n as real && Times(n, lo) <= s <= Times(n, hi)
    ensures lo <= s * t <= hi
  {
    TimesOfShare(n, t, s);
    TimesOrder(n, lo, t * s);
    TimesOrder(n, t * s, hi);
    assert t * s == s * t;
  }

  /** The mean of a single row is that row. */
  lemma MeanOfOne(r: Row)
    ensures Matrix([r], |r|) && Mean([r], |r|) == r
  {
    forall j | 0 <= j < |r| ensures Mean([r], |r|)[j] == r[j] { MeanWithin([r], |r|, j, r[j], r[j]); }
  }
}
