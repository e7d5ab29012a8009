/** The deterministic two-cluster Lloyd loop of `ml/data/dialect_signal.py`, over exact reals. */
module KMeans {
  import opened Options
  import opened Rows

  /** What the function returns; with no iteration allowed, `assert labels is not None` fails. */
  datatype Outcome = Labels(labels: seq<nat>) | AssertionError

  // ---------------------------------------------------------------- geometry

  function Square(e: real): real {
    Product(e, e)
  }

  function Product(a: real, b: real): real {
    a * b
  }

  lemma ProductSign(a: real, b: real)
    ensures a > 0.0 && b > 0.0 ==> Product(a, b) > 0.0
    ensures a < 0.0 && b < 0.0 ==> Product(a, b) > 0.0
  {
  }

  lemma SquareSign(e: real)
    ensures e == 0.0 || Square(e) > 0.0
    ensures e == 0.0 ==> Square(e) == 0.0
  {
    ProductSign(e, e);
  }

  /** Squared Euclidean distance. */
  function SqDist(x: Row, c: Row): (d: real)
    requires |x| == |c|
    ensures d >= 0.0
    ensures d == 0.0 <==> x == c
    decreases |x|, 1
  {
    if x == [] then 0.0 else SqDistFrom(x, c)
  }

  // Split off so that the solver meets the products only in proofs that name this function.
  function SqDistFrom(x: Row, c: Row): (d: real)
    requires |x| == |c| > 0
    ensures d >= 0.0
    ensures d == 0.0 <==> x == c
    decreases |x|, 0
  {
    assert x == [x[0]] + x[1..] && c == [c[0]] + c[1..];
    SquareSign(x[0] - c[0]);
    Square(x[0] - c[0]) + SqDist(x[1..], c[1..])
  }

  // How much farther x is from a than from b.  As a function of x this is affine.
  function Lead(x: Row, a: Row, b: Row): real
    requires |x| == |a| == |b|
  {
    SqDist(x, a) - SqDist(x, b)
  }

  function Slope(x: Row, a: Row, b: Row): real
    requires |x| == |a| == |b|
  {
    if x == [] then 0.0 else 2.0 * x[0] * (b[0] - a[0]) + Slope(x[1..], a[1..], b[1..])
  }

  function Offset(a: Row, b: Row): real
    requires |a| == |b|
  {
    if a == [] then 0.0 else a[0] * a[0] - b[0] * b[0] + Offset(a[1..], b[1..])
  }

  lemma {:induction false} LeadIsAffine(x: Row, a: Row, b: Row)
    requires |x| == |a| == |b|
    ensures Lead(x, a, b) == Slope(x, a, b) + Offset(a, b)
  {
    if x != [] {
      LeadIsAffine(x[1..], a[1..], b[1..]);
      var u, p, q := x[0], a[0], b[0];
      assert SqDist(x, a) == SqDistFrom(x, a) && SqDist(x, b) == SqDistFrom(x, b);
      assert Square(u - p) - Square(u - q) == 2.0 * u * (q - p) + (p * p - q * q);
    }
  }

  lemma {:induction false} SlopeAdd(x: Row, y: Row, a: Row, b: Row)
    requires |x| == |y| == |a| == |b|
    ensures Slope(Add(x, y), a, b) == Slope(x, a, b) + Slope(y, a, b)
  {
    if x != [] {
      SlopeAdd(x[1..], y[1..], a[1..], b[1..]);
      assert Add(x, y)[1..] == Add(x[1..], y[1..]);
      assert 2.0 * (x[0] + y[0]) * (b[0] - a[0]) == 2.0 * x[0] * (b[0] - a[0]) + 2.0 * y[0] * (b[0] - a[0]);
    }
  }

  lemma {:induction false} SlopeScale(x: Row, t: real, a: Row, b: Row)
    requires |x| == |a| == |b|
    ensures Slope(Scale(x, t), a, b) == t * Slope(x, a, b)
  {
    if x != [] {
      SlopeScale(x[1..], t, a[1..], b[1..]);
      assert Scale(x, t) == ScaleFrom(x, t);
      assert Scale(x, t)[1..] == Scale(x[1..], t);
      assert 2.0 * (x[0] * t) * (b[0] - a[0]) == t * (2.0 * x[0] * (b[0] - a[0]));
    }
  }

  lemma {:induction false} SlopeZero(dim: nat, a: Row, b: Row)
    requires dim == |a| == |b|
    ensures Slope(Zero(dim), a, b) == 0.0
  {
    if dim > 0 {
      assert Zero(dim)[1..] == Zero(dim - 1);
      SlopeZero(dim - 1, a[1..], b[1..]);
    }
  }

  function LeadSum(rows: seq<Row>, a: Row, b: Row): real
    requires |a| == |b| && Matrix(rows, |a|)
  {
    if rows == [] then 0.0 else Lead(rows[0], a, b) + LeadSum(rows[1..], a, b)
  }

  lemma {:induction false} LeadSumIsAffine(rows: seq<Row>, a: Row, b: Row)
    requires |a| == |b| && Matrix(rows, |a|)
    ensures LeadSum(rows, a, b) == Slope(RowSum(rows, |a|), a, b) + Times(|rows|, Offset(a, b))
  {
    if rows == [] {
      SlopeZero(|a|, a, b);
    } else {
      LeadSumIsAffine(rows[1..], a, b);
      LeadIsAffine(rows[0], a, b);
      SlopeAdd(rows[0], RowSum(rows[1..], |a|), a, b);
    }
  }

  lemma SlopeOfMean(rows: seq<Row>, a: Row, b: Row)
    requires |a| == |b| && Matrix(rows, |a|) && rows != []
    ensures Times(|rows|, Slope(Mean(rows, |a|), a, b)) == Slope(RowSum(rows, |a|), a, b)
  {
    SlopeOfShare(RowSum(rows, |a|), |rows|, a, b);
  }

  lemma SlopeOfShare(x: Row, n: nat, a: Row, b: Row)
    requires |x| == |a| == |b| && n > 0
    ensures Times(n, Slope(Scale(x, 1.0 / n as real), a, b)) == Slope(x, a, b)
  {
    var t, s := 1.0 / n as real, Slope(x, a, b);
    var u := Slope(Scale(x, t), a, b);
    assert u == t * s by { SlopeScale(x, t, a, b); }
    assert Times(n, t * s) == s by { TimesOfShare(n, t, s); }
  }

  /** Summed over a cluster, the lead is the cluster size times the lead at the cluster's mean. */
  lemma LeadAtMean(rows: seq<Row>, a: Row, b: Row)
    requires |a| == |b| && Matrix(rows, |a|) && rows != []
    ensures LeadSum(rows, a, b) == Times(|rows|, Lead(Mean(rows, |a|), a, b))
  {
    var m, n, o := Mean(rows, |a|), |rows|, Offset(a, b);
    var sl := Slope(m, a, b);
    assert LeadSum(rows, a, b) == Times(n, sl) + Times(n, o) by {
      LeadSumIsAffine(rows, a, b);
      SlopeOfMean(rows, a, b);
    }
    assert Lead(m, a, b) == sl + o by { LeadIsAffine(m, a, b); }
    TimesAdd(n, sl, o);
  }

  // ------------------------------------------------------------- one iteration

  /** The cluster of one row: 1 exactly when it is strictly closer to c1 (ties stay with cluster 0). */
  function Nearest(x: Row, c0: Row, c1: Row): nat
    requires |x| == |c0| == |c1|
  {
    if SqDist(x, c1) < SqDist(x, c0) then 1 else 0
  }

  /** `(d1 < d0).astype(int)`. */
  function Assign(rows: seq<Row>, c0: Row, c1: Row): (labels: seq<nat>)
    requires |c0| == |c1| && Matrix(rows, |c0|)
    ensures |labels| == |rows| && TwoLabels(labels)
  {
    if rows == [] then [] else [Nearest(rows[0], c0, c1)] + Assign(rows[1..], c0, c1)
  }

  predicate TwoLabels(labels: seq<nat>) {
    labels == [] || (labels[0] < 2 && TwoLabels(labels[1..]))
  }

  /** `(labels == cluster).any()`. */
  predicate Has(labels: seq<nat>, cluster: nat) {
    labels != [] && (labels[0] == cluster || Has(labels[1..], cluster))
  }

  lemma {:induction false} AssignAt(rows: seq<Row>, c0: Row, c1: Row, i: nat)
    requires |c0| == |c1| && Matrix(rows, |c0|) && i < |rows|
    ensures Assign(rows, c0, c1)[i] == Nearest(rows[i], c0, c1)
  {
    if i > 0 { AssignAt(rows[1..], c0, c1, i - 1); }
  }

  lemma {:induction false} HasIffIn(labels: seq<nat>, cluster: nat)
    ensures Has(labels, cluster) <==> cluster in labels
  {
    if labels != [] {
      HasIffIn(labels[1..], cluster);
      assert labels == [labels[0]] + labels[1..];
    }
  }

  /** `vectors[labels == cluster]`. */
  function Members(rows: seq<Row>, labels: seq<nat>, cluster: nat): (m: seq<Row>)
    requires |labels| == |rows|
    ensures forall x :: x in m ==> x in rows
    ensures m == [] <==> !Has(labels, cluster)
  {
    if rows == [] then []
    else
      var rest := Members(rows[1..], labels[1..], cluster);
      if labels[0] == cluster then [rows[0]] + rest else rest
  }

  /** The guarded centroid update: an empty cluster keeps its centroid. */
  function Update(rows: seq<Row>, labels: seq<nat>, cluster: nat, c: Row): (m: Row)
    requires |labels| == |rows| && Matrix(rows, |c|)
    ensures |m| == |c|
  {
    var members := Members(rows, labels, cluster);
    if members == [] then c
    else
      MembersMatrix(rows, labels, cluster, |c|);
      Mean(members, |c|)
  }

  lemma MembersMatrix(rows: seq<Row>, labels: seq<nat>, cluster: nat, dim: nat)
    requires |labels| == |rows| && Matrix(rows, dim)
    ensures Matrix(Members(rows, labels, cluster), dim)
  {
    var m := Members(rows, labels, cluster);
    forall i | 0 <= i < |m| ensures |m[i]| == dim { assert m[i] in rows; }
  }

  /** Total within-cluster squared distance. */
  function Cost(rows: seq<Row>, labels: seq<nat>, c0: Row, c1: Row): real
    requires |labels| == |rows| && |c0| == |c1| && Matrix(rows, |c0|)
  {
    if rows == [] then 0.0
    else
      (if labels[0] == 0 then SqDist(rows[0], c0) else SqDist(rows[0], c1))
      + Cost(rows[1..], labels[1..], c0, c1)
  }

  /** Re-assigning rows to their nearest centroid never raises the cost. */
  lemma {:induction false} AssignNeverRaisesCost(rows: seq<Row>, labels: seq<nat>, c0: Row, c1: Row)
    requires |labels| == |rows| && |c0| == |c1| && Matrix(rows, |c0|)
    ensures Cost(rows, Assign(rows, c0, c1), c0, c1) <= Cost(rows, labels, c0, c1)
  {
    if rows != [] {
      AssignNeverRaisesCost(rows[1..], labels[1..], c0, c1);
      assert Assign(rows, c0, c1)[1..] == Assign(rows[1..], c0, c1);
    }
  }

  // Changing the centroids changes the cost by the leads summed over the two clusters.
  lemma {:induction false} CostChange(rows: seq<Row>, labels: seq<nat>, a0: Row, a1: Row, b0: Row, b1: Row)
    requires |labels| == |rows| && TwoLabels(labels)
    requires |a0| == |a1| == |b0| == |b1| && Matrix(rows, |a0|)
    requires Matrix(Members(rows, labels, 0), |a0|) && Matrix(Members(rows, labels, 1), |a0|)
    ensures Cost(rows, labels, a0, a1) - Cost(rows, labels, b0, b1)
         == LeadSum(Members(rows, labels, 0), a0, b0) + LeadSum(Members(rows, labels, 1), a1, b1)
  {
    if rows != [] {
      MembersMatrix(rows[1..], labels[1..], 0, |a0|);
      MembersMatrix(rows[1..], labels[1..], 1, |a0|);
      CostChange(rows[1..], labels[1..], a0, a1, b0, b1);
      assert Members(rows, labels, labels[0])[1..] == Members(rows[1..], labels[1..], labels[0]);
    }
  }

  /** Moving one centroid to its cluster's mean lowers that cluster's cost by size * distance moved. */
  lemma UpdateGain(rows: seq<Row>, labels: seq<nat>, cluster: nat, c: Row)
    requires |labels| == |rows| && Matrix(rows, |c|)
    requires Matrix(Members(rows, labels, cluster), |c|)
    ensures var m := Update(rows, labels, cluster, c);
      LeadSum(Members(rows, labels, cluster), c, m) == Times(|Members(rows, labels, cluster)|, SqDist(m, c))
  {
    var members := Members(rows, labels, cluster);
    if members != [] {
      var m := Update(rows, labels, cluster, c);
      LeadAtMean(members, c, m);
      assert SqDist(m, m) == 0.0;
    }
  }

  /** Moving the centroids to the cluster means never raises the cost. */
  lemma UpdateNeverRaisesCost(rows: seq<Row>, labels: seq<nat>, c0: Row, c1: Row)
    requires |labels| == |rows| && TwoLabels(labels) && |c0| == |c1| && Matrix(rows, |c0|)
    ensures Cost(rows, labels, Update(rows, labels, 0, c0), Update(rows, labels, 1, c1)) <= Cost(rows, labels, c0, c1)
  {
    MembersMatrix(rows, labels, 0, |c0|);
    MembersMatrix(rows, labels, 1, |c0|);
    var m0, m1 := Update(rows, labels, 0, c0), Update(rows, labels, 1, c1);
    CostChange(rows, labels, c0, c1, m0, m1);
    UpdateGain(rows, labels, 0, c0);
    UpdateGain(rows, labels, 1, c1);
  }

  // ------------------------------------------------------- clusters stay alive

  predicate BothAlive(labels: seq<nat>) {
    Has(labels, 0) && Has(labels, 1)
  }

  // If a sum of leads has a sign, some member already has that sign.
  lemma {:induction false} SomeNegative(rows: seq<Row>, a: Row, b: Row) returns (i: nat)
    requires |a| == |b| && Matrix(rows, |a|) && LeadSum(rows, a, b) < 0.0
    ensures i < |rows| && Lead(rows[i], a, b) < 0.0
  {
    if Lead(rows[0], a, b) < 0.0 { i := 0; } else {
      var j := SomeNegative(rows[1..], a, b);
      i := j + 1;
    }
  }

  // The assigned clusters lie on their own sides of the bisector, hence so do their means.
  lemma {:induction false} SideOfCluster(rows: seq<Row>, labels: seq<nat>, c0: Row, c1: Row)
    requires |c0| == |c1| && Matrix(rows, |c0|) && labels == Assign(rows, c0, c1)
    requires Matrix(Members(rows, labels, 0), |c0|) && Matrix(Members(rows, labels, 1), |c0|)
    ensures LeadSum(Members(rows, labels, 0), c0, c1) <= 0.0
    ensures LeadSum(Members(rows, labels, 1), c0, c1) >= 0.0
    ensures Has(labels, 1) ==> LeadSum(Members(rows, labels, 1), c0, c1) > 0.0
  {
    if rows != [] {
      MembersMatrix(rows[1..], labels[1..], 0, |c0|);
      MembersMatrix(rows[1..], labels[1..], 1, |c0|);
      assert labels[1..] == Assign(rows[1..], c0, c1);
      SideOfCluster(rows[1..], labels[1..], c0, c1);
      assert Members(rows, labels, labels[0])[1..] == Members(rows[1..], labels[1..], labels[0]);
    }
  }

  /** The means of two live clusters are distinct, so the next pair of centroids is a real pair. */
  lemma MeansDiffer(rows: seq<Row>, c0: Row, c1: Row)
    requires |c0| == |c1| && Matrix(rows, |c0|) && BothAlive(Assign(rows, c0, c1))
    ensures var labels := Assign(rows, c0, c1);
      Update(rows, labels, 0, c0) != Update(rows, labels, 1, c1)
  {
    var labels := Assign(rows, c0, c1);
    MembersMatrix(rows, labels, 0, |c0|);
    MembersMatrix(rows, labels, 1, |c0|);
    SideOfCluster(rows, labels, c0, c1);
    var m0, m1 := Update(rows, labels, 0, c0), Update(rows, labels, 1, c1);
    LeadAtMean(Members(rows, labels, 0), c0, c1);
    LeadAtMean(Members(rows, labels, 1), c0, c1);
    assert Lead(m0, c0, c1) <= 0.0 < Lead(m1, c0, c1);
  }

  lemma LabelOfRow(rows: seq<Row>, c0: Row, c1: Row, i: nat)
    requires |c0| == |c1| && Matrix(rows, |c0|) && i < |rows|
    ensures Has(Assign(rows, c0, c1), Nearest(rows[i], c0, c1))
  {
    AssignAt(rows, c0, c1, i);
    HasIffIn(Assign(rows, c0, c1), Nearest(rows[i], c0, c1));
  }

  lemma MemberIndex(rows: seq<Row>, labels: seq<nat>, cluster: nat, k: nat) returns (i: nat)
    requires |labels| == |rows| && k < |Members(rows, labels, cluster)|
    ensures i < |rows| && rows[i] == Members(rows, labels, cluster)[k]
  {
    var x := Members(rows, labels, cluster)[k];
    assert x in rows;
    i :| 0 <= i < |rows| && rows[i] == x;
  }

  /** Re-assigning against the means of two live clusters leaves both clusters alive. */
  lemma ClustersSurvive(rows: seq<Row>, labels: seq<nat>, m0: Row, m1: Row)
    requires |labels| == |rows| && |m0| == |m1| && Matrix(rows, |m0|) && BothAlive(labels) && m0 != m1
    requires Matrix(Members(rows, labels, 0), |m0|) && Matrix(Members(rows, labels, 1), |m0|)
    requires m0 == Mean(Members(rows, labels, 0), |m0|) && m1 == Mean(Members(rows, labels, 1), |m0|)
    ensures BothAlive(Assign(rows, m0, m1))
  {
    var next := Assign(rows, m0, m1);
    var M0, M1 := Members(rows, labels, 0), Members(rows, labels, 1);
    var gap := SqDist(m0, m1);
    LeadAtMean(M0, m0, m1);
    assert SqDist(m0, m0) == 0.0 && gap > 0.0;
    assert Lead(m0, m0, m1) < 0.0;
    var k0 := SomeNegative(M0, m0, m1);
    var i0 := MemberIndex(rows, labels, 0, k0);
    LabelOfRow(rows, m0, m1, i0);
    LeadAtMean(M1, m1, m0);
    assert SqDist(m1, m1) == 0.0 && SqDist(m1, m0) > 0.0;
    assert Lead(m1, m1, m0) < 0.0;
    var k1 := SomeNegative(M1, m1, m0);
    var i1 := MemberIndex(rows, labels, 1, k1);
    LabelOfRow(rows, m0, m1, i1);
  }

  // ---------------------------------------------------------------- whole runs

  datatype Run = Run(labels: seq<nat>, c0: Row, c1: Row, converged: bool)

  /** The loop from the state (labels, c0, c1) with `fuel` iterations left. */
  function Lloyd(rows: seq<Row>, labels: Option<seq<nat>>, c0: Row, c1: Row, fuel: nat): Run
    requires |c0| == |c1| && Matrix(rows, |c0|)
    requires labels.None? ==> fuel > 0
    requires labels.Some? ==> |labels.value| == |rows|
    decreases fuel
  {
    if fuel == 0 then Run(labels.value, c0, c1, false)
    else
      var next := Assign(rows, c0, c1);
      if labels == Some(next) then Run(next, c0, c1, true)
      else Lloyd(rows, Some(next), Update(rows, next, 0, c0), Update(rows, next, 1, c1), fuel - 1)
  }

  /** The first index at which the sequence is largest (`np.argmax`). */
  function ArgMax(ds: seq<real>): (k: nat)
    requires ds != []
    ensures k < |ds|
    ensures forall i :: 0 <= i < |ds| ==> ds[i] <= ds[k]
    ensures forall i :: 0 <= i < k ==> ds[i] < ds[k]
  {
    if |ds| == 1 then 0
    else
      var j := ArgMax(ds[..|ds| - 1]);
      if ds[|ds| - 1] > ds[j] then |ds| - 1 else j
  }

  /** The first of the rows farthest from row 0. */
  predicate IsFarthest(rows: seq<Row>, k: nat)
    requires forall i :: 0 <= i < |rows| ==> |rows[i]| == |rows[0]|
  {
    && k < |rows|
    && (forall i :: 0 <= i < |rows| ==> SqDist(rows[i], rows[0]) <= SqDist(rows[k], rows[0]))
    && (forall i :: 0 <= i < k ==> SqDist(rows[i], rows[0]) < SqDist(rows[k], rows[0]))
  }

  function Farthest(rows: seq<Row>, dim: nat): (k: nat)
    requires Matrix(rows, dim) && rows != []
    ensures k < |rows|
    ensures IsFarthest(rows, k)
  {
    var ds := seq(|rows|, i requires 0 <= i < |rows| => SqDist(rows[i], rows[0]));
    var k := ArgMax(ds);
    assert forall i :: 0 <= i < |rows| ==> ds[i] == SqDist(rows[i], rows[0]) && ds[i] <= ds[k];
    assert forall i :: 0 <= i < k ==> ds[i] < ds[k];
    k
  }

  /** Each centroid is the mean of its own, non-empty, cluster and the two differ. */
  predicate Centred(rows: seq<Row>, labels: seq<nat>, c0: Row, c1: Row)
    requires |c0| == |c1| && Matrix(rows, |c0|)
  {
    |labels| == |rows| && TwoLabels(labels) && BothAlive(labels) && c0 != c1
    && c0 == Update(rows, labels, 0, c0) && c1 == Update(rows, labels, 1, c1)
  }

  /** One iteration keeps both clusters alive and the centroids distinct and centred. */
  lemma StepKeepsClusters(rows: seq<Row>, c0: Row, c1: Row)
    requires |c0| == |c1| && Matrix(rows, |c0|) && BothAlive(Assign(rows, c0, c1))
    ensures var labels := Assign(rows, c0, c1);
      var m0, m1 := Update(rows, labels, 0, c0), Update(rows, labels, 1, c1);
      Centred(rows, labels, m0, m1) && BothAlive(Assign(rows, m0, m1))
  {
    var labels := Assign(rows, c0, c1);
    var m0, m1 := Update(rows, labels, 0, c0), Update(rows, labels, 1, c1);
    MeansDiffer(rows, c0, c1);
    MembersMatrix(rows, labels, 0, |c0|);
    MembersMatrix(rows, labels, 1, |c0|);
    ClustersSurvive(rows, labels, m0, m1);
  }

  predicate Resumable(rows: seq<Row>, labels: Option<seq<nat>>, c0: Row, c1: Row, fuel: nat)
    requires |c0| == |c1| && Matrix(rows, |c0|)
  {
    (labels.None? ==> fuel > 0) && (labels.Some? ==> Centred(rows, labels.value, c0, c1))
    && BothAlive(Assign(rows, c0, c1))
  }

  /** From two live clusters, every continuation of the loop keeps both alive, ends centred, and ends at a
      fixed point when it breaks early. */
  lemma {:induction false} LloydKeepsClusters(rows: seq<Row>, labels: Option<seq<nat>>, c0: Row, c1: Row, fuel: nat)
    requires |c0| == |c1| && Matrix(rows, |c0|) && Resumable(rows, labels, c0, c1, fuel)
    ensures var r := Lloyd(rows, labels, c0, c1, fuel);
      && |r.c0| == |r.c1| == |c0|
      && Centred(rows, r.labels, r.c0, r.c1)
      && (r.converged ==> r.labels == Assign(rows, r.c0, r.c1))
    decreases fuel
  {
    hide Centred, Assign, Update, BothAlive;
    if fuel > 0 {
      var next := Assign(rows, c0, c1);
      if labels != Some(next) {
        var m0, m1 := Update(rows, next, 0, c0), Update(rows, next, 1, c1);
        StepKeepsClusters(rows, c0, c1);
        LloydKeepsClusters(rows, Some(next), m0, m1, fuel - 1);
      }
    }
  }

  lemma StepNeverRaisesCost(rows: seq<Row>, labels: seq<nat>, c0: Row, c1: Row)
    requires |c0| == |c1| && Matrix(rows, |c0|) && |labels| == |rows|
    ensures var next := Assign(rows, c0, c1);
      Cost(rows, next, Update(rows, next, 0, c0), Update(rows, next, 1, c1)) <= Cost(rows, labels, c0, c1)
  {
    UpdateNeverRaisesCost(rows, Assign(rows, c0, c1), c0, c1);
    AssignNeverRaisesCost(rows, labels, c0, c1);
  }

  /** No run ends above the cost of any labelling against its starting centroids. */
  lemma {:induction false} LloydNeverRaisesCost(rows: seq<Row>, labels: Option<seq<nat>>, c0: Row, c1: Row,
                                                fuel: nat, base: seq<nat>)
    requires |c0| == |c1| && Matrix(rows, |c0|) && (labels.None? ==> fuel > 0)
    requires |base| == |rows| && (labels.Some? ==> labels.value == base)
    ensures var r := Lloyd(rows, labels, c0, c1, fuel);
      |r.c0| == |r.c1| == |c0| && |r.labels| == |rows|
      && Cost(rows, r.labels, r.c0, r.c1) <= Cost(rows, base, c0, c1)
    decreases fuel
  {
    hide Assign, Update, Cost;
    if fuel > 0 {
      var next := Assign(rows, c0, c1);
      if labels != Some(next) {
        var m0, m1 := Update(rows, next, 0, c0), Update(rows, next, 1, c1);
        StepNeverRaisesCost(rows, base, c0, c1);
        LloydNeverRaisesCost(rows, Some(next), m0, m1, fuel - 1, next);
      }
    }
  }

  // ------------------------------------------------------------ every run comes to rest

  /** If reassigning lowers nothing, only ties moved, all of them into cluster 0. */
  lemma {:induction false} OnlyTiesMove(rows: seq<Row>, labels: seq<nat>, c0: Row, c1: Row)
    requires |labels| == |rows| && TwoLabels(labels) && |c0| == |c1| && Matrix(rows, |c0|)
    requires Matrix(Members(rows, labels, 0), |c0|) && Matrix(Members(rows, Assign(rows, c0, c1), 0), |c0|)
    requires Cost(rows, Assign(rows, c0, c1), c0, c1) == Cost(rows, labels, c0, c1)
    ensures var was, now := Members(rows, labels, 0), Members(rows, Assign(rows, c0, c1), 0);
      && LeadSum(now, c0, c1) == LeadSum(was, c0, c1) && |now| >= |was|
      && (|now| == |was| ==> Assign(rows, c0, c1) == labels)
  {
    if rows != [] {
      var next := Assign(rows, c0, c1);
      assert next[1..] == Assign(rows[1..], c0, c1) && labels == [labels[0]] + labels[1..];
      AssignNeverRaisesCost(rows[1..], labels[1..], c0, c1);
      MembersMatrix(rows[1..], labels[1..], 0, |c0|);
      MembersMatrix(rows[1..], next[1..], 0, |c0|);
      OnlyTiesMove(rows[1..], labels[1..], c0, c1);
      assert labels[0] == 0 ==> Members(rows, labels, 0)[1..] == Members(rows[1..], labels[1..], 0);
      assert next[0] == 0 ==> Members(rows, next, 0)[1..] == Members(rows[1..], next[1..], 0);
    }
  }

  /** Moving a centroid lowers the cost strictly. */
  lemma MovedCentroidLowersCost(rows: seq<Row>, labels: seq<nat>, c0: Row, c1: Row)
    requires |labels| == |rows| && TwoLabels(labels) && |c0| == |c1| && Matrix(rows, |c0|)
    requires Update(rows, labels, 0, c0) != c0
    ensures Cost(rows, labels, Update(rows, labels, 0, c0), Update(rows, labels, 1, c1)) < Cost(rows, labels, c0, c1)
  {
    MembersMatrix(rows, labels, 0, |c0|);
    MembersMatrix(rows, labels, 1, |c0|);
    var m0, m1 := Update(rows, labels, 0, c0), Update(rows, labels, 1, c1);
    CostChange(rows, labels, c0, c1, m0, m1);
    UpdateGain(rows, labels, 0, c0);
    UpdateGain(rows, labels, 1, c1);
    TimesPositive(|Members(rows, labels, 0)|, SqDist(m0, c0));
  }

  lemma TimesPositive(n: nat, t: real)
    requires n > 0 && t > 0.0
    ensures Times(n, t) > 0.0
  {
  }

  lemma TimesDetermines(m: nat, n: nat, t: real)
    requires t != 0.0 && Times(m, t) == Times(n, t)
    ensures m == n
  {
    TimesIsProduct(m, t);
    TimesIsProduct(n, t);
    assert m as real * t == n as real * t ==> m as real == n as real;
  }

  /** From centred clusters a changed labelling lowers the cost strictly: if only ties moved, they shift cluster 0's
      mean. */
  lemma ChangeLowersCost(rows: seq<Row>, labels: seq<nat>, c0: Row, c1: Row)
    requires |c0| == |c1| && Matrix(rows, |c0|) && Centred(rows, labels, c0, c1) && Assign(rows, c0, c1) != labels
    ensures var next := Assign(rows, c0, c1);
      Cost(rows, next, Update(rows, next, 0, c0), Update(rows, next, 1, c1)) < Cost(rows, labels, c0, c1)
  {
    hide Cost, Assign, Members, LeadSum, Lead, SqDist, Update;
    var next := Assign(rows, c0, c1);
    AssignNeverRaisesCost(rows, labels, c0, c1);
    UpdateNeverRaisesCost(rows, next, c0, c1);
    if Cost(rows, next, c0, c1) == Cost(rows, labels, c0, c1) {
      if Update(rows, next, 0, c0) == c0 {
        TiesShiftTheMean(rows, labels, c0, c1);
      } else {
        MovedCentroidLowersCost(rows, next, c0, c1);
      }
    }
  }

  lemma TiesShiftTheMean(rows: seq<Row>, labels: seq<nat>, c0: Row, c1: Row)
    requires |c0| == |c1| && Matrix(rows, |c0|) && Centred(rows, labels, c0, c1)
    requires Cost(rows, Assign(rows, c0, c1), c0, c1) == Cost(rows, labels, c0, c1)
    requires Update(rows, Assign(rows, c0, c1), 0, c0) == c0
    ensures Assign(rows, c0, c1) == labels
  {
    hide Cost, Assign, LeadSum, Mean, Times, SqDist;
    var next := Assign(rows, c0, c1);
    var was, now := Members(rows, labels, 0), Members(rows, next, 0);
    MembersMatrix(rows, labels, 0, |c0|);
    MembersMatrix(rows, next, 0, |c0|);
    OnlyTiesMove(rows, labels, c0, c1);
    LeadAtMean(was, c0, c1);
    LeadAtMean(now, c0, c1);
    assert Lead(c0, c0, c1) < 0.0;
    TimesDetermines(|was|, |now|, Lead(c0, c0, c1));
  }

  function WithFirst(x: set<seq<nat>>, first: nat): set<seq<nat>> {
    set l | l in x :: [first] + l
  }

  /** All labellings of n rows. */
  function Labellings(n: nat): set<seq<nat>> {
    if n == 0 then {[]} else WithFirst(Labellings(n - 1), 0) + WithFirst(Labellings(n - 1), 1)
  }

  lemma {:induction false} LabellingsAreAll(labels: seq<nat>)
    requires TwoLabels(labels)
    ensures labels in Labellings(|labels|)
  {
    if labels != [] {
      LabellingsAreAll(labels[1..]);
      assert labels == [labels[0]] + labels[1..];
    }
  }

  /** The cost of a labelling against the means of its own clusters. */
  function CentredCost(rows: seq<Row>, labels: seq<nat>, dim: nat): real
    requires |labels| == |rows| && Matrix(rows, dim)
  {
    Cost(rows, labels, Update(rows, labels, 0, Zero(dim)), Update(rows, labels, 1, Zero(dim)))
  }

  lemma CentredCostIsCost(rows: seq<Row>, labels: seq<nat>, c0: Row, c1: Row)
    requires |c0| == |c1| && Matrix(rows, |c0|) && Centred(rows, labels, c0, c1)
    ensures CentredCost(rows, labels, |c0|) == Cost(rows, labels, c0, c1)
  {
  }

  /** The labellings that are still cheaper. */
  function Cheaper(rows: seq<Row>, labels: seq<nat>, dim: nat): set<seq<nat>>
    requires |labels| == |rows| && Matrix(rows, dim)
  {
    set l | l in Labellings(|rows|) && |l| == |rows| && CentredCost(rows, l, dim) < CentredCost(rows, labels, dim)
  }

  lemma FewerCheaper(rows: seq<Row>, labels: seq<nat>, next: seq<nat>, dim: nat)
    requires |labels| == |next| == |rows| && Matrix(rows, dim) && TwoLabels(next)
    requires CentredCost(rows, next, dim) < CentredCost(rows, labels, dim)
    ensures |Cheaper(rows, next, dim)| < |Cheaper(rows, labels, dim)|
  {
    hide CentredCost, Labellings;
    LabellingsAreAll(next);
    var now, was := Cheaper(rows, next, dim), Cheaper(rows, labels, dim);
    assert next in was && now <= was - {next};
    SmallerSet(now, was - {next});
  }

  lemma SmallerSet(x: set<seq<nat>>, y: set<seq<nat>>)
    requires x <= y
    ensures |x| <= |y|
  {
    assert y == x + (y - x);
  }

  /** From centred clusters the loop breaks once it has more iterations left than there are cheaper labellings. */
  lemma {:induction false} LloydBreaks(rows: seq<Row>, labels: seq<nat>, c0: Row, c1: Row, fuel: nat)
    requires |c0| == |c1| && Matrix(rows, |c0|) && Resumable(rows, Some(labels), c0, c1, fuel)
    requires fuel > |Cheaper(rows, labels, |c0|)|
    ensures Lloyd(rows, Some(labels), c0, c1, fuel).converged
    decreases fuel
  {
    hide Assign, Update, BothAlive, Cost, Cheaper, Centred, CentredCost, Matrix;
    var next := Assign(rows, c0, c1);
    if next != labels {
      var m0, m1 := Update(rows, next, 0, c0), Update(rows, next, 1, c1);
      assert |labels| == |rows| by { CentredFits(rows, labels, c0, c1); }
      StepKeepsClusters(rows, c0, c1);
      ChangeLowersCost(rows, labels, c0, c1);
      CentredCostIsCost(rows, labels, c0, c1);
      CentredCostIsCost(rows, next, m0, m1);
      FewerCheaper(rows, labels, next, |c0|);
      LloydBreaks(rows, next, m0, m1, fuel - 1);
    }
  }

  lemma CentredFits(rows: seq<Row>, labels: seq<nat>, c0: Row, c1: Row)
    requires |c0| == |c1| && Matrix(rows, |c0|) && Centred(rows, labels, c0, c1)
    ensures |labels| == |rows|
  {
  }

  function PowerOfTwo(n: nat): nat {
    if n == 0 then 1 else 2 * PowerOfTwo(n - 1)
  }

  lemma {:induction false} ImageIsNoLarger(x: set<seq<nat>>, first: nat)
    ensures |WithFirst(x, first)| <= |x|
    decreases |x|
  {
    if x != {} {
      var e :| e in x;
      ImageIsNoLarger(x - {e}, first);
      assert WithFirst(x, first) == WithFirst(x - {e}, first) + {[first] + e};
    }
  }

  lemma UnionIsNoLarger(x: set<seq<nat>>, y: set<seq<nat>>)
    ensures |x + y| <= |x| + |y|
  {
    assert |x + y| == |x| + |y| - |x * y|;
  }

  lemma {:induction false} LabellingsAreFew(n: nat)
    ensures |Labellings(n)| <= PowerOfTwo(n)
  {
    if n > 0 {
      LabellingsAreFew(n - 1);
      ImageIsNoLarger(Labellings(n - 1), 0);
      ImageIsNoLarger(Labellings(n - 1), 1);
      UnionIsNoLarger(WithFirst(Labellings(n - 1), 0), WithFirst(Labellings(n - 1), 1));
    }
  }

  function Start(rows: seq<Row>, dim: nat, maxIterations: nat): Run
    requires Matrix(rows, dim) && rows != [] && maxIterations > 0
  {
    Lloyd(rows, None, rows[0], rows[Farthest(rows, dim)], maxIterations)
  }

  predicate AllEqualFirst(rows: seq<Row>)
    requires rows != []
  {
    forall i :: 0 <= i < |rows| ==> rows[i] == rows[0]
  }

  /** The farthest-pair start already separates two clusters as soon as some row differs from row 0. */
  lemma StartSeparates(rows: seq<Row>, dim: nat)
    requires Matrix(rows, dim) && rows != [] && !AllEqualFirst(rows)
    ensures var far := Farthest(rows, dim);
      rows[far] != rows[0] && BothAlive(Assign(rows, rows[0], rows[far]))
  {
    var far := Farthest(rows, dim);
    var i :| 0 <= i < |rows| && rows[i] != rows[0];
    assert SqDist(rows[i], rows[0]) > 0.0;
    assert SqDist(rows[far], rows[far]) == 0.0 && SqDist(rows[0], rows[0]) == 0.0;
    LabelOfRow(rows, rows[0], rows[far], 0);
    LabelOfRow(rows, rows[0], rows[far], far);
  }

  lemma {:induction false} EqualRowsLead(rows: seq<Row>, v: Row, m: Row)
    requires |v| == |m| && Matrix(rows, |v|) && forall i :: 0 <= i < |rows| ==> rows[i] == v
    ensures LeadSum(rows, v, m) <= 0.0
  {
    if rows != [] {
      assert SqDist(v, v) == 0.0;
      EqualRowsLead(rows[1..], v, m);
    }
  }

  /** The mean of identical rows is that row. */
  lemma MeanOfEqualRows(rows: seq<Row>, v: Row)
    requires Matrix(rows, |v|) && rows != [] && forall i :: 0 <= i < |rows| ==> rows[i] == v
    ensures Mean(rows, |v|) == v
  {
    var m := Mean(rows, |v|);
    EqualRowsLead(rows, v, m);
    LeadAtMean(rows, v, m);
    assert SqDist(m, m) == 0.0;
    assert Lead(m, v, m) <= 0.0;
  }

  lemma {:induction false} AllMembers(rows: seq<Row>, labels: seq<nat>)
    requires |labels| == |rows| && !Has(labels, 1) && TwoLabels(labels)
    ensures Members(rows, labels, 0) == rows && Members(rows, labels, 1) == []
  {
    if rows != [] { AllMembers(rows[1..], labels[1..]); }
  }

  lemma {:induction false} TiesGoToZero(rows: seq<Row>, v: Row)
    requires Matrix(rows, |v|)
    ensures !Has(Assign(rows, v, v), 1)
  {
    if rows != [] { TiesGoToZero(rows[1..], v); }
  }

  /** With identical rows the loop never leaves cluster 0. */
  lemma {:induction false} EqualRowsStayTogether(rows: seq<Row>, labels: Option<seq<nat>>, v: Row, fuel: nat)
    requires Matrix(rows, |v|) && rows != [] && forall i :: 0 <= i < |rows| ==> rows[i] == v
    requires labels.None? ==> fuel > 0
    requires labels.Some? ==> |labels.value| == |rows| && !Has(labels.value, 1)
    ensures !Has(Lloyd(rows, labels, v, v, fuel).labels, 1)
    decreases fuel
  {
    if fuel > 0 {
      var next := Assign(rows, v, v);
      TiesGoToZero(rows, v);
      AllMembers(rows, next);
      MeanOfEqualRows(rows, v);
      if labels != Some(next) { EqualRowsStayTogether(rows, Some(next), v, fuel - 1); }
    }
  }

  /** Both clusters are returned non-empty exactly when some row differs from row 0; then the run ends
      centred, at a fixed point if it broke early, at no more than its starting cost. */
  lemma TwoClustersIffRowsDiffer(rows: seq<Row>, dim: nat, maxIterations: nat)
    requires Matrix(rows, dim) && rows != [] && maxIterations > 0
    ensures var r := Start(rows, dim, maxIterations);
      var far := rows[Farthest(rows, dim)];
      && (BothAlive(r.labels) <==> !AllEqualFirst(rows))
      && (!AllEqualFirst(rows) ==>
            && |r.c0| == |r.c1| == dim
            && Centred(rows, r.labels, r.c0, r.c1)
            && (r.converged ==> r.labels == Assign(rows, r.c0, r.c1))
            && Cost(rows, r.labels, r.c0, r.c1) <= Cost(rows, Assign(rows, rows[0], far), rows[0], far))
  {
    var far := Farthest(rows, dim);
    if AllEqualFirst(rows) {
      EqualRowsStayTogether(rows, None, rows[0], maxIterations);
    } else {
      StartSeparates(rows, dim);
      LloydKeepsClusters(rows, None, rows[0], rows[far], maxIterations);
      LloydNeverRaisesCost(rows, None, rows[0], rows[far], maxIterations, Assign(rows, rows[0], rows[far]));
    }
  }

  // ------------------------------------------------- the labels, iteration by iteration

  function ClusterSize(labels: seq<nat>, cluster: nat): nat {
    if labels == [] then 0 else (if labels[0] == cluster then 1 else 0) + ClusterSize(labels[1..], cluster)
  }

  /** The sum of column j over the rows of a cluster. */
  function ClusterSum(rows: seq<Row>, labels: seq<nat>, cluster: nat, j: nat): real
    requires |labels| == |rows| && forall i :: 0 <= i < |rows| ==> j < |rows[i]|
  {
    if rows == [] then 0.0
    else (if labels[0] == cluster then rows[0][j] else 0.0) + ClusterSum(rows[1..], labels[1..], cluster, j)
  }

  lemma {:induction false} MembersAdd(rows: seq<Row>, labels: seq<nat>, cluster: nat, j: nat)
    requires |labels| == |rows| && forall i :: 0 <= i < |rows| ==> j < |rows[i]|
    requires forall i :: 0 <= i < |Members(rows, labels, cluster)| ==> j < |Members(rows, labels, cluster)[i]|
    ensures |Members(rows, labels, cluster)| == ClusterSize(labels, cluster)
    ensures ColumnSum(Members(rows, labels, cluster), j) == ClusterSum(rows, labels, cluster, j)
  {
    if rows != [] {
      var m := Members(rows[1..], labels[1..], cluster);
      assert labels[0] == cluster ==> Members(rows, labels, cluster)[1..] == m;
      forall i | 0 <= i < |m| ensures j < |m[i]| { assert m[i] in rows[1..]; }
      MembersAdd(rows[1..], labels[1..], cluster, j);
    }
  }

  lemma {:induction false} SizeOfMembers(rows: seq<Row>, labels: seq<nat>, cluster: nat)
    requires |labels| == |rows|
    ensures |Members(rows, labels, cluster)| == ClusterSize(labels, cluster)
  {
    if rows != [] { SizeOfMembers(rows[1..], labels[1..], cluster); }
  }

  /** `now` is the mean of the rows labelled `cluster`, or the centroid that was if there are none. */
  predicate IsMoved(rows: seq<Row>, labels: seq<nat>, cluster: nat, was: Row, now: Row)
    requires |labels| == |rows| && Matrix(rows, |was|)
  {
    && |now| == |was|
    && if ClusterSize(labels, cluster) == 0 then now == was
       else forall j :: 0 <= j < |was| ==>
         Times(ClusterSize(labels, cluster), now[j]) == ClusterSum(rows, labels, cluster, j)
  }

  lemma UpdateIsMoved(rows: seq<Row>, labels: seq<nat>, cluster: nat, c: Row)
    requires |labels| == |rows| && Matrix(rows, |c|)
    ensures IsMoved(rows, labels, cluster, c, Update(rows, labels, cluster, c))
  {
    hide Times, ClusterSum, ColumnSum, Mean;
    SizeOfMembers(rows, labels, cluster);
    MembersMatrix(rows, labels, cluster, |c|);
    if Members(rows, labels, cluster) != [] {
      forall j | 0 <= j < |c|
        ensures Times(ClusterSize(labels, cluster), Update(rows, labels, cluster, c)[j])
          == ClusterSum(rows, labels, cluster, j)
      {
        MembersAdd(rows, labels, cluster, j);
        MeanTimesSize(Members(rows, labels, cluster), |c|, j);
      }
    }
  }

  /** Label 1 for exactly the rows strictly closer to c1. */
  predicate IsLabelled(rows: seq<Row>, labels: seq<nat>, c0: Row, c1: Row)
    requires |c0| == |c1| && Matrix(rows, |c0|)
  {
    && |labels| == |rows|
    && forall i :: 0 <= i < |rows| ==> labels[i] == if SqDist(rows[i], c1) < SqDist(rows[i], c0) then 1 else 0
  }

  lemma AssignIsLabelled(rows: seq<Row>, c0: Row, c1: Row)
    requires |c0| == |c1| && Matrix(rows, |c0|)
    ensures IsLabelled(rows, Assign(rows, c0, c1), c0, c1)
  {
    hide Assign, SqDist;
    forall i | 0 <= i < |rows|
      ensures Assign(rows, c0, c1)[i] == if SqDist(rows[i], c1) < SqDist(rows[i], c0) then 1 else 0
    {
      AssignAt(rows, c0, c1, i);
    }
  }

  predicate Pairs(cs: seq<(Row, Row)>, dim: nat) {
    forall k :: 0 <= k < |cs| ==> |cs[k].0| == |cs[k].1| == dim
  }

  /** Labellings one after the other and the centroids they go by: each row goes to the nearer centroid, then each
      centroid moves to the mean of its rows; and no labelling but the last repeats the one before it. */
  predicate IsTrajectory(rows: seq<Row>, dim: nat, ls: seq<seq<nat>>, cs: seq<(Row, Row)>)
    requires Matrix(rows, dim)
  {
    && |ls| == |cs| && Pairs(cs, dim)
    && (forall k :: 0 <= k < |ls| ==> IsLabelled(rows, ls[k], cs[k].0, cs[k].1))
    && (forall k :: 0 <= k < |ls| - 1 ==>
          IsMoved(rows, ls[k], 0, cs[k].0, cs[k + 1].0) && IsMoved(rows, ls[k], 1, cs[k].1, cs[k + 1].1))
    && (forall k :: 0 <= k < |ls| - 2 ==> ls[k + 1] != ls[k])
  }

  lemma TrajectoryGrows(rows: seq<Row>, dim: nat, l: seq<nat>, c: (Row, Row), ls: seq<seq<nat>>, cs: seq<(Row, Row)>)
    requires Matrix(rows, dim) && |c.0| == |c.1| == dim && IsTrajectory(rows, dim, ls, cs) && ls != []
    requires IsLabelled(rows, l, c.0, c.1)
    requires IsMoved(rows, l, 0, c.0, cs[0].0) && IsMoved(rows, l, 1, c.1, cs[0].1)
    requires |ls| > 1 ==> ls[0] != l
    ensures IsTrajectory(rows, dim, [l] + ls, [c] + cs)
  {
    hide IsLabelled, IsMoved, Matrix;
  }

  /** The loop follows such a trajectory, to a repetition or to its last iteration. */
  lemma {:induction false} LloydIsATrajectory(rows: seq<Row>, labels: Option<seq<nat>>, c0: Row, c1: Row, fuel: nat)
    returns (ls: seq<seq<nat>>, cs: seq<(Row, Row)>)
    requires |c0| == |c1| && Matrix(rows, |c0|) && fuel > 0 && (labels.Some? ==> |labels.value| == |rows|)
    ensures 1 <= |ls| <= fuel && IsTrajectory(rows, |c0|, ls, cs) && cs[0] == (c0, c1)
    ensures Lloyd(rows, labels, c0, c1, fuel).labels == ls[|ls| - 1]
    ensures |ls| < fuel ==> Some(ls[|ls| - 1]) == if |ls| > 1 then Some(ls[|ls| - 2]) else labels
    ensures |ls| > 1 ==> labels != Some(ls[0])
    decreases fuel
  {
    hide Assign, Update, IsLabelled, IsMoved, Matrix;
    var next := Assign(rows, c0, c1);
    AssignIsLabelled(rows, c0, c1);
    if labels == Some(next) || fuel == 1 {
      ls, cs := [next], [(c0, c1)];
    } else {
      var m0, m1 := Update(rows, next, 0, c0), Update(rows, next, 1, c1);
      UpdateIsMoved(rows, next, 0, c0);
      UpdateIsMoved(rows, next, 1, c1);
      var rest, means := LloydIsATrajectory(rows, Some(next), m0, m1, fuel - 1);
      TrajectoryGrows(rows, |c0|, next, (c0, c1), rest, means);
      ls, cs := [next] + rest, [(c0, c1)] + means;
    }
  }

  /** The run that starts from row 0 and the first row farthest from it, and ends at `labels`: at a repetition, or
      because no iteration is left. */
  ghost predicate RunsFromFarthestPair(rows: seq<Row>, dim: nat, maxIterations: int, labels: seq<nat>)
    requires Matrix(rows, dim) && rows != []
  {
    exists far: nat, ls, cs ::
      && IsFarthest(rows, far)
      && 1 <= |ls| <= maxIterations && IsTrajectory(rows, dim, ls, cs) && cs[0] == (rows[0], rows[far])
      && labels == ls[|ls| - 1]
      && (|ls| < maxIterations ==> |ls| > 1 && ls[|ls| - 1] == ls[|ls| - 2])
  }

  lemma StartRunsFromFarthestPair(rows: seq<Row>, dim: nat, maxIterations: nat)
    requires Matrix(rows, dim) && rows != [] && maxIterations > 0
    ensures RunsFromFarthestPair(rows, dim, maxIterations, Start(rows, dim, maxIterations).labels)
  {
    hide Lloyd, IsFarthest, IsTrajectory;
    var far := Farthest(rows, dim);
    var ls, cs := LloydIsATrajectory(rows, None, rows[0], rows[far], maxIterations);
  }

  /** With one iteration row 0, being its own centroid, is in cluster 0. */
  lemma FirstRowIsInZero(rows: seq<Row>, dim: nat, labels: seq<nat>)
    requires Matrix(rows, dim) && rows != [] && RunsFromFarthestPair(rows, dim, 1, labels)
    ensures labels[0] == 0
  {
    hide IsMoved;
    var far: nat, ls, cs :|
      && IsFarthest(rows, far)
      && |ls| == 1 && IsTrajectory(rows, dim, ls, cs) && cs[0] == (rows[0], rows[far]) && labels == ls[0];
    assert SqDist(rows[0], rows[0]) == 0.0;
  }

  lemma FirstIteration(rows: seq<Row>, c0: Row, c1: Row, fuel: nat)
    requires |c0| == |c1| && Matrix(rows, |c0|) && fuel > 0
    ensures var next := Assign(rows, c0, c1);
      Lloyd(rows, None, c0, c1, fuel)
      == Lloyd(rows, Some(next), Update(rows, next, 0, c0), Update(rows, next, 1, c1), fuel - 1)
  {
    hide Assign, Update, Matrix;
  }

  lemma EqualRowsRest(rows: seq<Row>, v: Row, fuel: nat)
    requires Matrix(rows, |v|) && rows != [] && (forall i :: 0 <= i < |rows| ==> rows[i] == v) && fuel >= 2
    ensures Lloyd(rows, None, v, v, fuel).converged
  {
    TiesGoToZero(rows, v);
    AllMembers(rows, Assign(rows, v, v));
    MeanOfEqualRows(rows, v);
    FirstIteration(rows, v, v, fuel);
  }

  lemma TwoClustersRest(rows: seq<Row>, c0: Row, c1: Row, fuel: nat)
    requires |c0| == |c1| && Matrix(rows, |c0|) && BothAlive(Assign(rows, c0, c1))
    requires fuel > PowerOfTwo(|rows|) + 1
    ensures Lloyd(rows, None, c0, c1, fuel).converged
  {
    hide Assign, Update, BothAlive, Centred, Labellings, CentredCost, Lloyd, PowerOfTwo, Matrix;
    var next := Assign(rows, c0, c1);
    StepKeepsClusters(rows, c0, c1);
    LabellingsAreFew(|rows|);
    SmallerSet(Cheaper(rows, next, |c0|), Labellings(|rows|));
    FirstIteration(rows, c0, c1, fuel);
    LloydBreaks(rows, next, Update(rows, next, 0, c0), Update(rows, next, 1, c1), fuel - 1);
  }

  /** Every run comes to rest: no labelling recurs, so with more iterations than there are labellings the loop reaches
      its break. */
  lemma EveryRunConverges(rows: seq<Row>, dim: nat, maxIterations: nat)
    requires Matrix(rows, dim) && rows != [] && maxIterations > PowerOfTwo(|rows|) + 1
    ensures Start(rows, dim, maxIterations).converged
  {
    hide Lloyd, Assign, BothAlive;
    var c0, c1 := rows[0], rows[Farthest(rows, dim)];
    if AllEqualFirst(rows) {
      assert c0 == c1;
      EqualRowsRest(rows, c0, maxIterations);
    } else {
      StartSeparates(rows, dim);
      TwoClustersRest(rows, c0, c1, maxIterations);
    }
  }

  /** `kmeans_two_clusters`. */
  method KMeansTwoClusters(vectors: seq<Row>, ghost dim: nat, maxIterations: int) returns (r: Outcome)
    requires Matrix(vectors, dim)
    ensures |vectors| < 2 ==> r == Labels(seq(|vectors|, _ => 0))
    ensures |vectors| >= 2 && maxIterations <= 0 ==> r == AssertionError
    ensures |vectors| >= 2 && maxIterations > 0 ==>
      && r == Labels(Start(vectors, dim, maxIterations).labels)
      && RunsFromFarthestPair(vectors, dim, maxIterations, r.labels)
      && (BothAlive(r.labels) <==> !AllEqualFirst(vectors))
  {
    if |vectors| == 0 {
      return Labels([]);
    }
    if |vectors| == 1 {
      return Labels([0]);
    }
    if maxIterations <= 0 {
      return AssertionError;
    }
    var far := FindFarthest(vectors, dim);
    var centroids := new Row[2][vectors[0], vectors[far]];
    var labels: Option<seq<nat>> := None;
    var left: nat := maxIterations;
    while left > 0
      invariant |centroids[0]| == |centroids[1]| == dim
      invariant labels.None? ==> left > 0
      invariant labels.Some? ==> |labels.value| == |vectors|
      invariant Lloyd(vectors, labels, centroids[0], centroids[1], left) == Start(vectors, dim, maxIterations)
    {
      var newLabels := Assign(vectors, centroids[0], centroids[1]);
      if labels == Some(newLabels) {
        labels := Some(newLabels);
        break;
      }
      labels := Some(newLabels);
      MoveCentroids(vectors, dim, newLabels, centroids);
      left := left - 1;
    }
    TwoClustersIffRowsDiffer(vectors, dim, maxIterations);
    StartRunsFromFarthestPair(vectors, dim, maxIterations);
    return Labels(labels.value);
  }

  /** The inner `for cluster in (0, 1)` loop: each non-empty cluster moves its centroid, in place. */
  method MoveCentroids(vectors: seq<Row>, ghost dim: nat, labels: seq<nat>, centroids: array<Row>)
    requires Matrix(vectors, dim) && |labels| == |vectors| && centroids.Length == 2
    requires |centroids[0]| == |centroids[1]| == dim
    modifies centroids
    ensures centroids[0] == Update(vectors, labels, 0, old(centroids[0]))
    ensures centroids[1] == Update(vectors, labels, 1, old(centroids[1]))
  {
    for cluster := 0 to 2
      invariant |centroids[0]| == |centroids[1]| == dim
      invariant centroids[0] == if cluster > 0 then Update(vectors, labels, 0, old(centroids[0])) else old(centroids[0])
      invariant centroids[1] == if cluster > 1 then Update(vectors, labels, 1, old(centroids[1])) else old(centroids[1])
    {
      var mask := Members(vectors, labels, cluster);
      if mask != [] {
        MembersMatrix(vectors, labels, cluster, dim);
        centroids[cluster] := Mean(mask, |centroids[cluster]|);
      }
    }
  }

  method FindFarthest(vectors: seq<Row>, ghost dim: nat) returns (k: nat)
    requires Matrix(vectors, dim) && vectors != []
    ensures k == Farthest(vectors, dim)
  {
    k := ArgMax(seq(|vectors|, i requires 0 <= i < |vectors| => SqDist(vectors[i], vectors[0])));
  }
}
