/** The label-smoothing rectification of `ml/evaluation/length_bias.py`, Eq. 4 of arXiv:2205.00659, over reals. */
module LengthBias {
  import opened Reals

  predicate NonNegative(p: seq<real>) {
    forall i :: 0 <= i < |p| ==> p[i] >= 0.0
  }

  predicate Distribution(p: seq<real>) {
    NonNegative(p) && Sum(p) == 1.0
  }

  function Relu(x: real): real {
    if x < 0.0 then 0.0 else x
  }

  /** `np.clip(probs - delta, 0, None)`. */
  function Clip(p: seq<real>, delta: real): (c: seq<real>)
    ensures |c| == |p| && forall i :: 0 <= i < |p| ==> c[i] == Relu(p[i] - delta)
  {
    if p == [] then [] else [Relu(p[0] - delta)] + Clip(p[1..], delta)
  }

  function Divide(p: seq<real>, t: real): (r: seq<real>)
    requires t != 0.0
    ensures |r| == |p|
  {
    if p == [] then [] else [p[0] / t] + Divide(p[1..], t)
  }

  lemma {:induction false} DivideAt(p: seq<real>, t: real, i: nat)
    requires t != 0.0 && i < |p|
    ensures Divide(p, t)[i] == p[i] / t
  {
    if i > 0 { DivideAt(p[1..], t, i - 1); }
  }

  lemma {:induction false} DivideByOne(p: seq<real>)
    ensures Divide(p, 1.0) == p
  {
    if p != [] {
      DivideByOne(p[1..]);
      assert p == [p[0]] + p[1..];
    }
  }

  /** `rectify_probabilities` on one row. */
  function Rectify(p: seq<real>, delta: real): (r: seq<real>)
    requires Sum(p) != 0.0
    ensures |r| == |p|
  {
    var rectified := Clip(p, delta);
    var rowSum := Sum(rectified);
    if rowSum <= 0.0 then Divide(p, Sum(p)) else Divide(rectified, rowSum)
  }

  /** `rectify_probabilities` on a batch: each row on its own. */
  function RectifyBatch(rows: seq<seq<real>>, delta: real): (r: seq<seq<real>>)
    requires forall i :: 0 <= i < |rows| ==> Sum(rows[i]) != 0.0
    ensures |r| == |rows| && forall i :: 0 <= i < |rows| ==> r[i] == Rectify(rows[i], delta)
  {
    seq(|rows|, i requires 0 <= i < |rows| => Rectify(rows[i], delta))
  }

  // ----------------------------------------------------------------------- sums

  lemma {:induction false} SumOfDivide(p: seq<real>, t: real)
    requires t != 0.0
    ensures Sum(Divide(p, t)) == Sum(p) / t
  {
    if p != [] {
      SumOfDivide(p[1..], t);
      assert Divide(p, t)[1..] == Divide(p[1..], t);
      AddQuotients(p[0], Sum(p[1..]), t);
    }
  }

  lemma AddQuotients(x: real, y: real, t: real)
    requires t != 0.0
    ensures x / t + y / t == (x + y) / t
  {
  }

  lemma {:induction false} SumIsNonNegative(p: seq<real>)
    requires NonNegative(p)
    ensures Sum(p) >= 0.0
    ensures Sum(p) == 0.0 <==> forall i :: 0 <= i < |p| ==> p[i] == 0.0
  {
    if p != [] {
      SumIsNonNegative(p[1..]);
      assert forall i :: 0 < i < |p| ==> p[i] == p[1..][i - 1];
      assert forall i :: 0 <= i < |p| - 1 ==> p[1..][i] == p[i + 1];
    }
  }

  // ------------------------------------------------------------------- theorems

  /** No entry survives the clip. */
  predicate AllClipped(p: seq<real>, delta: real) {
    forall i :: 0 <= i < |p| ==> p[i] <= delta
  }

  /** The fallback row is taken exactly when delta reaches every entry. */
  lemma FallbackIffAllClipped(p: seq<real>, delta: real)
    ensures Sum(Clip(p, delta)) >= 0.0
    ensures Sum(Clip(p, delta)) == 0.0 <==> AllClipped(p, delta)
  {
    var c := Clip(p, delta);
    SumIsNonNegative(c);
    if forall i :: 0 <= i < |p| ==> c[i] == 0.0 {
      forall i | 0 <= i < |p| ensures p[i] <= delta { assert c[i] == 0.0; }
    } else {
      var i :| 0 <= i < |p| && c[i] != 0.0;
      assert p[i] > delta;
    }
  }

  /** A rectified distribution is a distribution, whatever delta is. */
  lemma RectifyIsDistribution(p: seq<real>, delta: real)
    requires Distribution(p)
    ensures Distribution(Rectify(p, delta))
  {
    var c := Clip(p, delta);
    FallbackIffAllClipped(p, delta);
    if Sum(c) <= 0.0 {
      DivideByOne(p);
    } else {
      SumOfDivide(c, Sum(c));
      SelfQuotient(Sum(c));
      forall i | 0 <= i < |p| ensures Divide(c, Sum(c))[i] >= 0.0 {
        DivideAt(c, Sum(c), i);
        QuotientOrder(c[i], 0.0, Sum(c));
        QuotientOrder(0.0, c[i], Sum(c));
      }
    }
  }

  lemma CrossShares(r: real, s: real, x: real, y: real, t: real)
    requires t != 0.0 && r == x / t && s == y / t
    ensures r * y == s * x
  {
  }

  /** What is left of an entry above delta. */
  function Excess(x: real, delta: real): real {
    if x > delta then x - delta else 0.0
  }

  lemma ShareOfExcess(p: seq<real>, delta: real, t: real, i: nat)
    requires t != 0.0 && i < |p|
    ensures Divide(Clip(p, delta), t)[i] == Excess(p[i], delta) / t
  {
    var c := Clip(p, delta);
    assert c[i] == Excess(p[i], delta);
    DivideAt(c, t, i);
  }

  /** Two entries are to each other as what is left of them. */
  predicate InProportion(r: seq<real>, p: seq<real>, delta: real, i: nat, j: nat)
    requires |r| == |p| && i < |p| && j < |p|
  {
    r[i] * Excess(p[j], delta) == r[j] * Excess(p[i], delta)
  }

  /** Eq. 4: the entries are shared out in proportion to what is left of them above delta, unless nothing is left of
      any; then the distribution stays as it is. */
  lemma RectifyIsProportional(p: seq<real>, delta: real)
    requires Distribution(p)
    ensures AllClipped(p, delta) ==> Rectify(p, delta) == p
    ensures !AllClipped(p, delta) ==>
      forall i, j :: 0 <= i < |p| && 0 <= j < |p| ==> InProportion(Rectify(p, delta), p, delta, i, j)
  {
    hide Clip, Divide, Excess, AllClipped, InProportion;
    FallbackIffAllClipped(p, delta);
    DivideByOne(p);
    if !AllClipped(p, delta) {
      forall i, j | 0 <= i < |p| && 0 <= j < |p| ensures InProportion(Rectify(p, delta), p, delta, i, j) {
        SharesAreInProportion(p, delta, Sum(Clip(p, delta)), i, j);
      }
    }
  }

  lemma SharesAreInProportion(p: seq<real>, delta: real, t: real, i: nat, j: nat)
    requires t != 0.0 && i < |p| && j < |p|
    ensures InProportion(Divide(Clip(p, delta), t), p, delta, i, j)
  {
    hide Clip, Divide, Excess;
    ShareOfExcess(p, delta, t, i);
    ShareOfExcess(p, delta, t, j);
    var r := Divide(Clip(p, delta), t);
    CrossShares(r[i], r[j], Excess(p[i], delta), Excess(p[j], delta), t);
  }

  /** So is every row of a batch. */
  lemma BatchIsDistributions(rows: seq<seq<real>>, delta: real)
    requires forall i :: 0 <= i < |rows| ==> NonNegative(rows[i]) && Sum(rows[i]) == 1.0
    ensures |RectifyBatch(rows, delta)| == |rows|
    ensures forall i :: 0 <= i < |rows| ==> Distribution(RectifyBatch(rows, delta)[i])
  {
    forall i | 0 <= i < |rows|
      ensures Distribution(RectifyBatch(rows, delta)[i])
    {
      RectifyIsDistribution(rows[i], delta);
    }
  }

  lemma SelfQuotient(t: real)
    requires t != 0.0
    ensures t / t == 1.0
  {
  }

  lemma QuotientOrder(x: real, y: real, t: real)
    requires t > 0.0
    ensures x < y <==> x / t < y / t
    ensures x == 0.0 ==> x / t == 0.0
  {
    var u, v := x / t, y / t;
    assert u * t == x && v * t == y;
    if u < v { LargerProduct(u, v, t); } else if v < u { LargerProduct(v, u, t); }
  }

  /** Order between tokens is kept, and is blurred only between two tokens that are both clipped away. */
  lemma RectifyKeepsOrder(p: seq<real>, delta: real, i: nat, j: nat)
    requires Distribution(p) && i < |p| && j < |p|
    ensures Rectify(p, delta)[i] < Rectify(p, delta)[j] <==> p[i] < p[j] && (delta < p[j] || AllClipped(p, delta))
  {
    var c := Clip(p, delta);
    FallbackIffAllClipped(p, delta);
    if Sum(c) <= 0.0 {
      DivideByOne(p);
    } else {
      DivideAt(c, Sum(c), i);
      DivideAt(c, Sum(c), j);
      QuotientOrder(c[i], c[j], Sum(c));
    }
  }

  /** delta = 0 changes nothing. */
  lemma ZeroDeltaIsIdentity(p: seq<real>)
    requires Distribution(p)
    ensures Rectify(p, 0.0) == p
  {
    assert Clip(p, 0.0) == p;
    DivideByOne(p);
  }

  /** What a model trained with label smoothing `a` learns instead of q (Eq. 2 of the paper). */
  function Smooth(q: seq<real>, a: real, floor: real): (p: seq<real>)
    ensures |p| == |q|
  {
    if q == [] then [] else [Mix(q[0], a, floor)] + Smooth(q[1..], a, floor)
  }

  function Mix(x: real, a: real, floor: real): real {
    (1.0 - a) * x + floor
  }

  lemma {:induction false} SmoothIsNonNegative(q: seq<real>, a: real, floor: real)
    requires NonNegative(q) && a <= 1.0 && floor >= 0.0
    ensures NonNegative(Smooth(q, a, floor))
  {
    if q != [] {
      SmoothIsNonNegative(q[1..], a, floor);
      ProductIsNonNegative(1.0 - a, q[0]);
    }
  }

  /** At a = 1 nothing of q is left. */
  lemma {:induction false} SmoothAwayEverything(q: seq<real>, floor: real, i: nat)
    requires i < |q|
    ensures Smooth(q, 1.0, floor)[i] == floor
  {
    if i > 0 { SmoothAwayEverything(q[1..], floor, i - 1); }
  }

  predicate Uniform(q: seq<real>) {
    forall i :: 0 <= i < |q| ==> q[i] == Share(1.0, |q|)
  }

  lemma Distribute(s: real, x: real, y: real)
    ensures s * x + s * y == s * (x + y)
  {
  }

  lemma {:induction false} SumOfSmooth(q: seq<real>, a: real, floor: real)
    ensures Sum(Smooth(q, a, floor)) == (1.0 - a) * Sum(q) + |q| as real * floor
  {
    if q != [] {
      SumOfSmooth(q[1..], a, floor);
      assert Smooth(q, a, floor)[1..] == Smooth(q[1..], a, floor);
      Distribute(1.0 - a, q[0], Sum(q[1..]));
      assert |q| as real == |q[1..]| as real + 1.0;
      Distribute(floor, |q[1..]| as real, 1.0);
    }
  }

  /** The share of the smoothing mass each of the V tokens receives. */
  function Share(a: real, v: nat): (floor: real)
    requires v > 0
    ensures v as real * floor == a
    ensures a >= 0.0 ==> floor >= 0.0
  {
    ShareTimes(a, v as real);
    a / v as real
  }

  lemma ShareTimes(a: real, n: real)
    requires n > 0.0
    ensures n * (a / n) == a
    ensures a >= 0.0 ==> a / n >= 0.0
  {
    QuotientOrder(a, 0.0, n);
    QuotientOrder(0.0, a, n);
  }

  /** A smoothed distribution is a distribution. */
  lemma SmoothIsDistribution(q: seq<real>, a: real)
    requires Distribution(q) && 0.0 <= a <= 1.0
    ensures |q| > 0 && Distribution(Smooth(q, a, Share(a, |q|)))
  {
    SumOfSmooth(q, a, Share(a, |q|));
    SmoothIsNonNegative(q, a, Share(a, |q|));
  }

  lemma ProductIsNonNegative(x: real, y: real)
    requires x >= 0.0 && y >= 0.0
    ensures x * y >= 0.0
  {
  }

  /** Clipping at the share leaves (1-a)q. */
  lemma {:induction false} ClipOfSmooth(q: seq<real>, a: real, floor: real)
    requires NonNegative(q) && 0.0 <= a <= 1.0
    ensures Clip(Smooth(q, a, floor), floor) == Smooth(q, a, 0.0)
  {
    if q != [] {
      ClipOfSmooth(q[1..], a, floor);
      ProductIsNonNegative(1.0 - a, q[0]);
      assert Smooth(q, a, floor)[1..] == Smooth(q[1..], a, floor);
    }
  }

  lemma {:induction false} DivideUndoesSmooth(q: seq<real>, a: real)
    requires a != 1.0
    ensures Divide(Smooth(q, a, 0.0), 1.0 - a) == q
  {
    if q != [] {
      DivideUndoesSmooth(q[1..], a);
      Cancel(a, q[0]);
      assert Smooth(q, a, 0.0)[1..] == Smooth(q[1..], a, 0.0);
      assert q == [q[0]] + q[1..];
    }
  }

  lemma Cancel(a: real, x: real)
    requires a != 1.0
    ensures Mix(x, a, 0.0) / (1.0 - a) == x
  {
    var t, m := 1.0 - a, Mix(x, a, 0.0);
    var v := m / t;
    assert v * t == m == x * t;
    if v != x { NonZeroProduct(v - x, t); }
  }

  lemma NonZeroProduct(d: real, t: real)
    requires d != 0.0 && t != 0.0
    ensures d * t != 0.0
  {
    var e, u := if d > 0.0 then d else -d, if t > 0.0 then t else -t;
    LargerProduct(0.0, e, u);
    assert e * u == d * t || e * u == -(d * t);
  }

  /** At delta = a/V the rectification undoes label smoothing exactly: for every q as long as a < 1, and at
      a = 1 (where smoothing has erased q) only for the uniform distribution. */
  lemma RectifyInvertsSmoothing(q: seq<real>, a: real)
    requires Distribution(q) && 0.0 <= a <= 1.0 && |q| > 0
    ensures var floor := Share(a, |q|);
      && Distribution(Smooth(q, a, floor))
      && (Rectify(Smooth(q, a, floor), floor) == q <==> a < 1.0 || Uniform(q))
  {
    SmoothIsDistribution(q, a);
    ClipOfSmooth(q, a, Share(a, |q|));
    SumOfSmooth(q, a, 0.0);
    if a < 1.0 {
      DivideUndoesSmooth(q, a);
    } else {
      FullySmoothed(q);
    }
  }

  lemma FullySmoothed(q: seq<real>)
    requires |q| > 0 && Distribution(Smooth(q, 1.0, Share(1.0, |q|)))
    ensures Divide(Smooth(q, 1.0, Share(1.0, |q|)), 1.0) == q <==> Uniform(q)
  {
    var floor := Share(1.0, |q|);
    var p := Smooth(q, 1.0, floor);
    DivideByOne(p);
    forall i | 0 <= i < |q| ensures p[i] == floor { SmoothAwayEverything(q, floor, i); }
    ConstantRow(p, q, floor);
  }

  lemma ConstantRow(p: seq<real>, q: seq<real>, v: real)
    requires |p| == |q| && forall i :: 0 <= i < |p| ==> p[i] == v
    ensures p == q <==> forall i :: 0 <= i < |q| ==> q[i] == v
  {
    if p != q {
      var i :| 0 <= i < |q| && p[i] != q[i];
    }
  }
}
