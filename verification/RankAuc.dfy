/** Tie-averaged ranks and the rank-sum AUC of `ml/data/alignment_signal.py`, over exact reals. */
module RankAuc {
  import opened Reals
  import opened StableSort

  datatype Result<T> = Ok(value: T) | ValueError

  // ------------------------------------------------------- counting definitions

  /** How many values lie strictly below v. */
  function Below(values: seq<real>, v: real): nat {
    if values == [] then 0 else (if values[0] < v then 1 else 0) + Below(values[1..], v)
  }

  /** How many values equal v. */
  function Equal(values: seq<real>, v: real): nat {
    if values == [] then 0 else (if values[0] == v then 1 else 0) + Equal(values[1..], v)
  }

  /** The average of the 1-based positions v's copies take in ascending order. */
  function AverageRank(values: seq<real>, v: real): real {
    Below(values, v) as real + (Equal(values, v) as real + 1.0) / 2.0
  }

  // Counting is additive over concatenation, hence blind to the order of the values.
  lemma {:induction false} CountsAppend(a: seq<real>, b: seq<real>, v: real)
    ensures Below(a + b, v) == Below(a, v) + Below(b, v)
    ensures Equal(a + b, v) == Equal(a, v) + Equal(b, v)
  {
    if a == [] {
      assert a + b == b;
    } else {
      assert (a + b)[1..] == a[1..] + b;
      CountsAppend(a[1..], b, v);
    }
  }

  // -------------------------------------------------------------- sorted values

  function Gather(values: seq<real>, order: seq<nat>): (s: seq<real>)
    requires Positions(order, |values|)
    ensures |s| == |order| && forall k :: 0 <= k < |s| ==> s[k] == values[order[k]]
  {
    seq(|order|, k requires 0 <= k < |order| => values[order[k]])
  }

  lemma GatherSnoc(values: seq<real>, init: seq<nat>, last: nat)
    requires Positions(init, |values|) && last < |values|
    ensures Gather(values, init + [last]) == Gather(values, init) + [values[last]]
  {
  }

  lemma {:induction false} InsertAddsCount(values: seq<real>, order: seq<nat>, i: nat, v: real)
    requires i < |values| && Positions(order, |values|)
    ensures var r, g := Gather(values, Insert(values, order, i)), Gather(values, order);
      && Below(r, v) == Below(g, v) + (if values[i] < v then 1 else 0)
      && Equal(r, v) == Equal(g, v) + (if values[i] == v then 1 else 0)
  {
    hide Gather;
    if order == [] {
      assert Gather(values, [i]) == [values[i]];
    } else {
      var init, last := order[..|order| - 1], order[|order| - 1];
      assert order == init + [last];
      GatherSnoc(values, init, last);
      CountsAppend(Gather(values, init), [values[last]], v);
      if values[i] < values[last] {
        InsertAddsCount(values, init, i, v);
        GatherSnoc(values, Insert(values, init, i), last);
        CountsAppend(Gather(values, Insert(values, init, i)), [values[last]], v);
      } else {
        GatherSnoc(values, order, i);
        CountsAppend(Gather(values, order), [values[i]], v);
      }
    }
  }

  /** Sorting keeps the values. */
  lemma {:induction false} SortKeepsCounts(values: seq<real>, n: nat, v: real)
    requires n <= |values|
    ensures var sorted := Gather(values, ArgSort(values, n));
      Below(sorted, v) == Below(values[..n], v) && Equal(sorted, v) == Equal(values[..n], v)
  {
    if n > 0 {
      SortKeepsCounts(values, n - 1, v);
      InsertAddsCount(values, ArgSort(values, n - 1), n - 1, v);
      assert values[..n] == values[..n - 1] + [values[n - 1]];
      CountsAppend(values[..n - 1], [values[n - 1]], v);
    }
  }

  // ------------------------------------------------- ranks read off a sorted list

  predicate Ascending(s: seq<real>) {
    forall j, k :: 0 <= j < k < |s| ==> s[j] <= s[k]
  }

  lemma {:induction false} CountsOfConstant(s: seq<real>, v: real)
    requires forall k :: 0 <= k < |s| ==> s[k] == v
    ensures Below(s, v) == 0 && Equal(s, v) == |s|
  {
    if s != [] { CountsOfConstant(s[1..], v); }
  }

  lemma {:induction false} CountsOfSmaller(s: seq<real>, v: real)
    requires forall k :: 0 <= k < |s| ==> s[k] < v
    ensures Below(s, v) == |s| && Equal(s, v) == 0
  {
    if s != [] { CountsOfSmaller(s[1..], v); }
  }

  lemma {:induction false} CountsOfLarger(s: seq<real>, v: real)
    requires forall k :: 0 <= k < |s| ==> v < s[k]
    ensures Below(s, v) == 0 && Equal(s, v) == 0
  {
    if s != [] { CountsOfLarger(s[1..], v); }
  }

  /** A maximal tied block [i, j) of a sorted list starts after everything smaller. */
  lemma TiedBlockCounts(s: seq<real>, i: nat, j: nat)
    requires Ascending(s) && TiedBlock(s, i, j)
    ensures AverageRank(s, s[i]) == (i + 1 + j) as real / 2.0
  {
    AroundBlock(s, i, j);
    BlockCounts(s[..i], s[i..j], s[j..], s[i]);
    SplitInThree(s, i, j);
  }

  lemma AroundBlock(s: seq<real>, i: nat, j: nat)
    requires Ascending(s) && TiedBlock(s, i, j)
    ensures forall k :: 0 <= k < i ==> s[k] < s[i]
    ensures forall k :: j <= k < |s| ==> s[i] < s[k]
  {
    forall k | 0 <= k < i ensures s[k] < s[i] { assert s[k] <= s[i - 1] <= s[i]; }
    forall k | j <= k < |s| ensures s[i] < s[k] { assert s[i] <= s[j] <= s[k]; }
  }

  lemma SplitInThree(s: seq<real>, i: nat, j: nat)
    requires i <= j <= |s|
    ensures s == s[..i] + (s[i..j] + s[j..])
  {
  }

  lemma BlockCounts(low: seq<real>, mid: seq<real>, high: seq<real>, v: real)
    requires forall k :: 0 <= k < |low| ==> low[k] < v
    requires forall k :: 0 <= k < |mid| ==> mid[k] == v
    requires forall k :: 0 <= k < |high| ==> v < high[k]
    ensures Below(low + (mid + high), v) == |low| && Equal(low + (mid + high), v) == |mid|
  {
    CountsAppend(low, mid + high, v);
    CountsAppend(mid, high, v);
    CountsOfSmaller(low, v);
    CountsOfConstant(mid, v);
    CountsOfLarger(high, v);
  }

  predicate TiedBlock(s: seq<real>, i: nat, j: nat) {
    i < j <= |s| && (forall k :: i <= k < j ==> s[k] == s[i])
    && (i > 0 ==> s[i - 1] != s[i]) && (j < |s| ==> s[j] != s[i])
  }

  /** The scan over the sorted values that fills in one average rank per tied block. */
  method RankSorted(sorted: seq<real>) returns (ranks: array<real>)
    requires Ascending(sorted)
    ensures fresh(ranks) && ranks.Length == |sorted|
    ensures forall k :: 0 <= k < |sorted| ==> ranks[k] == AverageRank(sorted, sorted[k])
  {
    ranks := new real[|sorted|];
    var i := 0;
    while i < |sorted|
      invariant 0 <= i <= |sorted|
      invariant 0 < i < |sorted| ==> sorted[i - 1] != sorted[i]
      invariant forall k :: 0 <= k < i ==> ranks[k] == AverageRank(sorted, sorted[k])
    {
      var j := i;
      while j < |sorted| && sorted[j] == sorted[i]
        invariant i <= j <= |sorted|
        invariant forall k :: i <= k < j ==> sorted[k] == sorted[i]
      {
        j := j + 1;
      }
      var averageRank := (i + 1 + j) as real / 2.0;
      FillRange(ranks, i, j, averageRank);
      TiedBlockCounts(sorted, i, j);
      i := j;
    }
  }

  /** `ranks_for_sorted[i:j] = average_rank`. */
  method FillRange(a: array<real>, i: nat, j: nat, v: real)
    requires i <= j <= a.Length
    modifies a
    ensures forall k :: 0 <= k < a.Length ==> a[k] == if i <= k < j then v else old(a[k])
  {
    for k := i to j
      invariant forall m :: 0 <= m < a.Length ==> a[m] == if i <= m < k then v else old(a[m])
    {
      a[k] := v;
    }
  }

  /** `_average_ranks`: sort, scan the tied blocks, scatter the block averages back. */
  method AverageRanks(values: seq<real>) returns (result: seq<real>)
    ensures |result| == |values|
    ensures forall k :: 0 <= k < |values| ==> result[k] == AverageRank(values, values[k])
  {
    hide ArgSort;
    var n := |values|;
    var order := ArgSort(values, n);
    ArgSortSorts(values, n);
    var sorted := Gather(values, order);
    assert values[..n] == values;
    assert forall j, k :: 0 <= j < k < n ==> Before(values, order[j], order[k]) ==> sorted[j] <= sorted[k];
    var ranksForSorted := RankSorted(sorted);
    var ranks := Scatter(values, order, ranksForSorted[..]);
    forall p | 0 <= p < n ensures ranks[p] == AverageRank(values, values[p]) {
      ArgSortVisits(values, n, p);
      var k :| 0 <= k < n && order[k] == p;
      SortKeepsCounts(values, n, values[p]);
    }
    return ranks;
  }

  /** `ranks[order] = ranks_for_sorted`: a sorted order hits no position twice. */
  method Scatter(ghost values: seq<real>, order: seq<nat>, sortedRanks: seq<real>) returns (result: seq<real>)
    requires |order| == |sortedRanks| == |values| && StablySorted(values, order)
    ensures |result| == |values|
    ensures forall k :: 0 <= k < |order| ==> result[order[k]] == sortedRanks[k]
  {
    var ranks := new real[|order|];
    for k := 0 to |order|
      invariant forall m :: 0 <= m < k ==> ranks[order[m]] == sortedRanks[m]
    {
      assert forall m :: 0 <= m < k ==> Before(values, order[m], order[k]);
      ranks[order[k]] := sortedRanks[k];
    }
    return ranks[..];
  }

  // ------------------------------------------------------------------------- AUC

  /** What one (positive, negative) comparison is worth: a win 1, a tie 1/2. */
  function Score(p: real, n: real): real {
    if p > n then 1.0 else if p == n then 0.5 else 0.0
  }

  function ScoreAgainst(p: real, negatives: seq<real>): (s: real)
    ensures 0.0 <= s <= |negatives| as real
  {
    if negatives == [] then 0.0 else Score(p, negatives[0]) + ScoreAgainst(p, negatives[1..])
  }

  /** Wins plus half the ties, over all pairs. */
  function PairScore(positives: seq<real>, negatives: seq<real>): real {
    if positives == [] then 0.0 else ScoreAgainst(positives[0], negatives) + PairScore(positives[1..], negatives)
  }

  function RankSum(all: seq<real>, positives: seq<real>): real {
    if positives == [] then 0.0 else AverageRank(all, positives[0]) + RankSum(all, positives[1..])
  }

  lemma {:induction false} RankIsScore(values: seq<real>, v: real)
    ensures AverageRank(values, v) == ScoreAgainst(v, values) + 0.5
  {
    if values != [] { RankIsScore(values[1..], v); }
  }

  lemma {:induction false} ScoreAgainstAppend(v: real, a: seq<real>, b: seq<real>)
    ensures ScoreAgainst(v, a + b) == ScoreAgainst(v, a) + ScoreAgainst(v, b)
  {
    if a == [] {
      assert a + b == b;
    } else {
      assert (a + b)[1..] == a[1..] + b;
      ScoreAgainstAppend(v, a[1..], b);
    }
  }

  // The score of a column: everything in `values` played against one opponent v.
  lemma {:induction false} PairScoreColumn(values: seq<real>, v: real, rest: seq<real>)
    ensures PairScore(values, [v] + rest) == PairScore(values, [v]) + PairScore(values, rest)
  {
    if values != [] {
      PairScoreColumn(values[1..], v, rest);
      ScoreAgainstAppend(values[0], [v], rest);
    }
  }

  lemma {:induction false} ColumnAndRow(values: seq<real>, v: real)
    ensures PairScore(values, [v]) + ScoreAgainst(v, values) == |values| as real
  {
    if values != [] { ColumnAndRow(values[1..], v); }
  }

  /** Every pair is worth 1 in the two directions together. */
  lemma {:induction false} PairScoreDuality(a: seq<real>, b: seq<real>)
    ensures PairScore(a, b) + PairScore(b, a) == (|a| * |b|) as real
  {
    if a == [] {
      EmptyColumn(b);
    } else {
      PairScoreDuality(a[1..], b);
      ColumnAndRow(b, a[0]);
      PairScoreColumn(b, a[0], a[1..]);
      assert a == [a[0]] + a[1..];
      assert |a| * |b| == |b| + |a[1..]| * |b|;
    }
  }

  lemma {:induction false} EmptyColumn(b: seq<real>)
    ensures PairScore(b, []) == 0.0
  {
    if b != [] { EmptyColumn(b[1..]); }
  }

  lemma {:induction false} PairScoreBounds(a: seq<real>, b: seq<real>)
    ensures 0.0 <= PairScore(a, b) <= (|a| * |b|) as real
  {
    if a != [] {
      PairScoreBounds(a[1..], b);
      assert |a| * |b| == |b| + |a[1..]| * |b|;
    }
  }

  lemma {:induction false} RankSumSplits(positives: seq<real>, a: seq<real>, b: seq<real>)
    ensures RankSum(a + b, positives) == PairScore(positives, a) + PairScore(positives, b) + 0.5 * |positives| as real
  {
    if positives != [] {
      RankSumSplits(positives[1..], a, b);
      RankIsScore(a + b, positives[0]);
      ScoreAgainstAppend(positives[0], a, b);
    }
  }

  /** The rank sum of the positives, less its smallest possible value, counts the pairs they win. */
  lemma RankSumCountsPairs(positives: seq<real>, negatives: seq<real>)
    ensures var n := |positives|;
      RankSum(positives + negatives, positives) - (n * (n + 1)) as real / 2.0 == PairScore(positives, negatives)
  {
    var n := |positives|;
    RankSumSplits(positives, positives, negatives);
    PairScoreDuality(positives, positives);
    assert n * (n + 1) == n * n + n;
  }

  /** The Mann-Whitney statistic, normalised. */
  function Auc(positives: seq<real>, negatives: seq<real>): real
    requires positives != [] && negatives != []
  {
    ProductPositive(|positives|, |negatives|);
    PairScore(positives, negatives) / (|positives| * |negatives|) as real
  }

  lemma ProductPositive(a: nat, b: nat)
    requires a > 0 && b > 0
    ensures a * b > 0
  {
  }

  /** An AUC is a probability. */
  lemma AucInUnitInterval(positives: seq<real>, negatives: seq<real>)
    requires positives != [] && negatives != []
    ensures 0.0 <= Auc(positives, negatives) <= 1.0
  {
    PairScoreBounds(positives, negatives);
    ProductPositive(|positives|, |negatives|);
    QuotientBounds(PairScore(positives, negatives), (|positives| * |negatives|) as real);
  }

  lemma QuotientBounds(s: real, m: real)
    requires 0.0 <= s <= m && m > 0.0
    ensures 0.0 <= s / m <= 1.0
  {
    var q := s / m;
    assert q * m == s;
    if q > 1.0 { LargerProduct(1.0, q, m); }
  }

  /** Exchanging the two groups complements the AUC. */
  lemma AucComplement(positives: seq<real>, negatives: seq<real>)
    requires positives != [] && negatives != []
    ensures Auc(positives, negatives) + Auc(negatives, positives) == 1.0
  {
    PairScoreDuality(positives, negatives);
    ProductPositive(|positives|, |negatives|);
    var m := (|positives| * |negatives|) as real;
    assert |negatives| * |positives| == |positives| * |negatives|;
    QuotientSum(PairScore(positives, negatives), PairScore(negatives, positives), m);
  }

  lemma QuotientSum(s: real, t: real, m: real)
    requires s + t == m && m > 0.0
    ensures s / m + t / m == 1.0
  {
  }

  lemma {:induction false} SumOfRanks(all: seq<real>, positives: seq<real>, ranks: seq<real>)
    requires |ranks| == |positives| && forall k :: 0 <= k < |ranks| ==> ranks[k] == AverageRank(all, positives[k])
    ensures Sum(ranks) == RankSum(all, positives)
  {
    if ranks != [] { SumOfRanks(all, positives[1..], ranks[1..]); }
  }

  /** `auc_separation`. */
  method AucSeparation(positives: seq<real>, negatives: seq<real>) returns (r: Result<real>)
    ensures r.ValueError? <==> positives == [] || negatives == []
    ensures r.Ok? ==> r.value == Auc(positives, negatives)
  {
    var nPos, nNeg := |positives|, |negatives|;
    if nPos == 0 || nNeg == 0 {
      return ValueError;
    }
    var combined := positives + negatives;
    var ranks := AverageRanks(combined);
    var positiveRankSum := Sum(ranks[..nPos]);
    SumOfRanks(combined, positives, ranks[..nPos]);
    RankSumCountsPairs(positives, negatives);
    ProductPositive(nPos, nNeg);
    return Ok((positiveRankSum - (nPos * (nPos + 1)) as real / 2.0) / (nPos * nNeg) as real);
  }
}
