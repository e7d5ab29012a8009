/** A stable argsort: the positions of a key sequence, by key and then by position. */
module StableSort {
  /** Position p comes before position q: by value, and by position among equal keys. */
  predicate Before(keys: seq<real>, p: nat, q: nat)
    requires p < |keys| && q < |keys|
  {
    keys[p] < keys[q] || (keys[p] == keys[q] && p < q)
  }

  predicate StablySorted(keys: seq<real>, order: seq<nat>) {
    Positions(order, |keys|)
    && forall j, k :: 0 <= j < k < |order| ==> Before(keys, order[j], order[k])
  }

  /** Position i put behind the last entry of `order` whose value does not exceed its own. */
  function Insert(keys: seq<real>, order: seq<nat>, i: nat): (r: seq<nat>)
    requires i < |keys| && Positions(order, |keys|)
    ensures Positions(r, |keys|) && |r| == |order| + 1
  {
    if order == [] then [i]
    else
      var init, last := order[..|order| - 1], order[|order| - 1];
      if keys[i] < keys[last] then Insert(keys, init, i) + [last] else order + [i]
  }

  predicate Positions(order: seq<nat>, n: nat) {
    forall k :: 0 <= k < |order| ==> order[k] < n
  }

  /** `np.argsort(keys, kind="stable")`, restricted to the first n positions. */
  function ArgSort(keys: seq<real>, n: nat): (order: seq<nat>)
    requires n <= |keys|
    ensures Positions(order, |keys|) && |order| == n
  {
    if n == 0 then [] else Insert(keys, ArgSort(keys, n - 1), n - 1)
  }

  lemma {:induction false} InsertKeepsEntries(keys: seq<real>, order: seq<nat>, i: nat, q: nat)
    requires i < |keys| && Positions(order, |keys|)
    ensures q in Insert(keys, order, i) <==> q in order || q == i
  {
    if order != [] {
      var init, last := order[..|order| - 1], order[|order| - 1];
      assert order == init + [last];
      if keys[i] < keys[last] { InsertKeepsEntries(keys, init, i, q); }
    }
  }

  lemma InsertedComesBefore(keys: seq<real>, order: seq<nat>, i: nat, k: nat)
    requires i < |keys| && Positions(order, i) && StablySorted(keys, order)
    requires order != [] && keys[i] < keys[order[|order| - 1]] && k < |order|
    ensures Before(keys, Insert(keys, order[..|order| - 1], i)[k], order[|order| - 1])
  {
    var init := order[..|order| - 1];
    var r := Insert(keys, init, i);
    InsertKeepsEntries(keys, init, i, r[k]);
    assert r[k] in r;
    if r[k] != i {
      var j :| 0 <= j < |init| && init[j] == r[k];
      assert order[j] == r[k];
    }
  }

  lemma OneMore(keys: seq<real>, order: seq<nat>, i: nat)
    requires i < |keys| && StablySorted(keys, order) && forall k :: 0 <= k < |order| ==> Before(keys, order[k], i)
    ensures StablySorted(keys, order + [i])
  {
    hide Before;
  }

  lemma InitIsSorted(keys: seq<real>, order: seq<nat>)
    requires order != [] && StablySorted(keys, order)
    ensures StablySorted(keys, order[..|order| - 1])
  {
    hide Before;
  }

  lemma LastComesBefore(keys: seq<real>, order: seq<nat>, i: nat, k: nat)
    requires i < |keys| && Positions(order, i) && StablySorted(keys, order) && k < |order|
    requires !(keys[i] < keys[order[|order| - 1]])
    ensures Before(keys, order[k], i)
  {
    var last := |order| - 1;
    assert k < last ==> Before(keys, order[k], order[last]);
  }

  lemma {:induction false} InsertKeepsOrder(keys: seq<real>, order: seq<nat>, i: nat)
    requires i < |keys| && Positions(order, i) && StablySorted(keys, order)
    ensures StablySorted(keys, Insert(keys, order, i))
  {
    hide Before, StablySorted;
    if order == [] {
      SingletonIsSorted(keys, i);
    } else {
      var init, last := order[..|order| - 1], order[|order| - 1];
      if keys[i] < keys[last] {
        InitIsSorted(keys, order);
        InsertKeepsOrder(keys, init, i);
        var r := Insert(keys, init, i);
        forall k | 0 <= k < |r| ensures Before(keys, r[k], last) { InsertedComesBefore(keys, order, i, k); }
        OneMore(keys, r, last);
      } else {
        forall k | 0 <= k < |order| ensures Before(keys, order[k], i) { LastComesBefore(keys, order, i, k); }
        OneMore(keys, order, i);
      }
    }
  }

  lemma SingletonIsSorted(keys: seq<real>, i: nat)
    requires i < |keys|
    ensures StablySorted(keys, [i])
  {
  }

  /** The sort visits every position below n, and nothing else. */
  lemma {:induction false} ArgSortVisits(keys: seq<real>, n: nat, q: nat)
    requires n <= |keys|
    ensures q in ArgSort(keys, n) <==> q < n
  {
    if n > 0 {
      ArgSortVisits(keys, n - 1, q);
      InsertKeepsEntries(keys, ArgSort(keys, n - 1), n - 1, q);
    }
  }

  /** The sort is stable; in particular no position occurs twice. */
  lemma {:induction false} ArgSortSorts(keys: seq<real>, n: nat)
    requires n <= |keys|
    ensures StablySorted(keys, ArgSort(keys, n))
  {
    if n > 0 {
      var order := ArgSort(keys, n - 1);
      ArgSortSorts(keys, n - 1);
      forall k | 0 <= k < |order| ensures order[k] < n - 1 { ArgSortVisits(keys, n - 1, order[k]); }
      InsertKeepsOrder(keys, order, n - 1);
    }
  }

  /** `a` already holds the entries of `b` at the first k positions of the order. */
  predicate FilledIn<T(==)>(a: seq<T>, b: seq<T>, order: seq<nat>, k: nat) {
    |a| == |b| && Positions(order, |a|) && k <= |order| && forall m :: 0 <= m < k ==> a[order[m]] == b[order[m]]
  }

  lemma FillNothing<T>(a: seq<T>, b: seq<T>, keys: seq<real>)
    requires |a| == |b| == |keys|
    ensures FilledIn(a, b, ArgSort(keys, |keys|), 0)
  {
  }

  lemma FillNext<T>(a: seq<T>, b: seq<T>, order: seq<nat>, k: nat)
    requires FilledIn(a, b, order, k) && k < |order|
    ensures FilledIn(a[order[k] := b[order[k]]], b, order, k + 1)
  {
  }

  /** Filling in along a complete sort order fills in everything. */
  lemma FilledInCompletely<T>(a: seq<T>, b: seq<T>, keys: seq<real>)
    requires |a| == |keys| && FilledIn(a, b, ArgSort(keys, |keys|), |keys|)
    ensures a == b
  {
    var order := ArgSort(keys, |keys|);
    forall i | 0 <= i < |a| ensures a[i] == b[i] {
      ArgSortVisits(keys, |keys|, i);
      var m :| 0 <= m < |order| && order[m] == i;
    }
  }
}
