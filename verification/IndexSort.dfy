/** Sorting (index, value) pairs whose indices are distinct, as `sort_by_key` does. */
module IndexSort {
  import opened Sequences

  function InsertByIndex<T>(x: (nat, T), xs: seq<(nat, T)>): seq<(nat, T)> {
    if xs == [] || x.0 <= xs[0].0 then [x] + xs else [xs[0]] + InsertByIndex(x, xs[1..])
  }

  function SortByIndex<T>(xs: seq<(nat, T)>): seq<(nat, T)> {
    if xs == [] then [] else InsertByIndex(xs[0], SortByIndex(xs[1..]))
  }

  predicate StrictlySorted<T>(xs: seq<(nat, T)>) {
    forall i, j :: 0 <= i < j < |xs| ==> xs[i].0 < xs[j].0
  }

  predicate DistinctIndices<T>(xs: seq<(nat, T)>) {
    forall i, j :: 0 <= i < j < |xs| ==> xs[i].0 != xs[j].0
  }

  predicate Avoids<T>(xs: seq<(nat, T)>, n: nat) {
    forall k :: 0 <= k < |xs| ==> xs[k].0 != n
  }

  predicate Above<T>(xs: seq<(nat, T)>, n: nat) {
    forall k :: 0 <= k < |xs| ==> n < xs[k].0
  }

  lemma {:induction false} InsertAbove<T>(x: (nat, T), xs: seq<(nat, T)>, n: nat)
    requires Above(xs, n) && n < x.0
    ensures Above(InsertByIndex(x, xs), n)
  {
    if xs != [] && xs[0].0 < x.0 {
      InsertAbove(x, xs[1..], n);
    }
  }

  lemma {:induction false} InsertAvoids<T>(x: (nat, T), xs: seq<(nat, T)>, n: nat)
    requires Avoids(xs, n) && n != x.0
    ensures Avoids(InsertByIndex(x, xs), n)
  {
    if xs != [] && xs[0].0 < x.0 {
      InsertAvoids(x, xs[1..], n);
    }
  }

  lemma {:induction false} InsertByIndexSorts<T>(x: (nat, T), xs: seq<(nat, T)>)
    requires StrictlySorted(xs) && Avoids(xs, x.0)
    ensures StrictlySorted(InsertByIndex(x, xs)) && |InsertByIndex(x, xs)| == |xs| + 1
    ensures multiset(InsertByIndex(x, xs)) == multiset{x} + multiset(xs)
  {
    if xs != [] && xs[0].0 < x.0 {
      InsertByIndexSorts(x, xs[1..]);
      InsertAbove(x, xs[1..], xs[0].0);
      HeadAndTail(xs);
    }
  }

  lemma {:induction false} SortAvoids<T>(xs: seq<(nat, T)>, n: nat)
    requires Avoids(xs, n)
    ensures Avoids(SortByIndex(xs), n)
  {
    if xs != [] {
      SortAvoids(xs[1..], n);
      InsertAvoids(xs[0], SortByIndex(xs[1..]), n);
    }
  }

  /** The sort orders the pairs and keeps exactly the given ones. */
  lemma {:induction false} SortByIndexSorts<T>(xs: seq<(nat, T)>)
    requires DistinctIndices(xs)
    ensures StrictlySorted(SortByIndex(xs)) && |SortByIndex(xs)| == |xs|
    ensures multiset(SortByIndex(xs)) == multiset(xs)
  {
    if xs != [] {
      SortByIndexSorts(xs[1..]);
      SortAvoids(xs[1..], xs[0].0);
      InsertByIndexSorts(xs[0], SortByIndex(xs[1..]));
      HeadAndTail(xs);
    }
  }
}
