/** Weighted tables: what a draw selects, and how many draws select each entry. */
module Weights {
  import opened Money

  datatype Weighted<+T> = Weighted(value: T, weight: int)

  predicate AllPositive<T>(items: seq<Weighted<T>>) {
    forall i :: 0 <= i < |items| ==> items[i].weight > 0
  }

  function Total<T>(items: seq<Weighted<T>>): (sum: int)
    ensures AllPositive(items) ==> sum >= |items|
  {
    if items == [] then 0 else items[0].weight + Total(items[1..])
  }

  /** A table whose total weight is positive and fits the machine integer. */
  predicate Drawable<T>(items: seq<Weighted<T>>) {
    AllPositive(items) && 0 < Total(items) <= MAX_INT64
  }

  /** The entry reached by subtracting weights from a draw until the draw is smaller than the next weight. */
  function Selected<T>(items: seq<Weighted<T>>, draw: int): (index: int)
    requires 0 <= draw < Total(items)
    requires AllPositive(items)
    ensures 0 <= index < |items|
  {
    if draw < items[0].weight then 0 else 1 + Selected(items[1..], draw - items[0].weight)
  }

  /** The first draw that reaches entry i. */
  function Start<T>(items: seq<Weighted<T>>, i: nat): int
    requires i <= |items|
  {
    if i == 0 then 0 else items[0].weight + Start(items[1..], i - 1)
  }

  lemma {:induction false} StartWithin<T>(items: seq<Weighted<T>>, i: nat)
    requires AllPositive(items) && i < |items|
    ensures 0 <= Start(items, i) && Start(items, i) + items[i].weight <= Total(items)
  {
    if i > 0 {
      StartWithin(items[1..], i - 1);
    }
  }

  /** Entry i is selected by exactly the draws of one interval as long as its weight. */
  lemma {:induction false} SelectedInterval<T>(items: seq<Weighted<T>>, draw: int, i: nat)
    requires AllPositive(items) && i < |items| && 0 <= draw < Total(items)
    ensures Selected(items, draw) == i <==> Start(items, i) <= draw < Start(items, i) + items[i].weight
  {
    if i == 0 {
    } else if draw < items[0].weight {
      StartWithin(items[1..], i - 1);
    } else {
      SelectedInterval(items[1..], draw - items[0].weight, i - 1);
    }
  }

  /** The draws that select entry i. */
  function DrawsOf<T>(items: seq<Weighted<T>>, i: nat): set<int>
    requires AllPositive(items)
  {
    set d | 0 <= d < Total(items) && Selected(items, d) == i
  }

  /** Exact weights: an entry is selected by as many draws as its weight. */
  lemma DrawsMatchWeight<T>(items: seq<Weighted<T>>, i: nat)
    requires AllPositive(items) && i < |items|
    ensures |DrawsOf(items, i)| == items[i].weight
  {
    var lo := Start(items, i);
    StartWithin(items, i);
    forall d
      ensures d in DrawsOf(items, i) <==> d in Interval(lo, items[i].weight)
    {
      if 0 <= d < Total(items) {
        SelectedInterval(items, d, i);
      }
    }
    assert DrawsOf(items, i) == Interval(lo, items[i].weight);
  }

  function Interval(lo: int, length: nat): (s: set<int>)
    ensures forall d :: d in s <==> lo <= d < lo + length
    ensures |s| == length
  {
    if length == 0 then {} else Interval(lo, length - 1) + {lo + length - 1}
  }

  /** The entries whose value is above the current one, in order. */
  function Above(items: seq<Weighted<int>>, current: int): (above: seq<Weighted<int>>)
    ensures AllPositive(items) ==> AllPositive(above)
    ensures AllPositive(items) ==> Total(above) <= Total(items)
  {
    if items == [] then []
    else if items[0].value > current then [items[0]] + Above(items[1..], current)
    else Above(items[1..], current)
  }

  /** The entries with another value than the excluded one, in order. */
  function Without<T(==)>(items: seq<Weighted<T>>, excluded: T): (kept: seq<Weighted<T>>)
    ensures AllPositive(items) ==> AllPositive(kept)
    ensures AllPositive(items) ==> Total(kept) <= Total(items)
  {
    if items == [] then []
    else if items[0].value != excluded then [items[0]] + Without(items[1..], excluded)
    else Without(items[1..], excluded)
  }

  /** A table above a value keeps exactly the entries above that value. */
  lemma {:induction false} AboveKeeps(items: seq<Weighted<int>>, current: int, x: Weighted<int>)
    ensures x in Above(items, current) <==> x in items && x.value > current
  {
    if items != [] {
      assert x in items <==> x == items[0] || x in items[1..];
      AboveKeeps(items[1..], current, x);
    }
  }

  lemma {:induction false} WithoutKeeps<T>(items: seq<Weighted<T>>, excluded: T, x: Weighted<T>)
    ensures x in Without(items, excluded) <==> x in items && x.value != excluded
  {
    if items != [] {
      assert x in items <==> x == items[0] || x in items[1..];
      WithoutKeeps(items[1..], excluded, x);
    }
  }
}
