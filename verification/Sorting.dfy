/** The library's stable sort, by descending weight. */
module Sorting {
  ghost predicate Descending<T>(items: seq<T>, weight: T -> real) {
    forall i, j | 0 <= i < j < |items| :: weight(items[i]) >= weight(items[j])
  }

  /** Places one item behind everything that weighs at least as much. */
  function Insert<T>(items: seq<T>, x: T, weight: T -> real): seq<T> {
    if items == [] then [x]
    else
      var n := |items| - 1;
      if weight(items[n]) >= weight(x) then items + [x] else Insert(items[..n], x, weight) + [items[n]]
  }

  lemma {:induction false} InsertKeepsItems<T>(items: seq<T>, x: T, weight: T -> real)
    ensures multiset(Insert(items, x, weight)) == multiset(items) + multiset{x}
  {
    if items != [] {
      var n := |items| - 1;
      assert items == items[..n] + [items[n]];
      InsertKeepsItems(items[..n], x, weight);
    }
  }

  lemma {:induction false} InsertKeepsOrder<T>(items: seq<T>, x: T, weight: T -> real)
    requires Descending(items, weight)
    ensures Descending(Insert(items, x, weight), weight)
  {
    if items != [] {
      var n := |items| - 1;
      if weight(items[n]) < weight(x) {
        var r := Insert(items[..n], x, weight);
        InsertKeepsOrder(items[..n], x, weight);
        InsertKeepsItems(items[..n], x, weight);
        forall i | 0 <= i < |r| ensures weight(r[i]) >= weight(items[n]) {
          assert r[i] in multiset(r);
          assert r[i] == x || r[i] in multiset(items[..n]);
        }
      }
    }
  }

  /** Permutations have the same members. */
  lemma SameElements<T>(a: seq<T>, b: seq<T>)
    requires multiset(a) == multiset(b)
    ensures forall x :: x in a <==> x in b
  {
    forall x ensures x in a <==> x in b {
      assert x in a <==> x in multiset(a);
      assert x in b <==> x in multiset(b);
    }
  }

  method SortDescending<T>(items: seq<T>, weight: T -> real) returns (sorted: seq<T>)
    ensures Descending(sorted, weight) && multiset(sorted) == multiset(items)
  {
    sorted := [];
    for i := 0 to |items|
      invariant Descending(sorted, weight) && multiset(sorted) == multiset(items[..i])
    {
      assert items[..i + 1] == items[..i] + [items[i]];
      InsertKeepsItems(sorted, items[i], weight);
      InsertKeepsOrder(sorted, items[i], weight);
      sorted := Insert(sorted, items[i], weight);
    }
    assert items[..|items|] == items;
  }
}
