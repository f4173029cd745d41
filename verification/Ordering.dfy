/** The stable sort of a sequence by a given order, and what it keeps. */
module Ordering {

  ghost predicate IsOrder<T(!new)>(notAfter: (T, T) -> bool) {
    && (forall a, b :: notAfter(a, b) || notAfter(b, a))
    && (forall a, b, c :: notAfter(a, b) && notAfter(b, c) ==> notAfter(a, c))
  }

  predicate Ascends<T>(items: seq<T>, notAfter: (T, T) -> bool) {
    forall i, j :: 0 <= i < j < |items| ==> notAfter(items[i], items[j])
  }

  /** Behind everything that is not after it, so that equals keep their order. */
  function InsertLast<T>(items: seq<T>, x: T, notAfter: (T, T) -> bool): seq<T> {
    if items == [] || notAfter(items[|items| - 1], x) then items + [x]
    else InsertLast(items[..|items| - 1], x, notAfter) + [items[|items| - 1]]
  }

  function SortedBy<T>(items: seq<T>, notAfter: (T, T) -> bool): seq<T> {
    if items == [] then []
    else InsertLast(SortedBy(items[..|items| - 1], notAfter), items[|items| - 1], notAfter)
  }

  lemma {:induction false} InsertLastKeeps<T>(items: seq<T>, x: T, notAfter: (T, T) -> bool)
    ensures multiset(InsertLast(items, x, notAfter)) == multiset(items) + multiset{x}
  {
    if items != [] && !notAfter(items[|items| - 1], x) {
      InsertLastKeeps(items[..|items| - 1], x, notAfter);
      assert items == items[..|items| - 1] + [items[|items| - 1]];
    }
  }

  lemma {:induction false} InsertLastAscends<T(!new)>(items: seq<T>, x: T, notAfter: (T, T) -> bool)
    requires IsOrder(notAfter) && Ascends(items, notAfter)
    ensures Ascends(InsertLast(items, x, notAfter), notAfter)
  {
    if items != [] && !notAfter(items[|items| - 1], x) {
      var init, last := items[..|items| - 1], items[|items| - 1];
      InsertLastAscends(init, x, notAfter);
      InsertLastKeeps(init, x, notAfter);
      var rest := InsertLast(init, x, notAfter);
      forall i | 0 <= i < |rest| ensures notAfter(rest[i], last) {
        assert rest[i] in multiset(init) + multiset{x};
        if rest[i] != x {
          assert rest[i] in init;
          var j :| 0 <= j < |init| && init[j] == rest[i];
          assert notAfter(items[j], items[|items| - 1]);
        }
      }
    }
  }

  /** The sorted sequence ascends and holds what the given one holds, each as often. */
  lemma {:induction false} SortedBySorts<T(!new)>(items: seq<T>, notAfter: (T, T) -> bool)
    requires IsOrder(notAfter)
    ensures Ascends(SortedBy(items, notAfter), notAfter)
    ensures multiset(SortedBy(items, notAfter)) == multiset(items)
    ensures forall x :: x in SortedBy(items, notAfter) <==> x in items
  {
    if items != [] {
      var init, last := items[..|items| - 1], items[|items| - 1];
      SortedBySorts(init, notAfter);
      InsertLastAscends(SortedBy(init, notAfter), last, notAfter);
      InsertLastKeeps(SortedBy(init, notAfter), last, notAfter);
      assert items == init + [last];
    }
    forall x ensures x in SortedBy(items, notAfter) <==> x in items {
      assert x in multiset(SortedBy(items, notAfter)) <==> x in multiset(items);
    }
  }

  lemma TwiceCounts<T>(items: seq<T>, i: nat, j: nat)
    requires i < j < |items| && items[i] == items[j]
    ensures multiset(items)[items[i]] >= 2
  {
    assert items == items[..i] + [items[i]] + items[i + 1..j] + [items[j]] + items[j + 1..];
  }

  lemma {:induction false} OnceCounts<T>(items: seq<T>, x: T)
    requires forall i, j :: 0 <= i < j < |items| ==> items[i] != items[j]
    ensures multiset(items)[x] <= 1
  {
    if items != [] {
      var init, last := items[..|items| - 1], items[|items| - 1];
      OnceCounts(init, x);
      assert items == init + [last];
      if x == last {
        assert x !in init;
        assert multiset(init)[x] == 0;
      }
    }
  }

  /** Sorting repeats nothing that was not repeated. */
  lemma SortedByRepeatsNothing<T(!new)>(items: seq<T>, notAfter: (T, T) -> bool)
    requires IsOrder(notAfter)
    requires forall i, j :: 0 <= i < j < |items| ==> items[i] != items[j]
    ensures var sorted := SortedBy(items, notAfter);
      forall i, j :: 0 <= i < j < |sorted| ==> sorted[i] != sorted[j]
  {
    var sorted := SortedBy(items, notAfter);
    SortedBySorts(items, notAfter);
    forall i, j | 0 <= i < j < |sorted| ensures sorted[i] != sorted[j] {
      if sorted[i] == sorted[j] {
        TwiceCounts(sorted, i, j);
        OnceCounts(items, sorted[i]);
      }
    }
  }
}
