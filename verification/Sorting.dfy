/** The order that Python's `sorted` and `list.sort(key=...)` leave behind: ascending keys, ties as they came. */
module Sorting {

  function Insert<T>(items: seq<T>, x: T, key: T -> int): (r: seq<T>)
    ensures |r| == |items| + 1
  {
    if items == [] || key(items[|items| - 1]) <= key(x) then items + [x]
    else Insert(items[..|items| - 1], x, key) + [items[|items| - 1]]
  }

  function SortBy<T>(items: seq<T>, key: T -> int): (r: seq<T>)
    ensures |r| == |items|
  {
    if items == [] then [] else Insert(SortBy(items[..|items| - 1], key), items[|items| - 1], key)
  }

  ghost predicate Ascends<T>(items: seq<T>, key: T -> int) {
    forall i, j :: 0 <= i < j < |items| ==> key(items[i]) <= key(items[j])
  }

  ghost predicate DistinctKeys<T>(items: seq<T>, key: T -> int) {
    forall i, j :: 0 <= i < j < |items| ==> key(items[i]) != key(items[j])
  }

  lemma {:induction false} InsertPermutes<T>(items: seq<T>, x: T, key: T -> int)
    ensures multiset(Insert(items, x, key)) == multiset(items) + multiset{x}
  {
    if items != [] && key(items[|items| - 1]) > key(x) {
      InsertPermutes(items[..|items| - 1], x, key);
      assert items == items[..|items| - 1] + [items[|items| - 1]];
    }
  }

  lemma {:induction false} InsertedFrom<T>(items: seq<T>, x: T, key: T -> int, i: nat)
    requires i <= |items|
    ensures var r := Insert(items, x, key);
            r[i] == x || exists j :: 0 <= j < |items| && r[i] == items[j]
  {
    if items != [] && key(items[|items| - 1]) > key(x) && i < |items| {
      InsertedFrom(items[..|items| - 1], x, key, i);
    }
  }

  lemma {:induction false} InsertAscends<T>(items: seq<T>, x: T, key: T -> int)
    requires Ascends(items, key)
    ensures Ascends(Insert(items, x, key), key)
  {
    if items != [] && key(items[|items| - 1]) > key(x) {
      var init, last := items[..|items| - 1], items[|items| - 1];
      InsertAscends(init, x, key);
      forall i | 0 <= i <= |init| ensures key(Insert(init, x, key)[i]) <= key(last) {
        InsertedFrom(init, x, key, i);
      }
    }
  }

  lemma {:induction false} InsertKeepsDistinct<T>(items: seq<T>, x: T, key: T -> int)
    requires DistinctKeys(items, key) && forall i :: 0 <= i < |items| ==> key(items[i]) != key(x)
    ensures DistinctKeys(Insert(items, x, key), key)
  {
    if items != [] && key(items[|items| - 1]) > key(x) {
      var init, last := items[..|items| - 1], items[|items| - 1];
      InsertKeepsDistinct(init, x, key);
      forall i | 0 <= i <= |init| ensures key(Insert(init, x, key)[i]) != key(last) {
        InsertedFrom(init, x, key, i);
      }
    }
  }

  lemma {:induction false} SortPermutes<T>(items: seq<T>, key: T -> int)
    ensures multiset(SortBy(items, key)) == multiset(items)
  {
    if items != [] {
      var init, last := items[..|items| - 1], items[|items| - 1];
      SortPermutes(init, key);
      InsertPermutes(SortBy(init, key), last, key);
      hide Insert;
      assert items == init + [last];
    }
  }

  lemma {:induction false} SortAscends<T>(items: seq<T>, key: T -> int)
    ensures Ascends(SortBy(items, key), key)
  {
    if items != [] {
      SortAscends(items[..|items| - 1], key);
      InsertAscends(SortBy(items[..|items| - 1], key), items[|items| - 1], key);
      hide Ascends, Insert;
    }
  }

  lemma {:induction false} SortKeepsDistinct<T>(items: seq<T>, key: T -> int)
    requires DistinctKeys(items, key)
    ensures DistinctKeys(SortBy(items, key), key)
  {
    if items != [] {
      var init, last := items[..|items| - 1], items[|items| - 1];
      SortKeepsDistinct(init, key);
      SortPermutes(init, key);
      var sorted := SortBy(init, key);
      forall i | 0 <= i < |sorted| ensures key(sorted[i]) != key(last) {
        assert sorted[i] in multiset(init);
      }
      InsertKeepsDistinct(sorted, last, key);
      hide Insert;
    }
  }
}
