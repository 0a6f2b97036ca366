/** Price bars, the store a provider serves them from, and what it means for a download to be a faithful
    listing of a stretch of that store. */
module Bars {
  import opened Sorting

  datatype Bar = Bar(ts: int, open: real, high: real, low: real, close: real, volume: int)

  /** One bar per timestamp: the key of a bar is its own stamp. */
  type Store = s: map<int, Bar> | forall t :: t in s ==> s[t].ts == t

  ghost function Stamps(bars: seq<Bar>): (s: set<int>)
    ensures forall i :: 0 <= i < |bars| ==> bars[i].ts in s
  {
    set i | 0 <= i < |bars| :: bars[i].ts
  }

  lemma {:induction false} StampsEmptyIff(bars: seq<Bar>)
    ensures Stamps(bars) == {} <==> bars == []
  {
    if bars != [] { assert bars[0].ts in Stamps(bars); }
  }

  lemma {:induction false} StampsOfOne(b: Bar)
    ensures Stamps([b]) == {b.ts}
  {
    assert [b][0].ts in Stamps([b]);
  }

  lemma {:induction false} StampsOfConcat(a: seq<Bar>, b: seq<Bar>)
    ensures Stamps(a + b) == Stamps(a) + Stamps(b)
  {
    var c := a + b;
    forall t | t in Stamps(a) ensures t in Stamps(c) {
      var i :| 0 <= i < |a| && a[i].ts == t;
      assert c[i].ts == t;
    }
    forall t | t in Stamps(b) ensures t in Stamps(c) {
      var i :| 0 <= i < |b| && b[i].ts == t;
      assert c[|a| + i].ts == t;
    }
  }

  ghost predicate Ascending(bars: seq<Bar>) {
    forall i, j :: 0 <= i < j < |bars| ==> bars[i].ts < bars[j].ts
  }

  ghost predicate Distinct(bars: seq<Bar>) {
    forall i, j :: 0 <= i < j < |bars| ==> bars[i].ts != bars[j].ts
  }

  ghost predicate FromStore(bars: seq<Bar>, store: Store) {
    forall i :: 0 <= i < |bars| ==> bars[i].ts in store && store[bars[i].ts] == bars[i]
  }

  /** The timestamps the store holds in `(lo, hi]`. */
  ghost function Stored(store: Store, lo: int, hi: int): set<int> {
    set t | t in store && lo < t <= hi
  }

  /** Strictly ascending, unaltered, and exactly the store's bars in `(lo, hi]`. */
  ghost predicate IsListing(bars: seq<Bar>, store: Store, lo: int, hi: int) {
    Ascending(bars) && FromStore(bars, store) && Stamps(bars) == Stored(store, lo, hi)
  }

  /** The listing of a stretch is unique, so `IsListing` pins down a download completely. */
  lemma {:induction false} ListingUnique(a: seq<Bar>, b: seq<Bar>, store: Store, lo: int, hi: int)
    requires IsListing(a, store, lo, hi) && IsListing(b, store, lo, hi)
    ensures a == b
    decreases |a|
  {
    StampsEmptyIff(b);
    if a != [] {
      assert a[|a| - 1].ts in Stamps(b);
      var x, y := a[|a| - 1], b[|b| - 1];
      assert y.ts in Stamps(a);
      assert x == y;
      DropLast(a, store, lo, hi);
      DropLast(b, store, lo, hi);
      ListingUnique(a[..|a| - 1], b[..|b| - 1], store, lo, x.ts - 1);
    }
  }

  lemma {:induction false} DropLast(a: seq<Bar>, store: Store, lo: int, hi: int)
    requires a != [] && IsListing(a, store, lo, hi)
    ensures IsListing(a[..|a| - 1], store, lo, a[|a| - 1].ts - 1)
  {
    var last := |a| - 1;
    forall t | t in Stored(store, lo, a[last].ts - 1) ensures t in Stamps(a[..last]) {
      assert t in Stamps(a);
      var i :| 0 <= i < |a| && a[i].ts == t;
      assert a[..last][i].ts == t;
    }
    forall t | t in Stamps(a[..last]) ensures t in Stored(store, lo, a[last].ts - 1) {
      assert t in Stamps(a);
    }
  }

  function StampOf(b: Bar): int { b.ts }

  lemma {:induction false} SameBars(a: seq<Bar>, b: seq<Bar>)
    requires multiset(a) == multiset(b)
    ensures forall i :: 0 <= i < |a| ==> a[i] in b
    ensures Stamps(a) <= Stamps(b)
  {
    forall i | 0 <= i < |a| ensures a[i] in b {
      assert a[i] in multiset(a);
    }
  }

  /** Sorting puts distinct bars in strictly ascending order and changes nothing else. */
  lemma {:induction false} SortOnlyOrders(bars: seq<Bar>, store: Store)
    requires Distinct(bars) && FromStore(bars, store)
    ensures var sorted := SortBy(bars, StampOf);
            Ascending(sorted) && FromStore(sorted, store) && Stamps(sorted) == Stamps(bars)
  {
    var sorted := SortBy(bars, StampOf);
    SortAscends(bars, StampOf);
    SortKeepsDistinct(bars, StampOf);
    SortPermutes(bars, StampOf);
    SameBars(sorted, bars);
    SameBars(bars, sorted);
  }

  /** So distinct bars of a stretch of the store become the listing of that stretch. */
  lemma {:induction false} SortGivesListing(bars: seq<Bar>, store: Store, lo: int, hi: int)
    requires Distinct(bars) && FromStore(bars, store) && Stamps(bars) == Stored(store, lo, hi)
    ensures IsListing(SortBy(bars, StampOf), store, lo, hi)
  {
    SortOnlyOrders(bars, store);
  }
}
