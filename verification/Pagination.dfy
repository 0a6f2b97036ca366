/** Page-by-page download from Polygon: ask for at most `limit` bars, and while a page comes back full, ask
    again from one millisecond past its last bar.  Timestamps are milliseconds. */
module Pagination {
  import opened Bars

  /** The bars the endpoint holds in `[from, until]`, oldest first. */
  function Range(store: seq<Bar>, from: int, until: int): seq<Bar> {
    if store == [] then []
    else
      var last := store[|store| - 1];
      Range(store[..|store| - 1], from, until) + (if from <= last.ts <= until then [last] else [])
  }

  function Reversed(bars: seq<Bar>): (r: seq<Bar>)
    ensures |r| == |bars|
    ensures forall i :: 0 <= i < |bars| ==> r[i] == bars[|bars| - 1 - i]
  {
    if bars == [] then [] else [bars[|bars| - 1]] + Reversed(bars[..|bars| - 1])
  }

  function Ordered(store: seq<Bar>, from: int, until: int, ascending: bool): seq<Bar> {
    if ascending then Range(store, from, until) else Reversed(Range(store, from, until))
  }

  /** One call of the endpoint: the first `limit` bars of the range in the order asked for. */
  function Page(store: seq<Bar>, from: int, until: int, ascending: bool, limit: nat): seq<Bar> {
    var all := Ordered(store, from, until, ascending);
    if |all| <= limit then all else all[..limit]
  }

  ghost predicate Within(bars: seq<Bar>, lo: int, hi: int) {
    forall i :: 0 <= i < |bars| ==> lo <= bars[i].ts <= hi
  }

  lemma {:induction false} RangeWithin(store: seq<Bar>, from: int, until: int)
    ensures Within(Range(store, from, until), from, until)
    ensures (forall i :: 0 <= i < |store| ==> store[i].ts < from) ==> Range(store, from, until) == []
  {
    if store != [] { RangeWithin(store[..|store| - 1], from, until); }
  }

  /** The range is made of exactly the stored bars from `from` to `until`. */
  lemma {:induction false} RangeFromStore(store: seq<Bar>, from: int, until: int)
    ensures forall i :: 0 <= i < |Range(store, from, until)| ==> Range(store, from, until)[i] in store
    ensures forall b :: b in Range(store, from, until) <==> b in store && from <= b.ts <= until
  {
    if store != [] { RangeFromStore(store[..|store| - 1], from, until); }
  }

  lemma {:induction false} RangeAscends(store: seq<Bar>, from: int, until: int)
    requires Ascending(store)
    ensures Ascending(Range(store, from, until))
  {
    if store != [] {
      RangeAscends(store[..|store| - 1], from, until);
      RangeFromStore(store[..|store| - 1], from, until);
    }
  }

  lemma {:induction false} RangeSplits(store: seq<Bar>, from: int, mid: int, until: int)
    requires Ascending(store) && from <= mid <= until + 1
    ensures Range(store, from, until) == Range(store, from, mid - 1) + Range(store, mid, until)
  {
    if store != [] {
      var init, last := store[..|store| - 1], store[|store| - 1];
      RangeSplits(init, from, mid, until);
      if last.ts < mid {
        RangeWithin(init, mid, until);
        assert Range(init, mid, until) == [];
      }
      RangeExtends(store, from, until);
      RangeExtends(store, from, mid - 1);
      RangeExtends(store, mid, until);
      hide Range, Ascending;
    }
  }

  lemma {:induction false} RangeExtends(store: seq<Bar>, from: int, until: int)
    requires store != []
    ensures var init, last := store[..|store| - 1], store[|store| - 1];
            Range(store, from, until) == if from <= last.ts <= until then Range(init, from, until) + [last]
                                         else Range(init, from, until)
  {
  }

  /** Asking again from just past the `k`-th bar of a range gives the rest of the range. */
  lemma {:induction false} RangeResumes(store: seq<Bar>, from: int, until: int, k: nat)
    requires Ascending(store) && k < |Range(store, from, until)|
    ensures var all := Range(store, from, until);
            from <= all[k].ts <= until && Range(store, all[k].ts + 1, until) == all[k + 1..]
  {
    hide Range, Ascending, Within;
    var all := Range(store, from, until);
    var mid := all[k].ts + 1;
    RangeWithin(store, from, until);
    RangeAscends(store, from, until);
    NeighboursAscend(all, from, until, k);
    RangeSplits(store, from, mid, until);
    RangeWithin(store, from, mid - 1);
    RangeWithin(store, mid, until);
    CutPoint(Range(store, from, mid - 1), Range(store, mid, until), k, from, mid, until);
  }

  lemma {:induction false} NeighboursAscend(bars: seq<Bar>, lo: int, hi: int, k: nat)
    requires Within(bars, lo, hi) && Ascending(bars) && k < |bars|
    ensures lo <= bars[k].ts <= hi && (k + 1 < |bars| ==> bars[k].ts + 1 <= bars[k + 1].ts)
  {
  }

  lemma {:induction false} CutPoint(left: seq<Bar>, right: seq<Bar>, k: nat, lo: int, mid: int, hi: int)
    requires Within(left, lo, mid - 1) && Within(right, mid, hi)
    requires k < |left + right| && (left + right)[k].ts < mid
    requires k + 1 < |left + right| ==> mid <= (left + right)[k + 1].ts
    ensures right == (left + right)[k + 1..]
  {
    assert |left| == k + 1;
  }

  /** All the pages the loop concatenates. */
  ghost function Pages(store: seq<Bar>, from: int, until: int, ascending: bool, limit: nat): seq<Bar>
    requires Ascending(store) && limit >= 1
    decreases until - from
  {
    var page := Page(store, from, until, ascending, limit);
    if |page| < limit then page
    else
      NextPageIsLater(store, from, until, ascending, limit);
      page + Pages(store, page[|page| - 1].ts + 1, until, ascending, limit)
  }

  lemma {:induction false} NextPageIsLater(store: seq<Bar>, from: int, until: int, ascending: bool, limit: nat)
    requires limit >= 1 && |Page(store, from, until, ascending, limit)| >= limit
    ensures var page := Page(store, from, until, ascending, limit);
            from <= page[|page| - 1].ts <= until
  {
    RangeWithin(store, from, until);
  }

  /** Pagination is transparent: oldest first, the pages add up to the whole range, whatever the limit. */
  lemma {:induction false} AscendingPagesAreTheRange(store: seq<Bar>, from: int, until: int, limit: nat)
    requires Ascending(store) && limit >= 1
    ensures Pages(store, from, until, true, limit) == Range(store, from, until)
    decreases until - from
  {
    var all, page := Range(store, from, until), Page(store, from, until, true, limit);
    hide Range, Ascending;
    if |page| == limit {
      NextPageIsLater(store, from, until, true, limit);
      RangeResumes(store, from, until, limit - 1);
      AscendingPagesAreTheRange(store, page[limit - 1].ts + 1, until, limit);
      assert all == all[..limit] + all[limit..];
    }
  }

  /** Newest first, the loop asks next for what it already has: after a full page it fetches that page again
      without its last bar, and stops. */
  lemma {:induction false} DescendingPagesRepeat(store: seq<Bar>, from: int, until: int, limit: nat)
    requires Ascending(store) && limit >= 1
    ensures var all := Ordered(store, from, until, false);
            Pages(store, from, until, false, limit) == if |all| < limit then all else all[..limit] + all[..limit - 1]
  {
    hide Range, Reversed, Ordered, Page, Ascending, Pages;
    var all := Ordered(store, from, until, false);
    if |all| >= limit {
      AfterNewestPage(store, from, until, limit);
      FullPageFirst(store, from, until, false, limit);
      PartialPageLast(store, all[limit - 1].ts + 1, until, false, limit);
    } else {
      ShortRangeOnePage(store, from, until, false, limit);
      PartialPageLast(store, from, until, false, limit);
    }
  }

  lemma {:induction false} ShortRangeOnePage(store: seq<Bar>, from: int, until: int, ascending: bool, limit: nat)
    requires |Ordered(store, from, until, ascending)| <= limit
    ensures Page(store, from, until, ascending, limit) == Ordered(store, from, until, ascending)
  {
    hide Ordered;
  }

  /** What is newer than the last bar of a full newest-first page is that page without its last bar. */
  lemma {:induction false} AfterNewestPage(store: seq<Bar>, from: int, until: int, limit: nat)
    requires Ascending(store) && 1 <= limit <= |Ordered(store, from, until, false)|
    ensures var all := Ordered(store, from, until, false);
            && Page(store, from, until, false, limit) == all[..limit]
            && Page(store, all[limit - 1].ts + 1, until, false, limit) == all[..limit - 1]
  {
    var oldestFirst, all := Range(store, from, until), Ordered(store, from, until, false);
    var k := |all| - limit;
    var next := oldestFirst[k].ts + 1;
    assert all[limit - 1] == oldestFirst[k];
    RangeResumes(store, from, until, k);
    hide Range, Ascending, Within;
    ReversedDrop(oldestFirst, k + 1);
    assert all[..limit] == Page(store, from, until, false, limit);
  }

  lemma {:induction false} ReversedDrop(bars: seq<Bar>, k: nat)
    requires k <= |bars|
    ensures Reversed(bars[k..]) == Reversed(bars)[..|bars| - k]
  {
    hide Reversed;
  }

  /** So a newest-first download is right exactly when the range does not fill a page, or is a single bar
      asked for one at a time. */
  lemma {:induction false} DescendingPagesRightIff(store: seq<Bar>, from: int, until: int, limit: nat)
    requires Ascending(store) && limit >= 1
    ensures var n := |Range(store, from, until)|;
            Pages(store, from, until, false, limit) == Ordered(store, from, until, false)
            <==> n < limit || n == 1 == limit
  {
    DescendingPagesRepeat(store, from, until, limit);
    var all := Ordered(store, from, until, false);
    if |all| >= limit {
      var got := all[..limit] + all[..limit - 1];
      if limit >= 2 && |got| == |all| {
        RangeAscends(store, from, until);
        assert got[limit] == all[0] && all[limit].ts < all[0].ts;
      }
      if limit == 1 { assert got == all[..1]; }
    }
  }

  ghost predicate IsFirstPage(page: seq<Bar>, all: seq<Bar>, limit: nat) {
    page <= all && |page| <= limit && (|page| < limit ==> page == all)
  }

  lemma {:induction false} PageIsFirst(store: seq<Bar>, from: int, until: int, ascending: bool, limit: nat)
    ensures IsFirstPage(Page(store, from, until, ascending, limit), Ordered(store, from, until, ascending), limit)
  {
    hide Ordered;
  }

  /** `_get_bars_impl`: every page when paginating, the first one otherwise. */
  method GetBars(store: seq<Bar>, from: int, until: int, ascending: bool, limit: nat, paginate: bool)
    returns (allBars: seq<Bar>)
    requires Ascending(store) && limit >= 1
    ensures paginate && ascending ==> allBars == Range(store, from, until)
    ensures paginate && !ascending ==> allBars == Pages(store, from, until, false, limit)
    ensures !paginate ==> IsFirstPage(allBars, Ordered(store, from, until, ascending), limit)
  {
    hide Pages, Page, Ascending, Ordered, IsFirstPage;
    PageIsFirst(store, from, until, ascending, limit);
    allBars := [];
    var currentFrom := from;
    ghost var all := Pages(store, from, until, ascending, limit);
    ghost var rest := all;
    EmptyThen(rest);
    while true
      invariant rest == Pages(store, currentFrom, until, ascending, limit)
      invariant if paginate then all == allBars + rest else allBars == [] && currentFrom == from
      decreases until - currentFrom
    {
      var page := Page(store, currentFrom, until, ascending, limit);
      if |page| < limit { PartialPageLast(store, currentFrom, until, ascending, limit); }
      if page == [] {
        break;
      }
      if !paginate || |page| < limit {
        allBars := allBars + page;
        break;
      }
      NextPageIsLater(store, currentFrom, until, ascending, limit);
      ghost var next := page[|page| - 1].ts + 1;
      ghost var nextRest := Pages(store, next, until, ascending, limit);
      FullPageFirst(store, currentFrom, until, ascending, limit);
      ConcatAssociates(allBars, page, nextRest);
      allBars, currentFrom, rest := allBars + page, page[|page| - 1].ts + 1, nextRest;
    }
    assert !paginate ==> allBars == Page(store, from, until, ascending, limit);
    if ascending { AscendingPagesAreTheRange(store, from, until, limit); }
  }

  lemma {:induction false} FullPageFirst(store: seq<Bar>, from: int, until: int, ascending: bool, limit: nat)
    requires Ascending(store) && limit >= 1 && |Page(store, from, until, ascending, limit)| >= limit
    ensures var page := Page(store, from, until, ascending, limit);
            Pages(store, from, until, ascending, limit)
                == page + Pages(store, page[|page| - 1].ts + 1, until, ascending, limit)
  {
  }

  lemma {:induction false} PartialPageLast(store: seq<Bar>, from: int, until: int, ascending: bool, limit: nat)
    requires Ascending(store) && |Page(store, from, until, ascending, limit)| < limit
    ensures Pages(store, from, until, ascending, limit) == Page(store, from, until, ascending, limit)
  {
  }

  lemma {:induction false} EmptyThen(a: seq<Bar>)
    ensures a == [] + a
  {
  }

  lemma {:induction false} ConcatAssociates(a: seq<Bar>, b: seq<Bar>, c: seq<Bar>)
    ensures a + (b + c) == (a + b) + c
  {
  }
}
