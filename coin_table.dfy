/**
 * The CoinTable component: which coins the current page shows, the page
 * state and its reset rules, the sparkline's colour and bar heights.
 */
module CoinTable {
  import opened Wrappers
  import opened JsBuiltins
  import Pagination

  /** `Math.ceil(totalItems / itemsPerPage)`: the fewest pages of that size that hold every item. */
  function TotalPages(totalItems: nat, itemsPerPage: int): (pages: nat)
    requires itemsPerPage > 0
    ensures pages * itemsPerPage >= totalItems
    ensures pages > 0 ==> (pages - 1) * itemsPerPage < totalItems
  {
    (totalItems + itemsPerPage - 1) / itemsPerPage
  }

  /** `startIndex`: how many coins precede the current page. */
  function StartIndex(currentPage: int, itemsPerPage: int): (start: int)
    ensures currentPage >= 1 && itemsPerPage >= 0 ==> start >= 0
    ensures start == Pagination.StartItem(currentPage, itemsPerPage) - 1
  {
    (currentPage - 1) * itemsPerPage
  }

  /** `currentCoins`: with pagination on, the slice [startIndex, startIndex + itemsPerPage) of the list; with it off, the whole list. */
  function CurrentCoins<T>(coins: seq<T>, currentPage: int, itemsPerPage: int, showPagination: bool): (shown: seq<T>)
    ensures !showPagination ==> shown == coins
    ensures showPagination && currentPage >= 1 && itemsPerPage >= 0 ==>
              var startIndex := StartIndex(currentPage, itemsPerPage);
              var from := Min(startIndex, |coins|);
              |shown| <= itemsPerPage
              && shown == coins[from..Max(from, Min(startIndex + itemsPerPage, |coins|))]
  {
    var startIndex := StartIndex(currentPage, itemsPerPage);
    var endIndex := startIndex + itemsPerPage;
    if showPagination then Slice(coins, startIndex, endIndex) else coins
  }

  /** The coins on pages 1..n, one page after the other. */
  function PagesUpTo<T>(coins: seq<T>, n: nat, itemsPerPage: int): seq<T>
    requires itemsPerPage > 0
  {
    if n == 0 then [] else PagesUpTo(coins, n - 1, itemsPerPage) + CurrentCoins(coins, n, itemsPerPage, true)
  }

  lemma {:induction false} PagesUpToPrefix<T>(coins: seq<T>, n: nat, itemsPerPage: int)
    requires itemsPerPage > 0
    ensures PagesUpTo(coins, n, itemsPerPage) == coins[..Min(n * itemsPerPage, |coins|)]
  {
    if n > 0 {
      PagesUpToPrefix(coins, n - 1, itemsPerPage);
      var start := StartIndex(n, itemsPerPage);
      assert start == (n - 1) * itemsPerPage && start >= 0;
      assert start + itemsPerPage == n * itemsPerPage;
      var a := Min(start, |coins|);
      var b := Min(start + itemsPerPage, |coins|);
      assert CurrentCoins(coins, n, itemsPerPage, true) == coins[a..Max(a, b)];
      assert coins[..a] + coins[a..Max(a, b)] == coins[..b];
    }
  }

  /** Paging loses and repeats nothing: pages 1..TotalPages, read in order, are exactly the coin list. */
  lemma PagesPartitionCoins<T>(coins: seq<T>, itemsPerPage: int)
    requires itemsPerPage > 0
    ensures PagesUpTo(coins, TotalPages(|coins|, itemsPerPage), itemsPerPage) == coins
  {
    PagesUpToPrefix(coins, TotalPages(|coins|, itemsPerPage), itemsPerPage);
  }

  /** On a page that exists, "Showing X-Y of N" counts exactly the coins the table shows, and X <= Y <= N. */
  lemma ShowingMatchesSlice<T>(coins: seq<T>, currentPage: int, itemsPerPage: int)
    requires itemsPerPage > 0 && 1 <= currentPage <= TotalPages(|coins|, itemsPerPage)
    ensures var first := Pagination.StartItem(currentPage, itemsPerPage);
      var last := Pagination.EndItem(currentPage, itemsPerPage, |coins|);
      1 <= first <= last <= |coins|
      && last - first + 1 == |CurrentCoins(coins, currentPage, itemsPerPage, true)|
  {
    var p := TotalPages(|coins|, itemsPerPage);
    assert (currentPage - 1) * itemsPerPage <= (p - 1) * itemsPerPage by {
      assert currentPage - 1 <= p - 1;
    }
    assert (currentPage - 1) * itemsPerPage + itemsPerPage == currentPage * itemsPerPage;
  }

  /** The pagination bar is shown only when pagination is on and there is more than one page. */
  function ControlsVisible(showPagination: bool, totalPages: int): (visible: bool)
    ensures visible <==> showPagination && totalPages >= 2
  {
    showPagination && totalPages > 1
  }

  /** The table's page state: the current page, the page size, and the coin count the reset effect last saw. */
  class CoinTableState {
    var currentPage: int
    var itemsPerPage: int
    var seenCount: nat

    ghost predicate Valid()
      reads this
    {
      itemsPerPage > 0
    }

    /** A fresh table starts on page 1 with 25 coins per page. */
    constructor (coinCount: nat)
      ensures Valid()
      ensures currentPage == 1 && itemsPerPage == 25 && seenCount == coinCount
    {
      currentPage := 1;
      itemsPerPage := 25;
      seenCount := coinCount;
    }

    /** `onPageChange`: the page the Pagination component asks for becomes current. */
    method SetPage(page: int)
      requires Valid()
      modifies this`currentPage
      ensures Valid() && currentPage == page
    {
      currentPage := page;
    }

    /** `onItemsPerPageChange`: a new page size always sends the table back to page 1. */
    method ChangeItemsPerPage(newItemsPerPage: int)
      requires Valid() && newItemsPerPage > 0
      modifies this`currentPage, this`itemsPerPage
      ensures Valid()
      ensures itemsPerPage == newItemsPerPage && currentPage == 1
    {
      itemsPerPage := newItemsPerPage;
      currentPage := 1;
    }

    /** The effect on `coins.length`: a change in the number of coins sends the table back to page 1. */
    method CoinsChanged(coinCount: nat)
      requires Valid()
      modifies this`currentPage, this`seenCount
      ensures Valid() && seenCount == coinCount
      ensures currentPage == if coinCount != old(seenCount) then 1 else old(currentPage)
    {
      if coinCount != seenCount {
        currentPage := 1;
      }
      seenCount := coinCount;
    }

    /** The coins the table body renders. */
    function Shown<T>(coins: seq<T>, showPagination: bool): (shown: seq<T>)
      reads this
      requires Valid()
      ensures shown == CurrentCoins(coins, currentPage, itemsPerPage, showPagination)
      ensures showPagination && currentPage >= 1 ==> |shown| <= itemsPerPage
      ensures !showPagination ==> shown == coins
    {
      CurrentCoins(coins, currentPage, itemsPerPage, showPagination)
    }
  }

  // ---------------------------------------------------------------- sparkline

  /** The two palette colours the table uses. */
  datatype Tone = SuccessTone | ErrorTone

  /** `getSparklineColor`: red exactly when there are two or more points and the last is below the first. */
  function SparklineColor(sparkline: seq<real>): (t: Tone)
    ensures t == ErrorTone <==> |sparkline| >= 2 && sparkline[|sparkline| - 1] < sparkline[0]
  {
    if |sparkline| < 2 then SuccessTone
    else if sparkline[|sparkline| - 1] >= sparkline[0] then SuccessTone
    else ErrorTone
  }

  /** `Math.max(...s)`. */
  function SeqMax(s: seq<real>): (m: real)
    requires |s| > 0
    ensures m in s && forall k :: 0 <= k < |s| ==> s[k] <= m
  {
    if |s| == 1 then s[0]
    else var rest := SeqMax(s[1..]); if s[0] >= rest then s[0] else rest
  }

  /** `Math.min(...s)`. */
  function SeqMin(s: seq<real>): (m: real)
    requires |s| > 0
    ensures m in s && forall k :: 0 <= k < |s| ==> m <= s[k]
  {
    if |s| == 1 then s[0]
    else var rest := SeqMin(s[1..]); if s[0] <= rest then s[0] else rest
  }

  /** A ratio a/r of 0 <= a <= r lies in [0, 1], and is 0 or 1 exactly at the ends. */
  lemma RatioBounds(a: real, r: real)
    requires r > 0.0 && 0.0 <= a <= r
    ensures 0.0 <= a / r <= 1.0
    ensures a / r == 0.0 <==> a == 0.0
    ensures a / r == 1.0 <==> a == r
  {
    var t := a / r;
    assert t * r == a;
  }

  /** The height of one bar: 12 when all points are equal, otherwise scaled linearly into [5, 25]. */
  function BarHeight(value: real, min: real, max: real): (h: real)
    requires min <= value <= max
    ensures 5.0 <= h <= 25.0
    ensures max == min ==> h == 12.0
    ensures max > min ==> (h == 5.0 <==> value == min) && (h == 25.0 <==> value == max)
  {
    var range := max - min;
    if range > 0.0 then
      RatioBounds(value - min, range);
      (value - min) / range * 20.0 + 5.0
    else 12.0
  }

  /** Bars keep the order of the values they draw. */
  lemma BarHeightMonotone(v: real, w: real, min: real, max: real)
    requires min <= v <= w <= max
    ensures BarHeight(v, min, max) <= BarHeight(w, min, max)
  {
    if max > min {
      var range := max - min;
      assert (v - min) / range <= (w - min) / range by {
        assert (v - min) <= (w - min);
      }
    }
  }

  /**
   * `renderSparkline`: nothing for an empty series; otherwise one bar for
   * each of the last seven points, scaled against the whole series.
   */
  function RenderSparkline(sparkline: seq<real>): (bars: Option<seq<real>>)
    ensures bars.None? <==> sparkline == []
    ensures bars.Some? ==>
              |bars.value| == Min(7, |sparkline|)
              && forall k :: 0 <= k < |bars.value| ==> 5.0 <= bars.value[k] <= 25.0
    ensures bars.Some? ==>
              forall k :: 0 <= k < |bars.value| ==>
                bars.value[k] == BarHeight(sparkline[|sparkline| - |bars.value| + k], SeqMin(sparkline), SeqMax(sparkline))
  {
    if sparkline == [] then None
    else
      var max, min := SeqMax(sparkline), SeqMin(sparkline);
      var drawn := Slice(sparkline, -7, |sparkline|);
      assert drawn == sparkline[|sparkline| - Min(7, |sparkline|)..];
      Some(seq(|drawn|, k requires 0 <= k < |drawn| => BarHeight(drawn[k], min, max)))
  }
}
