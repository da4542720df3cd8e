/**
 * The Pagination component: the window of page buttons with `...` markers,
 * what clicking an entry forwards, the "Showing X-Y of N" bounds and which
 * navigation buttons are enabled.
 */
module Pagination {
  import opened Wrappers
  import opened JsBuiltins

  /** One entry of the visible-page list: a page number or a `'...'` marker. */
  datatype PageEntry = Page(number: int) | Ellipsis

  /** How many pages either side of the current one are shown: one on a narrow screen, two otherwise. */
  function Delta(isMobile: bool): (d: int)
    ensures 1 <= d <= 2
    ensures d == 1 <==> isMobile
  {
    if isMobile then 1 else 2
  }

  /** The pages lo, lo+1, ..., hi (none when lo > hi). */
  function PageRun(lo: int, hi: int): (r: seq<PageEntry>)
    decreases hi - lo
    ensures |r| == if lo <= hi then hi - lo + 1 else 0
    ensures forall k :: 0 <= k < |r| ==> r[k] == Page(lo + k)
  {
    if lo > hi then [] else [Page(lo)] + PageRun(lo + 1, hi)
  }

  /** What precedes the window: page 1, followed by a marker when the window starts after page 2. */
  function Lead(current: int, delta: int): seq<PageEntry>
  {
    if current - delta > 2 then [Page(1), Ellipsis] else [Page(1)]
  }

  /** What follows the window: the last page, preceded by a marker when the window ends before the page before it. */
  function Trail(current: int, total: int, delta: int): seq<PageEntry>
  {
    if current + delta < total - 1 then [Ellipsis, Page(total)] else [Page(total)]
  }

  /** The list `getVisiblePages` builds, as a value. */
  function VisiblePages(current: int, total: int, delta: int): seq<PageEntry>
  {
    Lead(current, delta) + PageRun(Max(2, current - delta), Min(total - 1, current + delta)) + Trail(current, total, delta)
  }

  /** `getVisiblePages`: collect the middle run with a loop, then add page 1, the markers and the last page. */
  method GetVisiblePages(currentPage: int, totalPages: int, isMobile: bool) returns (rangeWithDots: seq<PageEntry>)
    ensures rangeWithDots == VisiblePages(currentPage, totalPages, Delta(isMobile))
    ensures |rangeWithDots| >= 2
    ensures rangeWithDots[0] == Page(1) && rangeWithDots[|rangeWithDots| - 1] == Page(totalPages)
  {
    var delta := Delta(isMobile);
    var lo := Max(2, currentPage - delta);
    var hi := Min(totalPages - 1, currentPage + delta);
    var range: seq<PageEntry> := [];
    var i := lo;
    while i <= hi
      invariant lo <= i <= Max(lo, hi + 1)
      invariant |range| == i - lo
      invariant forall k :: 0 <= k < |range| ==> range[k] == Page(lo + k)
    {
      range := range + [Page(i)];
      i := i + 1;
    }
    assert range == PageRun(lo, hi);

    var head: seq<PageEntry>;
    if currentPage - delta > 2 {
      head := [Page(1), Ellipsis];
    } else {
      head := [Page(1)];
    }
    assert head == Lead(currentPage, delta);
    var tail: seq<PageEntry>;
    if currentPage + delta < totalPages - 1 {
      tail := [Ellipsis, Page(totalPages)];
    } else {
      tail := [Page(totalPages)];
    }
    assert tail == Trail(currentPage, totalPages, delta);
    rangeWithDots := head + range + tail;
    assert rangeWithDots[0] == head[0];
    assert rangeWithDots[|rangeWithDots| - 1] == tail[|tail| - 1];
  }

  /**
   * The window around a valid current page never loses a page: neighbouring
   * numbers differ by one, and a marker always stands between two numbers
   * with at least one hidden page between them.
   */
  ghost predicate Contiguous(entries: seq<PageEntry>)
  {
    forall k :: 0 <= k < |entries| - 1 ==>
      (entries[k].Page? && entries[k + 1].Page? ==> entries[k + 1].number == entries[k].number + 1)
      && (entries[k + 1].Ellipsis? ==>
            k + 2 < |entries| && entries[k].Page? && entries[k + 2].Page?
            && entries[k + 2].number >= entries[k].number + 2)
  }

  /** Markers appear exactly where the window is cut off from the ends. */
  lemma VisiblePagesMarkers(current: int, total: int, delta: int)
    requires 1 <= delta && 1 <= current <= total
    ensures var v := VisiblePages(current, total, delta);
      |v| >= 2
      && v[0] == Page(1) && v[|v| - 1] == Page(total)
      && (v[1] == Ellipsis <==> current - delta > 2)
      && (v[|v| - 2] == Ellipsis <==> current + delta < total - 1)
  {
    var lead, trail := Lead(current, delta), Trail(current, total, delta);
    var run := PageRun(Max(2, current - delta), Min(total - 1, current + delta));
    var v := lead + run + trail;
    assert v == VisiblePages(current, total, delta);
    if run == [] {
      // the window is empty only when there are at most two pages, and then neither marker appears
      assert total <= 2;
      assert |lead| == 1 && |trail| == 1;
    } else {
      assert v[1] == (lead + run)[1];
      assert v[|v| - 2] == (run + trail)[|run + trail| - 2];
    }
  }

  /** The middle entries are the contiguous pages from max(2, current-delta) to min(total-1, current+delta), all strictly between 1 and the last page. */
  lemma VisiblePagesMiddle(current: int, total: int, delta: int)
    requires 1 <= delta
    ensures var v := VisiblePages(current, total, delta);
      var l := |Lead(current, delta)|;
      var r := |Trail(current, total, delta)|;
      l + r <= |v|
      && v[l..|v| - r] == PageRun(Max(2, current - delta), Min(total - 1, current + delta))
      && forall k :: l <= k < |v| - r ==> 1 < v[k].number < total
  {
    var lead, trail := Lead(current, delta), Trail(current, total, delta);
    var run := PageRun(Max(2, current - delta), Min(total - 1, current + delta));
    var v := lead + run + trail;
    assert v == VisiblePages(current, total, delta);
    assert v[|lead|..|v| - |trail|] == run;
  }

  /** With a single page, page 1 is listed twice. */
  lemma SinglePageListedTwice(delta: int)
    requires 1 <= delta
    ensures VisiblePages(1, 1, delta) == [Page(1), Page(1)]
  {
    assert PageRun(2, Min(0, 1 + delta)) == [];
  }

  /** The shape `VisiblePages` has when there are three or more pages: lead, a non-empty run, trail. */
  ghost predicate WellShaped(lead: seq<PageEntry>, run: seq<PageEntry>, trail: seq<PageEntry>, lo: int, hi: int, total: int)
  {
    lo <= hi && run == PageRun(lo, hi)
    && ((lead == [Page(1)] && lo == 2) || (lead == [Page(1), Ellipsis] && lo >= 3))
    && ((trail == [Page(total)] && hi == total - 1) || (trail == [Ellipsis, Page(total)] && hi <= total - 2))
  }

  /** The contiguity condition at one position of a well-shaped list. */
  lemma ContiguousAt(lead: seq<PageEntry>, run: seq<PageEntry>, trail: seq<PageEntry>, lo: int, hi: int, total: int, k: int)
    requires WellShaped(lead, run, trail, lo, hi, total)
    requires 0 <= k < |lead + run + trail| - 1
    ensures var v := lead + run + trail;
      (v[k].Page? && v[k + 1].Page? ==> v[k + 1].number == v[k].number + 1)
      && (v[k + 1].Ellipsis? ==> k + 2 < |v| && v[k].Page? && v[k + 2].Page? && v[k + 2].number >= v[k].number + 2)
  {
    var v := lead + run + trail;
    var ra, rr := |lead|, |lead| + |run|;
    if k + 1 < ra {
      assert v[k] == Page(1) && v[k + 1] == Ellipsis && v[k + 2] == run[0] == Page(lo);
    } else if k + 1 == ra {
      assert v[k] == lead[k] && v[k + 1] == run[0] == Page(lo);
    } else if k + 1 < rr {
      assert v[k] == run[k - ra] && v[k + 1] == run[k + 1 - ra];
    } else if k + 1 == rr {
      assert v[k] == run[|run| - 1] == Page(hi) && v[k + 1] == trail[0];
      if |trail| == 2 {
        assert v[k + 2] == trail[1] == Page(total);
      }
    } else {
      assert v[k] == trail[0] == Ellipsis && v[k + 1] == trail[1];
    }
  }

  /** For two or more pages and a valid current page, no page is lost: numbers step by one or are separated by a marker over a gap. */
  lemma VisiblePagesContiguous(current: int, total: int, delta: int)
    requires 1 <= delta && 2 <= total && 1 <= current <= total
    ensures Contiguous(VisiblePages(current, total, delta))
  {
    var lo, hi := Max(2, current - delta), Min(total - 1, current + delta);
    var lead, trail := Lead(current, delta), Trail(current, total, delta);
    var run := PageRun(lo, hi);
    var v := lead + run + trail;
    assert v == VisiblePages(current, total, delta);
    if total == 2 {
      assert lead == [Page(1)] && trail == [Page(2)] && run == [];
      assert v == [Page(1), Page(2)];
    } else {
      assert WellShaped(lead, run, trail, lo, hi, total);
      forall k | 0 <= k < |v| - 1
        ensures (v[k].Page? && v[k + 1].Page? ==> v[k + 1].number == v[k].number + 1)
        ensures (v[k + 1].Ellipsis? ==>
                   k + 2 < |v| && v[k].Page? && v[k + 2].Page? && v[k + 2].number >= v[k].number + 2)
      {
        ContiguousAt(lead, run, trail, lo, hi, total, k);
      }
    }
  }

  /** For a valid current page, that page is among the visible entries. */
  lemma CurrentPageListed(current: int, total: int, delta: int)
    requires 1 <= delta && 1 <= current <= total
    ensures Page(current) in VisiblePages(current, total, delta)
  {
    var lo, hi := Max(2, current - delta), Min(total - 1, current + delta);
    var lead, trail := Lead(current, delta), Trail(current, total, delta);
    var run := PageRun(lo, hi);
    var v := lead + run + trail;
    assert v == VisiblePages(current, total, delta);
    if current == 1 {
      assert v[0] == Page(current);
    } else if current == total {
      assert v[|v| - 1] == trail[|trail| - 1] == Page(current);
    } else {
      assert lo <= current <= hi;
      assert v[|lead| + current - lo] == run[current - lo] == Page(current);
    }
  }

  /** `handlePageClick`: a number entry forwards its page to `onPageChange`, a marker forwards nothing. */
  function HandlePageClick(entry: PageEntry): (forwarded: Option<int>)
    ensures forwarded.Some? <==> entry.Page?
    ensures forwarded.Some? ==> forwarded.value == entry.number
  {
    match entry
    case Page(n) => Some(n)
    case Ellipsis => None
  }

  /** Clicking any visible entry on a valid page can only ask for a page that exists. */
  lemma ClickStaysInRange(current: int, total: int, delta: int, k: int)
    requires 1 <= delta && 1 <= current <= total
    requires 0 <= k < |VisiblePages(current, total, delta)|
    ensures var f := HandlePageClick(VisiblePages(current, total, delta)[k]);
      f.Some? ==> 1 <= f.value <= total
  {
    var v := VisiblePages(current, total, delta);
    VisiblePagesMarkers(current, total, delta);
    VisiblePagesMiddle(current, total, delta);
    var l, r := |Lead(current, delta)|, |Trail(current, total, delta)|;
    if l <= k < |v| - r {
      assert v[k] == v[l..|v| - r][k - l];
    } else if k < l {
      assert k == 0 || v[k] == Ellipsis;
    } else {
      assert k == |v| - 1 || v[k] == Ellipsis;
    }
  }

  /** `startItem`: the 1-based position of the first item on the current page. */
  function StartItem(currentPage: int, itemsPerPage: int): (s: int)
    ensures currentPage >= 1 && itemsPerPage >= 0 ==> s >= 1
    ensures s - 1 + itemsPerPage == currentPage * itemsPerPage
  {
    (currentPage - 1) * itemsPerPage + 1
  }

  /** `endItem`: the position of the last item on the current page, never beyond the total. */
  function EndItem(currentPage: int, itemsPerPage: int, totalItems: int): (e: int)
    ensures e <= totalItems
    ensures e <= currentPage * itemsPerPage
    ensures e == currentPage * itemsPerPage || e == totalItems
  {
    Min(currentPage * itemsPerPage, totalItems)
  }

  /**
   * On a page that holds at least one item, "Showing X-Y" names a non-empty
   * range of at most itemsPerPage positions, exactly itemsPerPage unless it
   * is the last page.
   */
  lemma ShowingRange(currentPage: int, itemsPerPage: int, totalItems: int)
    requires currentPage >= 1 && itemsPerPage >= 1
    requires StartItem(currentPage, itemsPerPage) <= totalItems
    ensures var first, last := StartItem(currentPage, itemsPerPage), EndItem(currentPage, itemsPerPage, totalItems);
      1 <= first <= last <= totalItems
      && last - first + 1 <= itemsPerPage
      && (last - first + 1 == itemsPerPage <==> currentPage * itemsPerPage <= totalItems)
  {
  }

  /** The four navigation buttons. */
  datatype NavButton = First | Previous | Next | Last

  /** A button is disabled at the edge it moves towards. */
  function Enabled(b: NavButton, currentPage: int, totalPages: int): bool
  {
    match b
    case First | Previous => currentPage != 1
    case Next | Last => currentPage != totalPages
  }

  /** The page a button passes to `onPageChange`. */
  function Target(b: NavButton, currentPage: int, totalPages: int): int
  {
    match b
    case First => 1
    case Previous => currentPage - 1
    case Next => currentPage + 1
    case Last => totalPages
  }

  /** From a valid page, every enabled button leads to a valid page, and the disabled ones are exactly those at an edge. */
  lemma NavigationStaysInRange(b: NavButton, currentPage: int, totalPages: int)
    requires 1 <= currentPage <= totalPages
    ensures Enabled(b, currentPage, totalPages) ==> 1 <= Target(b, currentPage, totalPages) <= totalPages
    ensures !Enabled(b, currentPage, totalPages) <==>
              ((b == First || b == Previous) && currentPage == 1) || ((b == Next || b == Last) && currentPage == totalPages)
  {
  }
}
