/** The page-number strip under the problem table
    (client/src/components/leetcode/table/Pagination.tsx): page 1, an
    optional "...", a window of up to five pages around the current page, an
    optional "...", and the last page; plus the "Showing X to Y" caption and
    the disabled conditions of the previous/next buttons. */
module Pagination {

  /** One entry of the strip: a page button or an ellipsis. */
  datatype PageEntry = Page(n: int) | Ellipsis

  function Max(a: int, b: int): int { if a >= b then a else b }
  function Min(a: int, b: int): int { if a <= b then a else b }

  /** `Math.max(2, currentPage - 2)`. */
  function RangeStart(currentPage: int): int {
    Max(2, currentPage - 2)
  }

  /** `Math.min(totalPages - 1, currentPage + 2)`. */
  function RangeEnd(totalPages: int, currentPage: int): int {
    Min(totalPages - 1, currentPage + 2)
  }

  /** The pages `lo, lo + 1, ..., hi` (none when `lo > hi`). */
  function Window(lo: int, hi: int): (w: seq<PageEntry>)
    ensures |w| == if lo <= hi then hi - lo + 1 else 0
  {
    seq(if lo <= hi then hi - lo + 1 else 0, i => Page(lo + i))
  }

  lemma WindowExtend(lo: int, hi: int)
    requires lo <= hi
    ensures Window(lo, hi) == Window(lo, hi - 1) + [Page(hi)]
  {
  }

  /** The strip `getPageNumbers` returns, part by part. */
  function PageNumbers(totalPages: int, currentPage: int): seq<PageEntry> {
    StripHead(totalPages, currentPage)
    + Window(RangeStart(currentPage), RangeEnd(totalPages, currentPage))
    + StripTail(totalPages, currentPage)
  }

  /** Page 1 of a non-empty list, then "..." when the window starts after page 2. */
  function StripHead(totalPages: int, currentPage: int): seq<PageEntry> {
    (if totalPages >= 1 then [Page(1)] else [])
    + (if RangeStart(currentPage) > 2 then [Ellipsis] else [])
  }

  /** "..." when the window ends before the page before last, then the last
      page of a list of several pages. */
  function StripTail(totalPages: int, currentPage: int): seq<PageEntry> {
    (if RangeEnd(totalPages, currentPage) < totalPages - 1 then [Ellipsis] else [])
    + (if totalPages > 1 then [Page(totalPages)] else [])
  }

  /** getPageNumbers, with the pushes and the `for` loop of the source. */
  method GetPageNumbers(totalPages: int, currentPage: int) returns (visiblePages: seq<PageEntry>)
    ensures visiblePages == PageNumbers(totalPages, currentPage)
  {
    visiblePages := [];
    if totalPages >= 1 {
      visiblePages := visiblePages + [Page(1)];
    }
    var rangeStart := Max(2, currentPage - 2);
    var rangeEnd := Min(totalPages - 1, currentPage + 2);
    if rangeStart > 2 {
      visiblePages := visiblePages + [Ellipsis];
    }
    ghost var head := visiblePages;
    assert head == StripHead(totalPages, currentPage);
    var i := rangeStart;
    while i <= rangeEnd
      invariant rangeStart <= i <= Max(rangeStart, rangeEnd + 1)
      invariant visiblePages == head + Window(rangeStart, i - 1)
      decreases rangeEnd - i
    {
      WindowExtend(rangeStart, i);
      visiblePages := visiblePages + [Page(i)];
      i := i + 1;
    }
    assert Window(rangeStart, i - 1) == Window(rangeStart, rangeEnd);
    ghost var body := visiblePages;
    if rangeEnd < totalPages - 1 {
      visiblePages := visiblePages + [Ellipsis];
    }
    if totalPages > 1 {
      visiblePages := visiblePages + [Page(totalPages)];
    }
    assert visiblePages == body + StripTail(totalPages, currentPage);
  }

  // ---- properties of the strip ----

  /** Page numbers appear in strictly increasing order. */
  predicate Increasing(r: seq<PageEntry>) {
    forall i, j :: 0 <= i < j < |r| && r[i].Page? && r[j].Page? ==> r[i].n < r[j].n
  }

  /** Every page number of `r` lies in `[lo, hi]`. */
  predicate PagesIn(r: seq<PageEntry>, lo: int, hi: int) {
    forall i :: 0 <= i < |r| && r[i].Page? ==> lo <= r[i].n <= hi
  }

  /** Every page number of `a` is below every page number of `b`. */
  predicate Before(a: seq<PageEntry>, b: seq<PageEntry>) {
    forall i, j :: 0 <= i < |a| && 0 <= j < |b| && a[i].Page? && b[j].Page? ==> a[i].n < b[j].n
  }

  lemma ConcatIncreasing(a: seq<PageEntry>, b: seq<PageEntry>)
    requires Increasing(a) && Increasing(b) && Before(a, b)
    ensures Increasing(a + b)
  {
    var c := a + b;
    forall i, j | 0 <= i < j < |c| && c[i].Page? && c[j].Page?
      ensures c[i].n < c[j].n
    {
      if j < |a| {
        assert c[i] == a[i] && c[j] == a[j];
      } else if i >= |a| {
        assert c[i] == b[i - |a|] && c[j] == b[j - |a|];
      } else {
        assert c[i] == a[i] && c[j] == b[j - |a|];
      }
    }
  }

  /** The page numbers of the strip are strictly increasing and all lie in
      `[1, totalPages]`, whatever the current page. */
  lemma PageNumbersOrdered(totalPages: int, currentPage: int)
    ensures var r := PageNumbers(totalPages, currentPage);
      Increasing(r) && PagesIn(r, 1, totalPages)
  {
    PageNumbersIncreasing(totalPages, currentPage);
    var r := PageNumbers(totalPages, currentPage);
    forall i | 0 <= i < |r| && r[i].Page?
      ensures 1 <= r[i].n <= totalPages
    {
      assert r[i] in r;
      PageNumbersMembership(totalPages, currentPage, r[i].n);
    }
  }

  lemma PageNumbersIncreasing(totalPages: int, currentPage: int)
    ensures Increasing(PageNumbers(totalPages, currentPage))
  {
    PartsOrdered(totalPages, currentPage);
    ThreePartsIncreasing(StripHead(totalPages, currentPage),
                         Window(RangeStart(currentPage), RangeEnd(totalPages, currentPage)),
                         StripTail(totalPages, currentPage),
                         Max(1, totalPages - 1), Max(2, totalPages), totalPages);
  }

  /** Each part of the strip is ordered and lies in its own range; the
      tail's range is empty when the list has fewer than two pages. */
  lemma PartsOrdered(totalPages: int, currentPage: int)
    ensures var head := StripHead(totalPages, currentPage);
      Increasing(head) && PagesIn(head, 1, 1)
    ensures var w := Window(RangeStart(currentPage), RangeEnd(totalPages, currentPage));
      Increasing(w) && PagesIn(w, 2, Max(1, totalPages - 1))
    ensures var tail := StripTail(totalPages, currentPage);
      Increasing(tail) && PagesIn(tail, Max(2, totalPages), totalPages)
  {
    WindowOrdered(RangeStart(currentPage), RangeEnd(totalPages, currentPage));
  }

  lemma ThreePartsIncreasing(h: seq<PageEntry>, w: seq<PageEntry>, t: seq<PageEntry>, m: int, lt: int, ht: int)
    requires Increasing(h) && PagesIn(h, 1, 1)
    requires Increasing(w) && PagesIn(w, 2, m)
    requires Increasing(t) && PagesIn(t, lt, ht)
    requires 1 <= m < lt
    ensures Increasing(h + w + t)
  {
    BoundsBefore(h, w, 1, 1, 2, m);
    ConcatIncreasing(h, w);
    ConcatPagesIn(h, w, 1, m);
    BoundsBefore(h + w, t, 1, m, lt, ht);
    ConcatIncreasing(h + w, t);
  }

  lemma WindowOrdered(lo: int, hi: int)
    ensures Increasing(Window(lo, hi)) && PagesIn(Window(lo, hi), lo, hi)
  {
  }

  lemma BoundsBefore(a: seq<PageEntry>, b: seq<PageEntry>, la: int, ha: int, lb: int, hb: int)
    requires PagesIn(a, la, ha) && PagesIn(b, lb, hb) && ha < lb
    ensures Before(a, b)
  {
  }

  lemma ConcatPagesIn(a: seq<PageEntry>, b: seq<PageEntry>, lo: int, hi: int)
    requires PagesIn(a, lo, hi) && PagesIn(b, lo, hi)
    ensures PagesIn(a + b, lo, hi)
  {
    var c := a + b;
    forall i | 0 <= i < |c| && c[i].Page?
      ensures lo <= c[i].n <= hi
    {
      if i < |a| {
        assert c[i] == a[i];
      } else {
        assert c[i] == b[i - |a|];
      }
    }
  }

  /** The page `p` is in the strip exactly when it is page 1 of a non-empty
      list, the last page of a list of several pages, or an inner page at
      most two away from the current page. */
  lemma PageNumbersMembership(totalPages: int, currentPage: int, p: int)
    ensures Page(p) in PageNumbers(totalPages, currentPage) <==>
      (p == 1 && totalPages >= 1) || (p == totalPages && totalPages > 1) ||
      (2 <= p <= totalPages - 1 && currentPage - 2 <= p <= currentPage + 2)
  {
    var lo := RangeStart(currentPage);
    var hi := RangeEnd(totalPages, currentPage);
    var w := Window(lo, hi);
    if lo <= p <= hi {
      assert w[p - lo] == Page(p);
    }
    assert Page(p) in w <==> lo <= p <= hi;
  }

  /** When the list is not empty the strip opens with page 1, and when it
      has several pages it closes with the last one. */
  lemma PageNumbersEnds(totalPages: int, currentPage: int)
    ensures var r := PageNumbers(totalPages, currentPage);
      (totalPages >= 1 ==> |r| >= 1 && r[0] == Page(1)) &&
      (totalPages > 1 ==> r[|r| - 1] == Page(totalPages))
  {
  }

  /** The current page, when it is a page of the list, is in the strip. */
  lemma CurrentPageShown(totalPages: int, currentPage: int)
    requires 1 <= currentPage <= totalPages
    ensures Page(currentPage) in PageNumbers(totalPages, currentPage)
  {
    PageNumbersMembership(totalPages, currentPage, currentPage);
  }

  /** Between page 1 and the last page at most five pages are shown, all
      within two of the current page, and the strip has at most nine entries. */
  lemma WindowAtMostFive(totalPages: int, currentPage: int)
    ensures var r := PageNumbers(totalPages, currentPage);
      |r| <= 9 && |Window(RangeStart(currentPage), RangeEnd(totalPages, currentPage))| <= 5 &&
      forall i :: 0 <= i < |r| && r[i].Page? && r[i].n != 1 && r[i].n != totalPages ==>
        currentPage - 2 <= r[i].n <= currentPage + 2
  {
    var r := PageNumbers(totalPages, currentPage);
    forall i | 0 <= i < |r| && r[i].Page? && r[i].n != 1 && r[i].n != totalPages
      ensures currentPage - 2 <= r[i].n <= currentPage + 2
    {
      assert r[i] in r;
      PageNumbersMembership(totalPages, currentPage, r[i].n);
    }
  }

  /** For a current page of the list, the entry after page 1 is an ellipsis
      exactly when `max(2, currentPage - 2) > 2`, and the entry before the last
      page is one exactly when `min(totalPages - 1, currentPage + 2) < totalPages - 1`. */
  lemma EllipsisPlacement(totalPages: int, currentPage: int)
    requires 1 <= currentPage <= totalPages
    ensures var r := PageNumbers(totalPages, currentPage);
      ((|r| > 1 && r[1] == Ellipsis) <==> RangeStart(currentPage) > 2) &&
      ((|r| > 1 && r[|r| - 2] == Ellipsis) <==> RangeEnd(totalPages, currentPage) < totalPages - 1)
  {
    var lo := RangeStart(currentPage);
    var hi := RangeEnd(totalPages, currentPage);
    if totalPages >= 3 {
      assert lo <= hi;
      assert Window(lo, hi)[0] == Page(lo);
      assert Window(lo, hi)[hi - lo] == Page(hi);
    }
  }

  /** The strip for a current page of a list of at least three pages: page 1,
      an ellipsis exactly when the window starts after page 2, the window, an
      ellipsis exactly when it ends before the page before last, the last page. */
  predicate Shaped(r: seq<PageEntry>, h: seq<PageEntry>, w: seq<PageEntry>, t: seq<PageEntry>,
                   lo: int, hi: int, totalPages: int)
  {
    r == h + w + t && 2 <= lo <= hi <= totalPages - 1 && w == Window(lo, hi) &&
    ((lo == 2 && h == [Page(1)]) || (lo > 2 && h == [Page(1), Ellipsis])) &&
    ((hi == totalPages - 1 && t == [Page(totalPages)]) ||
     (hi < totalPages - 1 && t == [Ellipsis, Page(totalPages)]))
  }

  lemma ShapedAdjacent(r: seq<PageEntry>, h: seq<PageEntry>, w: seq<PageEntry>, t: seq<PageEntry>,
                       lo: int, hi: int, totalPages: int)
    requires Shaped(r, h, w, t, lo, hi, totalPages)
    ensures forall i :: 0 <= i < |r| - 1 && r[i].Page? && r[i + 1].Page? ==> r[i + 1].n == r[i].n + 1
  {
    forall i | 0 <= i < |r| - 1 && r[i].Page? && r[i + 1].Page?
      ensures r[i + 1].n == r[i].n + 1
    {
      var a := |h|;
      if i + 1 == a {
        assert r[i] == h[i] && r[i + 1] == w[0];
      } else if i + 1 < a + |w| {
        assert r[i] == w[i - a] && r[i + 1] == w[i + 1 - a];
      } else {
        assert r[i] == w[|w| - 1] && r[i + 1] == t[0];
      }
    }
  }

  lemma ShapedGaps(r: seq<PageEntry>, h: seq<PageEntry>, w: seq<PageEntry>, t: seq<PageEntry>,
                   lo: int, hi: int, totalPages: int)
    requires Shaped(r, h, w, t, lo, hi, totalPages)
    ensures forall i :: 0 < i < |r| - 1 && r[i] == Ellipsis ==>
      r[i - 1].Page? && r[i + 1].Page? && r[i + 1].n > r[i - 1].n + 1
  {
    forall i | 0 < i < |r| - 1 && r[i] == Ellipsis
      ensures r[i - 1].Page? && r[i + 1].Page? && r[i + 1].n > r[i - 1].n + 1
    {
      var a := |h|;
      if i < a {
        assert r[i - 1] == h[0] && r[i + 1] == w[0];
      } else if i < a + |w| {
        assert false;
      } else {
        assert r[i - 1] == w[|w| - 1] && r[i + 1] == t[1];
      }
    }
  }

  /** Read as "some pages skipped", an ellipsis is exact for a current page of
      the list: two page entries next to each other are consecutive pages, and
      an ellipsis sits between two pages with a gap between them. */
  lemma EllipsisMeansGap(totalPages: int, currentPage: int)
    requires 1 <= currentPage <= totalPages
    ensures var r := PageNumbers(totalPages, currentPage);
      r[0].Page? && r[|r| - 1].Page? &&
      (forall i :: 0 <= i < |r| - 1 && r[i].Page? && r[i + 1].Page? ==> r[i + 1].n == r[i].n + 1) &&
      (forall i :: 0 < i < |r| - 1 && r[i] == Ellipsis ==>
        r[i - 1].Page? && r[i + 1].Page? && r[i + 1].n > r[i - 1].n + 1)
  {
    PageNumbersEnds(totalPages, currentPage);
    if totalPages >= 3 {
      var r := PageNumbers(totalPages, currentPage);
      var h, w, t := StripHead(totalPages, currentPage),
        Window(RangeStart(currentPage), RangeEnd(totalPages, currentPage)), StripTail(totalPages, currentPage);
      StripShaped(totalPages, currentPage);
      ShapedAdjacent(r, h, w, t, RangeStart(currentPage), RangeEnd(totalPages, currentPage), totalPages);
      ShapedGaps(r, h, w, t, RangeStart(currentPage), RangeEnd(totalPages, currentPage), totalPages);
    }
  }

  lemma StripShaped(totalPages: int, currentPage: int)
    requires 1 <= currentPage <= totalPages && totalPages >= 3
    ensures Shaped(PageNumbers(totalPages, currentPage), StripHead(totalPages, currentPage),
                   Window(RangeStart(currentPage), RangeEnd(totalPages, currentPage)),
                   StripTail(totalPages, currentPage),
                   RangeStart(currentPage), RangeEnd(totalPages, currentPage), totalPages)
  {
  }

  // ---- caption and buttons ----

  /** The "Showing X to Y of N problems" caption: `X = (page - 1) * pageSize + 1`,
      `Y = min(page * pageSize, problemCnt)`. */
  function ShowingRange(currentPage: int, pageSize: int, problemCnt: int): (range: (int, int))
    requires pageSize > 0
    ensures range.1 <= problemCnt
    ensures currentPage >= 1 && (currentPage - 1) * pageSize < problemCnt ==>
      1 <= range.0 <= range.1 && range.1 - range.0 + 1 <= pageSize
  {
    ((currentPage - 1) * pageSize + 1, Min(currentPage * pageSize, problemCnt))
  }

  /** The caption counts exactly the rows of the page: the full page size on
      every page but the last, the remainder on the last. */
  lemma ShowingCountsPage(currentPage: int, pageSize: int, problemCnt: int)
    requires pageSize > 0 && currentPage >= 1 && (currentPage - 1) * pageSize < problemCnt
    ensures var range := ShowingRange(currentPage, pageSize, problemCnt);
      range.1 - range.0 + 1 == Min(pageSize, problemCnt - (currentPage - 1) * pageSize)
  {
  }

  /** The previous button is disabled on page 1. */
  predicate PrevDisabled(currentPage: int) {
    currentPage == 1
  }

  /** The next button is disabled on the page equal to the page count. */
  predicate NextDisabled(currentPage: int, pageCount: int) {
    currentPage == pageCount
  }
}
