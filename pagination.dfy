/** The page-number control under the product grid: which page labels it
    shows for a current page and a page count, and what its Previous, Next
    and page buttons request. */
module Pagination {
  import opened CatalogTypes

  /** One label of the control: a page button or an ellipsis marker. */
  datatype PageItem = PageLink(page: int) | Ellipsis

  /** The page buttons `lo`, `lo + 1`, ..., `hi` (none when `lo > hi`). */
  function Links(lo: int, hi: int): seq<PageItem> {
    seq(if lo <= hi then hi - lo + 1 else 0, k => PageLink(lo + k))
  }

  lemma LinksSnoc(lo: int, hi: int)
    requires lo <= hi + 1
    ensures Links(lo, hi) + [PageLink(hi + 1)] == Links(lo, hi + 1)
  {
  }

  /** The window in closed form: up to seven pages in full;
      otherwise the first five near the start, the last five near the end,
      or the current page with its two neighbours, with ellipses for the
      elided runs and the first and last page always present. */
  function Window(currentPage: int, totalPages: int): seq<PageItem> {
    if totalPages <= 7 then Links(1, totalPages)
    else if currentPage <= 4 then Links(1, 5) + [Ellipsis, PageLink(totalPages)]
    else if currentPage >= totalPages - 3 then [PageLink(1), Ellipsis] + Links(totalPages - 4, totalPages)
    else [PageLink(1), Ellipsis] + Links(currentPage - 1, currentPage + 1) + [Ellipsis, PageLink(totalPages)]
  }

  function Min(a: int, b: int): int { if a <= b then a else b }
  function Max(a: int, b: int): int { if a >= b then a else b }

  /** `getPageNumbers`: builds the labels by pushing onto a list, with the
      source's own loop bounds `min(5, totalPages - 1)` and
      `max(totalPages - 4, 2)` and its `totalPages > 5` test. */
  method GetPageNumbers(currentPage: int, totalPages: int) returns (pages: seq<PageItem>)
    ensures pages == Window(currentPage, totalPages)
  {
    pages := [];
    var showEllipsis := totalPages > 7;
    if !showEllipsis {
      var i := 1;
      while i <= totalPages
        invariant 1 <= i <= Max(totalPages + 1, 1)
        invariant pages == Links(1, i - 1)
      {
        LinksSnoc(1, i - 1);
        pages := pages + [PageLink(i)];
        i := i + 1;
      }
    } else {
      pages := pages + [PageLink(1)];
      if currentPage <= 4 {
        var i := 2;
        var hi := Min(5, totalPages - 1);
        while i <= hi
          invariant 2 <= i <= hi + 1
          invariant pages == Links(1, i - 1)
        {
          LinksSnoc(1, i - 1);
          pages := pages + [PageLink(i)];
          i := i + 1;
        }
        if totalPages > 5 {
          pages := pages + [Ellipsis];
        }
        pages := pages + [PageLink(totalPages)];
      } else if currentPage >= totalPages - 3 {
        pages := pages + [Ellipsis];
        var i := Max(totalPages - 4, 2);
        ghost var head := pages;
        while i <= totalPages - 1
          invariant totalPages - 4 <= i <= totalPages
          invariant pages == head + Links(totalPages - 4, i - 1)
        {
          LinksSnoc(totalPages - 4, i - 1);
          pages := pages + [PageLink(i)];
          i := i + 1;
        }
        LinksSnoc(totalPages - 4, totalPages - 1);
        pages := pages + [PageLink(totalPages)];
      } else {
        pages := pages + [Ellipsis];
        var i := currentPage - 1;
        ghost var head := pages;
        while i <= currentPage + 1
          invariant currentPage - 1 <= i <= currentPage + 2
          invariant pages == head + Links(currentPage - 1, i - 1)
        {
          LinksSnoc(currentPage - 1, i - 1);
          pages := pages + [PageLink(i)];
          i := i + 1;
        }
        pages := pages + [Ellipsis];
        pages := pages + [PageLink(totalPages)];
      }
    }
  }

  // ---- Properties of the window ----

  /** Up to seven pages: every page from 1 to `totalPages`, in order, and no
      ellipsis. */
  lemma SmallWindowListsEveryPage(currentPage: int, totalPages: int)
    requires 2 <= totalPages <= 7
    ensures |Window(currentPage, totalPages)| == totalPages
    ensures forall k :: 0 <= k < totalPages ==> Window(currentPage, totalPages)[k] == PageLink(k + 1)
  {
  }

  /** More than seven pages: exactly seven labels, first page first and last
      page last. */
  lemma LargeWindowShape(currentPage: int, totalPages: int)
    requires totalPages > 7
    ensures |Window(currentPage, totalPages)| == 7
    ensures Window(currentPage, totalPages)[0] == PageLink(1)
    ensures Window(currentPage, totalPages)[6] == PageLink(totalPages)
  {
  }

  /** The three shapes of a large window, written out label by label. */
  lemma LargeWindowCases(c: int, t: int)
    requires t > 7
    ensures c <= 4 ==> (Window(c, t) ==
      [PageLink(1), PageLink(2), PageLink(3), PageLink(4), PageLink(5), Ellipsis, PageLink(t)])
    ensures 4 < c && c >= t - 3 ==> (Window(c, t) ==
      [PageLink(1), Ellipsis, PageLink(t - 4), PageLink(t - 3), PageLink(t - 2), PageLink(t - 1), PageLink(t)])
    ensures 4 < c < t - 3 ==> (Window(c, t) ==
      [PageLink(1), Ellipsis, PageLink(c - 1), PageLink(c), PageLink(c + 1), Ellipsis, PageLink(t)])
  {
  }

  predicate IncreasingPages(w: seq<PageItem>) {
    forall i, j :: 0 <= i < j < |w| && w[i].PageLink? && w[j].PageLink? ==> w[i].page < w[j].page
  }

  predicate PagesWithin(w: seq<PageItem>, totalPages: int) {
    forall i :: 0 <= i < |w| && w[i].PageLink? ==> 1 <= w[i].page <= totalPages
  }

  predicate NoAdjacentEllipses(w: seq<PageItem>) {
    forall i :: 0 <= i < |w| - 1 ==> !(w[i].Ellipsis? && w[i + 1].Ellipsis?)
  }

  predicate HasPage(w: seq<PageItem>, p: int) {
    exists k :: 0 <= k < |w| && w[k] == PageLink(p)
  }

  /** Whatever the current page, the page labels increase strictly, never
      leave 1..totalPages, and no two ellipses touch. */
  lemma WindowWellFormed(currentPage: int, totalPages: int)
    ensures IncreasingPages(Window(currentPage, totalPages))
    ensures PagesWithin(Window(currentPage, totalPages), totalPages)
    ensures NoAdjacentEllipses(Window(currentPage, totalPages))
  {
    var w := Window(currentPage, totalPages);
    if totalPages > 7 {
      LargeWindowCases(currentPage, totalPages);
    }
  }

  /** A current page within range is always among the labels. */
  lemma WindowShowsCurrentPage(currentPage: int, totalPages: int)
    requires 1 <= currentPage <= totalPages
    ensures HasPage(Window(currentPage, totalPages), currentPage)
  {
    var w := Window(currentPage, totalPages);
    if totalPages <= 7 {
      assert w[currentPage - 1] == PageLink(currentPage);
    } else {
      LargeWindowCases(currentPage, totalPages);
      if currentPage <= 4 {
        assert w[currentPage - 1] == PageLink(currentPage);
      } else if currentPage >= totalPages - 3 {
        assert w[currentPage - totalPages + 6] == PageLink(currentPage);
      } else {
        assert w[3] == PageLink(currentPage);
      }
    }
  }

  /** The button for the current page is the only highlighted one: exactly
      one label is highlighted when the current page is within range. */
  lemma ExactlyOneHighlighted(currentPage: int, totalPages: int)
    requires 1 <= currentPage <= totalPages
    ensures HasPage(Window(currentPage, totalPages), currentPage)
    ensures forall i, j ::
      (0 <= i < j < |Window(currentPage, totalPages)| && Window(currentPage, totalPages)[i] == PageLink(currentPage))
      ==> Window(currentPage, totalPages)[j] != PageLink(currentPage)
  {
    WindowShowsCurrentPage(currentPage, totalPages);
    WindowWellFormed(currentPage, totalPages);
  }

  // ---- The rendered control and its buttons ----

  /** A Previous or Next button: the page it requests and whether it is
      disabled. */
  datatype NavButton = NavButton(target: int, disabled: bool)

  datatype Control =
    | Hidden
    | Shown(previous: NavButton, items: seq<PageItem>, next: NavButton)

  /** The component: nothing at all for at most one page; otherwise
      Previous, the window and Next. */
  function Render(currentPage: int, totalPages: int): Control {
    if totalPages <= 1 then Hidden
    else Shown(NavButton(currentPage - 1, currentPage == 1),
               Window(currentPage, totalPages),
               NavButton(currentPage + 1, currentPage == totalPages))
  }

  /** A click on the control: Previous, Next, or the label at a position. */
  datatype Click = PreviousClick | NextClick | ItemClick(position: nat)

  /** The page a click asks for (`onPageChange`), or `None` when the click
      reaches no enabled button. */
  function Request(currentPage: int, totalPages: int, click: Click): Option<int> {
    match Render(currentPage, totalPages)
    case Hidden => None
    case Shown(previous, items, next) =>
      match click
      case PreviousClick => if previous.disabled then None else Some(previous.target)
      case NextClick => if next.disabled then None else Some(next.target)
      case ItemClick(k) =>
        if k < |items| && items[k].PageLink? then Some(items[k].page) else None
  }

  /** At most one page: no window and no buttons. */
  lemma HiddenForAtMostOnePage(currentPage: int, totalPages: int, click: Click)
    ensures Render(currentPage, totalPages).Hidden? <==> totalPages <= 1
    ensures totalPages <= 1 ==> Request(currentPage, totalPages, click).None?
  {
  }

  /** Previous asks for the page before and is dead exactly on page 1; Next
      asks for the page after and is dead exactly on the last page. */
  lemma NavigationRequests(currentPage: int, totalPages: int)
    requires totalPages > 1
    ensures Request(currentPage, totalPages, PreviousClick) ==
      (if currentPage == 1 then None else Some(currentPage - 1))
    ensures Request(currentPage, totalPages, NextClick) ==
      (if currentPage == totalPages then None else Some(currentPage + 1))
  {
  }

  /** From a page within range, every request stays within range; from any
      page of at least 1, every request is at least 1. */
  lemma RequestStaysInRange(currentPage: int, totalPages: int, click: Click)
    requires currentPage >= 1
    ensures Request(currentPage, totalPages, click).Some? ==>
      Request(currentPage, totalPages, click).value >= 1
    ensures currentPage <= totalPages && Request(currentPage, totalPages, click).Some? ==>
      Request(currentPage, totalPages, click).value <= totalPages
  {
    WindowWellFormed(currentPage, totalPages);
  }
}
