/** The pagination bar under every admin list: a window of at most five numbered buttons around
    the current page, shortcuts to the first and last page with ellipses when the window does not
    reach them, and previous/next arrows. */
module Pagination {
  import opened Wrappers

  /** Number of numbered buttons the bar aims to show. */
  const MaxVisible := 5

  function Max(a: int, b: int): int { if a >= b then a else b }
  function Min(a: int, b: int): int { if a <= b then a else b }

  /** An arrow button: the page it requests and whether it is disabled. */
  datatype NavButton = NavButton(target: int, disabled: bool)

  /** A numbered button and whether it is drawn as the current page. */
  datatype PageButton = PageButton(page: int, highlighted: bool)

  datatype PageView = PageView(
    prev: NavButton,
    firstShortcut: bool,      // a separate button for page 1
    leadingEllipsis: bool,    // "..." between page 1 and the window
    buttons: seq<PageButton>,
    trailingEllipsis: bool,   // "..." between the window and the last page
    lastShortcut: bool,       // a separate button for the last page
    next: NavButton)

  // ---------------------------------------------------------------------------
  // Specification of the window
  // ---------------------------------------------------------------------------

  /** First page of the window before it is re-anchored: two pages back, but not before page 1. */
  function InitialStart(currentPage: int): int {
    Max(1, currentPage - MaxVisible / 2)
  }

  /** Last page of the window: four past the initial start, but not past the last page. */
  function WindowEnd(currentPage: int, lastPage: int): int {
    Min(lastPage, InitialStart(currentPage) + MaxVisible - 1)
  }

  /** First page of the window: when the window is short, it is moved back to hold five pages. */
  function WindowStart(currentPage: int, lastPage: int): int {
    var s := InitialStart(currentPage);
    var e := WindowEnd(currentPage, lastPage);
    if e - s + 1 < MaxVisible then Max(1, e - MaxVisible + 1) else s
  }

  /** The ascending run lo, lo + 1, ..., hi (empty when hi < lo). */
  function Range(lo: int, hi: int): (r: seq<int>)
    ensures |r| == Max(0, hi - lo + 1)
    ensures forall i :: 0 <= i < |r| ==> r[i] == lo + i
    decreases hi - lo
  {
    if hi < lo then [] else Range(lo, hi - 1) + [hi]
  }

  /** The numbered pages shown. */
  function Pages(currentPage: int, lastPage: int): seq<int> {
    Range(WindowStart(currentPage, lastPage), WindowEnd(currentPage, lastPage))
  }

  /** `!total`: a missing, null or zero total renders nothing. */
  predicate HasResults(total: Option<int>) {
    total.Some? && total.value != 0
  }

  /** The numbered buttons: one per page of the window, highlighted exactly on the current page. */
  function Buttons(currentPage: int, lastPage: int): (r: seq<PageButton>)
    ensures |r| == |Pages(currentPage, lastPage)|
    ensures forall i :: 0 <= i < |r| ==>
      r[i].page == Pages(currentPage, lastPage)[i]
      && (r[i].highlighted <==> r[i].page == currentPage)
  {
    var pages := Pages(currentPage, lastPage);
    seq(|pages|, i requires 0 <= i < |pages| => PageButton(pages[i], pages[i] == currentPage))
  }

  /** What the bar shows: nothing without results; otherwise the window with its shortcuts,
      ellipses and arrows. The previous arrow requests the page before and is disabled on page 1
      or earlier; the next arrow requests the page after and is disabled on the last page or later. */
  function View(currentPage: int, lastPage: int, total: Option<int>): (r: Option<PageView>)
    ensures r.None? <==> !HasResults(total)
  {
    if !HasResults(total) then None
    else
      var start := WindowStart(currentPage, lastPage);
      var end := WindowEnd(currentPage, lastPage);
      Some(PageView(
        NavButton(currentPage - 1, currentPage <= 1),
        start > 1,
        start > 2,
        Buttons(currentPage, lastPage),
        end < lastPage - 1,
        end < lastPage,
        NavButton(currentPage + 1, currentPage >= lastPage)))
  }

  // ---------------------------------------------------------------------------
  // The component
  // ---------------------------------------------------------------------------

  /** Renders the bar the way the component computes it: the window start is re-anchored in
      place and the numbered buttons are pushed one page at a time. */
  method Render(currentPage: int, lastPage: int, total: Option<int>) returns (view: Option<PageView>)
    ensures view == View(currentPage, lastPage, total)
  {
    if !HasResults(total) {
      return None;
    }
    var start := Max(1, currentPage - MaxVisible / 2);
    var end := Min(lastPage, start + MaxVisible - 1);
    if end - start + 1 < MaxVisible {
      start := Max(1, end - MaxVisible + 1);
    }
    assert start == WindowStart(currentPage, lastPage) && end == WindowEnd(currentPage, lastPage);
    var buttons: seq<PageButton> := [];
    var i := start;
    while i <= end
      invariant start <= i <= Max(start, end + 1)
      invariant |buttons| == i - start
      invariant forall k :: 0 <= k < |buttons| ==>
        buttons[k] == PageButton(start + k, start + k == currentPage)
    {
      buttons := buttons + [PageButton(i, i == currentPage)];
      i := i + 1;
    }
    PushedButtons(currentPage, lastPage, buttons);
    view := Some(PageView(
      NavButton(currentPage - 1, currentPage <= 1),
      start > 1,
      start > 2,
      buttons,
      end < lastPage - 1,
      end < lastPage,
      NavButton(currentPage + 1, currentPage >= lastPage)));
  }

  /** The buttons pushed for the window, one per page in order, are the buttons of the bar. */
  lemma PushedButtons(currentPage: int, lastPage: int, buttons: seq<PageButton>)
    requires |buttons| == |Pages(currentPage, lastPage)|
    requires forall k :: 0 <= k < |buttons| ==>
      buttons[k] == PageButton(WindowStart(currentPage, lastPage) + k, WindowStart(currentPage, lastPage) + k == currentPage)
    ensures buttons == Buttons(currentPage, lastPage)
  {
    var b := Buttons(currentPage, lastPage);
    forall k | 0 <= k < |buttons| ensures buttons[k] == b[k] {
      assert Pages(currentPage, lastPage)[k] == WindowStart(currentPage, lastPage) + k;
    }
  }

  // ---------------------------------------------------------------------------
  // Properties of the window
  // ---------------------------------------------------------------------------

  /** Whatever the inputs, every numbered page lies between 1 and the last page. */
  lemma PagesInBounds(currentPage: int, lastPage: int)
    ensures forall p :: p in Pages(currentPage, lastPage) ==> 1 <= p <= lastPage
  {
    var start := WindowStart(currentPage, lastPage);
    var end := WindowEnd(currentPage, lastPage);
    assert 1 <= start && end <= lastPage;
  }

  /** The pages are strictly ascending, so no page has two buttons. */
  lemma PagesAscending(currentPage: int, lastPage: int)
    ensures forall i, j :: 0 <= i < j < |Pages(currentPage, lastPage)| ==>
      Pages(currentPage, lastPage)[i] < Pages(currentPage, lastPage)[j]
  {
  }

  /** For a current page within range the window holds min(5, lastPage) pages. */
  lemma PagesLength(currentPage: int, lastPage: int)
    requires 1 <= currentPage <= lastPage
    ensures |Pages(currentPage, lastPage)| == Min(MaxVisible, lastPage)
  {
  }

  /** For a current page within range the window contains it. */
  lemma PagesContainCurrent(currentPage: int, lastPage: int)
    requires 1 <= currentPage <= lastPage
    ensures currentPage in Pages(currentPage, lastPage)
  {
    var start := WindowStart(currentPage, lastPage);
    var end := WindowEnd(currentPage, lastPage);
    assert start <= currentPage <= end;
    assert Pages(currentPage, lastPage)[currentPage - start] == currentPage;
  }

  /** Exactly one numbered button is highlighted when the current page is within range. */
  lemma ExactlyOneHighlighted(currentPage: int, lastPage: int)
    requires 1 <= currentPage <= lastPage
    ensures var b := Buttons(currentPage, lastPage);
      && (exists i :: 0 <= i < |b| && b[i].highlighted)
      && (forall i, j :: 0 <= i < |b| && 0 <= j < |b| && b[i].highlighted && b[j].highlighted ==> i == j)
  {
    PagesContainCurrent(currentPage, lastPage);
    var pages := Pages(currentPage, lastPage);
    var k :| 0 <= k < |pages| && pages[k] == currentPage;
    assert Buttons(currentPage, lastPage)[k].highlighted;
  }

  /** Page 1 is never drawn twice: the shortcut appears exactly when the window starts later, and
      otherwise the window itself begins at page 1. The ellipsis appears exactly when pages lie
      hidden between the shortcut and the window. */
  lemma FirstPageShownOnce(currentPage: int, lastPage: int)
    requires 1 <= currentPage <= lastPage
    ensures var pages := Pages(currentPage, lastPage);
      && (WindowStart(currentPage, lastPage) > 1 ==> 1 !in pages)
      && (WindowStart(currentPage, lastPage) <= 1 ==> pages[0] == 1)
      && (WindowStart(currentPage, lastPage) > 2 <==> pages[0] - 1 > 1)
  {
    PagesLength(currentPage, lastPage);
  }

  /** The last page is never drawn twice, symmetrically to the first. */
  lemma LastPageShownOnce(currentPage: int, lastPage: int)
    requires 1 <= currentPage <= lastPage
    ensures var pages := Pages(currentPage, lastPage);
      && (WindowEnd(currentPage, lastPage) < lastPage ==> lastPage !in pages)
      && (WindowEnd(currentPage, lastPage) >= lastPage ==> pages[|pages| - 1] == lastPage)
      && (WindowEnd(currentPage, lastPage) < lastPage - 1 <==> pages[|pages| - 1] + 1 < lastPage)
  {
    PagesLength(currentPage, lastPage);
  }

  /** For a current page within range, the previous arrow is disabled only on the first page and
      the next arrow only on the last; an enabled arrow requests the neighbouring page, which is
      within range. */
  lemma ArrowsStayInRange(currentPage: int, lastPage: int, total: Option<int>)
    requires 1 <= currentPage <= lastPage && HasResults(total)
    ensures var v := View(currentPage, lastPage, total).value;
      && (v.prev.disabled <==> currentPage == 1)
      && (v.next.disabled <==> currentPage == lastPage)
      && (!v.prev.disabled ==> v.prev.target == currentPage - 1 && 1 <= v.prev.target <= lastPage)
      && (!v.next.disabled ==> v.next.target == currentPage + 1 && 1 <= v.next.target <= lastPage)
  {
  }

  /** The windows quoted for a ten-page list. */
  lemma WindowExamples()
    ensures Pages(1, 10) == [1, 2, 3, 4, 5]
    ensures Pages(5, 10) == [3, 4, 5, 6, 7]
    ensures Pages(10, 10) == [6, 7, 8, 9, 10]
    ensures Pages(2, 3) == [1, 2, 3]
  {
  }
}
