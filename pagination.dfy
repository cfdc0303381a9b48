/**
  The page-button window and the previous/next clamps of the popular-news
  and popular-videos list pages. Both pages build the window with the same
  rule, so it is defined once here; `None` is an ellipsis marker.
 */
module Pagination {
  import opened Common

  /** Up to this many pages the window lists every page. */
  const MaxPageButtons := 5

  /** `Array.from({ length: n }, (_, i) => i + 1)`: the pages 1 to n (none when n <= 0). */
  function AllPages(n: int): (w: seq<Option<int>>)
    ensures |w| == if n <= 0 then 0 else n
    ensures forall i :: 0 <= i < |w| ==> w[i] == Some(i + 1)
  {
    if n <= 0 then [] else AllPages(n - 1) + [Some(n)]
  }

  /** The buttons shown for `currentPage` out of `totalPages`. Which pages
      appear is pinned down by `WindowShowsExactly` below. */
  function Window(currentPage: int, totalPages: int): (w: seq<Option<int>>)
    ensures |w| <= 7
    ensures totalPages >= 1 ==> |w| >= 1 && w[0] == Some(1) && w[|w| - 1] == Some(totalPages)
  {
    if totalPages <= MaxPageButtons then
      AllPages(totalPages)
    else if currentPage <= 3 then
      [Some(1), Some(2), Some(3), Some(4), None, Some(totalPages)]
    else if currentPage >= totalPages - 2 then
      [Some(1), None, Some(totalPages - 3), Some(totalPages - 2), Some(totalPages - 1), Some(totalPages)]
    else
      [Some(1), None, Some(currentPage - 1), Some(currentPage), Some(currentPage + 1), None, Some(totalPages)]
  }

  /** Independent description of which pages get a button: every page when
      there are few; otherwise the first, the last, the neighbours of the
      current page, and the first four (last four) near the front (back). */
  predicate Shown(currentPage: int, totalPages: int, p: int) {
    1 <= p <= totalPages &&
    (totalPages <= MaxPageButtons ||
     p == 1 || p == totalPages ||
     currentPage - 1 <= p <= currentPage + 1 ||
     (currentPage <= 3 && p <= 4) ||
     (currentPage >= totalPages - 2 && p >= totalPages - 3))
  }

  predicate InRange(w: seq<Option<int>>, totalPages: int) {
    forall i :: 0 <= i < |w| && w[i].Some? ==> 1 <= w[i].value <= totalPages
  }

  predicate Increasing(w: seq<Option<int>>) {
    forall i, j :: 0 <= i < j < |w| && w[i].Some? && w[j].Some? ==> w[i].value < w[j].value
  }

  /** No ellipsis is first, last, or next to another ellipsis. */
  predicate EllipsesSeparated(w: seq<Option<int>>) {
    forall i :: 0 <= i < |w| && w[i].None? ==> 0 < i < |w| - 1 && w[i - 1].Some? && w[i + 1].Some?
  }

  /** Neighbouring buttons are consecutive pages; an ellipsis hides at least one page. */
  predicate GapsMarked(w: seq<Option<int>>) {
    forall i :: 0 <= i < |w| - 1 ==>
      (w[i].Some? && w[i + 1].Some? ==> w[i + 1].value == w[i].value + 1) &&
      (w[i].None? && 0 < i ==> w[i - 1].Some? && w[i + 1].Some? && w[i + 1].value >= w[i - 1].value + 2)
  }

  // ---- the window ----

  /** At most five pages: exactly the pages 1 to totalPages, in order, no ellipsis. */
  lemma WindowListsAllPagesWhenFew(currentPage: int, totalPages: int)
    requires totalPages <= MaxPageButtons
    ensures var w := Window(currentPage, totalPages);
      |w| == (if totalPages <= 0 then 0 else totalPages) &&
      (forall i :: 0 <= i < |w| ==> w[i] == Some(i + 1))
  {
  }

  /** More than five pages: six or seven buttons from page 1 to the last page. */
  lemma WindowEndsWhenMany(currentPage: int, totalPages: int)
    requires totalPages > MaxPageButtons
    ensures var w := Window(currentPage, totalPages);
      6 <= |w| <= 7 && w[0] == Some(1) && w[|w| - 1] == Some(totalPages) && None in w
  {
  }

  /** Every page button is a real page, and buttons ascend strictly. */
  lemma WindowInRangeAndIncreasing(currentPage: int, totalPages: int)
    ensures InRange(Window(currentPage, totalPages), totalPages)
    ensures Increasing(Window(currentPage, totalPages))
    ensures |Window(currentPage, totalPages)| <= 7
  {
  }

  /** The ellipses sit only between two page buttons and mark real gaps. */
  lemma WindowEllipsesWellPlaced(currentPage: int, totalPages: int)
    ensures EllipsesSeparated(Window(currentPage, totalPages))
    ensures GapsMarked(Window(currentPage, totalPages))
  {
    if totalPages <= MaxPageButtons {
      var w := AllPages(totalPages);
      assert forall i :: 0 <= i < |w| ==> w[i].Some? && w[i].value == i + 1;
    }
  }

  /** The three fixed shapes show exactly the pages `Shown` describes. */
  lemma WindowShowsExactly(currentPage: int, totalPages: int, p: int)
    ensures Some(p) in Window(currentPage, totalPages) <==> Shown(currentPage, totalPages, p)
  {
    var w := Window(currentPage, totalPages);
    if totalPages <= MaxPageButtons {
      if Shown(currentPage, totalPages, p) {
        assert w[p - 1] == Some(p);
      }
    }
  }

  /** A current page inside the range always has its own button. */
  lemma WindowContainsCurrent(currentPage: int, totalPages: int)
    requires 1 <= currentPage <= totalPages
    ensures Some(currentPage) in Window(currentPage, totalPages)
  {
    WindowShowsExactly(currentPage, totalPages, currentPage);
  }

  /** The ellipsis at index `i` of `w` stands for page `p`. */
  predicate EllipsisCovers(w: seq<Option<int>>, i: int, p: int) {
    0 < i < |w| - 1 && w[i] == None && w[i - 1].Some? && w[i + 1].Some? &&
    w[i - 1].value < p < w[i + 1].value
  }

  /** Every page without a button lies strictly inside the gap an ellipsis stands for. */
  lemma HiddenPageUnderEllipsis(currentPage: int, totalPages: int, p: int)
    requires 1 <= p <= totalPages
    requires Some(p) !in Window(currentPage, totalPages)
    ensures exists i :: EllipsisCovers(Window(currentPage, totalPages), i, p)
  {
    var w := Window(currentPage, totalPages);
    WindowShowsExactly(currentPage, totalPages, p);
    if totalPages <= MaxPageButtons {
      assert false;
    } else if currentPage <= 3 {
      assert EllipsisCovers(w, 4, p);
    } else if currentPage >= totalPages - 2 {
      assert EllipsisCovers(w, 1, p);
    } else if p < currentPage {
      assert EllipsisCovers(w, 1, p);
    } else {
      assert EllipsisCovers(w, 5, p);
    }
  }

  // ---- previous / next ----

  /** `Math.max(1, currentPage - 1)`: the larger of the two. */
  function PrevTarget(currentPage: int): (r: int)
    ensures r >= 1 && r >= currentPage - 1
    ensures r == 1 || r == currentPage - 1
  {
    if 1 > currentPage - 1 then 1 else currentPage - 1
  }

  /** `Math.min(totalPages, currentPage + 1)`: the smaller of the two. */
  function NextTarget(currentPage: int, totalPages: int): (r: int)
    ensures r <= totalPages && r <= currentPage + 1
    ensures r == totalPages || r == currentPage + 1
  {
    if totalPages < currentPage + 1 then totalPages else currentPage + 1
  }

  /** `disabled={currentPage === 1}`: the previous button is off only where
      clicking it would not move anyway. */
  predicate PrevDisabled(currentPage: int): (d: bool)
    ensures d ==> PrevTarget(currentPage) == currentPage
  {
    currentPage == 1
  }

  /** `disabled={currentPage === totalPages}`: the next button is off only
      where clicking it would not move anyway. */
  predicate NextDisabled(currentPage: int, totalPages: int): (d: bool)
    ensures d ==> NextTarget(currentPage, totalPages) == currentPage
  {
    currentPage == totalPages
  }

  /** Previous never leaves page 1 behind and steps back by one when it can. */
  lemma PrevClamps(currentPage: int)
    ensures PrevTarget(currentPage) >= 1
    ensures currentPage >= 2 ==> PrevTarget(currentPage) == currentPage - 1
    ensures currentPage >= 1 ==> PrevTarget(currentPage) <= currentPage
  {
  }

  /** Next never passes the last page and steps forward by one when it can. */
  lemma NextClamps(currentPage: int, totalPages: int)
    ensures NextTarget(currentPage, totalPages) <= totalPages
    ensures currentPage < totalPages ==> NextTarget(currentPage, totalPages) == currentPage + 1
    ensures 1 <= totalPages && 1 <= currentPage ==> NextTarget(currentPage, totalPages) >= 1
  {
  }

  /** Within the range, each button is disabled exactly where clicking it would not move. */
  lemma DisabledExactlyAtBoundary(currentPage: int, totalPages: int)
    requires 1 <= currentPage <= totalPages
    ensures PrevDisabled(currentPage) <==> PrevTarget(currentPage) == currentPage
    ensures NextDisabled(currentPage, totalPages) <==> NextTarget(currentPage, totalPages) == currentPage
  {
  }
}
