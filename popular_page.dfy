/**
  The popular-news and popular-videos list pages. Each page holds one
  paginated list (news on the news page, videos on the videos page) and one
  companion list (the other kind) fetched with the same page request but
  never updating the page count. The two pages differ only in which kind of
  item plays which role, so one class with two item types models both:
  `PopularPage<News, Video>` is the news page, `PopularPage<Video, News>` the
  videos page.
 */
module PopularListPage {
  import opened Common
  import opened Pagination

  /** Items requested per page. */
  const PageSize := 5

  /** The query a fetch sends: a zero-based page index and a page size. */
  datatype PageRequest = PageRequest(page: int, size: int)

  /** The part of the list envelope's `meta` the pages read. */
  datatype PageMeta = PageMeta(totalPages: Option<nat>)

  /** The `data` of a list response; either part may be missing. */
  datatype ListData<T> = ListData(list: Option<seq<T>>, meta: Option<PageMeta>)

  /** A fetch either delivers a response or throws. */
  datatype FetchOutcome<T> = Fetched(data: ListData<T>) | FetchFailed

  /** The page count taken from a response: the server's when present and
      non-zero (JavaScript truthiness), otherwise 1. */
  function TotalPagesOf<T>(data: ListData<T>): (t: nat)
    ensures t >= 1
    ensures t == 1 || (data.meta.Some? && data.meta.value.totalPages == Some(t))
    ensures data.meta.Some? && data.meta.value.totalPages.Some? && data.meta.value.totalPages.value > 0
            ==> t == data.meta.value.totalPages.value
  {
    match data.meta
    case Some(PageMeta(Some(n))) => if n != 0 then n else 1
    case _ => 1
  }

  /** The request for the page a user sees: one-based page, zero-based index. */
  function RequestFor(currentPage: int): (r: PageRequest)
    requires currentPage >= 1
    ensures r.page >= 0 && r.page + 1 == currentPage && r.size == PageSize
  {
    PageRequest(currentPage - 1, PageSize)
  }

  class PopularPage<P, S> {
    var currentPage: int
    var totalPages: int
    var primaryList: seq<P>
    var companionList: seq<S>
    var primaryLoading: bool
    var companionLoading: bool

    /** The current page and the page count never drop below 1. The current
        page may exceed the count: a response that lowers `totalPages` (or lacks
        `meta`, which makes it 1) leaves `currentPage` where it was, and only
        Next or a page button brings it back in range (see `ShrunkCountPullsPageBack`). */
    ghost predicate Valid()
      reads this
    {
      1 <= currentPage && 1 <= totalPages
    }

    /** The first render: page 1 of 1, both lists empty and loading. */
    constructor ()
      ensures Valid()
      ensures currentPage == 1 && totalPages == 1
      ensures primaryList == [] && companionList == []
      ensures primaryLoading && companionLoading
    {
      currentPage := 1;
      totalPages := 1;
      primaryList := [];
      companionList := [];
      primaryLoading := true;
      companionLoading := true;
    }

    /** The page controls are rendered only once the paginated list has
        loaded and holds at least one item. */
    predicate PaginationVisible()
      reads this
    {
      !primaryLoading && |primaryList| > 0
    }

    /** The page buttons currently on screen. */
    function Buttons(): seq<Option<int>>
      reads this
    {
      Window(currentPage, totalPages)
    }

    /** The previous button; a disabled button ignores the click. `moved`
        tells whether the page changed, which is when the fetches re-run. */
    method Prev() returns (moved: bool)
      requires Valid() && PaginationVisible()
      modifies this`currentPage
      ensures Valid()
      ensures currentPage == if PrevDisabled(old(currentPage)) then old(currentPage) else PrevTarget(old(currentPage))
      ensures currentPage <= old(currentPage)
      ensures moved <==> currentPage != old(currentPage)
    {
      var before := currentPage;
      if !PrevDisabled(currentPage) {
        PrevClamps(currentPage);
        currentPage := PrevTarget(currentPage);
      }
      moved := currentPage != before;
    }

    /** The next button; a disabled button ignores the click. */
    method Next() returns (moved: bool)
      requires Valid() && PaginationVisible()
      modifies this`currentPage
      ensures Valid()
      ensures currentPage == if NextDisabled(old(currentPage), totalPages) then old(currentPage)
                             else NextTarget(old(currentPage), totalPages)
      ensures currentPage <= totalPages
      ensures moved <==> currentPage != old(currentPage)
    {
      var before := currentPage;
      if !NextDisabled(currentPage, totalPages) {
        NextClamps(currentPage, totalPages);
        currentPage := NextTarget(currentPage, totalPages);
      }
      moved := currentPage != before;
    }

    /** A click on the page button `page`, which must be on screen. */
    method Goto(page: int) returns (moved: bool)
      requires Valid() && PaginationVisible()
      requires Some(page) in Buttons()
      modifies this`currentPage
      ensures Valid()
      ensures currentPage == page && 1 <= currentPage <= totalPages
      ensures Some(currentPage) in Buttons()
      ensures moved <==> currentPage != old(currentPage)
    {
      WindowShowsExactly(currentPage, totalPages, page);
      WindowContainsCurrent(page, totalPages);
      var before := currentPage;
      currentPage := page;
      moved := currentPage != before;
    }

    /** Start of the paginated-list fetch: the spinner replaces the page. */
    method BeginPrimaryFetch() returns (req: PageRequest)
      requires Valid()
      modifies this`primaryLoading
      ensures primaryLoading && !PaginationVisible()
      ensures req == RequestFor(currentPage)
    {
      primaryLoading := true;
      req := RequestFor(currentPage);
    }

    /** End of the paginated-list fetch: the list (or `[]`) and the page count
        are taken from the response; a failure empties the list and keeps the
        count; loading ends either way. */
    method CompletePrimaryFetch(outcome: FetchOutcome<P>)
      requires Valid()
      modifies this`primaryList, this`totalPages, this`primaryLoading
      ensures Valid() && !primaryLoading
      ensures outcome.FetchFailed? ==> primaryList == [] && totalPages == old(totalPages)
      ensures outcome.Fetched? ==> primaryList == outcome.data.list.GetOr([]) &&
                                   totalPages == TotalPagesOf(outcome.data)
      ensures PaginationVisible() <==> outcome.Fetched? && outcome.data.list.GetOr([]) != []
    {
      match outcome {
        case Fetched(data) =>
          primaryList := data.list.GetOr([]);
          totalPages := TotalPagesOf(data);
        case FetchFailed =>
          primaryList := [];
      }
      primaryLoading := false;
    }

    /** Start of the companion-list fetch, with the same page request. */
    method BeginCompanionFetch() returns (req: PageRequest)
      requires Valid()
      modifies this`companionLoading
      ensures companionLoading
      ensures req == RequestFor(currentPage)
    {
      companionLoading := true;
      req := RequestFor(currentPage);
    }

    /** End of the companion-list fetch: its `meta` is ignored. */
    method CompleteCompanionFetch(outcome: FetchOutcome<S>)
      requires Valid()
      modifies this`companionList, this`companionLoading
      ensures !companionLoading
      ensures companionList == if outcome.Fetched? then outcome.data.list.GetOr([]) else []
    {
      match outcome {
        case Fetched(data) =>
          companionList := data.list.GetOr([]);
        case FetchFailed =>
          companionList := [];
      }
      companionLoading := false;
    }
  }

  /** On page 3 of 5, a response without `meta` drops the count to 1 while the
      page stays at 3; the next button is then enabled and moves back to page 1. */
  method ShrunkCountPullsPageBack<P, S>(items: seq<P>) returns (pageAfterFetch: int, countAfterFetch: int, pageAfterNext: int)
    requires items != []
    ensures pageAfterFetch == 3 && countAfterFetch == 1 && pageAfterFetch > countAfterFetch
    ensures pageAfterNext == 1
  {
    var page := new PopularPage<P, S>();
    var _ := page.BeginPrimaryFetch();
    page.CompletePrimaryFetch(Fetched(ListData(Some(items), Some(PageMeta(Some(5))))));
    var moved := page.Next();
    moved := page.Next();
    var _ := page.BeginPrimaryFetch();
    page.CompletePrimaryFetch(Fetched(ListData(Some(items), None)));
    pageAfterFetch, countAfterFetch := page.currentPage, page.totalPages;
    moved := page.Next();
    pageAfterNext := page.currentPage;
  }
}
