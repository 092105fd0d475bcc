/** The catalogue page: the filter state it keeps, the handlers that change
    it (with the page reset that follows a filter change), the query it
    hands to the product list, and which parts of the page are shown. */
module CatalogPage {
  import opened CatalogTypes
  import Pagination
  import ProductQuery
  import Decimal

  const AllCategories: string := "all"
  const PageSize: int := 12

  /** The page's five pieces of state. */
  datatype FilterState = FilterState(
    selectedCategory: string,
    sortOption: SortOption,
    currentPage: int,
    searchQuery: string,
    selectedProduct: Option<Product>)

  const Initial: FilterState := FilterState(AllCategories, TitleAsc, 1, "", None)

  /** The filters after "clear filters": every filter back to its initial
      value; the open product is not touched. */
  function Cleared(s: FilterState): (c: FilterState)
    ensures c == Initial.(selectedProduct := s.selectedProduct)
  {
    s.(selectedCategory := AllCategories, sortOption := TitleAsc, currentPage := 1, searchQuery := "")
  }

  lemma ClearedIdempotent(s: FilterState)
    ensures Cleared(Cleared(s)) == Cleared(s)
    ensures Cleared(s).currentPage == 1
  {
  }

  /** The query parameters handed to the product list: `'all'` becomes the
      empty category, twelve per page, and no search text. */
  function QueryFilters(s: FilterState): ProductFilters {
    ProductFilters(
      Some(if s.selectedCategory == AllCategories then "" else s.selectedCategory),
      Some(s.sortOption),
      Some(s.currentPage),
      Some(PageSize))
  }

  /** The request the state leads to: twelve products from offset
      `(page - 1) * 12`, sorted by the chosen key, scoped to the category
      unless it is `'all'` (or empty). */
  lemma QueryFiltersRequest(s: FilterState)
    ensures var q := ProductQuery.WithDefaults(QueryFilters(s));
      && q.limit == PageSize
      && q.page == s.currentPage
      && q.sort == Some(s.sortOption)
      && (ProductQuery.Scoped(q.category) <==> s.selectedCategory != AllCategories && s.selectedCategory != "")
      && ProductQuery.Skip(q.page, q.limit) == (s.currentPage - 1) * PageSize
  {
  }

  /** The search text and the open product never reach the query. */
  lemma SearchNotForwarded(s: FilterState, t: FilterState)
    requires s.selectedCategory == t.selectedCategory && s.sortOption == t.sortOption
    requires s.currentPage == t.currentPage
    ensures QueryFilters(s) == QueryFilters(t)
  {
  }

  /** The "Filtered" badge of the filter bar. */
  predicate HasActiveFilters(selectedCategory: string) {
    selectedCategory != "" && selectedCategory != AllCategories
  }

  /** The badge shows exactly when the listing request is category-scoped,
      and never right after "clear filters". */
  lemma FilteredBadgeMatchesScope(s: FilterState)
    ensures HasActiveFilters(s.selectedCategory) <==> ProductQuery.Scoped(QueryFilters(s).category)
    ensures !HasActiveFilters(Cleared(s).selectedCategory)
  {
  }

  /** What the page shows. */
  datatype PageView =
    | ErrorView(message: string)
    | CatalogView(pagination: bool, modalOpen: bool)

  /** `if (error)` tests the message for truth, so an empty message shows no
      error view. Otherwise the pagination shows when loading is over and
      there is more than one page, and the product overlay when a product is
      selected. */
  function View(s: FilterState, loading: bool, error: Option<string>, totalPages: int): PageView {
    if error.Some? && error.value != "" then ErrorView(error.value)
    else CatalogView(!loading && totalPages > 1, s.selectedProduct.Some?)
  }

  /** Whenever the page shows the pagination, the control itself renders
      (its own check for at most one page never hides it). */
  lemma ShownPaginationRenders(s: FilterState, loading: bool, error: Option<string>, totalPages: int)
    requires View(s, loading, error, totalPages) == CatalogView(true, s.selectedProduct.Some?)
    ensures Pagination.Render(s.currentPage, totalPages).Shown?
  {
  }

  /** A listing request rejected with an HTTP status always replaces the
      page with the error view, naming that status. */
  lemma HttpFailureShowsErrorView(s: FilterState, loading: bool, status: int, body: ProductsResponse, totalPages: int)
    requires !IsOkStatus(status)
    ensures var e := ProductQuery.FailureMessage(Responded(status, body), ProductQuery.ListFallback);
      View(s, loading, e, totalPages) == ErrorView(ProductQuery.HttpErrorPrefix + Decimal.IntToString(status))
  {
  }

  /** What the page shows once a listing request has settled with `outcome`:
      the error view for a rejected response, for a thrown non-`Error` (with
      the fallback text) and for a thrown `Error` with a non-empty message;
      an `Error` with an empty message leaves the catalogue view up, just as
      an ok response does. */
  lemma ListOutcomeView(s: FilterState, loading: bool, outcome: FetchOutcome<ProductsResponse>, totalPages: int)
    ensures var v := View(s, loading, ProductQuery.FailureMessage(outcome, ProductQuery.ListFallback), totalPages);
      && (v.ErrorView? <==>
            (outcome.Responded? && !IsOkStatus(outcome.status)) || outcome.ThrewNonError? ||
            (outcome.ThrewError? && outcome.message != ""))
      && (outcome.ThrewNonError? ==> v == ErrorView(ProductQuery.ListFallback))
      && (outcome.ThrewError? ==> (v.ErrorView? <==> outcome.message != ""))
      && (!v.ErrorView? ==> v == CatalogView(!loading && totalPages > 1, s.selectedProduct.Some?))
  {
  }

  /** A failed listing leaves a total of zero, hence no pages, so the page
      never shows the pagination after it, whether or not the error view
      comes up. */
  lemma FailedListingHidesPagination(s: FilterState, loading: bool, outcome: FetchOutcome<ProductsResponse>)
    requires !(outcome.Responded? && IsOkStatus(outcome.status))
    ensures var v := View(s, loading, ProductQuery.FailureMessage(outcome, ProductQuery.ListFallback),
                          ProductQuery.TotalPages(0, PageSize));
      !(v.CatalogView? && v.pagination)
  {
    ProductQuery.TotalPagesCases(0, PageSize);
  }

  /** The page component's state (`Index`). */
  class IndexPage {
    var selectedProduct: Option<Product>
    var selectedCategory: string
    var sortOption: SortOption
    var currentPage: int
    var searchQuery: string

    function State(): FilterState
      reads this
    {
      FilterState(selectedCategory, sortOption, currentPage, searchQuery, selectedProduct)
    }

    /** Pages are numbered from 1. */
    predicate Valid()
      reads this
    {
      currentPage >= 1
    }

    constructor ()
      ensures State() == Initial && Valid()
    {
      selectedProduct := None;
      selectedCategory := AllCategories;
      sortOption := TitleAsc;
      currentPage := 1;
      searchQuery := "";
    }

    /** The category select. A new value resets the page to 1; choosing the
        current value again changes nothing. */
    method ChangeCategory(category: string)
      requires Valid()
      modifies this
      ensures Valid()
      ensures State() == old(State()).(selectedCategory := category,
        currentPage := if category != old(selectedCategory) then 1 else old(currentPage))
    {
      var changed := category != selectedCategory;
      selectedCategory := category;
      if changed {
        currentPage := 1;
      }
    }

    /** The sort select, with the same reset. */
    method ChangeSort(sort: SortOption)
      requires Valid()
      modifies this
      ensures Valid()
      ensures State() == old(State()).(sortOption := sort,
        currentPage := if sort != old(sortOption) then 1 else old(currentPage))
    {
      var changed := sort != sortOption;
      sortOption := sort;
      if changed {
        currentPage := 1;
      }
    }

    /** The search box, with the same reset. */
    method ChangeSearch(query: string)
      requires Valid()
      modifies this
      ensures Valid()
      ensures State() == old(State()).(searchQuery := query,
        currentPage := if query != old(searchQuery) then 1 else old(currentPage))
    {
      var changed := query != searchQuery;
      searchQuery := query;
      if changed {
        currentPage := 1;
      }
    }

    /** A click on the pagination control, whose page requests go straight
        to the current page. Only the page changes; from a page within range
        it stays within range. */
    method ChangePage(totalPages: int, click: Pagination.Click)
      requires Valid()
      modifies this
      ensures Valid()
      ensures var r := Pagination.Request(old(currentPage), totalPages, click);
        State() == old(State()).(currentPage := if r.Some? then r.value else old(currentPage))
      ensures old(currentPage) <= totalPages ==> currentPage <= totalPages
    {
      var request := Pagination.Request(currentPage, totalPages, click);
      Pagination.RequestStaysInRange(currentPage, totalPages, click);
      if request.Some? {
        currentPage := request.value;
      }
    }

    /** "Clear filters". */
    method ClearFilters()
      requires Valid()
      modifies this
      ensures Valid()
      ensures State() == Cleared(old(State()))
    {
      selectedCategory := AllCategories;
      sortOption := TitleAsc;
      currentPage := 1;
      searchQuery := "";
    }

    /** A product card click opens the overlay on that product. */
    method OpenProduct(p: Product)
      requires Valid()
      modifies this
      ensures Valid()
      ensures State() == old(State()).(selectedProduct := Some(p))
    {
      selectedProduct := Some(p);
    }

    /** Closing the overlay. */
    method CloseProduct()
      requires Valid()
      modifies this
      ensures Valid()
      ensures State() == old(State()).(selectedProduct := None)
    {
      selectedProduct := None;
    }
  }

  /** A category change from page 3 lands on page 1, and the next request
      asks for the first twelve products of the new category. */
  method CategoryChangeScenario(page: IndexPage)
    requires page.Valid() && page.currentPage == 3 && page.selectedCategory == AllCategories
    modifies page
    ensures page.currentPage == 1
    ensures ProductQuery.WithDefaults(QueryFilters(page.State())).page == 1
  {
    page.ChangeCategory("smartphones");
    QueryFiltersRequest(page.State());
  }
}
