# Catalogue browser: pagination, product query, detail overlay and filter state

This project models the logic inside a client-side product catalogue browser
and proves what that logic promises. The browser lists products from a remote
catalogue service in a grid of twelve per page. Users can filter the grid by
category, sort it by price or title, page through it, and open a product in a
detail overlay. Four pieces of logic are modelled:

- **Pagination window** (`Pagination`, `pagination.dfy`). `getPageNumbers` builds
  the page labels (page numbers or an ellipsis marker) by pushing onto a list
  in three branches. It is a method with loop invariants. It is proved equal
  to a closed-form `Window`, and the window's properties are proved as lemmas.
  The Previous/Next/page buttons are modelled as a `Request` function: the
  page a click asks for.
- **Product query** (`ProductQuery`, `product_query.dfy`; sort in `ProductSort`,
  `product_sort.dfy`). This covers the hook defaults (page 1, limit 12), the skip
  offset, the request URL, the page count `ceil(total / limit)` and the error
  message. The list query (`ProductListQuery`) and the single-product query
  (`ProductDetailQuery`) are classes. Each has a method that settles one
  request. `sortProducts` is a pure sort. It is proved to return a permutation
  of its input, ordered by the chosen comparator.
- **Detail overlay** (`ProductModal`, `product_modal.dfy`). The cyclic image index
  is a class with the two arrow methods and dot selection. The overlay also
  covers the image fallback to the thumbnail, the stock label, the Add to Cart
  rule, the `PRD-` SKU, the discount badge, and what the overlay renders.
- **Catalogue page** (`CatalogPage`, `catalog_page.dfy`). The five pieces of page
  state are the fields of the class `IndexPage`. Each handler is a method, and
  the page-reset effect is folded into the handler that triggers it. The page
  also maps its state to query parameters and decides which views are shown.

Shared pieces live in three more modules:

- `CatalogTypes` (`catalog_types.dfy`) holds the records: `Product`,
  `Category`, the four-valued `SortOption`, `ProductFilters` with every field
  optional, `ProductsResponse`, and the request outcome.
- `Decimal` (`decimal.dfy`) renders integers as the source's template literals
  do, with a round trip back to the number for natural numbers (different integers, negative ones included, print differently).
- `Arithmetic` (`arithmetic.dfy`) holds small division facts.

A request's outcome is an input value, `FetchOutcome`. It is one of: a
response with a status and a body; a thrown `Error` with a message; or a
thrown non-`Error`. `response.ok` is a status in 200..299.

Where the code's behaviour is easy to misread, the model follows the code:

- A listing is category-scoped only when the category is present and not the
  empty string, since the code tests it for truth. The page sends `''` for
  `'all'`.
- The page goes back to 1 only when the category, sort or search value really
  changes. The reset is an effect that depends on those values, and setting
  the same value again is no change.
- The page shows its error view when the error is a non-empty string (`if
  (error)`). An `Error` with an empty message empties the grid but shows no
  error view.
- The stock label treats stock at or below 0 as "Out of Stock". Add to Cart is
  disabled only at exactly 0, so a negative stock is labelled "Out of Stock"
  while the button stays enabled (`ProductModal.AddToCartAgreesWithLabel`).
- The image index is not reset when the overlay opens on another product. A
  left-over index past the new product's images shows the thumbnail and
  highlights no dot (`ProductModal.StaleIndexFallsBack`).
- The comparator's `default: return 0` branch cannot be reached: `SortOption`
  has exactly four values.

## Model

| member | source | states |
|---|---|---|
| Pagination.GetPageNumbers | src/components/Pagination.tsx:14-54 | The list built by the three push loops, with the `min(5, totalPages - 1)` and `max(totalPages - 4, 2)` bounds and the `totalPages > 5` test, equals the closed-form window. For more than seven pages those bounds are always 5 and `totalPages - 4`, and the test always holds. |
| Pagination.SmallWindowListsEveryPage | src/components/Pagination.tsx:16-21 | For 2 to 7 pages the window is exactly the pages 1..totalPages in order, with no ellipsis. |
| Pagination.LargeWindowShape | src/components/Pagination.tsx:24-50 | For more than 7 pages the window has exactly 7 labels, starts with page 1 and ends with the last page. |
| Pagination.LargeWindowCases | src/components/Pagination.tsx:26-50 | For more than 7 pages, label by label: `[1,2,3,4,5,…,T]` for current page ≤ 4; `[1,…,T-4,T-3,T-2,T-1,T]` for current page ≥ T-3; otherwise `[1,…,c-1,c,c+1,…,T]`. |
| Pagination.WindowWellFormed | src/components/Pagination.tsx:15-53 | For every current page and page count, page labels strictly increase, lie in 1..totalPages, and no two ellipses are next to each other. |
| Pagination.WindowShowsCurrentPage | src/components/Pagination.tsx:15-53 | A current page within 1..totalPages always appears in the window. |
| Pagination.ExactlyOneHighlighted | src/components/Pagination.tsx:87-95 | With the current page in range, exactly one button is highlighted: the current page appears once and only once. |
| Pagination.HiddenForAtMostOnePage | src/components/Pagination.tsx:12 | With at most one page the control renders nothing, and no click can request a page. |
| Pagination.NavigationRequests | src/components/Pagination.tsx:64-113 | Previous requests currentPage-1 and is disabled exactly on page 1. Next requests currentPage+1 and is disabled exactly on the last page. |
| Pagination.RequestStaysInRange | src/components/Pagination.tsx:64-113 | From page ≥ 1 every request is ≥ 1. From a page within 1..totalPages every request stays within 1..totalPages. |
| ProductSort.SortProducts | src/hooks/useProducts.ts:94-109 | The result has the same multiset of products as the input, and every earlier product may precede every later one under the chosen comparator. |
| ProductSort.Insert | src/hooks/useProducts.ts:95-108 | Inserting a product into an ordered list gives an ordered list holding exactly the old products plus the new one. |
| ProductSort.OrderedArrangementUnique | src/hooks/useProducts.ts:95-108 | When no two products share the sort key, two ordered arrangements of the same products are equal. The output is fully determined except for ties. |
| ProductSort.DescendingIsReversedAscending | src/hooks/useProducts.ts:97-104 | With distinct keys, price-desc gives the reverse of price-asc, and title-desc the reverse of title-asc. |
| ProductSort.ReverseOrdered | src/hooks/useProducts.ts:97-104 | Reversing a list ordered by one direction of a key orders it by the other direction. |
| ProductSort.PrecedesTotal | src/hooks/useProducts.ts:96-104 | Any two products are comparable. They may precede each other both ways exactly when they share the key. |
| ProductSort.PrecedesTransitive | src/hooks/useProducts.ts:96-104 | The comparator's "may precede" relation is transitive for all four sort keys. |
| ProductSort.TitleCompareAntisymmetric | src/hooks/useProducts.ts:102-104 | Swapping two titles negates the title comparison. |
| ProductSort.TitleCompareZero | src/hooks/useProducts.ts:102-104 | Two titles compare equal exactly when they are the same string. |
| ProductSort.TitleCompareTransitive | src/hooks/useProducts.ts:102-104 | The title order is transitive. |
| ProductQuery.DefaultsAreFirstPage | src/hooks/useProducts.ts:12-13 | Leaving page or limit out is the same as giving page 1 or limit 12: filling the defaults in explicitly yields the same query. With no page the offset is 0, with no limit the page size is 12, and empty filters request exactly `<base>?limit=12&skip=0`. |
| ProductQuery.SkipLocatesPage | src/hooks/useProducts.ts:13 | The skip offset is a whole number of pages: divided by the limit it gives page-1. Page 1 starts at 0, and each next page starts `limit` further on. |
| ProductQuery.ListUrlScope | src/hooks/useProducts.ts:21-27 | The URL starts with the catalogue base. Next comes `/category/<slug>` exactly when the category is present and non-empty; otherwise the query string follows at once. |
| ProductQuery.ListUrlInjective | src/hooks/useProducts.ts:21-27 | For one category, two URLs are equal only if their limit and skip are equal. |
| ProductQuery.DifferentPagesDifferentUrls | src/hooks/useProducts.ts:13-27 | For one category and a positive page size, two different pages always request different URLs. |
| ProductQuery.TotalPages | src/hooks/useProducts.ts:57 | The page count is the ceiling of total/limit: `(pages-1)·limit < total ≤ pages·limit`. |
| ProductQuery.TotalPagesCases | src/hooks/useProducts.ts:57 | For a non-negative total the page count is never negative. It is 0 exactly when the total is 0, and above 1 exactly when the total exceeds one page. |
| ProductQuery.PageWithinTotalIffNonEmpty | src/hooks/useProducts.ts:57 | A page p ≥ 1 is at most the page count exactly when its offset falls inside the result set. |
| ProductQuery.FailureMessage | src/hooks/useProducts.ts:30-46 | A request leaves no error exactly when it got an ok response. Otherwise the error is the HTTP message, the thrown message, or the fallback text. |
| ProductQuery.HttpErrorNamesStatus | src/hooks/useProducts.ts:30-32 | The HTTP error message is never empty, and two rejected statuses give the same message only if they are equal. |
| ProductQuery.PageProducts | src/hooks/useProducts.ts:36-41 | The products shown after success are a permutation of the server's page. They are ordered by the key when a sort is given, and exactly the server's order when it is not. |
| ProductQuery.ProductListQuery.constructor | src/hooks/useProducts.ts:7-10 | Initial query state: no products, loading, no error, total 0. |
| ProductQuery.ProductListQuery.FetchProducts | src/hooks/useProducts.ts:16-57 | The URL requested is fixed by the filters with defaults applied. After the request, loading is false. On success: products are the (sorted) page, total is the response total, and there is no error. On failure: the matching error, no products, total 0. After a failure with a positive page size, the page count is 0. |
| ProductQuery.ProductDetailQuery.constructor | src/hooks/useProducts.ts:61-63 | Initial state: no product, loading, no error. |
| ProductQuery.ProductDetailQuery.Load | src/hooks/useProducts.ts:65-89 | For id 0 nothing is requested and nothing changes. Otherwise `<base>/<id>` is requested and loading ends. Success stores the product with no error; failure clears the product and stores the error or `'Failed to fetch product'`. |
| Decimal.IntToString | src/hooks/useProducts.ts:27 | The text of an integer is non-empty, starts with '-' exactly when the integer is negative, and is digits after that. |
| Decimal.NatToStringRoundTrip | src/hooks/useProducts.ts:27 | The decimal text of a natural number reads back as that number. |
| Decimal.IntToStringInjective | src/hooks/useProducts.ts:27 | Different integers print differently. |
| Decimal.LeadingZerosValue | src/components/ProductModal.tsx:226 | Leading zeros do not change the number a digit string denotes. |
| ProductModal.NextIndex | src/components/ProductModal.tsx:24-26 | The next index always lies in `[0, n)`, even from a stale index. |
| ProductModal.PrevIndex | src/components/ProductModal.tsx:28-30 | The previous index always lies in `[0, n)`, even from a stale index. |
| ProductModal.PrevUndoesNext | src/components/ProductModal.tsx:24-30 | For an index in range, previous undoes next and next undoes previous. |
| ProductModal.NextTimesRotates | src/components/ProductModal.tsx:24-26 | Pressing next k times from an index i in range gives `(i + k) mod n`. |
| ProductModal.FullCycleReturns | src/components/ProductModal.tsx:24-26 | Pressing next n times returns to the starting index. |
| ProductModal.ImageCarousel.constructor | src/components/ProductModal.tsx:16 | The carousel index starts at 0. |
| ProductModal.ImageCarousel.Next | src/components/ProductModal.tsx:24-26 | The right arrow sets the index to its successor modulo the image count. |
| ProductModal.ImageCarousel.Prev | src/components/ProductModal.tsx:28-30 | The left arrow sets the index to its predecessor modulo the image count. |
| ProductModal.ImageCarousel.Select | src/components/ProductModal.tsx:94 | A click on dot k sets the index to k. |
| ProductModal.Dots | src/components/ProductModal.tsx:86-95 | One dot per image. Some dot is highlighted exactly when the index is within the images, and never two at once. |
| ProductModal.DisplayedImage | src/components/ProductModal.tsx:56 | The image shown is either the thumbnail or the image at the index, and the image at the index whenever that entry exists and is non-empty. It is never blank when the thumbnail is not. |
| ProductModal.StaleIndexFallsBack | src/components/ProductModal.tsx:56 | An index past the product's images shows the thumbnail and highlights no dot. |
| ProductModal.StepsKeepOneDot | src/components/ProductModal.tsx:86-95 | After any number of next steps from a valid index, exactly the dot at the new index is highlighted. |
| ProductModal.StockStatusRanges | src/components/ProductModal.tsx:148-154 | The label is "Out of Stock" exactly for stock ≤ 0, "Only n left" with n = stock exactly for 1..9, and "In Stock" exactly for ≥ 10. |
| ProductModal.LowStockTextNamesCount | src/components/ProductModal.tsx:150 | Two "Only n left" labels are equal only if their counts are equal. |
| ProductModal.AddToCartAgreesWithLabel | src/components/ProductModal.tsx:192 | Add to Cart is disabled exactly at stock 0. For non-negative stock it is enabled exactly when the label is not "Out of Stock". A negative stock shows "Out of Stock" with the button enabled. |
| ProductModal.PadStart | src/components/ProductModal.tsx:226 | The padded string has length max(|s|, width), ends with s, and is the fill character before that. |
| ProductModal.SkuShape | src/components/ProductModal.tsx:226 | The SKU is `PRD-` then at least six characters, ending with the whole id text, so a long id is not cut. |
| ProductModal.SkuRoundTrip | src/components/ProductModal.tsx:226 | For a non-negative id, the characters after `PRD-` are digits that read back as the id. |
| ProductModal.SkuInjective | src/components/ProductModal.tsx:226 | Different non-negative ids get different SKUs. |
| ProductModal.RenderShape | src/components/ProductModal.tsx:18-176 | The overlay renders exactly when it is open on a product. Then the discount badge and savings line appear together, exactly for a discount above 0. The arrows appear exactly for more than one image, there is one dot per image with exactly the current one highlighted, and "Out of Stock" is shown exactly for stock ≤ 0. |
| CatalogPage.Cleared | src/pages/Index.tsx:41-46 | Clearing the filters gives category `'all'`, sort title-asc, page 1 and empty search from any state, and leaves the open product alone. |
| CatalogPage.ClearedIdempotent | src/pages/Index.tsx:41-46 | Clearing twice is the same as clearing once, and always lands on page 1. |
| CatalogPage.QueryFiltersRequest | src/pages/Index.tsx:23-28 | The query gets limit 12 and the page and sort unchanged. The skip is `(page-1)·12`, and the request is category-scoped exactly when the selection is neither `'all'` nor empty. |
| CatalogPage.SearchNotForwarded | src/pages/Index.tsx:23-28 | States that differ only in search text (or open product) produce the same query. |
| CatalogPage.FilteredBadgeMatchesScope | src/components/FilterBar.tsx:40 | The "Filtered" badge shows exactly when the listing request is category-scoped, and never right after clearing filters. |
| CatalogPage.ListOutcomeView | src/pages/Index.tsx:52-179 | After a listing settles, the error view shows exactly for a rejected response, a thrown non-`Error` (with `'Failed to fetch products'`) or a thrown `Error` with a non-empty message. A thrown `Error` with an empty message leaves the catalogue up, and the catalogue view then shows pagination exactly when not loading with more than one page, and the overlay exactly when a product is selected. |
| CatalogPage.FailedListingHidesPagination | src/pages/Index.tsx:165 | After any failed listing the total is 0, so no pages exist (src/hooks/useProducts.ts:57). The page then never shows the pagination, whether the error view comes up or an empty error message leaves the catalogue view. |
| CatalogPage.ShownPaginationRenders | src/pages/Index.tsx:165-171 | Whenever the page shows the pagination, the control's own early return never hides it. |
| CatalogPage.HttpFailureShowsErrorView | src/pages/Index.tsx:52-54 | A listing rejected with an HTTP status always brings up the error view, naming that status. |
| CatalogPage.IndexPage.constructor | src/pages/Index.tsx:17-21 | Initial state: category `'all'`, sort title-asc, page 1, empty search, no product selected. |
| CatalogPage.IndexPage.ChangeCategory | src/pages/Index.tsx:32-35 | A new category is stored and the page resets to 1. Re-choosing the same category changes nothing. Nothing else changes. |
| CatalogPage.IndexPage.ChangeSort | src/pages/Index.tsx:32-35 | A new sort order is stored and the page resets to 1. Re-choosing the same order changes nothing. Nothing else changes. |
| CatalogPage.IndexPage.ChangeSearch | src/pages/Index.tsx:32-35 | New search text is stored and the page resets to 1. The same text again changes nothing. Nothing else changes. |
| CatalogPage.IndexPage.ChangePage | src/pages/Index.tsx:165-171 | A pagination click changes only the page, to the page requested. The page stays ≥ 1, and stays ≤ the page count if it was. |
| CatalogPage.IndexPage.ClearFilters | src/pages/Index.tsx:41-46 | The new state is the cleared state of the old one. |
| CatalogPage.IndexPage.OpenProduct | src/pages/Index.tsx:37-39 | A product click selects that product and changes nothing else. |
| CatalogPage.IndexPage.CloseProduct | src/pages/Index.tsx:175-179 | Closing the overlay clears the selection and changes nothing else. |
| CatalogPage.CategoryChangeScenario | src/pages/Index.tsx:32-35 | Changing the category while on page 3 lands on page 1, and the next query asks for page 1. |

## Left out

- Network, JSON decoding and async plumbing: the `fetch` calls, `response.json()` and the promises. Each request's outcome is an input value (`FetchOutcome`) instead.
- Concurrency and effect scheduling. Requests that overlap and settle out of order are not modelled, and neither is the first fetch that still uses the old page before the reset effect runs. Each handler models only its net state change.
- The full-page reload of the retry button (`window.location.reload`) is a browser call.
- Floating point. Prices, discount and rating are exact reals. The original price, the savings, `toFixed`, `Math.round` of the discount and the rating display are not modelled.
- ProductSort.SortProducts: titles are compared in plain lexicographic order of character codes, not the locale-aware `localeCompare`. Ties between equal keys follow this model's insertion. No claim is made about the engine sort's tie order beyond what the comparator decides.
- ProductQuery.ProductListQuery.PageCount and ProductQuery.TotalPages require a positive limit. With a limit of 0 the source's `Math.ceil(total / 0)` is `Infinity` for a positive total and `NaN` for a zero total; a negative limit gives a page count of 0 or below for a non-negative total. None of these non-positive limits is modelled; the page always passes 12.
- Decimal.IntToString renders every integer in plain digits. JavaScript switches to exponent notation at 10^21, which is not modelled. Pages, ids, stock and statuses are integers here; non-integral numbers are not modelled.
- `useProduct` (ProductDetailQuery.Load) treats only id 0 as "no request". NaN, the other falsy number, is not modelled.
- `src/hooks/useCategories.ts`: a fetch wrapper with the same success/failure pattern as the product list and no further logic.
- Pure display files (`ProductCard.tsx`, `ProductGrid.tsx`, `ProductSkeleton.tsx`, `ErrorState.tsx`) and the layout of `FilterBar.tsx`, including its plural suffix on the result count. Only its "Filtered" badge rule is modelled.
