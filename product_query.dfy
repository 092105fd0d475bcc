/** The product-list and single-product queries: the defaults and offset of
    a listing request, the request URL, the page count, and the state each
    query holds once its request has settled. */
module ProductQuery {
  import opened CatalogTypes
  import opened Decimal
  import opened ProductSort
  import opened Arithmetic

  const ApiBase: string := "https://dummyjson.com/products"
  const DefaultPage: int := 1
  const DefaultLimit: int := 12
  const ListFallback: string := "Failed to fetch products"
  const DetailFallback: string := "Failed to fetch product"
  /** What a rejected response's error message starts with; the status follows. */
  const HttpErrorPrefix: string := "HTTP error! status: "

  /** A listing request with the hook's defaults filled in. */
  datatype ListQuery = ListQuery(category: Option<string>, sort: Option<SortOption>, page: int, limit: int)

  /** Page 1 and twelve per page unless the filters say otherwise. */
  function WithDefaults(filters: ProductFilters): ListQuery {
    ListQuery(filters.category, filters.sort,
              match filters.page case Some(p) => p case None => DefaultPage,
              match filters.limit case Some(l) => l case None => DefaultLimit)
  }

  /** Leaving page or limit out is the same as asking for page 1 or twelve
      per page: an empty filter set requests the first twelve products, and
      filling the defaults in explicitly changes nothing. */
  lemma DefaultsAreFirstPage(filters: ProductFilters)
    ensures var q := WithDefaults(filters);
      WithDefaults(filters.(page := Some(q.page), limit := Some(q.limit))) == q
    ensures filters.page.None? ==> Skip(WithDefaults(filters).page, WithDefaults(filters).limit) == 0
    ensures filters.limit.None? ==> WithDefaults(filters).limit == 12
    ensures var q := WithDefaults(ProductFilters(None, None, None, None));
      ListUrl(q.category, q.limit, Skip(q.page, q.limit)) == ApiBase + "?limit=12&skip=0"
  {
    assert IntToString(12) == "12" by {
      assert NatToString(12) == NatToString(1) + [DigitChar(2)];
    }
  }

  /** The number of products before the requested page. */
  function Skip(page: int, limit: int): int {
    (page - 1) * limit
  }

  /** The offset is a whole number of pages: it gives back the page, page 1
      starts at 0, and each next page starts `limit` further on. */
  lemma SkipLocatesPage(page: int, limit: int)
    requires limit > 0
    ensures Skip(page, limit) % limit == 0
    ensures Skip(page, limit) / limit == page - 1
    ensures Skip(page + 1, limit) == Skip(page, limit) + limit
    ensures Skip(1, limit) == 0
  {
    DivModUnique((page - 1) * limit, limit, page - 1, 0);
  }

  /** True when a listing request is scoped to a category: the category is
      present and not the empty string. */
  predicate Scoped(category: Option<string>) {
    category.Some? && category.value != ""
  }

  /** What a scoped request adds to the catalogue base: `/category/` and the
      category; nothing for an unscoped one. */
  function ScopePath(category: Option<string>): string {
    if Scoped(category) then "/category/" + category.value else ""
  }

  /** The endpoint of a listing request: the category endpoint or the
      unfiltered one. */
  function Endpoint(category: Option<string>): string {
    ApiBase + ScopePath(category)
  }

  /** The listing URL: the endpoint, then the page size and the offset. */
  function ListUrl(category: Option<string>, limit: int, skip: int): string {
    Endpoint(category) + QueryString(limit, skip)
  }

  /** The query string of a listing request. */
  function QueryString(limit: int, skip: int): string {
    "?limit=" + IntToString(limit) + "&skip=" + IntToString(skip)
  }

  lemma QueryStringStartsWithMark(limit: int, skip: int)
    ensures |QueryString(limit, skip)| > 0 && QueryString(limit, skip)[0] == '?'
  {
  }

  /** The URL always starts at the catalogue endpoint; what follows it is
      `/category/` and the category exactly when the request is scoped, and
      the query string at once otherwise. */
  lemma ListUrlScope(category: Option<string>, limit: int, skip: int)
    ensures |ListUrl(category, limit, skip)| > |ApiBase|
    ensures ListUrl(category, limit, skip)[..|ApiBase|] == ApiBase
    ensures Scoped(category) ==>
      ListUrl(category, limit, skip)[|ApiBase|..|ApiBase| + 10 + |category.value|] == "/category/" + category.value
    ensures !Scoped(category) ==> ListUrl(category, limit, skip)[|ApiBase|] == '?'
  {
    QueryStringStartsWithMark(limit, skip);
    PrefixOfThree(ApiBase, ScopePath(category), QueryString(limit, skip));
  }

  lemma PrefixOfThree(a: string, b: string, c: string)
    ensures |a + b + c| == |a| + |b| + |c|
    ensures (a + b + c)[..|a|] == a && (a + b + c)[|a|..|a| + |b|] == b
    ensures |c| > 0 ==> (a + b + c)[|a| + |b|] == c[0]
  {
  }

  lemma PrefixOfConcat(a: string, b: string)
    ensures (a + b)[..|a|] == a && (a + b)[|a|..] == b
  {
  }

  lemma SplitAtAmpersand(a: string, b: string, a': string, b': string)
    requires forall k :: 0 <= k < |a| ==> a[k] != '&'
    requires forall k :: 0 <= k < |a'| ==> a'[k] != '&'
    requires a + "&" + b == a' + "&" + b'
    ensures a == a' && b == b'
  {
    var u := a + "&" + b;
    assert u[|a|] == '&' && u[|a'|] == '&';
    assert forall k :: 0 <= k < |a| ==> u[k] == a[k];
    assert forall k :: 0 <= k < |a'| ==> u[k] == a'[k];
    assert |a| == |a'|;
    assert a == u[..|a|] == a';
    assert b == u[|a| + 1..] == b';
  }

  /** What follows `?limit=` in a listing URL. */
  lemma ListUrlTail(category: Option<string>, limit: int, skip: int)
    ensures |ListUrl(category, limit, skip)| >= |Endpoint(category)| + 7
    ensures ListUrl(category, limit, skip)[|Endpoint(category)| + 7..] ==
      IntToString(limit) + "&" + ("skip=" + IntToString(skip))
  {
    var t := IntToString(limit) + "&" + ("skip=" + IntToString(skip));
    assert QueryString(limit, skip) == "?limit=" + t;
    PrefixOfConcat("?limit=", t);
    PrefixOfConcat(Endpoint(category), QueryString(limit, skip));
  }

  lemma NoAmpersand(i: int)
    ensures forall k :: 0 <= k < |IntToString(i)| ==> IntToString(i)[k] != '&'
  {
  }

  /** For one category, different page sizes or offsets give different URLs. */
  lemma ListUrlInjective(category: Option<string>, limit1: int, skip1: int, limit2: int, skip2: int)
    requires ListUrl(category, limit1, skip1) == ListUrl(category, limit2, skip2)
    ensures limit1 == limit2 && skip1 == skip2
  {
    ListUrlTail(category, limit1, skip1);
    ListUrlTail(category, limit2, skip2);
    NoAmpersand(limit1);
    NoAmpersand(limit2);
    var t1, t2 := "skip=" + IntToString(skip1), "skip=" + IntToString(skip2);
    SplitAtAmpersand(IntToString(limit1), t1, IntToString(limit2), t2);
    IntToStringInjective(limit1, limit2);
    assert IntToString(skip1) == t1[5..] == t2[5..] == IntToString(skip2);
    IntToStringInjective(skip1, skip2);
  }

  /** Two different pages of one category request different URLs. */
  lemma DifferentPagesDifferentUrls(category: Option<string>, limit: int, page1: int, page2: int)
    requires limit > 0 && page1 != page2
    ensures ListUrl(category, limit, Skip(page1, limit)) != ListUrl(category, limit, Skip(page2, limit))
  {
    SkipLocatesPage(page1, limit);
    SkipLocatesPage(page2, limit);
    if ListUrl(category, limit, Skip(page1, limit)) == ListUrl(category, limit, Skip(page2, limit)) {
      ListUrlInjective(category, limit, Skip(page1, limit), limit, Skip(page2, limit));
      assert false;
    }
  }

  /** `Math.ceil(total / limit)`. */
  function TotalPages(total: int, limit: int): (pages: int)
    requires limit > 0
    ensures (pages - 1) * limit < total <= pages * limit
  {
    var q, m := total / limit, total % limit;
    assert total == q * limit + m;
    if m == 0 then q else q + 1
  }

  /** The page count is zero exactly when there are no products, and more
      than one page exactly when the products do not fit on one. */
  lemma TotalPagesCases(total: int, limit: int)
    requires total >= 0 && limit > 0
    ensures TotalPages(total, limit) >= 0
    ensures TotalPages(total, limit) == 0 <==> total == 0
    ensures TotalPages(total, limit) > 1 <==> total > limit
  {
    var p := TotalPages(total, limit);
    MulSign(p, limit);
    MulSign(p - 1, limit);
  }

  /** A page from 1 up to the page count starts inside the result set, and
      a later page starts past its end. */
  lemma PageWithinTotalIffNonEmpty(page: int, total: int, limit: int)
    requires limit > 0 && page >= 1
    ensures page <= TotalPages(total, limit) <==> Skip(page, limit) < total
  {
    var p := TotalPages(total, limit);
    MulSign(p - page, limit);
  }

  /** The error a settled request leaves, if any. */
  function FailureMessage<T>(outcome: FetchOutcome<T>, fallback: string): (message: Option<string>)
    ensures message.None? <==> outcome.Responded? && IsOkStatus(outcome.status)
  {
    match outcome
    case Responded(status, _) =>
      if IsOkStatus(status) then None else Some(HttpErrorPrefix + IntToString(status))
    case ThrewError(m) => Some(m)
    case ThrewNonError => Some(fallback)
  }

  /** A rejected response's message is never empty and names its status:
      two rejected statuses give the same message only when they are equal. */
  lemma HttpErrorNamesStatus<T>(status1: int, body1: T, status2: int, body2: T, fallback: string)
    requires !IsOkStatus(status1) && !IsOkStatus(status2)
    requires FailureMessage(Responded(status1, body1), fallback) == FailureMessage(Responded(status2, body2), fallback)
    ensures FailureMessage(Responded(status1, body1), fallback).value != ""
    ensures status1 == status2
  {
    var prefix := HttpErrorPrefix;
    var m1 := prefix + IntToString(status1);
    assert m1[|prefix|..] == IntToString(status1);
    assert (prefix + IntToString(status2))[|prefix|..] == IntToString(status2);
    IntToStringInjective(status1, status2);
  }

  /** The products shown for a successful listing: the server's page, sorted
      when a sort key is given. */
  function PageProducts(data: ProductsResponse, sort: Option<SortOption>): (r: seq<Product>)
    ensures multiset(r) == multiset(data.products)
    ensures sort.Some? ==> Ordered(r, sort.value)
    ensures sort.None? ==> r == data.products
  {
    match sort
    case Some(key) => SortProducts(data.products, key)
    case None => data.products
  }

  /** The state of the product-list query (`useProducts`). */
  class ProductListQuery {
    var products: seq<Product>
    var loading: bool
    var error: Option<string>
    var total: int

    /** On mount: no products, loading, no error, nothing counted. */
    constructor ()
      ensures products == [] && loading && error == None && total == 0
    {
      products, loading, error, total := [], true, None, 0;
    }

    /** `totalPages`, from the current total and the query's page size. */
    function PageCount(filters: ProductFilters): int
      reads this
      requires WithDefaults(filters).limit > 0
    {
      TotalPages(total, WithDefaults(filters).limit)
    }

    /** `fetchProducts`: one request for the filters, settled by `outcome`.
        Returns the URL requested. */
    method FetchProducts(filters: ProductFilters, outcome: FetchOutcome<ProductsResponse>) returns (url: string)
      modifies this
      ensures var q := WithDefaults(filters); url == ListUrl(q.category, q.limit, Skip(q.page, q.limit))
      ensures !loading
      ensures error == FailureMessage(outcome, ListFallback)
      ensures error.None? ==>
        products == PageProducts(outcome.body, filters.sort) && total == outcome.body.total
      ensures error.Some? ==> products == [] && total == 0
      ensures WithDefaults(filters).limit > 0 && error.Some? ==> PageCount(filters) == 0
    {
      var q := WithDefaults(filters);
      var skip := Skip(q.page, q.limit);
      loading := true;
      error := None;
      url := ApiBase;
      if q.category.Some? && q.category.value != "" {
        url := ApiBase + "/category/" + q.category.value;
      }
      assert url == Endpoint(q.category);
      url := url + QueryString(q.limit, skip);
      match outcome {
        case Responded(status, data) =>
          if !IsOkStatus(status) {
            error := Some(HttpErrorPrefix + IntToString(status));
            products, total := [], 0;
          } else {
            var sortedProducts := data.products;
            if q.sort.Some? {
              sortedProducts := SortProducts(data.products, q.sort.value);
            }
            products := sortedProducts;
            total := data.total;
          }
        case ThrewError(message) =>
          error := Some(message);
          products, total := [], 0;
        case ThrewNonError =>
          error := Some(ListFallback);
          products, total := [], 0;
      }
      loading := false;
      if q.limit > 0 && error.Some? {
        TotalPagesCases(0, q.limit);
      }
    }
  }

  /** The state of the single-product query (`useProduct`). */
  class ProductDetailQuery {
    var product: Option<Product>
    var loading: bool
    var error: Option<string>

    constructor ()
      ensures product == None && loading && error == None
    {
      product, loading, error := None, true, None;
    }

    /** The effect for `id`: no request at all for id 0; otherwise one request
        settled by `outcome`. Returns the URL requested, if any. */
    method Load(id: int, outcome: FetchOutcome<Product>) returns (url: Option<string>)
      modifies this
      ensures id == 0 ==> url == None && product == old(product) && loading == old(loading) && error == old(error)
      ensures id != 0 ==> url == Some(ApiBase + "/" + IntToString(id)) && !loading
      ensures id != 0 ==> error == FailureMessage(outcome, DetailFallback)
      ensures id != 0 && error.None? ==> product == Some(outcome.body)
      ensures id != 0 && error.Some? ==> product == None
    {
      url := None;
      if id != 0 {
        loading := true;
        error := None;
        url := Some(ApiBase + "/" + IntToString(id));
        match outcome {
          case Responded(status, data) =>
            if !IsOkStatus(status) {
              error := Some(HttpErrorPrefix + IntToString(status));
              product := None;
            } else {
              product := Some(data);
            }
          case ThrewError(message) =>
            error := Some(message);
            product := None;
          case ThrewNonError =>
            error := Some(DetailFallback);
            product := None;
        }
        loading := false;
      }
    }
  }
}
