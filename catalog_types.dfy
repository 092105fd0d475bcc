/** The record shapes of the catalogue: products and categories as the
    remote catalogue service returns them, the four sort keys, and the
    query filters whose every field may be absent. */
module CatalogTypes {

  datatype Option<+T> = None | Some(value: T)

  /** One product of the catalogue. Prices, discount and rating are decimal
      values in the source; they are exact reals here. */
  datatype Product = Product(
    id: int,
    title: string,
    description: string,
    price: real,
    discountPercentage: real,
    rating: real,
    stock: int,
    brand: string,
    category: string,
    thumbnail: string,
    images: seq<string>)

  /** One page of a product listing, with the total number of matches. */
  datatype ProductsResponse = ProductsResponse(
    products: seq<Product>,
    total: int,
    skip: int,
    limit: int)

  datatype Category = Category(slug: string, name: string, url: string)

  /** Exactly the four sort keys of the source. */
  datatype SortOption = PriceAsc | PriceDesc | TitleAsc | TitleDesc

  /** Query filters; every field is optional. */
  datatype ProductFilters = ProductFilters(
    category: Option<string>,
    sort: Option<SortOption>,
    page: Option<int>,
    limit: Option<int>)

  /** How a request to the remote service ended: with a response (its HTTP
      status and decoded body), with a thrown `Error` carrying a message, or
      with a thrown value that is not an `Error`. */
  datatype FetchOutcome<T> =
    | Responded(status: int, body: T)
    | ThrewError(message: string)
    | ThrewNonError

  /** `response.ok`: the status lies in 200..299. */
  predicate IsOkStatus(status: int) {
    200 <= status <= 299
  }
}
