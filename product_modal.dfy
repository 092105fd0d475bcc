/** The product detail overlay: the image carousel and its index, the image
    shown, the stock label, the Add to Cart rule, the SKU and the discount
    badge. */
module ProductModal {
  import opened CatalogTypes
  import opened Decimal
  import opened Arithmetic

  // ---- Carousel ----
  // The index is never negative (it starts at 0 and only takes values of
  // these two functions or a dot's position), so the source's truncating
  // remainder and Dafny's Euclidean one agree here.

  /** `nextImage` on an index, for `n` images. */
  function NextIndex(i: nat, n: nat): (r: nat)
    requires n > 0
    ensures r < n
  {
    (i + 1) % n
  }

  /** `prevImage` on an index, for `n` images. */
  function PrevIndex(i: nat, n: nat): (r: nat)
    requires n > 0
    ensures r < n
  {
    (i - 1 + n) % n
  }

  /** Stepping back undoes stepping forward and the other way round. */
  lemma PrevUndoesNext(i: nat, n: nat)
    requires i < n
    ensures PrevIndex(NextIndex(i, n), n) == i
    ensures NextIndex(PrevIndex(i, n), n) == i
  {
    if i + 1 < n {
      DivModUnique(i + 1, n, 0, i + 1);
      DivModUnique(i + n, n, 1, i);
    } else {
      DivModUnique(i + 1, n, 1, 0);
      DivModUnique(n - 1, n, 0, n - 1);
    }
    if i >= 1 {
      DivModUnique(i - 1 + n, n, 1, i - 1);
      DivModUnique(i, n, 0, i);
    } else {
      DivModUnique(n - 1, n, 0, n - 1);
      DivModUnique(n, n, 1, 0);
    }
  }

  /** `nextImage` applied `k` times. */
  function NextTimes(i: nat, n: nat, k: nat): nat
    requires n > 0
  {
    if k == 0 then i else NextIndex(NextTimes(i, n, k - 1), n)
  }

  /** Stepping forward `k` times moves the index `k` places round the ring. */
  lemma {:induction false} NextTimesRotates(i: nat, n: nat, k: nat)
    requires i < n
    ensures NextTimes(i, n, k) == (i + k) % n
  {
    if k == 0 {
      DivModUnique(i, n, 0, i);
    } else {
      NextTimesRotates(i, n, k - 1);
      ModSucc(i + k - 1, n);
    }
  }

  /** Stepping forward once per image comes back to the start. */
  lemma FullCycleReturns(i: nat, n: nat)
    requires i < n
    ensures NextTimes(i, n, n) == i
  {
    NextTimesRotates(i, n, n);
    DivModUnique(i + n, n, 1, i);
  }

  /** The overlay's `currentImageIndex`. It is kept when the product
      changes. */
  class ImageCarousel {
    var index: nat

    constructor ()
      ensures index == 0
    {
      index := 0;
    }

    /** The right arrow. */
    method Next(images: seq<string>)
      requires |images| > 0
      modifies this
      ensures index == NextIndex(old(index), |images|)
    {
      index := (index + 1) % |images|;
    }

    /** The left arrow. */
    method Prev(images: seq<string>)
      requires |images| > 0
      modifies this
      ensures index == PrevIndex(old(index), |images|)
    {
      index := (index - 1 + |images|) % |images|;
    }

    /** A click on dot `k`. */
    method Select(images: seq<string>, k: nat)
      requires k < |images|
      modifies this
      ensures index == k
    {
      index := k;
    }
  }

  /** The arrows exist only for more than one image. */
  predicate ArrowsShown(p: Product) {
    |p.images| > 1
  }

  /** One dot per image; the dot at the current index is highlighted. */
  function Dots(p: Product, index: nat): (dots: seq<bool>)
    ensures |dots| == |p.images|
    ensures forall k :: 0 <= k < |dots| ==> (dots[k] <==> k == index)
    ensures (exists k :: 0 <= k < |dots| && dots[k]) <==> index < |p.images|
    ensures forall j, k :: 0 <= j < k < |dots| ==> !(dots[j] && dots[k])
  {
    var dots := seq(|p.images|, k => k == index);
    assert index < |p.images| ==> dots[index];
    dots
  }

  /** `images[index] || thumbnail`: the image at the index when there is a
      non-empty one, else the thumbnail. */
  function DisplayedImage(p: Product, index: nat): (src: string)
    ensures index < |p.images| && p.images[index] != "" ==> src == p.images[index]
    ensures !(index < |p.images| && p.images[index] != "") ==> src == p.thumbnail
    ensures src == p.thumbnail || (index < |p.images| && src == p.images[index])
    ensures p.thumbnail != "" ==> src != ""
  {
    if index < |p.images| && p.images[index] != "" then p.images[index] else p.thumbnail
  }

  /** An index left over from a product with more images shows the
      thumbnail and highlights no dot. */
  lemma StaleIndexFallsBack(p: Product, index: nat)
    requires index >= |p.images|
    ensures DisplayedImage(p, index) == p.thumbnail
    ensures forall k :: 0 <= k < |Dots(p, index)| ==> !Dots(p, index)[k]
  {
  }

  /** After any number of forward arrow steps from a valid index, exactly
      the dot of the new index is highlighted. */
  lemma StepsKeepOneDot(p: Product, i: nat, k: nat)
    requires i < |p.images|
    ensures NextTimes(i, |p.images|, k) < |p.images|
    ensures Dots(p, NextTimes(i, |p.images|, k))[NextTimes(i, |p.images|, k)]
    ensures forall j :: 0 <= j < |p.images| && Dots(p, NextTimes(i, |p.images|, k))[j] ==> j == NextTimes(i, |p.images|, k)
  {
    NextTimesRotates(i, |p.images|, k);
  }

  // ---- Stock, Add to Cart, SKU, discount ----

  datatype StockStatus = OutOfStock | LowStock(count: int) | InStock

  /** The stock label: out of stock at zero or below, a count below ten,
      in stock otherwise. */
  function StockStatusOf(stock: int): StockStatus {
    if stock > 0 then (if stock < 10 then LowStock(stock) else InStock) else OutOfStock
  }

  function StockText(status: StockStatus): string {
    match status
    case OutOfStock => "Out of Stock"
    case LowStock(n) => "Only " + IntToString(n) + " left"
    case InStock => "In Stock"
  }

  lemma StockStatusRanges(stock: int)
    ensures StockStatusOf(stock) == OutOfStock <==> stock <= 0
    ensures StockStatusOf(stock) == InStock <==> stock >= 10
    ensures StockStatusOf(stock).LowStock? <==> 1 <= stock <= 9
    ensures StockStatusOf(stock).LowStock? ==> StockStatusOf(stock).count == stock
  {
  }

  /** A low-stock label names the count: different counts, different labels. */
  lemma LowStockTextNamesCount(a: int, b: int)
    requires StockText(LowStock(a)) == StockText(LowStock(b))
    ensures a == b
  {
    var t := StockText(LowStock(a));
    var u := StockText(LowStock(b));
    assert t == "Only " + (IntToString(a) + " left");
    assert u == "Only " + (IntToString(b) + " left");
    assert |IntToString(a)| == |t| - 10 == |IntToString(b)|;
    assert IntToString(a) == t[5..|t| - 5] == u[5..|u| - 5] == IntToString(b);
    IntToStringInjective(a, b);
  }

  /** Add to Cart is disabled exactly at stock 0. */
  predicate AddToCartEnabled(p: Product) {
    p.stock != 0
  }

  /** For a non-negative stock the button and the label agree: the button
      is enabled exactly when the label is not "Out of Stock". A negative
      stock is labelled "Out of Stock" and still leaves the button enabled. */
  lemma AddToCartAgreesWithLabel(p: Product)
    ensures p.stock >= 0 ==> (AddToCartEnabled(p) <==> StockStatusOf(p.stock) != OutOfStock)
    ensures p.stock < 0 ==> AddToCartEnabled(p) && StockStatusOf(p.stock) == OutOfStock
  {
  }

  /** `s.padStart(width, fill)`. */
  function PadStart(s: string, width: nat, fill: char): (r: string)
    ensures |r| == if |s| >= width then |s| else width
    ensures r[|r| - |s|..] == s
    ensures forall k :: 0 <= k < |r| - |s| ==> r[k] == fill
  {
    if |s| >= width then s else seq(width - |s|, _ => fill) + s
  }

  /** The SKU line: `PRD-` and the id padded with zeros to six characters. */
  function Sku(id: int): string {
    "PRD-" + PadStart(IntToString(id), 6, '0')
  }

  /** The SKU is `PRD-` then at least six characters; it ends with the whole
      id, so a longer id is never cut. */
  lemma SkuShape(id: int)
    ensures |Sku(id)| == 4 + (if |IntToString(id)| >= 6 then |IntToString(id)| else 6)
    ensures Sku(id)[..4] == "PRD-"
    ensures Sku(id)[|Sku(id)| - |IntToString(id)|..] == IntToString(id)
  {
    var padded := PadStart(IntToString(id), 6, '0');
    assert Sku(id) == "PRD-" + padded;
    assert Sku(id)[|Sku(id)| - |IntToString(id)|..] == padded[|padded| - |IntToString(id)|..];
  }

  /** For a non-negative id, the digits after `PRD-` read back as the id. */
  lemma SkuRoundTrip(id: int)
    requires id >= 0
    ensures AllDigits(Sku(id)[4..])
    ensures DigitsValue(Sku(id)[4..]) == id
  {
    var d := NatToString(id);
    var padded := PadStart(d, 6, '0');
    var k := |padded| - |d|;
    assert padded == Zeros(k) + d;
    assert Sku(id)[4..] == padded;
    LeadingZerosValue(k, d);
    NatToStringRoundTrip(id);
  }

  lemma SkuInjective(a: int, b: int)
    requires a >= 0 && b >= 0 && Sku(a) == Sku(b)
    ensures a == b
  {
    SkuRoundTrip(a);
    SkuRoundTrip(b);
  }

  /** The discount badge and the savings line. */
  predicate HasDiscount(p: Product) {
    p.discountPercentage > 0.0
  }

  // ---- The overlay as a whole ----

  datatype DetailView = DetailView(
    image: string,
    arrows: bool,
    dots: seq<bool>,
    discountBadge: bool,
    savingsLine: bool,
    stock: StockStatus,
    stockText: string,
    addToCartEnabled: bool,
    sku: string)

  /** What the overlay renders: nothing without a product or while closed. */
  function Render(product: Option<Product>, isOpen: bool, index: nat): Option<DetailView> {
    match product
    case None => None
    case Some(p) =>
      if !isOpen then None
      else
        var status := StockStatusOf(p.stock);
        Some(DetailView(DisplayedImage(p, index), ArrowsShown(p), Dots(p, index),
                        HasDiscount(p), HasDiscount(p), status, StockText(status),
                        AddToCartEnabled(p), Sku(p.id)))
  }

  /** The overlay shows exactly when it is open on a product; the badge and
      the savings line then appear together, exactly for a positive
      discount, and the arrows exactly for more than one image. */
  lemma RenderShape(product: Option<Product>, isOpen: bool, index: nat)
    ensures Render(product, isOpen, index).Some? <==> product.Some? && isOpen
    ensures Render(product, isOpen, index).Some? ==>
      var v := Render(product, isOpen, index).value;
      && v.discountBadge == v.savingsLine == (product.value.discountPercentage > 0.0)
      && (v.arrows <==> |product.value.images| > 1)
      && |v.dots| == |product.value.images|
      && (forall k :: 0 <= k < |v.dots| ==> (v.dots[k] <==> k == index))
      && (v.stockText == "Out of Stock" <==> product.value.stock <= 0)
  {
    if product.Some? && isOpen {
      var s := product.value.stock;
      var st := StockStatusOf(s);
      if st.LowStock? {
        assert StockText(st)[..5] == "Only ";
      }
    }
  }
}
