/** `sortProducts`: the client-side reordering of one page of products by
    price or by title, ascending or descending. */
module ProductSort {
  import opened CatalogTypes

  /** Title order: plain lexicographic order on character codes, a negative,
      zero or positive answer as a comparator gives. */
  function TitleCompare(a: string, b: string): (r: int)
    ensures -1 <= r <= 1
  {
    if a == [] && b == [] then 0
    else if a == [] then -1
    else if b == [] then 1
    else if a[0] < b[0] then -1
    else if a[0] > b[0] then 1
    else TitleCompare(a[1..], b[1..])
  }

  lemma {:induction false} TitleCompareAntisymmetric(a: string, b: string)
    ensures TitleCompare(a, b) == -TitleCompare(b, a)
  {
    if a != [] && b != [] && a[0] == b[0] {
      TitleCompareAntisymmetric(a[1..], b[1..]);
    }
  }

  lemma {:induction false} TitleCompareZero(a: string, b: string)
    ensures TitleCompare(a, b) == 0 <==> a == b
  {
    if a != [] && b != [] && a[0] == b[0] {
      TitleCompareZero(a[1..], b[1..]);
      assert a == [a[0]] + a[1..] && b == [b[0]] + b[1..];
    }
  }

  lemma {:induction false} TitleCompareTransitive(a: string, b: string, c: string)
    requires TitleCompare(a, b) <= 0 && TitleCompare(b, c) <= 0
    ensures TitleCompare(a, c) <= 0
  {
    if a != [] && b != [] && c != [] && a[0] == b[0] == c[0] {
      TitleCompareTransitive(a[1..], b[1..], c[1..]);
    }
  }

  /** The comparator handed to the array sort. */
  function Compare(x: Product, y: Product, sort: SortOption): real {
    match sort
    case PriceAsc => x.price - y.price
    case PriceDesc => y.price - x.price
    case TitleAsc => TitleCompare(x.title, y.title) as real
    case TitleDesc => TitleCompare(y.title, x.title) as real
  }

  /** `x` may stand before `y` in the sorted output. */
  predicate Precedes(x: Product, y: Product, sort: SortOption) {
    Compare(x, y, sort) <= 0.0
  }

  /** The key the comparator looks at, compared for equality. */
  predicate SameKey(x: Product, y: Product, sort: SortOption) {
    if sort == PriceAsc || sort == PriceDesc then x.price == y.price else x.title == y.title
  }

  lemma PrecedesTotal(x: Product, y: Product, sort: SortOption)
    ensures Precedes(x, y, sort) || Precedes(y, x, sort)
    ensures Precedes(x, y, sort) && Precedes(y, x, sort) <==> SameKey(x, y, sort)
  {
    TitleCompareAntisymmetric(x.title, y.title);
    TitleCompareZero(x.title, y.title);
    TitleCompareZero(y.title, x.title);
  }

  lemma PrecedesTransitive(x: Product, y: Product, z: Product, sort: SortOption)
    requires Precedes(x, y, sort) && Precedes(y, z, sort)
    ensures Precedes(x, z, sort)
  {
    match sort
    case PriceAsc =>
    case PriceDesc =>
    case TitleAsc => TitleCompareTransitive(x.title, y.title, z.title);
    case TitleDesc => TitleCompareTransitive(z.title, y.title, x.title);
  }

  /** Every earlier product may stand before every later one. */
  predicate Ordered(s: seq<Product>, sort: SortOption) {
    forall i, j :: 0 <= i < j < |s| ==> Precedes(s[i], s[j], sort)
  }

  /** Places `x` into an ordered list, before the first product it may
      precede. */
  function Insert(x: Product, s: seq<Product>, sort: SortOption): (r: seq<Product>)
    requires Ordered(s, sort)
    ensures multiset(r) == multiset(s) + multiset{x}
    ensures Ordered(r, sort)
  {
    if s == [] then [x]
    else if Precedes(x, s[0], sort) then
      PrependOrdered(x, s, sort);
      [x] + s
    else
      var rest := Insert(x, s[1..], sort);
      ConsOrdered(x, s, rest, sort);
      [s[0]] + rest
  }

  /** A product that may precede the head of an ordered list may precede all
      of it. */
  lemma PrependOrdered(x: Product, s: seq<Product>, sort: SortOption)
    requires s != [] && Ordered(s, sort) && Precedes(x, s[0], sort)
    ensures Ordered([x] + s, sort)
  {
    forall j | 0 < j < |s| ensures Precedes(x, s[j], sort) {
      PrecedesTransitive(x, s[0], s[j], sort);
    }
    var t := [x] + s;
    forall i, j | 0 <= i < j < |t| ensures Precedes(t[i], t[j], sort) {
      if i > 0 {
        assert t[i] == s[i - 1] && t[j] == s[j - 1];
      }
    }
  }

  /** When `x` goes after the head, the head stays first: it may precede
      every product of the rest, `x` included. */
  lemma ConsOrdered(x: Product, s: seq<Product>, rest: seq<Product>, sort: SortOption)
    requires s != [] && Ordered(s, sort) && !Precedes(x, s[0], sort)
    requires Ordered(rest, sort) && multiset(rest) == multiset(s[1..]) + multiset{x}
    ensures Ordered([s[0]] + rest, sort)
    ensures multiset([s[0]] + rest) == multiset(s) + multiset{x}
  {
    assert s == [s[0]] + s[1..];
    PrecedesTotal(x, s[0], sort);
    forall j | 0 <= j < |rest| ensures Precedes(s[0], rest[j], sort) {
      assert rest[j] in multiset(rest);
      if rest[j] != x {
        assert rest[j] in multiset(s[1..]);
        var k :| 0 <= k < |s[1..]| && s[1..][k] == rest[j];
        assert s[k + 1] == rest[j];
      }
    }
    var t := [s[0]] + rest;
    forall i, j | 0 <= i < j < |t| ensures Precedes(t[i], t[j], sort) {
      if i > 0 {
        assert t[i] == rest[i - 1] && t[j] == rest[j - 1];
      } else {
        assert t[j] == rest[j - 1];
      }
    }
  }

  /** `sortProducts`: a sorted copy of the page; the input list itself is a
      value and is left as it was. */
  function SortProducts(products: seq<Product>, sort: SortOption): (r: seq<Product>)
    ensures multiset(r) == multiset(products)
    ensures Ordered(r, sort)
  {
    if products == [] then []
    else
      assert products == [products[0]] + products[1..];
      Insert(products[0], SortProducts(products[1..], sort), sort)
  }

  // ---- Properties of the sort ----

  /** The products of a list have pairwise different keys, unless they are
      the same product. */
  predicate DistinctKeys(s: seq<Product>, sort: SortOption) {
    forall x, y :: x in s && y in s && SameKey(x, y, sort) ==> x == y
  }

  /** Of two ordered arrangements of one multiset, the first elements share
      the key. */
  lemma OrderedHeadsShareKey(a: seq<Product>, b: seq<Product>, sort: SortOption)
    requires a != [] && multiset(a) == multiset(b)
    requires Ordered(a, sort) && Ordered(b, sort)
    ensures b != [] && SameKey(a[0], b[0], sort)
  {
    assert a[0] in multiset(b);
    assert b != [];
    assert b[0] in multiset(a);
    var k :| 0 <= k < |b| && b[k] == a[0];
    var m :| 0 <= m < |a| && a[m] == b[0];
    PrecedesTotal(a[0], a[0], sort);
    assert Precedes(b[0], b[k], sort) by { if k > 0 { assert Precedes(b[0], b[k], sort); } }
    assert Precedes(a[0], a[m], sort) by { if m > 0 { assert Precedes(a[0], a[m], sort); } }
    PrecedesTotal(a[0], b[0], sort);
  }

  lemma TailMultiset(a: seq<Product>)
    requires a != []
    ensures multiset(a[1..]) == multiset(a) - multiset{a[0]}
    ensures forall x :: x in a[1..] ==> x in a
  {
    assert a == [a[0]] + a[1..];
  }

  /** With distinct keys, a list has only one ordered arrangement. */
  lemma {:induction false} OrderedArrangementUnique(a: seq<Product>, b: seq<Product>, sort: SortOption)
    requires multiset(a) == multiset(b)
    requires Ordered(a, sort) && Ordered(b, sort)
    requires DistinctKeys(a, sort)
    ensures a == b
  {
    if a == [] {
      assert |b| == |multiset(b)| == 0;
    } else {
      OrderedHeadsShareKey(a, b, sort);
      assert b[0] in multiset(a);
      assert a[0] in a && b[0] in a;
      assert a[0] == b[0];
      TailMultiset(a);
      TailMultiset(b);
      OrderedArrangementUnique(a[1..], b[1..], sort);
      assert a == [a[0]] + a[1..] && b == [b[0]] + b[1..];
    }
  }

  function Reverse(s: seq<Product>): (r: seq<Product>)
    ensures |r| == |s|
    ensures forall k :: 0 <= k < |s| ==> r[k] == s[|s| - 1 - k]
  {
    if s == [] then [] else Reverse(s[1..]) + [s[0]]
  }

  lemma {:induction false} ReverseMultiset(s: seq<Product>)
    ensures multiset(Reverse(s)) == multiset(s)
  {
    if s != [] {
      ReverseMultiset(s[1..]);
      assert s == [s[0]] + s[1..];
    }
  }

  function Flip(sort: SortOption): SortOption {
    match sort
    case PriceAsc => PriceDesc
    case PriceDesc => PriceAsc
    case TitleAsc => TitleDesc
    case TitleDesc => TitleAsc
  }

  lemma ReverseOrdered(s: seq<Product>, sort: SortOption)
    requires Ordered(s, sort)
    ensures Ordered(Reverse(s), Flip(sort))
  {
    var r := Reverse(s);
    forall i, j | 0 <= i < j < |r| ensures Precedes(r[i], r[j], Flip(sort)) {
      assert Precedes(s[|s| - 1 - j], s[|s| - 1 - i], sort);
    }
  }

  lemma DistinctKeysPermutation(a: seq<Product>, b: seq<Product>, sort: SortOption)
    requires multiset(a) == multiset(b)
    requires DistinctKeys(a, sort)
    ensures DistinctKeys(b, Flip(sort))
  {
    forall x, y | x in b && y in b && SameKey(x, y, Flip(sort)) ensures x == y {
      assert x in multiset(b) && y in multiset(b);
      assert x in a && y in a;
    }
  }

  /** Reversing the ascending order gives the descending one (and the other
      way round) when no two products share the key. */
  lemma DescendingIsReversedAscending(products: seq<Product>, sort: SortOption)
    requires DistinctKeys(products, sort)
    ensures SortProducts(products, Flip(sort)) == Reverse(SortProducts(products, sort))
  {
    var up := SortProducts(products, sort);
    var down := SortProducts(products, Flip(sort));
    ReverseMultiset(up);
    ReverseOrdered(up, sort);
    DistinctKeysPermutation(products, down, sort);
    OrderedArrangementUnique(down, Reverse(up), Flip(sort));
  }
}
