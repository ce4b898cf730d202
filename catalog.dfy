/**
 * The product listing route: query defaults, the filter and the sort key,
 * page slicing and the page count, the per-product rating summary, and the
 * admin-only product creation.
 */
module Catalog {
  import opened Wrappers
  import opened Schema

  datatype SortKey = NewestFirst | PriceAscending | PriceDescending | NameAscending

  /**
   * The query string. `page` and `limit` are already parsed to numbers; every
   * field is `None` when its parameter is absent or empty.
   */
  datatype Params = Params(
    category: Option<string>,
    featured: Option<string>,
    page: Option<int>,
    limit: Option<int>,
    sort: Option<string>)

  datatype Query = Query(category: Option<string>, featuredOnly: bool, page: int, limit: int, orderBy: SortKey)

  /** The sort key a sort name selects; every name but the three known ones sorts newest first. */
  function SortKeyFor(sort: string): (k: SortKey)
    ensures k == PriceAscending <==> sort == "price-asc"
    ensures k == PriceDescending <==> sort == "price-desc"
    ensures k == NameAscending <==> sort == "name"
    ensures k == NewestFirst <==> sort !in {"price-asc", "price-desc", "name"}
  {
    var orderBy := NewestFirst;
    var orderBy := if sort == "price-asc" then PriceAscending else orderBy;
    var orderBy := if sort == "price-desc" then PriceDescending else orderBy;
    if sort == "name" then NameAscending else orderBy
  }

  /** The query the route builds from its parameters, defaults filled in. */
  function Plan(p: Params): (q: Query)
    ensures q.page == p.page.GetOr(1) && q.limit == p.limit.GetOr(12)
    ensures q.orderBy == SortKeyFor(p.sort.GetOr("newest"))
    ensures q.category.Some? <==> p.category.Some? && p.category.value != ""
    ensures q.category.Some? ==> q.category == p.category
    ensures q.featuredOnly <==> p.featured == Some("true")
  {
    var sort := p.sort.GetOr("newest");
    Query(if p.category.Some? && p.category.value != "" then p.category else None,
          p.featured == Some("true"),
          p.page.GetOr(1),
          p.limit.GetOr(12),
          SortKeyFor(sort))
  }

  /**
   * The route's own construction: the filter and the sort key are set by
   * successive assignments, each later test overriding the earlier ones.
   */
  method BuildQuery(p: Params) returns (q: Query)
    ensures q == Plan(p)
  {
    var page := if p.page.Some? then p.page.value else 1;
    var limit := if p.limit.Some? then p.limit.value else 12;
    var sort := if p.sort.Some? then p.sort.value else "newest";

    var category: Option<string> := None;
    var featuredOnly := false;
    if p.category.Some? && p.category.value != "" {
      category := p.category;
    }
    if p.featured == Some("true") {
      featuredOnly := true;
    }

    var orderBy := NewestFirst;
    if sort == "price-asc" {
      orderBy := PriceAscending;
    }
    if sort == "price-desc" {
      orderBy := PriceDescending;
    }
    if sort == "name" {
      orderBy := NameAscending;
    }
    q := Query(category, featuredOnly, page, limit, orderBy);
  }

  /** With no parameters: first page, twelve per page, newest first, no filter. */
  lemma PlanDefaults()
    ensures Plan(Params(None, None, None, None, None)) == Query(None, false, 1, 12, NewestFirst)
  {
  }

  /** The filter: a category slug only when one was given, featured only for exactly "true". */
  predicate Matches(q: Query, categories: map<Id, string>, p: Product) {
    && (q.category.None? || (p.categoryId in categories && categories[p.categoryId] == q.category.value))
    && (!q.featuredOnly || p.featured)
  }

  function Filter(products: seq<Product>, q: Query, categories: map<Id, string>): seq<Product>
    decreases |products|
  {
    if products == [] then []
    else (if Matches(q, categories, products[0]) then [products[0]] else []) + Filter(products[1..], q, categories)
  }

  /** The filter keeps exactly the matching products. */
  lemma {:induction false} FilterKeepsMatches(products: seq<Product>, q: Query, categories: map<Id, string>)
    ensures forall p :: p in Filter(products, q, categories) <==> p in products && Matches(q, categories, p)
    ensures |Filter(products, q, categories)| <= |products|
    decreases |products|
  {
    if products != [] {
      FilterKeepsMatches(products[1..], q, categories);
      assert products == [products[0]] + products[1..];
    }
  }

  /** Filtering distributes over concatenation, so the kept products stay in catalog order. */
  lemma {:induction false} FilterAppend(a: seq<Product>, b: seq<Product>, q: Query, categories: map<Id, string>)
    ensures Filter(a + b, q, categories) == Filter(a, q, categories) + Filter(b, q, categories)
    decreases |a|
  {
    if a == [] {
      assert a + b == b;
    } else {
      assert (a + b)[1..] == a[1..] + b;
      FilterAppend(a[1..], b, q, categories);
    }
  }

  /** Without a category or the featured flag, every product is listed. */
  lemma {:induction false} NoFilterKeepsAll(products: seq<Product>, q: Query, categories: map<Id, string>)
    requires q.category.None? && !q.featuredOnly
    ensures Filter(products, q, categories) == products
    decreases |products|
  {
    if products != [] {
      NoFilterKeepsAll(products[1..], q, categories);
      assert products == [products[0]] + products[1..];
    }
  }

  /** Lexicographic order on names, by character code. */
  predicate NameAtMost(a: string, b: string)
    decreases |a|
  {
    a == [] || (b != [] && (a[0] < b[0] || (a[0] == b[0] && NameAtMost(a[1..], b[1..]))))
  }

  /** `a` may be listed before `b` under the key. */
  predicate Before(key: SortKey, a: Product, b: Product) {
    match key
    case NewestFirst => a.createdAt >= b.createdAt
    case PriceAscending => a.basePrice <= b.basePrice
    case PriceDescending => a.basePrice >= b.basePrice
    case NameAscending => NameAtMost(a.name, b.name)
  }

  predicate SortedBy(key: SortKey, s: seq<Product>) {
    forall i, j :: 0 <= i < j < |s| ==> Before(key, s[i], s[j])
  }

  /** The number of products skipped before page `page`. */
  function Offset(page: int, limit: nat): (skip: int)
    ensures page >= 1 ==> skip >= 0
  {
    var skip := (page - 1) * limit;
    if page >= 1 then MultiplyMonotone(page - 1, 0, limit); skip else skip
  }

  /** Each page starts `limit` products after the one before it. */
  lemma OffsetStep(page: int, limit: nat)
    ensures Offset(page + 1, limit) == Offset(page, limit) + limit
  {
    assert page * limit == (page - 1) * limit + limit;
  }

  /** At most `limit` consecutive products starting at `skip`. */
  function Slice(s: seq<Product>, skip: nat, limit: nat): (r: seq<Product>)
    ensures |r| <= limit
    ensures forall i :: 0 <= i < |r| ==> skip + i < |s| && r[i] == s[skip + i]
    ensures |r| == limit || skip + |r| >= |s|
  {
    if skip >= |s| then [] else s[skip..if skip + limit <= |s| then skip + limit else |s|]
  }

  /** The page at `page` (from 1): at most `limit` items starting at the page's offset. */
  function PageOf(s: seq<Product>, page: int, limit: nat): (r: seq<Product>)
    requires page >= 1
    ensures |r| <= limit
    ensures forall i :: 0 <= i < |r| ==> Offset(page, limit) + i < |s| && r[i] == s[Offset(page, limit) + i]
    ensures |r| == limit || Offset(page, limit) + |r| >= |s|
  {
    Slice(s, Offset(page, limit), limit)
  }

  /** `Math.ceil(total / limit)`. */
  function PageCount(total: nat, limit: nat): (pages: nat)
    requires limit > 0
    ensures pages * limit >= total
    ensures pages == 0 || (pages - 1) * limit < total
  {
    var pages := (total + limit - 1) / limit;
    assert pages * limit + (total + limit - 1) % limit == total + limit - 1;
    pages
  }

  /** Pages 1 to n, one after the other. */
  function Pages(s: seq<Product>, limit: nat, n: nat): seq<Product> {
    if n == 0 then [] else Pages(s, limit, n - 1) + PageOf(s, n, limit)
  }

  /** The first `end` products, or all of them when there are fewer. */
  function Prefix(s: seq<Product>, end: int): (r: seq<Product>)
    requires end >= 0
    ensures |r| <= |s|
  {
    s[..if end <= |s| then end else |s|]
  }

  /** A slice continues the prefix that ends where it starts. */
  lemma PrefixThenSlice(s: seq<Product>, skip: nat, limit: nat)
    ensures Prefix(s, skip) + Slice(s, skip, limit) == Prefix(s, skip + limit)
  {
    if skip < |s| {
      var hi := if skip + limit <= |s| then skip + limit else |s|;
      assert s[..skip] + s[skip..hi] == s[..hi];
    }
  }

  lemma {:induction false} PagesArePrefix(s: seq<Product>, limit: nat, n: nat)
    ensures Pages(s, limit, n) == Prefix(s, Offset(n + 1, limit))
  {
    if n > 0 {
      var lo := Offset(n, limit);
      assert n - 1 + 1 == n;
      PagesArePrefix(s, limit, n - 1);
      OffsetStep(n, limit);
      PrefixThenSlice(s, lo, limit);
    }
  }

  /** With a positive limit, pages 1 to the page count, all cut from the one order `s`, are exactly `s`. */
  lemma PagesPartition(s: seq<Product>, limit: nat)
    requires limit > 0
    ensures Pages(s, limit, PageCount(|s|, limit)) == s
  {
    var n := PageCount(|s|, limit);
    PagesArePrefix(s, limit, n);
    assert Offset(n + 1, limit) == n * limit;
    assert s[..|s|] == s;
  }

  /** A page past the page count is empty. */
  lemma PageBeyondCountIsEmpty(s: seq<Product>, page: int, limit: nat)
    requires limit > 0 && page > PageCount(|s|, limit)
    ensures PageOf(s, page, limit) == []
  {
    var n := PageCount(|s|, limit);
    MultiplyMonotone(page - 1, n, limit);
    assert Offset(page, limit) >= n * limit;
  }

  lemma MultiplyMonotone(a: int, b: int, c: nat)
    requires a >= b
    ensures a * c >= b * c
  {
    assert a * c - b * c == (a - b) * c;
  }

  /** The ratings of the approved reviews: what the route loads for each product. */
  function ApprovedRatings(reviews: seq<Review>): seq<int>
    decreases |reviews|
  {
    if reviews == [] then []
    else (if reviews[0].approved then [reviews[0].rating] else []) + ApprovedRatings(reviews[1..])
  }

  function Sum(ratings: seq<int>): int
    decreases |ratings|
  {
    if ratings == [] then 0 else ratings[0] + Sum(ratings[1..])
  }

  /** The mean approved rating, or 0 when there is none. */
  function AverageRating(reviews: seq<Review>): real {
    var ratings := ApprovedRatings(reviews);
    if |ratings| > 0 then Sum(ratings) as real / |ratings| as real else 0.0
  }

  lemma {:induction false} SumBounds(ratings: seq<int>, lo: int, hi: int)
    requires forall i :: 0 <= i < |ratings| ==> lo <= ratings[i] <= hi
    ensures |ratings| * lo <= Sum(ratings) <= |ratings| * hi
    decreases |ratings|
  {
    if ratings != [] {
      SumBounds(ratings[1..], lo, hi);
      assert |ratings| * lo == lo + (|ratings| - 1) * lo;
      assert |ratings| * hi == hi + (|ratings| - 1) * hi;
    }
  }

  lemma {:induction false} ApprovedRatingsFrom(reviews: seq<Review>, lo: int, hi: int)
    requires forall i :: 0 <= i < |reviews| ==> lo <= reviews[i].rating <= hi
    ensures forall i :: 0 <= i < |ApprovedRatings(reviews)| ==> lo <= ApprovedRatings(reviews)[i] <= hi
    decreases |reviews|
  {
    if reviews != [] {
      ApprovedRatingsFrom(reviews[1..], lo, hi);
    }
  }

  /** When every rating lies in [lo, hi] and one is approved, so does the average. */
  lemma AverageWithinBounds(reviews: seq<Review>, lo: int, hi: int)
    requires forall i :: 0 <= i < |reviews| ==> lo <= reviews[i].rating <= hi
    requires |ApprovedRatings(reviews)| > 0
    ensures lo as real <= AverageRating(reviews) <= hi as real
  {
    ApprovedRatingsFrom(reviews, lo, hi);
    MeanWithinBounds(ApprovedRatings(reviews), lo, hi);
  }

  lemma MeanWithinBounds(ratings: seq<int>, lo: int, hi: int)
    requires forall i :: 0 <= i < |ratings| ==> lo <= ratings[i] <= hi
    requires |ratings| > 0
    ensures lo as real <= Sum(ratings) as real / |ratings| as real <= hi as real
  {
    SumBounds(ratings, lo, hi);
    CastBounds(|ratings|, Sum(ratings), lo, hi);
    QuotientBounds(Sum(ratings) as real, |ratings| as real, lo as real, hi as real);
  }

  /** Integer bounds on a sum carry over to reals. */
  lemma CastBounds(n: int, total: int, lo: int, hi: int)
    requires n * lo <= total <= n * hi
    ensures n as real * lo as real <= total as real <= n as real * hi as real
  {
    CastProduct(n, lo);
    CastProduct(n, hi);
  }

  lemma CastProduct(k: int, x: int)
    ensures (k * x) as real == k as real * x as real
  {
  }

  lemma QuotientBounds(s: real, n: real, lo: real, hi: real)
    requires n > 0.0 && n * lo <= s <= n * hi
    ensures lo <= s / n <= hi
  {
    var a := s / n;
    assert a * n == s;
    assert (a - lo) * n == s - lo * n;
    assert (hi - a) * n == hi * n - s;
  }

  /** Without an approved review the average is 0. */
  lemma NoApprovedReviewMeansZero(reviews: seq<Review>)
    requires forall i :: 0 <= i < |reviews| ==> !reviews[i].approved
    ensures ApprovedRatings(reviews) == [] && AverageRating(reviews) == 0.0
    decreases |reviews|
  {
    if reviews != [] {
      NoApprovedReviewMeansZero(reviews[1..]);
    }
  }

  datatype ProductView = ProductView(product: Product, averageRating: real, reviewCount: int)

  function View(p: Product): (v: ProductView)
    ensures v.product == p && v.reviewCount == |ApprovedRatings(p.reviews)|
    ensures v.reviewCount == 0 ==> v.averageRating == 0.0
  {
    ProductView(p, AverageRating(p.reviews), |ApprovedRatings(p.reviews)|)
  }

  /** The views of one page of `s`, in order. */
  function PageViews(s: seq<Product>, page: int, limit: nat): (r: seq<ProductView>)
    requires page >= 1
    ensures |r| <= limit
    ensures forall i :: 0 <= i < |r| ==> Offset(page, limit) + i < |s| && r[i] == View(s[Offset(page, limit) + i])
  {
    var items := PageOf(s, page, limit);
    seq(|items|, i requires 0 <= i < |items| => View(items[i]))
  }

  /** Sequences with the same elements have the same length. */
  lemma SameCount(a: seq<Product>, b: seq<Product>)
    requires multiset(a) == multiset(b)
    ensures |a| == |b|
  {
    assert |multiset(a)| == |multiset(b)|;
  }

  datatype Listing = Listing(products: seq<ProductView>, page: int, limit: int, total: int, pages: Option<int>)

  datatype ListReply = Listed(listing: Listing) | ListFailed  // 200 / 500

  /**
   * The listing route. `ordered` is the database's answer to the filtered,
   * sorted query before paging: the matching products, sorted by the key.
   * A negative offset is refused by the database (500). A limit of 0 takes
   * nothing and its page count is not a number (serialised as null).
   */
  function ListProducts(catalog: seq<Product>, categories: map<Id, string>, p: Params, ordered: seq<Product>)
    : (r: ListReply)
    requires Plan(p).limit >= 0
    requires multiset(ordered) == multiset(Filter(catalog, Plan(p), categories))
    requires SortedBy(Plan(p).orderBy, ordered)
    ensures r.ListFailed? <==> Plan(p).page < 1 && Plan(p).limit > 0
    ensures r.Listed? ==>
              && r.listing.page == Plan(p).page && r.listing.limit == Plan(p).limit
              && r.listing.total == |Filter(catalog, Plan(p), categories)| == |ordered|
    ensures r.Listed? && Plan(p).limit > 0 ==>
              && r.listing.products == PageViews(ordered, Plan(p).page, Plan(p).limit)
              && r.listing.pages == Some(PageCount(r.listing.total, Plan(p).limit))
    ensures r.Listed? && Plan(p).limit == 0 ==> r.listing.pages.None? && r.listing.products == []
  {
    var q := Plan(p);
    var total := |Filter(catalog, q, categories)|;
    SameCount(ordered, Filter(catalog, q, categories));
    if q.limit == 0 then
      Listed(Listing([], q.page, 0, total, None))
    else if q.page < 1 then
      ListFailed
    else
      Listed(Listing(PageViews(ordered, q.page, q.limit), q.page, q.limit, total, Some(PageCount(total, q.limit))))
  }

  /**
   * The sort has no unique tiebreaker, and each page is a query of its own.
   * Two products of equal price, one per page: when the two queries order the
   * tie differently, both pages list the same product and the other is never listed.
   */
  lemma TiedPagesMayRepeat(a: Product, b: Product, categories: map<Id, string>)
    requires a != b && a.basePrice == b.basePrice
    ensures var first := Params(None, None, Some(1), Some(1), Some("price-asc"));
            var second := first.(page := Some(2));
            && Plan(first) == Query(None, false, 1, 1, PriceAscending)
            && Plan(second) == Query(None, false, 2, 1, PriceAscending)
            && Filter([a, b], Plan(first), categories) == Filter([a, b], Plan(second), categories) == [a, b]
            && multiset([b, a]) == multiset([a, b])
            && SortedBy(PriceAscending, [a, b]) && SortedBy(PriceAscending, [b, a])
            && ListProducts([a, b], categories, first, [a, b]) == Listed(Listing([View(a)], 1, 1, 2, Some(2)))
            && ListProducts([a, b], categories, second, [b, a]) == Listed(Listing([View(a)], 2, 1, 2, Some(2)))
            && View(b) != View(a)
  {
    var first := Params(None, None, Some(1), Some(1), Some("price-asc"));
    NoFilterKeepsAll([a, b], Plan(first), categories);
    NoFilterKeepsAll([a, b], Plan(first.(page := Some(2))), categories);
  }

  /** The body of a product creation request; `featured` is `None` when omitted. */
  datatype ProductInput = ProductInput(
    name: string,
    slug: string,
    description: string,
    basePrice: real,
    categoryId: Id,
    brand: string,
    featured: Option<bool>)

  datatype CreateReply = ProductCreated(product: Product) | CreateUnauthorized  // 201 / 401

  predicate IsAdmin(session: Option<Session>) {
    session.Some? && session.value.role == Admin
  }

  /** Creates a product; `id` and `now` are the database's fresh id and timestamp. */
  method CreateProduct(db: Database, session: Option<Session>, body: ProductInput, id: Id, now: int)
    returns (r: CreateReply)
    requires db.Valid()
    modifies db`products
    ensures db.Valid()
    ensures !IsAdmin(session) ==> r == CreateUnauthorized && db.products == old(db.products)
    ensures IsAdmin(session) ==>
              && r.ProductCreated?
              && db.products == old(db.products) + [r.product]
              && r.product.featured == (body.featured == Some(true))
              && r.product == Product(id, body.name, body.slug, body.description, body.basePrice, body.categoryId,
                                      body.brand, r.product.featured, now, [])
  {
    if session.None? || session.value.role != Admin {
      return CreateUnauthorized;
    }
    var featured := if body.featured == Some(true) then true else false;
    var product := Product(id, body.name, body.slug, body.description, body.basePrice, body.categoryId,
                           body.brand, featured, now, []);
    db.products := db.products + [product];
    r := ProductCreated(product);
  }
}
