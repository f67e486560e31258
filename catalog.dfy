/**
 * The product catalog routes of the backend: `GET /products` (pagination over
 * the in-memory product list) and `GET /products/:id` (lookup by id).
 * `parseInt` results are inputs: `None` stands for `NaN`.
 */
module Catalog {
  import opened Common

  /** A catalog entry as loaded from `products.json`. */
  datatype Product = Product(id: int, name: string, description: string, price: real)

  const DefaultPage := 1
  const DefaultLimit := 10

  /** The `pagination` object of a listing. */
  datatype Pagination = Pagination(page: int, limit: int, total: nat, pages: int)

  /** The body of a `GET /products` response. */
  datatype Listing = Listing(products: seq<Product>, pagination: Pagination)

  /** The response of `GET /products/:id`. */
  datatype ProductReply = ProductOk(product: Product) | ProductError(status: int, error: string)

  /**
   * `parseInt(param) || default`: `NaN` and `0` are falsy and fall back to
   * the default, every other parsed number is kept.
   */
  function ParamOr(parsed: Option<int>, default: int): (r: int)
    requires default != 0
    ensures r != 0
    ensures parsed.Some? && parsed.value != 0 ==> r == parsed.value
    ensures parsed.None? || parsed.value == 0 ==> r == default
  {
    if parsed.Some? && parsed.value != 0 then parsed.value else default
  }

  /**
   * How `Array.prototype.slice` resolves one relative index: negative values
   * count from the end, and the result is clamped to `[0, len]`.
   */
  function SliceIndex(rel: int, len: nat): (r: nat)
    ensures r <= len
    ensures 0 <= rel ==> r == Min(rel, len)
  {
    if rel < 0 then (if len + rel < 0 then 0 else len + rel)
    else if rel > len then len
    else rel
  }

  /** `s.slice(start, end)` of JavaScript, negative indices included. */
  function JsSlice<T>(s: seq<T>, start: int, end: int): (r: seq<T>)
    ensures |r| <= |s|
    ensures 0 <= start <= end ==> r == s[Min(start, |s|)..Min(end, |s|)]
    ensures 0 <= end <= start ==> r == []
  {
    var from, to := SliceIndex(start, |s|), SliceIndex(end, |s|);
    if from < to then s[from..to] else []
  }

  /** `Math.ceil(n / d)` for a natural `n` and a non-zero integer `d`. */
  function CeilDiv(n: nat, d: int): (r: int)
    requires d != 0
    ensures d > 0 ==> r >= 0 && (r - 1) * d < n <= r * d
    ensures d < 0 ==> r * d <= n < (r - 1) * d
  {
    if d > 0 then
      var q := (n + d - 1) / d;
      assert q * d <= n + d - 1 < q * d + d;
      q
    else
      var q := n / (-d);
      assert q * (-d) <= n < q * (-d) + (-d);
      -q
  }

  /** The `GET /products` handler (backend/server.js:125-147). */
  function ListProducts(catalog: seq<Product>, pageParam: Option<int>, limitParam: Option<int>): (r: Listing)
    ensures r.pagination.page == ParamOr(pageParam, DefaultPage)
    ensures r.pagination.limit == ParamOr(limitParam, DefaultLimit)
    ensures r.pagination.total == |catalog|
    ensures r.pagination.limit > 0 ==>
      (r.pagination.pages - 1) * r.pagination.limit < |catalog| <= r.pagination.pages * r.pagination.limit
    ensures r.pagination.limit < 0 ==> r.pagination.pages <= 0
  {
    var page := ParamOr(pageParam, DefaultPage);
    var limit := ParamOr(limitParam, DefaultLimit);
    var startIndex := (page - 1) * limit;
    var endIndex := page * limit;
    Listing(
      JsSlice(catalog, startIndex, endIndex),
      Pagination(page, limit, |catalog|, CeilDiv(|catalog|, limit)))
  }

  /**
   * With a page and a limit of at least 1, the listed products are the
   * catalog slice from `(page - 1) * limit` to `page * limit`, both clamped
   * to the catalog's length.
   */
  lemma ListingIsSlice(catalog: seq<Product>, pageParam: Option<int>, limitParam: Option<int>)
    ensures var r := ListProducts(catalog, pageParam, limitParam);
      var p, l := r.pagination.page, r.pagination.limit;
      p >= 1 && l >= 1 ==>
        && 0 <= (p - 1) * l <= p * l
        && r.products == catalog[Min((p - 1) * l, |catalog|)..Min(p * l, |catalog|)]
  {
    var p, l := ParamOr(pageParam, DefaultPage), ParamOr(limitParam, DefaultLimit);
    if p >= 1 && l >= 1 {
      PageBounds(p, l);
      var start, end := (p - 1) * l, p * l;
      assert ListProducts(catalog, pageParam, limitParam).products == JsSlice(catalog, start, end);
    }
  }

  /** For a page and a limit of at least 1, the slice bounds are ordered and non-negative. */
  lemma PageBounds(page: int, limit: int)
    ensures page >= 1 && limit >= 1 ==> 0 <= (page - 1) * limit <= page * limit
  {
    if page >= 1 && limit >= 1 {
      MulMonotone(page - 1, page, limit);
      MulMonotone(0, page - 1, limit);
    }
  }

  lemma MulMonotone(a: int, b: int, l: int)
    requires a <= b && 0 <= l
    ensures a * l <= b * l
  {
    assert b * l - a * l == (b - a) * l;
  }

  /** Page `k` of size `limit` is the slice `[a, b)` of the catalog, with `a` where page `k - 1` ends. */
  lemma PageSlice(catalog: seq<Product>, k: nat, limit: int) returns (a: nat, b: nat)
    requires k >= 1 && limit >= 1
    ensures a == Min((k - 1) * limit, |catalog|) && b == Min(k * limit, |catalog|)
    ensures a <= b <= |catalog|
    ensures ListProducts(catalog, Some(k), Some(limit)).products == catalog[a..b]
  {
    PageBounds(k, limit);
    ListingIsSlice(catalog, Some(k), Some(limit));
    a, b := Min((k - 1) * limit, |catalog|), Min(k * limit, |catalog|);
  }

  lemma SplitPrefix<T>(s: seq<T>, a: nat, b: nat)
    requires a <= b <= |s|
    ensures s[..a] + s[a..b] == s[..b]
  {
  }

  /** The products of pages `1..k` of size `limit`, concatenated in page order. */
  function PagesUpTo(catalog: seq<Product>, limit: int, k: nat): seq<Product>
    requires limit >= 1
  {
    if k == 0 then []
    else PagesUpTo(catalog, limit, k - 1) + ListProducts(catalog, Some(k), Some(limit)).products
  }

  lemma {:induction false} PagesUpToIsPrefix(catalog: seq<Product>, limit: int, k: nat)
    requires limit >= 1
    ensures PagesUpTo(catalog, limit, k) == catalog[..Min(k * limit, |catalog|)]
  {
    if k > 0 {
      PagesUpToIsPrefix(catalog, limit, k - 1);
      var a, b := PageSlice(catalog, k, limit);
      SplitPrefix(catalog, a, b);
    }
  }

  /**
   * Walking the pages `1..pages` that a listing announces yields every
   * product exactly once, in catalog order, and every later page is empty.
   */
  lemma EveryProductListedOnce(catalog: seq<Product>, limit: int, page: int)
    requires limit >= 1
    ensures var pages := ListProducts(catalog, None, Some(limit)).pagination.pages;
      pages >= 0 && PagesUpTo(catalog, limit, pages) == catalog
    ensures page > ListProducts(catalog, None, Some(limit)).pagination.pages ==>
      ListProducts(catalog, Some(page), Some(limit)).products == []
  {
    var listing := ListProducts(catalog, None, Some(limit));
    var pages := listing.pagination.pages;
    assert listing.pagination.limit == limit;
    assert pages >= 0 && |catalog| <= pages * limit;
    PagesUpToIsPrefix(catalog, limit, pages);
    if page > pages {
      var a, b := PageSlice(catalog, page, limit);
      MulMonotone(pages, page - 1, limit);
      assert a == |catalog|;
    }
  }

  /**
   * `PRODUCTS.find(p => p.id === id)`: the first product with that id, or
   * `None` when there is none.
   */
  function FindById(catalog: seq<Product>, id: int): (r: Option<Product>)
    ensures r.None? <==> forall k :: 0 <= k < |catalog| ==> catalog[k].id != id
    ensures r.Some? ==> exists k :: 0 <= k < |catalog| && catalog[k] == r.value && IsFirstWithId(catalog, id, k)
  {
    if catalog == [] then None
    else if catalog[0].id == id then
      assert IsFirstWithId(catalog, id, 0);
      Some(catalog[0])
    else
      var r := FindById(catalog[1..], id);
      if r.Some? then
        var k :| 0 <= k < |catalog| - 1 && catalog[1..][k] == r.value && IsFirstWithId(catalog[1..], id, k);
        assert IsFirstWithId(catalog, id, k + 1);
        r
      else r
  }

  /** Position `k` holds the first product whose id is `id`. */
  predicate IsFirstWithId(catalog: seq<Product>, id: int, k: int)
  {
    0 <= k < |catalog| && catalog[k].id == id && forall j :: 0 <= j < k ==> catalog[j].id != id
  }

  /** The `GET /products/:id` handler (backend/server.js:149-167). */
  function GetProduct(catalog: seq<Product>, idParam: Option<int>): (r: ProductReply)
    ensures (idParam.None? || idParam.value <= 0) <==> r == ProductError(400, "Invalid product ID")
    ensures r == ProductError(404, "Product not found") <==>
      idParam.Some? && idParam.value > 0 && forall k :: 0 <= k < |catalog| ==> catalog[k].id != idParam.value
    ensures r.ProductOk? ==>
      exists k :: 0 <= k < |catalog| && catalog[k] == r.product && IsFirstWithId(catalog, idParam.value, k)
    ensures idParam.Some? && idParam.value > 0 && FindById(catalog, idParam.value).Some? ==>
      r == ProductOk(FindById(catalog, idParam.value).value)
  {
    if idParam.None? || idParam.value <= 0 then ProductError(400, "Invalid product ID")
    else
      match FindById(catalog, idParam.value)
      case None => ProductError(404, "Product not found")
      case Some(p) => ProductOk(p)
  }
}
