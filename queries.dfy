/**
  The read-side arithmetic of the product controller: the query object
  `filterProducts` builds from its request body, and the pagination of the
  four listing handlers.
*/
module ProductQueries {
  import opened Catalog

  // ---------------------------------------------------------------------
  // The filter builder

  /** The `price` entry of the query object: none, `$gte`, `$lte`, or both. */
  datatype PriceBound = AnyPrice | AtLeast(lo: nat) | AtMost(hi: nat) | Between(lo: nat, hi: nat)

  /** The query object; `category` is absent when no category was checked. */
  datatype FilterArgs = FilterArgs(category: Option<seq<CategoryId>>, price: PriceBound)

  predicate InBound(b: PriceBound, price: nat) {
    match b
    case AnyPrice => true
    case AtLeast(lo) => lo <= price
    case AtMost(hi) => price <= hi
    case Between(lo, hi) => lo <= price <= hi
  }

  /**
    Whether a product satisfies the query. A list given for the scalar
    `category` path is matched as set membership (the document mapper turns
    it into `$in`).
  */
  predicate Matches(args: FilterArgs, p: Product) {
    (args.category.Some? ==> p.category in args.category.value) && InBound(args.price, p.price)
  }

  /**
    `filterProducts` (controllers/productController.js:348-364). A price
    bound that is absent or 0 is falsy and is written here as 0.
  */
  method BuildFilterArgs(checked: seq<CategoryId>, fromPrice: nat, toPrice: nat) returns (args: FilterArgs)
    ensures args.category == if |checked| > 0 then Some(checked) else None
    ensures fromPrice != 0 && toPrice != 0 ==> args.price == Between(fromPrice, toPrice)
    ensures fromPrice != 0 && toPrice == 0 ==> args.price == AtLeast(fromPrice)
    ensures fromPrice == 0 && toPrice != 0 ==> args.price == AtMost(toPrice)
    ensures fromPrice == 0 && toPrice == 0 ==> args.price == AnyPrice
    ensures forall p: Product :: Matches(args, p) <==>
              && (|checked| > 0 ==> p.category in checked)
              && (fromPrice != 0 ==> fromPrice <= p.price)
              && (toPrice != 0 ==> p.price <= toPrice)
  {
    args := FilterArgs(None, AnyPrice);
    if |checked| > 0 {
      args := args.(category := Some(checked));
    }
    if fromPrice != 0 && toPrice == 0 {
      args := args.(price := AtLeast(fromPrice));
    }
    if toPrice != 0 && fromPrice == 0 {
      args := args.(price := AtMost(toPrice));
    }
    if fromPrice != 0 && toPrice != 0 {
      args := args.(price := Between(fromPrice, toPrice));
    }
  }

  /** The products `Product.find(args)` returns from the catalogue (controllers/productController.js:360). */
  function Selected(cat: Catalogue, args: FilterArgs): set<ProductId> {
    set id | id in cat && Matches(args, cat[id])
  }

  /** A request with no category checked and no price bound selects the whole catalogue. */
  lemma EmptyFilterSelectsAll(cat: Catalogue)
    ensures Selected(cat, FilterArgs(None, AnyPrice)) == cat.Keys
  {
  }

  /** Checking categories only removes products: the category condition never selects more. */
  lemma CategoriesSelectFewer(cat: Catalogue, cats: seq<CategoryId>, price: PriceBound)
    ensures Selected(cat, FilterArgs(Some(cats), price)) <= Selected(cat, FilterArgs(None, price))
    ensures forall id :: id in Selected(cat, FilterArgs(Some(cats), price)) ==> cat[id].category in cats
  {
  }

  /** Narrowing the price range never selects more products. */
  lemma NarrowerBoundSelectsFewer(cat: Catalogue, cats: Option<seq<CategoryId>>, lo: nat, hi: nat, lo': nat, hi': nat)
    requires lo <= lo' && hi' <= hi
    ensures Selected(cat, FilterArgs(cats, Between(lo', hi'))) <= Selected(cat, FilterArgs(cats, Between(lo, hi)))
  {
  }

  // ---------------------------------------------------------------------
  // Pagination

  const DefaultPage: int := 1
  const DefaultPageSize: int := 6

  /**
    How a handler reads `page` and `limit`. `fetchProducts`,
    `fetchAllProducts` and `fetchTopProducts` keep any non-empty query text
    (`req.query.page || 1`), so a `0` stays 0; `fetchNewProducts` converts
    first (`Number(req.query.page) || 1`), so a 0 falls back to the default.
  */
  datatype ParamMode = KeepText | ConvertFirst

  /**
    A query parameter: `None` when it is absent or empty, otherwise the
    number its text denotes.
  */
  type QueryParam = Option<int>

  function ParamOr(mode: ParamMode, raw: QueryParam, default: int): (v: int)
    ensures raw.None? ==> v == default
    ensures raw.Some? && raw.value != 0 ==> v == raw.value
    ensures raw == Some(0) ==> v == if mode == KeepText then 0 else default
  {
    match raw
    case None => default
    case Some(x) => if mode == KeepText || x != 0 then x else default
  }

  /** `Math.ceil(count / pageSize)`; `None` stands for the non-finite result of a zero page size. */
  function PagesCount(count: nat, pageSize: int): (r: Option<int>)
    ensures r.None? <==> pageSize == 0
    ensures pageSize > 0 ==> (r.value - 1) * pageSize < count <= r.value * pageSize
    ensures pageSize < 0 ==> r.value * pageSize <= count < (r.value - 1) * pageSize
  {
    if pageSize == 0 then None
    else if pageSize > 0 then
      var q := (count + pageSize - 1) / pageSize;
      assert count + pageSize - 1 == q * pageSize + (count + pageSize - 1) % pageSize;
      assert (q - 1) * pageSize == q * pageSize - pageSize;
      Some(q)
    else
      var m := -pageSize;
      var q := count / m;
      assert count == q * m + count % m;
      assert (-q) * pageSize == q * m;
      assert (-q - 1) * pageSize == q * m + m;
      Some(-q)
  }

  /** `skip(pageSize * (page - 1))`: the number of products before the page. */
  function Skip(page: int, pageSize: int): int {
    pageSize * (page - 1)
  }

  /** What a listing handler replies about its page, and how many products it skips. */
  datatype PageReply = PageReply(page: int, pageSize: int, pagesCount: Option<int>, skip: int)

  /**
    The pagination of `fetchProducts`, `fetchAllProducts`, `fetchTopProducts`
    (mode `KeepText`) and `fetchNewProducts` (mode `ConvertFirst`) for a
    collection of `count` products.
  */
  function Paginate(mode: ParamMode, count: nat, rawPage: QueryParam, rawLimit: QueryParam): (r: PageReply)
    ensures r.page == ParamOr(mode, rawPage, DefaultPage)
    ensures r.pageSize == ParamOr(mode, rawLimit, DefaultPageSize)
    ensures rawPage.None? ==> r.page == DefaultPage
    ensures rawLimit.None? ==> r.pageSize == DefaultPageSize
    ensures r.pagesCount == PagesCount(count, r.pageSize)
    ensures r.skip == Skip(r.page, r.pageSize)
    ensures rawPage.None? && rawLimit.None? ==> r.skip == 0 && r.pagesCount == Some((count + 5) / 6)
  {
    var page := ParamOr(mode, rawPage, DefaultPage);
    var pageSize := ParamOr(mode, rawLimit, DefaultPageSize);
    PageReply(page, pageSize, PagesCount(count, pageSize), Skip(page, pageSize))
  }

  /**
    With a positive page size, every product position lies on exactly one
    page, and that page is among the `pagesCount` pages.
  */
  lemma PageOfIndex(count: nat, pageSize: int, i: nat)
    requires pageSize > 0 && i < count
    ensures var p := i / pageSize + 1;
            && 1 <= p <= PagesCount(count, pageSize).value
            && Skip(p, pageSize) <= i < Skip(p, pageSize) + pageSize
  {
    var p := i / pageSize + 1;
    var pc := PagesCount(count, pageSize).value;
    assert i == (i / pageSize) * pageSize + i % pageSize;
    assert Skip(p, pageSize) == (i / pageSize) * pageSize;
    MulCancel(p - 1, pc, pageSize);
  }

  /** Every page up to `pagesCount` starts before the end of the collection. */
  lemma PagesAreNonEmpty(count: nat, pageSize: int, p: int)
    requires pageSize > 0
    requires 1 <= p <= PagesCount(count, pageSize).value
    ensures 0 <= Skip(p, pageSize) < count
  {
    var pc := PagesCount(count, pageSize).value;
    MulMonotone(p - 1, pc - 1, pageSize);
    MulMonotone(0, p - 1, pageSize);
  }

  /** A page that starts at the position of a product: pages and positions agree both ways. */
  lemma PageHoldsIndexIff(pageSize: int, p: int, i: nat)
    requires pageSize > 0 && p >= 1
    ensures Skip(p, pageSize) <= i < Skip(p, pageSize) + pageSize <==> p == i / pageSize + 1
  {
    var q := i / pageSize;
    assert i == q * pageSize + i % pageSize;
    assert Skip(p, pageSize) + pageSize == p * pageSize;
    assert (q + 1) * pageSize == q * pageSize + pageSize;
    MulCancel(p - 1, q + 1, pageSize);
    MulCancel(q, p, pageSize);
  }

  /** A product with a positive factor keeps the strict order of the other factors. */
  lemma MulCancel(a: int, b: int, k: int)
    requires k > 0
    ensures a * k < b * k ==> a < b
  {
    if b <= a {
      MulMonotone(b, a, k);
    }
  }

  lemma MulMonotone(a: int, b: int, k: int)
    requires a <= b && k >= 0
    ensures a * k <= b * k
  {
    assert b * k - a * k == (b - a) * k;
  }
}
