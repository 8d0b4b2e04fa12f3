/** The shop page: `filterAndPaginate` (filters, sort, flag filters and the
    12-per-page slice), the cleaning of empty parameters and the page state
    its handlers change. */
module Shop {
  import opened Common
  import opened ProductUtils
  import opened ShopOrder

  /** The filter parameters `filterAndPaginate` reads. A parameter the
      caller did not pass is `None`; each is applied only when truthy. */
  datatype FilterParams = FilterParams(
    category: Option<string>,
    brand: Option<string>,
    search: Option<string>,
    minPrice: Option<string>,
    maxPrice: Option<string>,
    sort: Option<string>,
    isNew: Option<string>,
    isBestSeller: Option<string>)

  const NoParams := FilterParams(None, None, None, None, None, None, None, None)

  /** `parseFloat` on a price bound: `None` stands for NaN, which no
      comparison satisfies. */
  type PriceParser = string -> Option<real>

  predicate PassesCategory(params: FilterParams, p: Product) {
    !Truthy(params.category) || p.category == params.category.value
  }

  predicate PassesBrand(params: FilterParams, p: Product) {
    !Truthy(params.brand) || p.brand == params.brand.value
  }

  predicate PassesSearch(params: FilterParams, p: Product) {
    !Truthy(params.search) || ContainsIgnoringCase(p.productName, params.search.value)
  }

  predicate PassesMin(params: FilterParams, parse: PriceParser, p: Product) {
    !Truthy(params.minPrice)
    || (parse(params.minPrice.value).Some? && p.price >= parse(params.minPrice.value).value)
  }

  predicate PassesMax(params: FilterParams, parse: PriceParser, p: Product) {
    !Truthy(params.maxPrice)
    || (parse(params.maxPrice.value).Some? && p.price <= parse(params.maxPrice.value).value)
  }

  predicate PassesFlags(params: FilterParams, p: Product) {
    (!Truthy(params.isNew) || p.isNew) && (!Truthy(params.isBestSeller) || p.isBestSeller)
  }

  /** The filters' tests as the values `filter` receives, each given the
      parameter's value. */
  function CategoryTest(category: string): Product -> bool { (p: Product) => p.category == category }
  function BrandTest(brand: string): Product -> bool { (p: Product) => p.brand == brand }
  function SearchTest(search: string): Product -> bool { (p: Product) => ContainsIgnoringCase(p.productName, search) }
  function MinTest(bound: Option<real>): Product -> bool { (p: Product) => bound.Some? && p.price >= bound.value }
  function MaxTest(bound: Option<real>): Product -> bool { (p: Product) => bound.Some? && p.price <= bound.value }
  const IsNewTest: Product -> bool := (p: Product) => p.isNew
  const IsBestSellerTest: Product -> bool := (p: Product) => p.isBestSeller

  /** `params.get(name) || ""`, and the value a truthy parameter carries. */
  function OrEmpty(x: Option<string>): (r: string)
    ensures Truthy(x) ==> r == x.value
    ensures !Truthy(x) ==> r == ""
  {
    if Truthy(x) then x.value else ""
  }

  /** A product the page lists under these parameters, wherever it sorts. */
  predicate Matches(params: FilterParams, parse: PriceParser, p: Product)
    ensures params == NoParams ==> Matches(params, parse, p)
    ensures Matches(params, parse, p) && Truthy(params.category) ==> p.category == params.category.value
    ensures Matches(params, parse, p) && Truthy(params.isNew) ==> p.isNew
  {
    && PassesCategory(params, p) && PassesBrand(params, p) && PassesSearch(params, p)
    && PassesMin(params, parse, p) && PassesMax(params, parse, p) && PassesFlags(params, p)
  }

  /** The sort the parameters ask for, if any. */
  function RequestedSort(params: FilterParams): (r: Option<SortKey>)
    ensures r.Some? <==>
      Truthy(params.sort) && params.sort.value in {"price_asc", "price_desc", "name_asc", "name_desc", "newest"}
  {
    if Truthy(params.sort) then SortKeyOf(params.sort.value) else None
  }

  /** One step of `filterAndPaginate`: the filter applies only when its
      parameter is truthy. */
  function Narrow(s: seq<Product>, active: bool, f: Product -> bool): (r: seq<Product>)
    ensures !active ==> r == s
    ensures |r| <= |s|
  {
    if active then Filter(s, f) else s
  }

  lemma NarrowMembers(s: seq<Product>, active: bool, f: Product -> bool, p: Product)
    ensures p in Narrow(s, active, f) <==> p in s && (!active || f(p))
  {
    if active { FilterMembership(s, f, p); }
  }

  /** The five filters before the sort, one after the other. */
  function Prefiltered(catalog: seq<Product>, params: FilterParams, parse: PriceParser): seq<Product> {
    var byCategory := Narrow(catalog, Truthy(params.category), CategoryTest(OrEmpty(params.category)));
    var byBrand := Narrow(byCategory, Truthy(params.brand), BrandTest(OrEmpty(params.brand)));
    var bySearch := Narrow(byBrand, Truthy(params.search), SearchTest(OrEmpty(params.search)));
    var byMin := Narrow(bySearch, Truthy(params.minPrice), MinTest(parse(OrEmpty(params.minPrice))));
    Narrow(byMin, Truthy(params.maxPrice), MaxTest(parse(OrEmpty(params.maxPrice))))
  }

  /** The sort step: a recognised option sorts, any other leaves the order. */
  function SortStep(s: seq<Product>, params: FilterParams): (r: seq<Product>)
    ensures multiset(r) == multiset(s)
    ensures |r| == |s|
  {
    if RequestedSort(params).Some? then
      var sorted := SortBy(RequestedSort(params).value, s);
      assert |multiset(sorted)| == |sorted| && |multiset(s)| == |s|;
      sorted
    else s
  }

  /** The flag filters, applied after the sort. */
  function FlagStep(s: seq<Product>, params: FilterParams): (r: seq<Product>)
    ensures |r| <= |s|
  {
    var byNew := Narrow(s, Truthy(params.isNew), IsNewTest);
    Narrow(byNew, Truthy(params.isBestSeller), IsBestSellerTest)
  }

  /** The whole filtered and sorted list, before pagination. */
  function Selected(catalog: seq<Product>, params: FilterParams, parse: PriceParser): (r: seq<Product>)
    ensures |r| <= |catalog|
  {
    FlagStep(SortStep(Prefiltered(catalog, params, parse), params), params)
  }

  lemma PrefilteredMembers(catalog: seq<Product>, params: FilterParams, parse: PriceParser, p: Product)
    ensures p in Prefiltered(catalog, params, parse) <==>
      p in catalog && PassesCategory(params, p) && PassesBrand(params, p) && PassesSearch(params, p)
      && PassesMin(params, parse, p) && PassesMax(params, parse, p)
  {
    var byCategory := Narrow(catalog, Truthy(params.category), CategoryTest(OrEmpty(params.category)));
    var byBrand := Narrow(byCategory, Truthy(params.brand), BrandTest(OrEmpty(params.brand)));
    var bySearch := Narrow(byBrand, Truthy(params.search), SearchTest(OrEmpty(params.search)));
    var byMin := Narrow(bySearch, Truthy(params.minPrice), MinTest(parse(OrEmpty(params.minPrice))));
    NarrowMembers(catalog, Truthy(params.category), CategoryTest(OrEmpty(params.category)), p);
    NarrowMembers(byCategory, Truthy(params.brand), BrandTest(OrEmpty(params.brand)), p);
    NarrowMembers(byBrand, Truthy(params.search), SearchTest(OrEmpty(params.search)), p);
    NarrowMembers(bySearch, Truthy(params.minPrice), MinTest(parse(OrEmpty(params.minPrice))), p);
    NarrowMembers(byMin, Truthy(params.maxPrice), MaxTest(parse(OrEmpty(params.maxPrice))), p);
  }

  /** A product is listed exactly when it is in the catalogue and passes
      every active filter. */
  lemma SelectedMembers(catalog: seq<Product>, params: FilterParams, parse: PriceParser, p: Product)
    ensures p in Selected(catalog, params, parse) <==> p in catalog && Matches(params, parse, p)
  {
    var pre := Prefiltered(catalog, params, parse);
    var sorted := SortStep(pre, params);
    assert p in sorted <==> p in pre by {
      assert multiset(sorted) == multiset(pre);
      assert p in sorted <==> p in multiset(sorted);
      assert p in pre <==> p in multiset(pre);
    }
    PrefilteredMembers(catalog, params, parse, p);
    var byNew := Narrow(sorted, Truthy(params.isNew), IsNewTest);
    NarrowMembers(sorted, Truthy(params.isNew), IsNewTest, p);
    NarrowMembers(byNew, Truthy(params.isBestSeller), IsBestSellerTest, p);
  }

  /** Filtering a sorted list keeps it sorted. */
  lemma {:induction false} FilterKeepsSorted(key: SortKey, s: seq<Product>, f: Product -> bool)
    requires SortedBy(key, s)
    ensures SortedBy(key, Filter(s, f))
    decreases |s|
  {
    if |s| > 0 {
      var tail := s[1..];
      assert SortedBy(key, tail) by {
        forall i, j | 0 <= i < j < |tail| ensures InOrder(key, tail[i], tail[j]) {
          assert tail[i] == s[i + 1] && tail[j] == s[j + 1];
        }
      }
      FilterKeepsSorted(key, tail, f);
      if f(s[0]) {
        var ft := Filter(tail, f);
        var r := [s[0]] + ft;
        forall i, j | 0 <= i < j < |r| ensures InOrder(key, r[i], r[j]) {
          if i == 0 {
            assert r[j] == ft[j - 1] && r[j] in ft;
            var k :| 0 <= k < |tail| && tail[k] == r[j];
            assert s[k + 1] == r[j];
          } else {
            assert r[i] == ft[i - 1] && r[j] == ft[j - 1];
          }
        }
      }
    }
  }

  /** With a recognised sort option the list is in that order, the flag
      filters applied after the sort notwithstanding. */
  lemma SelectedSorted(catalog: seq<Product>, params: FilterParams, parse: PriceParser)
    requires RequestedSort(params).Some?
    ensures SortedBy(RequestedSort(params).value, Selected(catalog, params, parse))
  {
    var key := RequestedSort(params).value;
    var sorted := SortBy(key, Prefiltered(catalog, params, parse));
    SortBySorted(key, Prefiltered(catalog, params, parse));
    var byNew := Narrow(sorted, Truthy(params.isNew), IsNewTest);
    if Truthy(params.isNew) { FilterKeepsSorted(key, sorted, IsNewTest); }
    if Truthy(params.isBestSeller) { FilterKeepsSorted(key, byNew, IsBestSellerTest); }
  }

  /** A narrowing step keeps the list a subsequence of the catalogue. */
  lemma NarrowSubsequence(s: seq<Product>, active: bool, f: Product -> bool, whole: seq<Product>)
    requires IsSubsequence(s, whole)
    ensures IsSubsequence(Narrow(s, active, f), whole)
  {
    if active { FilterSubsequenceTrans(s, f, whole); }
  }

  /** Without a recognised sort option ("rating", "bestselling" or an
      unknown value) the list keeps the catalogue order. */
  lemma SelectedUnsortedKeepsOrder(catalog: seq<Product>, params: FilterParams, parse: PriceParser)
    requires RequestedSort(params).None?
    ensures IsSubsequence(Selected(catalog, params, parse), catalog)
  {
    SubsequenceReflexive(catalog);
    var byCategory := Narrow(catalog, Truthy(params.category), CategoryTest(OrEmpty(params.category)));
    var byBrand := Narrow(byCategory, Truthy(params.brand), BrandTest(OrEmpty(params.brand)));
    var bySearch := Narrow(byBrand, Truthy(params.search), SearchTest(OrEmpty(params.search)));
    var byMin := Narrow(bySearch, Truthy(params.minPrice), MinTest(parse(OrEmpty(params.minPrice))));
    var pre := Prefiltered(catalog, params, parse);
    NarrowSubsequence(catalog, Truthy(params.category), CategoryTest(OrEmpty(params.category)), catalog);
    NarrowSubsequence(byCategory, Truthy(params.brand), BrandTest(OrEmpty(params.brand)), catalog);
    NarrowSubsequence(byBrand, Truthy(params.search), SearchTest(OrEmpty(params.search)), catalog);
    NarrowSubsequence(bySearch, Truthy(params.minPrice), MinTest(parse(OrEmpty(params.minPrice))), catalog);
    NarrowSubsequence(byMin, Truthy(params.maxPrice), MaxTest(parse(OrEmpty(params.maxPrice))), catalog);
    var byNew := Narrow(pre, Truthy(params.isNew), IsNewTest);
    NarrowSubsequence(pre, Truthy(params.isNew), IsNewTest, catalog);
    NarrowSubsequence(byNew, Truthy(params.isBestSeller), IsBestSellerTest, catalog);
  }

  /** Twelve products per page. */
  const PageSize: nat := 12

  /** `Math.ceil(total / 12) || 1` */
  function TotalPages(total: nat): (r: nat)
    ensures r >= 1
    ensures total == 0 ==> r == 1
    ensures total > 0 ==> (r - 1) * PageSize < total <= r * PageSize
  {
    if total == 0 then 1 else (total + PageSize - 1) / PageSize
  }

  /** Page `page` (counted from 1): elements [(page−1)·12, page·12). */
  function Page(s: seq<Product>, page: int): (r: seq<Product>)
    ensures |r| <= PageSize
    ensures page >= 1 ==>
      forall i | 0 <= i < |r| :: (page - 1) * PageSize + i < |s| && r[i] == s[(page - 1) * PageSize + i]
  {
    JsSlice(s, (page - 1) * PageSize, page * PageSize)
  }

  /** Every listed product is on exactly one page in [1, totalPages], at
      the position its index gives. */
  lemma PageHolds(s: seq<Product>, k: nat)
    requires k < |s|
    ensures var page := k / PageSize + 1;
      && 1 <= page <= TotalPages(|s|)
      && k % PageSize < |Page(s, page)|
      && Page(s, page)[k % PageSize] == s[k]
  {
    var page := k / PageSize + 1;
    var from := (page - 1) * PageSize;
    assert from <= k < from + PageSize;
    var to := ClampIndex(|s|, page * PageSize);
    assert to == if page * PageSize <= |s| then page * PageSize else |s|;
    assert Page(s, page) == s[from..to];
  }

  /** A page in range is a full page of 12, except possibly the last. */
  lemma PageSizeInRange(s: seq<Product>, page: int)
    requires |s| > 0 && 1 <= page <= TotalPages(|s|)
    ensures 0 < |Page(s, page)| <= PageSize
    ensures page < TotalPages(|s|) ==> |Page(s, page)| == PageSize
  {
    var from := (page - 1) * PageSize;
    assert from < |s| by {
      assert (TotalPages(|s|) - 1) * PageSize < |s|;
    }
    if page < TotalPages(|s|) {
      assert page * PageSize <= (TotalPages(|s|) - 1) * PageSize;
    }
  }

  /** What `filterAndPaginate` publishes. */
  datatype Listing = Listing(products: seq<Product>, totalPages: nat, currentPage: int)

  /** `filterAndPaginate`: `filtered` is narrowed by each active filter in
      turn, sorted, narrowed by the flags, and then sliced. Inside each
      branch the filter's predicate is the parameter's test, its parameter
      being truthy there. */
  method FilterAndPaginate(catalog: seq<Product>, page: int, params: FilterParams, parse: PriceParser)
    returns (listing: Listing)
    ensures listing.products == Page(Selected(catalog, params, parse), page)
    ensures listing.totalPages == TotalPages(|Selected(catalog, params, parse)|)
    ensures listing.currentPage == page
  {
    var filtered := catalog;
    if Truthy(params.category) {
      filtered := Filter(filtered, CategoryTest(params.category.value));
    }
    ghost var byCategory := Narrow(catalog, Truthy(params.category), CategoryTest(OrEmpty(params.category)));
    assert filtered == byCategory;
    if Truthy(params.brand) {
      filtered := Filter(filtered, BrandTest(params.brand.value));
    }
    ghost var byBrand := Narrow(byCategory, Truthy(params.brand), BrandTest(OrEmpty(params.brand)));
    assert filtered == byBrand;
    if Truthy(params.search) {
      filtered := Filter(filtered, SearchTest(params.search.value));
    }
    ghost var bySearch := Narrow(byBrand, Truthy(params.search), SearchTest(OrEmpty(params.search)));
    assert filtered == bySearch;
    if Truthy(params.minPrice) {
      filtered := Filter(filtered, MinTest(parse(params.minPrice.value)));
    }
    ghost var byMin := Narrow(bySearch, Truthy(params.minPrice), MinTest(parse(OrEmpty(params.minPrice))));
    assert filtered == byMin;
    if Truthy(params.maxPrice) {
      filtered := Filter(filtered, MaxTest(parse(params.maxPrice.value)));
    }
    assert filtered == Prefiltered(catalog, params, parse);
    if Truthy(params.sort) {
      var key := SortKeyOf(params.sort.value);
      if key.Some? {
        filtered := SortBy(key.value, filtered);
      }
    }
    assert filtered == SortStep(Prefiltered(catalog, params, parse), params);
    if Truthy(params.isNew) {
      filtered := Filter(filtered, IsNewTest);
    }
    if Truthy(params.isBestSeller) {
      filtered := Filter(filtered, IsBestSellerTest);
    }
    assert filtered == Selected(catalog, params, parse);
    listing := Listing(JsSlice(filtered, (page - 1) * PageSize, page * PageSize), TotalPages(|filtered|), page);
  }

  /** `Object.entries(...).filter(([_, v]) => v !== "")` on one entry: an
      empty-string value is dropped, any other kept. */
  function DropEmpty(x: Option<string>): (r: Option<string>)
    ensures x == Some("") ==> r.None?
    ensures x != Some("") ==> r == x
  {
    if x == Some("") then None else x
  }

  /** The eight parameter values, in the order of the record. */
  function Values(params: FilterParams): (r: seq<Option<string>>)
    ensures |r| == 8
  {
    [params.category, params.brand, params.search, params.minPrice, params.maxPrice, params.sort,
     params.isNew, params.isBestSeller]
  }

  /** The cleaned parameter object: no value is left empty, and every value
      that was not empty is kept. */
  function Clean(params: FilterParams): (r: FilterParams)
    ensures forall i | 0 <= i < 8 :: Values(r)[i] != Some("")
    ensures forall i | 0 <= i < 8 && Values(params)[i] != Some("") :: Values(r)[i] == Values(params)[i]
  {
    FilterParams(DropEmpty(params.category), DropEmpty(params.brand), DropEmpty(params.search),
                 DropEmpty(params.minPrice), DropEmpty(params.maxPrice), DropEmpty(params.sort),
                 DropEmpty(params.isNew), DropEmpty(params.isBestSeller))
  }

  /** Two parameter values the filters cannot tell apart: equally truthy,
      with the same value as `|| ""` reads it. */
  predicate SameReading(a: Option<string>, b: Option<string>) {
    Truthy(a) == Truthy(b) && OrEmpty(a) == OrEmpty(b)
  }

  /** Parameters that read the same, field by field, select the same list. */
  lemma SelectedBySameReadings(catalog: seq<Product>, a: FilterParams, b: FilterParams, parse: PriceParser)
    requires SameReading(a.category, b.category) && SameReading(a.brand, b.brand)
    requires SameReading(a.search, b.search) && SameReading(a.minPrice, b.minPrice)
    requires SameReading(a.maxPrice, b.maxPrice) && SameReading(a.sort, b.sort)
    requires Truthy(a.isNew) == Truthy(b.isNew) && Truthy(a.isBestSeller) == Truthy(b.isBestSeller)
    ensures Selected(catalog, a, parse) == Selected(catalog, b, parse)
  {
    assert Prefiltered(catalog, a, parse) == Prefiltered(catalog, b, parse);
    assert RequestedSort(a) == RequestedSort(b);
  }

  /** Cleaning changes nothing the filters see, since an empty string is
      not truthy; and cleaning twice is cleaning once. */
  lemma CleanKeepsSelection(catalog: seq<Product>, params: FilterParams, parse: PriceParser)
    ensures Selected(catalog, Clean(params), parse) == Selected(catalog, params, parse)
    ensures Clean(Clean(params)) == Clean(params)
  {
    var c := Clean(params);
    assert c.category == DropEmpty(params.category) && c.brand == DropEmpty(params.brand);
    assert c.search == DropEmpty(params.search) && c.minPrice == DropEmpty(params.minPrice);
    assert c.maxPrice == DropEmpty(params.maxPrice) && c.sort == DropEmpty(params.sort);
    assert c.isNew == DropEmpty(params.isNew) && c.isBestSeller == DropEmpty(params.isBestSeller);
    SelectedBySameReadings(catalog, c, params, parse);
  }

  /** The query string the page reads; `page` is already `parseInt`ed. */
  datatype UrlQuery = UrlQuery(
    category: Option<string>,
    brand: Option<string>,
    search: Option<string>,
    minPrice: Option<string>,
    maxPrice: Option<string>,
    sort: Option<string>,
    page: Option<int>,
    isNew: Option<string>,
    isBestSeller: Option<string>)

  /** The parameters the URL effect passes on, before cleaning: the six
      fields always, each flag only when the query has it. */
  function UrlParams(q: UrlQuery): (r: FilterParams)
    ensures forall i | 0 <= i < 6 :: Values(r)[i].Some?
    ensures Clean(r).category == (if Truthy(q.category) then q.category else None)
    ensures Clean(r).search == (if Truthy(q.search) then q.search else None)
    ensures r.isNew == q.isNew && r.isBestSeller == q.isBestSeller
  {
    FilterParams(Some(OrEmpty(q.category)), Some(OrEmpty(q.brand)), Some(OrEmpty(q.search)),
                 Some(OrEmpty(q.minPrice)), Some(OrEmpty(q.maxPrice)), Some(OrEmpty(q.sort)),
                 q.isNew, q.isBestSeller)
  }

  /** The page the URL asks for, 1 when it names none. */
  function UrlPage(q: UrlQuery): (r: int)
    ensures q.page.None? ==> r == 1
    ensures q.page.Some? ==> r == q.page.value
  {
    q.page.GetOr(1)
  }

  /** The filter values held in the page state, with the flags of the
      listing currently shown. */
  datatype ShopFilters = ShopFilters(
    category: string, brand: string, search: string, minPrice: string, maxPrice: string, sort: string,
    isNew: Option<string>, isBestSeller: Option<string>)

  /** The parameters `handlePageChange` passes, as written: the six filter
      values, and no flags. */
  function PageChangeParamsAsWritten(f: ShopFilters): (r: FilterParams)
    ensures r.isNew.None? && r.isBestSeller.None?
  {
    FilterParams(Some(f.category), Some(f.brand), Some(f.search), Some(f.minPrice), Some(f.maxPrice),
                 Some(f.sort), None, None)
  }

  /** The parameters a page change passes when it keeps the flags of the
      listing shown. */
  function PageChangeParams(f: ShopFilters): (r: FilterParams)
    ensures r.isNew == f.isNew && r.isBestSeller == f.isBestSeller
    ensures r.(isNew := None, isBestSeller := None) == PageChangeParamsAsWritten(f)
  {
    FilterParams(Some(f.category), Some(f.brand), Some(f.search), Some(f.minPrice), Some(f.maxPrice),
                 Some(f.sort), f.isNew, f.isBestSeller)
  }

  /** The filter state the URL effect leaves behind. */
  function FiltersOfUrl(q: UrlQuery): (r: ShopFilters)
    ensures r.isNew == q.isNew && r.isBestSeller == q.isBestSeller
    ensures PageChangeParams(r) == UrlParams(q)
  {
    ShopFilters(OrEmpty(q.category), OrEmpty(q.brand), OrEmpty(q.search), OrEmpty(q.minPrice),
                OrEmpty(q.maxPrice), OrEmpty(q.sort), q.isNew, q.isBestSeller)
  }

  /** After the URL effect, a page change pages through the very list whose
      page count is shown. */
  lemma PageChangeFollowsUrlListing(q: UrlQuery, catalog: seq<Product>, parse: PriceParser)
    ensures Selected(catalog, PageChangeParams(FiltersOfUrl(q)), parse)
         == Selected(catalog, Clean(UrlParams(q)), parse)
  {
    assert PageChangeParams(FiltersOfUrl(q)) == UrlParams(q);
    CleanKeepsSelection(catalog, UrlParams(q), parse);
  }

  lemma {:induction false} FilterAppend(s: seq<Product>, x: Product, f: Product -> bool)
    ensures Filter(s + [x], f) == Filter(s, f) + (if f(x) then [x] else [])
    decreases |s|
  {
    if |s| == 0 {
      assert s + [x] == [x];
    } else {
      assert (s + [x])[1..] == s[1..] + [x];
      FilterAppend(s[1..], x, f);
    }
  }

  /** With none of the six filter fields set, only the flags narrow the
      catalogue. */
  lemma OnlyFlagsSet(catalog: seq<Product>, params: FilterParams, parse: PriceParser)
    requires !Truthy(params.category) && !Truthy(params.brand) && !Truthy(params.search)
    requires !Truthy(params.minPrice) && !Truthy(params.maxPrice) && !Truthy(params.sort)
    ensures Selected(catalog, params, parse) == FlagStep(catalog, params)
  {
    assert Prefiltered(catalog, params, parse) == catalog;
  }

  /** Thirteen new products followed by one that is not new, and the
      query `?isNew=true`. */
  const ExampleNews := seq(13, i => Product(i, "", "", "", 0.0, true, false, None, None))
  const ExamplePlain := Product(13, "", "", "", 0.0, false, false, None, None)
  const ExampleCatalog := ExampleNews + [ExamplePlain]
  const ExampleQuery := UrlQuery(None, None, None, None, None, None, None, Some("true"), None)

  /** The listing the example URL selects is the new products; the page
      buttons as written select the whole catalogue. */
  lemma ExampleSelections(parse: PriceParser)
    ensures Selected(ExampleCatalog, Clean(UrlParams(ExampleQuery)), parse) == ExampleNews
    ensures Selected(ExampleCatalog, PageChangeParams(FiltersOfUrl(ExampleQuery)), parse) == ExampleNews
    ensures Selected(ExampleCatalog, PageChangeParamsAsWritten(FiltersOfUrl(ExampleQuery)), parse) == ExampleCatalog
  {
    NewFlagSelections(ExampleNews, ExamplePlain, parse);
  }

  /** Under the query `?isNew=true`, new products followed by one that is not
      new: the URL listing and the corrected page change keep the new ones,
      the page change as written keeps them all. */
  lemma NewFlagSelections(news: seq<Product>, plain: Product, parse: PriceParser)
    requires forall i | 0 <= i < |news| :: news[i].isNew
    requires !plain.isNew
    ensures Selected(news + [plain], Clean(UrlParams(ExampleQuery)), parse) == news
    ensures Selected(news + [plain], PageChangeParams(FiltersOfUrl(ExampleQuery)), parse) == news
    ensures Selected(news + [plain], PageChangeParamsAsWritten(FiltersOfUrl(ExampleQuery)), parse) == news + [plain]
  {
    var catalog := news + [plain];
    var params := UrlParams(ExampleQuery);
    var asWritten := PageChangeParamsAsWritten(FiltersOfUrl(ExampleQuery));
    CleanKeepsSelection(catalog, params, parse);
    OnlyFlagsSet(catalog, params, parse);
    OnlyFlagsSet(catalog, asWritten, parse);
    FilterAppend(news, plain, IsNewTest);
    FilterAllPass(news, IsNewTest);
    assert PageChangeParams(FiltersOfUrl(ExampleQuery)) == params;
  }

  /** On the example, the page shows 2 pages of new products, but page 2
      reached by the page buttons holds the product that is not new, while
      the listing the count came from has only new products there. */
  lemma PageChangeAsWrittenExample(parse: PriceParser)
    ensures TotalPages(|Selected(ExampleCatalog, Clean(UrlParams(ExampleQuery)), parse)|) == 2
    ensures exists p :: p in Page(Selected(ExampleCatalog, PageChangeParamsAsWritten(FiltersOfUrl(ExampleQuery)), parse), 2) && !p.isNew
    ensures forall p :: p in Page(Selected(ExampleCatalog, PageChangeParams(FiltersOfUrl(ExampleQuery)), parse), 2) ==> p.isNew
  {
    ExampleSelections(parse);
    SecondPage(ExampleCatalog);
    SecondPage(ExampleNews);
    assert ExampleCatalog[12..][1] == ExamplePlain;
  }

  /** The second page of a list of 13 to 24 products is its tail from the
      thirteenth. */
  lemma SecondPage(s: seq<Product>)
    requires PageSize < |s| <= 2 * PageSize
    ensures Page(s, 2) == s[PageSize..]
  {
  }

  /** Every product on a page of a list, whatever the page number, is in
      the list. */
  lemma PageWithin(s: seq<Product>, page: int, p: Product)
    requires p in Page(s, page)
    ensures p in s
  {
    var from := ClampIndex(|s|, (page - 1) * PageSize);
    var to := ClampIndex(|s|, page * PageSize);
    assert Page(s, page) == if to <= from then [] else s[from..to];
  }

  /** A truthy search term lists, on every page, only products whose name
      contains the term, ignoring case. */
  lemma SearchListsOnlyMatches(catalog: seq<Product>, params: FilterParams, parse: PriceParser, page: int)
    requires Truthy(params.search)
    ensures forall p | p in Page(Selected(catalog, params, parse), page) ::
      ContainsIgnoringCase(p.productName, params.search.value)
  {
    forall p | p in Page(Selected(catalog, params, parse), page)
      ensures ContainsIgnoringCase(p.productName, params.search.value)
    {
      PageWithin(Selected(catalog, params, parse), page, p);
      SelectedMembers(catalog, params, parse, p);
    }
  }

  /** The search box as written passes no parameters: the first product of
      the catalogue is listed whatever term the box holds, even when its
      name does not contain the term and a search for the term does not
      list it. */
  lemma SearchBoxListsNonMatch(catalog: seq<Product>, term: string, parse: PriceParser)
    requires |catalog| > 0 && term != "" && !ContainsIgnoringCase(catalog[0].productName, term)
    ensures catalog[0] in Page(Selected(catalog, NoParams, parse), 1)
    ensures catalog[0] !in Page(Selected(catalog, NoParams.(search := Some(term)), parse), 1)
  {
    OnlyFlagsSet(catalog, NoParams, parse);
    PageHolds(catalog, 0);
    SearchListsOnlyMatches(catalog, NoParams.(search := Some(term)), parse, 1);
  }

  /** The fields of the page the handlers change. */
  datatype FilterField = CategoryField | BrandField | SearchField | MinPriceField | MaxPriceField | SortField

  /** The shop page's state. `isNew` and `isBestSeller` record the flags of
      the listing shown, so that a page change can pass them on. */
  class ShopView {
    var selectedCategory: string
    var selectedBrand: string
    var searchTerm: string
    var minPrice: string
    var maxPrice: string
    var sortOption: string
    var isNew: Option<string>
    var isBestSeller: Option<string>
    var products: seq<Product>
    var totalPages: nat
    var currentPage: int

    function Filters(): ShopFilters
      reads this
    {
      ShopFilters(selectedCategory, selectedBrand, searchTerm, minPrice, maxPrice, sortOption, isNew, isBestSeller)
    }

    /** The parameters of the filter form, without flags. */
    function FormParams(): (r: FilterParams)
      reads this
      ensures r == PageChangeParamsAsWritten(Filters())
    {
      FilterParams(Some(selectedCategory), Some(selectedBrand), Some(searchTerm), Some(minPrice),
                   Some(maxPrice), Some(sortOption), None, None)
    }

    constructor ()
      ensures Filters() == ShopFilters("", "", "", "", "", "", None, None)
      ensures products == [] && totalPages == 1 && currentPage == 1
    {
      selectedCategory, selectedBrand, searchTerm := "", "", "";
      minPrice, maxPrice, sortOption := "", "", "";
      isNew, isBestSeller := None, None;
      products, totalPages, currentPage := [], 1, 1;
    }

    /** The filter fields, each set from the query (or ""), and the flags. */
    method SetFilters(f: ShopFilters)
      modifies this
      ensures Filters() == f
      ensures products == old(products) && totalPages == old(totalPages) && currentPage == old(currentPage)
    {
      selectedCategory, selectedBrand, searchTerm := f.category, f.brand, f.search;
      minPrice, maxPrice, sortOption := f.minPrice, f.maxPrice, f.sort;
      isNew, isBestSeller := f.isNew, f.isBestSeller;
    }

    /** Publishes a listing. */
    method Show(listing: Listing)
      modifies this
      ensures products == listing.products && totalPages == listing.totalPages
      ensures currentPage == listing.currentPage
      ensures Filters() == old(Filters())
    {
      products, totalPages, currentPage := listing.products, listing.totalPages, listing.currentPage;
    }

    /** The effect on a new query string: the filter fields take the query's
        values (or ""), and the listing is built from the cleaned
        parameters. */
    method SyncWithUrl(q: UrlQuery, catalog: seq<Product>, parse: PriceParser)
      modifies this
      ensures Filters() == FiltersOfUrl(q)
      ensures products == Page(Selected(catalog, UrlParams(q), parse), UrlPage(q))
      ensures totalPages == TotalPages(|Selected(catalog, UrlParams(q), parse)|)
      ensures currentPage == UrlPage(q)
    {
      var page := if q.page.Some? then q.page.value else 1;
      var listing := FilterAndPaginate(catalog, page, Clean(UrlParams(q)), parse);
      CleanKeepsSelection(catalog, UrlParams(q), parse);
      SetFilters(FiltersOfUrl(q));
      Show(listing);
    }

    /** A form control's `onChange`: one field takes the new value. */
    method EditFilter(field: FilterField, value: string)
      modifies this
      ensures Filters() == match field
        case CategoryField => old(Filters()).(category := value)
        case BrandField => old(Filters()).(brand := value)
        case SearchField => old(Filters()).(search := value)
        case MinPriceField => old(Filters()).(minPrice := value)
        case MaxPriceField => old(Filters()).(maxPrice := value)
        case SortField => old(Filters()).(sort := value)
      ensures products == old(products) && totalPages == old(totalPages) && currentPage == old(currentPage)
    {
      match field
      case CategoryField => selectedCategory := value;
      case BrandField => selectedBrand := value;
      case SearchField => searchTerm := value;
      case MinPriceField => minPrice := value;
      case MaxPriceField => maxPrice := value;
      case SortField => sortOption := value;
    }

    /** `handleFilter` (the form's Apply button), and the debounced search
        once it fires: the form's values, cleaned, from page 1. The listing
        shown then carries no flags. */
    method ApplyFilters(catalog: seq<Product>, parse: PriceParser)
      modifies this
      ensures Filters() == old(Filters()).(isNew := None, isBestSeller := None)
      ensures products == Page(Selected(catalog, old(FormParams()), parse), 1)
      ensures totalPages == TotalPages(|Selected(catalog, old(FormParams()), parse)|)
      ensures currentPage == 1
    {
      var params := FormParams();
      CleanKeepsSelection(catalog, params, parse);
      var listing := FilterAndPaginate(catalog, 1, Clean(params), parse);
      isNew, isBestSeller := None, None;
      Show(listing);
    }

    /** The search box's Enter key and its search icon, as written: the
        listing with no parameters at all, so the whole catalogue from page
        1, while the form keeps the term, the other fields and the sort it
        shows. The listing shown carries no flags. */
    method SearchBoxSubmit(catalog: seq<Product>, parse: PriceParser)
      modifies this
      ensures Filters() == old(Filters()).(isNew := None, isBestSeller := None)
      ensures products == Page(catalog, 1)
      ensures totalPages == TotalPages(|catalog|) && currentPage == 1
    {
      var listing := FilterAndPaginate(catalog, 1, NoParams, parse);
      assert Selected(catalog, NoParams, parse) == catalog;
      isNew, isBestSeller := None, None;
      Show(listing);
    }

    /** The search box as evidently intended: the form's values, search term
        included, applied as the Apply button applies them, so that every
        product listed contains a non-empty term. */
    method SearchBoxSearch(catalog: seq<Product>, parse: PriceParser)
      modifies this
      ensures Filters() == old(Filters()).(isNew := None, isBestSeller := None)
      ensures products == Page(Selected(catalog, old(FormParams()), parse), 1)
      ensures totalPages == TotalPages(|Selected(catalog, old(FormParams()), parse)|)
      ensures currentPage == 1
      ensures old(searchTerm) != "" ==>
        forall p | p in products :: ContainsIgnoringCase(p.productName, old(searchTerm))
    {
      var params := FormParams();
      if searchTerm != "" {
        SearchListsOnlyMatches(catalog, params, parse, 1);
      }
      ApplyFilters(catalog, parse);
    }

    /** `handleClearFilters`: every field emptied, the whole catalogue from
        page 1. */
    method ClearFilters(catalog: seq<Product>, parse: PriceParser)
      modifies this
      ensures Filters() == ShopFilters("", "", "", "", "", "", None, None)
      ensures products == Page(catalog, 1)
      ensures totalPages == TotalPages(|catalog|) && currentPage == 1
    {
      selectedCategory, selectedBrand, searchTerm := "", "", "";
      minPrice, maxPrice, sortOption := "", "", "";
      isNew, isBestSeller := None, None;
      var listing := FilterAndPaginate(catalog, 1, NoParams, parse);
      assert Selected(catalog, NoParams, parse) == catalog;
      Show(listing);
    }

    /** `handlePageChange`: a page outside [1, totalPages] is ignored;
        otherwise the same filters, and the flags of the listing shown, are
        applied again and that page is shown. */
    method HandlePageChange(page: int, catalog: seq<Product>, parse: PriceParser)
      modifies this
      ensures Filters() == old(Filters())
      ensures page < 1 || page > old(totalPages) ==>
        products == old(products) && totalPages == old(totalPages) && currentPage == old(currentPage)
      ensures 1 <= page <= old(totalPages) ==>
        && products == Page(Selected(catalog, PageChangeParams(Filters()), parse), page)
        && totalPages == TotalPages(|Selected(catalog, PageChangeParams(Filters()), parse)|)
        && currentPage == page
    {
      if page < 1 || page > totalPages {
        return;
      }
      currentPage := page;
      var listing := FilterAndPaginate(catalog, page, PageChangeParams(Filters()), parse);
      Show(listing);
    }
  }
}
