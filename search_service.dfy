/**
 * The storefront search service: it normalises the query arguments
 * (category as an array, page and page size clamped, include and sort
 * defaulted), hands the same filters to the page and the facet queries,
 * and clamps the suggestion limit.
 */
module SearchService {
  import opened Wrappers
  import opened Query
  import SearchRepo
  import ProductRepo

  /** The arguments of `searchProducts`, each possibly absent. */
  datatype SearchParams = SearchParams(
    q: Option<string>, category: Option<OneOrMany>,
    minPrice: Option<int>, maxPrice: Option<int>,
    inStock: Option<bool>, hasImages: Option<bool>,
    includes: Option<string>, imagesLimit: Option<int>,
    page: Option<int>, pageSize: Option<int>, sort: Option<string>)

  /**
   * `Array.isArray(category) ? category : category ? [category] : undefined`:
   * an array is kept as it is, even empty; a non-empty string becomes a
   * one-element array; an absent or empty string becomes absent.
   */
  function Categories(category: Option<OneOrMany>): (r: Option<seq<string>>)
    ensures category.Some? && category.value.Many? ==> r == Some(category.value.list)
    ensures category.Some? && category.value.One? && category.value.s != "" ==> r == Some([category.value.s])
    ensures (category.None? || (category.value.One? && category.value.s == "")) <==> r.None?
  {
    match category
    case None => None
    case Some(Many(list)) => Some(list)
    case Some(One(s)) => if s != "" then Some([s]) else None
  }

  /** The page number: `Math.max(1, page ?? 1)`. */
  function PageNumber(page: Option<int>): (r: int)
    ensures r >= 1
    ensures page.None? ==> r == 1
    ensures page.Some? && page.value >= 1 ==> r == page.value
  {
    var p := page.GetOr(1);
    if p < 1 then 1 else p
  }

  /** The page size: `Math.min(100, Math.max(1, pageSize ?? 20))`. */
  function PageSize(pageSize: Option<int>): (r: int)
    ensures 1 <= r <= 100
    ensures pageSize.None? ==> r == 20
    ensures pageSize.Some? && 1 <= pageSize.value <= 100 ==> r == pageSize.value
  {
    Clamp(1, 100, pageSize.GetOr(20))
  }

  /** The filters both queries receive: the caller's, with the category normalised. */
  function FilterRequest(params: SearchParams): SearchRepo.FilterArgs {
    SearchRepo.FilterArgs(params.q, Categories(params.category), params.minPrice, params.maxPrice,
                          params.inStock, params.hasImages)
  }

  /** The arguments `searchProducts` passes to the page query. */
  function PageRequest(params: SearchParams): (r: SearchRepo.PageArgs)
    ensures r.filters == FilterRequest(params)
    ensures r.page == PageNumber(params.page) && r.pageSize == PageSize(params.pageSize)
    ensures r.includes == Some(params.includes.GetOr("primary"))
    ensures r.sort == params.sort.GetOr("-created_at")
    ensures r.imagesLimit == params.imagesLimit
  {
    SearchRepo.PageArgs(FilterRequest(params), Some(params.includes.GetOr("primary")), params.imagesLimit,
                        PageNumber(params.page), PageSize(params.pageSize), params.sort.GetOr("-created_at"))
  }

  /** The response echoes the clamped page and page size, not the ones asked for. */
  datatype SearchResponse<Item, Facets> = SearchResponse(items: seq<Item>, page: int, pageSize: int, total: int, facets: Facets)

  /** `searchProducts`: the page's rows and total, the clamped paging, and the facets. */
  function Respond<Item, Facets>(params: SearchParams, items: seq<Item>, total: int, facets: Facets)
    : (r: SearchResponse<Item, Facets>)
    ensures r.page >= 1 && 1 <= r.pageSize <= 100
    ensures r.page == PageRequest(params).page && r.pageSize == PageRequest(params).pageSize
    ensures r.items == items && r.total == total && r.facets == facets
  {
    SearchResponse(items, PageNumber(params.page), PageSize(params.pageSize), total, facets)
  }

  /**
   * The echoed page and page size are fixed points of the clamps: sending
   * them back asks for the very same page.
   */
  lemma EchoedPagingStable<Item, Facets>(params: SearchParams, items: seq<Item>, total: int, facets: Facets)
    ensures var r := Respond(params, items, total, facets);
      PageRequest(params.(page := Some(r.page), pageSize := Some(r.pageSize))) == PageRequest(params)
  {
  }

  /**
   * A scalar category filters on that one category; an array filters on
   * its members when it has any, and an empty array or empty string
   * filters on no category at all.
   */
  lemma CategoryFilter(params: SearchParams)
    ensures var w := SearchRepo.Wanted(FilterRequest(params));
      && (params.category.Some? && params.category.value.One? && params.category.value.s != "" ==>
            SearchRepo.CategoryAny in w && w[SearchRepo.CategoryAny] == VTextList([params.category.value.s]))
      && (params.category.Some? && params.category.value.Many? && params.category.value.list != [] ==>
            SearchRepo.CategoryAny in w && w[SearchRepo.CategoryAny] == VTextList(params.category.value.list))
      && (SearchRepo.CategoryAny !in w <==>
            params.category.None? || params.category.value == One("") || params.category.value == Many([]))
  {
    SearchRepo.WantedFilters(FilterRequest(params));
    SearchRepo.WantedValues(FilterRequest(params));
  }

  /**
   * Without `include` the page selects the primary image, and without
   * `sort` it lists the newest first.
   */
  lemma Defaults(params: SearchParams)
    requires params.includes.None? && params.sort.None?
    ensures PageRequest(params).includes == Some("primary")
    ensures ProductRepo.SortFor(PageRequest(params).sort) == ProductRepo.CreatedDesc
  {
  }

  /** `Math.min(10, Math.max(1, limit || 8))`: 0 and an absent limit mean 8, then clamped to 1..10. */
  function SuggestLimit(limit: Option<int>): (r: int)
    ensures 1 <= r <= 10
    ensures (limit.None? || limit.value == 0) ==> r == 8
    ensures limit.Some? && 1 <= limit.value <= 10 ==> r == limit.value
    ensures limit.Some? && limit.value < 0 ==> r == 1
    ensures limit.Some? && limit.value > 10 ==> r == 10
  {
    var l := if limit.None? || limit.value == 0 then 8 else limit.value;
    Clamp(1, 10, l)
  }

  /** `suggest(q, limit)`: the title pattern and the clamped limit. */
  function SuggestRequest(q: string, limit: Option<int>): (plan: SearchRepo.SuggestPlan)
    ensures |plan.params| == 2 && plan.params[1] == VInt(SuggestLimit(limit))
    ensures plan.params[0] == VText("%" + q + "%")
  {
    SearchRepo.Suggest(q, SuggestLimit(limit))
  }
}
