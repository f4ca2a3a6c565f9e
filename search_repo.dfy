/**
 * The storefront search repository: the page query over live, active
 * products with its count, the two facet queries (categories and price
 * buckets) over the same filters, and the title suggestions.
 */
module SearchRepo {
  import opened Wrappers
  import opened Query
  import opened Placeholders
  import ProductRepo

  // ---------------------------------------------------------------------
  // Filters.
  // ---------------------------------------------------------------------

  /** The conditions of the search WHERE clause. */
  datatype SearchFilter = NotDeleted | IsActive | TitleLike | CategoryAny | MinPrice | MaxPrice | InStock | HasImages

  /** The filter arguments shared by the page and the facet queries. */
  datatype FilterArgs = FilterArgs(
    q: Option<string>, category: Option<seq<string>>,
    minPrice: Option<int>, maxPrice: Option<int>,
    inStock: Option<bool>, hasImages: Option<bool>)

  /** The filters in the order the queries add them; the first two are always there. */
  const Filters: seq<SearchFilter> := [NotDeleted, IsActive, TitleLike, CategoryAny, MinPrice, MaxPrice, InStock, HasImages]

  /**
   * Whether the arguments ask for a filter: a truthy `q`, a non-empty
   * category array, a number for either bound, a flag that is exactly true.
   */
  predicate Asked(args: FilterArgs, f: SearchFilter) {
    match f
    case NotDeleted => true
    case IsActive => true
    case TitleLike => Present(args.q)
    case CategoryAny => args.category.Some? && |args.category.value| > 0
    case MinPrice => args.minPrice.Some?
    case MaxPrice => args.maxPrice.Some?
    case InStock => args.inStock == Some(true)
    case HasImages => args.hasImages == Some(true)
  }

  /** What a filter compares with; the literal conditions compare with TRUE. */
  function Compared(args: FilterArgs, f: SearchFilter): Value {
    match f
    case NotDeleted => VBool(true)
    case IsActive => VBool(true)
    case TitleLike => VText("%" + args.q.GetOr("") + "%")
    case CategoryAny => VTextList(args.category.GetOr([]))
    case MinPrice => VInt(args.minPrice.GetOr(0))
    case MaxPrice => VInt(args.maxPrice.GetOr(0))
    case InStock => VBool(true)
    case HasImages => VBool(true)
  }

  /** The filters among the first `n` that the arguments ask for, with what each compares with. */
  function WantedUpTo(args: FilterArgs, n: nat): map<SearchFilter, Value>
    requires n <= |Filters|
  {
    map f | f in Filters[..n] && Asked(args, f) :: Compared(args, f)
  }

  /** Every filter appears in the list. */
  lemma AllFiltersListed()
    ensures forall f: SearchFilter :: f in Filters
  {
    forall f: SearchFilter
      ensures f in Filters
    {
      match f
      case NotDeleted => assert Filters[0] == f;
      case IsActive => assert Filters[1] == f;
      case TitleLike => assert Filters[2] == f;
      case CategoryAny => assert Filters[3] == f;
      case MinPrice => assert Filters[4] == f;
      case MaxPrice => assert Filters[5] == f;
      case InStock => assert Filters[6] == f;
      case HasImages => assert Filters[7] == f;
    }
  }

  /** What a search filters on, as the arguments ask. */
  function Wanted(args: FilterArgs): (w: map<SearchFilter, Value>)
    ensures forall f :: f in w <==> Asked(args, f)
    ensures forall f :: f in w ==> w[f] == Compared(args, f)
  {
    AllFiltersListed();
    assert Filters[..|Filters|] == Filters;
    WantedUpTo(args, |Filters|)
  }

  /** Adding the n-th filter to the first n. */
  lemma WantedStep(args: FilterArgs, n: nat)
    requires n < |Filters|
    ensures WantedUpTo(args, n + 1)
         == if Asked(args, Filters[n]) then WantedUpTo(args, n)[Filters[n] := Compared(args, Filters[n])] else WantedUpTo(args, n)
  {
    assert Filters[..n + 1] == Filters[..n] + [Filters[n]];
    assert Filters[n] !in Filters[..n];
  }

  /**
   * Search never shows a deleted or inactive product, and filters on
   * exactly what the arguments ask for: an empty category array and a
   * false or absent flag filter on nothing.
   */
  lemma WantedFilters(args: FilterArgs)
    ensures var w := Wanted(args);
      && NotDeleted in w && IsActive in w && w[NotDeleted] == VBool(true) && w[IsActive] == VBool(true)
      && (TitleLike in w <==> Present(args.q))
      && (CategoryAny in w <==> args.category.Some? && args.category.value != [])
      && (MinPrice in w <==> args.minPrice.Some?)
      && (MaxPrice in w <==> args.maxPrice.Some?)
      && (InStock in w <==> args.inStock == Some(true))
      && (HasImages in w <==> args.hasImages == Some(true))
  {
  }

  /** Each bound filter compares with its own argument: `%q%`, the category array and the two bounds. */
  lemma WantedValues(args: FilterArgs)
    ensures var w := Wanted(args);
      && (TitleLike in w ==> w[TitleLike] == VText("%" + args.q.value + "%"))
      && (CategoryAny in w ==> w[CategoryAny] == VTextList(args.category.value))
      && (MinPrice in w ==> w[MinPrice] == VInt(args.minPrice.value))
      && (MaxPrice in w ==> w[MaxPrice] == VInt(args.maxPrice.value))
  {
  }

  /**
   * The WHERE conditions of `page` and `facets` and their values: the
   * fixed `deleted_at IS NULL` and `active = TRUE`, then each filter in
   * turn, each pushed only when the arguments ask for it.
   */
  method Conditions(args: FilterArgs) returns (where: seq<Cond<SearchFilter>>, values: seq<Value>)
    ensures WellNumbered(where, values) && Highest(where) == |values|
    ensures Decode(where, values) == Wanted(args)
  {
    where := [Fixed(NotDeleted, VBool(true))];
    values := [];
    assert WellNumbered(where, values) by { assert where[..0] == []; }
    WantedStep(args, 0);
    assert Decode(where, values) == WantedUpTo(args, 1) by { assert where[..0] == []; }
    where, values := PushFilter(args, 1, where, values);
    where, values := PushFilter(args, 2, where, values);
    where, values := PushFilter(args, 3, where, values);
    where, values := PushFilter(args, 4, where, values);
    where, values := PushFilter(args, 5, where, values);
    where, values := PushFilter(args, 6, where, values);
    where, values := PushFilter(args, 7, where, values);
    WellNumberedBinds(where, values);
  }

  /**
   * One `if` of the builder: the active, stock and images conditions are
   * literal, every other filter pushes its value and reads it back by
   * position.
   */
  method PushFilter(args: FilterArgs, n: nat, where: seq<Cond<SearchFilter>>, values: seq<Value>)
    returns (where': seq<Cond<SearchFilter>>, values': seq<Value>)
    requires 0 < n < |Filters|
    requires WellNumbered(where, values) && Decode(where, values) == WantedUpTo(args, n)
    ensures WellNumbered(where', values') && Decode(where', values') == WantedUpTo(args, n + 1)
  {
    var f := Filters[n];
    if f == IsActive || f == InStock || f == HasImages {
      where', values' := PushFixed(Asked(args, f), where, values, f, VBool(true));
    } else {
      where', values' := PushBound(Asked(args, f), where, values, f, Compared(args, f));
    }
    WantedStep(args, n);
  }

  // ---------------------------------------------------------------------
  // The page query.
  // ---------------------------------------------------------------------

  /** The arguments of `page`: the filters, the image columns asked for, the page and the sort key. */
  datatype PageArgs = PageArgs(
    filters: FilterArgs, includes: Option<string>, imagesLimit: Option<int>,
    page: int, pageSize: int, sort: string)

  /** The image column of the page: none, the first image's URL, or up to `$limitParam` images. */
  datatype ImageColumn = NoImage | PrimaryImage | ImageList(limitParam: nat)

  /** The two statements of a search page: the page query and the count query. */
  datatype PagePlan = PagePlan(
    where: seq<Cond<SearchFilter>>,
    sort: ProductRepo.ProductSort,
    images: ImageColumn,
    listParams: seq<Value>,
    limitParam: nat,
    offsetParam: nat,
    countParams: seq<Value>)

  /**
   * `page(params)` as written: the filter values, then for
   * `include = "images"` the images limit (default 5) on the same array,
   * then LIMIT and OFFSET on the next two placeholders; the count query is
   * sent with the array as it stood before LIMIT and OFFSET. The primary
   * image is selected when `include` is absent or "primary"; "none", ""
   * and any other value select no image.
   */
  method Page(args: PageArgs) returns (plan: PagePlan)
    ensures Decode(plan.where, plan.listParams) == Wanted(args.filters)
    ensures Decode(plan.where, plan.countParams) == Wanted(args.filters)
    ensures plan.sort == ProductRepo.SortFor(args.sort)
    ensures |plan.listParams| == |plan.countParams| + 2 && plan.listParams[..|plan.countParams|] == plan.countParams
    ensures Highest(plan.where) <= |plan.countParams| && WellNumbered(plan.where, plan.listParams[..Highest(plan.where)])
    ensures args.includes == Some("images") ==>
      && plan.images == ImageList(Highest(plan.where) + 1)
      && plan.countParams == plan.listParams[..Highest(plan.where)] + [VInt(args.imagesLimit.GetOr(5))]
    ensures args.includes != Some("images") ==> plan.countParams == plan.listParams[..Highest(plan.where)]
    ensures (args.includes == None || args.includes == Some("primary")) <==> plan.images == PrimaryImage
    ensures plan.limitParam == |plan.listParams| - 1 && plan.offsetParam == |plan.listParams|
    ensures plan.listParams[plan.limitParam - 1] == VInt(args.pageSize)
    ensures plan.listParams[plan.offsetParam - 1] == VInt(Offset(args.page, args.pageSize))
  {
    var where, filterValues := Conditions(args.filters);
    var values, images := IncludeImages(args.includes, args.imagesLimit, filterValues);
    var listParams := values + [VInt(args.pageSize), VInt(Offset(args.page, args.pageSize))];
    PageBinds(where, filterValues, values, listParams);
    plan := PagePlan(where, ProductRepo.SortFor(args.sort), images, listParams, |listParams| - 1, |listParams|, values);
  }

  /** The image column `include` selects, with the images limit pushed after the filter values for "images". */
  method IncludeImages(includes: Option<string>, imagesLimit: Option<int>, filterValues: seq<Value>)
    returns (values: seq<Value>, images: ImageColumn)
    ensures includes == Some("images") ==>
      values == filterValues + [VInt(imagesLimit.GetOr(5))] && images == ImageList(|values|)
    ensures includes != Some("images") ==> values == filterValues
    ensures (includes == None || includes == Some("primary")) <==> images == PrimaryImage
  {
    values := filterValues;
    images := NoImage;
    if includes == Some("primary") || includes == None || includes == Some("") || includes == Some("none") {
      if includes.GetOr("primary") == "primary" {
        images := PrimaryImage;
      }
    } else if includes == Some("images") {
      values := values + [VInt(imagesLimit.GetOr(5))];
      images := ImageList(|values|);
    }
  }

  /** Values pushed after the filter values leave what the WHERE clause reads unchanged. */
  lemma PageBinds(where: seq<Cond<SearchFilter>>, filterValues: seq<Value>, values: seq<Value>, listParams: seq<Value>)
    requires Highest(where) == |filterValues| <= |values| && values[..|filterValues|] == filterValues
    requires |listParams| == |values| + 2 && listParams[..|values|] == values
    ensures Decode(where, listParams) == Decode(where, filterValues)
    ensures Decode(where, values) == Decode(where, filterValues)
    ensures listParams[..Highest(where)] == filterValues
  {
    DecodeExtend(where, filterValues, listParams[|filterValues|..]);
    assert filterValues + listParams[|filterValues|..] == listParams;
    DecodeExtend(where, filterValues, values[|filterValues|..]);
    assert filterValues + values[|filterValues|..] == values;
  }

  /** The count query bound with only the WHERE values, as intended. */
  function CountParams(plan: PagePlan): (r: seq<Value>)
    requires Highest(plan.where) <= |plan.countParams|
    ensures |r| == Highest(plan.where)
  {
    plan.countParams[..Highest(plan.where)]
  }

  /** The corrected count binding is accepted for every `include` and counts under the same filters as the page. */
  lemma CountParamsBind(plan: PagePlan, args: FilterArgs)
    requires Highest(plan.where) <= |plan.countParams| && WellNumbered(plan.where, CountParams(plan))
    requires Decode(plan.where, plan.countParams) == Wanted(args)
    ensures Binds(plan.where, CountParams(plan))
    ensures Decode(plan.where, CountParams(plan)) == Wanted(args)
  {
    var c := CountParams(plan);
    WellNumberedBinds(plan.where, c);
    assert c + plan.countParams[|c|..] == plan.countParams;
    DecodeExtend(plan.where, c, plan.countParams[|c|..]);
  }

  // ---------------------------------------------------------------------
  // Facets.
  // ---------------------------------------------------------------------

  /** The WHERE clause of both facet queries and the values they are sent with. */
  datatype FacetsPlan = FacetsPlan(where: seq<Cond<SearchFilter>>, params: seq<Value>)

  /**
   * `facets(params)`: the same conditions as the page, and both facet
   * queries are sent with exactly the values the text reads.
   */
  method Facets(args: FilterArgs) returns (plan: FacetsPlan)
    ensures Binds(plan.where, plan.params)
    ensures Decode(plan.where, plan.params) == Wanted(args)
  {
    var where, values := Conditions(args);
    plan := FacetsPlan(where, values);
  }

  /** `count(*)` of one key among the selected rows. */
  function Occurrences<K(==)>(keys: seq<K>, k: K): (n: nat)
    ensures n <= |keys|
    ensures n > 0 <==> k in keys
  {
    if keys == [] then 0
    else Occurrences(keys[..|keys| - 1], k) + (if keys[|keys| - 1] == k then 1 else 0)
  }

  /**
   * `GROUP BY key ORDER BY rank`: one (key, count) pair for every key of
   * `order` that some selected row has, in the order of `order`.
   */
  function Group<K(==)>(keys: seq<K>, order: seq<K>): (groups: seq<(K, nat)>)
    ensures forall i :: 0 <= i < |groups| ==> groups[i].0 in order && groups[i].1 == Occurrences(keys, groups[i].0) && groups[i].1 > 0
    ensures |groups| <= |order|
  {
    if order == [] then []
    else
      var n := Occurrences(keys, order[0]);
      (if n > 0 then [(order[0], n)] else []) + Group(keys, order[1..])
  }

  /** Every key of `order` that a selected row has gets a group. */
  lemma {:induction false} GroupCovers<K>(keys: seq<K>, order: seq<K>, k: K)
    requires k in order && k in keys
    ensures exists i :: 0 <= i < |Group(keys, order)| && Group(keys, order)[i].0 == k
  {
    var g := Group(keys, order);
    var rest := Group(keys, order[1..]);
    if k == order[0] {
      assert g[0].0 == k;
    } else {
      GroupCovers(keys, order[1..], k);
      var i :| 0 <= i < |rest| && rest[i].0 == k;
      assert g[i + |g| - |rest|] == rest[i];
    }
  }

  /** A key of `order` has a group exactly when some selected row has it. */
  lemma GroupHas<K>(keys: seq<K>, order: seq<K>, k: K)
    requires k in order
    ensures (exists i :: 0 <= i < |Group(keys, order)| && Group(keys, order)[i].0 == k) <==> k in keys
  {
    if k in keys {
      GroupCovers(keys, order, k);
    }
  }

  /** The groups keep the order of `order`: listed by increasing rank, so are the groups. */
  lemma {:induction false} GroupSorted<K>(keys: seq<K>, order: seq<K>, rank: K -> int)
    requires forall a, b :: 0 <= a < b < |order| ==> rank(order[a]) < rank(order[b])
    ensures forall i, j :: 0 <= i < j < |Group(keys, order)| ==> rank(Group(keys, order)[i].0) < rank(Group(keys, order)[j].0)
  {
    if order != [] {
      var rest := Group(keys, order[1..]);
      GroupSorted(keys, order[1..], rank);
      HeadRanksFirst(order, rank);
      var n := Occurrences(keys, order[0]);
      if n > 0 {
        ConsSorted((order[0], n), rest, rank);
      }
    }
  }

  lemma HeadRanksFirst<K>(order: seq<K>, rank: K -> int)
    requires order != []
    requires forall a, b :: 0 <= a < b < |order| ==> rank(order[a]) < rank(order[b])
    ensures forall k :: k in order[1..] ==> rank(order[0]) < rank(k)
  {
    forall k | k in order[1..]
      ensures rank(order[0]) < rank(k)
    {
      var b :| 0 <= b < |order[1..]| && order[1..][b] == k;
      assert order[b + 1] == k;
    }
  }

  lemma ConsSorted<K>(h: (K, nat), rest: seq<(K, nat)>, rank: K -> int)
    requires forall i, j :: 0 <= i < j < |rest| ==> rank(rest[i].0) < rank(rest[j].0)
    requires forall j :: 0 <= j < |rest| ==> rank(h.0) < rank(rest[j].0)
    ensures forall i, j :: 0 <= i < j < |[h] + rest| ==> rank(([h] + rest)[i].0) < rank(([h] + rest)[j].0)
  {
    var g := [h] + rest;
    assert forall j :: 1 <= j < |g| ==> g[j] == rest[j - 1];
  }

  /** The total of the group counts. */
  function Total<K(==)>(groups: seq<(K, nat)>): nat {
    if groups == [] then 0 else groups[0].1 + Total(groups[1..])
  }

  /** The selected rows whose key is among `ks`. */
  function CountIn<K(==)>(keys: seq<K>, ks: set<K>): (n: nat)
    ensures n <= |keys|
  {
    if keys == [] then 0
    else CountIn(keys[..|keys| - 1], ks) + (if keys[|keys| - 1] in ks then 1 else 0)
  }

  /** Adding one more key to the set adds the rows holding it. */
  lemma {:induction false} CountInAdd<K>(keys: seq<K>, ks: set<K>, k: K)
    requires k !in ks
    ensures CountIn(keys, ks + {k}) == CountIn(keys, ks) + Occurrences(keys, k)
  {
    if keys != [] {
      CountInAdd(keys[..|keys| - 1], ks, k);
    }
  }

  /** Counting under every key there is counts every row. */
  lemma {:induction false} CountInAll<K>(keys: seq<K>, ks: set<K>)
    requires forall k :: k in keys ==> k in ks
    ensures CountIn(keys, ks) == |keys|
  {
    if keys != [] {
      assert forall k :: k in keys[..|keys| - 1] ==> k in keys;
      CountInAll(keys[..|keys| - 1], ks);
    }
  }

  /** The groups over distinct keys count every selected row whose key is among them. */
  lemma {:induction false} GroupTotal<K>(keys: seq<K>, order: seq<K>)
    requires forall a, b :: 0 <= a < b < |order| ==> order[a] != order[b]
    ensures Total(Group(keys, order)) == CountIn(keys, set k | k in order)
  {
    if order == [] {
      assert (set k | k in order) == {};
      EmptyCount(keys);
    } else {
      GroupTotal(keys, order[1..]);
      GroupStep(keys, order);
      HeadAndTail(order);
      CountInAdd(keys, (set k | k in order[1..]), order[0]);
    }
  }

  /** The first key's group, if any, comes before the groups of the rest. */
  lemma GroupStep<K>(keys: seq<K>, order: seq<K>)
    requires order != []
    ensures Total(Group(keys, order)) == Occurrences(keys, order[0]) + Total(Group(keys, order[1..]))
  {
    var n := Occurrences(keys, order[0]);
    var rest := Group(keys, order[1..]);
    var g := Group(keys, order);
    if n > 0 {
      assert g == [(order[0], n)] + rest;
      assert g[1..] == rest;
    } else {
      assert g == rest;
    }
  }

  /** The keys of a list without repeats: the first one, and those of the rest, which do not include it. */
  lemma HeadAndTail<K>(order: seq<K>)
    requires order != []
    requires forall a, b :: 0 <= a < b < |order| ==> order[a] != order[b]
    ensures order[0] !in (set k | k in order[1..])
    ensures (set k | k in order) == (set k | k in order[1..]) + {order[0]}
    ensures forall a, b :: 0 <= a < b < |order[1..]| ==> order[1..][a] != order[1..][b]
  {
    assert forall k :: k in order <==> k == order[0] || k in order[1..];
  }

  /** No row is counted under no key. */
  lemma {:induction false} EmptyCount<K>(keys: seq<K>)
    ensures CountIn(keys, {}) == 0
  {
    if keys != [] {
      EmptyCount(keys[..|keys| - 1]);
    }
  }

  /** When every selected row has one of the keys, the facet counts add up to the number of rows. */
  lemma GroupCountsEveryRow<K>(keys: seq<K>, order: seq<K>)
    requires forall a, b :: 0 <= a < b < |order| ==> order[a] != order[b]
    requires forall k :: k in keys ==> k in order
    ensures Total(Group(keys, order)) == |keys|
  {
    GroupTotal(keys, order);
    CountInAll(keys, set k | k in order);
  }

  /** The categories in the order of the `product_category` enum, which is how ORDER BY sorts them. */
  const CategoryOrder: seq<string> := ["RUDRAKSHA", "GEMSTONE", "ACCESSORY"]

  /** The categories facet over the categories of the selected rows. */
  function CategoryFacet(categories: seq<string>): (groups: seq<(string, nat)>)
    ensures |groups| <= 3
    ensures forall i :: 0 <= i < |groups| ==> groups[i].0 in CategoryOrder && groups[i].1 == Occurrences(categories, groups[i].0) > 0
  {
    Group(categories, CategoryOrder)
  }

  /** Every selected product has one of the three categories, so the category counts add up to the total. */
  lemma CategoryFacetTotal(categories: seq<string>)
    requires forall c :: c in categories ==> c in CategoryOrder
    ensures Total(CategoryFacet(categories)) == |categories|
  {
    GroupCountsEveryRow(categories, CategoryOrder);
  }

  /** The position of a category in the enum, 3 for any other text. */
  function CategoryRank(c: string): int {
    if c == "RUDRAKSHA" then 0 else if c == "GEMSTONE" then 1 else if c == "ACCESSORY" then 2 else 3
  }

  /** The categories facet lists each category at most once, in enum order. */
  lemma CategoryFacetOrdered(categories: seq<string>)
    ensures forall i, j :: 0 <= i < j < |CategoryFacet(categories)| ==>
      CategoryRank(CategoryFacet(categories)[i].0) < CategoryRank(CategoryFacet(categories)[j].0)
  {
    var order := CategoryOrder;
    var rank := CategoryRank;
    forall a, b | 0 <= a < b < |order|
      ensures rank(order[a]) < rank(order[b])
    {
      assert a == 0 || a == 1;
      assert b == 1 || b == 2;
    }
    GroupSorted(categories, order, rank);
  }

  /** A category appears in the facet exactly when a selected product has it, with the number of such products. */
  lemma CategoryFacetCounts(categories: seq<string>, c: string)
    requires c in CategoryOrder
    ensures (exists i :: 0 <= i < |CategoryFacet(categories)| && CategoryFacet(categories)[i].0 == c) <==> c in categories
  {
    GroupHas(categories, CategoryOrder, c);
    assert CategoryFacet(categories) == Group(categories, CategoryOrder);
  }

  // ---------------------------------------------------------------------
  // Price buckets.
  // ---------------------------------------------------------------------

  /** The four price buckets, in paise. */
  datatype Bucket = Below50000 | From50000 | From100000 | From200000

  /**
   * The CASE of the price facet as written: below 50000, BETWEEN 50000
   * AND 99900, BETWEEN 100000 AND 199900, else "200000+".
   */
  function BucketAsWritten(price: int): (b: Bucket)
    ensures price < 50000 <==> b == Below50000
    ensures b == From50000 <==> 50000 <= price <= 99900
    ensures b == From100000 <==> 100000 <= price <= 199900
    ensures b == From200000 <==> (99900 < price < 100000 || 199900 < price)
  {
    if price < 50000 then Below50000
    else if 50000 <= price <= 99900 then From50000
    else if 100000 <= price <= 199900 then From100000
    else From200000
  }

  /** The CASE as evidently intended: each bucket runs up to the next one's lower bound. */
  function BucketOf(price: int): (b: Bucket)
    ensures price < 50000 <==> b == Below50000
    ensures 50000 <= price < 100000 <==> b == From50000
    ensures 100000 <= price < 200000 <==> b == From100000
    ensures 200000 <= price <==> b == From200000
  {
    if price < 50000 then Below50000
    else if price < 100000 then From50000
    else if price < 200000 then From100000
    else From200000
  }

  /** The bucket's label in the SQL text and the response. */
  function Label(b: Bucket): string {
    match b
    case Below50000 => "0-49900"
    case From50000 => "50000-99900"
    case From100000 => "100000-199900"
    case From200000 => "200000+"
  }

  /** The ORDER BY rank of a label: 1 to 3 for the bounded buckets, 4 for anything else. */
  function Rank(name: string): (r: nat)
    ensures 1 <= r <= 4
  {
    if name == "0-49900" then 1
    else if name == "50000-99900" then 2
    else if name == "100000-199900" then 3
    else 4
  }

  /** The lower bound of a bucket. */
  function Floor(b: Bucket): int {
    match b
    case Below50000 => 0
    case From50000 => 50000
    case From100000 => 100000
    case From200000 => 200000
  }

  /** A price bucket of the response: `{min, max, count}`, `max` null for the open bucket. */
  datatype PriceRange = PriceRange(min: int, max: Option<int>, count: nat)

  /** The `switch (r.bucket)` mapping a label back to its range; any other label is the open bucket. */
  function RangeOf(name: string, count: nat): PriceRange {
    if name == "0-49900" then PriceRange(0, Some(49900), count)
    else if name == "50000-99900" then PriceRange(50000, Some(99900), count)
    else if name == "100000-199900" then PriceRange(100000, Some(199900), count)
    else PriceRange(200000, None, count)
  }

  /** The buckets in ORDER BY order. */
  const BucketOrder: seq<Bucket> := [Below50000, From50000, From100000, From200000]

  /**
   * The labels round-trip through the mapping: each bucket comes back with
   * its own lower bound, ranks run 1 to 4 in bucket order, and only the
   * last bucket has no upper bound.
   */
  lemma RangesMatchLabels(b: Bucket, count: nat)
    ensures RangeOf(Label(b), count).min == Floor(b) && RangeOf(Label(b), count).count == count
    ensures RangeOf(Label(b), count).max.None? <==> b == From200000
    ensures forall i :: 0 <= i < |BucketOrder| ==> Rank(Label(BucketOrder[i])) == i + 1
    ensures forall c, d :: Label(c) == Label(d) ==> c == d
  {
  }

  /** The bucket of each selected price, under the CASE as intended. */
  function Buckets(prices: seq<int>): (buckets: seq<Bucket>)
    ensures |buckets| == |prices|
    ensures forall i :: 0 <= i < |prices| ==> buckets[i] == BucketOf(prices[i])
  {
    seq(|prices|, i requires 0 <= i < |prices| => BucketOf(prices[i]))
  }

  /** The `price_buckets` of the response: each group mapped to its range with its count. */
  function Ranges(groups: seq<(Bucket, nat)>): (ranges: seq<PriceRange>)
    ensures |ranges| == |groups|
    ensures forall i :: 0 <= i < |groups| ==> ranges[i] == RangeOf(Label(groups[i].0), groups[i].1)
  {
    if groups == [] then [] else [RangeOf(Label(groups[0].0), groups[0].1)] + Ranges(groups[1..])
  }

  /** The price facet over the prices of the selected rows. */
  function PriceFacet(prices: seq<int>): (ranges: seq<PriceRange>)
    ensures |ranges| <= 4
    ensures forall i :: 0 <= i < |ranges| ==> ranges[i].count > 0
  {
    Ranges(Group(Buckets(prices), BucketOrder))
  }

  /** The total of the range counts. */
  function Counted(ranges: seq<PriceRange>): nat {
    if ranges == [] then 0 else ranges[0].count + Counted(ranges[1..])
  }

  /** Mapping groups to ranges keeps their counts. */
  lemma {:induction false} RangesKeepCounts(groups: seq<(Bucket, nat)>)
    ensures Counted(Ranges(groups)) == Total(groups)
  {
    if groups != [] {
      RangesKeepCounts(groups[1..]);
      assert Ranges(groups)[1..] == Ranges(groups[1..]);
    }
  }

  /** The price facet counts add up to the number of selected products: every price is in exactly one bucket. */
  lemma PriceFacetTotal(prices: seq<int>)
    ensures Counted(PriceFacet(prices)) == |prices|
  {
    var buckets := Buckets(prices);
    forall k | k in buckets
      ensures k in BucketOrder
    {
    }
    GroupCountsEveryRow(buckets, BucketOrder);
    RangesKeepCounts(Group(buckets, BucketOrder));
  }

  /** The price facet lists its ranges by increasing lower bound, each bucket at most once. */
  lemma PriceFacetOrdered(prices: seq<int>)
    ensures forall i, j :: 0 <= i < j < |PriceFacet(prices)| ==> PriceFacet(prices)[i].min < PriceFacet(prices)[j].min
  {
    var groups := Group(Buckets(prices), BucketOrder);
    GroupSorted(Buckets(prices), BucketOrder, Floor);
    forall i | 0 <= i < |groups|
      ensures PriceFacet(prices)[i].min == Floor(groups[i].0)
    {
      RangesMatchLabels(groups[i].0, groups[i].1);
    }
  }

  /** Each range of the price facet starts at its bucket's lower bound and counts the prices in that bucket. */
  lemma PriceFacetRanges(prices: seq<int>)
    ensures var groups := Group(Buckets(prices), BucketOrder);
      forall i :: 0 <= i < |groups| ==>
        PriceFacet(prices)[i].min == Floor(groups[i].0) && PriceFacet(prices)[i].count == Occurrences(Buckets(prices), groups[i].0)
  {
    var groups := Group(Buckets(prices), BucketOrder);
    forall i | 0 <= i < |groups|
      ensures PriceFacet(prices)[i].min == Floor(groups[i].0)
    {
      RangesMatchLabels(groups[i].0, groups[i].1);
    }
  }

  /** A bucket has a range in the price facet exactly when some selected price falls in it. */
  lemma PriceFacetCounts(prices: seq<int>, b: Bucket)
    ensures (exists i :: 0 <= i < |PriceFacet(prices)| && PriceFacet(prices)[i].min == Floor(b))
        <==> exists k :: 0 <= k < |prices| && BucketOf(prices[k]) == b
  {
    if exists i :: 0 <= i < |PriceFacet(prices)| && PriceFacet(prices)[i].min == Floor(b) {
      var i :| 0 <= i < |PriceFacet(prices)| && PriceFacet(prices)[i].min == Floor(b);
      RangeHasPrice(prices, b, i);
    }
    if exists k :: 0 <= k < |prices| && BucketOf(prices[k]) == b {
      var k :| 0 <= k < |prices| && BucketOf(prices[k]) == b;
      PriceHasRange(prices, b, k);
    }
  }

  /** A range of the price facet is there because some price fell in its bucket. */
  lemma RangeHasPrice(prices: seq<int>, b: Bucket, i: nat)
    requires i < |PriceFacet(prices)| && PriceFacet(prices)[i].min == Floor(b)
    ensures exists k :: 0 <= k < |prices| && BucketOf(prices[k]) == b
  {
    var buckets := Buckets(prices);
    var groups := Group(buckets, BucketOrder);
    PriceFacetRanges(prices);
    FloorInjective(groups[i].0, b);
    assert b in buckets;
    var k :| 0 <= k < |buckets| && buckets[k] == b;
    assert BucketOf(prices[k]) == b;
  }

  /** A price's bucket has its range in the price facet. */
  lemma PriceHasRange(prices: seq<int>, b: Bucket, k: nat)
    requires k < |prices| && BucketOf(prices[k]) == b
    ensures exists i :: 0 <= i < |PriceFacet(prices)| && PriceFacet(prices)[i].min == Floor(b)
  {
    var buckets := Buckets(prices);
    var groups := Group(buckets, BucketOrder);
    assert buckets[k] == b;
    GroupCovers(buckets, BucketOrder, b);
    var i :| 0 <= i < |groups| && groups[i].0 == b;
    PriceFacetRanges(prices);
    assert PriceFacet(prices)[i].min == Floor(b);
  }

  /** Different buckets have different lower bounds. */
  lemma FloorInjective(c: Bucket, d: Bucket)
    requires Floor(c) == Floor(d)
    ensures c == d
  {
  }

  /** Every non-negative price lies at or above its bucket's lower bound and below the next bucket's. */
  lemma BucketOfWithin(price: int)
    requires price >= 0
    ensures Floor(BucketOf(price)) <= price
    ensures forall b :: Floor(b) > Floor(BucketOf(price)) ==> price < Floor(b)
  {
  }

  /** A higher price never lands in a lower bucket. */
  lemma BucketOfMonotone(p: int, q: int)
    requires p <= q
    ensures Rank(Label(BucketOf(p))) <= Rank(Label(BucketOf(q)))
  {
  }

  /** The written CASE and the intended one differ exactly on the prices just under 100000 and 200000. */
  lemma BucketsAgree(price: int)
    ensures BucketAsWritten(price) != BucketOf(price) <==> (99900 < price < 100000 || 199900 < price < 200000)
  {
  }

  /** For whole-rupee prices, the only ones the labels anticipate, the written CASE is the intended one. */
  lemma WholeRupeesAgree(price: int)
    requires price % 100 == 0
    ensures BucketAsWritten(price) == BucketOf(price)
  {
    BucketsAgree(price);
  }

  /** As written, a price of 99950 paise is put in "200000+", above 100000 which goes to a lower bucket. */
  lemma BucketAsWrittenMisfiles()
    ensures BucketAsWritten(99950) == From200000 && Floor(BucketAsWritten(99950)) > 99950
    ensures Rank(Label(BucketAsWritten(99950))) > Rank(Label(BucketAsWritten(100000)))
  {
  }

  // ---------------------------------------------------------------------
  // Suggestions.
  // ---------------------------------------------------------------------

  /** `suggest(q, limit)`: live, active products whose title matches `%q%`, newest first, at most `$2`. */
  datatype SuggestPlan = SuggestPlan(where: seq<Cond<SearchFilter>>, params: seq<Value>, limitParam: nat)

  /** The suggestion query: the title pattern on `$1`, the limit on `$2`. */
  function Suggest(q: string, limit: int): (plan: SuggestPlan)
    ensures |plan.params| == 2 && Binds(plan.where, plan.params[..1])
    ensures Decode(plan.where, plan.params) == map[NotDeleted := VBool(true), IsActive := VBool(true), TitleLike := VText("%" + q + "%")]
    ensures plan.limitParam == 2 && plan.params[plan.limitParam - 1] == VInt(limit)
  {
    var first := [Fixed(NotDeleted, VBool(true))];
    var fixed := first + [Fixed(IsActive, VBool(true))];
    var where := fixed + [Bound(TitleLike, 1)];
    var params := [VText("%" + q + "%"), VInt(limit)];
    assert first[..0] == [] && fixed[..1] == first && where[..2] == fixed;
    assert Decode(first, params) == map[NotDeleted := VBool(true)];
    assert Decode(fixed, params) == map[NotDeleted := VBool(true), IsActive := VBool(true)];
    assert Highest(fixed) == 0;
    SuggestPlan(where, params, 2)
  }
}
