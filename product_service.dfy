/** The current product listing: a cache-aside lookup keyed by the parsed
    query, then a filtered, ordered and paged query with its metadata, which
    is cached for 30 seconds. The database is a parameter that answers a plan. */
module ProductService {
  import opened Wrappers
  import opened Listing
  import opened ProductSchema
  import opened QueryKey

  const CacheTtlSeconds: nat := 30

  datatype CacheEntry = CacheEntry(value: ProductPage, ttlSeconds: nat)

  /** The key-value cache, as a map from key to stored listing page. */
  class Cache {
    var entries: map<string, CacheEntry>

    constructor ()
      ensures entries == map[]
    {
      entries := map[];
    }
  }

  /** The filter for a query: a name filter only for a non-empty name, a
      category filter only for a non-empty category, and a price range, with
      whichever bounds are given, when either bound is. */
  function WhereFor(q: ProductQuery): (w: Where)
    ensures w.name.Some? <==> q.name.Some? && q.name.value != ""
    ensures w.category.Some? <==> q.category.Some? && q.category.value != ""
    ensures w.price.Some? <==> q.minPrice.Some? || q.maxPrice.Some?
    ensures w.name.Some? ==> w.name == q.name
    ensures w.category.Some? ==> w.category == q.category
    ensures w.price.Some? ==> w.price.value == PriceRange(q.minPrice, q.maxPrice)
  {
    Where(if q.name.Some? && q.name.value != "" then q.name else None,
          if q.category.Some? && q.category.value != "" then q.category else None,
          if q.minPrice.Some? || q.maxPrice.Some? then Some(PriceRange(q.minPrice, q.maxPrice)) else None)
  }

  /** Featured listings are ordered by sales, whatever sortBy says; otherwise
      sortBy picks price or creation date, newest first by default. */
  function OrderByFor(featured: bool, sortBy: Option<SortBy>): (o: OrderBy)
    ensures featured ==> o == SalesCountDesc
    ensures !featured ==> o != SalesCountDesc
    ensures !featured ==> (o == PriceAsc <==> sortBy == Some(PriceAscending))
    ensures !featured ==> (o == PriceDesc <==> sortBy == Some(PriceDescending))
    ensures !featured ==> (o == CreatedAtAsc <==> sortBy == Some(Oldest))
    ensures !featured ==> (o == CreatedAtDesc <==> sortBy.None? || sortBy == Some(Newest))
  {
    if featured then SalesCountDesc
    else match sortBy
      case Some(PriceAscending) => PriceAsc
      case Some(PriceDescending) => PriceDesc
      case Some(Oldest) => CreatedAtAsc
      case _ => CreatedAtDesc
  }

  function PageOf(q: ProductQuery): nat {
    if q.page.Some? then q.page.value else 1
  }

  function LimitOf(q: ProductQuery): nat {
    if q.limit.Some? then q.limit.value else 10
  }

  /** The findMany arguments: page p of size l skips the (p - 1) * l rows of
      the earlier pages and takes l rows. */
  function PlanFor(q: ProductQuery): (p: FindPlan)
    ensures p.take == LimitOf(q) && p.skip == Skip(PageOf(q), LimitOf(q))
    ensures q.page.None? && q.limit.None? ==> p.skip == 0 && p.take == 10
  {
    FindPlan(WhereFor(q), Skip(PageOf(q), LimitOf(q)), LimitOf(q), OrderByFor(q.featured, q.sortBy))
  }

  /** A row passes the filter of a query exactly when it meets every
      condition the query sets; empty text and absent bounds set none. */
  lemma WhereForMeaning(q: ProductQuery, row: ProductRow)
    ensures Matches(WhereFor(q), row) <==>
      (q.name.Some? && q.name.value != "" ==> Contains(Folded(row.name), Folded(q.name.value))) &&
      (q.category.Some? && q.category.value != "" ==>
         row.category.Some? && Folded(row.category.value) == Folded(q.category.value)) &&
      (q.minPrice.Some? ==> row.price >= q.minPrice.value) &&
      (q.maxPrice.Some? ==> row.price <= q.maxPrice.value)
  {
  }

  /** The query half of getProducts: the plan is built by conditional
      assignment and handed to findMany and count. Page 0 gives a negative
      offset, which is refused, and the error propagates; otherwise the
      page's metadata echoes total, page and limit with
      totalPages = ceil(total / limit). */
  method FetchPage(query: ProductQuery, db: FindPlan -> Fetched) returns (result: Result<ProductPage, QueryError>, plan: FindPlan)
    ensures plan == PlanFor(query)
    ensures result.Err? <==> PageOf(query) == 0 && LimitOf(query) > 0
    ensures result.Ok? ==>
      result.value.data == db(plan).rows &&
      result.value.meta == PageMeta(db(plan).count, PageOf(query), LimitOf(query), TotalPages(db(plan).count, LimitOf(query)))
  {
    var page := if query.page.Some? then query.page.value else 1;
    var limit := if query.limit.Some? then query.limit.value else 10;
    var skip := (page - 1) * limit;

    var where := Where(None, None, None);
    if query.name.Some? && query.name.value != "" {
      where := where.(name := query.name);
    }
    if query.category.Some? && query.category.value != "" {
      where := where.(category := query.category);
    }
    if query.minPrice.Some? || query.maxPrice.Some? {
      where := where.(price := Some(PriceRange(query.minPrice, query.maxPrice)));
    }
    assert where == WhereFor(query);

    var orderBy := CreatedAtDesc;
    if query.featured {
      orderBy := SalesCountDesc;
    } else {
      if query.sortBy == Some(PriceAscending) { orderBy := PriceAsc; }
      if query.sortBy == Some(PriceDescending) { orderBy := PriceDesc; }
      if query.sortBy == Some(Oldest) { orderBy := CreatedAtAsc; }
      if query.sortBy == Some(Newest) { orderBy := CreatedAtDesc; }
    }
    assert orderBy == OrderByFor(query.featured, query.sortBy);

    plan := FindPlan(where, skip, limit, orderBy);
    var fetched := Query(db, plan);
    if fetched.Err? {
      return Err(fetched.error), plan;
    }
    result := Ok(ProductPage(fetched.value.rows,
                             PageMeta(fetched.value.count, page, limit, TotalPages(fetched.value.count, limit))));
  }

  /** getProducts. On a cache hit the stored page is returned and the
      database is not asked (no plan). On a miss the page is fetched and
      stored under the query's key for 30 seconds; a refused query stores
      nothing and its error propagates. */
  method GetProducts(cache: Cache, query: ProductQuery, db: FindPlan -> Fetched)
    returns (result: Result<ProductPage, QueryError>, plan: Option<FindPlan>)
    modifies cache
    ensures CacheKey(query) in old(cache.entries) ==>
      result == Ok(old(cache.entries)[CacheKey(query)].value) && plan.None? && cache.entries == old(cache.entries)
    ensures CacheKey(query) !in old(cache.entries) ==>
      plan == Some(PlanFor(query)) &&
      (result.Err? <==> PageOf(query) == 0 && LimitOf(query) > 0) &&
      (result.Err? ==> cache.entries == old(cache.entries)) &&
      (result.Ok? ==>
         result.value == ProductPage(db(PlanFor(query)).rows,
                                     PageMeta(db(PlanFor(query)).count, PageOf(query), LimitOf(query),
                                              TotalPages(db(PlanFor(query)).count, LimitOf(query)))) &&
         cache.entries == old(cache.entries)[CacheKey(query) := CacheEntry(result.value, CacheTtlSeconds)])
  {
    var key := CacheKey(query);
    if key in cache.entries {
      return Ok(cache.entries[key].value), None;
    }
    var fetched;
    result, fetched := FetchPage(query, db);
    plan := Some(fetched);
    if result.Err? {
      return;
    }
    cache.entries := cache.entries[key := CacheEntry(result.value, CacheTtlSeconds)];
  }
}
