/** The earlier product listing: no cache and no category, a name and price
    filter, and always the newest products first. The database is a
    parameter that answers a plan. */
module LegacyProductService {
  import opened Wrappers
  import opened Listing
  import opened LegacyProductSchema

  /** A name filter only for a non-empty name; a price range, with whichever
      bounds are given, when either bound is. */
  function WhereFor(q: ProductQuery): (w: Where)
    ensures w.category.None?
    ensures w.name.Some? <==> q.name.Some? && q.name.value != ""
    ensures w.price.Some? <==> q.minPrice.Some? || q.maxPrice.Some?
    ensures w.name.Some? ==> w.name == q.name
    ensures w.price.Some? ==> w.price.value == PriceRange(q.minPrice, q.maxPrice)
  {
    Where(if q.name.Some? && q.name.value != "" then q.name else None,
          None,
          if q.minPrice.Some? || q.maxPrice.Some? then Some(PriceRange(q.minPrice, q.maxPrice)) else None)
  }

  /** getProducts: page and limit default to 1 and 10, page p skips the
      (p - 1) * limit earlier rows, the order is always newest first, and the
      metadata echoes total, page and limit with totalPages = ceil(total / limit).
      Page 0 gives a negative offset, which findMany refuses. */
  method GetProducts(query: ProductQuery, db: FindPlan -> Fetched) returns (result: Result<ProductPage, QueryError>, plan: FindPlan)
    ensures var page := if query.page.Some? then query.page.value else 1;
      var limit := if query.limit.Some? then query.limit.value else 10;
      plan == FindPlan(WhereFor(query), Skip(page, limit), limit, CreatedAtDesc) &&
      (result.Err? <==> page == 0 && limit > 0) &&
      (result.Ok? ==>
         result.value == ProductPage(db(plan).rows, PageMeta(db(plan).count, page, limit, TotalPages(db(plan).count, limit))))
  {
    var page := if query.page.Some? then query.page.value else 1;
    var limit := if query.limit.Some? then query.limit.value else 10;
    var skip := (page - 1) * limit;

    var where := Where(None, None, None);
    if query.name.Some? && query.name.value != "" {
      where := where.(name := query.name);
    }
    if query.minPrice.Some? || query.maxPrice.Some? {
      where := where.(price := Some(PriceRange(query.minPrice, query.maxPrice)));
    }

    plan := FindPlan(where, skip, limit, CreatedAtDesc);
    var fetched := Query(db, plan);
    if fetched.Err? {
      return Err(fetched.error), plan;
    }
    result := Ok(ProductPage(fetched.value.rows,
                             PageMeta(fetched.value.count, page, limit, TotalPages(fetched.value.count, limit))));
  }

  /** The filter keeps a row exactly when its name contains the query's
      non-empty name, ignoring case, and its price lies within the given
      bounds, bounds included. */
  lemma WhereForMeaning(q: ProductQuery, row: ProductRow)
    ensures Matches(WhereFor(q), row) <==>
      (q.name.Some? && q.name.value != "" ==> Contains(Folded(row.name), Folded(q.name.value))) &&
      (q.minPrice.Some? ==> row.price >= q.minPrice.value) &&
      (q.maxPrice.Some? ==> row.price <= q.maxPrice.value)
  {
  }
}
