/** What both versions of the product listing hand to the database: a filter,
    an ordering, an offset and a page size, and the paging metadata they send
    back. Prices here are JavaScript numbers, modelled as exact reals. */
module Listing {
  import opened Wrappers

  datatype PriceRange = PriceRange(gte: Option<real>, lte: Option<real>)

  /** The `where` object: each filter is present or absent. */
  datatype Where = Where(name: Option<string>, category: Option<string>, price: Option<PriceRange>)

  datatype OrderBy = CreatedAtDesc | CreatedAtAsc | PriceAsc | PriceDesc | SalesCountDesc

  /** The arguments of the findMany call. */
  datatype FindPlan = FindPlan(where: Where, skip: int, take: int, orderBy: OrderBy)

  /** The fields of a product row the filters look at. */
  datatype ProductRow = ProductRow(name: string, category: Option<string>, price: real)

  /** What the database answers for a plan: the page of rows and the count of
      all rows the filter matches. */
  datatype Fetched = Fetched(rows: seq<ProductRow>, count: nat)

  /** totalPages is None where JavaScript computes Infinity or NaN (a page
      size of 0); both are sent to the client as null. */
  datatype PageMeta = PageMeta(total: nat, page: nat, limit: nat, totalPages: Option<nat>)

  datatype ProductPage = ProductPage(data: seq<ProductRow>, meta: PageMeta)

  /** findMany validates its arguments before querying: a negative skip is
      refused with an error, which getProducts does not catch. */
  datatype QueryError = NegativeSkip

  /** The client library's side of findMany and count: a plan with a negative
      offset is refused, any other is answered by the database `db`. */
  function Query(db: FindPlan -> Fetched, plan: FindPlan): (r: Result<Fetched, QueryError>)
    ensures r.Err? <==> plan.skip < 0
    ensures r.Ok? ==> r.value == db(plan)
  {
    if plan.skip < 0 then Err(NegativeSkip) else Ok(db(plan))
  }

  /** Math.ceil(total / limit): the fewest pages of `limit` rows that hold
      `total` rows. */
  function TotalPages(total: nat, limit: nat): (r: Option<nat>)
    ensures r.None? <==> limit == 0
    ensures r.Some? ==> r.value * limit >= total && (r.value - 1) * limit < total
  {
    if limit == 0 then None
    else
      var q := (total + limit - 1) / limit;
      assert q * limit + (total + limit - 1) % limit == total + limit - 1;
      Some(q)
  }

  /** The rows on earlier pages, skipped by the query. */
  function Skip(page: nat, limit: nat): (r: int)
    ensures page >= 1 ==> r >= 0
    ensures page == 0 ==> r == -(limit as int)
    ensures r < 0 <==> page == 0 && limit > 0
  {
    (page - 1) * limit
  }

  /** Page totalPages is the last page that starts before the end of the
      rows: its offset is below `total`, the next page's is not. */
  lemma LastPageStartsBeforeTotal(total: nat, limit: nat)
    requires limit > 0 && total > 0
    ensures var n := TotalPages(total, limit).value;
      n >= 1 && Skip(n, limit) < total <= Skip(n + 1, limit)
  {
  }

  function Lower(c: char): char {
    if 'A' <= c <= 'Z' then (c as int + 32) as char else c
  }

  /** ASCII case folding. */
  function Folded(s: string): (r: string)
    ensures |r| == |s| && forall k :: 0 <= k < |s| ==> r[k] == Lower(s[k])
  {
    if s == [] then [] else [Lower(s[0])] + Folded(s[1..])
  }

  /** `needle` occurs somewhere in `hay`. */
  predicate Contains(hay: string, needle: string)
    decreases |hay|
  {
    needle <= hay || (hay != [] && Contains(hay[1..], needle))
  }

  /** The meaning of a filter: name contains the text and category equals it,
      both ignoring case; prices lie within both bounds, bounds included. */
  predicate Matches(w: Where, row: ProductRow) {
    (w.name.Some? ==> Contains(Folded(row.name), Folded(w.name.value))) &&
    (w.category.Some? ==> row.category.Some? && Folded(row.category.value) == Folded(w.category.value)) &&
    (w.price.Some? ==>
      (w.price.value.gte.Some? ==> row.price >= w.price.value.gte.value) &&
      (w.price.value.lte.Some? ==> row.price <= w.price.value.lte.value))
  }

  /** A filter with nothing set lets every row through. */
  lemma NoFilterMatchesAll(row: ProductRow)
    ensures Matches(Where(None, None, None), row)
  {
  }

  lemma {:induction false} ContainsSuffix(hay: string, needle: string, i: nat)
    requires i <= |hay| && needle <= hay[i..]
    ensures Contains(hay, needle)
    decreases i
  {
    if i > 0 {
      assert hay[1..][i - 1..] == hay[i..];
      ContainsSuffix(hay[1..], needle, i - 1);
    } else {
      assert hay[0..] == hay;
    }
  }

  /** The name filter finds the text at any position, in any letter case. */
  lemma NameFilterFindsInfix(before: string, text: string, after: string, category: Option<string>, price: real)
    ensures Matches(Where(Some(text), None, None), ProductRow(before + text + after, category, price))
  {
    var hay := Folded(before + text + after);
    assert Folded(text) <= hay[|before|..];
    ContainsSuffix(hay, Folded(text), |before|);
  }
}
