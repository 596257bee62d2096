/** The earlier product validators: no coercion of price and stock, no
    category, and a query string with only paging, name and price bounds. */
module LegacyProductSchema {
  import opened Wrappers
  import opened Json

  datatype ProductBody = ProductBody(name: Value, description: Value, price: Value, stock: Value)

  datatype CreateProductInput = CreateProductInput(name: string, description: Option<string>, price: real, stock: int)

  function NameIssues(v: Value): seq<Issue> {
    match v
    case Missing => [Required("name")]
    case Str(s) => if |s| >= 1 then [] else [TooSmall("name")]   // "Name is required"
    case _ => [WrongType("name")]
  }

  function DescriptionIssues(v: Value): seq<Issue> {
    if v.Missing? || v.Str? then [] else [WrongType("description")]
  }

  /** z.number().nonnegative(): only a JSON number is accepted. */
  function PriceIssues(v: Value): seq<Issue> {
    match v
    case Missing => [Required("price")]
    case Num(x) => if x >= 0.0 then [] else [TooSmall("price")]   // "Price cannot be negative"
    case _ => [WrongType("price")]
  }

  /** z.number().int().nonnegative(): both checks are reported. */
  function StockIssues(v: Value): seq<Issue> {
    match v
    case Missing => [Required("stock")]
    case Num(x) => (if IsInteger(x) then [] else [NotInteger("stock")]) + (if x >= 0.0 then [] else [TooSmall("stock")])
    case _ => [WrongType("stock")]
  }

  /** createProductSchema.parse: accepted exactly when the name is a non-empty
      string, the description is absent or a string, price is a number >= 0
      and stock a non-negative whole number. Numeric strings are refused. */
  function ValidateCreateProduct(body: ProductBody): (r: Result<CreateProductInput, seq<Issue>>)
    ensures r.Ok? <==>
      body.name.Str? && |body.name.s| >= 1 &&
      (body.description.Missing? || body.description.Str?) &&
      body.price.Num? && body.price.x >= 0.0 &&
      body.stock.Num? && IsInteger(body.stock.x) && body.stock.x >= 0.0
    ensures r.Ok? ==>
      r.value.name == body.name.s && r.value.price == body.price.x &&
      r.value.stock as real == body.stock.x && r.value.stock >= 0 &&
      r.value.description == if body.description.Str? then Some(body.description.s) else None
    ensures r.Err? ==> |r.error| > 0
  {
    var issues := NameIssues(body.name) + DescriptionIssues(body.description) +
                  PriceIssues(body.price) + StockIssues(body.stock);
    if issues != [] then Err(issues)
    else
      Ok(CreateProductInput(body.name.s, if body.description.Str? then Some(body.description.s) else None,
                            body.price.x, body.stock.x.Floor))
  }

  /** Unlike the current validator, a price sent as a string is refused. */
  lemma PriceStringRefused(name: string, price: string)
    requires |name| >= 1
    ensures ValidateCreateProduct(ProductBody(Str(name), Missing, Str(price), Num(1.0))).Err?
  {
  }

  datatype RawQuery = RawQuery(page: Option<string>, limit: Option<string>, name: Option<string>,
                               minPrice: Option<string>, maxPrice: Option<string>)

  datatype ProductQuery = ProductQuery(page: Option<nat>, limit: Option<nat>, name: Option<string>,
                                       minPrice: Option<real>, maxPrice: Option<real>)

  /** The numeric parameters this model reads: empty or plain numerals. */
  predicate NumeralsWellFormed(q: RawQuery) {
    (q.page.Some? && q.page.value != "" ==> IsNumeral(q.page.value)) &&
    (q.limit.Some? && q.limit.value != "" ==> IsNumeral(q.limit.value)) &&
    (q.minPrice.Some? && q.minPrice.value != "" ==> IsDecimal(q.minPrice.value)) &&
    (q.maxPrice.Some? && q.maxPrice.value != "" ==> IsDecimal(q.maxPrice.value))
  }

  /** productQuerySchema.parse: page is 1 and limit 10 when absent or empty,
      price bounds are undefined when absent or empty and parsed otherwise. */
  function ParseQuery(raw: RawQuery): (r: ProductQuery)
    requires NumeralsWellFormed(raw)
    ensures r.page.Some? && r.limit.Some? && r.name == raw.name
    ensures raw.page.None? || raw.page == Some("") ==> r.page == Some(1)
    ensures raw.page.Some? && raw.page.value != "" ==> r.page == Some(NumeralValue(raw.page.value))
    ensures raw.limit.None? || raw.limit == Some("") ==> r.limit == Some(10)
    ensures raw.limit.Some? && raw.limit.value != "" ==> r.limit == Some(NumeralValue(raw.limit.value))
    ensures r.minPrice.None? <==> raw.minPrice.None? || raw.minPrice == Some("")
    ensures r.minPrice.Some? ==> r.minPrice.value == DecimalValue(raw.minPrice.value)
    ensures r.maxPrice.None? <==> raw.maxPrice.None? || raw.maxPrice == Some("")
    ensures r.maxPrice.Some? ==> r.maxPrice.value == DecimalValue(raw.maxPrice.value)
  {
    ProductQuery(
      Some(if raw.page.Some? && raw.page.value != "" then NumeralValue(raw.page.value) else 1),
      Some(if raw.limit.Some? && raw.limit.value != "" then NumeralValue(raw.limit.value) else 10),
      raw.name,
      if raw.minPrice.Some? && raw.minPrice.value != "" then Some(DecimalValue(raw.minPrice.value)) else None,
      if raw.maxPrice.Some? && raw.maxPrice.value != "" then Some(DecimalValue(raw.maxPrice.value)) else None)
  }
}
