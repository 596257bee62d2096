/** The current product validators: the body for creating a product, with
    price and stock coerced to numbers, and the listing query string with its
    defaults. */
module ProductSchema {
  import opened Wrappers
  import opened Json

  datatype ProductBody = ProductBody(name: Value, description: Value, price: Value, stock: Value, category: Value)

  datatype CreateProductInput =
    CreateProductInput(name: string, description: Option<string>, price: real, stock: int, category: Option<string>)

  /** z.string().optional(): absent or a string. */
  function OptionalString(v: Value, field: string): (r: Result<Option<string>, Issue>)
    ensures r.Ok? <==> v.Missing? || v.Str?
    ensures r.Ok? ==> r.value == if v.Str? then Some(v.s) else None
  {
    match v
    case Missing => Ok(None)
    case Str(s) => Ok(Some(s))
    case _ => Err(WrongType(field))
  }

  function NameIssues(v: Value): seq<Issue> {
    match v
    case Missing => [Required("name")]
    case Str(s) => if |s| >= 1 then [] else [TooSmall("name")]   // "Name is required"
    case _ => [WrongType("name")]
  }

  /** z.coerce.number().nonnegative(): "Price cannot be negative". */
  function PriceIssues(v: Value): seq<Issue> {
    match ToNumber(v)
    case None => [WrongType("price")]
    case Some(x) => if x >= 0.0 then [] else [TooSmall("price")]
  }

  /** z.coerce.number().int().nonnegative(): both checks are reported. */
  function StockIssues(v: Value): seq<Issue> {
    match ToNumber(v)
    case None => [WrongType("stock")]
    case Some(x) =>
      (if IsInteger(x) then [] else [NotInteger("stock")]) + (if x >= 0.0 then [] else [TooSmall("stock")])
  }

  function OptionalIssues(v: Value, field: string): seq<Issue> {
    if OptionalString(v, field).Ok? then [] else [OptionalString(v, field).error]
  }

  function CreateIssues(body: ProductBody): seq<Issue> {
    NameIssues(body.name) + OptionalIssues(body.description, "description") + PriceIssues(body.price) +
    StockIssues(body.stock) + OptionalIssues(body.category, "category")
  }

  /** createProductSchema.parse. A body is accepted exactly when the name is a
      non-empty string, description and category are absent or strings, and
      price and stock convert to numbers with price >= 0 and stock a
      non-negative whole number; numeric strings such as "12.50" are
      converted. */
  function ValidateCreateProduct(body: ProductBody): (r: Result<CreateProductInput, seq<Issue>>)
    ensures r.Ok? <==>
      body.name.Str? && |body.name.s| >= 1 &&
      (body.description.Missing? || body.description.Str?) &&
      (body.category.Missing? || body.category.Str?) &&
      ToNumber(body.price).Some? && ToNumber(body.price).value >= 0.0 &&
      ToNumber(body.stock).Some? && IsInteger(ToNumber(body.stock).value) && ToNumber(body.stock).value >= 0.0
    ensures r.Ok? ==>
      r.value.name == body.name.s && |r.value.name| >= 1 &&
      r.value.price == ToNumber(body.price).value && r.value.price >= 0.0 &&
      r.value.stock as real == ToNumber(body.stock).value && r.value.stock >= 0 &&
      r.value.description == (if body.description.Str? then Some(body.description.s) else None) &&
      r.value.category == (if body.category.Str? then Some(body.category.s) else None)
    ensures r.Err? ==> |r.error| > 0
  {
    var issues := CreateIssues(body);
    if issues != [] then Err(issues)
    else
      var stock := ToNumber(body.stock).value;
      Ok(CreateProductInput(body.name.s, OptionalString(body.description, "description").value,
                            ToNumber(body.price).value, stock.Floor, OptionalString(body.category, "category").value))
  }

  /** description and category may be left out. */
  lemma OptionalFieldsMayBeOmitted(name: string, price: real, stock: nat)
    requires |name| >= 1 && price >= 0.0
    ensures var r := ValidateCreateProduct(ProductBody(Str(name), Missing, Num(price), Num(stock as real), Missing));
      r.Ok? && r.value.description.None? && r.value.category.None?
  {
  }

  /** Form fields arrive as strings and are converted: "12.50" is 12.5. */
  lemma PriceStringIsCoerced()
    ensures var r := ValidateCreateProduct(ProductBody(Str("Mug"), Missing, Str("12.50"), Str("3"), Missing));
      r.Ok? && r.value.price == 12.5 && r.value.stock == 3
  {
    TwelveFifty();
    assert NumeralValue("3") == 3;
    NumeralIsDecimal("3");
  }

  lemma TwelveFifty()
    ensures IsDecimal("12.50") && DecimalValue("12.50") == 12.5
  {
    assert DotAt("12.50") == 2;
    assert "12.50"[..2] == "12" && "12.50"[3..] == "50";
    assert NumeralValue("50") == 50 && NumeralValue("12") == 12;
  }

  // ---------------------------------------------------------------------------
  // The listing query string

  datatype SortBy = PriceAscending | PriceDescending | Newest | Oldest

  /** The query string as received; every parameter is absent or a string. */
  datatype RawQuery = RawQuery(page: Option<string>, limit: Option<string>, name: Option<string>,
                               category: Option<string>, minPrice: Option<string>, maxPrice: Option<string>,
                               featured: Option<string>, sortBy: Option<string>)

  /** The parsed query handed to the listing. */
  datatype ProductQuery = ProductQuery(page: Option<nat>, limit: Option<nat>, name: Option<string>,
                                       category: Option<string>, minPrice: Option<real>, maxPrice: Option<real>,
                                       featured: bool, sortBy: Option<SortBy>)

  /** The numeric parameters this model reads: empty or plain numerals. */
  predicate NumeralsWellFormed(q: RawQuery) {
    (q.page.Some? && q.page.value != "" ==> IsNumeral(q.page.value)) &&
    (q.limit.Some? && q.limit.value != "" ==> IsNumeral(q.limit.value)) &&
    (q.minPrice.Some? && q.minPrice.value != "" ==> IsDecimal(q.minPrice.value)) &&
    (q.maxPrice.Some? && q.maxPrice.value != "" ==> IsDecimal(q.maxPrice.value))
  }

  /** `val ? parseInt(val) : fallback`: an absent or empty string takes the fallback. */
  function IntOr(v: Option<string>, fallback: nat): (n: nat)
    requires v.Some? && v.value != "" ==> IsNumeral(v.value)
    ensures v.None? || v.value == "" ==> n == fallback
    ensures v.Some? && v.value != "" ==> n == NumeralValue(v.value)
  {
    if v.Some? && v.value != "" then NumeralValue(v.value) else fallback
  }

  /** `val ? parseFloat(val) : undefined`. */
  function DecimalOrNone(v: Option<string>): (r: Option<real>)
    requires v.Some? && v.value != "" ==> IsDecimal(v.value)
    ensures r.None? <==> v.None? || v.value == ""
    ensures r.Some? ==> r.value == DecimalValue(v.value)
  {
    if v.Some? && v.value != "" then Some(DecimalValue(v.value)) else None
  }

  /** The query-string spelling of each ordering. */
  function SortByName(s: SortBy): string {
    match s
    case PriceAscending => "price_asc"
    case PriceDescending => "price_desc"
    case Newest => "newest"
    case Oldest => "oldest"
  }

  /** The sortBy enum with its default: a given value is accepted exactly when
      it spells one of the orderings, and then yields that ordering. */
  function ParseSortBy(v: Option<string>): (r: Result<SortBy, Issue>)
    ensures v.None? ==> r == Ok(Newest)
    ensures r.Ok? <==> v.None? || v.value in {"price_asc", "price_desc", "newest", "oldest"}
    ensures r.Ok? && v.Some? ==> SortByName(r.value) == v.value
  {
    match v
    case None => Ok(Newest)
    case Some(s) =>
      if s == "price_asc" then Ok(PriceAscending)
      else if s == "price_desc" then Ok(PriceDescending)
      else if s == "newest" then Ok(Newest)
      else if s == "oldest" then Ok(Oldest)
      else Err(InvalidEnum("sortBy"))
  }

  /** productQuerySchema.parse. page is 1 and limit 10 when absent or empty,
      price bounds are undefined when absent or empty, featured holds only for
      the exact string "true", and sortBy is one of four values, "newest" by
      default; any other sortBy is rejected. */
  function ParseQuery(raw: RawQuery): (r: Result<ProductQuery, Issue>)
    requires NumeralsWellFormed(raw)
    ensures r.Ok? <==> ParseSortBy(raw.sortBy).Ok?
    ensures r.Ok? ==>
      r.value.page == Some(IntOr(raw.page, 1)) && r.value.limit == Some(IntOr(raw.limit, 10)) &&
      r.value.name == raw.name && r.value.category == raw.category &&
      r.value.minPrice == DecimalOrNone(raw.minPrice) && r.value.maxPrice == DecimalOrNone(raw.maxPrice) &&
      (r.value.featured <==> raw.featured == Some("true")) &&
      r.value.sortBy == Some(ParseSortBy(raw.sortBy).value)
  {
    match ParseSortBy(raw.sortBy)
    case Err(e) => Err(e)
    case Ok(sortBy) =>
      Ok(ProductQuery(Some(IntOr(raw.page, 1)), Some(IntOr(raw.limit, 10)), raw.name, raw.category,
                      DecimalOrNone(raw.minPrice), DecimalOrNone(raw.maxPrice),
                      raw.featured == Some("true"), Some(sortBy)))
  }

  /** An empty query string reads as page 1 of 10 newest products, unfiltered. */
  lemma EmptyQueryDefaults()
    ensures ParseQuery(RawQuery(None, None, None, None, None, None, None, None)) ==
      Ok(ProductQuery(Some(1), Some(10), None, None, None, None, false, Some(Newest)))
  {
  }
}
