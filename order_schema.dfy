/** The validator for order placement requests: a non-empty list of lines,
    each naming a product by UUID and asking for a positive whole quantity.
    Duplicate product ids are allowed. */
module OrderSchema {
  import opened Wrappers
  import opened Json
  import Ledger

  datatype RawLine = RawLine(productId: Value, quantity: Value)

  /** The request body; `items` is None when the key is absent or not an array. */
  datatype RawOrder = RawOrder(items: Option<seq<RawLine>>)

  /** The validation issues reported, each with the index of its line. */
  datatype Issue =
    | ItemsNotArray                // items missing or not an array
    | TooFewItems                  // "Order must have at least one item"
    | ProductIdNotString(index: nat)
    | InvalidUuid(index: nat)
    | QuantityNotNumber(index: nat)
    | QuantityNotInteger(index: nat)
    | QuantityNotPositive(index: nat)

  predicate IsHex(c: char) {
    IsDigit(c) || 'a' <= c <= 'f' || 'A' <= c <= 'F'
  }

  /** The 8-4-4-4-12 hexadecimal UUID shape, in either letter case. */
  predicate IsUuid(s: string) {
    |s| == 36 &&
    forall k :: 0 <= k < 36 ==>
      if k == 8 || k == 13 || k == 18 || k == 23 then s[k] == '-' else IsHex(s[k])
  }

  /** A line the validator accepts. */
  predicate LineValid(line: RawLine) {
    line.productId.Str? && IsUuid(line.productId.s) &&
    line.quantity.Num? && IsInteger(line.quantity.x) && line.quantity.x > 0.0
  }

  /** The issues of one line: a wrong type stops the checks of that field; an
      integer check and a positivity check on a number are both reported. */
  function LineIssues(line: RawLine, index: nat): (issues: seq<Issue>)
    ensures issues == [] <==> LineValid(line)
  {
    var id :=
      if !line.productId.Str? then [ProductIdNotString(index)]
      else if !IsUuid(line.productId.s) then [InvalidUuid(index)]
      else [];
    var quantity :=
      if !line.quantity.Num? then [QuantityNotNumber(index)]
      else (if IsInteger(line.quantity.x) then [] else [QuantityNotInteger(index)]) +
           (if line.quantity.x > 0.0 then [] else [QuantityNotPositive(index)]);
    id + quantity
  }

  /** The issues of lines[from..], in line order. */
  function LinesIssues(lines: seq<RawLine>, from: nat): (issues: seq<Issue>)
    requires from <= |lines|
    ensures issues == [] <==> forall k :: from <= k < |lines| ==> LineValid(lines[k])
    decreases |lines| - from
  {
    if from == |lines| then [] else LineIssues(lines[from], from) + LinesIssues(lines, from + 1)
  }

  /** The validated line, with the quantity as a whole number. */
  function ToLine(line: RawLine): Ledger.Line
    requires LineValid(line)
  {
    Ledger.Line(line.productId.s, line.quantity.x.Floor)
  }

  function ToLines(lines: seq<RawLine>): (r: seq<Ledger.Line>)
    requires forall k :: 0 <= k < |lines| ==> LineValid(lines[k])
    ensures |r| == |lines| && forall k :: 0 <= k < |lines| ==> r[k] == ToLine(lines[k])
  {
    if lines == [] then [] else [ToLine(lines[0])] + ToLines(lines[1..])
  }

  /** createOrderSchema.parse: accepts exactly a non-empty array of valid
      lines and returns them in order with quantities as positive integers. */
  function ValidateOrder(raw: RawOrder): (r: Result<seq<Ledger.Line>, seq<Issue>>)
    ensures r.Ok? <==>
      raw.items.Some? && |raw.items.value| >= 1 &&
      forall k :: 0 <= k < |raw.items.value| ==> LineValid(raw.items.value[k])
    ensures r.Ok? ==>
      |r.value| == |raw.items.value| >= 1 &&
      forall k :: 0 <= k < |r.value| ==>
        r.value[k].productId == raw.items.value[k].productId.s && IsUuid(r.value[k].productId) &&
        r.value[k].quantity as real == raw.items.value[k].quantity.x && r.value[k].quantity > 0
    ensures r.Err? ==> |r.error| > 0
    ensures raw.items == Some([]) ==> r == Err([TooFewItems])
  {
    match raw.items
    case None => Err([ItemsNotArray])
    case Some(lines) =>
      var issues := LinesIssues(lines, 0) + (if |lines| < 1 then [TooFewItems] else []);
      assert lines == [] ==> issues == [TooFewItems];
      if issues == [] then Ok(ToLines(lines)) else Err(issues)
  }

  /** What the validator accepts is what order placement expects of its callers. */
  lemma AcceptedLinesArePositive(raw: RawOrder)
    requires ValidateOrder(raw).Ok?
    ensures Ledger.PositiveQuantities(ValidateOrder(raw).value)
  {
  }

  /** The validator does not require distinct product ids: a valid line may
      appear twice in one order. */
  lemma DuplicateLinesAccepted(line: RawLine)
    requires LineValid(line)
    ensures var r := ValidateOrder(RawOrder(Some([line, line])));
      r.Ok? && r.value[0] == r.value[1]
  {
  }
}
