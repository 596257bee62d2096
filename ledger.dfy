/** The order ledger: the product table, the order table and the pure
    specification of what one order placement and one cancellation do to them.
    Both versions of the order service work on this one database. */
module Ledger {
  import opened Wrappers

  type ProductId = string
  type UserId = string
  /** An order's id is its position in the order table, which only grows. */
  type OrderId = nat

  /** A product row. Money is counted in integer cents. */
  datatype Product = Product(name: string, price: int, stock: int, salesCount: int)

  type ProductTable = map<ProductId, Product>

  datatype OrderStatus = Pending | Paid | Preparing | Shipped | Delivered | Cancelled

  /** One requested line of an order (already validated input). */
  datatype Line = Line(productId: ProductId, quantity: int)

  /** A stored order item; priceAtPurchase is the price read when it was created. */
  datatype OrderItem = OrderItem(productId: ProductId, quantity: int, priceAtPurchase: int)

  datatype Order = Order(userId: UserId, totalAmount: int, status: OrderStatus, items: seq<OrderItem>)

  /** The errors the placement transaction throws. */
  datatype OrderError =
    | ProductNotFound(productId: ProductId)   // "Product with ID … not found"
    | InsufficientStock(productName: string)  // "Insufficient stock for product: …"

  /** What a successful run of the line loop leaves behind: the transaction's
      view of the product table and the items to create, in line order. */
  datatype Placement = Placement(products: ProductTable, items: seq<OrderItem>)

  predicate PositiveQuantities(lines: seq<Line>) {
    forall k :: 0 <= k < |lines| ==> lines[k].quantity > 0
  }

  /** Total quantity requested for product `id` over all lines. */
  function QuantityFor(lines: seq<Line>, id: ProductId): int {
    if lines == [] then 0
    else (if lines[0].productId == id then lines[0].quantity else 0) + QuantityFor(lines[1..], id)
  }

  /** The lines an order's items stand for. */
  function LinesOf(items: seq<OrderItem>): (r: seq<Line>)
    ensures |r| == |items|
    ensures forall k :: 0 <= k < |items| ==> r[k] == Line(items[k].productId, items[k].quantity)
  {
    if items == [] then [] else [Line(items[0].productId, items[0].quantity)] + LinesOf(items[1..])
  }

  /** Sum of priceAtPurchase * quantity over the items, in the order they were pushed. */
  function TotalOf(items: seq<OrderItem>): int {
    if items == [] then 0
    else TotalOf(items[..|items| - 1]) + items[|items| - 1].priceAtPurchase * items[|items| - 1].quantity
  }

  /** Value of the lines at the prices of the table (0 for an unknown product). */
  function ValueAt(products: ProductTable, lines: seq<Line>): int {
    if lines == [] then 0
    else (if lines[0].productId in products then products[lines[0].productId].price * lines[0].quantity else 0)
         + ValueAt(products, lines[1..])
  }

  /** One iteration of the line loop: re-read the product, check it exists and
      has enough stock, decrement stock (and, when `countSales`, increment
      salesCount) and snapshot the price. */
  function Take(products: ProductTable, line: Line, countSales: bool): (r: Result<(ProductTable, OrderItem), OrderError>)
    ensures line.productId !in products ==> r == Err(ProductNotFound(line.productId))
    ensures line.productId in products && products[line.productId].stock < line.quantity ==>
      r == Err(InsufficientStock(products[line.productId].name))
    ensures r.Ok? ==>
      r.value.0.Keys == products.Keys &&
      r.value.0[line.productId].stock == products[line.productId].stock - line.quantity >= 0 &&
      r.value.1 == OrderItem(line.productId, line.quantity, products[line.productId].price)
  {
    if line.productId !in products then Err(ProductNotFound(line.productId))
    else
      var p := products[line.productId];
      if p.stock < line.quantity then Err(InsufficientStock(p.name))
      else
        var sold := if countSales then p.salesCount + line.quantity else p.salesCount;
        Ok((products[line.productId := p.(stock := p.stock - line.quantity, salesCount := sold)],
            OrderItem(line.productId, line.quantity, p.price)))
  }

  /** The whole line loop, first line first; the first failing line decides the error. */
  function Checkout(products: ProductTable, lines: seq<Line>, countSales: bool): (r: Result<Placement, OrderError>)
    ensures r.Ok? ==> r.value.products.Keys == products.Keys && |r.value.items| == |lines|
    decreases |lines|
  {
    if lines == [] then Ok(Placement(products, []))
    else
      match Take(products, lines[0], countSales)
      case Err(e) => Err(e)
      case Ok((next, item)) =>
        match Checkout(next, lines[1..], countSales)
        case Err(e) => Err(e)
        case Ok(rest) => Ok(Placement(rest.products, [item] + rest.items))
  }

  /** Prefixes already created items to the outcome of the remaining lines. */
  function After(done: seq<OrderItem>, rest: Result<Placement, OrderError>): Result<Placement, OrderError> {
    match rest
    case Err(e) => Err(e)
    case Ok(p) => Ok(Placement(p.products, done + p.items))
  }

  /** One more passed line moves its item from the outcome of the remaining
      lines to the items already created. */
  lemma CheckoutStep(done: seq<OrderItem>, products: ProductTable, rest: seq<Line>, countSales: bool)
    requires rest != []
    ensures var step := Take(products, rest[0], countSales);
      step.Err? ==> After(done, Checkout(products, rest, countSales)) == Err(step.error)
    ensures var step := Take(products, rest[0], countSales);
      step.Ok? ==>
        After(done, Checkout(products, rest, countSales)) ==
        After(done + [step.value.1], Checkout(step.value.0, rest[1..], countSales))
  {
    var step := Take(products, rest[0], countSales);
    if step.Ok? {
      assert forall more: seq<OrderItem> :: done + ([step.value.1] + more) == (done + [step.value.1]) + more;
    }
  }

  lemma TotalOfSnoc(items: seq<OrderItem>, item: OrderItem)
    ensures TotalOf(items + [item]) == TotalOf(items) + item.priceAtPurchase * item.quantity
  {
    assert (items + [item])[..|items|] == items;
  }

  /** Committing a successful placement, with its new order appended, keeps
      the database invariant. */
  lemma PlacementKeepsConsistent(products: ProductTable, orders: seq<Order>, lines: seq<Line>, countSales: bool, order: Order)
    requires Consistent(products, orders)
    requires PositiveQuantities(lines)
    requires Checkout(products, lines, countSales).Ok?
    requires order.items == Checkout(products, lines, countSales).value.items
    requires order.totalAmount == TotalOf(order.items)
    ensures Consistent(Checkout(products, lines, countSales).value.products, orders + [order])
  {
    CheckoutKeepsStockNonNegative(products, lines, countSales);
    CheckoutItems(products, lines, countSales);
    CheckoutEffect(products, lines, countSales);
  }

  /** Cancellation's stock return: add each item's quantity back to its product. */
  function Restock(products: ProductTable, items: seq<OrderItem>): (r: ProductTable)
    requires forall k :: 0 <= k < |items| ==> items[k].productId in products
    ensures r.Keys == products.Keys
    decreases |items|
  {
    if items == [] then products
    else
      var p := products[items[0].productId];
      Restock(products[items[0].productId := p.(stock := p.stock + items[0].quantity)], items[1..])
  }

  /** The database invariant: no stock is negative, every order's total is the
      sum of its items' price times quantity, and every stored item names an
      existing product and has a positive quantity. */
  ghost predicate Consistent(products: ProductTable, orders: seq<Order>) {
    (forall id :: id in products ==> products[id].stock >= 0) &&
    (forall o :: o in orders ==> o.totalAmount == TotalOf(o.items)) &&
    (forall o, k :: o in orders && 0 <= k < |o.items| ==>
       o.items[k].productId in products && o.items[k].quantity > 0)
  }

  /** The database: the product table and the order table, in creation order. */
  class Database {
    var products: ProductTable
    var orders: seq<Order>

    ghost predicate Valid()
      reads this
    {
      Consistent(products, orders)
    }

    constructor (initial: ProductTable)
      requires forall id :: id in initial ==> initial[id].stock >= 0
      ensures Valid() && products == initial && orders == []
    {
      products := initial;
      orders := [];
    }
  }

  // ---------------------------------------------------------------------------
  // Properties of the specification

  lemma {:induction false} QuantityForNonNegative(lines: seq<Line>, id: ProductId)
    requires PositiveQuantities(lines)
    ensures QuantityFor(lines, id) >= 0
    ensures (forall k :: 0 <= k < |lines| ==> lines[k].productId != id) ==> QuantityFor(lines, id) == 0
    decreases |lines|
  {
    if lines != [] {
      QuantityForNonNegative(lines[1..], id);
    }
  }

  /** Placing an order succeeds exactly when every requested product exists and
      its stock covers the total quantity requested for it across all lines:
      repeated lines are checked against the already reduced stock. */
  lemma {:induction false} CheckoutSucceedsIff(products: ProductTable, lines: seq<Line>, countSales: bool)
    requires PositiveQuantities(lines)
    ensures Checkout(products, lines, countSales).Ok? <==>
      forall k :: 0 <= k < |lines| ==>
        lines[k].productId in products && QuantityFor(lines, lines[k].productId) <= products[lines[k].productId].stock
    decreases |lines|
  {
    if lines != [] {
      var line := lines[0];
      var tail := lines[1..];
      assert PositiveQuantities(tail);
      QuantityForNonNegative(tail, line.productId);
      match Take(products, line, countSales)
      case Err(e) =>
      case Ok((next, item)) =>
        CheckoutSucceedsIff(next, tail, countSales);
        var rest := forall k :: 0 <= k < |tail| ==>
          tail[k].productId in next && QuantityFor(tail, tail[k].productId) <= next[tail[k].productId].stock;
        if rest {
          forall k | 0 <= k < |lines|
            ensures lines[k].productId in products && QuantityFor(lines, lines[k].productId) <= products[lines[k].productId].stock
          {
            if k > 0 {
              assert lines[k] == tail[k - 1];
            } else if j :| 0 <= j < |tail| && tail[j].productId == line.productId {
              assert QuantityFor(tail, tail[j].productId) <= next[tail[j].productId].stock;
            }
          }
        } else {
          var k :| 0 <= k < |tail| && !(tail[k].productId in next && QuantityFor(tail, tail[k].productId) <= next[tail[k].productId].stock);
          assert lines[k + 1] == tail[k];
        }
    }
  }

  /** Placement fails at line k with error e: every line before k passes, and
      either line k names a product that does not exist and e is "not found"
      for that id, or the product exists but its stock does not cover the
      quantity requested for it by lines 0..k and e is "insufficient stock"
      with the product's name. */
  predicate FailsAt(products: ProductTable, lines: seq<Line>, countSales: bool, k: nat, e: OrderError)
    requires k < |lines|
  {
    var id := lines[k].productId;
    Checkout(products, lines[..k], countSales).Ok? &&
    ((id !in products && e == ProductNotFound(id)) ||
     (id in products && QuantityFor(lines[..k + 1], id) > products[id].stock &&
      e == InsufficientStock(products[id].name)))
  }

  /** A failure in the lines after a passed first line is a failure one line
      later in the whole order. */
  lemma FailsAtShift(products: ProductTable, lines: seq<Line>, countSales: bool, j: nat, e: OrderError)
    requires lines != [] && Take(products, lines[0], countSales).Ok?
    requires j < |lines| - 1 && FailsAt(Take(products, lines[0], countSales).value.0, lines[1..], countSales, j, e)
    ensures FailsAt(products, lines, countSales, j + 1, e)
  {
    var (next, item) := Take(products, lines[0], countSales).value;
    var tail := lines[1..];
    assert lines[j + 1] == tail[j];
    assert lines[..j + 1][0] == lines[0] && lines[..j + 1][1..] == tail[..j];
    assert lines[..j + 2][0] == lines[0] && lines[..j + 2][1..] == tail[..j + 1];
  }

  /** A failed placement fails at some line, with the error that line raises. */
  lemma {:induction false} CheckoutFailure(products: ProductTable, lines: seq<Line>, countSales: bool)
    requires Checkout(products, lines, countSales).Err?
    ensures exists k :: 0 <= k < |lines| && FailsAt(products, lines, countSales, k, Checkout(products, lines, countSales).error)
    decreases |lines|
  {
    var e := Checkout(products, lines, countSales).error;
    var step := Take(products, lines[0], countSales);
    if step.Err? {
      assert lines[..0] == [];
      assert lines[..1] == [lines[0]] && [lines[0]][1..] == [];
      assert FailsAt(products, lines, countSales, 0, e);
    } else {
      CheckoutFailure(step.value.0, lines[1..], countSales);
      var j :| 0 <= j < |lines[1..]| && FailsAt(step.value.0, lines[1..], countSales, j, e);
      FailsAtShift(products, lines, countSales, j, e);
    }
  }

  /** After a successful placement every product has lost exactly the total
      quantity requested for it, salesCount has grown by the same amount when
      counted, names and prices are untouched and no row appears or vanishes.
      Products not named by any line are therefore unchanged. */
  lemma {:induction false} CheckoutEffect(products: ProductTable, lines: seq<Line>, countSales: bool)
    requires Checkout(products, lines, countSales).Ok?
    ensures var after := Checkout(products, lines, countSales).value.products;
      after.Keys == products.Keys &&
      forall id :: id in products ==>
        after[id] == products[id].(stock := products[id].stock - QuantityFor(lines, id),
                                   salesCount := products[id].salesCount + (if countSales then QuantityFor(lines, id) else 0))
    decreases |lines|
  {
    if lines != [] {
      var (next, item) := Take(products, lines[0], countSales).value;
      CheckoutEffect(next, lines[1..], countSales);
    }
  }

  /** A product that no line names comes out of a placement exactly as it went in. */
  lemma UnnamedProductsUnchanged(products: ProductTable, lines: seq<Line>, countSales: bool, id: ProductId)
    requires PositiveQuantities(lines)
    requires Checkout(products, lines, countSales).Ok?
    requires id in products && forall k :: 0 <= k < |lines| ==> lines[k].productId != id
    ensures id in Checkout(products, lines, countSales).value.products
    ensures Checkout(products, lines, countSales).value.products[id] == products[id]
  {
    CheckoutEffect(products, lines, countSales);
    QuantityForNonNegative(lines, id);
  }

  /** The created items mirror the lines one for one, in input order, and each
      carries the price its product had when the line was processed (prices are
      never changed by the transaction, so that is the price in the table). */
  lemma {:induction false} CheckoutItems(products: ProductTable, lines: seq<Line>, countSales: bool)
    requires Checkout(products, lines, countSales).Ok?
    ensures var items := Checkout(products, lines, countSales).value.items;
      |items| == |lines| &&
      forall k :: 0 <= k < |lines| ==>
        lines[k].productId in products &&
        items[k] == OrderItem(lines[k].productId, lines[k].quantity, products[lines[k].productId].price)
    decreases |lines|
  {
    if lines != [] {
      var (next, item) := Take(products, lines[0], countSales).value;
      CheckoutItems(next, lines[1..], countSales);
      var items := Checkout(products, lines, countSales).value.items;
      forall k | 1 <= k < |lines|
        ensures lines[k].productId in products &&
          items[k] == OrderItem(lines[k].productId, lines[k].quantity, products[lines[k].productId].price)
      {
        assert lines[k] == lines[1..][k - 1];
      }
    }
  }

  /** No overselling: a successful placement never drives a stock below zero. */
  lemma {:induction false} CheckoutKeepsStockNonNegative(products: ProductTable, lines: seq<Line>, countSales: bool)
    requires forall id :: id in products ==> products[id].stock >= 0
    requires Checkout(products, lines, countSales).Ok?
    ensures var after := Checkout(products, lines, countSales).value.products;
      forall id :: id in after ==> after[id].stock >= 0
    decreases |lines|
  {
    if lines != [] {
      var (next, item) := Take(products, lines[0], countSales).value;
      CheckoutKeepsStockNonNegative(next, lines[1..], countSales);
    }
  }

  lemma {:induction false} TotalOfCons(item: OrderItem, items: seq<OrderItem>)
    ensures TotalOf([item] + items) == item.priceAtPurchase * item.quantity + TotalOf(items)
    decreases |items|
  {
    if items != [] {
      var init := items[..|items| - 1];
      assert ([item] + items)[..|items|] == [item] + init;
      TotalOfCons(item, init);
    }
  }

  /** The order total equals the value of the requested lines at the prices in
      the table when the order was placed. */
  lemma {:induction false} CheckoutTotal(products: ProductTable, lines: seq<Line>, countSales: bool)
    requires Checkout(products, lines, countSales).Ok?
    ensures TotalOf(Checkout(products, lines, countSales).value.items) == ValueAt(products, lines)
    decreases |lines|
  {
    if lines != [] {
      var (next, item) := Take(products, lines[0], countSales).value;
      var rest := Checkout(next, lines[1..], countSales).value;
      CheckoutTotal(next, lines[1..], countSales);
      TotalOfCons(item, rest.items);
      ValueAtSamePrices(products, next, lines[1..]);
    }
  }

  lemma {:induction false} ValueAtSamePrices(a: ProductTable, b: ProductTable, lines: seq<Line>)
    requires a.Keys == b.Keys
    requires forall id :: id in a ==> a[id].price == b[id].price
    ensures ValueAt(a, lines) == ValueAt(b, lines)
    decreases |lines|
  {
    if lines != [] {
      ValueAtSamePrices(a, b, lines[1..]);
    }
  }

  /** Returning an order's stock adds back, per product, the total quantity of
      its items for that product, and changes nothing else. */
  lemma {:induction false} RestockEffect(products: ProductTable, items: seq<OrderItem>)
    requires forall k :: 0 <= k < |items| ==> items[k].productId in products
    ensures var after := Restock(products, items);
      after.Keys == products.Keys &&
      forall id :: id in products ==>
        after[id] == products[id].(stock := products[id].stock + QuantityFor(LinesOf(items), id))
    decreases |items|
  {
    if items != [] {
      var p := products[items[0].productId];
      var next := products[items[0].productId := p.(stock := p.stock + items[0].quantity)];
      RestockEffect(next, items[1..]);
      assert LinesOf(items)[1..] == LinesOf(items[1..]);
    }
  }

  /** Cancelling right after placing returns every product's stock to what it
      was. salesCount is not rolled back. */
  lemma CancelUndoesPlacement(products: ProductTable, lines: seq<Line>, countSales: bool)
    requires Checkout(products, lines, countSales).Ok?
    ensures var pl := Checkout(products, lines, countSales).value;
      (forall k :: 0 <= k < |pl.items| ==> pl.items[k].productId in pl.products) &&
      var back := Restock(pl.products, pl.items);
      back.Keys == products.Keys &&
      forall id :: id in products ==>
        back[id] == products[id].(salesCount := products[id].salesCount + (if countSales then QuantityFor(lines, id) else 0))
  {
    var pl := Checkout(products, lines, countSales).value;
    CheckoutEffect(products, lines, countSales);
    CheckoutItems(products, lines, countSales);
    assert LinesOf(pl.items) == lines;
    RestockEffect(pl.products, pl.items);
  }

  /** Nothing stops an order's items from being returned twice: applying the
      stock return a second time adds the quantities again. */
  lemma RestockTwice(products: ProductTable, items: seq<OrderItem>)
    requires forall k :: 0 <= k < |items| ==> items[k].productId in products
    ensures var once := Restock(products, items);
      (forall k :: 0 <= k < |items| ==> items[k].productId in once) &&
      var twice := Restock(once, items);
      twice.Keys == products.Keys &&
      forall id :: id in products ==>
        twice[id].stock == products[id].stock + 2 * QuantityFor(LinesOf(items), id)
  {
    RestockEffect(products, items);
    RestockEffect(Restock(products, items), items);
  }
}
