/** The earlier order service: placement runs the same checked loop inside one
    transaction but leaves salesCount alone and creates the order as PENDING. */
module LegacyOrderService {
  import opened Wrappers
  import opened Ledger

  /** The line loop of the placement transaction, on the transaction's copy
      of the product table: each line re-reads its product, fails when it is
      missing or short of stock, otherwise decrements stock, snapshots the price and
      adds price times quantity to the total. */
  method RunLines(products: ProductTable, lines: seq<Line>) returns (r: Result<Placement, OrderError>, totalAmount: int)
    ensures r == Checkout(products, lines, false)
    ensures r.Ok? ==> totalAmount == TotalOf(r.value.items)
  {
    var tx := products;
    totalAmount := 0;
    var items: seq<OrderItem> := [];
    var i := 0;
    assert lines[i..] == lines;
    match Checkout(tx, lines, false) {
      case Err(_) =>
      case Ok(p) => assert items + p.items == p.items;
    }
    while i < |lines|
      invariant 0 <= i <= |lines|
      invariant Checkout(products, lines, false) == After(items, Checkout(tx, lines[i..], false))
      invariant totalAmount == TotalOf(items)
    {
      var line := lines[i];
      assert lines[i..][0] == line && lines[i..][1..] == lines[i + 1..];
      CheckoutStep(items, tx, lines[i..], false);
      if line.productId !in tx {
        return Err(ProductNotFound(line.productId)), totalAmount;
      }
      var product := tx[line.productId];
      if product.stock < line.quantity {
        return Err(InsufficientStock(product.name)), totalAmount;
      }
      tx := tx[line.productId := product.(stock := product.stock - line.quantity)];
      var priceAtPurchase := product.price;
      totalAmount := totalAmount + priceAtPurchase * line.quantity;
      var item := OrderItem(line.productId, line.quantity, priceAtPurchase);
      TotalOfSnoc(items, item);
      items := items + [item];
      i := i + 1;
    }
    assert lines[i..] == [] && items + [] == items;
    r := Ok(Placement(tx, items));
  }

  /** Places an order inside one transaction; a thrown error discards the
      stock decrements already made for earlier lines. */
  method CreateOrder(db: Database, userId: UserId, lines: seq<Line>) returns (r: Result<Order, OrderError>)
    requires db.Valid()
    requires PositiveQuantities(lines)
    modifies db
    ensures db.Valid()
    ensures r.Ok? <==> Checkout(old(db.products), lines, false).Ok?
    ensures r.Err? ==>
      r.error == Checkout(old(db.products), lines, false).error &&
      db.products == old(db.products) && db.orders == old(db.orders)
    ensures r.Ok? ==>
      var placed := Checkout(old(db.products), lines, false).value;
      r.value == Order(userId, TotalOf(placed.items), Pending, placed.items) &&
      db.products == placed.products && db.orders == old(db.orders) + [r.value]
  {
    var placed, totalAmount := RunLines(db.products, lines);
    if placed.Err? {
      return Err(placed.error);
    }
    var order := Order(userId, totalAmount, Pending, placed.value.items);
    PlacementKeepsConsistent(db.products, db.orders, lines, false, order);
    db.products := placed.value.products;
    db.orders := db.orders + [order];
    r := Ok(order);
  }
}
