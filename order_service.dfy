/** The current order service: placement marks the order PAID and counts
    sales; orders can be cancelled, have their status overwritten, and be
    listed per user or for the admin view. Each call is one atomic step on the
    database. */
module OrderService {
  import opened Wrappers
  import opened Ledger

  /** The errors cancellation throws before touching anything. */
  datatype CancelError =
    | OrderNotFound   // "Order not found"
    | Unauthorized    // "Unauthorized"
    | NotCancellable  // "Order cannot be cancelled at this stage"

  /** The update of a missing order fails in the database. */
  datatype UpdateError = RecordNotFound

  /** An order as returned by the list queries, with its id. */
  datatype OrderRecord = OrderRecord(id: OrderId, order: Order)

  /** The line loop of the placement transaction, on the transaction's copy
      of the product table: each line re-reads its product, fails when it is
      missing or short of stock, otherwise decrements stock and counts the sale, snapshots the price and
      adds price times quantity to the total. */
  method RunLines(products: ProductTable, lines: seq<Line>) returns (r: Result<Placement, OrderError>, totalAmount: int)
    ensures r == Checkout(products, lines, true)
    ensures r.Ok? ==> totalAmount == TotalOf(r.value.items)
  {
    var tx := products;
    totalAmount := 0;
    var items: seq<OrderItem> := [];
    var i := 0;
    assert lines[i..] == lines;
    match Checkout(tx, lines, true) {
      case Err(_) =>
      case Ok(p) => assert items + p.items == p.items;
    }
    while i < |lines|
      invariant 0 <= i <= |lines|
      invariant Checkout(products, lines, true) == After(items, Checkout(tx, lines[i..], true))
      invariant totalAmount == TotalOf(items)
    {
      var line := lines[i];
      assert lines[i..][0] == line && lines[i..][1..] == lines[i + 1..];
      CheckoutStep(items, tx, lines[i..], true);
      if line.productId !in tx {
        return Err(ProductNotFound(line.productId)), totalAmount;
      }
      var product := tx[line.productId];
      if product.stock < line.quantity {
        return Err(InsufficientStock(product.name)), totalAmount;
      }
      tx := tx[line.productId := product.(stock := product.stock - line.quantity,
                                          salesCount := product.salesCount + line.quantity)];
      var priceAtPurchase := product.price;
      totalAmount := totalAmount + priceAtPurchase * line.quantity;
      var item := OrderItem(line.productId, line.quantity, priceAtPurchase);
      TotalOfSnoc(items, item);
      items := items + [item];
      i := i + 1;
    }
    assert lines[i..] == [] && items + [] == items;
    r := Ok(Placement(tx, items));
  }

  /** Places an order inside one transaction. The loop works on the
      transaction's copy of the product table; the copy and the new order are
      committed only when every line has passed, so a thrown error leaves the
      database as it was. */
  method CreateOrder(db: Database, userId: UserId, lines: seq<Line>) returns (r: Result<Order, OrderError>)
    requires db.Valid()
    requires PositiveQuantities(lines)
    modifies db
    ensures db.Valid()
    ensures r.Ok? <==> Checkout(old(db.products), lines, true).Ok?
    ensures r.Err? ==>
      r.error == Checkout(old(db.products), lines, true).error &&
      db.products == old(db.products) && db.orders == old(db.orders)
    ensures r.Ok? ==>
      var placed := Checkout(old(db.products), lines, true).value;
      r.value == Order(userId, TotalOf(placed.items), Paid, placed.items) &&
      db.products == placed.products && db.orders == old(db.orders) + [r.value]
  {
    var placed, totalAmount := RunLines(db.products, lines);
    if placed.Err? {
      return Err(placed.error);
    }
    var order := Order(userId, totalAmount, Paid, placed.value.items);
    PlacementKeepsConsistent(db.products, db.orders, lines, true, order);
    db.products := placed.value.products;
    db.orders := db.orders + [order];
    r := Ok(order);
  }

  /** The guard cancellation applies before changing anything. */
  function CancelCheck(orders: seq<Order>, orderId: OrderId, userId: UserId): (e: Option<CancelError>)
    ensures e == None <==>
      orderId < |orders| && orders[orderId].userId == userId && orders[orderId].status in {Paid, Pending}
    ensures e == Some(OrderNotFound) <==> orderId >= |orders|
    ensures e == Some(Unauthorized) <==> orderId < |orders| && orders[orderId].userId != userId
    ensures e == Some(NotCancellable) <==>
      orderId < |orders| && orders[orderId].userId == userId && orders[orderId].status !in {Paid, Pending}
  {
    if orderId >= |orders| then Some(OrderNotFound)
    else if orders[orderId].userId != userId then Some(Unauthorized)
    else if orders[orderId].status != Paid && orders[orderId].status != Pending then Some(NotCancellable)
    else None
  }

  /** Cancels one of the caller's own PAID or PENDING orders: every item's
      quantity goes back to its product's stock and the status becomes
      CANCELLED, all in one transaction. A rejected call changes nothing, and
      the cancelled order does not pass the guard again unless its status is
      overwritten (see ReopenedOrderCancelsAgain). */
  method CancelOrder(db: Database, orderId: OrderId, userId: UserId) returns (r: Result<(), CancelError>)
    requires db.Valid()
    modifies db
    ensures db.Valid()
    ensures r.Err? <==> CancelCheck(old(db.orders), orderId, userId).Some?
    ensures r.Err? ==>
      r.error == CancelCheck(old(db.orders), orderId, userId).value &&
      db.products == old(db.products) && db.orders == old(db.orders)
    ensures r.Ok? ==>
      var order := old(db.orders)[orderId];
      (forall k :: 0 <= k < |order.items| ==> order.items[k].productId in old(db.products)) &&
      db.products == Restock(old(db.products), order.items) &&
      db.orders == old(db.orders)[orderId := order.(status := Cancelled)] &&
      CancelCheck(db.orders, orderId, userId) == Some(NotCancellable)
  {
    var check := CancelCheck(db.orders, orderId, userId);
    if check.Some? {
      return Err(check.value);
    }
    var order := db.orders[orderId];
    var items := order.items;
    assert order in db.orders;
    var tx := db.products;
    var i := 0;
    while i < |items|
      invariant 0 <= i <= |items|
      invariant tx.Keys == db.products.Keys
      invariant forall id :: id in tx ==> tx[id].stock >= db.products[id].stock
      invariant Restock(db.products, items) == Restock(tx, items[i..])
    {
      var item := items[i];
      assert items[i..][0] == item && items[i..][1..] == items[i + 1..];
      var product := tx[item.productId];
      tx := tx[item.productId := product.(stock := product.stock + item.quantity)];
      i := i + 1;
    }
    db.products := tx;
    db.orders := db.orders[orderId := order.(status := Cancelled)];
    r := Ok(());
  }

  /** Overwrites an order's status, whatever it was: there is no transition check. */
  method UpdateOrderStatus(db: Database, orderId: OrderId, status: OrderStatus) returns (r: Result<Order, UpdateError>)
    requires db.Valid()
    modifies db
    ensures db.Valid()
    ensures db.products == old(db.products)
    ensures r.Err? <==> orderId >= |old(db.orders)|
    ensures r.Err? ==> db.orders == old(db.orders)
    ensures r.Ok? ==>
      r.value == old(db.orders)[orderId].(status := status) &&
      db.orders == old(db.orders)[orderId := r.value]
  {
    if orderId >= |db.orders| {
      return Err(RecordNotFound);
    }
    var updated := db.orders[orderId].(status := status);
    assert forall o :: o in db.orders[orderId := updated] ==> o in db.orders || o == updated;
    db.orders := db.orders[orderId := updated];
    r := Ok(updated);
  }

  /** updateOrderStatus has no transition check, so a cancelled order can be
      set back to PAID; the guard then lets its owner cancel it again, which
      returns its items' stock a second time (Ledger.RestockTwice). */
  lemma ReopenedOrderCancelsAgain(orders: seq<Order>, orderId: OrderId, userId: UserId)
    requires orderId < |orders| && orders[orderId].userId == userId && orders[orderId].status == Cancelled
    ensures CancelCheck(orders, orderId, userId) == Some(NotCancellable)
    ensures CancelCheck(orders[orderId := orders[orderId].(status := Paid)], orderId, userId) == None
  {
  }

  /** The first `n` orders that satisfy `keep`, newest (highest id) first. */
  function NewestFirst(orders: seq<Order>, n: nat, keep: Order -> bool): (r: seq<OrderRecord>)
    requires n <= |orders|
    ensures forall k :: 0 <= k < |r| ==> r[k].id < n && r[k].order == orders[r[k].id] && keep(r[k].order)
    ensures forall j, k :: 0 <= j < k < |r| ==> r[j].id > r[k].id
    ensures forall id :: 0 <= id < n && keep(orders[id]) ==> OrderRecord(id, orders[id]) in r
    decreases n
  {
    if n == 0 then []
    else
      var rest := NewestFirst(orders, n - 1, keep);
      if keep(orders[n - 1]) then [OrderRecord(n - 1, orders[n - 1])] + rest else rest
  }

  /** A user's orders, newest first: exactly that user's orders, each once. */
  function GetUserOrders(orders: seq<Order>, userId: UserId): (r: seq<OrderRecord>)
    ensures forall k :: 0 <= k < |r| ==>
      r[k].id < |orders| && r[k].order == orders[r[k].id] && r[k].order.userId == userId
    ensures forall j, k :: 0 <= j < k < |r| ==> r[j].id > r[k].id
    ensures forall id :: 0 <= id < |orders| && orders[id].userId == userId ==> OrderRecord(id, orders[id]) in r
  {
    NewestFirst(orders, |orders|, (o: Order) => o.userId == userId)
  }

  /** The admin listing, newest first: every order, or with `activeOnly`
      exactly the orders that are not DELIVERED. */
  function GetAllOrders(orders: seq<Order>, activeOnly: bool): (r: seq<OrderRecord>)
    ensures forall k :: 0 <= k < |r| ==>
      r[k].id < |orders| && r[k].order == orders[r[k].id] && (activeOnly ==> r[k].order.status != Delivered)
    ensures forall j, k :: 0 <= j < k < |r| ==> r[j].id > r[k].id
    ensures forall id :: 0 <= id < |orders| && (!activeOnly || orders[id].status != Delivered) ==>
      OrderRecord(id, orders[id]) in r
  {
    NewestFirst(orders, |orders|, (o: Order) => !activeOnly || o.status != Delivered)
  }
}
