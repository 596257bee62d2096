/** The browser-side stores: the shopping cart (a list of entries keyed by
    product id) and the signed-in user with their token. Prices are integer
    cents. */
module ClientStore {
  import opened Wrappers

  datatype CartItem = CartItem(id: string, name: string, price: int, quantity: int)

  /** What the product card hands to addItem. */
  datatype ProductInfo = ProductInfo(id: string, name: string, price: int)

  /** Ids are unique and every quantity is at least 1. */
  ghost predicate WellFormed(items: seq<CartItem>) {
    (forall j, k :: 0 <= j < k < |items| ==> items[j].id != items[k].id) &&
    (forall k :: 0 <= k < |items| ==> items[k].quantity >= 1)
  }

  /** items.find(item => item.id === id), as a position. */
  function Find(items: seq<CartItem>, id: string): (r: Option<nat>)
    ensures r.Some? ==> r.value < |items| && items[r.value].id == id &&
                        forall j :: 0 <= j < r.value ==> items[j].id != id
    ensures r.None? ==> forall j :: 0 <= j < |items| ==> items[j].id != id
  {
    if items == [] then None
    else if items[0].id == id then Some(0)
    else match Find(items[1..], id)
      case None => None
      case Some(k) => Some(k + 1)
  }

  /** items.map: every entry with this id gets `delta` added to its quantity. */
  function Bumped(items: seq<CartItem>, id: string, delta: int): (r: seq<CartItem>)
    ensures |r| == |items|
    ensures forall k :: 0 <= k < |items| ==>
      r[k] == if items[k].id == id then items[k].(quantity := items[k].quantity + delta) else items[k]
  {
    if items == [] then []
    else
      var head := if items[0].id == id then items[0].(quantity := items[0].quantity + delta) else items[0];
      [head] + Bumped(items[1..], id, delta)
  }

  /** items.filter(item => item.id !== id). */
  function Without(items: seq<CartItem>, id: string): (r: seq<CartItem>)
    ensures |r| <= |items|
    ensures forall k :: 0 <= k < |r| ==> r[k].id != id && r[k] in items
  {
    if items == [] then []
    else if items[0].id == id then Without(items[1..], id)
    else [items[0]] + Without(items[1..], id)
  }

  /** The sum of the quantities. */
  function ItemCount(items: seq<CartItem>): int {
    if items == [] then 0 else items[0].quantity + ItemCount(items[1..])
  }

  /** The sum of price * quantity. */
  function Total(items: seq<CartItem>): int {
    if items == [] then 0 else items[0].price * items[0].quantity + Total(items[1..])
  }

  class Cart {
    var items: seq<CartItem>

    ghost predicate Valid()
      reads this
    {
      WellFormed(items)
    }

    constructor ()
      ensures Valid() && items == []
    {
      items := [];
    }

    /** A new product is appended with quantity 1; an existing entry has its
        quantity raised by 1 and keeps its place, name and price. */
    method AddItem(product: ProductInfo)
      requires Valid()
      modifies this
      ensures Valid()
      ensures Find(old(items), product.id).None? ==>
        items == old(items) + [CartItem(product.id, product.name, product.price, 1)]
      ensures Find(old(items), product.id).Some? ==>
        items == Bumped(old(items), product.id, 1) && |items| == |old(items)|
      ensures ItemCount(items) == ItemCount(old(items)) + 1
      ensures items == Apply(old(items), Add(product))
    {
      var existing := Find(items, product.id);
      if existing.Some? {
        BumpedKeepsWellFormed(items, product.id, 1);
        ItemCountBumped(items, product.id, 1);
        items := Bumped(items, product.id, 1);
      } else {
        ItemCountAppend(items, CartItem(product.id, product.name, product.price, 1));
        items := items + [CartItem(product.id, product.name, product.price, 1)];
      }
    }

    /** Drops the entry with this id, if any; the others keep their order. */
    method RemoveItem(id: string)
      requires Valid()
      modifies this
      ensures Valid()
      ensures items == Without(old(items), id)
      ensures items == Apply(old(items), Remove(id))
    {
      WithoutKeepsWellFormed(items, id);
      items := Without(items, id);
    }

    /** Raises the matching entry's quantity by 1; an absent id changes nothing. */
    method Increment(id: string)
      requires Valid()
      modifies this
      ensures Valid()
      ensures items == Bumped(old(items), id, 1)
      ensures items == Apply(old(items), Inc(id))
    {
      BumpedKeepsWellFormed(items, id, 1);
      items := Bumped(items, id, 1);
    }

    /** Lowers the matching entry's quantity by 1 while it is above 1, and
        removes the entry when it is 1; an absent id changes nothing. */
    method Decrement(id: string)
      requires Valid()
      modifies this
      ensures Valid()
      ensures var found := Find(old(items), id);
        items == if found.Some? && old(items)[found.value].quantity > 1
                 then Bumped(old(items), id, -1)
                 else Without(old(items), id)
      ensures items == Apply(old(items), Dec(id))
    {
      var found := Find(items, id);
      if found.Some? && items[found.value].quantity > 1 {
        BumpedKeepsWellFormed(items, id, -1);
        items := Bumped(items, id, -1);
      } else {
        WithoutKeepsWellFormed(items, id);
        items := Without(items, id);
      }
    }

    method ClearCart()
      requires Valid()
      modifies this
      ensures Valid() && items == []
      ensures GetTotal() == 0 && GetItemCount() == 0
      ensures items == Apply(old(items), Clear)
    {
      items := [];
    }

    /** The cart total; never negative while no price is. */
    function GetTotal(): (r: int)
      reads this
      ensures Valid() && (forall k :: 0 <= k < |items| ==> items[k].price >= 0) ==> r >= 0
    {
      TotalNonNegative(items);
      Total(items)
    }

    /** The badge count: never smaller than the number of entries. */
    function GetItemCount(): (r: int)
      reads this
      ensures Valid() ==> r >= |items|
    {
      ItemCountAtLeastLength(items);
      ItemCount(items)
    }
  }

  // ---------------------------------------------------------------------------
  // Properties of the cart operations

  lemma {:induction false} ItemCountAtLeastLength(items: seq<CartItem>)
    ensures (forall k :: 0 <= k < |items| ==> items[k].quantity >= 1) ==> ItemCount(items) >= |items|
  {
    if items != [] {
      ItemCountAtLeastLength(items[1..]);
    }
  }

  lemma {:induction false} TotalNonNegative(items: seq<CartItem>)
    ensures (forall k :: 0 <= k < |items| ==> items[k].price >= 0 && items[k].quantity >= 1) ==> Total(items) >= 0
  {
    if items != [] {
      TotalNonNegative(items[1..]);
    }
  }

  lemma {:induction false} ItemCountAppend(items: seq<CartItem>, item: CartItem)
    ensures ItemCount(items + [item]) == ItemCount(items) + item.quantity
    ensures Total(items + [item]) == Total(items) + item.price * item.quantity
  {
    if items != [] {
      assert (items + [item])[1..] == items[1..] + [item];
      ItemCountAppend(items[1..], item);
    }
  }

  /** Raising one present entry by `delta` moves the count by `delta` and the
      total by that entry's own price times `delta`. */
  lemma {:induction false} ItemCountBumped(items: seq<CartItem>, id: string, delta: int)
    requires WellFormed(items) && Find(items, id).Some?
    ensures var k := Find(items, id).value;
      ItemCount(Bumped(items, id, delta)) == ItemCount(items) + delta &&
      Total(Bumped(items, id, delta)) == Total(items) + items[k].price * delta
  {
    if items[0].id != id {
      ItemCountBumped(items[1..], id, delta);
    } else {
      BumpedAbsent(items[1..], id, delta);
    }
  }

  lemma {:induction false} BumpedAbsent(items: seq<CartItem>, id: string, delta: int)
    requires Find(items, id).None?
    ensures Bumped(items, id, delta) == items
  {
  }

  lemma {:induction false} WithoutAbsent(items: seq<CartItem>, id: string)
    requires Find(items, id).None?
    ensures Without(items, id) == items
  {
    if items != [] {
      WithoutAbsent(items[1..], id);
    }
  }

  /** removeItem of an id held by exactly one entry, at position k, takes out
      that entry and keeps the others in order. */
  lemma {:induction false} WithoutPresent(items: seq<CartItem>, id: string, k: nat)
    requires k < |items| && items[k].id == id
    requires forall j :: 0 <= j < |items| && j != k ==> items[j].id != id
    ensures Without(items, id) == items[..k] + items[k + 1..]
  {
    if k == 0 {
      WithoutAbsent(items[1..], id);
    } else {
      WithoutPresent(items[1..], id, k - 1);
      assert items[..k] == [items[0]] + items[1..][..k - 1];
    }
  }

  /** Removing that entry lowers the count by its quantity and the total by
      its price times its quantity. */
  lemma {:induction false} WithoutSums(items: seq<CartItem>, id: string, k: nat)
    requires k < |items| && items[k].id == id
    requires forall j :: 0 <= j < |items| && j != k ==> items[j].id != id
    ensures ItemCount(Without(items, id)) == ItemCount(items) - items[k].quantity
    ensures Total(Without(items, id)) == Total(items) - items[k].price * items[k].quantity
  {
    if k == 0 {
      WithoutAbsent(items[1..], id);
    } else {
      WithoutSums(items[1..], id, k - 1);
    }
  }

  lemma BumpedKeepsWellFormed(items: seq<CartItem>, id: string, delta: int)
    requires WellFormed(items)
    requires delta >= 0 || (Find(items, id).Some? && items[Find(items, id).value].quantity + delta >= 1)
    ensures WellFormed(Bumped(items, id, delta))
  {
  }

  lemma {:induction false} WithoutKeepsWellFormed(items: seq<CartItem>, id: string)
    requires WellFormed(items)
    ensures WellFormed(Without(items, id))
  {
    if items != [] {
      WithoutKeepsWellFormed(items[1..], id);
      var rest := Without(items[1..], id);
      assert forall k :: 0 <= k < |rest| ==> rest[k] in items[1..];
    }
  }

  /** The cart operations as values: each Cart method leaves `items` equal to
      Apply of its operation on the old items, so Replay describes every
      history of calls on a new cart. */
  datatype CartOp = Add(product: ProductInfo) | Remove(id: string) | Inc(id: string) | Dec(id: string) | Clear

  function Apply(items: seq<CartItem>, op: CartOp): seq<CartItem> {
    match op
    case Add(p) =>
      if Find(items, p.id).Some? then Bumped(items, p.id, 1) else items + [CartItem(p.id, p.name, p.price, 1)]
    case Remove(id) => Without(items, id)
    case Inc(id) => Bumped(items, id, 1)
    case Dec(id) =>
      var found := Find(items, id);
      if found.Some? && items[found.value].quantity > 1 then Bumped(items, id, -1) else Without(items, id)
    case Clear => []
  }

  function Replay(ops: seq<CartOp>): seq<CartItem> {
    if ops == [] then [] else Apply(Replay(ops[..|ops| - 1]), ops[|ops| - 1])
  }

  /** From an empty cart every sequence of cart operations keeps ids unique
      and quantities at least 1. */
  lemma {:induction false} ReplayWellFormed(ops: seq<CartOp>)
    ensures WellFormed(Replay(ops))
  {
    if ops != [] {
      var before := Replay(ops[..|ops| - 1]);
      ReplayWellFormed(ops[..|ops| - 1]);
      match ops[|ops| - 1]
      case Add(p) =>
        if Find(before, p.id).Some? { BumpedKeepsWellFormed(before, p.id, 1); }
      case Remove(id) => WithoutKeepsWellFormed(before, id);
      case Inc(id) => BumpedKeepsWellFormed(before, id, 1);
      case Dec(id) =>
        var found := Find(before, id);
        if found.Some? && before[found.value].quantity > 1 {
          BumpedKeepsWellFormed(before, id, -1);
        } else {
          WithoutKeepsWellFormed(before, id);
        }
      case Clear =>
    }
  }

  // ---------------------------------------------------------------------------
  // The signed-in user

  datatype Role = UserRole | AdminRole

  datatype User = User(id: string, email: string, role: Role)

  class Auth {
    var user: Option<User>
    var token: Option<string>

    constructor ()
      ensures user == None && token == None
    {
      user := None;
      token := None;
    }

    /** Stores the user and token given at sign-in. */
    method SetAuth(u: User, t: string)
      modifies this
      ensures user == Some(u) && token == Some(t)
      ensures IsAdmin() <==> u.role == AdminRole
    {
      user := Some(u);
      token := Some(t);
    }

    /** Forgets the user and the token. */
    method Logout()
      modifies this
      ensures user == None && token == None
      ensures !IsAdmin()
    {
      user := None;
      token := None;
    }

    /** True exactly when someone is signed in with the ADMIN role. */
    function IsAdmin(): (r: bool)
      reads this
      ensures r <==> user.Some? && user.value.role == AdminRole
    {
      match user
      case None => false
      case Some(u) => u.role == AdminRole
    }
  }
}
