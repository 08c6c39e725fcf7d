/**
 * The storefront tables (carts, cart items, orders, order items) and the
 * session store, as the views of core/views.py and core/paystack_views.py
 * read and write them through the ORM. The table queries those views issue
 * (get-or-create a cart, look up a cart line, list and delete a cart's lines,
 * copy lines into order items) are functions on the tables, with lemmas; the
 * order placement both payment views share is a method with a loop.
 */
module Store {
  import opened Wrappers

  type UserId = nat
  type SessionKey = nat
  type ProductId = nat
  /** Carts are never deleted, so a cart is identified by its position in the cart table. */
  type CartId = nat
  /** Orders are never deleted, so an order is identified by its position in the order table. */
  type OrderId = nat

  /** A cart belongs either to a signed-in user or to an anonymous session. */
  datatype Owner = UserOwner(user: UserId) | SessionOwner(key: SessionKey)

  /** A row of the cart item table. */
  datatype CartItem = CartItem(cart: CartId, product: ProductId, quantity: int)

  /**
   * A row of the order table. `reference` and `total` are None when the view
   * creating the order does not set them (the model's defaults apply).
   */
  datatype Order = Order(user: UserId, paid: bool, reference: Option<string>, total: Option<int>)

  /** A row of the order item table; `price` is None when the view does not set it. */
  datatype OrderItem = OrderItem(order: OrderId, product: ProductId, price: Option<int>, quantity: int)

  /** The data of one session. */
  type Session = map<string, string>

  /** The session entry holding the pending gateway reference. */
  const PaymentRefKey: string := "payment_ref"

  /** What a view answers with. */
  datatype Page =
    | RedirectIndex
    | RedirectCartDetail
    | CartPage
    | RedirectToGateway(reference: string)
    | FailurePage
    | RedirectFailure
    | SuccessPage(order: OrderId)
    | RedirectSuccessPage
    | NotFound
    | ServerError

  /** The data of session `key`; a session that was never saved reads as empty. */
  function SessionOf(sessions: map<SessionKey, Session>, key: SessionKey): Session {
    if key in sessions then sessions[key] else map[]
  }

  // ---------------------------------------------------------------- carts

  /** No two carts have the same owner (the uniqueness get-or-create relies on). */
  ghost predicate UniqueOwners(carts: seq<Owner>) {
    forall i, j :: 0 <= i < j < |carts| ==> carts[i] != carts[j]
  }

  /** The cart query by owner: the first cart of `owner`, if any. */
  function FindCart(carts: seq<Owner>, owner: Owner): (r: Option<CartId>)
    ensures r.Some? ==> r.value < |carts| && carts[r.value] == owner
    ensures r.Some? ==> owner !in carts[..r.value]
    ensures r.None? <==> owner !in carts
  {
    if carts == [] then None
    else if carts[0] == owner then Some(0)
    else match FindCart(carts[1..], owner)
      case None => None
      case Some(i) =>
        assert carts[..i + 1] == [carts[0]] + carts[1..][..i];
        Some(i + 1)
  }

  /**
   * `get_or_create` on the cart table: the owner's cart, appended when the
   * owner has none yet. The result is the new table and the cart's id.
   */
  function GetOrCreate(carts: seq<Owner>, owner: Owner): (r: (seq<Owner>, CartId))
    ensures r.1 < |r.0| && r.0[r.1] == owner
    ensures owner in carts ==> r.0 == carts
    ensures owner !in carts ==> r.0 == carts + [owner]
    ensures UniqueOwners(carts) ==> UniqueOwners(r.0)
  {
    match FindCart(carts, owner)
    case Some(i) => (carts, i)
    case None => (carts + [owner], |carts|)
  }

  /** Resolving the same owner's cart a second time finds the same cart and creates nothing. */
  lemma {:induction false} GetOrCreateTwice(carts: seq<Owner>, owner: Owner)
    ensures GetOrCreate(GetOrCreate(carts, owner).0, owner) == GetOrCreate(carts, owner)
  {
    var (c1, id1) := GetOrCreate(carts, owner);
    if owner !in carts {
      var found := FindCart(c1, owner);
      assert found.Some?;
      if found.value < |carts| {
        assert false;
      }
    }
  }

  /** Appending a cart does not change which cart is found for an owner already present. */
  lemma {:induction false} FindCartAppend(carts: seq<Owner>, added: Owner, owner: Owner)
    requires owner in carts
    ensures FindCart(carts + [added], owner) == FindCart(carts, owner)
  {
    assert (carts + [added])[0] == carts[0];
    if carts[0] != owner {
      assert (carts + [added])[1..] == carts[1..] + [added];
      FindCartAppend(carts[1..], added, owner);
    }
  }

  /** Resolving one owner's cart never moves or changes the cart of another owner. */
  lemma {:induction false} GetOrCreateKeepsOthers(carts: seq<Owner>, owner: Owner, other: Owner)
    requires other in carts
    ensures FindCart(GetOrCreate(carts, owner).0, other) == FindCart(carts, other)
  {
    if owner !in carts {
      FindCartAppend(carts, owner, other);
    }
  }

  // ---------------------------------------------------------------- cart lines

  /** `item` is the line of `product` in `cart`. */
  predicate IsLine(item: CartItem, cart: CartId, product: ProductId) {
    item.cart == cart && item.product == product
  }

  /** Each product appears at most once in each cart. */
  ghost predicate UniqueLines(items: seq<CartItem>) {
    forall i, j :: 0 <= i < j < |items| ==> !IsLine(items[j], items[i].cart, items[i].product)
  }

  /** The cart item query by (cart, product): the position of the first such line, if any. */
  function FindLine(items: seq<CartItem>, cart: CartId, product: ProductId): (r: Option<nat>)
    ensures r.Some? ==> r.value < |items| && IsLine(items[r.value], cart, product)
    ensures r.Some? ==> forall j :: 0 <= j < r.value ==> !IsLine(items[j], cart, product)
    ensures r.None? ==> forall j :: 0 <= j < |items| ==> !IsLine(items[j], cart, product)
  {
    if items == [] then None
    else if IsLine(items[0], cart, product) then Some(0)
    else match FindLine(items[1..], cart, product)
      case None => None
      case Some(i) => Some(i + 1)
  }

  /** The quantity on the line of `product` in `cart`, None when there is no such line. */
  function QuantityOf(items: seq<CartItem>, cart: CartId, product: ProductId): Option<int> {
    match FindLine(items, cart, product)
    case Some(i) => Some(items[i].quantity)
    case None => None
  }

  /**
   * `get_or_create` on the cart item table followed by the quantity update:
   * an existing line of `product` in `cart` has its quantity increased by
   * `quantity`, otherwise a new line with `quantity` is appended.
   */
  function AddLine(items: seq<CartItem>, cart: CartId, product: ProductId, quantity: int): (r: seq<CartItem>)
    ensures |items| <= |r| <= |items| + 1
    ensures forall j :: 0 <= j < |items| && !IsLine(items[j], cart, product) ==> r[j] == items[j]
    ensures |r| == |items| + 1 ==> r[|items|] == CartItem(cart, product, quantity)
  {
    match FindLine(items, cart, product)
    case Some(i) => items[i := items[i].(quantity := items[i].quantity + quantity)]
    case None => items + [CartItem(cart, product, quantity)]
  }

  /** Two tables agree on which positions hold which (cart, product) keys, up to `n`. */
  ghost predicate SameKeys(a: seq<CartItem>, b: seq<CartItem>, n: nat)
    requires n <= |a| && n <= |b|
  {
    forall j :: 0 <= j < n ==> a[j].cart == b[j].cart && a[j].product == b[j].product
  }

  /** Tables with the same keys in the same positions find the same line for every key. */
  lemma {:induction false} FindLineSameKeys(a: seq<CartItem>, b: seq<CartItem>, cart: CartId, product: ProductId)
    requires |a| == |b| && SameKeys(a, b, |a|)
    ensures FindLine(a, cart, product) == FindLine(b, cart, product)
  {
    if a != [] && !IsLine(a[0], cart, product) {
      FindLineSameKeys(a[1..], b[1..], cart, product);
    }
  }

  /** Appending a row does not change what is found for a key already present. */
  lemma {:induction false} FindLineAppend(items: seq<CartItem>, row: CartItem, cart: CartId, product: ProductId)
    ensures FindLine(items + [row], cart, product) ==
            if FindLine(items, cart, product).Some? then FindLine(items, cart, product)
            else if IsLine(row, cart, product) then Some(|items|)
            else None
  {
    var before, after := FindLine(items, cart, product), FindLine(items + [row], cart, product);
    if before.Some? {
      assert (items + [row])[before.value] == items[before.value];
    } else if after.None? {
      assert (items + [row])[|items|] == row;
    }
  }

  /**
   * Adding to a cart changes exactly one line: the line of `product` in `cart`
   * ends with its old quantity (zero when it did not exist) plus `quantity`;
   * every other (cart, product) keeps its quantity; a row is appended only
   * when the line did not exist.
   */
  lemma {:induction false} AddLineEffect(items: seq<CartItem>, cart: CartId, product: ProductId, quantity: int)
    ensures QuantityOf(AddLine(items, cart, product, quantity), cart, product)
         == Some(QuantityOf(items, cart, product).GetOr(0) + quantity)
    ensures forall c, p :: !(c == cart && p == product) ==>
              QuantityOf(AddLine(items, cart, product, quantity), c, p) == QuantityOf(items, c, p)
    ensures |AddLine(items, cart, product, quantity)| ==
            |items| + (if QuantityOf(items, cart, product).None? then 1 else 0)
  {
    var r := AddLine(items, cart, product, quantity);
    match FindLine(items, cart, product)
    case Some(i) =>
      assert SameKeys(r, items, |items|);
      forall c, p ensures FindLine(r, c, p) == FindLine(items, c, p) {
        FindLineSameKeys(r, items, c, p);
      }
    case None =>
      forall c, p ensures FindLine(r, c, p) ==
        if FindLine(items, c, p).Some? then FindLine(items, c, p)
        else if IsLine(CartItem(cart, product, quantity), c, p) then Some(|items|) else None
      {
        FindLineAppend(items, CartItem(cart, product, quantity), c, p);
      }
  }

  /** Adding a product the cart has no line for appends one line, which becomes the cart's last line. */
  lemma {:induction false} AddNewLine(items: seq<CartItem>, cart: CartId, product: ProductId, quantity: int)
    requires forall j :: 0 <= j < |items| ==> !IsLine(items[j], cart, product)
    ensures AddLine(items, cart, product, quantity) == items + [CartItem(cart, product, quantity)]
    ensures LinesOf(AddLine(items, cart, product, quantity), cart) == LinesOf(items, cart) + [CartItem(cart, product, quantity)]
  {
    LinesOfConcat(items, [CartItem(cart, product, quantity)], cart);
  }

  /** A table whose rows all belong to carts other than `cart` has no line in `cart`. */
  lemma NoLinesInCart(items: seq<CartItem>, cart: CartId, product: ProductId)
    requires forall x :: x in items ==> x.cart != cart
    ensures LinesOf(items, cart) == []
    ensures forall j :: 0 <= j < |items| ==> !IsLine(items[j], cart, product)
  {
  }

  /** After any add, each product still appears at most once in each cart. */
  lemma {:induction false} AddLineKeepsUnique(items: seq<CartItem>, cart: CartId, product: ProductId, quantity: int)
    requires UniqueLines(items)
    ensures UniqueLines(AddLine(items, cart, product, quantity))
  {
    var r := AddLine(items, cart, product, quantity);
    match FindLine(items, cart, product)
    case Some(i) =>
      assert SameKeys(r, items, |items|);
    case None =>
      forall i, j | 0 <= i < j < |r|
        ensures !IsLine(r[j], r[i].cart, r[i].product)
      {
        if j == |items| {
          assert r[i] == items[i];
        }
      }
  }

  /** Every row after adding to a cart was already there or is the line of `product` in `cart`. */
  lemma AddLineRows(items: seq<CartItem>, cart: CartId, product: ProductId, quantity: int)
    ensures forall x :: x in AddLine(items, cart, product, quantity) ==> x in items || IsLine(x, cart, product)
  {
    var r := AddLine(items, cart, product, quantity);
    match FindLine(items, cart, product)
    case Some(i) =>
      forall x | x in r ensures x in items || IsLine(x, cart, product) {
        var k :| 0 <= k < |r| && r[k] == x;
        if k != i { assert x == items[k]; }
      }
    case None =>
  }

  /** The lines of `cart`, in table order (`cart.items.all()`). */
  function LinesOf(items: seq<CartItem>, cart: CartId): (r: seq<CartItem>)
    ensures forall x :: x in r <==> x in items && x.cart == cart
  {
    if items == [] then []
    else (if items[0].cart == cart then [items[0]] else []) + LinesOf(items[1..], cart)
  }

  /** The table after `cart.items.all().delete()`. */
  function WithoutCart(items: seq<CartItem>, cart: CartId): (r: seq<CartItem>)
    ensures forall x :: x in r <==> x in items && x.cart != cart
  {
    if items == [] then []
    else (if items[0].cart != cart then [items[0]] else []) + WithoutCart(items[1..], cart)
  }

  /** After its lines are deleted a cart has no items. */
  lemma {:induction false} ClearedCartIsEmpty(items: seq<CartItem>, cart: CartId)
    ensures LinesOf(WithoutCart(items, cart), cart) == []
  {
    if items != [] {
      ClearedCartIsEmpty(items[1..], cart);
      var head := if items[0].cart != cart then [items[0]] else [];
      assert WithoutCart(items, cart) == head + WithoutCart(items[1..], cart);
      LinesOfConcat(head, WithoutCart(items[1..], cart), cart);
    }
  }

  /** Deleting one cart's lines leaves the lines of every other cart as they were, in order. */
  lemma {:induction false} ClearingKeepsOtherCarts(items: seq<CartItem>, cart: CartId, other: CartId)
    requires other != cart
    ensures LinesOf(WithoutCart(items, cart), other) == LinesOf(items, other)
  {
    if items != [] {
      ClearingKeepsOtherCarts(items[1..], cart, other);
      var head := if items[0].cart != cart then [items[0]] else [];
      assert WithoutCart(items, cart) == head + WithoutCart(items[1..], cart);
      LinesOfConcat(head, WithoutCart(items[1..], cart), other);
    }
  }

  /** Listing a cart's lines distributes over concatenation of tables. */
  lemma {:induction false} LinesOfConcat(a: seq<CartItem>, b: seq<CartItem>, cart: CartId)
    ensures LinesOf(a + b, cart) == LinesOf(a, cart) + LinesOf(b, cart)
  {
    if a != [] {
      assert (a + b)[0] == a[0];
      assert (a + b)[1..] == a[1..] + b;
      LinesOfConcat(a[1..], b, cart);
      var head := if a[0].cart == cart then [a[0]] else [];
      assert LinesOf(a + b, cart) == head + LinesOf(a[1..] + b, cart);
    } else {
      assert a + b == b;
    }
  }

  /** Deleting a cart's lines keeps each product at most once per cart. */
  lemma {:induction false} WithoutCartKeepsUnique(items: seq<CartItem>, cart: CartId)
    requires UniqueLines(items)
    ensures UniqueLines(WithoutCart(items, cart))
  {
    if items != [] {
      var tail := items[1..];
      assert UniqueLines(tail) by {
        forall i, j | 0 <= i < j < |tail| ensures !IsLine(tail[j], tail[i].cart, tail[i].product) {
          assert tail[i] == items[i + 1] && tail[j] == items[j + 1];
        }
      }
      WithoutCartKeepsUnique(tail, cart);
      var rest := WithoutCart(tail, cart);
      if items[0].cart != cart {
        var r := [items[0]] + rest;
        forall i, j | 0 <= i < j < |r| ensures !IsLine(r[j], r[i].cart, r[i].product) {
          if i == 0 {
            assert r[j] in tail;
            var k :| 0 <= k < |tail| && tail[k] == r[j];
            assert items[k + 1] == r[j];
          } else {
            assert r[i] == rest[i - 1] && r[j] == rest[j - 1];
          }
        }
      }
    }
  }

  // ---------------------------------------------------------------- order items

  /**
   * The order items made from a cart's lines: one per line, in order, with the
   * line's product and quantity. When `priced`, each carries the product's
   * catalog price at this moment (a snapshot); otherwise the price is unset.
   */
  function CopyLines(lines: seq<CartItem>, order: OrderId, catalog: map<ProductId, int>, priced: bool): (r: seq<OrderItem>)
    requires priced ==> forall x :: x in lines ==> x.product in catalog
    ensures |r| == |lines|
    ensures forall i :: 0 <= i < |r| ==> r[i].order == order
    ensures forall i :: 0 <= i < |r| ==> r[i].product == lines[i].product && r[i].quantity == lines[i].quantity
    ensures forall i :: 0 <= i < |r| ==> r[i].price == if priced then Some(catalog[lines[i].product]) else None
  {
    if lines == [] then []
    else
      var last := lines[|lines| - 1];
      assert last in lines;
      assert forall x :: x in lines[..|lines| - 1] ==> x in lines;
      CopyLines(lines[..|lines| - 1], order, catalog, priced)
        + [OrderItem(order, last.product, if priced then Some(catalog[last.product]) else None, last.quantity)]
  }

  /** What the lines of a cart are worth at catalog prices: the sum of price times quantity. */
  function CartValue(lines: seq<CartItem>, catalog: map<ProductId, int>): int
    requires forall x :: x in lines ==> x.product in catalog
  {
    if lines == [] then 0
    else
      var last := lines[|lines| - 1];
      assert last in lines;
      assert forall x :: x in lines[..|lines| - 1] ==> x in lines;
      CartValue(lines[..|lines| - 1], catalog) + catalog[last.product] * last.quantity
  }

  /** What a list of order items is worth: the sum of price times quantity (an unset price counts 0). */
  function OrderValue(items: seq<OrderItem>): int {
    if items == [] then 0
    else OrderValue(items[..|items| - 1]) + items[|items| - 1].price.GetOr(0) * items[|items| - 1].quantity
  }

  /** Priced order items are worth exactly what the cart lines they were copied from were worth. */
  lemma {:induction false} CopyLinesValue(lines: seq<CartItem>, order: OrderId, catalog: map<ProductId, int>)
    requires forall x :: x in lines ==> x.product in catalog
    ensures OrderValue(CopyLines(lines, order, catalog, true)) == CartValue(lines, catalog)
  {
    if lines != [] {
      var init := lines[..|lines| - 1];
      assert forall x :: x in init ==> x in lines;
      CopyLinesValue(init, order, catalog);
      var r := CopyLines(lines, order, catalog, true);
      assert r[..|r| - 1] == CopyLines(init, order, catalog, true);
    }
  }

  /**
   * A cart with no lines gets two units of a product priced 500, then one
   * unit of a product priced 1000: it holds exactly those two lines, in that
   * order, and is worth 2000 at catalog prices.
   */
  lemma {:induction false} TwoProductCart(items: seq<CartItem>, cart: CartId, first: ProductId, second: ProductId,
                                          catalog: map<ProductId, int>)
    requires forall x :: x in items ==> x.cart != cart
    requires first != second && first in catalog && second in catalog
    requires catalog[first] == 500 && catalog[second] == 1000
    ensures LinesOf(AddLine(AddLine(items, cart, first, 2), cart, second, 1), cart)
         == [CartItem(cart, first, 2), CartItem(cart, second, 1)]
    ensures CartValue(LinesOf(AddLine(AddLine(items, cart, first, 2), cart, second, 1), cart), catalog) == 2000
  {
    NoLinesInCart(items, cart, first);
    NoLinesInCart(items, cart, second);
    AddNewLine(items, cart, first, 2);
    var middle := AddLine(items, cart, first, 2);
    assert forall j :: 0 <= j < |middle| ==> !IsLine(middle[j], cart, second) by {
      forall j | 0 <= j < |middle| ensures !IsLine(middle[j], cart, second) {
        if j < |items| { assert middle[j] == items[j]; }
      }
    }
    AddNewLine(middle, cart, second, 1);
    var lines := [CartItem(cart, first, 2), CartItem(cart, second, 1)];
    assert lines[..1] == [CartItem(cart, first, 2)] && lines[..1][..0] == [];
    assert CartValue(lines[..1], catalog) == 1000;
  }

  /** Copying a cart whose lines were already deleted yields no order items. */
  lemma {:induction false} RecopyAfterClearIsEmpty(items: seq<CartItem>, cart: CartId, order: OrderId,
                                                   catalog: map<ProductId, int>, priced: bool)
    ensures CopyLines(LinesOf(WithoutCart(items, cart), cart), order, catalog, priced) == []
  {
    ClearedCartIsEmpty(items, cart);
  }

  /** Copying one more line appends exactly that line's order item. */
  lemma CopyLinesStep(lines: seq<CartItem>, i: nat, order: OrderId, catalog: map<ProductId, int>, priced: bool)
    requires i < |lines|
    requires priced ==> forall x :: x in lines ==> x.product in catalog
    ensures priced ==> forall x :: x in lines[..i] ==> x.product in catalog
    ensures CopyLines(lines[..i + 1], order, catalog, priced)
         == CopyLines(lines[..i], order, catalog, priced)
            + [OrderItem(order, lines[i].product, if priced then Some(catalog[lines[i].product]) else None, lines[i].quantity)]
  {
    assert forall x :: x in lines[..i] ==> x in lines;
    assert lines[..i + 1][..i] == lines[..i];
  }

  // ---------------------------------------------------------------- the database

  /** The storefront's tables and the session store. */
  class Database {
    /** Product prices. The storefront views only read the catalog. */
    const catalog: map<ProductId, int>
    /** `Cart.total_price`, computed in core/models.py from a cart's lines; not part of this model. */
    const cartTotal: seq<CartItem> -> int
    var carts: seq<Owner>
    var cartItems: seq<CartItem>
    var orders: seq<Order>
    var orderItems: seq<OrderItem>
    var sessions: map<SessionKey, Session>

    ghost predicate Valid()
      reads this
    {
      && UniqueOwners(carts)
      && UniqueLines(cartItems)
      && (forall x :: x in cartItems ==> x.cart < |carts| && x.product in catalog)
      && (forall i :: 0 <= i < |orderItems| ==> orderItems[i].order < |orders|)
    }

    constructor (catalog: map<ProductId, int>, cartTotal: seq<CartItem> -> int)
      ensures Valid()
      ensures this.catalog == catalog && this.cartTotal == cartTotal
      ensures carts == [] && cartItems == [] && orders == [] && orderItems == [] && sessions == map[]
    {
      this.catalog := catalog;
      this.cartTotal := cartTotal;
      carts, cartItems, orders, orderItems, sessions := [], [], [], [], map[];
    }
  }

  /** `Cart.objects.get_or_create` for `owner`. */
  method GetOrCreateCart(db: Database, owner: Owner) returns (cart: CartId)
    requires db.Valid()
    modifies db`carts
    ensures db.Valid()
    ensures (db.carts, cart) == GetOrCreate(old(db.carts), owner)
  {
    match FindCart(db.carts, owner)
    case Some(i) =>
      cart := i;
    case None =>
      cart := |db.carts|;
      db.carts := db.carts + [owner];
  }

  /**
   * The loop of the order conversion: one order item per cart line, in the
   * order the lines are listed.
   */
  method CopyCartLines(lines: seq<CartItem>, order: OrderId, catalog: map<ProductId, int>, priced: bool)
    returns (items: seq<OrderItem>)
    requires priced ==> forall x :: x in lines ==> x.product in catalog
    ensures items == CopyLines(lines, order, catalog, priced)
  {
    items := [];
    var i := 0;
    while i < |lines|
      invariant 0 <= i <= |lines|
      invariant items == CopyLines(lines[..i], order, catalog, priced)
    {
      CopyLinesStep(lines, i, order, catalog, priced);
      var line := lines[i];
      items := items + [OrderItem(order, line.product, if priced then Some(catalog[line.product]) else None, line.quantity)];
      i := i + 1;
    }
    assert lines[..i] == lines;
  }

  /**
   * Turns the lines of `cart` into an order: appends `order`, then one order
   * item per line (in the order the lines are listed), then deletes the lines.
   */
  method PlaceOrder(db: Database, cart: CartId, order: Order, priced: bool) returns (id: OrderId)
    requires db.Valid()
    modifies db`orders, db`orderItems, db`cartItems
    ensures db.Valid()
    ensures id == |old(db.orders)| && db.orders == old(db.orders) + [order]
    ensures db.orderItems == old(db.orderItems) + CopyLines(LinesOf(old(db.cartItems), cart), id, db.catalog, priced)
    ensures db.cartItems == WithoutCart(old(db.cartItems), cart)
  {
    id := |db.orders|;
    var catalog := db.catalog;
    var lines := LinesOf(db.cartItems, cart);
    assert forall x :: x in lines ==> x.product in catalog;
    var items := CopyCartLines(lines, id, catalog, priced);
    var orderItems := db.orderItems + items;
    assert forall k :: 0 <= k < |orderItems| ==> orderItems[k].order < id + 1;
    var rest := WithoutCart(db.cartItems, cart);
    WithoutCartKeepsUnique(db.cartItems, cart);
    assert forall x :: x in rest ==> x.cart < |db.carts| && x.product in catalog;
    db.orders, db.orderItems, db.cartItems := db.orders + [order], orderItems, rest;
  }
}
