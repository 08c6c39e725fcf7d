/**
 * The gateway callback views of core/paystack_views.py. `payment_success`
 * turns the signed-in user's cart into a paid order carrying the gateway
 * reference and the cart's total, with one priced item per cart line, and
 * empties the cart; `payment_failure` only renders a page.
 */
module PaystackViews {
  import opened Wrappers
  import opened Store

  /**
   * `payment_success`. The cart is looked up by user only: a user without a
   * cart gets an uncaught lookup error (500) and nothing changes, and carts
   * keyed on an anonymous session are never converted. Otherwise one paid
   * order is appended with `reference` and the total read before the cart is
   * emptied, then one item per cart line with the same product and quantity
   * and the product's current price, and the cart's lines are deleted.
   * Nothing guards against the same reference arriving twice.
   */
  method PaymentSuccess(db: Database, user: UserId, reference: string) returns (page: Page)
    requires db.Valid()
    modifies db`orders, db`orderItems, db`cartItems
    ensures db.Valid()
    ensures FindCart(db.carts, UserOwner(user)).None? ==>
              && page == ServerError
              && db.orders == old(db.orders) && db.orderItems == old(db.orderItems)
              && db.cartItems == old(db.cartItems)
    ensures FindCart(db.carts, UserOwner(user)).Some? ==>
              var cart := FindCart(db.carts, UserOwner(user)).value;
              var lines := LinesOf(old(db.cartItems), cart);
              && page == RedirectSuccessPage
              && db.orders == old(db.orders) + [Order(user, true, Some(reference), Some(db.cartTotal(lines)))]
              && db.orderItems == old(db.orderItems) + CopyLines(lines, |old(db.orders)|, db.catalog, true)
              && OrderValue(db.orderItems[|old(db.orderItems)|..]) == CartValue(lines, db.catalog)
              && db.cartItems == WithoutCart(old(db.cartItems), cart)
              && LinesOf(db.cartItems, cart) == []
              && (forall c :: 0 <= c < |db.carts| && c != cart ==> LinesOf(db.cartItems, c) == LinesOf(old(db.cartItems), c))
  {
    var found := FindCart(db.carts, UserOwner(user));
    if found.None? {
      page := ServerError;
      return;
    }
    var cart := found.value;
    var lines := LinesOf(db.cartItems, cart);
    var id := PlaceOrder(db, cart, Order(user, true, Some(reference), Some(db.cartTotal(lines))), true);
    assert db.orderItems[|old(db.orderItems)|..] == CopyLines(lines, id, db.catalog, true);
    CopyLinesValue(lines, id, db.catalog);
    ClearedCartIsEmpty(old(db.cartItems), cart);
    forall c | 0 <= c < |db.carts| && c != cart
      ensures LinesOf(db.cartItems, c) == LinesOf(old(db.cartItems), c)
    {
      ClearingKeepsOtherCarts(old(db.cartItems), cart, c);
    }
    page := RedirectSuccessPage;
  }

  /**
   * The same success callback delivered twice for a user who has a cart: the
   * first call converts the cart, the second records another paid order with
   * the same reference, the total of an empty cart, and no items.
   */
  method PaymentSuccessTwice(db: Database, user: UserId, reference: string) returns (first: Page, second: Page)
    requires db.Valid()
    requires UserOwner(user) in db.carts
    modifies db`orders, db`orderItems, db`cartItems
    ensures db.Valid()
    ensures first == RedirectSuccessPage && second == RedirectSuccessPage
    ensures var lines := LinesOf(old(db.cartItems), FindCart(db.carts, UserOwner(user)).value);
            && db.orders == old(db.orders) + [Order(user, true, Some(reference), Some(db.cartTotal(lines))),
                                              Order(user, true, Some(reference), Some(db.cartTotal([])))]
            && db.orderItems == old(db.orderItems) + CopyLines(lines, |old(db.orders)|, db.catalog, true)
  {
    ghost var cart := FindCart(db.carts, UserOwner(user)).value;
    first := PaymentSuccess(db, user, reference);
    ghost var afterFirst := db.orderItems;
    assert LinesOf(db.cartItems, cart) == [];
    second := PaymentSuccess(db, user, reference);
    assert db.orderItems == afterFirst + CopyLines([], |old(db.orders)| + 1, db.catalog, true);
  }

  /** `payment_failure`: renders the failure page and changes nothing. */
  method PaymentFailure() returns (page: Page)
    ensures page == FailurePage
  {
    page := FailurePage;
  }
}
