/**
 * The storefront views of core/views.py: cart resolution, add-to-cart, the
 * empty-cart guards of checkout and payment initiation, and payment
 * verification with its cart-to-order conversion. Each view is a method over
 * the shared `Database`; its frame names the tables it may write. The
 * payment gateway's replies are parameters.
 */
module Views {
  import opened Wrappers
  import opened Store

  /** Who sends a request: a signed-in user (with a session), or an anonymous visitor who may not have a session yet. */
  datatype Actor = Authenticated(user: UserId, key: SessionKey) | Anonymous(maybeKey: Option<SessionKey>)

  /** An anonymous visitor without a session key gets one before a cart can be keyed on it. */
  predicate NeedsSession(actor: Actor) {
    actor.Anonymous? && actor.maybeKey.None?
  }

  /** The owner a request's cart is keyed on; `freshKey` is the key a newly created session receives. */
  function OwnerOf(actor: Actor, freshKey: SessionKey): (r: Owner)
    ensures r.UserOwner? <==> actor.Authenticated?
    ensures actor.Authenticated? ==> r == UserOwner(actor.user)
    ensures actor.Anonymous? ==> r == SessionOwner(actor.maybeKey.GetOr(freshKey))
  {
    match actor
    case Authenticated(user, _) => UserOwner(user)
    case Anonymous(Some(key)) => SessionOwner(key)
    case Anonymous(None) => SessionOwner(freshKey)
  }

  /**
   * `_get_cart`: the cart of the signed-in user, or of the visitor's session,
   * created when missing. A visitor without a session first gets a new, empty
   * session under `freshKey` (the session store picks an unused key).
   */
  method GetCart(db: Database, actor: Actor, freshKey: SessionKey) returns (cart: CartId, actor': Actor)
    requires db.Valid()
    requires NeedsSession(actor) ==> freshKey !in db.sessions
    modifies db`carts, db`sessions
    ensures db.Valid()
    ensures (db.carts, cart) == GetOrCreate(old(db.carts), OwnerOf(actor, freshKey))
    ensures actor' == if NeedsSession(actor) then Anonymous(Some(freshKey)) else actor
    ensures db.sessions == if NeedsSession(actor) then old(db.sessions)[freshKey := map[]] else old(db.sessions)
  {
    actor' := actor;
    if NeedsSession(actor) {
      db.sessions := db.sessions[freshKey := map[]];
      actor' := Anonymous(Some(freshKey));
    }
    cart := GetOrCreateCart(db, OwnerOf(actor', freshKey));
  }

  /** The `quantity` form field: missing, an integer, or text `int()` rejects. */
  datatype QuantityField = Absent | Integer(n: int) | NotAnInteger

  /** The quantity asked for: 1 when the field is missing, None when it is not an integer. */
  function RequestedQuantity(field: QuantityField): (r: Option<int>)
    ensures r.None? <==> field.NotAnInteger?
    ensures field.Absent? ==> r == Some(1)
    ensures field.Integer? ==> r == Some(field.n)
  {
    match field
    case Absent => Some(1)
    case Integer(n) => Some(n)
    case NotAnInteger => None
  }

  /**
   * `add_to_cart`. The cart is resolved first, so it exists afterwards even
   * when the product is unknown (404) or the quantity is not an integer (an
   * uncaught error, 500); in both cases no cart item changes. Otherwise the
   * product's line in the cart gains the requested quantity, or is created
   * with it, and no other line changes.
   */
  method AddToCart(db: Database, actor: Actor, freshKey: SessionKey, product: ProductId, field: QuantityField)
    returns (page: Page, actor': Actor)
    requires db.Valid()
    requires NeedsSession(actor) ==> freshKey !in db.sessions
    modifies db`carts, db`sessions, db`cartItems
    ensures db.Valid()
    ensures db.carts == GetOrCreate(old(db.carts), OwnerOf(actor, freshKey)).0
    ensures actor' == if NeedsSession(actor) then Anonymous(Some(freshKey)) else actor
    ensures db.sessions == if NeedsSession(actor) then old(db.sessions)[freshKey := map[]] else old(db.sessions)
    ensures page == if product !in db.catalog then NotFound
                    else if field.NotAnInteger? then ServerError
                    else RedirectCartDetail
    ensures page != RedirectCartDetail ==> db.cartItems == old(db.cartItems)
    ensures page == RedirectCartDetail ==>
              var cart := GetOrCreate(old(db.carts), OwnerOf(actor, freshKey)).1;
              var quantity := RequestedQuantity(field).value;
              && db.cartItems == AddLine(old(db.cartItems), cart, product, quantity)
              && QuantityOf(db.cartItems, cart, product) == Some(QuantityOf(old(db.cartItems), cart, product).GetOr(0) + quantity)
              && (field.Absent? ==> QuantityOf(db.cartItems, cart, product) == Some(QuantityOf(old(db.cartItems), cart, product).GetOr(0) + 1))
              && (forall c, p :: !(c == cart && p == product) ==> QuantityOf(db.cartItems, c, p) == QuantityOf(old(db.cartItems), c, p))
  {
    var cart;
    cart, actor' := GetCart(db, actor, freshKey);
    if product !in db.catalog {
      page := NotFound;
      return;
    }
    var quantity := RequestedQuantity(field);
    if quantity.None? {
      page := ServerError;
      return;
    }
    ghost var before := db.cartItems;
    var items := db.cartItems;
    match FindLine(items, cart, product) {
      case Some(i) =>
        items := items[i := items[i].(quantity := items[i].quantity + quantity.value)];
      case None =>
        items := items + [CartItem(cart, product, quantity.value)];
    }
    AddLineEffect(before, cart, product, quantity.value);
    AddLineKeepsUnique(before, cart, product, quantity.value);
    AddLineRows(before, cart, product, quantity.value);
    db.cartItems := items;
    page := RedirectCartDetail;
  }

  /** `checkout`: resolves the user's cart; an empty cart redirects to the index page. */
  method Checkout(db: Database, user: UserId) returns (page: Page)
    requires db.Valid()
    modifies db`carts
    ensures db.Valid()
    ensures db.carts == GetOrCreate(old(db.carts), UserOwner(user)).0
    ensures page == if LinesOf(db.cartItems, GetOrCreate(old(db.carts), UserOwner(user)).1) == [] then RedirectIndex
                    else CartPage
  {
    var cart := GetOrCreateCart(db, UserOwner(user));
    page := if LinesOf(db.cartItems, cart) == [] then RedirectIndex else CartPage;
  }

  /** The gateway's answer to `transaction/initialize`: a request error, or a reply with its status flag and reference. */
  datatype InitReply = InitRequestError | InitResponse(status: bool, reference: string)

  /**
   * `initiate_payment`. An empty cart redirects to the index page before the
   * gateway is contacted. Otherwise, when the gateway's status is true, its
   * reference is stored under `payment_ref` in the user's session and the
   * user is sent to the gateway; on a false status or a request error the
   * failure page is shown and the session is left alone.
   */
  method InitiatePayment(db: Database, user: UserId, session: SessionKey, reply: InitReply) returns (page: Page)
    requires db.Valid()
    modifies db`carts, db`sessions
    ensures db.Valid()
    ensures db.carts == GetOrCreate(old(db.carts), UserOwner(user)).0
    ensures page == if LinesOf(db.cartItems, GetOrCreate(old(db.carts), UserOwner(user)).1) == [] then RedirectIndex
                    else if reply.InitResponse? && reply.status then RedirectToGateway(reply.reference)
                    else FailurePage
    ensures db.sessions == if page.RedirectToGateway?
                           then old(db.sessions)[session := SessionOf(old(db.sessions), session)[PaymentRefKey := reply.reference]]
                           else old(db.sessions)
  {
    var cart := GetOrCreateCart(db, UserOwner(user));
    if LinesOf(db.cartItems, cart) == [] {
      page := RedirectIndex;
      return;
    }
    match reply
    case InitRequestError =>
      page := FailurePage;
    case InitResponse(status, reference) =>
      if status {
        db.sessions := db.sessions[session := SessionOf(db.sessions, session)[PaymentRefKey := reference]];
        page := RedirectToGateway(reference);
      } else {
        page := FailurePage;
      }
  }

  /**
   * The reference `verify_payment` checks: the query string's when it is
   * present and non-empty, else the session's `payment_ref` when present and
   * non-empty, else none.
   */
  function SelectReference(query: Option<string>, session: Session): (r: Option<string>)
    ensures r.Some? ==> r.value != ""
    ensures query.Some? && query.value != "" ==> r == query
    ensures r.Some? && r != query ==> PaymentRefKey in session && r.value == session[PaymentRefKey]
    ensures r.None? <==> (query.None? || query.value == "") && (PaymentRefKey !in session || session[PaymentRefKey] == "")
  {
    if query.Some? && query.value != "" then query
    else if PaymentRefKey in session && session[PaymentRefKey] != "" then Some(session[PaymentRefKey])
    else None
  }

  /** The gateway's answer to `transaction/verify`: a request error, or a reply with its status flag and the transaction's status. */
  datatype VerifyReply = VerifyRequestError | VerifyResponse(status: bool, dataStatus: string)

  /** The gateway confirms the payment: status true and transaction status "success". */
  predicate Verified(reply: VerifyReply)
    ensures Verified(reply) <==> reply == VerifyResponse(true, "success")
  {
    reply.VerifyResponse? && reply.status && reply.dataStatus == "success"
  }

  /**
   * `verify_payment`. Without a reference it redirects to the failure page
   * and the gateway is not asked. When the gateway confirms, the user's cart
   * (created if missing) becomes one paid order with one item per line (same
   * product and quantity, no price), the cart is emptied and `payment_ref` is
   * dropped from the session. Any other reply changes nothing. Nothing
   * prevents a second confirmation from creating a second, empty order.
   */
  method VerifyPayment(db: Database, user: UserId, session: SessionKey, query: Option<string>, reply: VerifyReply)
    returns (page: Page)
    requires db.Valid()
    modifies db`carts, db`cartItems, db`orders, db`orderItems, db`sessions
    ensures db.Valid()
    ensures page == if SelectReference(query, SessionOf(old(db.sessions), session)).None? then RedirectFailure
                    else if Verified(reply) then SuccessPage(|old(db.orders)|)
                    else FailurePage
    ensures !page.SuccessPage? ==>
              && db.carts == old(db.carts) && db.cartItems == old(db.cartItems)
              && db.orders == old(db.orders) && db.orderItems == old(db.orderItems)
              && db.sessions == old(db.sessions)
    ensures page.SuccessPage? ==>
              var cart := GetOrCreate(old(db.carts), UserOwner(user)).1;
              && db.carts == GetOrCreate(old(db.carts), UserOwner(user)).0
              && db.orders == old(db.orders) + [Order(user, true, None, None)]
              && db.orderItems == old(db.orderItems) + CopyLines(LinesOf(old(db.cartItems), cart), page.order, db.catalog, false)
              && db.cartItems == WithoutCart(old(db.cartItems), cart)
              && LinesOf(db.cartItems, cart) == []
              && db.sessions == if PaymentRefKey in SessionOf(old(db.sessions), session)
                                then old(db.sessions)[session := old(db.sessions)[session] - {PaymentRefKey}]
                                else old(db.sessions)
  {
    var reference := SelectReference(query, SessionOf(db.sessions, session));
    if reference.None? {
      page := RedirectFailure;
      return;
    }
    if !Verified(reply) {
      page := FailurePage;
      return;
    }
    var cart := GetOrCreateCart(db, UserOwner(user));
    var order := PlaceOrder(db, cart, Order(user, true, None, None), false);
    ClearedCartIsEmpty(old(db.cartItems), cart);
    if PaymentRefKey in SessionOf(db.sessions, session) {
      db.sessions := db.sessions[session := db.sessions[session] - {PaymentRefKey}];
    }
    page := SuccessPage(order);
  }

  /**
   * Two confirmed verifications in a row with the same query-string
   * reference: the first turns the cart into an order, the second finds the
   * cart empty and still records a second paid order, with no items.
   */
  method VerifyTwice(db: Database, user: UserId, session: SessionKey, reference: string, reply: VerifyReply)
    returns (first: Page, second: Page)
    requires db.Valid()
    requires reference != "" && Verified(reply)
    modifies db`carts, db`cartItems, db`orders, db`orderItems, db`sessions
    ensures db.Valid()
    ensures first == SuccessPage(|old(db.orders)|) && second == SuccessPage(|old(db.orders)| + 1)
    ensures db.orders == old(db.orders) + [Order(user, true, None, None), Order(user, true, None, None)]
    ensures var cart := GetOrCreate(old(db.carts), UserOwner(user)).1;
            db.orderItems == old(db.orderItems) + CopyLines(LinesOf(old(db.cartItems), cart), |old(db.orders)|, db.catalog, false)
  {
    ghost var cart := GetOrCreate(db.carts, UserOwner(user)).1;
    first := VerifyPayment(db, user, session, Some(reference), reply);
    ghost var afterFirst := db.orderItems;
    ghost var itemsAfterFirst := db.cartItems;
    ghost var cartsAfterFirst := db.carts;
    assert LinesOf(itemsAfterFirst, cart) == [];
    GetOrCreateTwice(old(db.carts), UserOwner(user));
    assert GetOrCreate(cartsAfterFirst, UserOwner(user)).1 == cart;
    second := VerifyPayment(db, user, session, Some(reference), reply);
    assert db.orderItems == afterFirst + CopyLines([], |old(db.orders)| + 1, db.catalog, false);
  }
}
