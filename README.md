# Storefront cart, payment and admin actions — a Dafny model

This project models the logic of a small storefront for reselling airtime and
data. The storefront runs on a web framework's ORM, session store and admin
console. The framework is replaced by in-memory tables:

- **Cart resolution and add-to-cart** (`core/views.py`). A cart is found or
  created for a signed-in user or for an anonymous session. A session key is
  created first when the visitor has none. Adding a product either increases
  the quantity of the product's line in that cart or creates the line.
- **Payment initiation and verification** (`core/views.py`,
  `core/paystack_views.py`). An empty cart makes `checkout` and
  `initiate_payment` redirect to the index page. A positive gateway reply
  stores the Paystack reference in the session. A confirmed verification
  turns the cart into a paid order with one order item per cart line, empties
  the cart and drops the reference from the session. Nothing stops the same
  confirmation from being processed twice: the second time creates an extra
  order with no items. The model shows this as it happens.
- **Admin console** (`core/admin.py`). The bulk actions set one field on the
  selected records, whatever its previous value. The fund-wallet form credits a
  wallet and logs exactly one transaction. `get_last_30_days` builds a list of
  dates.

Module layout:

- `Store` (`store.dfy`) holds the storefront tables as a `Database` class, so
  that views can change them in place. It also holds the table queries the
  views issue, written as functions with lemmas. Order placement, which both
  payment views perform, is a method whose loop creates one order item per
  cart line.
- `Views` (`views.dfy`) and `PaystackViews` (`paystack_views.dfy`) hold the
  views. Each is a method over the shared `Database`, and its `modifies` frame
  names exactly the tables it may write.
- `Admin` (`admin.dfy`) holds the admin console's tables as a `VtuDatabase`
  class, the bulk actions, the fund-wallet view and `Last30Days`.
- `Wrappers` (`wrappers.dfy`) holds `Option`.

The gateway's replies are parameters (`InitReply`, `VerifyReply`). So are the
key of a newly created session and today's date. Carts and orders are
identified by their position in their table, because neither is ever deleted.

Facts about the code that shape the model:

- `add_to_cart` never checks the quantity's sign. The model accepts any
  integer, zero and negative ones included.
- `verify_payment` sets neither the order's total nor its reference, and its
  order items carry no price. In the model these fields are `None`.
- Only `payment_success` prices its items, so `Store.CopyLinesValue` is stated
  for it alone: the items are worth the cart lines at catalog prices. Whether
  `Cart.total_price` computes that same value is decided in core/models.py,
  which is not part of this model.
- `verify_payment` creates its order with `is_paid=True`, but `payment_success`
  uses `paid=True`. Both are modelled as the order's paid flag.

## Model

| member | source | states |
|---|---|---|
| `Store.FindCart` | core/paystack_views.py:10 | The cart query by owner returns a cart of that owner, and no earlier cart belongs to the owner. It finds nothing exactly when the owner has no cart. |
| `Store.GetOrCreate` | core/views.py:35-44 | Get-or-create returns a cart of the given owner. If the owner already has a cart, the table is unchanged. Otherwise the owner is appended. Owners stay unique. |
| `Store.GetOrCreateTwice` | core/views.py:37-43 | Resolving the same owner a second time returns the same cart and the same table, so no second cart is ever created. |
| `Store.GetOrCreateKeepsOthers` | core/views.py:37-43 | Resolving one owner's cart never changes which cart another owner already has. |
| `Store.AddLine` | core/views.py:52-57 | Adding to a cart grows the table by at most one row, and a new row is the requested line with the requested quantity. Rows holding other (cart, product) keys keep their positions and values. `Store.AddLineEffect` and `Store.AddLineKeepsUnique` state the quantities and the uniqueness it keeps. |
| `Store.FindLine` | core/views.py:52 | The cart-item lookup returns the first line of (cart, product). It finds nothing exactly when no row has that key. |
| `Store.AddLineEffect` | core/views.py:52-57 | After an add, the product's line holds its previous quantity (zero if there was no line) plus exactly the requested amount. Every other (cart, product) keeps its quantity. A row is appended only when the line was new. |
| `Store.AddLineKeepsUnique` | core/views.py:52-57 | If each product appears at most once per cart before an add, the same holds after it. |
| `Store.TwoProductCart` | core/views.py:52-57 | Into a cart with no lines, add 2 units of a product priced 500, then 1 unit of a product priced 1000. The cart then holds exactly those two lines, in order, and is worth 2000. |
| `Store.LinesOf` | core/views.py:122 | `cart.items.all()` yields exactly the rows of that cart. |
| `Store.WithoutCart` | core/views.py:124 | After `cart.items.all().delete()`, exactly the rows of other carts remain. |
| `Store.ClearedCartIsEmpty` | core/paystack_views.py:24 | After its lines are deleted, a cart has no items. |
| `Store.ClearingKeepsOtherCarts` | core/paystack_views.py:24 | Deleting one cart's lines leaves every other cart's lines unchanged and in order. |
| `Store.WithoutCartKeepsUnique` | core/views.py:124 | Deleting a cart's lines keeps each product at most once per cart. |
| `Store.CopyLines` | core/paystack_views.py:17-23 | Each cart line gives exactly one order item, in order, with the line's product and quantity and the new order's id. When priced, the item's price is the product's catalog price at that moment; otherwise there is no price. |
| `Store.CopyLinesValue` | core/paystack_views.py:17-23 | Priced order items are worth, as a sum of price times quantity, exactly what the copied cart lines are worth at catalog prices. |
| `Store.RecopyAfterClearIsEmpty` | core/paystack_views.py:17-24 | Copying a cart after its lines were deleted yields no order items. |
| `Store.GetOrCreateCart` | core/views.py:37 | `Cart.objects.get_or_create` changes the cart table and returns the id exactly as `GetOrCreate` says. |
| `Store.CopyCartLines` | core/views.py:122-123 | The item-creation loop yields exactly the order items specified by `CopyLines`: one per cart line, in the order the lines are listed. |
| `Store.PlaceOrder` | core/views.py:121-124 | Appends exactly one order, then the cart's lines copied as order items, then deletes that cart's lines. No other table changes, and the table invariants are kept. |
| `Views.OwnerOf` | core/views.py:36-43 | A cart is keyed on the user exactly when the request is signed in. Otherwise it is keyed on the session key, or on the newly created key when the visitor had none. |
| `Views.GetCart` | core/views.py:35-44 | A signed-in user's cart is keyed on the user, and an anonymous visitor's cart on the session key. A visitor without a key first gets a new empty session. The cart is then found or created by `GetOrCreate`. |
| `Views.RequestedQuantity` | core/views.py:50 | The requested quantity is missing exactly when the field is not an integer. A missing field means 1, and an integer field means that integer. |
| `Views.AddToCart` | core/views.py:46-59 | The cart is resolved first. An unknown product gives 404, and a non-integer quantity gives 500; in both cases no cart item changes. Otherwise the line gains the requested quantity, 1 when none is given, and all other lines keep theirs. |
| `Views.Checkout` | core/views.py:65-70 | Resolves the user's cart. It redirects to the index page exactly when the cart has no lines. The session is not touched. |
| `Views.InitiatePayment` | core/views.py:72-99 | An empty cart redirects to the index page, and the session is left unchanged. Otherwise a true gateway status stores the reference under `payment_ref` and redirects to the gateway. A false status or a request error shows the failure page and leaves the session unchanged. |
| `Views.SelectReference` | core/views.py:103-108 | A non-empty query-string reference always wins. Otherwise the session's non-empty `payment_ref` is used. There is no reference exactly when neither exists, and a selected reference is never empty. |
| `Views.Verified` | core/views.py:118-119 | A verification reply confirms the payment exactly when it is a response whose status is true and whose data status is "success". |
| `Views.VerifyPayment` | core/views.py:101-134 | Without a reference it redirects to the failure page and changes nothing. A confirmed reply creates exactly one paid order and copies each cart line as one item with the same product and quantity. The cart ends empty and `payment_ref` is removed. Any other reply leaves every table and the session unchanged. |
| `Views.VerifyTwice` | core/views.py:118-128 | Two confirmed verifications with the same reference create two paid orders. Only the first gets order items. |
| `PaystackViews.PaymentSuccess` | core/paystack_views.py:8-25 | With no cart for the user, it raises a server error and changes nothing. Otherwise it appends exactly one paid order with the URL reference and the total read before clearing. It creates one priced item per line, worth the cart at catalog prices. The cart ends empty, and every other cart, anonymous ones included, keeps its lines. |
| `PaystackViews.PaymentSuccessTwice` | core/paystack_views.py:10-24 | The same callback delivered twice creates a second paid order with the same reference and an empty cart's total, and it has no items. |
| `PaystackViews.PaymentFailure` | core/paystack_views.py:27-28 | Renders the failure page and can change no state, because its frame is empty. |
| `Admin.UpdateSelected` | core/admin.py:101 | `queryset.update` applies the change to every selected record and leaves the other records and the set of records as they were. |
| `Admin.SetVerified` | core/admin.py:100-106 | Exactly the selected profiles get `isVerified` set to the given value. Every other profile, and every other field, is unchanged. |
| `Admin.SetVerifiedLastWins` | core/admin.py:100-106 | Two verify/unverify actions on the same selection leave what the second action alone would leave. |
| `Admin.SetProvidersActive` | core/admin.py:161-167 | Exactly the selected providers get `isActive` set to the given value. Nothing else changes. |
| `Admin.SetPlansActive` | core/admin.py:177-183 | Exactly the selected data plans get `isActive` set to the given value. Nothing else changes. |
| `Admin.SetStatus` | core/admin.py:202-207 | Exactly the selected airtime transactions get the new status, whatever their previous status. Nothing else changes. |
| `Admin.SetStatusLastWins` | core/admin.py:202-207 | Marking a selection twice equals the second marking alone. Marking twice with the same status equals marking once. |
| `Admin.VerifyUsers` | core/admin.py:100-102 | Sets `isVerified` to true on the selected profiles. Only the profile table can change. |
| `Admin.UnverifyUsers` | core/admin.py:104-106 | Sets `isVerified` to false on the selected profiles. Only the profile table can change. |
| `Admin.ActivateProviders` | core/admin.py:161-163 | Sets `isActive` to true on the selected providers. Only the provider table can change. |
| `Admin.DeactivateProviders` | core/admin.py:165-167 | Sets `isActive` to false on the selected providers. Only the provider table can change. |
| `Admin.ActivatePlans` | core/admin.py:177-179 | Sets `isActive` to true on the selected plans. Only the plan table can change. |
| `Admin.DeactivatePlans` | core/admin.py:181-183 | Sets `isActive` to false on the selected plans. Only the plan table can change. |
| `Admin.MarkAsSuccessful` | core/admin.py:202-204 | Sets status `successful` on the selected airtime transactions. Only that table can change. |
| `Admin.MarkAsFailed` | core/admin.py:206-207 | Sets status `failed` on the selected airtime transactions. Only that table can change. |
| `Admin.FundOutcome` | core/admin.py:116-137 | A non-POST request only shows the form. A POST succeeds exactly when the amount parses and the profile exists and has a wallet; any parsed amount is accepted, with no sign or upper-bound check. An unparseable amount is reported before an unknown profile. |
| `Admin.FundWalletView` | core/admin.py:116-145 | On success, the wallet balance grows by exactly the amount and exactly one successful `wallet_funding` transaction with that amount is logged for the profile's user. On an error, or on a non-POST request, balances and the log are unchanged. |
| `Admin.Last30Days` | core/admin.py:54-57 | Exactly 30 dates. The first is today, and each is one day before the previous one. |

## Left out

- The HTTP calls to Paystack (core/views.py:90, 116). Their replies are the parameters `InitReply` and `VerifyReply`. The request payload (e-mail, amount in kobo, callback URL) and the authorization URL are not modelled.
- Gateway replies whose JSON lacks the expected keys. Such a reply raises an uncaught error in the source; the model assumes every reply is well formed.
- `Cart.total_price` and `Cart.total_price_in_kobo`. They are defined in core/models.py, which is not part of this model. The cart total is the uninterpreted function `Database.cartTotal`.
- Rendering, redirect targets, `messages`, and the `login_required` and `require_POST` decorators. Views that require a login take the signed-in user as a parameter.
- Admin display code: `list_display`, the inline classes, `get_app_list`, `get_urls`, `account_balance`, `user_actions` and `admin_actions`.
- `generate_random_pin` (core/admin.py:50-52), because it depends on a random source.
- `total_transactions` (core/admin.py:155-158), because it is only a count query.
- The `payment_verified` signal handler (core/paystack_views.py:30-36), because it only prints.
- `index`, `signup` and `cart_detail`. They only run framework queries and render a page; `cart_detail` resolves the cart as `Views.GetCart` does.
- The routing tables core/urls.py and core/paystack_urls.py.
- Whatever follows line 208 of core/admin.py, including `retry_failed_transactions`, because it is not visible.
- Database atomicity and concurrent requests. The model is sequential. A failure between the wallet update and the transaction log entry is not modelled, and neither is a failure between order creation and cart clearing.
- Changes to the product catalog. The storefront views only read it, so it is constant in the model.
- Admin.FundWalletView: the amount is an integer rather than a floating-point number. The funding description text and its `₦{:,.2f}` formatting are not modelled. The type of `Wallet.balance` is decided in core/models.py, which is not part of this model.
- Admin.Last30Days: dates are unbounded day numbers. Python's error for a date before 0001-01-01 is not modelled.
- Views.AddToCart: parsing of the quantity text is abstracted to "missing, an integer, or not an integer".
- Store.PlaceOrder: the order items are collected first and written to the table in one step after the loop, not one `create` at a time. Without concurrency or failures the intermediate states cannot be observed.
- The fields of `Order` and `Wallet`, declared in core/models.py, which is not part of this model. The model assumes `Order` has both the `is_paid` field set by `verify_payment` and the `paid` field set by `payment_success`; a missing field would make that view fail. It also assumes `Wallet.balance` accepts the float amount `fund_wallet_view` adds (core/admin.py:119-122). A decimal balance would reject it, and the error handler would turn every funding attempt into an error message.
