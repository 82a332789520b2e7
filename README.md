# Belgian hardware store backend: business rules in Dafny

This project models the business rules inside the HTTP handlers of the
hardware store's backend (`backend/server.py`). The backend keeps four
collections: products, orders, discounts and customers. Here they are the
map fields of one class, `Shop.Store`:

- products and orders are keyed by id;
- discounts are keyed by their upper-case code;
- customers are keyed by email.

Each handler is an atomic method. It returns either its value or the HTTP
error it raises (`Records.Error`, whose `Code()` is 404 or 400). A handler
that raises leaves every collection as it was.

Modules:

- `Records`: the record shapes (`ProductBase`/`Product`, `ProductUpdate`,
  `CartItem`, `OrderItem`, `CustomerInfo`, `OrderCreate`, `Order`, `Customer`,
  `DiscountBase`/`Discount`) as datatypes. Money is an exact `real`.
  Timestamps are `int`.
- `Stock`: the stock moves. create_order does one `$inc` of minus the
  quantity per requested item. A cancellation does one `$inc` of plus the
  quantity per order line. Both are folds over the items, with lemmas
  giving each product's resulting stock.
- `Orders`: checking and pricing the items of an order, the 21% VAT, and
  the status names.
- `Customers`: the customer upsert done by create_order.
- `Discounts`: upper-casing codes, `create_discount`'s uniqueness check, and
  `validate_discount`'s ordered chain of checks.
- `Products`: the partial update done by `update_product`.
- `Shop`: the store class and its handlers. The loops of create_order and
  update_order_status are `for` loops. Their invariants tie the state so
  far to the fold functions above.

Ids, order numbers, transaction ids and "now" are parameters. The backend
draws them from uuid4 and the clock.

The storefront's overall design describes a client-side cart that applies
discounts to totals. The backend code does something else, and this model
follows the code: create_order applies no discount, and no shown handler
ever increments a discount's `used_count`.

## Behaviour of the code as written

The model keeps these behaviours of the code, and proves them:

- create_order checks every item against the stock as it was before the
  order. If a product id appears twice, the combined quantity can exceed
  the stock, and the stock goes negative. `Orders.RepeatedProductOverdraws`
  shows a product with stock 5 and two lines of 3 ending at -1. When no
  product appears twice, stock stays non-negative
  (`Orders.WithdrawKeepsStockNonNegative`).
- update_order_status restores stock only when the order is not already
  cancelled, so two cancellations in a row restore once. But
  process_mock_payment sets the status to "confirmed" without looking at
  the old status. So cancel, then pay, then cancel restores the stock twice
  (`Shop.CancelPayCancel`).
- validate_discount never looks at `valid_from` (`Discounts.ValidFromIgnored`).
- create_order does not check `is_active` or the sign of quantities.
  update_product can set any stock, including a negative one.

## Model

| member | source | states |
|---|---|---|
| `Stock.WithdrawAt` | backend/server.py:358-363 | Taking an order's items from stock keeps the set of products. Each product's stock drops by the total quantity requested of it. Exactly the requested products get the new `updated_at`. Nothing else changes. |
| `Stock.RestockAt` | backend/server.py:429-435 | Restocking keeps the set of products and raises each stock by the quantity its order lines hold. Nothing else changes, and no timestamp is set. |
| `Stock.DemandUnmentioned` | backend/server.py:359-363 | A product that no item names is asked for nothing. |
| `Stock.DemandOfDistinct` | backend/server.py:359-363 | When no product is requested twice, each product is asked for exactly its own line's quantity. |
| `Stock.WithdrawDistinct` | backend/server.py:359-363 | When no product is requested twice, each ordered product's stock drops by exactly its item's quantity. |
| `Stock.WithdrawLeavesOthers` | backend/server.py:359-363 | A product the order does not name keeps its whole record. |
| `Orders.Rejection` | backend/server.py:323-326 | A missing product gives 404. A product with too little stock gives 400. |
| `Orders.Quote` | backend/server.py:321-336 | Succeeds iff every item's product exists with stock at least the item's quantity, and then gives one line per item. |
| `Orders.QuoteLine` | backend/server.py:328-335 | Line k of an accepted order holds item k's product id and quantity, the product's name and current price, and total = price × quantity. |
| `Orders.QuoteFirstRejection` | backend/server.py:321-326 | A rejected order fails with the error of its first failing item; every earlier item passed. |
| `Orders.QuoteRejectsPrefix` | backend/server.py:321-326 | Once a prefix of the items is rejected, the whole order is rejected with the same error. |
| `Orders.ReturnedIsDemand` | backend/server.py:329-335 | Order lines carry their items' product ids and quantities, so what a cancellation returns equals what the order took. |
| `Orders.CancelRestoresStock` | backend/server.py:429-435 | Cancelling right after creating puts every product's stock back to its value before the order. |
| `Orders.WithdrawKeepsStockNonNegative` | backend/server.py:321-326 | For an accepted order naming no product twice, no stock that was non-negative goes negative. |
| `Orders.RepeatedProductOverdraws` | backend/server.py:321-326 | Two lines of 3 for one product with stock 5 are both accepted, and the stock ends at -1. |
| `Orders.ParseStatus` | backend/server.py:421-423 | Exactly the six listed names are accepted, each as the status of that name. |
| `Orders.ParsePaymentStatus` | backend/server.py:445-447 | Exactly the four listed payment names are accepted, each as the status of that name. |
| `Orders.StatusNamesRoundTrip` | backend/server.py:421 | Parsing a status's name gives the status back, for order and payment statuses. |
| `Customers.Upsert` | backend/server.py:366-392 | The result holds one record per email, with the order's email added. A known customer gets one more order, `total` more spent, and new contact details; id, country and created time are kept. A new customer gets one order, `total` spent and country "Belgium". All other customers are unchanged. |
| `Discounts.Upper` | backend/server.py:468 | Upper-casing keeps the length, maps each character to its capital, and leaves no lower-case letter. |
| `Discounts.UpperOfUpper` | backend/server.py:473 | An upper-case string is its own upper-case form. |
| `Discounts.UpperIdempotent` | backend/server.py:473 | Upper-casing twice is upper-casing once. |
| `Discounts.Create` | backend/server.py:467-476 | Fails with 400 iff a stored code equals the new one up to letter case. Otherwise the new discount has the upper-cased code, is not yet stored, keeps the store keyed by upper-case codes, and copies the request's fields. |
| `Discounts.CreateKeepsCodesDistinct` | backend/server.py:467-470 | After a creation, no two stored codes are equal up to letter case. |
| `Discounts.Validate` | backend/server.py:480-494 | Succeeds iff an active discount is stored under the upper-cased code, it is not expired, not used up (cap > 0 and used ≥ cap), and the amount meets the minimum. It then returns that discount. Each error holds exactly when the earlier checks pass and its own fails: 404 for no active discount, then expired, exhausted, below minimum (400, naming the minimum). |
| `Discounts.ValidateIgnoresCase` | backend/server.py:480 | Codes that differ only in letter case validate alike. |
| `Discounts.ValidFromIgnored` | backend/server.py:484-494 | Changing `valid_from` does not change whether a code validates. |
| `Products.ApplyUpdate` | backend/server.py:279-281 | Every supplied field takes the supplied value, and every absent field keeps its value. Id and created time are kept and `updated_at` is now. An empty update changes only `updated_at`. |
| `Products.ApplyUpdateIdempotent` | backend/server.py:279 | Applying the same update twice at one instant equals applying it once. |
| `Shop.Store.UpdateStock` | backend/server.py:286-301 | 404 for an unknown id. 400 with nothing changed if old stock + quantity < 0. Otherwise it returns that non-negative sum, stores it as the stock and stamps the product; nothing else changes. It keeps all stocks non-negative. |
| `Shop.Store.UpdateProduct` | backend/server.py:273-284 | 404 for an unknown id. Otherwise it stores and returns the partially updated product; nothing else changes. |
| `Shop.Store.PriceItems` | backend/server.py:321-336 | The first loop of create_order computes `Orders.Quote` of the items against the store, and a subtotal equal to the sum of the line totals. |
| `Shop.Store.WithdrawItems` | backend/server.py:358-363 | The second loop of create_order leaves products equal to `Stock.Withdraw` of the items. |
| `Shop.Store.CreateOrder` | backend/server.py:315-394 | A rejected item produces that error and changes nothing. Otherwise it stores a pending, unpaid order with the quoted lines, subtotal = sum of line totals, tax = 21% of subtotal and total = subtotal + tax. It withdraws the items from stock and upserts the customer with that total. |
| `Shop.Store.UpdateOrderStatus` | backend/server.py:419-441 | An invalid status gives 400, checked before the order lookup; an unknown order gives 404. Otherwise it sets status and `updated_at`. Stock is restocked from the order's lines only when moving a not-yet-cancelled order to cancelled; no other transition touches stock. |
| `Shop.Store.UpdatePaymentStatus` | backend/server.py:443-455 | An invalid payment status gives 400 and an unknown order 404. Otherwise it sets payment status and `updated_at`, and nothing else. |
| `Shop.Store.ProcessMockPayment` | backend/server.py:626-648 | An unknown order gives 404. Success marks the order paid and confirmed and returns "MOCK-" + the transaction id. Failure marks it payment-failed and leaves its status. |
| `Shop.Store.CreateDiscount` | backend/server.py:465-476 | Returns `Discounts.Create` of the request. On success it stores the discount under its upper-case code; nothing else changes. |
| `Shop.CancelPayCancel` | backend/server.py:429-440 | Cancel, then a successful mock payment, then cancel again raises a product's stock by twice the quantity the order holds of it. |

## Left out

- FastAPI app and router setup, CORS, logging, dotenv and the Mongo client lifecycle: framework and I/O glue.
- Category handlers, create_product, delete handlers, and the get/list/search handlers (regex, skip, limit): database query construction outside these business rules. The initial catalog is the argument of `Shop.Store`'s constructor.
- The dashboard and sales-report aggregation pipelines: MongoDB aggregation calls.
- seed_database: static fixture data.
- generate_order_number and str_id: uuid4 and the clock. Ids, order numbers and transaction ids are parameters, and so is "now".
- `round(x, 2)` on stored order amounts: binary floating point. The model stores the exact amounts the rounding is applied to. The customer's `total_spent` receives the unrounded total in the backend too.
- Async interleaving between awaits: each handler is one atomic step. Concurrent requests are not modelled.
- Pydantic request validation and coercion (422 responses): request bodies are typed datatypes here.
- Error detail texts and the `message` strings of responses: errors keep only their kind and the detail's data. update_order_status and update_payment_status return the status they set.
- `Discounts.Upper`: the backend's `str.upper()` is full Unicode upper-casing; the model upper-cases ASCII `a`-`z` only.
- The backend creates no unique index on customer emails or discount codes. The maps assume one record per email and per code, which create_order and create_discount maintain.
- Timestamps are integers compared as numbers, standing for the backend's UTC datetimes.
