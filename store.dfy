/**
 * The backend's collections and the handlers that change them, each run
 * as one atomic step. A handler either returns its value or raises an
 * HTTP error (404 or 400); a handler that raises changes nothing.
 *
 * Identifiers, order numbers, transaction ids and the current time come
 * in as parameters: the backend draws them from uuid4 and the clock.
 */
module Shop {
  import opened Records
  import Stock
  import Orders
  import Customers
  import Discounts
  import Products

  /** What process_mock_payment answers: success, and the transaction id of a successful payment. */
  datatype PaymentReply = PaymentReply(success: bool, transactionId: Option<string>)

  class Store {
    var products: map<string, Product>
    var orders: map<string, Order>
    var discounts: map<string, Discount>
    var customers: map<string, Customer>

    /**
     * Products and orders are stored under their ids, discounts under
     * their upper-case codes and customers under their emails; every order's
     * amounts agree with its lines.
     */
    ghost predicate Valid()
      reads this
    {
      && (forall id :: id in products ==> products[id].id == id)
      && (forall id :: id in orders ==> orders[id].id == id && Orders.Priced(orders[id]))
      && Discounts.WellKeyed(discounts)
      && Customers.KeyedByEmail(customers)
    }

    /** A store holding the given catalog and nothing else. */
    constructor (catalog: map<string, Product>)
      requires forall id :: id in catalog ==> catalog[id].id == id
      ensures Valid()
      ensures products == catalog && orders == map[] && discounts == map[] && customers == map[]
    {
      products := catalog;
      orders := map[];
      discounts := map[];
      customers := map[];
    }

    /** update_stock: add `quantity` (negative to subtract) to a product's stock, never going below zero. */
    method UpdateStock(productId: string, quantity: int, now: int) returns (r: Result<int>)
      requires Valid()
      modifies this
      ensures Valid()
      ensures productId !in old(products) ==> r == Err(ProductNotFound(productId))
      ensures productId in old(products) ==>
        r == if old(products)[productId].stock + quantity < 0 then Err(InsufficientStock(productId))
             else Ok(old(products)[productId].stock + quantity)
      ensures r.Err? ==> products == old(products)
      ensures r.Ok? ==> r.value >= 0 && products == old(products)[productId := old(products)[productId].(stock := r.value, updatedAt := now)]
      ensures Stock.NonNegative(old(products)) ==> Stock.NonNegative(products)
      ensures orders == old(orders) && discounts == old(discounts) && customers == old(customers)
    {
      if productId !in products {
        return Err(ProductNotFound(productId));
      }
      var product := products[productId];
      var newStock := product.stock + quantity;
      if newStock < 0 {
        return Err(InsufficientStock(productId));
      }
      products := products[productId := product.(stock := newStock, updatedAt := now)];
      r := Ok(newStock);
    }

    /** update_product: overwrite the supplied fields of a product. */
    method UpdateProduct(productId: string, update: ProductUpdate, now: int) returns (r: Result<Product>)
      requires Valid()
      modifies this
      ensures Valid()
      ensures productId !in old(products) ==> r == Err(ProductNotFound(productId)) && products == old(products)
      ensures productId in old(products) ==>
        && r == Ok(Products.ApplyUpdate(old(products)[productId], update, now))
        && products == old(products)[productId := r.value]
      ensures orders == old(orders) && discounts == old(discounts) && customers == old(customers)
    {
      if productId !in products {
        return Err(ProductNotFound(productId));
      }
      var updated := Products.ApplyUpdate(products[productId], update, now);
      products := products[productId := updated];
      r := Ok(updated);
    }

    /**
     * The first loop of create_order: check every item in order and price
     * it, summing the line totals. It reads the store and changes nothing.
     */
    method PriceItems(items: seq<CartItem>) returns (r: Result<seq<OrderItem>>, subtotal: real)
      ensures r == Orders.Quote(products, items)
      ensures r.Ok? ==> subtotal == Orders.SumTotals(r.value)
    {
      var lines: seq<OrderItem> := [];
      subtotal := 0.0;
      for i := 0 to |items|
        invariant Orders.Quote(products, items[..i]) == Ok(lines)
        invariant subtotal == Orders.SumTotals(lines)
      {
        var item := items[i];
        assert items[..i + 1][..i] == items[..i];
        if item.productId !in products {
          Orders.QuoteRejectsPrefix(products, items, i + 1);
          return Err(ProductNotFound(item.productId)), subtotal;
        }
        var product := products[item.productId];
        if product.stock < item.quantity {
          Orders.QuoteRejectsPrefix(products, items, i + 1);
          return Err(InsufficientStock(item.productId)), subtotal;
        }
        var itemTotal := product.price * item.quantity as real;
        var line := OrderItem(item.productId, product.name, item.quantity, product.price, itemTotal);
        assert line == Orders.Line(product, item);
        assert Orders.Acceptable(products, item);
        assert Orders.Quote(products, items[..i + 1]) == Ok(lines + [line]);
        lines := lines + [line];
        subtotal := subtotal + itemTotal;
      }
      assert items[..|items|] == items;
      r := Ok(lines);
    }

    /** The second loop of create_order: one `$inc` of minus the quantity per item, in order. */
    method WithdrawItems(items: seq<CartItem>, now: int)
      requires forall id :: id in products ==> products[id].id == id
      modifies this`products
      ensures products == Stock.Withdraw(old(products), items, now)
      ensures forall id :: id in products ==> products[id].id == id
    {
      for i := 0 to |items|
        invariant products == Stock.Withdraw(old(products), items[..i], now)
        invariant forall id :: id in products ==> products[id].id == id
      {
        var item := items[i];
        assert items[..i + 1][..i] == items[..i];
        if item.productId in products {
          var product := products[item.productId];
          products := products[item.productId := product.(stock := product.stock - item.quantity, updatedAt := now)];
        }
      }
      assert items[..|items|] == items;
    }

    /**
     * create_order: price the items, store a pending order with 21% VAT,
     * take every item's quantity from stock and record the order against
     * the customer's email. A rejected item changes nothing.
     */
    method CreateOrder(request: OrderCreate, orderId: string, orderNumber: string, customerId: string, now: int)
      returns (r: Result<Order>)
      requires Valid()
      modifies this
      ensures Valid()
      ensures Orders.Quote(old(products), request.items).Err? ==>
        && r == Err(Orders.Quote(old(products), request.items).error)
        && products == old(products) && orders == old(orders) && customers == old(customers)
      ensures Orders.Quote(old(products), request.items).Ok? ==>
        var lines := Orders.Quote(old(products), request.items).value;
        var subtotal := Orders.SumTotals(lines);
        && r == Ok(Order(orderId, orderNumber, lines, request.customer,
                         subtotal, subtotal * Orders.VatRate, subtotal + subtotal * Orders.VatRate,
                         Pending, PaymentPending, request.paymentMethod, request.notes, now, now))
        && orders == old(orders)[orderId := r.value]
        && products == Stock.Withdraw(old(products), request.items, now)
        && customers == Customers.Upsert(old(customers), request.customer, r.value.total, customerId, now)
      ensures discounts == old(discounts)
    {
      var priced, subtotal := PriceItems(request.items);
      if priced.Err? {
        return Err(priced.error);
      }
      var tax := subtotal * Orders.VatRate;
      var total := subtotal + tax;
      var order := Order(orderId, orderNumber, priced.value, request.customer, subtotal, tax, total,
                         Pending, PaymentPending, request.paymentMethod, request.notes, now, now);
      orders := orders[orderId := order];

      WithdrawItems(request.items, now);
      customers := Customers.Upsert(customers, request.customer, total, customerId, now);
      r := Ok(order);
    }

    /**
     * update_order_status: set a valid status; moving an order that is not
     * yet cancelled to "cancelled" gives every line's quantity back to stock.
     */
    method UpdateOrderStatus(orderId: string, status: string, now: int) returns (r: Result<OrderStatus>)
      requires Valid()
      modifies this
      ensures Valid()
      ensures r.Ok? <==> Orders.ParseStatus(status).Some? && orderId in old(orders)
      ensures Orders.ParseStatus(status).None? ==> r == Err(InvalidStatus)
      ensures Orders.ParseStatus(status).Some? && orderId !in old(orders) ==> r == Err(OrderNotFound)
      ensures r.Err? ==> products == old(products) && orders == old(orders)
      ensures r.Ok? ==>
        var was := old(orders)[orderId];
        && r.value == Orders.ParseStatus(status).value
        && orders == old(orders)[orderId := was.(status := r.value, updatedAt := now)]
        && products == if r.value == Cancelled && was.status != Cancelled then Stock.Restock(old(products), was.items)
                       else old(products)
      ensures discounts == old(discounts) && customers == old(customers)
    {
      var parsed := Orders.ParseStatus(status);
      if parsed.None? {
        return Err(InvalidStatus);
      }
      if orderId !in orders {
        return Err(OrderNotFound);
      }
      var order := orders[orderId];
      var newStatus := parsed.value;
      if newStatus == Cancelled && order.status != Cancelled {
        ghost var before := products;
        var lines := order.items;
        for i := 0 to |lines|
          modifies this`products
          invariant products == Stock.Restock(before, lines[..i])
          invariant forall id :: id in products ==> products[id].id == id
        {
          var line := lines[i];
          assert lines[..i + 1][..i] == lines[..i];
          if line.productId in products {
            var product := products[line.productId];
            products := products[line.productId := product.(stock := product.stock + line.quantity)];
          }
        }
        assert lines[..|lines|] == lines;
      }
      orders := orders[orderId := order.(status := newStatus, updatedAt := now)];
      r := Ok(newStatus);
    }

    /** update_payment_status: set a valid payment status on an existing order. */
    method UpdatePaymentStatus(orderId: string, paymentStatus: string, now: int) returns (r: Result<PaymentStatus>)
      requires Valid()
      modifies this
      ensures Valid()
      ensures r.Ok? <==> Orders.ParsePaymentStatus(paymentStatus).Some? && orderId in old(orders)
      ensures Orders.ParsePaymentStatus(paymentStatus).None? ==> r == Err(InvalidPaymentStatus)
      ensures Orders.ParsePaymentStatus(paymentStatus).Some? && orderId !in old(orders) ==> r == Err(OrderNotFound)
      ensures r.Err? ==> orders == old(orders)
      ensures r.Ok? ==>
        && r.value == Orders.ParsePaymentStatus(paymentStatus).value
        && orders == old(orders)[orderId := old(orders)[orderId].(paymentStatus := r.value, updatedAt := now)]
      ensures products == old(products) && discounts == old(discounts) && customers == old(customers)
    {
      var parsed := Orders.ParsePaymentStatus(paymentStatus);
      if parsed.None? {
        return Err(InvalidPaymentStatus);
      }
      if orderId !in orders {
        return Err(OrderNotFound);
      }
      orders := orders[orderId := orders[orderId].(paymentStatus := parsed.value, updatedAt := now)];
      r := Ok(parsed.value);
    }

    /**
     * process_mock_payment: a successful payment marks the order paid and
     * confirmed, whatever its status was; a failed one marks it failed.
     */
    method ProcessMockPayment(orderId: string, success: bool, transactionId: string, now: int)
      returns (r: Result<PaymentReply>)
      requires Valid()
      modifies this
      ensures Valid()
      ensures orderId !in old(orders) ==> r == Err(OrderNotFound) && orders == old(orders)
      ensures orderId in old(orders) ==>
        var was := old(orders)[orderId];
        if success then
          && r == Ok(PaymentReply(true, Some("MOCK-" + transactionId)))
          && orders == old(orders)[orderId := was.(paymentStatus := Paid, status := Confirmed, updatedAt := now)]
        else
          && r == Ok(PaymentReply(false, None))
          && orders == old(orders)[orderId := was.(paymentStatus := Failed, updatedAt := now)]
      ensures products == old(products) && discounts == old(discounts) && customers == old(customers)
    {
      if orderId !in orders {
        return Err(OrderNotFound);
      }
      var order := orders[orderId];
      if success {
        orders := orders[orderId := order.(paymentStatus := Paid, status := Confirmed, updatedAt := now)];
        r := Ok(PaymentReply(true, Some("MOCK-" + transactionId)));
      } else {
        orders := orders[orderId := order.(paymentStatus := Failed, updatedAt := now)];
        r := Ok(PaymentReply(false, None));
      }
    }

    /** create_discount: store a new discount under its upper-cased code, unless that code exists. */
    method CreateDiscount(input: DiscountInput, id: string, now: int) returns (r: Result<Discount>)
      requires Valid()
      modifies this
      ensures Valid()
      ensures r == Discounts.Create(old(discounts), input, id, now)
      ensures discounts == if r.Ok? then old(discounts)[r.value.code := r.value] else old(discounts)
      ensures products == old(products) && orders == old(orders) && customers == old(customers)
    {
      r := Discounts.Create(discounts, input, id, now);
      if r.Ok? {
        discounts := discounts[r.value.code := r.value];
      }
    }
  }

  /**
   * Cancelling an order, confirming it again through a successful mock
   * payment and cancelling it once more gives its quantities back to stock
   * twice: the guard only compares with the status the order has now.
   */
  method CancelPayCancel(store: Store, orderId: string, transactionId: string, now: int, id: string)
    requires store.Valid()
    requires orderId in store.orders && store.orders[orderId].status != Cancelled
    requires id in store.products
    modifies store
    ensures id in store.products
    ensures store.products[id].stock
            == old(store.products[id].stock) + 2 * Stock.Returned(old(store.orders[orderId].items), id)
  {
    ghost var lines := store.orders[orderId].items;
    ghost var start := store.products;
    var first := store.UpdateOrderStatus(orderId, "cancelled", now);
    Stock.RestockAt(start, lines, id);
    ghost var once := store.products;
    var paid := store.ProcessMockPayment(orderId, true, transactionId, now);
    var second := store.UpdateOrderStatus(orderId, "cancelled", now);
    Stock.RestockAt(once, lines, id);
  }
}
