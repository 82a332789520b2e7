/**
 * Order pricing and order status names.
 *
 * create_order first walks the requested items in order: the first item
 * whose product is missing fails with 404, the first whose product has
 * less stock than asked fails with 400, and every accepted item becomes
 * an order line priced at the product's current price. Nothing is written
 * until every item has passed. The subtotal is the sum of the line totals;
 * VAT is 21% of it and the total is subtotal plus VAT.
 */
module Orders {
  import opened Records
  import Stock

  /** Belgian VAT, 21%. */
  const VatRate: real := 0.21

  /** The item's product exists and has at least the requested quantity in stock. */
  predicate Acceptable(products: map<string, Product>, item: CartItem)
  {
    item.productId in products && products[item.productId].stock >= item.quantity
  }

  /** The error create_order raises for an item that is not acceptable. */
  function Rejection(products: map<string, Product>, item: CartItem): (e: Error)
    requires !Acceptable(products, item)
    ensures e.Code() == (if item.productId in products then 400 else 404)
  {
    if item.productId !in products then ProductNotFound(item.productId)
    else InsufficientStock(item.productId)
  }

  /** The order line for an item: the product's name and current price, total price times quantity. */
  function Line(p: Product, item: CartItem): OrderItem
  {
    OrderItem(item.productId, p.name, item.quantity, p.price, p.price * item.quantity as real)
  }

  /** The lines of an order for `items`, or the error of the first item that is not acceptable. */
  function Quote(products: map<string, Product>, items: seq<CartItem>): (r: Result<seq<OrderItem>>)
    ensures r.Ok? <==> forall k :: 0 <= k < |items| ==> Acceptable(products, items[k])
    ensures r.Ok? ==> |r.value| == |items|
  {
    if items == [] then Ok([])
    else
      var item := items[|items| - 1];
      match Quote(products, items[..|items| - 1])
      case Err(e) => Err(e)
      case Ok(lines) =>
        if !Acceptable(products, item) then Err(Rejection(products, item))
        else Ok(lines + [Line(products[item.productId], item)])
  }

  /** Line k of an accepted order is item k priced at its product's current price. */
  lemma {:induction false} QuoteLine(products: map<string, Product>, items: seq<CartItem>, k: nat)
    requires Quote(products, items).Ok?
    requires k < |items|
    ensures items[k].productId in products
    ensures Quote(products, items).value[k] == Line(products[items[k].productId], items[k])
  {
    assert Acceptable(products, items[k]);
    if k < |items| - 1 {
      var init := items[..|items| - 1];
      assert init[k] == items[k];
      QuoteLine(products, init, k);
    }
  }

  /** A rejected order fails with the error of its first item that is not acceptable: item k. */
  lemma {:induction false} QuoteFirstRejection(products: map<string, Product>, items: seq<CartItem>) returns (k: nat)
    requires Quote(products, items).Err?
    ensures k < |items|
    ensures forall j :: 0 <= j < k ==> Acceptable(products, items[j])
    ensures !Acceptable(products, items[k])
    ensures Quote(products, items).error == Rejection(products, items[k])
  {
    var init := items[..|items| - 1];
    if Quote(products, init).Err? {
      k := QuoteFirstRejection(products, init);
      assert forall j :: 0 <= j <= k ==> init[j] == items[j];
    } else {
      k := |items| - 1;
      assert forall j :: 0 <= j < k ==> init[j] == items[j];
    }
  }

  /** Once a prefix of the items is rejected, the whole request is rejected with the same error. */
  lemma {:induction false} QuoteRejectsPrefix(products: map<string, Product>, items: seq<CartItem>, n: nat)
    requires n <= |items|
    requires Quote(products, items[..n]).Err?
    ensures Quote(products, items) == Quote(products, items[..n])
  {
    if n < |items| {
      var init := items[..|items| - 1];
      assert init[..n] == items[..n];
      QuoteRejectsPrefix(products, init, n);
      assert items[..|items|] == items;
    } else {
      assert items[..n] == items;
    }
  }

  /** Sum of the line totals. */
  function SumTotals(lines: seq<OrderItem>): real
  {
    if lines == [] then 0.0
    else SumTotals(lines[..|lines| - 1]) + lines[|lines| - 1].total
  }

  /** The amounts of an order agree with its lines: subtotal is their sum, tax is 21% of it, total is both. */
  predicate Priced(o: Order)
  {
    && o.subtotal == SumTotals(o.items)
    && o.tax == o.subtotal * VatRate
    && o.total == o.subtotal + o.tax
  }

  /** Each priced line holds its item's product and quantity, so a cancellation gives back what was taken. */
  lemma {:induction false} ReturnedIsDemand(lines: seq<OrderItem>, items: seq<CartItem>, id: string)
    requires |lines| == |items|
    requires forall k :: 0 <= k < |items| ==>
      lines[k].productId == items[k].productId && lines[k].quantity == items[k].quantity
    ensures Stock.Returned(lines, id) == Stock.Demand(items, id)
  {
    if items != [] {
      ReturnedIsDemand(lines[..|lines| - 1], items[..|items| - 1], id);
    }
  }

  /**
   * Cancelling an order right after creating it puts every product's stock
   * back where it was: what create_order withdrew for the requested items
   * is exactly what the cancellation restocks from the order's lines.
   */
  lemma CancelRestoresStock(products: map<string, Product>, items: seq<CartItem>, now: int, id: string)
    requires Quote(products, items).Ok?
    requires id in products
    ensures id in Stock.Restock(Stock.Withdraw(products, items, now), Quote(products, items).value)
    ensures Stock.Restock(Stock.Withdraw(products, items, now), Quote(products, items).value)[id].stock
            == products[id].stock
  {
    var lines := Quote(products, items).value;
    var taken := Stock.Withdraw(products, items, now);
    forall k | 0 <= k < |items|
      ensures lines[k].productId == items[k].productId && lines[k].quantity == items[k].quantity
    {
      QuoteLine(products, items, k);
    }
    Stock.WithdrawAt(products, items, now, id);
    Stock.RestockAt(taken, lines, id);
    ReturnedIsDemand(lines, items, id);
  }

  /**
   * When no product is requested twice, an accepted order never takes a
   * product's stock below zero.
   */
  lemma WithdrawKeepsStockNonNegative(products: map<string, Product>, items: seq<CartItem>, now: int, id: string)
    requires Quote(products, items).Ok?
    requires Stock.DistinctProducts(items)
    requires id in products && products[id].stock >= 0
    ensures id in Stock.Withdraw(products, items, now)
    ensures Stock.Withdraw(products, items, now)[id].stock >= 0
  {
    Stock.WithdrawAt(products, items, now, id);
    if Stock.Mentions(items, id) {
      var k :| 0 <= k < |items| && items[k].productId == id;
      assert Acceptable(products, items[k]);
      Stock.DemandOfDistinct(items, k);
    } else {
      Stock.DemandUnmentioned(items, id);
    }
  }

  /**
   * Every item is checked against the stock as it was before the order, so
   * two lines of 3 for a product with 5 in stock are both accepted and the
   * product ends with a stock of -1.
   */
  lemma RepeatedProductOverdraws(p: Product, now: int)
    requires p.stock == 5
    ensures Quote(map[p.id := p], [CartItem(p.id, 3), CartItem(p.id, 3)]).Ok?
    ensures p.id in Stock.Withdraw(map[p.id := p], [CartItem(p.id, 3), CartItem(p.id, 3)], now)
    ensures Stock.Withdraw(map[p.id := p], [CartItem(p.id, 3), CartItem(p.id, 3)], now)[p.id].stock == -1
  {
    var products := map[p.id := p];
    var items := [CartItem(p.id, 3), CartItem(p.id, 3)];
    assert items[..1] == [CartItem(p.id, 3)] && items[..1][..0] == [];
    Stock.WithdrawAt(products, items, now, p.id);
    assert Stock.Demand(items[..1], p.id) == 3;
    assert Stock.Demand(items, p.id) == 6;
  }

  /** The status names update_order_status accepts. */
  const StatusNames: seq<string> := ["pending", "confirmed", "processing", "shipped", "delivered", "cancelled"]

  function StatusName(s: OrderStatus): string
  {
    match s
    case Pending => "pending"
    case Confirmed => "confirmed"
    case Processing => "processing"
    case Shipped => "shipped"
    case Delivered => "delivered"
    case Cancelled => "cancelled"
  }

  /** The status a name denotes; only the six listed names denote one. */
  function ParseStatus(name: string): (r: Option<OrderStatus>)
    ensures r.None? <==> name !in StatusNames
    ensures r.Some? ==> StatusName(r.value) == name
  {
    if name == "pending" then Some(Pending)
    else if name == "confirmed" then Some(Confirmed)
    else if name == "processing" then Some(Processing)
    else if name == "shipped" then Some(Shipped)
    else if name == "delivered" then Some(Delivered)
    else if name == "cancelled" then Some(Cancelled)
    else None
  }

  /** The payment status names update_payment_status accepts. */
  const PaymentStatusNames: seq<string> := ["pending", "paid", "failed", "refunded"]

  function PaymentStatusName(s: PaymentStatus): string
  {
    match s
    case PaymentPending => "pending"
    case Paid => "paid"
    case Failed => "failed"
    case Refunded => "refunded"
  }

  /** The payment status a name denotes; only the four listed names denote one. */
  function ParsePaymentStatus(name: string): (r: Option<PaymentStatus>)
    ensures r.None? <==> name !in PaymentStatusNames
    ensures r.Some? ==> PaymentStatusName(r.value) == name
  {
    if name == "pending" then Some(PaymentPending)
    else if name == "paid" then Some(Paid)
    else if name == "failed" then Some(Failed)
    else if name == "refunded" then Some(Refunded)
    else None
  }

  /** Every status has a name, and parsing the name gives the status back. */
  lemma StatusNamesRoundTrip(s: OrderStatus, p: PaymentStatus)
    ensures ParseStatus(StatusName(s)) == Some(s)
    ensures ParsePaymentStatus(PaymentStatusName(p)) == Some(p)
  {
  }
}
