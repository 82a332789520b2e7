/**
 * Stock moves on the products collection: what create_order takes from
 * stock (one `$inc` of minus the quantity per requested item, with a new
 * `updated_at`) and what a cancellation gives back (one `$inc` of plus the
 * quantity per order line, timestamp untouched).
 *
 * Both are folds over the items in request order, written on the prefix
 * so that a loop over the items can keep "the products so far" as its
 * invariant.
 */
module Stock {
  import opened Records

  /** Total quantity that the request lines `items` ask of product `id`. */
  function Demand(items: seq<CartItem>, id: string): int
  {
    if items == [] then 0
    else
      var last := items[|items| - 1];
      Demand(items[..|items| - 1], id) + (if last.productId == id then last.quantity else 0)
  }

  /** Total quantity that the order lines `lines` hold of product `id`. */
  function Returned(lines: seq<OrderItem>, id: string): int
  {
    if lines == [] then 0
    else
      var last := lines[|lines| - 1];
      Returned(lines[..|lines| - 1], id) + (if last.productId == id then last.quantity else 0)
  }

  predicate Mentions(items: seq<CartItem>, id: string)
  {
    exists k :: 0 <= k < |items| && items[k].productId == id
  }

  /** No two request lines name the same product. */
  predicate DistinctProducts(items: seq<CartItem>)
  {
    forall j, k :: 0 <= j < k < |items| ==> items[j].productId != items[k].productId
  }

  /** No product has a negative stock. */
  predicate NonNegative(products: map<string, Product>)
  {
    forall id :: id in products ==> products[id].stock >= 0
  }

  /** One `$inc` of `-item.quantity` with a new `updated_at`; a missing product matches nothing. */
  function Take(products: map<string, Product>, item: CartItem, now: int): map<string, Product>
  {
    if item.productId in products then
      var p := products[item.productId];
      products[item.productId := p.(stock := p.stock - item.quantity, updatedAt := now)]
    else
      products
  }

  /** One `$inc` of `+line.quantity`; a missing product matches nothing. */
  function Give(products: map<string, Product>, line: OrderItem): map<string, Product>
  {
    if line.productId in products then
      var p := products[line.productId];
      products[line.productId := p.(stock := p.stock + line.quantity)]
    else
      products
  }

  /** The products after taking every request line from stock, in order. */
  function Withdraw(products: map<string, Product>, items: seq<CartItem>, now: int): map<string, Product>
  {
    if items == [] then products
    else Take(Withdraw(products, items[..|items| - 1], now), items[|items| - 1], now)
  }

  /** The products after returning every order line to stock, in order. */
  function Restock(products: map<string, Product>, lines: seq<OrderItem>): map<string, Product>
  {
    if lines == [] then products
    else Give(Restock(products, lines[..|lines| - 1]), lines[|lines| - 1])
  }

  /**
   * Withdrawing keeps the set of products, lowers each one's stock by the
   * total quantity requested of it, stamps exactly the requested ones and
   * changes nothing else about any product.
   */
  lemma {:induction false} WithdrawAt(products: map<string, Product>, items: seq<CartItem>, now: int, id: string)
    ensures Withdraw(products, items, now).Keys == products.Keys
    ensures id in products ==>
      Withdraw(products, items, now)[id] ==
        products[id].(stock := products[id].stock - Demand(items, id),
                      updatedAt := if Mentions(items, id) then now else products[id].updatedAt)
  {
    if items != [] {
      var init := items[..|items| - 1];
      var last := items[|items| - 1];
      WithdrawAt(products, init, now, id);
      assert Mentions(items, id) <==> Mentions(init, id) || last.productId == id by {
        if Mentions(items, id) {
          var k :| 0 <= k < |items| && items[k].productId == id;
          if k < |init| { assert init[k] == items[k]; }
        }
        if Mentions(init, id) {
          var k :| 0 <= k < |init| && init[k].productId == id;
          assert items[k] == init[k];
        }
      }
    }
  }

  /**
   * Restocking keeps the set of products, raises each one's stock by the
   * total quantity its order lines hold, and changes nothing else.
   */
  lemma {:induction false} RestockAt(products: map<string, Product>, lines: seq<OrderItem>, id: string)
    ensures Restock(products, lines).Keys == products.Keys
    ensures id in products ==>
      Restock(products, lines)[id] == products[id].(stock := products[id].stock + Returned(lines, id))
  {
    if lines != [] {
      RestockAt(products, lines[..|lines| - 1], id);
    }
  }

  /** A product that no request line names is asked for nothing. */
  lemma {:induction false} DemandUnmentioned(items: seq<CartItem>, id: string)
    requires !Mentions(items, id)
    ensures Demand(items, id) == 0
  {
    if items != [] {
      var init := items[..|items| - 1];
      assert forall j :: 0 <= j < |init| ==> init[j] == items[j];
      DemandUnmentioned(init, id);
    }
  }

  /** When no product is requested twice, each product is asked for exactly its own line's quantity. */
  lemma {:induction false} DemandOfDistinct(items: seq<CartItem>, k: nat)
    requires DistinctProducts(items)
    requires k < |items|
    ensures Demand(items, items[k].productId) == items[k].quantity
  {
    var init := items[..|items| - 1];
    var id := items[k].productId;
    if k == |items| - 1 {
      assert forall j :: 0 <= j < |init| ==> init[j] == items[j];
      DemandUnmentioned(init, id);
    } else {
      assert init[k] == items[k];
      DemandOfDistinct(init, k);
    }
  }

  /**
   * The stock frame of an order whose products are all distinct: each
   * ordered product loses exactly its line's quantity.
   */
  lemma WithdrawDistinct(products: map<string, Product>, items: seq<CartItem>, now: int, k: nat)
    requires DistinctProducts(items)
    requires k < |items| && items[k].productId in products
    ensures items[k].productId in Withdraw(products, items, now)
    ensures Withdraw(products, items, now)[items[k].productId].stock
            == products[items[k].productId].stock - items[k].quantity
  {
    WithdrawAt(products, items, now, items[k].productId);
    DemandOfDistinct(items, k);
  }

  /** A product that no line names keeps its whole record, timestamp included. */
  lemma WithdrawLeavesOthers(products: map<string, Product>, items: seq<CartItem>, now: int, id: string)
    requires !Mentions(items, id)
    requires id in products
    ensures id in Withdraw(products, items, now)
    ensures Withdraw(products, items, now)[id] == products[id]
  {
    WithdrawAt(products, items, now, id);
    DemandUnmentioned(items, id);
  }
}
