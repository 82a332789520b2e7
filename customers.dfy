/**
 * The customers collection as create_order maintains it: one record per
 * email address, with a running count of orders and amount spent.
 */
module Customers {
  import opened Records

  /** Every record is stored under its own email, so there is one record per email. */
  predicate KeyedByEmail(customers: map<string, Customer>)
  {
    forall e :: e in customers ==> customers[e].email == e
  }

  /**
   * Records an order of `total` for the customer `info`. A known email has
   * its order count raised by one, its spending raised by `total` and its
   * contact details (name, phone, address, city, postal code, not country)
   * overwritten. An unknown email gets a new record with one order, `total`
   * spent and the country "Belgium", whatever country the order names.
   */
  function Upsert(customers: map<string, Customer>, info: CustomerInfo, total: real, customerId: string, now: int)
    : (r: map<string, Customer>)
    requires KeyedByEmail(customers)
    ensures KeyedByEmail(r)
    ensures r.Keys == customers.Keys + {info.email}
    ensures forall e :: e in customers && e != info.email ==> r[e] == customers[e]
    ensures var c := r[info.email];
      && (c.name, c.phone, c.address, c.city, c.postalCode)
         == (info.name, info.phone, info.address, info.city, info.postalCode)
    ensures info.email in customers ==>
      var was, c := customers[info.email], r[info.email];
      && c.totalOrders == was.totalOrders + 1
      && c.totalSpent == was.totalSpent + total
      && (c.id, c.country, c.createdAt) == (was.id, was.country, was.createdAt)
    ensures info.email !in customers ==>
      var c := r[info.email];
      && c.totalOrders == 1
      && c.totalSpent == total
      && (c.id, c.country, c.createdAt) == (customerId, "Belgium", now)
  {
    if info.email in customers then
      var was := customers[info.email];
      customers[info.email := was.(
        name := info.name,
        phone := info.phone,
        address := info.address,
        city := info.city,
        postalCode := info.postalCode,
        totalOrders := was.totalOrders + 1,
        totalSpent := was.totalSpent + total)]
    else
      customers[info.email := Customer(
        customerId, info.name, info.email, info.phone, info.address, info.city, info.postalCode,
        "Belgium", 1, total, now)]
  }
}
