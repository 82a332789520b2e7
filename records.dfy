/**
 * Record shapes of the hardware store backend: products, cart and order
 * items, orders, customers and discount codes, together with the error
 * codes its handlers raise.
 *
 * Money is an exact `real` (the backend uses binary floats and rounds to
 * cents when it stores an order); timestamps are plain `int`s.
 */
module Records {

  /** A text in the four languages of the store: Flemish, French, English, Turkish. */
  datatype Text = Text(nl: string, fr: string, en: string, tr: string)

  datatype Option<+T> = None | Some(value: T)

  /** What a handler returns: its value, or the HTTP error it raises. */
  datatype Result<+T> = Ok(value: T) | Err(error: Error)

  datatype Error =
    | ProductNotFound(productId: string)
    | InsufficientStock(productId: string)
    | InvalidStatus
    | InvalidPaymentStatus
    | OrderNotFound
    | CodeExists
    | InvalidCode
    | Expired
    | UsesExhausted
    | BelowMinimum(minimum: real)
  {
    /** The HTTP status code that goes with the error. */
    function Code(): (c: int)
      ensures c == 404 || c == 400
      ensures c == 404 <==> (ProductNotFound? || OrderNotFound? || InvalidCode?)
    {
      match this
      case ProductNotFound(_) => 404
      case OrderNotFound => 404
      case InvalidCode => 404
      case _ => 400
    }
  }

  datatype Product = Product(
    id: string,
    name: Text,
    description: Text,
    price: real,
    stock: int,
    sku: string,
    categoryId: string,
    images: seq<string>,
    isActive: bool,
    unit: string,
    brand: string,
    specifications: map<string, string>,
    createdAt: int,
    updatedAt: int)

  /** The body of a product update: every field is optional. */
  datatype ProductUpdate = ProductUpdate(
    name: Option<Text>,
    description: Option<Text>,
    price: Option<real>,
    stock: Option<int>,
    sku: Option<string>,
    categoryId: Option<string>,
    images: Option<seq<string>>,
    isActive: Option<bool>,
    unit: Option<string>,
    brand: Option<string>,
    specifications: Option<map<string, string>>)

  /** One line of an order request. The backend does not check that quantity is positive. */
  datatype CartItem = CartItem(productId: string, quantity: int)

  /** One priced line of a stored order. */
  datatype OrderItem = OrderItem(productId: string, productName: Text, quantity: int, price: real, total: real)

  datatype CustomerInfo = CustomerInfo(
    name: string,
    email: string,
    phone: string,
    address: string,
    city: string,
    postalCode: string,
    country: string)

  datatype OrderCreate = OrderCreate(items: seq<CartItem>, customer: CustomerInfo, paymentMethod: string, notes: string)

  datatype OrderStatus = Pending | Confirmed | Processing | Shipped | Delivered | Cancelled

  datatype PaymentStatus = PaymentPending | Paid | Failed | Refunded

  datatype Order = Order(
    id: string,
    orderNumber: string,
    items: seq<OrderItem>,
    customer: CustomerInfo,
    subtotal: real,
    tax: real,
    total: real,
    status: OrderStatus,
    paymentStatus: PaymentStatus,
    paymentMethod: string,
    notes: string,
    createdAt: int,
    updatedAt: int)

  datatype Customer = Customer(
    id: string,
    name: string,
    email: string,
    phone: string,
    address: string,
    city: string,
    postalCode: string,
    country: string,
    totalOrders: int,
    totalSpent: real,
    createdAt: int)

  /** The body of a discount creation request. */
  datatype DiscountInput = DiscountInput(
    code: string,
    name: Text,
    description: Text,
    discountType: string,
    discountValue: real,
    minOrderAmount: real,
    maxUses: int,
    usedCount: int,
    isActive: bool,
    validFrom: int,
    validUntil: Option<int>)

  datatype Discount = Discount(
    id: string,
    code: string,
    name: Text,
    description: Text,
    discountType: string,
    discountValue: real,
    minOrderAmount: real,
    maxUses: int,
    usedCount: int,
    isActive: bool,
    validFrom: int,
    validUntil: Option<int>,
    createdAt: int)
}
