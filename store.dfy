/**
 * The rows of the application's SQLite database and the database itself,
 * held in memory: one table per field of `Db`.
 */
module Store {
  import opened Wrappers
  import opened Tables

  /** A catalog entry; `promoPrice` is NULL when the product has no promotion. */
  datatype Product = Product(
    name: string, category: string, store: string,
    price: int, promoPrice: Option<int>, rating: real, image: Option<string>)

  datatype User = User(
    name: string, email: string, passwordHash: string, role: string,
    phone: Option<string>, avatarUrl: Option<string>)

  /** The payment-gateway columns of an order; all NULL when the order is created. */
  datatype PaymentColumns = PaymentColumns(
    paymentUrl: Option<string>, paymentToken: Option<string>, paymentQr: Option<string>,
    midtransOrderId: Option<string>, bankCode: Option<string>, vaNumber: Option<string>,
    vaExpiredAt: Option<string>, billerCode: Option<string>, billKey: Option<string>)

  const NoPaymentColumns := PaymentColumns(None, None, None, None, None, None, None, None, None)

  datatype Order = Order(
    userId: nat, status: string, paymentStatus: string,
    paymentMethod: string, deliveryMethod: string, address: string, note: string,
    subtotal: int, deliveryFee: int, total: int, payment: PaymentColumns)

  /** The single line of an order, with the catalog prices as they were at checkout. */
  datatype OrderItem = OrderItem(orderId: nat, productId: nat, qty: nat, price: int, promoPrice: Option<int>)

  datatype CartItem = CartItem(userId: nat, productId: nat, qty: int)

  datatype Address = Address(userId: nat, title: string, detail: string, isPrimary: bool)

  /** A password-reset request; times are milliseconds since the epoch. */
  datatype PasswordReset = PasswordReset(
    userId: nat, otpHash: string, expiresAt: int, attempts: int, verified: bool,
    resetTokenHash: Option<string>, resetTokenExpiresAt: Option<int>, createdAt: int)

  /** The decoded bearer token a request carries (`req.user`). */
  datatype Principal = Principal(id: nat, email: string, role: string)

  /** The contents of every table at one moment. */
  datatype Snapshot = Snapshot(
    products: Table<Product>, users: Table<User>, orders: Table<Order>,
    orderItems: Table<OrderItem>, cartItems: Table<CartItem>,
    addresses: Table<Address>, resets: Table<PasswordReset>)

  /** The database the handlers open: each field is one table. */
  class Db {
    var products: Table<Product>
    var users: Table<User>
    var orders: Table<Order>
    var orderItems: Table<OrderItem>
    var cartItems: Table<CartItem>
    var addresses: Table<Address>
    var resets: Table<PasswordReset>

    ghost predicate Valid()
      reads this
    {
      && products.Valid() && users.Valid() && orders.Valid() && orderItems.Valid()
      && cartItems.Valid() && addresses.Valid() && resets.Valid()
    }

    ghost function State(): Snapshot
      reads this
    {
      Snapshot(products, users, orders, orderItems, cartItems, addresses, resets)
    }

    /** A database holding the seeded catalog and nothing else. */
    constructor (catalog: Table<Product>)
      requires catalog.Valid()
      ensures Valid()
      ensures State() == Snapshot(catalog, Empty(), Empty(), Empty(), Empty(), Empty(), Empty())
    {
      products := catalog;
      users := Empty();
      orders := Empty();
      orderItems := Empty();
      cartItems := Empty();
      addresses := Empty();
      resets := Empty();
    }
  }
}
