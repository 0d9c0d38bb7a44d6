/**
 * Checkout: pricing one product, creating the order with its single order
 * item, and starting the payment; and the manual payment confirmation.
 */
module Orders {
  import opened Wrappers
  import opened Strings
  import opened Tables
  import opened Store
  import opened Request
  import opened Payment

  const PaymentMethods: seq<string> := ["cash", "qris", "bank_transfer"]
  const DeliveryMethods: seq<string> := ["pickup", "delivery"]

  /** The surcharge of a delivered order. */
  const DeliveryFee := 5000

  datatype CheckoutBody = CheckoutBody(
    productId: Field, qty: Field, paymentMethod: Field, deliveryMethod: Field, address: Field, note: Field)

  datatype CheckoutRequest = CheckoutRequest(
    productId: nat, qty: nat, paymentMethod: string, deliveryMethod: string,
    address: Option<string>, note: Option<string>)

  /**
   * `checkoutSchema`: a positive integer product id, a positive integer
   * quantity defaulting to 1, an enumerated payment method defaulting to
   * `qris` and delivery method defaulting to `pickup`, optional strings.
   */
  function ParseCheckout(b: CheckoutBody): (r: Option<CheckoutRequest>)
    ensures r.Some? <==>
      PositiveInt(b.productId).Some? && PositiveIntOr(b.qty, 1).Some? &&
      EnumOr(b.paymentMethod, PaymentMethods, "qris").Some? &&
      EnumOr(b.deliveryMethod, DeliveryMethods, "pickup").Some? &&
      OptionalString(b.address).Some? && OptionalString(b.note).Some?
    ensures r.Some? ==>
      r.value.productId > 0 && r.value.qty > 0 &&
      r.value.paymentMethod in PaymentMethods && r.value.deliveryMethod in DeliveryMethods
    ensures r.Some? && b.qty.None? ==> r.value.qty == 1
    ensures r.Some? && b.paymentMethod.None? ==> r.value.paymentMethod == "qris"
    ensures r.Some? && b.deliveryMethod.None? ==> r.value.deliveryMethod == "pickup"
    ensures r.Some? && b.address.None? ==> r.value.address.None?
  {
    match (PositiveInt(b.productId), PositiveIntOr(b.qty, 1),
           EnumOr(b.paymentMethod, PaymentMethods, "qris"), EnumOr(b.deliveryMethod, DeliveryMethods, "pickup"),
           OptionalString(b.address), OptionalString(b.note))
    case (Some(product), Some(qty), Some(pay), Some(delivery), Some(address), Some(note)) =>
      Some(CheckoutRequest(product, qty, pay, delivery, address, note))
    case _ => None
  }

  /** The promotion applies when it is set, positive and below the list price. */
  predicate PromoApplies(p: Product)
  {
    p.promoPrice.Some? && 0 < p.promoPrice.value < p.price
  }

  /** The unit price charged: the promotional price when it applies, else the list price. */
  function UnitPrice(p: Product): (r: int)
    ensures r <= p.price
    ensures r < p.price <==> PromoApplies(p)
    ensures r < p.price ==> Some(r) == p.promoPrice && r > 0
    ensures r == p.price <==> !PromoApplies(p)
  {
    if p.promoPrice.Some? && p.promoPrice.value != 0 && p.promoPrice.value > 0 && p.promoPrice.value < p.price
    then p.promoPrice.value else p.price
  }

  datatype Pricing = Pricing(subtotal: int, deliveryFee: int, total: int)

  function FeeFor(deliveryMethod: string): (fee: int)
    ensures fee == DeliveryFee <==> deliveryMethod == "delivery"
    ensures fee == 0 <==> deliveryMethod != "delivery"
  {
    if deliveryMethod == "delivery" then DeliveryFee else 0
  }

  /** Subtotal, fee and total of `qty` units of `p`. */
  function PriceOf(p: Product, qty: nat, deliveryMethod: string): (pr: Pricing)
    ensures pr.subtotal == UnitPrice(p) * qty
    ensures pr.deliveryFee == FeeFor(deliveryMethod)
    ensures pr.total == pr.subtotal + pr.deliveryFee
  {
    var subtotal := UnitPrice(p) * qty;
    var fee := FeeFor(deliveryMethod);
    Pricing(subtotal, fee, subtotal + fee)
  }

  /**
   * The charged total never exceeds the list price, and is strictly below it
   * for a positive quantity exactly when the promotion applies.
   */
  lemma TotalAgainstListPrice(p: Product, qty: nat, deliveryMethod: string)
    ensures var pr := PriceOf(p, qty, deliveryMethod);
      pr.total <= p.price * qty + FeeFor(deliveryMethod) &&
      (qty > 0 ==> (pr.total < p.price * qty + FeeFor(deliveryMethod) <==> PromoApplies(p)))
  {
    var u := UnitPrice(p);
    if qty > 0 && PromoApplies(p) {
      assert u * qty < p.price * qty;
    }
    assert u * qty <= p.price * qty;
  }

  /** Ordering more units never lowers the total, once prices are non-negative. */
  lemma TotalMonotoneInQty(p: Product, qty: nat, more: nat, deliveryMethod: string)
    requires qty <= more && UnitPrice(p) >= 0
    ensures PriceOf(p, qty, deliveryMethod).total <= PriceOf(p, more, deliveryMethod).total
  {
    var u := UnitPrice(p);
    assert u * qty <= u * more by {
      assert u * more == u * qty + u * (more - qty);
    }
  }

  /** `product.promo_price || null`: a zero promotion is stored as NULL. */
  function PromoSnapshot(promo: Option<int>): (r: Option<int>)
    ensures r.None? <==> promo.None? || promo == Some(0)
    ensures r.Some? ==> r == promo
  {
    if promo.Some? && promo.value != 0 then promo else None
  }

  const Pending := "pending"

  /**
   * The new order row; `status` and `payment_status` take the column default
   * `pending` and the gateway columns start NULL.
   */
  function NewOrder(user: nat, c: CheckoutRequest, address: string, note: string, pr: Pricing): (o: Order)
    ensures o.userId == user && o.status == Pending && o.paymentStatus == Pending
    ensures o.paymentMethod == c.paymentMethod && o.deliveryMethod == c.deliveryMethod
    ensures o.address == address && o.note == note
    ensures o.subtotal == pr.subtotal && o.deliveryFee == pr.deliveryFee && o.total == pr.total
    ensures o.payment == NoPaymentColumns
  {
    Order(user, Pending, Pending, c.paymentMethod, c.deliveryMethod, address, note,
          pr.subtotal, pr.deliveryFee, pr.total, NoPaymentColumns)
  }

  /** The single order item: the list price and promotion as they stand, not the charged price. */
  function NewItem(orderId: nat, c: CheckoutRequest, p: Product): (item: OrderItem)
    ensures item.orderId == orderId && item.productId == c.productId && item.qty == c.qty
    ensures item.price == p.price && item.promoPrice == PromoSnapshot(p.promoPrice)
  {
    OrderItem(orderId, c.productId, c.qty, p.price, PromoSnapshot(p.promoPrice))
  }

  /** The snapshot differs from the charged unit price exactly when the promotion applies. */
  lemma ItemKeepsListPrice(orderId: nat, c: CheckoutRequest, p: Product)
    ensures NewItem(orderId, c, p).price == UnitPrice(p) <==> !PromoApplies(p)
    ensures PromoApplies(p) ==> NewItem(orderId, c, p).promoPrice == Some(UnitPrice(p))
  {
  }

  /**
   * A payment write touches only the payment method and the gateway columns:
   * owner, status, prices, address and note of every order stay as they were.
   */
  lemma PaymentWriteKeepsOrder(t: Table<Order>, id: nat, payMethod: string, w: Write)
    requires t.Valid()
    ensures var u := WriteOrder(t, id, payMethod, w);
      u.rows.Keys == t.rows.Keys &&
      forall k :: k in t.rows ==>
        u.rows[k].(paymentMethod := t.rows[k].paymentMethod, payment := t.rows[k].payment) == t.rows[k]
  {
  }

  /** The `data` of a 201 answer. */
  datatype CheckoutData = CheckoutData(
    id: nat, total: int, paymentMethod: string, deliveryMethod: string,
    paymentUrl: Option<string>, paymentToken: Option<string>, paymentQr: Option<string>)

  datatype CheckoutReply = Failed(message: string) | Created(data: CheckoutData)

  /** The answer's payment links: `payment?.x || null`, all null for cash. */
  function CreatedData(id: nat, total: int, c: CheckoutRequest, info: Option<PaymentInfo>): (d: CheckoutData)
    ensures d.id == id && d.total == total && d.paymentMethod == c.paymentMethod && d.deliveryMethod == c.deliveryMethod
    ensures info.None? ==> d.paymentUrl.None? && d.paymentToken.None? && d.paymentQr.None?
    ensures info.Some? ==>
      d.paymentUrl == OrNull(info.value.paymentUrl) && d.paymentToken == OrNull(info.value.paymentToken) &&
      d.paymentQr == OrNull(info.value.paymentQr)
  {
    match info
    case None => CheckoutData(id, total, c.paymentMethod, c.deliveryMethod, None, None, None)
    case Some(i) =>
      CheckoutData(id, total, c.paymentMethod, c.deliveryMethod, OrNull(i.paymentUrl), OrNull(i.paymentToken), OrNull(i.paymentQr))
  }

  /**
   * `checkout`: validate, price the product, insert the order and its item,
   * then start the payment unless it is cash. A gateway error answers 500 but
   * leaves the order and its item in place, with no payment recorded.
   */
  method Checkout(db: Db, gw: Gateway, env: Env, user: Principal, body: CheckoutBody, now: nat)
    returns (status: int, reply: CheckoutReply)
    requires db.Valid()
    modifies db
    ensures db.Valid()
    ensures ParseCheckout(body).None? ==>
      status == 400 && reply == Failed("Invalid payload") && db.State() == old(db.State())
    ensures ParseCheckout(body).Some? && ParseCheckout(body).value.productId !in old(db.products.rows) ==>
      status == 404 && reply == Failed("Product not found") && db.State() == old(db.State())
    ensures ParseCheckout(body).Some? && ParseCheckout(body).value.productId in old(db.products.rows) ==>
      var c := ParseCheckout(body).value;
      var p := old(db.products.rows[c.productId]);
      var pr := PriceOf(p, c.qty, c.deliveryMethod);
      var id := old(db.orders.next);
      var placed := old(db.orders).Insert(NewOrder(user.id, c, Trim(OrEmpty(c.address)), Trim(OrEmpty(c.note)), pr));
      var items := old(db.orderItems).Insert(NewItem(id, c, p));
      if c.paymentMethod == "cash" then
        status == 201 && reply == Created(CreatedData(id, pr.total, c, None)) &&
        db.State() == old(db.State()).(orders := placed, orderItems := items)
      else
        match PlanPayment(ConfigOf(env), gw, id, pr.total, c.paymentMethod, None, p.name, now)
        case Failure(m) =>
          status == 500 && reply == Failed(OrDefault(m, "Server error")) &&
          db.State() == old(db.State()).(orders := placed, orderItems := items)
        case Success(w) =>
          status == 201 && reply == Created(CreatedData(id, pr.total, c, Some(InfoOf(w)))) &&
          db.State() == old(db.State()).(orders := WriteOrder(placed, id, c.paymentMethod, w), orderItems := items)
  {
    var parsed := ParseCheckout(body);
    if parsed.None? {
      return 400, Failed("Invalid payload");
    }
    var c := parsed.value;
    if c.productId !in db.products.rows {
      return 404, Failed("Product not found");
    }
    var p := db.products.rows[c.productId];
    var id, pr := PlaceOrder(db, user.id, c, p, Trim(OrEmpty(c.address)), Trim(OrEmpty(c.note)));
    var total := pr.total;
    var payment: Option<PaymentInfo> := None;
    if c.paymentMethod != "cash" {
      var r := CreatePaymentForOrder(db, gw, env, id, total, c.paymentMethod, None, p.name, now);
      if r.Failure? {
        return 500, Failed(OrDefault(r.message, "Server error"));
      }
      payment := Some(r.value);
    }
    return 201, Created(CreatedData(id, total, c, payment));
  }

  /** The two inserts of `checkout`: the priced order, then its item under the new order id. */
  method PlaceOrder(db: Db, user: nat, c: CheckoutRequest, p: Product, address: string, note: string)
    returns (id: nat, pr: Pricing)
    requires db.Valid()
    modifies db
    ensures db.Valid()
    ensures id == old(db.orders.next) && pr == PriceOf(p, c.qty, c.deliveryMethod)
    ensures db.State() == old(db.State()).(
      orders := old(db.orders).Insert(NewOrder(user, c, address, note, pr)),
      orderItems := old(db.orderItems).Insert(NewItem(id, c, p)))
  {
    var basePrice := UnitPrice(p);
    var subtotal := basePrice * c.qty;
    var fee := if c.deliveryMethod == "delivery" then DeliveryFee else 0;
    var total := subtotal + fee;
    pr := Pricing(subtotal, fee, total);
    id := db.orders.next;
    db.orders := db.orders.Insert(NewOrder(user, c, address, note, pr));
    db.orderItems := db.orderItems.Insert(NewItem(id, c, p));
  }

  /** `confirmPayment`: mark one of the caller's orders paid. */
  method ConfirmPayment(db: Db, user: Principal, idParam: string) returns (status: int, message: string)
    requires db.Valid()
    modifies db
    ensures db.Valid()
    ensures IsFalsy(ToNumber(idParam)) ==>
      status == 400 && message == "Invalid order id" && db.State() == old(db.State())
    ensures !IsFalsy(ToNumber(idParam)) && OwnedOrder(old(db.orders), user.id, ToNumber(idParam)).None? ==>
      status == 404 && message == "Order not found" && db.State() == old(db.State())
    ensures !IsFalsy(ToNumber(idParam)) && OwnedOrder(old(db.orders), user.id, ToNumber(idParam)).Some? ==>
      status == 200 && message == "Payment confirmed" &&
      db.State() == old(db.State()).(orders := MarkPaid(old(db.orders), OwnedOrder(old(db.orders), user.id, ToNumber(idParam)).value))
  {
    var n := ToNumber(idParam);
    if IsFalsy(n) {
      return 400, "Invalid order id";
    }
    var row := OwnedOrder(db.orders, user.id, n);
    if row.None? {
      return 404, "Order not found";
    }
    db.orders := MarkPaid(db.orders, row.value);
    return 200, "Payment confirmed";
  }

  /**
   * Confirming an order is idempotent and only marks that order: a second
   * confirmation finds the caller's order again and leaves the table as it is.
   */
  lemma ConfirmTwice(t: Table<Order>, user: nat, n: Num)
    requires t.Valid() && OwnedOrder(t, user, n).Some?
    ensures var id := OwnedOrder(t, user, n).value;
      var u := MarkPaid(t, id);
      OwnedOrder(u, user, n) == Some(id) && MarkPaid(u, id) == u &&
      u.rows[id].paymentStatus == "paid" && u.rows[id].status == "paid"
  {
    MarkPaidIdempotent(t, OwnedOrder(t, user, n).value);
  }
}
