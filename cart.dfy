/**
 * The shopping cart: one `cart_items` row per (user, product) pair, added to
 * by upsert, overwritten or deleted by its owner.
 */
module Cart {
  import opened Wrappers
  import opened Tables
  import opened Store
  import opened Request

  datatype AddBody = AddBody(productId: Field, qty: Field)
  datatype UpdateBody = UpdateBody(qty: Field)

  /** A cart line as listed: the cart row joined with its product. */
  datatype CartLine = CartLine(
    cartId: nat, productId: nat, qty: int, name: string, store: string,
    price: int, rating: real, image: Option<string>)

  /** The add-to-cart schema: a positive product id and a positive quantity defaulting to 1. */
  function ParseAdd(b: AddBody): (r: Option<(nat, nat)>)
    ensures r.Some? <==> PositiveInt(b.productId).Some? && PositiveIntOr(b.qty, 1).Some?
    ensures r.Some? ==> r.value.0 > 0 && r.value.1 > 0
    ensures r.Some? && b.qty.None? ==> r.value.1 == 1
  {
    match (PositiveInt(b.productId), PositiveIntOr(b.qty, 1))
    case (Some(p), Some(q)) => Some((p, q))
    case _ => None
  }

  /** The rows of `user` for `product`. */
  function IsPair(user: nat, product: nat): CartItem -> bool
  {
    (r: CartItem) => r.userId == user && r.productId == product
  }

  /** `SELECT id, qty FROM cart_items WHERE user_id = ? AND product_id = ?`. */
  function PairRow(t: Table<CartItem>, user: nat, product: nat): Option<nat>
  {
    Oldest(t, IsPair(user, product))
  }

  /**
   * The upsert: add `qty` to the pair's row, or insert a row holding `qty`.
   * No row is removed, and the only id that can appear is the next rowid.
   */
  function Upsert(t: Table<CartItem>, user: nat, product: nat, qty: int): (u: Table<CartItem>)
    requires t.Valid()
    ensures u.Valid()
    ensures t.rows.Keys <= u.rows.Keys <= t.rows.Keys + {t.next}
    ensures PairRow(t, user, product).Some? <==> u.rows.Keys == t.rows.Keys
  {
    match PairRow(t, user, product)
    case Some(id) => UpdateRow(t, id, t.rows[id].(qty := t.rows[id].qty + qty))
    case None => t.Insert(CartItem(user, product, qty))
  }

  /** No two cart rows belong to the same (user, product) pair. */
  ghost predicate OneRowPerPair(t: Table<CartItem>)
  {
    forall a, b :: a in t.rows && b in t.rows && a != b ==>
      t.rows[a].userId != t.rows[b].userId || t.rows[a].productId != t.rows[b].productId
  }

  /** The quantity a user has of a product: that of the pair's row, 0 without one. */
  function QtyOf(t: Table<CartItem>, user: nat, product: nat): int
  {
    match PairRow(t, user, product)
    case Some(id) => t.rows[id].qty
    case None => 0
  }

  lemma PairRowIn(t: Table<CartItem>, user: nat, product: nat)
    requires t.Valid()
    ensures PairRow(t, user, product).Some? ==>
      var id := PairRow(t, user, product).value;
      id in t.rows && t.rows[id].userId == user && t.rows[id].productId == product
    ensures PairRow(t, user, product).None? ==>
      forall id :: id in t.rows ==> t.rows[id].userId != user || t.rows[id].productId != product
  {
    OldestSpec(t, IsPair(user, product));
  }

  /** The upsert keeps the table valid, touches only the pair's row, and keeps one row per pair. */
  lemma UpsertKeepsOneRowPerPair(t: Table<CartItem>, user: nat, product: nat, qty: int)
    requires t.Valid() && OneRowPerPair(t)
    ensures Upsert(t, user, product, qty).Valid()
    ensures OneRowPerPair(Upsert(t, user, product, qty))
  {
    PairRowIn(t, user, product);
  }

  /** What the upsert leaves: one row for the pair, every other row as it was. */
  lemma UpsertFrame(t: Table<CartItem>, user: nat, product: nat, qty: int)
    requires t.Valid()
    ensures var u := Upsert(t, user, product, qty);
      u.Valid() &&
      (forall id :: id in t.rows && !IsPair(user, product)(t.rows[id]) ==> id in u.rows && u.rows[id] == t.rows[id]) &&
      (forall id :: id in u.rows && !IsPair(user, product)(u.rows[id]) ==> id in t.rows) &&
      PairRow(u, user, product).Some?
  {
    PairRowIn(t, user, product);
    var u := Upsert(t, user, product, qty);
    var id := match PairRow(t, user, product) case Some(k) => k case None => t.next;
    assert id in u.rows && IsPair(user, product)(u.rows[id]);
    OldestSpec(u, IsPair(user, product));
  }

  /** The upsert adds `qty` to the pair's quantity and leaves every other pair's quantity alone. */
  lemma UpsertQty(t: Table<CartItem>, user: nat, product: nat, qty: int, user': nat, product': nat)
    requires t.Valid()
    ensures QtyOf(Upsert(t, user, product, qty), user', product') ==
      if user' == user && product' == product then QtyOf(t, user, product) + qty
      else QtyOf(t, user', product')
  {
    if user' == user && product' == product {
      UpsertQtySame(t, user, product, qty);
    } else {
      UpsertQtyOther(t, user, product, qty, user', product');
    }
  }

  lemma UpsertQtySame(t: Table<CartItem>, user: nat, product: nat, qty: int)
    requires t.Valid()
    ensures QtyOf(Upsert(t, user, product, qty), user, product) == QtyOf(t, user, product) + qty
  {
    PairRowIn(t, user, product);
    var u := Upsert(t, user, product, qty);
    var p := IsPair(user, product);
    match PairRow(t, user, product)
    case Some(id) =>
      assert u.rows == t.rows[id := t.rows[id].(qty := t.rows[id].qty + qty)];
      OldestOfSameMatches(t, u, p);
    case None =>
      OldestSpec(u, p);
      assert p(u.rows[t.next]);
  }

  lemma UpsertQtyOther(t: Table<CartItem>, user: nat, product: nat, qty: int, user': nat, product': nat)
    requires t.Valid() && (user' != user || product' != product)
    ensures QtyOf(Upsert(t, user, product, qty), user', product') == QtyOf(t, user', product')
  {
    PairRowIn(t, user, product);
    var u := Upsert(t, user, product, qty);
    var p := IsPair(user', product');
    match PairRow(t, user, product)
    case Some(id) =>
      assert u.rows == t.rows[id := t.rows[id].(qty := t.rows[id].qty + qty)] && !p(u.rows[id]);
      OldestOfSameMatches(t, u, p);
    case None =>
      assert u.rows == t.rows[t.next := CartItem(user, product, qty)] && !p(u.rows[t.next]);
      OldestOfSameMatches(t, u, p);
  }

  /** Adding a product twice (say 1, then 2) leaves a single row with the summed quantity. */
  lemma AddTwice(t: Table<CartItem>, user: nat, product: nat, q1: int, q2: int)
    requires t.Valid() && OneRowPerPair(t) && PairRow(t, user, product).None?
    ensures var u := Upsert(Upsert(t, user, product, q1), user, product, q2);
      OneRowPerPair(u) && QtyOf(u, user, product) == q1 + q2
  {
    UpsertKeepsOneRowPerPair(t, user, product, q1);
    var t1 := Upsert(t, user, product, q1);
    UpsertKeepsOneRowPerPair(t1, user, product, q2);
    UpsertQty(t, user, product, q1, user, product);
    UpsertQty(t1, user, product, q2, user, product);
  }

  /** The row a route id names when it belongs to `user`. */
  function OwnedRow(t: Table<CartItem>, user: nat, n: Num): (r: Option<nat>)
    ensures r.Some? <==> RowId(n).Some? && RowId(n).value in t.rows && t.rows[RowId(n).value].userId == user
    ensures r.Some? ==> r == RowId(n)
  {
    match RowId(n)
    case Some(id) => if id in t.rows && t.rows[id].userId == user then Some(id) else None
    case None => None
  }

  /** `addToCart`. */
  method AddToCart(db: Db, user: Principal, body: AddBody) returns (status: int, message: string)
    requires db.Valid()
    modifies db
    ensures db.Valid()
    ensures ParseAdd(body).None? ==>
      status == 400 && message == "Invalid payload" && db.State() == old(db.State())
    ensures ParseAdd(body).Some? ==>
      var (product, qty) := ParseAdd(body).value;
      status == 200 && message == "Added to cart" &&
      db.State() == old(db.State()).(cartItems := Upsert(old(db.cartItems), user.id, product, qty))
    ensures OneRowPerPair(old(db.cartItems)) ==> OneRowPerPair(db.cartItems)
  {
    var parsed := ParseAdd(body);
    if parsed.None? {
      return 400, "Invalid payload";
    }
    var (product, qty) := parsed.value;
    ghost var target := Upsert(db.cartItems, user.id, product, qty);
    if OneRowPerPair(db.cartItems) {
      UpsertKeepsOneRowPerPair(db.cartItems, user.id, product, qty);
    }
    var existing := PairRow(db.cartItems, user.id, product);
    if existing.Some? {
      var id := existing.value;
      PairRowIn(db.cartItems, user.id, product);
      db.cartItems := UpdateRow(db.cartItems, id, db.cartItems.rows[id].(qty := db.cartItems.rows[id].qty + qty));
    } else {
      db.cartItems := db.cartItems.Insert(CartItem(user.id, product, qty));
    }
    assert db.cartItems == target;
    return 200, "Added to cart";
  }

  /** Overwriting a quantity leaves every row's pair as it was. */
  lemma SetQtyKeepsOneRowPerPair(t: Table<CartItem>, id: nat, qty: int)
    requires id in t.rows
    ensures OneRowPerPair(t) ==> OneRowPerPair(UpdateRow(t, id, t.rows[id].(qty := qty)))
  {
    var u := UpdateRow(t, id, t.rows[id].(qty := qty));
    assert forall k :: k in u.rows ==> k in t.rows && u.rows[k].userId == t.rows[k].userId && u.rows[k].productId == t.rows[k].productId;
  }

  /** Deleting a row cannot make two rows share a pair. */
  lemma DeleteKeepsOneRowPerPair(t: Table<CartItem>, id: nat)
    ensures OneRowPerPair(t) ==> OneRowPerPair(DeleteRow(t, id))
  {
    var u := DeleteRow(t, id);
    assert forall k :: k in u.rows ==> k in t.rows && u.rows[k] == t.rows[k];
  }

  /** `UPDATE cart_items SET qty = ? WHERE id = ?` on an existing row. */
  method SetQty(db: Db, id: nat, qty: int)
    requires db.Valid() && id in db.cartItems.rows
    modifies db
    ensures db.Valid()
    ensures db.State() == old(db.State()).(cartItems :=
      old(db.cartItems).(rows := old(db.cartItems.rows)[id := old(db.cartItems.rows)[id].(qty := qty)]))
    ensures OneRowPerPair(old(db.cartItems)) ==> OneRowPerPair(db.cartItems)
  {
    SetQtyKeepsOneRowPerPair(db.cartItems, id, qty);
    db.cartItems := UpdateRow(db.cartItems, id, db.cartItems.rows[id].(qty := qty));
  }

  /** `updateCartItem`: overwrite the quantity of one of the caller's rows. */
  method UpdateCartItem(db: Db, user: Principal, idParam: string, body: UpdateBody) returns (status: int, message: string)
    requires db.Valid()
    modifies db
    ensures db.Valid()
    ensures IntAtLeast(body.qty, 1).None? ==>
      status == 400 && message == "Invalid payload" && db.State() == old(db.State())
    ensures IntAtLeast(body.qty, 1).Some? && IsFalsy(ToNumber(idParam)) ==>
      status == 400 && message == "Invalid cart id" && db.State() == old(db.State())
    ensures IntAtLeast(body.qty, 1).Some? && !IsFalsy(ToNumber(idParam)) &&
            OwnedRow(old(db.cartItems), user.id, ToNumber(idParam)).None? ==>
      status == 404 && message == "Cart item not found" && db.State() == old(db.State())
    ensures IntAtLeast(body.qty, 1).Some? && !IsFalsy(ToNumber(idParam)) &&
            OwnedRow(old(db.cartItems), user.id, ToNumber(idParam)).Some? ==>
      var id := OwnedRow(old(db.cartItems), user.id, ToNumber(idParam)).value;
      status == 200 && message == "Updated" &&
      db.State() == old(db.State()).(cartItems :=
        old(db.cartItems).(rows := old(db.cartItems.rows)[id := old(db.cartItems.rows)[id].(qty := IntAtLeast(body.qty, 1).value)]))
    ensures OneRowPerPair(old(db.cartItems)) ==> OneRowPerPair(db.cartItems)
  {
    var qty := IntAtLeast(body.qty, 1);
    if qty.None? {
      return 400, "Invalid payload";
    }
    var n := ToNumber(idParam);
    if IsFalsy(n) {
      return 400, "Invalid cart id";
    }
    var row := OwnedRow(db.cartItems, user.id, n);
    if row.None? {
      return 404, "Cart item not found";
    }
    SetQty(db, row.value, qty.value);
    return 200, "Updated";
  }

  /** `removeCartItem`: delete one of the caller's rows. */
  method RemoveCartItem(db: Db, user: Principal, idParam: string) returns (status: int, message: string)
    requires db.Valid()
    modifies db
    ensures db.Valid()
    ensures IsFalsy(ToNumber(idParam)) ==>
      status == 400 && message == "Invalid cart id" && db.State() == old(db.State())
    ensures !IsFalsy(ToNumber(idParam)) && OwnedRow(old(db.cartItems), user.id, ToNumber(idParam)).None? ==>
      status == 404 && message == "Cart item not found" && db.State() == old(db.State())
    ensures !IsFalsy(ToNumber(idParam)) && OwnedRow(old(db.cartItems), user.id, ToNumber(idParam)).Some? ==>
      var id := OwnedRow(old(db.cartItems), user.id, ToNumber(idParam)).value;
      status == 200 && message == "Removed" &&
      db.State() == old(db.State()).(cartItems := DeleteRow(old(db.cartItems), id))
    ensures OneRowPerPair(old(db.cartItems)) ==> OneRowPerPair(db.cartItems)
  {
    var n := ToNumber(idParam);
    if IsFalsy(n) {
      return 400, "Invalid cart id";
    }
    var row := OwnedRow(db.cartItems, user.id, n);
    if row.None? {
      return 404, "Cart item not found";
    }
    DeleteKeepsOneRowPerPair(db.cartItems, row.value);
    db.cartItems := DeleteRow(db.cartItems, row.value);
    return 200, "Removed";
  }

  function LineOf(id: nat, c: CartItem, p: Product): CartLine
  {
    CartLine(id, c.productId, c.qty, p.name, p.store, p.price, p.rating, p.image)
  }

  /** The caller's cart rows whose product exists (the inner join). */
  function IsListed(products: Table<Product>, user: nat): CartItem -> bool
  {
    (c: CartItem) => c.userId == user && c.productId in products.rows
  }

  /** `listCart`: the caller's rows that join to a product, newest first, with the list price. */
  function ListCart(cart: Table<CartItem>, products: Table<Product>, user: nat): (lines: seq<CartLine>)
    ensures forall i :: 0 <= i < |lines| ==>
      var id := lines[i].cartId;
      id in cart.rows && cart.rows[id].userId == user && cart.rows[id].productId in products.rows &&
      lines[i] == LineOf(id, cart.rows[id], products.rows[cart.rows[id].productId])
    ensures forall i, j :: 0 <= i < j < |lines| ==> lines[i].cartId > lines[j].cartId
  {
    var ids := Select(cart, IsListed(products, user));
    seq(|ids|, i requires 0 <= i < |ids| =>
      LineOf(ids[i], cart.rows[ids[i]], products.rows[cart.rows[ids[i]].productId]))
  }

  /** Every row of the caller whose product exists is listed. */
  lemma ListCartComplete(cart: Table<CartItem>, products: Table<Product>, user: nat, id: nat)
    requires cart.Valid()
    requires id in cart.rows && cart.rows[id].userId == user && cart.rows[id].productId in products.rows
    ensures exists i :: 0 <= i < |ListCart(cart, products, user)| && ListCart(cart, products, user)[i].cartId == id
  {
    var ids := Select(cart, IsListed(products, user));
    SelectComplete(cart, IsListed(products, user));
    var i :| 0 <= i < |ids| && ids[i] == id;
    assert ListCart(cart, products, user)[i].cartId == id;
  }
}
