/** The cart blueprint of server/cart.py. It is not the one the application registers;
    it differs from server/routes/cart.py in that an update rejects quantities below 1
    and a checkout is meant to turn the cart into an order. The `CheckoutCart` here is
    that checkout with its order-item constructor corrected; `CartAsWritten.CheckoutCart`
    is the checkout as written, which fails after committing the order. No handler reads
    or changes stock. */
module Cart {
  import opened Outcomes
  import opened Seqs
  import opened Models
  import opened Tables

  /** The record get_cart lists, and update_cart_item returns, for a cart line. */
  datatype CartEntry = CartEntry(id: int, quantity: int, productName: string, price: int, imageUrl: string)

  /** A line's id and quantity with its product's name, price and image. */
  function Entry(line: CartLine, products: map<int, Product>): (e: CartEntry)
    requires line.productId in products
    ensures e.id == line.id && e.quantity == line.quantity
    ensures e.productName == products[line.productId].name
    ensures e.price == products[line.productId].price
    ensures e.imageUrl == products[line.productId].imageUrl
  {
    var p := products[line.productId];
    CartEntry(line.id, line.quantity, p.name, p.price, p.imageUrl)
  }

  /** The order items checkout writes for the given cart lines: one per line, in the
      same order, with the line's product and quantity. */
  function ItemsFrom(orderId: int, lines: seq<CartLine>): (r: seq<OrderItem>)
    ensures |r| == |lines|
    ensures forall i :: 0 <= i < |lines| ==>
      r[i].orderId == orderId && r[i].productId == lines[i].productId && r[i].quantity == lines[i].quantity
  {
    seq(|lines|, i requires 0 <= i < |lines| => NewOrderItem(orderId, lines[i].productId, Some(lines[i].quantity)))
  }

  lemma ItemsFromAppend(orderId: int, lines: seq<CartLine>, line: CartLine)
    ensures ItemsFrom(orderId, lines + [line]) == ItemsFrom(orderId, lines) + [OrderItem(orderId, line.productId, line.quantity)]
  {
    var r, s := ItemsFrom(orderId, lines + [line]), ItemsFrom(orderId, lines) + [OrderItem(orderId, line.productId, line.quantity)];
    assert |r| == |s|;
    forall i | 0 <= i < |r| ensures r[i] == s[i] {
      if i < |lines| {
        assert (lines + [line])[i] == lines[i];
      }
    }
  }

  /** One turn of checkout's loop: writing the item for the next line and deleting that
      line extends the part of the cart already moved into the order. */
  lemma CheckoutStep(table: seq<CartLine>, cart: seq<CartLine>, orderId: int, i: nat)
    requires i < |cart|
    ensures WithoutLine(WithoutLines(table, IdSet(cart[..i])), cart[i].id) == WithoutLines(table, IdSet(cart[..i + 1]))
    ensures ItemsFrom(orderId, cart[..i + 1]) == ItemsFrom(orderId, cart[..i]) + [NewOrderItem(orderId, cart[i].productId, Some(cart[i].quantity))]
  {
    assert cart[..i + 1] == cart[..i] + [cart[i]];
    WithoutLinesStep(table, IdSet(cart[..i]), cart[i].id);
    assert IdSet(cart[..i + 1]) == IdSet(cart[..i]) + {cart[i].id};
    ItemsFromAppend(orderId, cart[..i], cart[i]);
  }

  /** Checkout's loop: for each given line, in order, write its order item and delete
      the line. Nothing but the two tables changes. */
  method MoveLinesToOrder(st: Database, orderId: int, cart: seq<CartLine>)
    modifies st
    ensures st.Snapshot() == old(st.Snapshot()).(
      lines := WithoutLines(old(st.lines), IdSet(cart)),
      orderItems := old(st.orderItems) + ItemsFrom(orderId, cart))
  {
    ghost var table := st.lines;
    ghost var items0 := st.orderItems;
    WithoutNoLines(table);
    assert cart[..0] == [];
    assert IdSet(cart[..0]) == {};
    var i := 0;
    while i < |cart|
      invariant 0 <= i <= |cart|
      invariant st.lines == WithoutLines(table, IdSet(cart[..i]))
      invariant st.orderItems == items0 + ItemsFrom(orderId, cart[..i])
      invariant st.Snapshot() == old(st.Snapshot()).(lines := st.lines, orderItems := st.orderItems)
    {
      var item := cart[i];
      // The source also passes `price=item.product.price`; OrderItem has no such column.
      st.orderItems := st.orderItems + [NewOrderItem(orderId, item.productId, Some(item.quantity))];
      st.lines := WithoutLine(st.lines, item.id);
      CheckoutStep(table, cart, orderId, i);
      i := i + 1;
    }
    assert cart[..i] == cart;
  }

  /** GET /cart/<username>: one entry per cart line of the user, in table order. */
  method GetCart(st: Database, username: string) returns (r: Result<seq<CartEntry>>)
    requires st.Valid()
    ensures r.Ok? <==> UserByName(st.users, username).Some?
    ensures r.Err? ==> r.error == NotFound
    ensures r.Ok? ==>
      var ls := LinesOf(st.lines, UserByName(st.users, username).value.id);
      |r.value| == |ls| && forall i :: 0 <= i < |ls| ==> r.value[i] == Entry(ls[i], st.products)
  {
    var user := UserByName(st.users, username);
    if user.None? {
      return Err(NotFound);
    }
    var cartItems := LinesOf(st.lines, user.value.id);
    var result := [];
    var i := 0;
    while i < |cartItems|
      invariant 0 <= i <= |cartItems|
      invariant |result| == i
      invariant forall j :: 0 <= j < i ==> result[j] == Entry(cartItems[j], st.products)
    {
      var item := cartItems[i];
      var product := st.products[item.productId];
      result := result + [CartEntry(item.id, item.quantity, product.name, product.price, product.imageUrl)];
      i := i + 1;
    }
    r := Ok(result);
  }

  /** POST /cart: add `quantity` (default 1) of a product to a user's cart, both given
      by primary key. A missing or zero id is a bad request; an unknown user or
      product is not found; otherwise the user's line for the product grows, or a new
      line is created. */
  method AddToCart(st: Database, userId: Option<int>, productId: Option<int>, quantity: Option<int>) returns (r: Outcome)
    requires st.Valid()
    modifies st
    ensures st.Valid()
    ensures st.products == old(st.products)
    ensures !Truthy(userId) || !Truthy(productId) ==>
      r == Failed(BadRequest) && st.Snapshot() == old(st.Snapshot())
    ensures (Truthy(userId) && Truthy(productId)
             && (UserById(old(st.users), userId.value).None? || productId.value !in old(st.products))) ==>
      r == Failed(NotFound) && st.Snapshot() == old(st.Snapshot())
    ensures (Truthy(userId) && Truthy(productId)
             && UserById(old(st.users), userId.value).Some? && productId.value in old(st.products)) ==>
      var merged := LineFor(old(st.lines), userId.value, productId.value).Some?;
      && r == Done
      && st.Snapshot() == old(st.Snapshot()).(
           lines := AddToLines(old(st.lines), userId.value, productId.value, quantity.GetOr(1), old(st.nextLineId)),
           nextLineId := if merged then old(st.nextLineId) else old(st.nextLineId) + 1)
  {
    var qty := quantity.GetOr(1);
    if !Truthy(userId) || !Truthy(productId) {
      return Failed(BadRequest);
    }
    var user := UserById(st.users, userId.value);
    var found := productId.value in st.products;
    if user.None? {
      return Failed(NotFound);
    }
    if !found {
      return Failed(NotFound);
    }
    var _ := st.AddLine(user.value.id, productId.value, qty);
    r := Done;
  }

  /** PATCH /cart/item/<id>: a quantity that is absent or below 1 is refused before the
      line is looked up; an unknown line is not found; otherwise exactly that line's
      quantity is set. */
  method UpdateCartItem(st: Database, itemId: int, quantity: Option<int>) returns (r: Result<CartEntry>)
    requires st.Valid()
    modifies st
    ensures st.Valid()
    ensures st.products == old(st.products)
    ensures quantity.None? || quantity.value < 1 ==>
      r == Err(BadRequest) && st.Snapshot() == old(st.Snapshot())
    ensures quantity.Some? && quantity.value >= 1 && LineById(old(st.lines), itemId).None? ==>
      r == Err(NotFound) && st.Snapshot() == old(st.Snapshot())
    ensures quantity.Some? && quantity.value >= 1 && LineById(old(st.lines), itemId).Some? ==>
      var k := LineById(old(st.lines), itemId).value;
      && st.Snapshot() == old(st.Snapshot()).(lines := old(st.lines)[k := old(st.lines)[k].(quantity := quantity.value)])
      && r == Ok(Entry(st.lines[k], st.products))
      && r.value.quantity == quantity.value
  {
    if quantity.None? || quantity.value < 1 {
      return Err(BadRequest);
    }
    var found := LineById(st.lines, itemId);
    if found.None? {
      return Err(NotFound);
    }
    var k := found.value;
    st.lines := st.lines[k := st.lines[k].(quantity := quantity.value)];
    var item := st.lines[k];
    var product := st.products[item.productId];
    r := Ok(CartEntry(item.id, item.quantity, product.name, product.price, product.imageUrl));
  }

  /** DELETE /cart/item/<id>: an unknown line is not found; otherwise exactly that line
      is deleted. */
  method RemoveCartItem(st: Database, itemId: int) returns (r: Outcome)
    requires st.Valid()
    modifies st
    ensures st.Valid()
    ensures st.products == old(st.products)
    ensures LineById(old(st.lines), itemId).None? ==>
      r == Failed(NotFound) && st.Snapshot() == old(st.Snapshot())
    ensures LineById(old(st.lines), itemId).Some? ==>
      var k := LineById(old(st.lines), itemId).value;
      && r == Done
      && st.Snapshot() == old(st.Snapshot()).(lines := old(st.lines)[..k] + old(st.lines)[k + 1..])
  {
    var found := LineById(st.lines, itemId);
    if found.None? {
      return Failed(NotFound);
    }
    WithoutLineAt(st.lines, found.value);
    FilterKeepsUniqueIds(st.lines, (x: CartLine) => x.id != itemId);
    st.lines := WithoutLine(st.lines, itemId);
    r := Done;
  }

  /** The order's items are exactly the copies of the cart lines written for it, when no
      item held its (fresh) id before. */
  lemma CheckoutOrderItems(items: seq<OrderItem>, orderId: int, cart: seq<CartLine>)
    requires forall it :: it in items ==> it.orderId != orderId
    ensures ItemsOf(items + ItemsFrom(orderId, cart), orderId) == ItemsFrom(orderId, cart)
  {
    var keep := (it: OrderItem) => it.orderId == orderId;
    FilterAppend(items, ItemsFrom(orderId, cart), keep);
    FilterNone(items, keep);
    FilterAll(ItemsFrom(orderId, cart), keep);
  }

  /** POST /cart/checkout/<username>: an unknown user is not found and an empty cart is
      a bad request, neither creating an order. Otherwise one order is created for the
      user, one item is written per cart line with its product and quantity, and every
      line of the user is deleted; other users' lines, the products and their stock stay
      as they were. */
  method CheckoutCart(st: Database, username: string) returns (r: Result<int>)
    requires st.Valid()
    modifies st
    ensures st.Valid()
    ensures st.products == old(st.products)
    ensures UserByName(old(st.users), username).None? ==>
      r == Err(NotFound) && st.Snapshot() == old(st.Snapshot())
    ensures (UserByName(old(st.users), username).Some?
             && LinesOf(old(st.lines), UserByName(old(st.users), username).value.id) == []) ==>
      r == Err(BadRequest) && st.Snapshot() == old(st.Snapshot())
    ensures (UserByName(old(st.users), username).Some?
             && LinesOf(old(st.lines), UserByName(old(st.users), username).value.id) != []) ==>
      var uid := UserByName(old(st.users), username).value.id;
      var cart := LinesOf(old(st.lines), uid);
      var oid := old(st.nextOrderId);
      && r == Ok(oid)
      && st.Snapshot() == old(st.Snapshot()).(
           lines := LinesNotOf(old(st.lines), uid),
           orders := old(st.orders) + [Order(oid, uid)],
           orderItems := old(st.orderItems) + ItemsFrom(oid, cart),
           nextOrderId := oid + 1)
      && ItemsOf(st.orderItems, oid) == ItemsFrom(oid, cart)
  {
    var user := UserByName(st.users, username);
    if user.None? {
      return Err(NotFound);
    }
    var uid := user.value.id;
    var cartItems := LinesOf(st.lines, uid);
    if cartItems == [] {
      return Err(BadRequest);
    }
    // The source commits the order here, before any of its items are written.
    var oid := st.nextOrderId;
    st.orders := st.orders + [Order(oid, uid)];
    st.nextOrderId := oid + 1;

    ghost var table := st.lines;
    ghost var items0 := st.orderItems;
    MoveLinesToOrder(st, oid, cartItems);
    UserIdsDeleteUserLines(table, uid);
    FilterKeepsUniqueIds(table, (x: CartLine) => x.userId != uid);
    CheckoutOrderItems(items0, oid, cartItems);
    r := Ok(oid);
  }
}

/** server/cart.py's checkout exactly as written. */
module CartAsWritten {
  import opened Outcomes
  import opened Seqs
  import opened Models
  import opened Tables

  /** The `OrderItem(...)` call of the checkout loop passes `price=`, a keyword the
      order-item record has no column for, so on a non-empty cart the handler raises
      after the order row has already been committed. The user is left with a new
      order that has no items and totals 0, while every cart line stays in place. */
  method CheckoutCart(st: Database, username: string) returns (r: Outcome)
    requires st.Valid()
    modifies st
    ensures st.Valid()
    ensures st.products == old(st.products)
    ensures UserByName(old(st.users), username).None? ==>
      r == Failed(NotFound) && st.Snapshot() == old(st.Snapshot())
    ensures (UserByName(old(st.users), username).Some?
             && LinesOf(old(st.lines), UserByName(old(st.users), username).value.id) == []) ==>
      r == Failed(BadRequest) && st.Snapshot() == old(st.Snapshot())
    ensures (UserByName(old(st.users), username).Some?
             && LinesOf(old(st.lines), UserByName(old(st.users), username).value.id) != []) ==>
      var uid := UserByName(old(st.users), username).value.id;
      var oid := old(st.nextOrderId);
      && r == Failed(ServerError)
      && st.Snapshot() == old(st.Snapshot()).(orders := old(st.orders) + [Order(oid, uid)], nextOrderId := oid + 1)
      && Order(oid, uid) in st.orders
      && ItemsOf(st.orderItems, oid) == []
      && Total(Order(oid, uid), st.orderItems, st.products) == 0
      && LinesOf(st.lines, uid) != []
  {
    var user := UserByName(st.users, username);
    if user.None? {
      return Failed(NotFound);
    }
    var uid := user.value.id;
    var cartItems := LinesOf(st.lines, uid);
    if cartItems == [] {
      return Failed(BadRequest);
    }
    var oid := st.nextOrderId;
    st.orders := st.orders + [Order(oid, uid)];
    st.nextOrderId := oid + 1;
    // The first `OrderItem(..., price=...)` raises TypeError: nothing more is written.
    FilterNone(st.orderItems, (it: OrderItem) => it.orderId == oid);
    r := Failed(ServerError);
  }
}
