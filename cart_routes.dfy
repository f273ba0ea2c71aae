/** The cart blueprint the application registers (server/routes/cart.py). Its update
    takes any quantity, and its checkout empties the user's cart without creating an
    order. No handler reads or changes stock. */
module CartRoutes {
  import opened Outcomes
  import opened Seqs
  import opened Models
  import opened Tables

  /** The JSON body of POST /; a field left out is None. */
  datatype AddBody = AddBody(username: Option<string>, productId: Option<int>, quantity: Option<int>)

  /** GET /<username>: an unknown user is not found (the reply body is an empty
      list); otherwise `to_dict` of each of the user's lines, in table order. */
  method GetCart(st: Database, username: string) returns (r: Result<seq<LineDict>>)
    requires st.Valid()
    ensures r.Ok? <==> UserByName(st.users, username).Some?
    ensures r.Err? ==> r.error == NotFound
    ensures r.Ok? ==>
      var uid := UserByName(st.users, username).value.id;
      var ls := LinesOf(st.lines, uid);
      && |r.value| == |ls|
      && (forall i :: 0 <= i < |ls| ==> r.value[i] == LineToDict(ls[i], st.products))
      && (forall d :: d in r.value ==> d.userId == uid)
      && (forall x :: x in st.lines && x.userId == uid ==> LineToDict(x, st.products) in r.value)
  {
    var user := UserByName(st.users, username);
    if user.None? {
      return Err(NotFound);
    }
    var items, products := LinesOf(st.lines, user.value.id), st.products;
    var dicts := seq(|items|, i requires 0 <= i < |items| && items[i].productId in products => LineToDict(items[i], products));
    forall x | x in st.lines && x.userId == user.value.id
      ensures LineToDict(x, products) in dicts
    {
      var i :| 0 <= i < |items| && items[i] == x;
      assert dicts[i] == LineToDict(x, products);
    }
    r := Ok(dicts);
  }

  /** POST /: no body, or a missing username or product id, is a bad request; an
      unknown user or product is not found. Otherwise `quantity` (default 1) is added
      to the user's first line for the product, or a new line is created, and that
      line is returned. */
  method AddToCart(st: Database, body: Option<AddBody>) returns (r: Result<LineDict>)
    requires st.Valid()
    modifies st
    ensures st.Valid()
    ensures st.products == old(st.products)
    ensures (body.None? || !TruthyText(body.value.username) || !Truthy(body.value.productId)) ==>
      r == Err(BadRequest) && st.Snapshot() == old(st.Snapshot())
    ensures (body.Some? && TruthyText(body.value.username) && Truthy(body.value.productId)
             && (UserByName(old(st.users), body.value.username.value).None?
                 || body.value.productId.value !in old(st.products))) ==>
      r == Err(NotFound) && st.Snapshot() == old(st.Snapshot())
    ensures (body.Some? && TruthyText(body.value.username) && Truthy(body.value.productId)
             && UserByName(old(st.users), body.value.username.value).Some?
             && body.value.productId.value in old(st.products)) ==>
      var uid := UserByName(old(st.users), body.value.username.value).value.id;
      var pid := body.value.productId.value;
      var qty := body.value.quantity.GetOr(1);
      var existing := LineFor(old(st.lines), uid, pid);
      var k := if existing.Some? then existing.value else |old(st.lines)|;
      && st.Snapshot() == old(st.Snapshot()).(
           lines := AddToLines(old(st.lines), uid, pid, qty, old(st.nextLineId)),
           nextLineId := if existing.Some? then old(st.nextLineId) else old(st.nextLineId) + 1)
      && k < |st.lines|
      && r == Ok(LineToDict(st.lines[k], st.products))
      && st.lines[k].userId == uid && st.lines[k].productId == pid
      && (existing.Some? ==> st.lines[k].quantity == old(st.lines)[k].quantity + qty)
      && (existing.None? ==> st.lines[k].quantity == qty)
  {
    if body.None? {
      return Err(BadRequest);
    }
    var data := body.value;
    var qty := data.quantity.GetOr(1);
    if !TruthyText(data.username) || !Truthy(data.productId) {
      return Err(BadRequest);
    }
    var user := UserByName(st.users, data.username.value);
    var found := data.productId.value in st.products;
    if user.None? {
      return Err(NotFound);
    }
    if !found {
      return Err(NotFound);
    }
    var k := st.AddLine(user.value.id, data.productId.value, qty);
    r := Ok(LineToDict(st.lines[k], st.products));
  }

  /** PATCH /item/<id>: an unknown line is not found. Otherwise its quantity is
      set to exactly the value given, with no lower bound; a body without a quantity
      raises (KeyError) and changes nothing. */
  method UpdateCartItem(st: Database, itemId: int, quantity: Option<int>) returns (r: Result<LineDict>)
    requires st.Valid()
    modifies st
    ensures st.Valid()
    ensures st.products == old(st.products)
    ensures LineById(old(st.lines), itemId).None? ==>
      r == Err(NotFound) && st.Snapshot() == old(st.Snapshot())
    ensures LineById(old(st.lines), itemId).Some? && quantity.None? ==>
      r == Err(ServerError) && st.Snapshot() == old(st.Snapshot())
    ensures LineById(old(st.lines), itemId).Some? && quantity.Some? ==>
      var k := LineById(old(st.lines), itemId).value;
      && st.Snapshot() == old(st.Snapshot()).(lines := old(st.lines)[k := old(st.lines)[k].(quantity := quantity.value)])
      && r == Ok(LineToDict(st.lines[k], st.products))
      && r.value.quantity == quantity.value
  {
    var found := LineById(st.lines, itemId);
    if found.None? {
      return Err(NotFound);
    }
    if quantity.None? {
      return Err(ServerError);
    }
    var k := found.value;
    st.lines := st.lines[k := st.lines[k].(quantity := quantity.value)];
    r := Ok(LineToDict(st.lines[k], st.products));
  }

  /** DELETE /item/<id>: an unknown line is not found; otherwise exactly that line
      is deleted. */
  method DeleteCartItem(st: Database, itemId: int) returns (r: Outcome)
    requires st.Valid()
    modifies st
    ensures st.Valid()
    ensures st.products == old(st.products)
    ensures LineById(old(st.lines), itemId).None? ==>
      r == Failed(NotFound) && st.Snapshot() == old(st.Snapshot())
    ensures LineById(old(st.lines), itemId).Some? ==>
      var k := LineById(old(st.lines), itemId).value;
      && r == Done
      && st.Snapshot() == old(st.Snapshot()).(lines := old(st.lines)[..k] + old(st.lines)[k + 1..])
  {
    var found := LineById(st.lines, itemId);
    if found.None? {
      return Failed(NotFound);
    }
    WithoutLineAt(st.lines, found.value);
    FilterKeepsUniqueIds(st.lines, (x: CartLine) => x.id != itemId);
    st.lines := WithoutLine(st.lines, itemId);
    r := Done;
  }

  /** POST /checkout/<username>: an unknown user is not found. Otherwise every
      line of the user is deleted in one statement, which succeeds on an empty cart
      too; no order is created, and other users' lines and all stock are untouched. */
  method Checkout(st: Database, username: string) returns (r: Outcome)
    requires st.Valid()
    modifies st
    ensures st.Valid()
    ensures st.products == old(st.products)
    ensures UserByName(old(st.users), username).None? ==>
      r == Failed(NotFound) && st.Snapshot() == old(st.Snapshot())
    ensures UserByName(old(st.users), username).Some? ==>
      var uid := UserByName(old(st.users), username).value.id;
      && r == Done
      && st.Snapshot() == old(st.Snapshot()).(lines := LinesNotOf(old(st.lines), uid))
      && LinesOf(st.lines, uid) == []
      && multiset(st.lines) + multiset(LinesOf(old(st.lines), uid)) == multiset(old(st.lines))
  {
    var user := UserByName(st.users, username);
    if user.None? {
      return Failed(NotFound);
    }
    var uid := user.value.id;
    LinesPartition(st.lines, uid);
    FilterKeepsUniqueIds(st.lines, (x: CartLine) => x.userId != uid);
    st.lines := LinesNotOf(st.lines, uid);
    FilterNone(st.lines, (x: CartLine) => x.userId == uid);
    r := Done;
  }
}
