/** The database the handlers share: the user, product, cart, order and order-item
    tables, the fresh-id counters of the two tables the cart handlers insert into,
    and the queries the handlers run against them. */
module Tables {
  import opened Outcomes
  import opened Seqs
  import opened Models

  /** A value copy of every table, to state what a handler leaves as it was. */
  datatype Contents = Contents(
    users: seq<User>,
    products: map<int, Product>,
    lines: seq<CartLine>,
    orders: seq<Order>,
    orderItems: seq<OrderItem>,
    nextLineId: int,
    nextOrderId: int)

  /** User ids (the primary key) and usernames (a unique column) are each distinct. */
  predicate UniqueUsers(users: seq<User>) {
    forall i, j :: 0 <= i < j < |users| ==> users[i].id != users[j].id && users[i].username != users[j].username
  }

  /** Primary keys of the cart table are distinct. */
  predicate UniqueIds(lines: seq<CartLine>) {
    forall i, j :: 0 <= i < j < |lines| ==> lines[i].id != lines[j].id
  }

  class Database {
    var users: seq<User>
    var products: map<int, Product>
    var lines: seq<CartLine>
    var orders: seq<Order>
    var orderItems: seq<OrderItem>
    var nextLineId: int
    var nextOrderId: int

    /** Integrity of the tables: user ids and usernames are distinct, every product
        passed its guards, cart line ids are distinct and below the next fresh id,
        order ids are below theirs, and every line and order item points at an
        existing product. */
    ghost predicate Valid()
      reads this
    {
      && UniqueUsers(users)
      && ProductsValid(products)
      && UniqueIds(lines)
      && (forall x :: x in lines ==> x.id < nextLineId && x.productId in products)
      && (forall o :: o in orders ==> o.id < nextOrderId)
      && (forall it :: it in orderItems ==> it.productId in products && it.orderId < nextOrderId)
    }

    ghost function Snapshot(): Contents
      reads this
    {
      Contents(users, products, lines, orders, orderItems, nextLineId, nextOrderId)
    }

    /** A database holding the given users and products, with empty cart and order
        tables; fresh ids start at 1. */
    constructor (users: seq<User>, products: map<int, Product>)
      requires UniqueUsers(users) && ProductsValid(products)
      ensures Valid()
      ensures Snapshot() == Contents(users, products, [], [], [], 1, 1)
    {
      this.users := users;
      this.products := products;
      this.lines := [];
      this.orders := [];
      this.orderItems := [];
      this.nextLineId := 1;
      this.nextOrderId := 1;
    }

    /** The step both add handlers share: the user's first line for the product grows by
        `quantity`, or else a line with the next fresh id is inserted. Returns the
        position of the line added to. */
    method AddLine(userId: int, productId: int, quantity: int) returns (k: nat)
      requires Valid() && productId in products
      modifies this
      ensures Valid()
      ensures Snapshot() == old(Snapshot()).(
        lines := AddToLines(old(lines), userId, productId, quantity, old(nextLineId)),
        nextLineId := if LineFor(old(lines), userId, productId).Some? then old(nextLineId) else old(nextLineId) + 1)
      ensures k < |lines| && lines[k].userId == userId && lines[k].productId == productId
      ensures LineFor(old(lines), userId, productId).Some? ==>
        k == LineFor(old(lines), userId, productId).value && lines[k].quantity == old(lines)[k].quantity + quantity
      ensures LineFor(old(lines), userId, productId).None? ==>
        k == |old(lines)| && lines[k] == CartLine(old(nextLineId), userId, productId, quantity)
    {
      var existing := LineFor(lines, userId, productId);
      if existing.Some? {
        k := existing.value;
        lines := lines[k := lines[k].(quantity := lines[k].quantity + quantity)];
      } else {
        k := |lines|;
        lines := lines + [NewCartLine(nextLineId, userId, productId, Some(quantity))];
        nextLineId := nextLineId + 1;
      }
    }
  }

  // ---------------- queries ----------------

  /** `User.query.filter_by(username=name).first()`. */
  function UserByName(users: seq<User>, name: string): (r: Option<User>)
    ensures r.None? <==> forall u :: u in users ==> u.username != name
    ensures r.Some? ==> r.value in users && r.value.username == name
  {
    match Find(users, (u: User) => u.username == name)
    case None => None
    case Some(k) => Some(users[k])
  }

  /** `User.query.get(id)`: the user with that primary key. */
  function UserById(users: seq<User>, id: int): (r: Option<User>)
    ensures r.None? <==> forall u :: u in users ==> u.id != id
    ensures r.Some? ==> r.value in users && r.value.id == id
  {
    match Find(users, (u: User) => u.id == id)
    case None => None
    case Some(k) => Some(users[k])
  }

  /** With distinct user ids, a lookup by id finds the one user holding that id. */
  lemma UserByIdIsThatUser(users: seq<User>, u: User)
    requires UniqueUsers(users) && u in users
    ensures UserById(users, u.id) == Some(u)
  {
    var j :| 0 <= j < |users| && users[j] == u;
    var k := Find(users, (v: User) => v.id == u.id).value;
    assert users[k].id == u.id;
  }

  /** With distinct usernames, a lookup by name finds the one user holding that name. */
  lemma UserByNameIsThatUser(users: seq<User>, u: User)
    requires UniqueUsers(users) && u in users
    ensures UserByName(users, u.username) == Some(u)
  {
    var j :| 0 <= j < |users| && users[j] == u;
    var k := Find(users, (v: User) => v.username == u.username).value;
    assert users[k].username == u.username;
  }

  /** `CartItem.query.get(id)`: the position of the line with that primary key. */
  function LineById(lines: seq<CartLine>, id: int): (r: Option<nat>)
    ensures r.None? <==> forall x :: x in lines ==> x.id != id
    ensures r.Some? ==> r.value < |lines| && lines[r.value].id == id
  {
    Find(lines, (x: CartLine) => x.id == id)
  }

  /** `CartItem.query.filter_by(user_id=u, product_id=p).first()`. */
  function LineFor(lines: seq<CartLine>, userId: int, productId: int): (r: Option<nat>)
    ensures r.None? <==> forall x :: x in lines ==> !(x.userId == userId && x.productId == productId)
    ensures r.Some? ==> r.value < |lines| && lines[r.value].userId == userId && lines[r.value].productId == productId
  {
    Find(lines, (x: CartLine) => x.userId == userId && x.productId == productId)
  }

  /** `CartItem.query.filter_by(user_id=u).all()`: the user's cart, in table order. */
  function LinesOf(lines: seq<CartLine>, userId: int): (r: seq<CartLine>)
    ensures forall x :: x in r <==> x in lines && x.userId == userId
  {
    Filter(lines, (x: CartLine) => x.userId == userId)
  }

  /** The cart table once the user's lines are deleted. */
  function LinesNotOf(lines: seq<CartLine>, userId: int): (r: seq<CartLine>)
    ensures forall x :: x in r <==> x in lines && x.userId != userId
  {
    Filter(lines, (x: CartLine) => x.userId != userId)
  }

  /** `session.delete` of the line with primary key `id`. */
  function WithoutLine(lines: seq<CartLine>, id: int): (r: seq<CartLine>)
    ensures forall x :: x in r <==> x in lines && x.id != id
  {
    Filter(lines, (x: CartLine) => x.id != id)
  }

  /** The cart table once every line whose id is in `ids` is deleted. */
  ghost function WithoutLines(lines: seq<CartLine>, ids: set<int>): (r: seq<CartLine>)
    ensures forall x :: x in r <==> x in lines && x.id !in ids
  {
    Filter(lines, (x: CartLine) => x.id !in ids)
  }

  ghost function IdSet(lines: seq<CartLine>): set<int> {
    set x | x in lines :: x.id
  }

  /** Adding `quantity` of a product to a user's cart: the first line for the pair has
      its quantity increased, or, when there is none, a line with id `newId` is appended. */
  function AddToLines(lines: seq<CartLine>, userId: int, productId: int, quantity: int, newId: int): (r: seq<CartLine>) {
    match LineFor(lines, userId, productId)
    case Some(k) => lines[k := lines[k].(quantity := lines[k].quantity + quantity)]
    case None => lines + [NewCartLine(newId, userId, productId, Some(quantity))]
  }

  /** The quantity of a product the lines of a user add up to. */
  function QuantityFor(lines: seq<CartLine>, userId: int, productId: int): (q: int)
    decreases |lines|
  {
    if lines == [] then 0
    else
      var own := if lines[0].userId == userId && lines[0].productId == productId then lines[0].quantity else 0;
      own + QuantityFor(lines[1..], userId, productId)
  }

  /** At most one line per (user, product) pair. */
  predicate UniquePairs(lines: seq<CartLine>) {
    forall i, j :: 0 <= i < j < |lines| ==>
      !(lines[i].userId == lines[j].userId && lines[i].productId == lines[j].productId)
  }

  // ---------------- lemmas ----------------

  /** Deleting rows keeps primary keys distinct. */
  lemma {:induction false} FilterKeepsUniqueIds(lines: seq<CartLine>, keep: CartLine -> bool)
    requires UniqueIds(lines)
    ensures UniqueIds(Filter(lines, keep))
    decreases |lines|
  {
    if lines != [] {
      var rest := Filter(lines[1..], keep);
      FilterKeepsUniqueIds(lines[1..], keep);
      if keep(lines[0]) {
        var r := Filter(lines, keep);
        assert r == [lines[0]] + rest;
        forall i, j | 0 <= i < j < |r| ensures r[i].id != r[j].id {
          if i == 0 {
            assert r[j] == rest[j - 1] && r[j] in lines[1..];
            var k :| 0 <= k < |lines[1..]| && lines[1..][k] == r[j];
            assert lines[k + 1] == r[j];
          } else {
            assert r[i] == rest[i - 1] && r[j] == rest[j - 1];
          }
        }
      }
    }
  }

  /** With distinct ids, deleting by primary key removes exactly the one row at that position. */
  lemma {:induction false} WithoutLineAt(lines: seq<CartLine>, k: nat)
    requires UniqueIds(lines)
    requires k < |lines|
    ensures WithoutLine(lines, lines[k].id) == lines[..k] + lines[k + 1..]
    decreases |lines|
  {
    var tail := lines[1..];
    UniqueIdsTail(lines);
    if k == 0 {
      WithoutFirstLine(lines);
    } else {
      assert lines[0].id != lines[k].id;
      WithoutLineAt(tail, k - 1);
      SpliceTail(lines, k);
    }
  }

  lemma UniqueIdsTail(lines: seq<CartLine>)
    requires UniqueIds(lines) && lines != []
    ensures UniqueIds(lines[1..])
  {
    var tail := lines[1..];
    forall i, j | 0 <= i < j < |tail| ensures tail[i].id != tail[j].id {
      assert tail[i] == lines[i + 1] && tail[j] == lines[j + 1];
    }
  }

  lemma WithoutFirstLine(lines: seq<CartLine>)
    requires UniqueIds(lines) && lines != []
    ensures WithoutLine(lines, lines[0].id) == lines[1..]
  {
    var id, tail := lines[0].id, lines[1..];
    forall x | x in tail ensures x.id != id {
      var j :| 0 <= j < |tail| && tail[j] == x;
      assert lines[j + 1] == x;
    }
    FilterAll(tail, (x: CartLine) => x.id != id);
  }

  lemma SpliceTail(lines: seq<CartLine>, k: nat)
    requires 0 < k < |lines|
    ensures [lines[0]] + (lines[1..][..k - 1] + lines[1..][k..]) == lines[..k] + lines[k + 1..]
  {
    assert lines[1..][..k - 1] == lines[1..k];
    assert lines[1..][k..] == lines[k + 1..];
    assert lines[..k] == [lines[0]] + lines[1..k];
  }

  /** Deleting one more line by id extends the set of deleted ids. */
  lemma {:induction false} WithoutLinesStep(lines: seq<CartLine>, ids: set<int>, id: int)
    ensures WithoutLine(WithoutLines(lines, ids), id) == WithoutLines(lines, ids + {id})
    decreases |lines|
  {
    if lines != [] {
      WithoutLinesStep(lines[1..], ids, id);
      var kept := if lines[0].id !in ids then [lines[0]] else [];
      FilterAppend(kept, WithoutLines(lines[1..], ids), (x: CartLine) => x.id != id);
    }
  }

  /** Deleting no ids leaves the table as it was. */
  lemma {:induction false} WithoutNoLines(lines: seq<CartLine>)
    ensures WithoutLines(lines, {}) == lines
    decreases |lines|
  {
    if lines != [] {
      WithoutNoLines(lines[1..]);
    }
  }

  /** When the deleted ids are exactly those of the user's lines, the deletion is the
      bulk delete of the user's cart. */
  lemma UserIdsDeleteUserLines(lines: seq<CartLine>, userId: int)
    requires UniqueIds(lines)
    ensures WithoutLines(lines, IdSet(LinesOf(lines, userId))) == LinesNotOf(lines, userId)
  {
    var ids := IdSet(LinesOf(lines, userId));
    forall x | x in lines ensures (x.id !in ids) == (x.userId != userId) {
      if x.id in ids {
        var y :| y in LinesOf(lines, userId) && y.id == x.id;
        var i :| 0 <= i < |lines| && lines[i] == x;
        var j :| 0 <= j < |lines| && lines[j] == y;
        assert i == j;
      } else {
        assert x !in LinesOf(lines, userId);
      }
    }
    FilterAgree(lines, (x: CartLine) => x.id !in ids, (x: CartLine) => x.userId != userId);
  }

  /** The user's lines and the rest together are the whole cart table. */
  lemma {:induction false} LinesPartition(lines: seq<CartLine>, userId: int)
    ensures multiset(LinesOf(lines, userId)) + multiset(LinesNotOf(lines, userId)) == multiset(lines)
    decreases |lines|
  {
    if lines != [] {
      LinesPartition(lines[1..], userId);
      assert lines == [lines[0]] + lines[1..];
    }
  }

  /** Adding to the cart creates at most one line: none when the pair already has a
      line, one otherwise. */
  lemma AddToLinesShape(lines: seq<CartLine>, userId: int, productId: int, quantity: int, newId: int)
    ensures var r := AddToLines(lines, userId, productId, quantity, newId);
      && (LineFor(lines, userId, productId).Some? ==> |r| == |lines| && forall i :: 0 <= i < |lines| ==> r[i].id == lines[i].id)
      && (LineFor(lines, userId, productId).None? ==> r == lines + [CartLine(newId, userId, productId, quantity)])
  {
  }

  /** Adding keeps at most one line per (user, product) pair. */
  lemma AddKeepsPairsUnique(lines: seq<CartLine>, userId: int, productId: int, quantity: int, newId: int)
    requires UniquePairs(lines)
    ensures UniquePairs(AddToLines(lines, userId, productId, quantity, newId))
  {
  }

  /** Adding raises the quantity the user holds of the product by exactly the requested
      amount, and leaves every other pair's quantity as it was. */
  lemma {:induction false} AddQuantity(lines: seq<CartLine>, userId: int, productId: int, quantity: int, newId: int, u: int, p: int)
    ensures QuantityFor(AddToLines(lines, userId, productId, quantity, newId), u, p)
         == QuantityFor(lines, u, p) + (if u == userId && p == productId then quantity else 0)
  {
    match LineFor(lines, userId, productId)
    case Some(k) =>
      UpdateQuantity(lines, k, lines[k].quantity + quantity, u, p);
    case None =>
      AppendQuantity(lines, NewCartLine(newId, userId, productId, Some(quantity)), u, p);
  }

  lemma {:induction false} UpdateQuantity(lines: seq<CartLine>, k: nat, q: int, u: int, p: int)
    requires k < |lines|
    ensures QuantityFor(lines[k := lines[k].(quantity := q)], u, p)
         == QuantityFor(lines, u, p) + (if lines[k].userId == u && lines[k].productId == p then q - lines[k].quantity else 0)
    decreases |lines|
  {
    if k > 0 {
      UpdateQuantity(lines[1..], k - 1, q, u, p);
      assert lines[k := lines[k].(quantity := q)][1..] == lines[1..][k - 1 := lines[k].(quantity := q)];
    }
  }

  lemma {:induction false} AppendQuantity(lines: seq<CartLine>, x: CartLine, u: int, p: int)
    ensures QuantityFor(lines + [x], u, p)
         == QuantityFor(lines, u, p) + (if x.userId == u && x.productId == p then x.quantity else 0)
    decreases |lines|
  {
    if lines == [] {
      assert [x][1..] == [];
    } else {
      AppendQuantity(lines[1..], x, u, p);
      assert (lines + [x])[1..] == lines[1..] + [x];
    }
  }
}
