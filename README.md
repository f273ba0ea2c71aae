# Cart and checkout of the Cartify store backend

This is a Dafny model of the cart and checkout logic in the Cartify Flask/SQLAlchemy
backend. The model holds the database as one `Tables.Database` object with these fields:

- the users, as `(id, username)` rows;
- the product table, mapping an id to name, price, stock and image. Prices are whole cents.
- the cart table, as `(id, user_id, product_id, quantity)` rows in table order: insertion order, with an update made in place (see "## Left out");
- the order table, as `(id, user_id)` rows;
- the order-item table, as `(order_id, product_id, quantity)` rows;
- the next fresh id for cart lines and for orders.

`Database.Valid()` states the integrity that the ORM guards and the handlers keep (the price and stock guards are ORM validators, not database constraints):

- user ids and usernames are each distinct;
- cart-line primary keys are distinct, and every id in use is below the next fresh one;
- every cart line and every order item points at an existing product. No handler deletes a product, so this holds even on SQLite, which enforces foreign keys only when `PRAGMA foreign_keys` is on;
- every stored product has passed the column guards.

The code has two cart blueprints, and both are modelled as written.

- `CartRoutes` models `server/routes/cart.py`, the blueprint the application registers.
  - Add merges into an existing line or creates a new one.
  - Update sets any quantity, with no check.
  - Delete removes one line.
  - Checkout deletes the user's lines and creates no order.
- `Cart` models `server/cart.py`, a second blueprint that is not registered.
  - Update refuses quantities below 1.
  - Checkout refuses an empty cart. As written, it commits a new order and then fails on its first order item, leaving the cart in place (see "## Findings"). `CartAsWritten.CheckoutCart` models that. `Cart.CheckoutCart` is the corrected checkout: it creates one order, writes one order item per cart line and deletes each line.
- `Models` models `server/models.py`: the price and stock write guards, the column defaults, `Order.total` and `CartItem.to_dict`.

Each handler is a module-level method that takes the shared `Database`, as the Python
handlers are module functions working on one shared session. It also takes the request's
parameters, with an absent JSON field written as `None`, and returns an `Outcome` or a `Result`. Its
contract gives the error reply (`BadRequest`, `NotFound`, `ServerError`) and the whole new
state. Every error reply leaves the state unchanged, with one exception:
`CartAsWritten.CheckoutCart` replies `ServerError` after it has committed a new order and
advanced the order counter. ORM queries are pure functions over the tables:
`filter_by(...).first()`, `User.query.get` and `CartItem.query.get` are `Seqs.Find`,
`Product.query.get` is membership in the product map, and `filter_by(...).all()` is
`Seqs.Filter`.

No handler in either blueprint reads or changes a product's stock. Every handler's contract
says the product table is unchanged. There is no stock check, no stock decrement and no
price captured at purchase: `Order.total` prices every item at its product's current price.
Adding a line checks no quantity against stock. Update and delete in both blueprints take
a line id alone and act on that line whoever owns it.

## Model

| member | source | states |
|---|---|---|
| `Models.ValidatePrice` | server/models.py:60-64 | a price ≤ 0 is refused with ValueError; a positive price is stored unchanged |
| `Models.ValidateStock` | server/models.py:66-70 | a negative stock is refused; 0 and above are stored unchanged |
| `Models.NewProduct` | server/models.py:47-70 | creation succeeds iff the price is positive and any given stock is non-negative; the product then satisfies both guards, and a stock left out is 0 |
| `Models.SetPrice` | server/models.py:60-64 | a later price write is guarded the same way, changes only the price, and keeps a valid product valid |
| `Models.SetStock` | server/models.py:66-70 | a later stock write is guarded the same way, changes only the stock, and keeps a valid product valid |
| `Models.NewCartLine` | server/models.py:90-93 | a cart line created without a quantity has quantity 1; otherwise it holds the given fields |
| `Models.NewOrderItem` | server/models.py:137-140 | an order item created without a quantity has quantity 1 |
| `Models.ItemsOf` | server/models.py:117 | an order's items are exactly the order-item rows carrying its id |
| `Models.Total` | server/models.py:119-121 | an order with no items totals 0 |
| `Models.ItemsTotalAfterPriceChange` | server/models.py:121 | repricing one product moves a sum of price × quantity by the price difference times that product's quantity |
| `Models.TotalAfterPriceChange` | server/models.py:119-121 | `Order.total` reads current prices: repricing a product changes the total of every existing order holding it by the difference times its quantity there |
| `Models.LineToDict` | server/models.py:97-106 | the line's own id, user id, product id and quantity, with name, price and image taken from the referenced product |
| `Seqs.FilterSubMultiset` | server/routes/cart.py:14 | a filtered `.all()` returns each row at most as often as the table holds it |
| `Seqs.FilterKeepsOrder` | server/routes/cart.py:14 | a filtered `.all()` returns its rows in the model's table order |
| `Tables.UserByName` | server/cart.py:11 | none iff no user has the name; otherwise a user with that name |
| `Tables.UserById` | server/cart.py:40 | none iff no user has the id; otherwise a user with that id |
| `Tables.UserByIdIsThatUser` | server/models.py:14 | with distinct user ids (the primary key), a lookup by id returns the one user holding that id |
| `Tables.UserByNameIsThatUser` | server/models.py:15 | with distinct usernames (a unique column), a lookup by name returns the one user holding that name |
| `Tables.LineById` | server/cart.py:68 | none iff no cart line has the id; otherwise the position of a line with that id |
| `Tables.LineFor` | server/cart.py:49 | none iff the user has no line for the product; otherwise the position of such a line |
| `Tables.LinesOf` | server/cart.py:102 | exactly the cart lines of the user |
| `Tables.LinesNotOf` | server/routes/cart.py:77 | exactly the cart lines of other users |
| `Tables.WithoutLine` | server/cart.py:90 | exactly the lines whose id differs from the deleted one |
| `Tables.WithoutLineAt` | server/cart.py:86-92 | with distinct ids, deleting by id removes exactly the one line at that position and keeps the rest in order |
| `Tables.WithoutLinesStep` | server/cart.py:120 | deleting one more line by id extends the set of deleted ids |
| `Tables.UserIdsDeleteUserLines` | server/cart.py:112-120 | with distinct ids, deleting the ids of the user's lines one by one is the bulk delete of the user's cart |
| `Tables.LinesPartition` | server/routes/cart.py:77 | the user's lines and the others' lines together are the whole cart table (as multisets) |
| `Tables.AddToLinesShape` | server/cart.py:49-54 | adding to an existing (user, product) line keeps the count and every id; otherwise exactly one line is appended with the requested quantity |
| `Tables.AddKeepsPairsUnique` | server/routes/cart.py:41-46 | if each (user, product) had at most one line before adding, it has at most one after |
| `Tables.AddQuantity` | server/cart.py:49-54 | adding raises the user's quantity of the product by exactly the requested amount, and leaves every other pair's quantity unchanged |
| `Tables.Database.AddLine` | server/routes/cart.py:41-46 | merges into the first (user, product) line in table order or inserts one with a fresh id; keeps the tables valid; returns that line |
| `Cart.Entry` | server/cart.py:19-25 | the entry reports the line's id and quantity with the product's name, price and image |
| `Cart.ItemsFrom` | server/cart.py:112-118 | one order item per cart line, in order, with the line's product and quantity |
| `Cart.CheckoutStep` | server/cart.py:112-120 | one loop turn extends both the deleted lines and the written items by the next cart line |
| `Cart.MoveLinesToOrder` | server/cart.py:112-120 | the loop writes one item per line and deletes each line; no other table changes |
| `Cart.GetCart` | server/cart.py:9-26 | unknown user: 404; otherwise one entry per line of the user, in order, with the line's id and quantity and the product's name and price |
| `Cart.AddToCart` | server/cart.py:30-57 | missing or zero ids: 400; unknown user or product: 404, nothing changes; else the pair's line grows by the quantity (default 1) or one line is created; stock untouched |
| `Cart.UpdateCartItem` | server/cart.py:61-80 | a quantity that is absent or < 1 is 400 before any lookup; unknown line: 404; otherwise only that line's quantity is set, to exactly the value |
| `Cart.RemoveCartItem` | server/cart.py:84-92 | unknown line: 404; otherwise exactly that line is removed and nothing else changes |
| `Cart.CheckoutOrderItems` | server/cart.py:107-120 | the new order's items are exactly the copies of the cart lines |
| `Cart.CheckoutCart` | server/cart.py:96-123 | unknown user: 404; empty cart: 400 and no order; else one order for the user, an item per cart line with its product and quantity, all the user's lines deleted, other users' lines and all stock untouched |
| `CartAsWritten.CheckoutCart` | server/cart.py:107-118 | for a non-empty cart the handler fails with 500, leaving a committed order that has no items and totals 0 while the whole cart remains |
| `CartRoutes.GetCart` | server/routes/cart.py:9-15 | unknown user: 404; otherwise `to_dict` of exactly the user's lines, in order |
| `CartRoutes.AddToCart` | server/routes/cart.py:19-49 | no body, or a missing username or product id: 400; unknown user or product: 404; else merge or create, returning that line's `to_dict`; stock untouched |
| `CartRoutes.UpdateCartItem` | server/routes/cart.py:53-59 | unknown line: 404; otherwise the quantity is set to exactly the value given, with no lower bound; nothing else changes |
| `CartRoutes.DeleteCartItem` | server/routes/cart.py:63-68 | unknown line: 404; otherwise exactly that line is removed |
| `CartRoutes.Checkout` | server/routes/cart.py:72-79 | unknown user: 404; otherwise all of the user's lines are deleted, even on an empty cart; no order is created, and other lines and all stock are untouched |

## Left out

- HTTP routing, JSON parsing and reply bodies are not modelled. The error statuses are the `Error` values; success statuses and message texts are not modelled. The empty JSON list that the registered `get_cart` sends with its 404 is not modelled either.
- A PATCH body that is not JSON at all is not modelled: the registered update's reply then depends on the Flask version. A JSON body without `quantity` is modelled; it is the `ServerError` reply.
- JSON values of the wrong type are not modelled: a quantity that is a string, a float or `null`, or a non-integer id. A quantity is an integer or absent.
- Row order is not specified by the code: no query has an ORDER BY, so SQL defines neither the order of an `.all()` reply nor which row `.first()` picks. The model fixes one order, insertion order with updates made in place, which is SQLite's rowid order. PostgreSQL, whose sequence behaviour the model follows for ids, usually returns an updated row in a new position; the order of a `get_cart` reply and the line a merge picks when several match are therefore the model's choice, not a promise of the code.
- `server/routes/cart.py` commits through the `db` of `server/extensions.py`, which is not part of this model. The `CartRoutes` write contracts assume it is the same `db` that the models bind to and the application registers (`server/models.py` line 7), so that its commit persists changes to rows loaded through `CartItem.query`.
- The SQLAlchemy session is not modelled. Each handler is one atomic state change. The one exception is `server/cart.py`, which commits the order at line 109 before writing its items; `CartAsWritten.CheckoutCart` shows what that early commit leaves behind.
- Float prices are not modelled. Prices are whole cents and totals are exact sums, with no rounding.
- Nullable text columns are plain strings. `created_at` timestamps, a clock value, are not modelled.
- `Product.to_dict`, `User.to_dict`, `Order.to_dict` and `OrderItem.to_dict` are reply shaping and are not modelled.
- Auto-increment primary keys are counters that start at 1 and are never reused, as a PostgreSQL sequence behaves. On the SQLite fallback the id column is an INTEGER PRIMARY KEY without AUTOINCREMENT, so a freed largest id is handed out again (after the registered checkout empties the cart table, the next line gets id 1); that reuse is not modelled.
- Quantities, stock and ids are unbounded integers in the model, while the `Integer` columns are 32-bit on PostgreSQL and 64-bit on SQLite. A write outside that range fails at commit with a 500 and changes nothing; the model stores the value and reports success. This applies to the lines below.
- `Cart.AddToCart`: an added quantity that pushes a line's quantity out of the column's range is stored rather than refused with `ServerError`.
- `Cart.UpdateCartItem`: a quantity above the column's range is stored rather than refused with `ServerError`.
- `CartRoutes.AddToCart`: an added quantity that pushes a line's quantity out of the column's range is stored rather than refused with `ServerError`.
- `CartRoutes.UpdateCartItem`: a quantity outside the column's range is stored rather than refused with `ServerError`.
- The users, products and orders routes, authentication, password hashing and the seed scripts are not part of this model.
- No handler deletes a product, so a cart line whose product is missing cannot occur. The crash `item.product.name` would raise in that case is not modelled.
- There is no concurrency, locking or stock reservation in the code, and none in the model.

## Findings

| source | as written | input that shows it | evidently intended | confidence | as-written member | corrected member |
|---|---|---|---|---|---|---|
| server/cart.py:113-118 | the order-item constructor is passed `price=item.product.price`, and the order-item record has no price column; this raises TypeError after the order row was committed at line 109 | the checkout handler called for a known user who has one cart line (the blueprint is not registered, so no URL reaches it) | one order item per cart line, then the cart emptied | high; not executed | `CartAsWritten.CheckoutCart` | `Cart.CheckoutCart` |
