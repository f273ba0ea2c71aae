/** The records of the store (server/models.py): column defaults, write guards,
    the derived order total and the cart line's reply record. */
module Models {
  import opened Outcomes
  import opened Seqs

  datatype User = User(id: int, username: string)

  /** A catalogue entry; the price is held as a whole number of cents. */
  datatype Product = Product(name: string, price: int, stock: int, imageUrl: string)

  /** A row of the cart table: one product a user means to buy. */
  datatype CartLine = CartLine(id: int, userId: int, productId: int, quantity: int)

  datatype Order = Order(id: int, userId: int)

  /** A row of the order-item table; it has no price column of its own. */
  datatype OrderItem = OrderItem(orderId: int, productId: int, quantity: int)

  /** What `CartItem.to_dict` reports for a cart line. */
  datatype LineDict = LineDict(
    id: int, userId: int, productId: int,
    productName: string, price: int, imageUrl: string,
    quantity: int)

  /** Column default of `Product.stock`. */
  const DefaultStock := 0

  /** Column default of `CartItem.quantity` and `OrderItem.quantity`. */
  const DefaultQuantity := 1

  // ---------------- write guards ----------------

  /** The price validator: a price of zero or less raises ValueError, any other is stored as given. */
  function ValidatePrice(value: int): (r: Result<int>)
    ensures r.Ok? <==> value > 0
    ensures r.Ok? ==> r.value == value
    ensures r.Err? ==> r.error == InvalidValue
  {
    if value <= 0 then Err(InvalidValue) else Ok(value)
  }

  /** The stock validator: a negative stock raises ValueError, zero and above are stored as given. */
  function ValidateStock(value: int): (r: Result<int>)
    ensures r.Ok? <==> value >= 0
    ensures r.Ok? ==> r.value == value
    ensures r.Err? ==> r.error == InvalidValue
  {
    if value < 0 then Err(InvalidValue) else Ok(value)
  }

  /** What every product the guards let through satisfies. */
  predicate ProductValid(p: Product) {
    p.price > 0 && p.stock >= 0
  }

  predicate ProductsValid(products: map<int, Product>) {
    forall id :: id in products ==> ProductValid(products[id])
  }

  /** Creating a product: each assigned column passes its validator, and an omitted
      stock takes the column default, which is never validated. */
  function NewProduct(name: string, price: int, stock: Option<int>, imageUrl: string): (r: Result<Product>)
    ensures r.Ok? <==> price > 0 && (stock.Some? ==> stock.value >= 0)
    ensures r.Err? ==> r.error == InvalidValue
    ensures r.Ok? ==> ProductValid(r.value)
    ensures r.Ok? ==> r.value.name == name && r.value.price == price && r.value.imageUrl == imageUrl
    ensures r.Ok? && stock.None? ==> r.value.stock == DefaultStock
    ensures r.Ok? && stock.Some? ==> r.value.stock == stock.value
  {
    match ValidatePrice(price)
    case Err(e) => Err(e)
    case Ok(p) =>
      match stock
      case None => Ok(Product(name, p, DefaultStock, imageUrl))
      case Some(s) =>
        match ValidateStock(s)
        case Err(e) => Err(e)
        case Ok(v) => Ok(Product(name, p, v, imageUrl))
  }

  /** Assigning `product.price`: the guard runs on every write, not only on creation. */
  function SetPrice(p: Product, value: int): (r: Result<Product>)
    ensures r.Ok? <==> value > 0
    ensures r.Err? ==> r.error == InvalidValue
    ensures r.Ok? ==> r.value.price == value && r.value.(price := p.price) == p
    ensures ProductValid(p) && r.Ok? ==> ProductValid(r.value)
  {
    match ValidatePrice(value)
    case Err(e) => Err(e)
    case Ok(v) => Ok(p.(price := v))
  }

  /** Assigning `product.stock`. */
  function SetStock(p: Product, value: int): (r: Result<Product>)
    ensures r.Ok? <==> value >= 0
    ensures r.Err? ==> r.error == InvalidValue
    ensures r.Ok? ==> r.value.stock == value && r.value.(stock := p.stock) == p
    ensures ProductValid(p) && r.Ok? ==> ProductValid(r.value)
  {
    match ValidateStock(value)
    case Err(e) => Err(e)
    case Ok(v) => Ok(p.(stock := v))
  }

  // ---------------- defaults ----------------

  /** `CartItem(...)`: a line created without a quantity holds the column default. */
  function NewCartLine(id: int, userId: int, productId: int, quantity: Option<int>): (r: CartLine)
    ensures r.id == id && r.userId == userId && r.productId == productId
    ensures quantity.None? ==> r.quantity == DefaultQuantity
    ensures quantity.Some? ==> r.quantity == quantity.value
  {
    CartLine(id, userId, productId, if quantity.Some? then quantity.value else DefaultQuantity)
  }

  /** `OrderItem(...)`: an item created without a quantity holds the column default. */
  function NewOrderItem(orderId: int, productId: int, quantity: Option<int>): (r: OrderItem)
    ensures r.orderId == orderId && r.productId == productId
    ensures quantity.None? ==> r.quantity == DefaultQuantity
    ensures quantity.Some? ==> r.quantity == quantity.value
  {
    OrderItem(orderId, productId, if quantity.Some? then quantity.value else DefaultQuantity)
  }

  // ---------------- Order.total ----------------

  /** The `items` relationship of an order: its rows of the order-item table, in table order. */
  function ItemsOf(items: seq<OrderItem>, orderId: int): (r: seq<OrderItem>)
    ensures forall it :: it in r <==> it in items && it.orderId == orderId
  {
    Filter(items, (it: OrderItem) => it.orderId == orderId)
  }

  predicate PricedItems(items: seq<OrderItem>, products: map<int, Product>) {
    forall it :: it in items ==> it.productId in products
  }

  /** Sum of current price times quantity over the given items. */
  function ItemsTotal(items: seq<OrderItem>, products: map<int, Product>): (sum: int)
    requires PricedItems(items, products)
    decreases |items|
  {
    if items == [] then 0
    else products[items[0].productId].price * items[0].quantity + ItemsTotal(items[1..], products)
  }

  /** Sum of the quantities of the given items that are for product `productId`. */
  function QuantityOf(items: seq<OrderItem>, productId: int): (q: int)
    decreases |items|
  {
    if items == [] then 0
    else (if items[0].productId == productId then items[0].quantity else 0) + QuantityOf(items[1..], productId)
  }

  /** `Order.total`: every item of the order, priced at its product's current price.
      An order without items totals 0. */
  function Total(o: Order, items: seq<OrderItem>, products: map<int, Product>): (t: int)
    requires PricedItems(ItemsOf(items, o.id), products)
    ensures (forall it :: it in items ==> it.orderId != o.id) ==> t == 0
  {
    ItemsTotal(ItemsOf(items, o.id), products)
  }

  /** Changing one product's price moves the total by the price difference times that
      product's quantity, and leaves the rest of the sum as it was. */
  lemma {:induction false} ItemsTotalAfterPriceChange(items: seq<OrderItem>, products: map<int, Product>, productId: int, price: int)
    requires productId in products
    requires PricedItems(items, products)
    ensures PricedItems(items, products[productId := products[productId].(price := price)])
    ensures ItemsTotal(items, products[productId := products[productId].(price := price)])
         == ItemsTotal(items, products) + (price - products[productId].price) * QuantityOf(items, productId)
    decreases |items|
  {
    var changed := products[productId := products[productId].(price := price)];
    if items != [] {
      ItemsTotalAfterPriceChange(items[1..], products, productId, price);
      var it := items[0];
      var delta := price - products[productId].price;
      if it.productId == productId {
        assert changed[it.productId].price * it.quantity
            == products[it.productId].price * it.quantity + delta * it.quantity;
      } else {
        assert changed[it.productId] == products[it.productId];
      }
    }
  }

  /** `Order.total` reads the product's current price: repricing a product changes the
      total of every existing order that holds it, by the difference times its quantity. */
  lemma TotalAfterPriceChange(o: Order, items: seq<OrderItem>, products: map<int, Product>, productId: int, price: int)
    requires productId in products
    requires PricedItems(ItemsOf(items, o.id), products)
    ensures PricedItems(ItemsOf(items, o.id), products[productId := products[productId].(price := price)])
    ensures Total(o, items, products[productId := products[productId].(price := price)])
         == Total(o, items, products) + (price - products[productId].price) * QuantityOf(ItemsOf(items, o.id), productId)
  {
    ItemsTotalAfterPriceChange(ItemsOf(items, o.id), products, productId, price);
  }

  // ---------------- CartItem.to_dict ----------------

  /** `CartItem.to_dict`: the line's own fields, with name, price and image read from its product. */
  function LineToDict(line: CartLine, products: map<int, Product>): (d: LineDict)
    requires line.productId in products
    ensures d.id == line.id && d.userId == line.userId && d.productId == line.productId
    ensures d.quantity == line.quantity
    ensures d.productName == products[line.productId].name
    ensures d.price == products[line.productId].price
    ensures d.imageUrl == products[line.productId].imageUrl
  {
    var p := products[line.productId];
    LineDict(line.id, line.userId, line.productId, p.name, p.price, p.imageUrl, line.quantity)
  }
}
