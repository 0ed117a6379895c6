/** The records the panel reads from the catalog service, shared by the product,
    category and order screens. */
module Catalog {
  import opened Common

  type Id = string

  /** A sales unit: its name and how many base units it stands for. */
  datatype Unit = Unit(name: string, multiplier: real)

  /** A product's `stock` as the service returns it: the key absent, `null`, or a count.
      JavaScript compares the first two differently (`null <= 0` holds,
      `undefined <= 0` does not), so both are kept. */
  datatype StockValue = Missing | Null | Units(n: int)

  datatype Product = Product(
    id: Id,
    name: Option<string>,
    categoryId: Option<Id>,
    price: Option<real>,
    stock: StockValue,
    images: Option<seq<string>>,
    units: Option<seq<Unit>>)

  datatype Category = Category(id: Id, name: string)

  /** A calendar day as `new Date(created_at)` reads it in local time. */
  datatype Date = Date(day: int, month: int, year: int)

  /** One line of a placed order, with the fields the slips and reports display as
      text (`${it.qty}` shows the quantity as the service sent it). */
  datatype OrderItem = OrderItem(productName: string, qty: string, unitName: string)

  /** A placed order. `createdAt` is `None` when the timestamp does not parse; an
      absent `order_items` is `None`. */
  datatype Order = Order(
    id: Id,
    customerName: Option<string>,
    status: Option<string>,
    createdAt: Option<Date>,
    total: Option<real>,
    items: Option<seq<OrderItem>>)

  /** `Number(p.stock || 0)`: an absent, null or zero stock reads as 0. */
  function StockCount(s: StockValue): (n: int)
    ensures s.Units? ==> n == s.n
    ensures !s.Units? ==> n == 0
  {
    match s
    case Units(k) => k
    case _ => 0
  }

  /** `Number(p.price || 0)`. */
  function PriceOrZero(price: Option<real>): real {
    if price.Some? then price.value else 0.0
  }

  function ProductPath(id: Id): string {
    "/api/products/" + id
  }

  /** Different products are addressed by different paths. */
  lemma ProductPathInjective(a: Id, b: Id)
    ensures ProductPath(a) == ProductPath(b) ==> a == b
  {
    PrefixCancel("/api/products/", a, b);
  }
}
