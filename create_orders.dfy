/** The order entry screen: a draft with a customer and item lines that are added,
    edited and removed, its grand total, and the order it saves. */
module CreateOrders {
  import opened Common
  import opened Catalog

  /** One item line: the chosen product ("" before one is picked), the numeric reading
      of the quantity (the source holds the typed text once it has been edited), and
      the unit price (`None` for a product without a price). */
  datatype Line = Line(productId: string, qty: real, price: Option<real>)

  /** The line `addItem` appends. */
  const EmptyLine: Line := Line("", 1.0, Some(0.0))

  /** An edit of one key of a line. */
  datatype LineEdit = SetProductId(id: string) | SetQty(qty: real) | SetPrice(price: Option<real>)

  /** `copy[index][key] = value`. */
  function ApplyEdit(l: Line, e: LineEdit): (r: Line)
    ensures e.SetProductId? ==> r == l.(productId := e.id)
    ensures e.SetQty? ==> r == l.(qty := e.qty)
    ensures e.SetPrice? ==> r == l.(price := e.price)
  {
    match e
    case SetProductId(id) => l.(productId := id)
    case SetQty(q) => l.(qty := q)
    case SetPrice(p) => l.(price := p)
  }

  /** `Number(i.qty) * Number(i.price)`. `None` stands for a `null` price, which
      `Number` reads as 0; a price key that is absent altogether gives `NaN` in the
      source and is not told apart here. */
  function LineTotal(l: Line): real {
    l.qty * PriceOrZero(l.price)
  }

  /** `items.reduce((sum, i) => sum + …, 0)`: the sum of the lines' amounts. */
  function GrandTotal(items: seq<Line>): real
    decreases |items|
  {
    if items == [] then 0.0 else LineTotal(items[0]) + GrandTotal(items[1..])
  }

  /** The total of two lists of lines is the sum of their totals. */
  lemma {:induction false} GrandTotalAppend(a: seq<Line>, b: seq<Line>)
    ensures GrandTotal(a + b) == GrandTotal(a) + GrandTotal(b)
    decreases |a|
  {
    if a == [] {
      assert a + b == b;
    } else {
      GrandTotalAppend(a[1..], b);
      assert (a + b)[1..] == a[1..] + b;
    }
  }

  /** The total of one line is its amount. */
  lemma SingleTotal(l: Line)
    ensures GrandTotal([l]) == LineTotal(l)
  {
    assert [l][1..] == [];
  }

  /** A new empty line does not change the total. */
  lemma AddKeepsTotal(items: seq<Line>)
    ensures GrandTotal(items + [EmptyLine]) == GrandTotal(items)
  {
    GrandTotalAppend(items, [EmptyLine]);
    SingleTotal(EmptyLine);
  }

  /** Removing line `i` takes exactly its amount off the total. */
  lemma {:induction false} RemoveTotal(items: seq<Line>, i: int)
    requires 0 <= i < |items|
    ensures GrandTotal(RemoveAt(items, i)) == GrandTotal(items) - LineTotal(items[i])
    decreases |items|
  {
    if i == 0 {
      assert RemoveAt(items, 0) == items[1..] by { assert items[..0] + items[1..] == items[1..]; }
    } else {
      var t := RemoveAt(items[1..], i - 1);
      RemoveTotal(items[1..], i - 1);
      assert RemoveAt(items, i) == [items[0]] + t;
      assert ([items[0]] + t)[1..] == t;
      assert items[1..][i - 1] == items[i];
    }
  }

  /** Replacing line `i` changes the total by the difference of the two amounts. */
  lemma {:induction false} ReplaceTotal(items: seq<Line>, i: int, l: Line)
    requires 0 <= i < |items|
    ensures GrandTotal(items[i := l]) == GrandTotal(items) - LineTotal(items[i]) + LineTotal(l)
    decreases |items|
  {
    var r := items[i := l];
    if i == 0 {
      assert r[1..] == items[1..];
    } else {
      ReplaceTotal(items[1..], i - 1, l);
      assert r[1..] == items[1..][i - 1 := l];
      assert items[1..][i - 1] == items[i];
    }
  }

  /** The body of the order POST. */
  datatype OrderBody = OrderBody(customerId: string, items: seq<Line>, total: real)

  /** `saveOrder`: nothing without a customer or without lines; otherwise one POST
      carrying the lines and their grand total. */
  function SaveRequest(customerId: string, items: seq<Line>): (r: Option<Request<OrderBody>>)
    ensures r.None? <==> customerId == "" || items == []
    ensures r.Some? ==> r.value == Request(Post, "/api/orders", OrderBody(customerId, items, GrandTotal(items)))
  {
    if customerId == "" || |items| == 0 then None
    else Some(Request(Post, "/api/orders", OrderBody(customerId, items, GrandTotal(items))))
  }

  /** The product select as written: `products.find(...)` finds nothing for the
      "Select product" placeholder, and reading `p.id` of `undefined` throws (`None`).
      Otherwise the line takes the product's id and price. */
  function PickAsWritten(items: seq<Line>, index: int, products: seq<Product>, chosen: string): (r: Option<seq<Line>>)
    requires 0 <= index < |items|
    ensures r.None? <==> forall k :: 0 <= k < |products| ==> products[k].id != chosen
  {
    var p := Find(products, (x: Product) => x.id == chosen);
    if p.None? then None
    else Some(items[index := items[index].(productId := p.value.id, price := p.value.price)])
  }

  /** Choosing the placeholder throws whenever no product has its text as id. */
  lemma PlaceholderThrows(items: seq<Line>, products: seq<Product>)
    requires |items| >= 1
    requires forall k :: 0 <= k < |products| ==> products[k].id != "Select product"
    ensures PickAsWritten(items, 0, products, "Select product").None?
  {
  }

  /** The product select as intended: the line takes the product's id and price, and
      a choice that names no product leaves the lines as they were. */
  function Pick(items: seq<Line>, index: int, products: seq<Product>, chosen: string): (r: seq<Line>)
    requires 0 <= index < |items|
    ensures |r| == |items|
    ensures forall k :: 0 <= k < |items| && k != index ==> r[k] == items[k]
    ensures (exists k :: 0 <= k < |products| && products[k].id == chosen) ==>
              r[index].productId == chosen && r[index].qty == items[index].qty
              && exists k :: 0 <= k < |products| && products[k].id == chosen && r[index].price == products[k].price
    ensures (forall k :: 0 <= k < |products| ==> products[k].id != chosen) ==> r == items
  {
    var w := PickAsWritten(items, index, products, chosen);
    if w.None? then items else w.value
  }

  /** With a product found, both versions agree. */
  lemma PickAgrees(items: seq<Line>, index: int, products: seq<Product>, chosen: string)
    requires 0 <= index < |items|
    requires PickAsWritten(items, index, products, chosen).Some?
    ensures Pick(items, index, products, chosen) == PickAsWritten(items, index, products, chosen).value
  {
  }

  /** The draft order. */
  class Draft {
    var customerId: string
    var items: seq<Line>

    constructor()
      ensures customerId == "" && items == []
    {
      customerId := "";
      items := [];
    }

    /** The customer select's `setCustomerId(e.target.value)`: the chosen customer,
        the placeholder giving "" again. */
    method SelectCustomer(id: string)
      modifies this
      ensures customerId == id && items == old(items)
    {
      customerId := id;
    }

    /** `addItem`. */
    method AddItem()
      modifies this
      ensures items == old(items) + [EmptyLine]
      ensures customerId == old(customerId)
      ensures GrandTotal(items) == GrandTotal(old(items))
    {
      AddKeepsTotal(items);
      items := items + [EmptyLine];
    }

    /** `updateItem(index, key, value)`: only that key of that line changes. */
    method UpdateItem(index: int, e: LineEdit)
      requires 0 <= index < |items|
      modifies this
      ensures items == old(items)[index := ApplyEdit(old(items)[index], e)]
      ensures |items| == |old(items)| && customerId == old(customerId)
    {
      items := items[index := ApplyEdit(items[index], e)];
    }

    /** `removeItem(index)`. */
    method RemoveItem(index: int)
      modifies this
      ensures items == RemoveAt(old(items), index)
      ensures 0 <= index < |old(items)| ==> GrandTotal(items) == GrandTotal(old(items)) - LineTotal(old(items)[index])
      ensures customerId == old(customerId)
    {
      if 0 <= index < |items| {
        RemoveTotal(items, index);
      }
      items := RemoveAt(items, index);
    }

    /** The product select handler: two `updateItem` calls, id then price. */
    method PickProduct(index: int, products: seq<Product>, chosen: string)
      requires 0 <= index < |items|
      modifies this
      ensures items == Pick(old(items), index, products, chosen)
      ensures customerId == old(customerId)
    {
      var p := Find(products, (x: Product) => x.id == chosen);
      if p.Some? {
        UpdateItem(index, SetProductId(p.value.id));
        UpdateItem(index, SetPrice(p.value.price));
      }
    }

    /** `saveOrder` on the current draft. */
    method Save() returns (r: Option<Request<OrderBody>>)
      ensures r == SaveRequest(customerId, items)
      ensures r.Some? ==> r.value.body.total == GrandTotal(items) && r.value.body.items == items
    {
      r := SaveRequest(customerId, items);
    }
  }
}
