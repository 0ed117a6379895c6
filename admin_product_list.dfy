/** The product grid of the admin screen: its single list filter, the category badge
    and the stock switch. */
module AdminProductList {
  import opened Common
  import opened Catalog

  /** The address of the catalog service the switch calls directly. */
  const ApiBase := "https://offline-catalog-backend-production.up.railway.app"

  /** The stock select: "all", "in" or "out". */
  datatype StockChoice = AllStock | InStock | OutOfStock

  /** `p.stock > 0` in JavaScript: only a positive count; `null` and an absent value
      are not greater than 0. */
  predicate Positive(s: StockValue) {
    s.Units? && s.n > 0
  }

  /** `p.stock <= 0`: `null` compares as 0, an absent value compares false. */
  predicate AtMostZero(s: StockValue) {
    s.Null? || (s.Units? && s.n <= 0)
  }

  /** `matchSearch`: a product without a name never matches, whatever the search. */
  predicate MatchSearch(p: Product, search: string) {
    p.name.Some? && Includes(Lower(p.name.value), Lower(search))
  }

  predicate MatchCategory(p: Product, category: string) {
    category == "all" || p.categoryId == Some(category)
  }

  predicate MatchStock(p: Product, stock: StockChoice) {
    stock == AllStock || (stock == InStock && Positive(p.stock)) || (stock == OutOfStock && AtMostZero(p.stock))
  }

  predicate Visible(p: Product, search: string, category: string, stock: StockChoice) {
    MatchSearch(p, search) && MatchCategory(p, category) && MatchStock(p, stock)
  }

  function VisibleFilter(search: string, category: string, stock: StockChoice): Product -> bool {
    (p: Product) => Visible(p, search, category, stock)
  }

  /** `filteredProducts`. */
  function FilteredProducts(products: seq<Product>, search: string, category: string, stock: StockChoice): seq<Product> {
    Filter(products, VisibleFilter(search, category, stock))
  }

  /** The grid lists, in order, exactly the products that match the search, the
      category and the stock choice. */
  lemma FilteredProductsFacts(products: seq<Product>, search: string, category: string, stock: StockChoice)
    ensures IsSubsequence(FilteredProducts(products, search, category, stock), products)
    ensures forall i :: 0 <= i < |FilteredProducts(products, search, category, stock)| ==>
              Visible(FilteredProducts(products, search, category, stock)[i], search, category, stock)
    ensures forall i :: 0 <= i < |products| && Visible(products[i], search, category, stock) ==>
              products[i] in FilteredProducts(products, search, category, stock)
  {
    FilterIsSubsequence(products, VisibleFilter(search, category, stock));
    FilterMembers(products, VisibleFilter(search, category, stock));
  }

  /** With no search, "all" categories and "all" stock, the grid lists every named
      product; a product without a name is never listed. */
  lemma NamedProductsOnly(products: seq<Product>, search: string, category: string, stock: StockChoice)
    ensures forall i :: 0 <= i < |FilteredProducts(products, search, category, stock)| ==>
              FilteredProducts(products, search, category, stock)[i].name.Some?
    ensures FilteredProducts(products, "", "all", AllStock) == Filter(products, (p: Product) => p.name.Some?)
  {
    FilterMembers(products, VisibleFilter(search, category, stock));
    forall p: Product | p.name.Some?
      ensures Visible(p, "", "all", AllStock)
    {
      IncludesEmpty(Lower(p.name.value));
    }
    FilterExt(products, VisibleFilter("", "all", AllStock), (p: Product) => p.name.Some?);
  }

  function HasStock(p: Product): bool {
    !p.stock.Missing?
  }

  function InStockNow(p: Product): bool {
    Positive(p.stock)
  }

  function OutNow(p: Product): bool {
    AtMostZero(p.stock)
  }

  /** "in" and "out" split the products that carry a stock value; those without one
      are in neither. */
  lemma {:induction false} StockSplit(s: seq<Product>)
    ensures |Filter(s, InStockNow)| + |Filter(s, OutNow)| == |Filter(s, HasStock)|
  {
    if s != [] {
      StockSplit(s[1..]);
    }
  }

  /** For the same search and category, the "in" and "out" grids together hold as many
      products as the "all" grid holds products with a stock value. */
  lemma StockChoicesSplit(products: seq<Product>, search: string, category: string)
    ensures |FilteredProducts(products, search, category, InStock)| + |FilteredProducts(products, search, category, OutOfStock)|
            == |Filter(FilteredProducts(products, search, category, AllStock), HasStock)|
  {
    var all := VisibleFilter(search, category, AllStock);
    FilterFilter(products, all, InStockNow, VisibleFilter(search, category, InStock));
    FilterFilter(products, all, OutNow, VisibleFilter(search, category, OutOfStock));
    StockSplit(Filter(products, all));
  }

  /** `getCategoryName`: the name of the first category with the id, else "General". */
  function CategoryName(categories: seq<Category>, categoryId: Option<Id>): (r: string)
    ensures (forall k :: 0 <= k < |categories| ==> Some(categories[k].id) != categoryId) ==> r == "General"
    ensures forall k :: (0 <= k < |categories| && Some(categories[k].id) == categoryId
                         && forall j :: 0 <= j < k ==> Some(categories[j].id) != categoryId) ==> r == categories[k].name
  {
    var k := FindIndex(categories, (c: Category) => Some(c.id) == categoryId);
    if k == -1 then "General" else categories[k].name
  }

  /** The body of the switch's PUT. */
  datatype StockBody = StockBody(stock: int)

  /** `toggleStock(p)`: 0 for a product in stock, 1 otherwise. */
  function ToggleStock(p: Product): (r: Request<StockBody>)
    ensures r.verb == Put && r.path == ApiBase + ProductPath(p.id)
    ensures Positive(p.stock) ==> r.body.stock == 0
    ensures !Positive(p.stock) ==> r.body.stock == 1
  {
    Request(Put, ApiBase + ProductPath(p.id), StockBody(if Positive(p.stock) then 0 else 1))
  }

  /** Once the switch's value is stored, the badge flips between "In stock" and
      "Out". */
  lemma ToggleFlips(p: Product)
    ensures Positive(Units(ToggleStock(p).body.stock)) == !Positive(p.stock)
  {
  }

  /** `removeProduct(id)`: a DELETE once the user confirmed, nothing otherwise. */
  function RemoveProduct(id: Id, confirmed: bool): (r: Option<Request<()>>)
    ensures r.Some? <==> confirmed
    ensures r.Some? ==> r.value == Request(Delete, ProductPath(id), ())
  {
    if confirmed then Some(Request(Delete, ProductPath(id), ())) else None
  }
}
