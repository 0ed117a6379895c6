/** Bulk product import from a spreadsheet: each sheet row (a map from column
    heading to cell) is normalised into an import record with a validity flag, the
    operator may drop rows from the preview, and the import posts the valid rows. */
module BulkImport {
  import opened Common
  import Catalog

  /** A numeric reading: a number, or NaN when the text does not parse. */
  datatype Num = Val(v: real) | NaN

  /** One cell as the sheet reader delivers it: whether the sheet stored a number,
      the cell's text (`String(value)`) and its numeric reading (`Number(value)`). */
  datatype Cell = Cell(isNumber: bool, text: string, number: Num)

  /** The column headings the normaliser recognises; any other heading is `Other`. */
  datatype Column =
    | ItemName | Product | Name | ItemNameSnake       // "Item name", "Product", "Name", "item_name"
    | Category | Group | CategoryLower                // "Category", "Group", "category"
    | Rate | SalePrice | Mrp | Stock | Qty | UnitCol  // "Rate", "Sale price", "MRP", "Stock", "Qty", "Unit"
    | Other(heading: string)

  /** One sheet row: heading to cell. */
  type Row = map<Column, Cell>

  /** JavaScript truthiness of a cell: a non-empty text, or a number other than 0 and NaN. */
  predicate Truthy(c: Cell) {
    if c.isNumber then c.number.Val? && c.number.v != 0.0 else c.text != ""
  }

  /** The column `key` holds a truthy cell, so `row[key] || …` stops there. */
  predicate Present(row: Row, key: Column) {
    key in row && Truthy(row[key])
  }

  predicate Positive(n: Num) {
    n.Val? && n.v > 0.0
  }

  /** One step of a `row[key] || otherwise` chain: the cell of `key` when it is truthy,
      else whatever the rest of the chain yields. */
  function Pick(row: Row, key: Column, otherwise: Option<Cell>): (r: Option<Cell>)
    ensures Present(row, key) ==> r == Some(row[key])
    ensures !Present(row, key) ==> r == otherwise
  {
    if Present(row, key) then Some(row[key]) else otherwise
  }

  /** The text of the resolved cell, or the literal fallback of the `||` chain. */
  function TextOr(c: Option<Cell>, fallback: string): string {
    if c.Some? then c.value.text else fallback
  }

  /** `Number(… || 0)`. */
  function NumberOr0(c: Option<Cell>): Num {
    if c.Some? then c.value.number else Val(0.0)
  }

  /** `row["Item name"] || row["Product"] || row["Name"] || row["item_name"]`. */
  function NameCell(row: Row): (r: Option<Cell>)
    ensures r.Some? <==> Present(row, ItemName) || Present(row, Product) || Present(row, Name)
                         || Present(row, ItemNameSnake)
  {
    Pick(row, ItemName, Pick(row, Product, Pick(row, Name, Pick(row, ItemNameSnake, None))))
  }

  /** `row["Category"] || row["Group"] || row["category"] || "General"`. */
  function CategoryText(row: Row): string {
    TextOr(Pick(row, Category, Pick(row, Group, Pick(row, CategoryLower, None))), "General")
  }

  /** `Number(row["Rate"] || row["Sale price"] || 0)`. */
  function PriceOf(row: Row): Num {
    NumberOr0(Pick(row, Rate, Pick(row, SalePrice, None)))
  }

  /** `row["MRP"] ? Number(row["MRP"]) : null`, where a zero or NaN reading is dropped as well. */
  function MrpOf(row: Row): (r: Option<real>)
    ensures r.Some? <==> Present(row, Mrp) && row[Mrp].number.Val? && row[Mrp].number.v != 0.0
    ensures r.Some? ==> row[Mrp].number == Val(r.value)
  {
    var m := NumberOr0(Pick(row, Mrp, None));
    if m.Val? && m.v != 0.0 then Some(m.v) else None
  }

  /** `Number(row["Stock"] || row["Qty"] || 0)`. */
  function StockOf(row: Row): Num {
    NumberOr0(Pick(row, Stock, Pick(row, Qty, None)))
  }

  /** One normalised row of the preview. */
  datatype ImportRow = ImportRow(
    rowNumber: int,
    valid: bool,
    name: string,
    categoryName: string,
    price: Num,
    mrp: Option<real>,
    stock: Num,
    units: seq<Catalog.Unit>,
    availability: bool)

  /** `normalizeRow`: a row is valid exactly when some name alias holds a truthy
      (untrimmed) value and the price is positive; it is available exactly when the
      stock is positive; it always carries one unit of multiplier 1. */
  function NormalizeRow(row: Row, rowNumber: int): (r: ImportRow)
    ensures r.rowNumber == rowNumber
    ensures r.valid <==> (Present(row, ItemName) || Present(row, Product) || Present(row, Name)
                          || Present(row, ItemNameSnake)) && Positive(r.price)
    ensures r.availability <==> Positive(r.stock)
    ensures |r.units| == 1 && r.units[0].multiplier == 1.0
  {
    var nameCell := NameCell(row);
    var price := PriceOf(row);
    var stock := StockOf(row);
    ImportRow(
      rowNumber,
      nameCell.Some? && Positive(price),
      Trim(TextOr(nameCell, "")),
      Trim(CategoryText(row)),
      price,
      MrpOf(row),
      stock,
      [Catalog.Unit(TextOr(Pick(row, UnitCol, None), "Base Unit"), 1.0)],
      Positive(stock))
  }

  /** The name is the first truthy of "Item name", "Product", "Name", "item_name",
      trimmed; "" when none holds one. */
  lemma NameResolution(row: Row, n: int)
    ensures Present(row, ItemName) ==> NormalizeRow(row, n).name == Trim(row[ItemName].text)
    ensures !Present(row, ItemName) && Present(row, Product) ==>
              NormalizeRow(row, n).name == Trim(row[Product].text)
    ensures !Present(row, ItemName) && !Present(row, Product) && Present(row, Name) ==>
              NormalizeRow(row, n).name == Trim(row[Name].text)
    ensures !(Present(row, ItemName) || Present(row, Product) || Present(row, Name)) && Present(row, ItemNameSnake) ==>
              NormalizeRow(row, n).name == Trim(row[ItemNameSnake].text)
    ensures NameCell(row).None? ==> NormalizeRow(row, n).name == ""
  {
    if NameCell(row).None? {
      assert Trim("") == "";
    }
  }

  /** The category is the first truthy of "Category", "Group", "category", trimmed;
      "General" when none holds one. */
  lemma CategoryResolution(row: Row, n: int)
    ensures Present(row, Category) ==> NormalizeRow(row, n).categoryName == Trim(row[Category].text)
    ensures !Present(row, Category) && Present(row, Group) ==>
              NormalizeRow(row, n).categoryName == Trim(row[Group].text)
    ensures !Present(row, Category) && !Present(row, Group) && Present(row, CategoryLower) ==>
              NormalizeRow(row, n).categoryName == Trim(row[CategoryLower].text)
    ensures !(Present(row, Category) || Present(row, Group) || Present(row, CategoryLower)) ==>
              NormalizeRow(row, n).categoryName == "General"
  {
    if !(Present(row, Category) || Present(row, Group) || Present(row, CategoryLower)) {
      var g := "General";
      assert CategoryText(row) == g;
      TrimOfTrimmed(g);
    }
  }

  /** Price from "Rate" then "Sale price", else 0; MRP only when the "MRP" cell is
      truthy and reads as a non-zero number; stock from "Stock" then "Qty", else 0. */
  lemma NumericFields(row: Row, n: int)
    ensures Present(row, Rate) ==> NormalizeRow(row, n).price == row[Rate].number
    ensures !Present(row, Rate) && Present(row, SalePrice) ==> NormalizeRow(row, n).price == row[SalePrice].number
    ensures !Present(row, Rate) && !Present(row, SalePrice) ==> NormalizeRow(row, n).price == Val(0.0)
    ensures NormalizeRow(row, n).mrp == MrpOf(row)
    ensures Present(row, Stock) ==> NormalizeRow(row, n).stock == row[Stock].number
    ensures !Present(row, Stock) && Present(row, Qty) ==> NormalizeRow(row, n).stock == row[Qty].number
    ensures !Present(row, Stock) && !Present(row, Qty) ==> NormalizeRow(row, n).stock == Val(0.0)
  {
  }

  /** The single unit is named from the "Unit" column, else "Base Unit". */
  lemma UnitName(row: Row, n: int)
    ensures NormalizeRow(row, n).units[0].name == if Present(row, UnitCol) then row[UnitCol].text else "Base Unit"
  {
  }

  /** The mapping step of `parseExcel`: sheet index `i` is spreadsheet row `i + 2`,
      row 1 being the heading row, and record `i` is `NormalizeRow` of sheet row `i`
      (the body is that comprehension). The row numbers make the records pairwise
      distinct. */
  function ParseSheet(sheet: seq<Row>): (rows: seq<ImportRow>)
    ensures |rows| == |sheet|
    ensures forall i :: 0 <= i < |rows| ==> rows[i].rowNumber == i + 2
    ensures forall i, j :: 0 <= i < j < |rows| ==> rows[i] != rows[j]
  {
    seq(|sheet|, i requires 0 <= i < |sheet| => NormalizeRow(sheet[i], i + 2))
  }

  /** `removeRow(i)`: the preview without position `i`, every other row kept in order;
      an index outside the preview changes nothing. */
  function RemoveRow(rows: seq<ImportRow>, i: int): (r: seq<ImportRow>)
    ensures 0 <= i < |rows| ==> |r| == |rows| - 1
    ensures 0 <= i < |rows| ==> forall j :: 0 <= j < i ==> r[j] == rows[j]
    ensures 0 <= i < |rows| ==> forall j :: i <= j < |r| ==> r[j] == rows[j + 1]
    ensures !(0 <= i < |rows|) ==> r == rows
  {
    RemoveAt(rows, i)
  }

  /** The body of the bulk request, `{ products: validRows }`. */
  datatype BulkBody = BulkBody(products: seq<ImportRow>)

  /** The bulk request `handleImport` sends: nothing for an empty preview, otherwise
      one POST whose `products` are exactly the valid rows, in preview order, each
      as many times as it occurs in the preview. */
  function ImportRequest(rows: seq<ImportRow>): (r: Option<Request<BulkBody>>)
    ensures r.None? <==> rows == []
    ensures r.Some? ==> r.value.verb == Post && r.value.path == "/api/products/bulk"
    ensures r.Some? ==> IsSubsequence(r.value.body.products, rows)
    ensures r.Some? ==> forall i :: 0 <= i < |r.value.body.products| ==> r.value.body.products[i].valid
    ensures r.Some? ==> forall x: ImportRow :: x.valid ==> multiset(r.value.body.products)[x] == multiset(rows)[x]
  {
    if rows == [] then None
    else
      var keep := (x: ImportRow) => x.valid;
      FilterIsSubsequence(rows, keep);
      FilterMembers(rows, keep);
      assert forall x: ImportRow :: x.valid ==> multiset(Filter(rows, keep))[x] == multiset(rows)[x] by {
        forall x: ImportRow | x.valid
          ensures multiset(Filter(rows, keep))[x] == multiset(rows)[x]
        {
          FilterCounts(rows, keep, x);
        }
      }
      Some(Request(Post, "/api/products/bulk", BulkBody(Filter(rows, keep))))
  }

  /** A name made only of spaces is truthy, so the row is valid although the stored
      name is empty. */
  lemma BlankNameRowIsValid()
    ensures var row := map[Product := Cell(false, "   ", Val(0.0)), Rate := Cell(true, "50", Val(50.0))];
            var r := NormalizeRow(row, 2);
            r.valid && r.name == ""
  {
    var blank := "   ";
    var row := map[Product := Cell(false, blank, Val(0.0)), Rate := Cell(true, "50", Val(50.0))];
    assert PriceOf(row) == Val(50.0);
    assert NameCell(row) == Some(row[Product]);
    assert AllSpace(blank);
  }

  /** A row with a product and a positive rate but zero stock is valid and not
      available. */
  lemma RiceRow()
    ensures var row := map[Product := Cell(false, "Rice", NaN), Rate := Cell(false, "50", Val(50.0)),
                           Stock := Cell(false, "0", Val(0.0))];
            var r := NormalizeRow(row, 2);
            r.valid && r.name == "Rice" && r.price == Val(50.0) && r.stock == Val(0.0) && !r.availability
  {
    var rice := "Rice";
    var row := map[Product := Cell(false, rice, NaN), Rate := Cell(false, "50", Val(50.0)),
                   Stock := Cell(false, "0", Val(0.0))];
    assert PriceOf(row) == Val(50.0) && StockOf(row) == Val(0.0);
    assert NameCell(row) == Some(row[Product]);
    TrimOfTrimmed(rice);
  }
}
