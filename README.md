# Offline catalog admin panel — verified model of its rules

The repository is a React admin panel for an offline product catalog: products,
categories, customers, vendors, orders and settings, kept by a REST service.
Most of it is rendering and service calls. The rules it applies on the way are
small and sequential, and this project states them in Dafny and proves them:

- spreadsheet rows normalised into import records;
- the dashboard's stock and order aggregates;
- the bulk-edit drawer's change record and its price auto-calculation;
- the product form's unit editor, validation and save payload;
- the dotted-path settings update;
- the order draft and its total;
- order reports and text slips;
- the list filters, selection, navigation and filter chips;
- the guards on saving and deleting categories, customers and vendors.

A request the panel would send is a value `Request(verb, path, body)` (module
`Common`). A guard that stops with a message is `Refused(message)`, and one that
lets the action through is `Done(value)`.

Modules, one per source file:

- `BulkImport` — src/pages/BulkImport.jsx.
- `Dashboard` — src/pages/Dashboard.jsx. Imperative: two loops proved against
  recursive sums and filters.
- `BulkEditEditor` — src/components/BulkEditEditor.jsx. The `Editor` class holds
  the working copy and the change record.
- `ProductForm` — src/components/AdminProductForm.jsx. The rotate button is an
  in-place loop over an array copy.
- `Settings` — src/context/SettingsContext.jsx. The pointer walk is a method with
  two loops; `Store` holds the tree and `savingKey`.
- `CreateOrders` — src/pages/CreateOrders.jsx. The `Draft` class edits `items`.
- `OrdersList` — src/pages/OrdersList.jsx. The report builders and text builders
  are loops proved against grouping and text functions.
- `Products` — src/pages/Products.jsx.
- `AdminProductList` — src/components/AdminProductList.jsx.
- `Categories` — src/pages/Categories.jsx.
- `Customers` — src/pages/Customers.jsx.
- `BulkEditModal` — src/components/BulkEditModal.jsx.
- `VendorForm` — src/components/VendorForm.jsx.
- `Vendors` — src/pages/Vendors.jsx.

Shared modules:

- `Common` holds strings (trim, ASCII lowering, substring, decimal digits,
  split), filter and subsequence lemmas, and first-match search.
- `Catalog` holds the shared product, category and order records.
- `Selection` holds the check-box toggle used by the product and order lists.

## Model

| member | source | states |
|---|---|---|
| BulkImport.Pick | src/pages/BulkImport.jsx:38-46 | One `row[key] \|\| …` step: the cell when it is truthy, else the rest of the chain |
| BulkImport.NameCell | src/pages/BulkImport.jsx:38-43 | A name cell is found iff one of the four aliases holds a truthy value |
| BulkImport.MrpOf | src/pages/BulkImport.jsx:49 | MRP is present iff the MRP cell is truthy and reads as a non-zero number, and then it is that number |
| BulkImport.NormalizeRow | src/pages/BulkImport.jsx:37-67 | `valid` iff some untrimmed name alias is truthy and the price is positive; `availability` iff the stock is positive; exactly one unit, with multiplier 1 |
| BulkImport.NameResolution | src/pages/BulkImport.jsx:38-43 | The name is the trimmed first truthy of "Item name", "Product", "Name", "item_name", else "" |
| BulkImport.CategoryResolution | src/pages/BulkImport.jsx:45-46 | The category is the trimmed first truthy of "Category", "Group", "category", else "General" |
| BulkImport.NumericFields | src/pages/BulkImport.jsx:48-50 | Price falls back Rate → Sale price → 0; stock falls back Stock → Qty → 0; MRP as in MrpOf |
| BulkImport.UnitName | src/pages/BulkImport.jsx:52 | The single unit is named from "Unit", else "Base Unit" |
| BulkImport.ParseSheet | src/pages/BulkImport.jsx:29 | One record per sheet row; sheet index i gets row number i + 2, so the records are pairwise distinct |
| BulkImport.RemoveRow | src/pages/BulkImport.jsx:70-72 | Exactly position i is removed and the other rows keep their order; an index outside the preview changes nothing |
| BulkImport.ImportRequest | src/pages/BulkImport.jsx:75-86 | Nothing for an empty preview; otherwise one POST to /api/products/bulk with body `{ products }`, where `products` is exactly the valid rows in preview order, each kept as often as it occurs |
| BulkImport.BlankNameRowIsValid | src/pages/BulkImport.jsx:54-59 | A name of spaces only makes the row valid even though its stored name is "" |
| BulkImport.RiceRow | src/pages/BulkImport.jsx:37-67 | A product with a positive rate and zero stock is valid and not available |
| Catalog.StockCount | src/pages/Dashboard.jsx:60 | `Number(p.stock \|\| 0)`: a count reads as itself; an absent or null stock reads as 0 |
| Catalog.ProductPathInjective | src/components/BulkEditEditor.jsx:120-122 | Different product ids give different request paths |
| Dashboard.StockBuckets | src/pages/Dashboard.jsx:59-74 | Every product is in or out of stock, never both; the low ones are among the in-stock ones |
| Dashboard.StockStep | src/pages/Dashboard.jsx:60-72 | What one more product adds to each bucket and to both sums |
| Dashboard.AddValue | src/pages/Dashboard.jsx:64 | `totalValue += qty * price` extends the running sum of stock × price by the next product |
| Dashboard.ComputeStockStats | src/pages/Dashboard.jsx:59-80 | The loop's counters equal the filter counts (out: stock 0; in: any non-zero stock, negatives included; low: in and below 5) and the sums of stock and of stock × price; in + out = total and low ≤ in |
| Dashboard.TodayWithinMonth | src/pages/Dashboard.jsx:98-110 | Today's orders are a subset of this month's, which are at most all orders |
| Dashboard.BucketsAppend | src/pages/Dashboard.jsx:84-120 | Counts and revenues of two order lists add up |
| Dashboard.UnparsableOrder | src/pages/Dashboard.jsx:95-114 | An order with an unparsable date adds to neither bucket, wherever it stands, but still counts among all orders |
| Dashboard.ComputeOrderStats | src/pages/Dashboard.jsx:84-120 | The loop's counters equal the today and month counts and revenues; today ≤ month ≤ total |
| Dashboard.RecentOrders | src/pages/Dashboard.jsx:122 | The first min(5, n) orders, in order |
| BulkEditEditor.SetField | src/components/BulkEditEditor.jsx:64-67 | Only the product with that id gains the key with the value; its other keys and every other product are unchanged |
| BulkEditEditor.Lookup | src/components/BulkEditEditor.jsx:81 | `find`: the first product with that id is found; none is found only when no product has the id |
| BulkEditEditor.LookupAfterSet | src/components/BulkEditEditor.jsx:64-67 | After an update each product is found as before, and the updated one carries the new key |
| BulkEditEditor.FieldAfterSet | src/components/BulkEditEditor.jsx:64-67 | Reading any key of any product after an update: the new value for the updated key, else what was there |
| BulkEditEditor.RecordChange | src/components/BulkEditEditor.jsx:69-75 | changed[id][key] becomes the value; earlier keys of that id and every other id's entry are kept |
| BulkEditEditor.MarginRoundTrip | src/components/BulkEditEditor.jsx:84-106 | With a positive purchase rate, the margin recovered from the computed price is the margin that produced it |
| BulkEditEditor.SalesRoundTrip | src/components/BulkEditEditor.jsx:84-106 | With a positive purchase rate, the price recomputed from the derived margin is the typed price |
| BulkEditEditor.SetTwoReads | src/components/BulkEditEditor.jsx:79-108 | Two updates under different keys set both and leave every other key as it was |
| BulkEditEditor.PurchaseEdit | src/components/BulkEditEditor.jsx:79-87 | A purchase edit stores the rate and the rounded price of purchase × (1 + margin/100), within half a cent of the exact price under a rounding to cents, and keeps the margin |
| BulkEditEditor.MarginEdit | src/components/BulkEditEditor.jsx:89-97 | A margin edit stores the margin and the rounded price from the stored purchase rate, within half a cent of the exact price under a rounding to cents, and keeps the purchase rate |
| BulkEditEditor.SalesEdit | src/components/BulkEditEditor.jsx:99-108 | A price edit stores the typed price and the rounded margin of (sales − purchase)/purchase × 100, or of 0 without a positive purchase rate; under a rounding to cents the price that stored margin gives is within purchase/20000 of the typed price |
| BulkEditEditor.MarginErrorBound | src/components/BulkEditEditor.jsx:83 | A margin off by at most half a cent moves purchase × (1 + margin/100) by at most purchase/20000 |
| BulkEditEditor.SelectedProducts | src/components/BulkEditEditor.jsx:53 | The loaded list is the service's list kept to the requested ids, in order |
| BulkEditEditor.Editor.Load | src/components/BulkEditEditor.jsx:47-61 | Loads only when open, with ids, and once the list arrived; otherwise nothing changes |
| BulkEditEditor.Editor.UpdateField | src/components/BulkEditEditor.jsx:64-76 | The working copy and the change record both take the update |
| BulkEditEditor.Editor.PurchaseChange | src/components/BulkEditEditor.jsx:79-87 | Two updates: the purchase rate, then the rounded price computed with the margin read before the edit |
| BulkEditEditor.Editor.MarginChange | src/components/BulkEditEditor.jsx:89-97 | Two updates: the margin, then the rounded price computed with the purchase rate read before the edit |
| BulkEditEditor.Editor.SalesChange | src/components/BulkEditEditor.jsx:99-108 | Two updates: the typed price, then the rounded derived margin |
| BulkEditEditor.Editor.SaveRequests | src/components/BulkEditEditor.jsx:111-122 | No request without changes; otherwise exactly one PUT per changed id, to distinct paths, each carrying only that id's changed fields |
| ProductForm.Rotated | src/components/AdminProductForm.jsx:38-45 | Unit i trades places with unit i + 1, all else fixed; the last unit moves to the front |
| ProductForm.RotatedPermutation | src/components/AdminProductForm.jsx:38-45 | Rotating only reorders the units |
| ProductForm.RotateTwice | src/components/AdminProductForm.jsx:40-42 | Rotating a unit that is not the last twice restores the list |
| ProductForm.RotateUnit | src/components/AdminProductForm.jsx:38-45 | The splice-and-insert on a copied array yields the rotated list, a permutation of the input, which is not changed |
| ProductForm.MoveLastToFront | src/components/AdminProductForm.jsx:39-41 | Taking the last unit out and putting it in front moves every other unit one place on, the last one coming first |
| ProductForm.SetMultiplier | src/components/AdminProductForm.jsx:306-307 | Unit i takes the new multiplier and keeps its name; the other units are unchanged |
| ProductForm.ChoosePreset | src/components/AdminProductForm.jsx:284-288 | A found preset replaces unit i only; an unknown name changes nothing |
| ProductForm.AddUnit | src/components/AdminProductForm.jsx:333 | "Add Unit" appends pcs × 1 |
| ProductForm.DeleteUnit | src/components/AdminProductForm.jsx:322 | The delete button removes unit i, and never the last remaining unit |
| ProductForm.Prefill | src/components/AdminProductForm.jsx:69-83 | The form takes the product's values; "" for absent name, category and image; [pcs × 1] for absent or empty units; untouched |
| ProductForm.UnitsNeverEmpty | src/components/AdminProductForm.jsx:76-80 | A fresh form has a unit, and every unit edit keeps at least one |
| ProductForm.ErrorsNeedTouched | src/components/AdminProductForm.jsx:86-87 | No error without `touched`; with it, a name error iff the name is blank, a price error iff the price is empty or ≤ 0 |
| ProductForm.DuplicateName | src/components/AdminProductForm.jsx:89-96 | A hit is a product with the same trimmed, lower-cased name other than the edited one; none iff no product is such |
| ProductForm.OwnNameIsNoDuplicate | src/components/AdminProductForm.jsx:92-95 | The edited product never counts as its own duplicate |
| ProductForm.BuildPayload | src/components/AdminProductForm.jsx:132-140 | Trimmed name; null category for ""; stock 0 when empty; available iff stock > 0; images from the upload, else the existing ones, else none |
| ProductForm.SaveTarget | src/components/AdminProductForm.jsx:142-144 | PUT of the edited product, else POST |
| ProductForm.SaveAsWritten | src/components/AdminProductForm.jsx:109-121 | The save as written: sent iff neither render-time error nor a duplicate holds |
| ProductForm.UntouchedBlankFormIsSaved | src/components/AdminProductForm.jsx:86-87 | A fresh, never-edited form posts a product with an empty name and price 0 |
| ProductForm.Save | src/components/AdminProductForm.jsx:109-144 | Sent iff the name is not blank, the price is positive and no duplicate exists; then it carries a non-empty name and a positive price |
| ProductForm.SaveAgreesWhenTouched | src/components/AdminProductForm.jsx:109-121 | Once the form is touched, both versions agree |
| Settings.Descend | src/context/SettingsContext.jsx:47-50 | The walk continues in the existing object, in a new {} for a missing or falsy key, and fails at a truthy scalar |
| Settings.GetAfterSet | src/context/SettingsContext.jsx:44-52 | After a successful update, the path reads the new value |
| Settings.OtherPathsUnchanged | src/context/SettingsContext.jsx:43-52 | A path that leaves the updated path anywhere reads as before |
| Settings.SingleSegment | src/context/SettingsContext.jsx:47-52 | A one-segment path sets that top-level key only |
| Settings.PathWithoutDot | src/context/SettingsContext.jsx:44 | A path without a dot is one segment |
| Settings.FalsyIntermediate | src/context/SettingsContext.jsx:47-50 | A missing or falsy intermediate becomes {} holding the rest of the path |
| Settings.ScalarInTheWay | src/context/SettingsContext.jsx:47-50 | A truthy scalar on the path makes the update fail |
| Settings.BlockedWalk | src/context/SettingsContext.jsx:46-50 | A walk blocked at any step fails as a whole |
| Settings.SetAtPath | src/context/SettingsContext.jsx:43-53 | The pointer walk over the clone yields exactly the recursive nested set |
| Settings.Store.BeginUpdate | src/context/SettingsContext.jsx:32-37 | `savingKey` becomes the path, the POST carries the key and value, and the tree is unchanged |
| Settings.Store.FinishUpdate | src/context/SettingsContext.jsx:38-58 | `savingKey` is cleared on either outcome; the tree changes only when the POST resolved and the tree is not null, and then to the nested set |
| CreateOrders.ApplyEdit | src/pages/CreateOrders.jsx:19-23 | Only the edited key of the line changes |
| CreateOrders.GrandTotalAppend | src/pages/CreateOrders.jsx:29-32 | The total of two lists of lines is the sum of their totals |
| CreateOrders.SingleTotal | src/pages/CreateOrders.jsx:29-32 | The total of a single line is its amount |
| CreateOrders.AddKeepsTotal | src/pages/CreateOrders.jsx:15-17 | The added empty line does not change the total |
| CreateOrders.RemoveTotal | src/pages/CreateOrders.jsx:25-32 | Removing line i takes exactly its amount off the total |
| CreateOrders.ReplaceTotal | src/pages/CreateOrders.jsx:19-32 | Replacing line i changes the total by the difference of the two amounts |
| CreateOrders.SaveRequest | src/pages/CreateOrders.jsx:34-44 | Nothing without a customer or without lines; otherwise one POST whose total is the grand total |
| CreateOrders.PickAsWritten | src/pages/CreateOrders.jsx:79-81 | The select as written throws exactly when no product has the chosen value as id |
| CreateOrders.PlaceholderThrows | src/pages/CreateOrders.jsx:79-84 | Choosing "Select product" throws |
| CreateOrders.Pick | src/pages/CreateOrders.jsx:79-81 | Line index takes the chosen product's id and price, keeping its quantity; an unknown choice changes nothing |
| CreateOrders.PickAgrees | src/pages/CreateOrders.jsx:79-81 | When a product is found, both versions agree |
| CreateOrders.Draft.SelectCustomer | src/pages/CreateOrders.jsx:58-59 | The customer becomes the chosen value ("" for the placeholder); the lines are unchanged |
| CreateOrders.Draft.AddItem | src/pages/CreateOrders.jsx:15-17 | Appends {"" , 1, 0}; the total is unchanged |
| CreateOrders.Draft.UpdateItem | src/pages/CreateOrders.jsx:19-23 | Only that key of that line changes; the length is kept |
| CreateOrders.Draft.RemoveItem | src/pages/CreateOrders.jsx:25-27 | Exactly position i is removed, and the total drops by its amount |
| CreateOrders.Draft.PickProduct | src/pages/CreateOrders.jsx:79-81 | The two updates set the line as Pick does |
| CreateOrders.Draft.Save | src/pages/CreateOrders.jsx:34-44 | The saved order carries the lines and their grand total |
| Selection.Toggle | src/pages/Products.jsx:265-270 | Checking appends the id; unchecking drops every copy of it and keeps every copy of each other id, in order |
| Selection.CheckThenUncheck | src/pages/OrdersList.jsx:255-261 | Checking a new id and unchecking it restores the selection |
| OrdersList.FilteredIsShown | src/pages/OrdersList.jsx:67-81 | The two conditional filters keep exactly the orders that pass both active tests |
| OrdersList.FilteredOrdersFacts | src/pages/OrdersList.jsx:67-81 | An order-preserving subsequence of exactly the shown orders; empty filters keep everything |
| OrdersList.DisplayStatus | src/pages/OrdersList.jsx:275 | A missing or empty status shows as "pending" |
| OrdersList.PrintText | src/pages/OrdersList.jsx:129-135 | The `+=` loop builds the slip: header, one "k) name - qty unit" line per item from k = 1, then the total |
| OrdersList.SlipLineCount | src/pages/OrdersList.jsx:132-134 | The slip has one line break per item |
| OrdersList.SlipLineBreaks | src/pages/OrdersList.jsx:133 | A slip line whose texts hold no line break ends with its only line break |
| OrdersList.ShareMessage | src/pages/OrdersList.jsx:142-148 | The loop builds the share message, each item with its "   qty unit" sub-line |
| OrdersList.ShareLineCount | src/pages/OrdersList.jsx:144-146 | The message body has three line breaks per item |
| OrdersList.ShareLineBreaks | src/pages/OrdersList.jsx:145 | The lines of one item whose texts hold no line break contain exactly three line breaks |
| OrdersList.GroupAppend | src/pages/OrdersList.jsx:152-175 | Adding one more key's values to a report appends them to that key |
| OrdersList.PushChunk | src/pages/OrdersList.jsx:155-156 | Creating the key when missing, then pushing each value, appends the values to that key |
| OrdersList.GroupContents | src/pages/OrdersList.jsx:152-175 | A key is in the report iff some entry named it, and it holds exactly those entries' values in order |
| OrdersList.KeyOrderFacts | src/pages/OrdersList.jsx:152-175 | The keys in first-seen order are distinct and are the report's keys |
| OrdersList.GroupCount | src/pages/OrdersList.jsx:152-175 | The sizes of all keys add up to the number of values pushed |
| OrdersList.PartyReportFacts | src/pages/OrdersList.jsx:152-160 | Every order's customer is a key, even with no items; the entry count is the total item count |
| OrdersList.PartyReport | src/pages/OrdersList.jsx:152-160 | The loop builds the grouping of each order's items under its customer |
| OrdersList.ItemReport | src/pages/OrdersList.jsx:161-175 | The nested loop groups {customer, qty, unit} by product name, in order of orders and then items |
| OrdersList.ItemReportFacts | src/pages/OrdersList.jsx:161-175 | Every product name of every order's items is a key; the entry count is the total item count |
| OrdersList.DeleteRequests | src/pages/OrdersList.jsx:111-127 | One DELETE per selected id, in selection order |
| OrdersList.BulkStatusRequests | src/pages/OrdersList.jsx:97-109 | One status PUT per selected id, in selection order |
| OrdersList.RowDelete | src/pages/OrdersList.jsx:111-117 | The row's delete button selects exactly its id (line 289), so one DELETE is sent; an empty selection sends nothing |
| Products.StageFilter | src/pages/Products.jsx:95-116 | One conditional filter after another is one combined filter |
| Products.FilteredIsShown | src/pages/Products.jsx:95-116 | The six-stage chain keeps exactly the products that pass every active test |
| Products.FilteredProductsFacts | src/pages/Products.jsx:95-116 | An order-preserving subsequence of exactly the shown products; no filters keep everything |
| Products.NegativeStockNeverListed | src/pages/Products.jsx:109-113 | With "in" or "out" chosen, a product with negative stock is never listed |
| Products.ImageFiltersPartition | src/pages/Products.jsx:105-107 | "with" and "without" images split the list |
| Products.At | src/pages/Products.jsx:122-123 | Indexing outside the list gives undefined |
| Products.NeighboursOfListed | src/pages/Products.jsx:119-123 | prev and next of the edited product are its neighbours in the filtered list |
| Products.NeighboursOfUnlisted | src/pages/Products.jsx:119-123 | For an unlisted product, prev is undefined and next is the first product |
| Products.Clear | src/pages/Products.jsx:151-165 | A chip's delete resets its own filter and keeps the others |
| Products.FilterChipsCover | src/pages/Products.jsx:151-165 | A filter has its chip iff it is not at its default |
| Products.FilterChipsOrder | src/pages/Products.jsx:151-165 | Chips come in strictly increasing filter order (search, category, image, stock), so no filter has two chips, and each chip is the one its own filter produces |
| Products.ChipsUpToRanked | src/pages/Products.jsx:151-165 | The chips of the first n filters are in that order and come only from those filters |
| Products.ClearChip | src/pages/Products.jsx:151-165 | Deleting a chip removes exactly that chip |
| Products.NoChips | src/pages/Products.jsx:95-165 | No chips iff no filter is set, and then every product is listed |
| AdminProductList.FilteredProductsFacts | src/components/AdminProductList.jsx:26-39 | An order-preserving subsequence of exactly the products matching search, category and stock |
| AdminProductList.NamedProductsOnly | src/components/AdminProductList.jsx:27-29 | A product without a name is never listed; with default filters every named product is |
| AdminProductList.StockSplit | src/components/AdminProductList.jsx:34-36 | "in" (> 0) and "out" (≤ 0, or null) split the products that carry a stock value |
| AdminProductList.StockChoicesSplit | src/components/AdminProductList.jsx:26-39 | The "in" and "out" grids together hold the "all" grid's products with a stock value |
| AdminProductList.CategoryName | src/components/AdminProductList.jsx:19-22 | The first matching category's name, else "General" |
| AdminProductList.ToggleStock | src/components/AdminProductList.jsx:43-54 | A PUT of the product with stock 0 when it is in stock, else 1 |
| AdminProductList.ToggleFlips | src/components/AdminProductList.jsx:48 | The stored value flips the in-stock badge |
| AdminProductList.RemoveProduct | src/components/AdminProductList.jsx:56-60 | A DELETE iff confirmed |
| Categories.AddCategory | src/pages/Categories.jsx:38-48 | Refused iff the name is blank; otherwise a POST of the trimmed name |
| Categories.SaveEdit | src/pages/Categories.jsx:51-62 | Ignored iff the name is blank; otherwise a PUT of the trimmed name to that category |
| Categories.SurroundingSpaceIgnored | src/pages/Categories.jsx:39-55 | Names differing only in surrounding space send the same request, when adding and when renaming any category |
| Categories.ItemCountPositive | src/pages/Categories.jsx:91-93 | The count is positive iff some product has the category |
| Categories.RemoveCategory | src/pages/Categories.jsx:65-82 | In use: refused with the count in the message; else a DELETE iff confirmed |
| Categories.DeleteGuard | src/pages/Categories.jsx:65-72 | A category used by any product is never deleted; an unused one is, once confirmed |
| Categories.FilteredFacts | src/pages/Categories.jsx:85-89 | An order-preserving subsequence of exactly the case-insensitive matches; an empty search keeps all |
| Customers.SaveCustomer | src/pages/Customers.jsx:34-58 | Refused iff name or mobile is blank; trimmed payload; PUT to the edited id when it is truthy, else POST |
| Customers.Reset | src/pages/Customers.jsx:72-77 | Every input cleared and no customer edited |
| Customers.SaveAfterReset | src/pages/Customers.jsx:53-54 | Saving right after the reset is refused |
| Customers.Prefill | src/pages/Customers.jsx:164-168 | The customer's id, and each field or "" when absent |
| Customers.EditSavesSameCustomer | src/pages/Customers.jsx:47-48 | Saving after the edit button updates that customer; one without name or mobile is refused |
| Customers.FilteredFacts | src/pages/Customers.jsx:80-87 | A subsequence of the matches (name and route lower-cased, mobile raw); an empty search keeps every customer with some field |
| Customers.RemoveCustomer | src/pages/Customers.jsx:61-70 | A DELETE iff confirmed |
| BulkEditModal.Initial | src/components/BulkEditModal.jsx:22-29 | Every field starts unticked |
| BulkEditModal.ToggleField | src/components/BulkEditModal.jsx:31-36 | Only that field flips |
| BulkEditModal.ToggleTwice | src/components/BulkEditModal.jsx:31-36 | Toggling twice restores the state |
| BulkEditModal.SelectedExactly | src/components/BulkEditModal.jsx:39 | The handed-on fields are exactly the ticked ones |
| BulkEditModal.SelectedInOrder | src/components/BulkEditModal.jsx:22-39 | Each comes once, in declaration order |
| BulkEditModal.Continue | src/components/BulkEditModal.jsx:38-47 | Refused iff nothing is ticked; otherwise the ticked fields are handed on |
| BulkEditModal.ContinueAtOnce | src/components/BulkEditModal.jsx:22-44 | Continuing straight away is refused |
| VendorForm.Prefill | src/components/VendorForm.jsx:12-18 | With a vendor, each input takes its field or ""; without one, the inputs are kept |
| VendorForm.Save | src/components/VendorForm.jsx:20-39 | Refused iff the name is blank; trimmed payload; PUT to /api/vendors/{id} when editing, else POST |
| VendorForm.EditSavesSameVendor | src/components/VendorForm.jsx:12-39 | Saving the prefilled form updates that vendor; a vendor without a name is refused |
| VendorForm.SaveTwiceSamePayload | src/components/VendorForm.jsx:31-35 | Saving the saved payload again sends the same request |
| Vendors.FilteredFacts | src/pages/Vendors.jsx:59-61 | An order-preserving subsequence of the named vendors matching case-insensitively; an empty search keeps every named vendor |
| Vendors.DeleteRequest | src/pages/Vendors.jsx:47-56 | A DELETE of the held vendor iff one is held |
| Vendors.AfterDelete | src/pages/Vendors.jsx:49-51 | The held vendor is cleared on success and kept on failure |
| Vendors.DeleteTargetsHeldVendor | src/pages/Vendors.jsx:49 | Different vendors are deleted through different requests |

## Left out

- Service calls are not performed: src/api/api.js and the image upload are not part of this model. Each operation returns the request it would send. The HTTP status is not checked by the wrappers, so "accepted" means only "did not throw".
- The image upload becomes the `upload` parameter of `ProductForm.BuildPayload` ("" when no file was chosen).
- The spreadsheet reader (`XLSX.read`, `sheet_to_json`, `FileReader`) is a foreign library. `BulkImport.ParseSheet` starts from the list of heading-to-cell maps it yields. Each cell carries its own text and numeric reading, so `Number()` coercion is a given, not computed.
- Number coercion elsewhere: prices and stocks arrive parsed, with `None` for an empty field.
- BulkEditEditor.NumberOf: reads every stored text as 0. The source's `Number(product?.margin_percentage || 0)` and `Number(product?.purchase_rate || 0)` (src/components/BulkEditEditor.jsx:82, 92, 102) parse a numeric text ("20" gives 20) and give NaN for any other non-blank text. If the service sends these columns as strings, the source computes a different price or margin than the model.
- CreateOrders.Draft.Save: the model holds each line's quantity as its numeric reading. The source stores the typed text (`updateItem(index, "qty", e.target.value)`, src/pages/CreateOrders.jsx:96) and posts `items` as held, so every edited line is sent with a text `qty` such as "2" where the model's body has 2.0. Only a line never edited carries the number 1. The same holds for `CreateOrders.SaveRequest` and `CreateOrders.Draft.UpdateItem`. The totals agree, because `grandTotal` reads the quantity with `Number`.
- Floating point: money is `real`, so IEEE rounding is not modelled, and with exact sums the order in which `reduce` adds the amounts makes no difference to `CreateOrders.GrandTotal`.
- CreateOrders.LineTotal: counts a line whose product has no `price` key as 0. In the source, `Number(undefined)` is NaN, so that line's amount, `grandTotal` and the posted `total` are all NaN. Only a `null` price gives 0. `Line.price == None` covers both cases.
- Catalog.StockValue: a stock count is an integer (`Units(n: int)`). A fractional stock, which the service could send, is not represented.
- Ids arrive as text: `Catalog.Id` is a string. The `===` comparisons with a select's `e.target.value`, which is always text, at src/components/AdminProductList.jsx:30 and src/pages/CreateOrders.jsx:79 match only when the service sends ids as text. With numeric ids they would never match, and the model does not cover that case.
- BulkEditEditor.Editor.PurchaseChange: `Number(x.toFixed(2))` on the price is the parameter `round`; JavaScript's decimal rounding of binary floats is not computed.
- BulkEditEditor.Editor.MarginChange: the price is rounded by the parameter `round`, as in `PurchaseChange`.
- BulkEditEditor.Editor.SalesChange: the margin is rounded by the parameter `round`, as in `PurchaseChange`.
- BulkEditEditor.PurchaseEdit: about `round`, only that a rounding to cents moves a value by at most half a cent (`CentRounding`); which cent it picks is not stated.
- BulkEditEditor.MarginEdit: the same bound on `round` as `PurchaseEdit`, and nothing more.
- BulkEditEditor.SalesEdit: the stored margin is rounded, so it gives back the typed price only within purchase/20000, not exactly. With purchase 3 and price 10 the source stores margin 233.33, and that margin gives 9.9999.
- BulkEditEditor.Editor.SaveRequests: the PUTs are in the order of the change record's keys as visited, not proved to follow insertion order. The `for … await` loop can stop halfway on an exception; only the intended set of calls is modelled. The same holds for `OrdersList.DeleteRequests` and `OrdersList.BulkStatusRequests`.
- Date parsing and the clock: each order carries an optional (day, month, year), with `None` for an unparsable date. The current date is the `today` parameter of `Dashboard.ComputeOrderStats`.
- Text: `toLowerCase` lowers ASCII letters only. `Trim` strips the ASCII white space (space, tab, line feed, vertical tab, form feed, carriage return); the Unicode spaces that `String.prototype.trim` also removes are not modelled. `encodeURIComponent`, `window.open` and printing are out.
- OrdersList.PrintText: the total is shown through the `show` parameter; JavaScript's number-to-text is not modelled. A missing customer name or total shows as "undefined". A `null` value would show as "null", but the model does not tell null from undefined there.
- OrdersList.PartyReport: a missing customer name is keyed "undefined". JavaScript keys a `null` name "null", but the model keys both "undefined". `OrdersList.ShareMessage` shows the name the same way.
- OrdersList.PushChunk: the source's `map` is a plain object, the model's a dictionary with no inherited keys. For a key that names an `Object.prototype` member ("constructor", "toString", "valueOf", "__proto__", …), `!map[k]` finds the inherited member, so no list is created and the `.push` that follows throws a TypeError. The model creates the key and pushes.
- OrdersList.PartyReport: for a customer named after an `Object.prototype` member, the source's `useMemo` throws on the first push when that order has items, and the page fails to render. The model groups the items under that name as for any other name.
- OrdersList.PartyReportFacts: "every order's customer is a key" does not hold in the source for a customer named after an `Object.prototype` member. With items the computation throws. Without items the name is never made an own key, since `!map[k]` sees the inherited member.
- OrdersList.ItemReport: for a product named after an `Object.prototype` member, the source throws on the push, as `PartyReport` does. The model groups that product's entries like any other.
- OrdersList.ItemReportFacts: the keys and the entry count are stated also for orders on which the source throws, namely those with a product named after an `Object.prototype` member.
- OrdersList.ItemReport: an entry's customer is `None` both for a `null` name and for an absent one, so the `null` and `undefined` values the source stores are merged, as in `PartyReport`.
- ProductForm.SetMultiplier: models the edit as a value copy. The source assigns into a unit object shared through a shallow copy, so the edit also reaches the preset table or the edited product's list. Aliasing is not modelled.
- Settings.Descend: the source walks a plain object copied by `structuredClone`, the model a dictionary with no inherited keys. For an absent segment that names an `Object.prototype` member ("constructor", "toString", "valueOf", …), `!obj[k]` finds the inherited function. No `{}` is created, and the walk goes into that function. The model creates an empty object there.
- Settings.SetAtPath: for a path with such a segment ("constructor.x"), the source assigns a property of the inherited function and the copy comes back without the new key. With "__proto__.x" the source assigns into `Object.prototype` itself. The model returns the nested set in every case, so "exactly the recursive nested set" holds only for paths whose segments are not `Object.prototype` names.
- Settings.FalsyIntermediate: "missing" means absent as an own key and not an inherited `Object.prototype` name. For such a name the source creates nothing, as `Settings.Descend` describes.
- Settings.GetAfterSet: does not hold in the source for a last segment "__proto__", whose assignment the prototype setter swallows when the value is a scalar, nor for the inherited-name paths of `Settings.SetAtPath`.
- Settings.OtherPathsUnchanged: does not hold in the source after a "__proto__.x" update, which makes every object path ending in "x" read the new value through the prototype.
- Settings.SingleSegment: the key "__proto__" with a scalar value is ignored by the source's assignment, while the model sets it.
- Settings.PathWithoutDot: the same "__proto__" case as `Settings.SingleSegment`, for a path without a dot.
- Settings.Store.FinishUpdate: the new tree is `SetIn`'s nested set, so it inherits the `Object.prototype` divergence described for `Settings.Descend` and `Settings.SetAtPath`. The settings page passes only literal paths, which contain no such name.
- Settings.Store.FinishUpdate: when a truthy scalar stands on the path, assigning into it throws inside the state updater. That throw happens outside the `try` and reaches the renderer. The model keeps the tree unchanged and does not model the crash.
- Customers.SaveCustomer: `if (editingId)` uses truthiness, so an empty id means POST; `Editing` models exactly that.
- BulkEditModal.Continue: hands on `Field` values rather than their key strings; `BulkEditModal.Key` gives each field's key.
- Toasts, alerts, confirm dialogs, drawers, skeleton timers and reloads after a request are UI plumbing. A confirmation is the boolean `confirmed` parameter.
- The product list's own delete confirmation (src/pages/Products.jsx:126-148) is a toast-wrapped DELETE, like `AdminProductList.RemoveProduct`, and is not modelled separately.
- Routing, layout, the service worker and the settings page are not part of this model.
- The single-order `updateStatus` (src/pages/OrdersList.jsx:83-95) is `OrdersList.StatusRequest` for one id; it has no rule beyond its path and body.

## Findings

| source | as written | input that shows it | evidently intended | confidence | as-written member | corrected member |
|---|---|---|---|---|---|---|
| src/components/AdminProductForm.jsx:86-87, 109-116 | `saveProduct` calls `setTouched(true)` and then reads `nameError` and `priceError`. Those were computed in the render where `touched` was still false, so the guard passes | Pressing Save on a new product form before typing anything posts a product with name "" and price 0 | Validate as if touched: a blank name or a missing or non-positive price sends nothing | not executed | ProductForm.SaveAsWritten, ProductForm.UntouchedBlankFormIsSaved | ProductForm.Save, ProductForm.SaveAgreesWhenTouched |
| src/pages/CreateOrders.jsx:79-81 | The select handler reads `p.id` of `products.find(...)` without checking that a product was found | Choosing the "Select product" option again after picking a product makes `find` return undefined, and the handler throws | A choice that names no product leaves the line unchanged | not executed | CreateOrders.PickAsWritten, CreateOrders.PlaceholderThrows | CreateOrders.Pick, CreateOrders.PickAgrees |
