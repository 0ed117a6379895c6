/** The products page: the chain of list filters, the previous and next product of
    the edit drawer, and the chips of the filters in force. */
module Products {
  import opened Common
  import opened Catalog

  /** The image select: "all", "with" or "without". */
  datatype ImageFilter = AllImages | WithImages | WithoutImages

  /** The stock select: "all", "in" or "out". */
  datatype StockFilter = AllStock | InStock | OutOfStock

  /** The filter state of the page; `category` is "" when no category is chosen. */
  datatype Filters = Filters(search: string, category: string, image: ImageFilter, stock: StockFilter)

  const NoFilters: Filters := Filters("", "", AllImages, AllStock)

  // ------------------------------------------------------------ predicates

  /** `p.name?.toLowerCase().includes(search.toLowerCase())`. */
  predicate MatchesSearch(p: Product, search: string) {
    p.name.Some? && Includes(Lower(p.name.value), Lower(search))
  }

  /** `p.images?.length` is truthy. */
  predicate HasImages(p: Product) {
    p.images.Some? && |p.images.value| > 0
  }

  predicate PassSearch(p: Product, search: string) {
    search == "" || MatchesSearch(p, search)
  }

  predicate PassCategory(p: Product, category: string) {
    category == "" || p.categoryId == Some(category)
  }

  predicate PassImage(p: Product, image: ImageFilter) {
    match image
    case AllImages => true
    case WithImages => HasImages(p)
    case WithoutImages => !HasImages(p)
  }

  /** `Number(p.stock || 0) > 0` for "in", `=== 0` for "out". */
  predicate PassStock(p: Product, stock: StockFilter) {
    match stock
    case AllStock => true
    case InStock => StockCount(p.stock) > 0
    case OutOfStock => StockCount(p.stock) == 0
  }

  /** A product is listed when it passes every filter. */
  predicate Shown(p: Product, f: Filters) {
    PassSearch(p, f.search) && PassCategory(p, f.category) && PassImage(p, f.image) && PassStock(p, f.stock)
  }

  function ShownFilter(f: Filters): Product -> bool {
    (p: Product) => Shown(p, f)
  }

  // ----------------------------------------------------------------- chain

  /** One `if (cond) list = list.filter(p)` of the chain. */
  function Stage<T>(s: seq<T>, on: bool, p: T -> bool): seq<T> {
    if on then Filter(s, p) else s
  }

  /** A stage applied to a filtered list is one filter by the stronger predicate. */
  lemma StageFilter<T>(s: seq<T>, before: T -> bool, on: bool, p: T -> bool, after: T -> bool)
    requires forall x :: after(x) == (before(x) && (on ==> p(x)))
    ensures Stage(Filter(s, before), on, p) == Filter(s, after)
  {
    if on {
      FilterFilter(s, before, p, after);
    } else {
      FilterExt(s, before, after);
    }
  }

  /** `filteredProducts`: the search, category, image and stock filters in turn, each
      applied only when it is set. */
  function FilteredProducts(products: seq<Product>, f: Filters): seq<Product> {
    var bySearch := Stage(products, f.search != "", (p: Product) => MatchesSearch(p, f.search));
    var byCategory := Stage(bySearch, f.category != "", (p: Product) => p.categoryId == Some(f.category));
    var withImages := Stage(byCategory, f.image == WithImages, HasImages);
    var withoutImages := Stage(withImages, f.image == WithoutImages, (p: Product) => !HasImages(p));
    var inStock := Stage(withoutImages, f.stock == InStock, (p: Product) => StockCount(p.stock) > 0);
    Stage(inStock, f.stock == OutOfStock, (p: Product) => StockCount(p.stock) == 0)
  }

  /** The chain keeps exactly the products that pass every filter. */
  lemma FilteredIsShown(products: seq<Product>, f: Filters)
    ensures FilteredProducts(products, f) == Filter(products, ShownFilter(f))
  {
    var f0 := (p: Product) => true;
    var f1 := (p: Product) => PassSearch(p, f.search);
    var f2 := (p: Product) => PassSearch(p, f.search) && PassCategory(p, f.category);
    var f3 := (p: Product) => f2(p) && (f.image == WithImages ==> HasImages(p));
    var f4 := (p: Product) => f2(p) && PassImage(p, f.image);
    var f5 := (p: Product) => f4(p) && (f.stock == InStock ==> StockCount(p.stock) > 0);
    FilterAll(products, f0);
    StageFilter(products, f0, f.search != "", (p: Product) => MatchesSearch(p, f.search), f1);
    StageFilter(products, f1, f.category != "", (p: Product) => p.categoryId == Some(f.category), f2);
    StageFilter(products, f2, f.image == WithImages, HasImages, f3);
    StageFilter(products, f3, f.image == WithoutImages, (p: Product) => !HasImages(p), f4);
    StageFilter(products, f4, f.stock == InStock, (p: Product) => StockCount(p.stock) > 0, f5);
    StageFilter(products, f5, f.stock == OutOfStock, (p: Product) => StockCount(p.stock) == 0, ShownFilter(f));
  }

  /** The list is an order-preserving subsequence of the products holding exactly the
      products shown; with no filter set it is the whole list. */
  lemma FilteredProductsFacts(products: seq<Product>, f: Filters)
    ensures IsSubsequence(FilteredProducts(products, f), products)
    ensures forall i :: 0 <= i < |FilteredProducts(products, f)| ==> Shown(FilteredProducts(products, f)[i], f)
    ensures forall i :: 0 <= i < |products| && Shown(products[i], f) ==> products[i] in FilteredProducts(products, f)
    ensures f == NoFilters ==> FilteredProducts(products, f) == products
  {
    FilteredIsShown(products, f);
    FilterIsSubsequence(products, ShownFilter(f));
    FilterMembers(products, ShownFilter(f));
    if f == NoFilters {
      FilterAll(products, ShownFilter(f));
    }
  }

  /** A product with a negative stock count is listed by neither stock filter. */
  lemma NegativeStockNeverListed(products: seq<Product>, f: Filters, p: Product)
    requires StockCount(p.stock) < 0 && f.stock != AllStock
    ensures p !in FilteredProducts(products, f)
  {
    FilteredIsShown(products, f);
    FilterMembers(products, ShownFilter(f));
  }

  /** "with" and "without" split the list the other filters leave: each product lands
      on exactly one side. */
  lemma ImageFiltersPartition(products: seq<Product>, f: Filters)
    ensures |FilteredProducts(products, f.(image := WithImages))| + |FilteredProducts(products, f.(image := WithoutImages))|
            == |FilteredProducts(products, f.(image := AllImages))|
  {
    var all := f.(image := AllImages);
    var base := Filter(products, ShownFilter(all));
    var without := (p: Product) => !HasImages(p);
    FilteredIsShown(products, all);
    FilteredIsShown(products, f.(image := WithImages));
    FilteredIsShown(products, f.(image := WithoutImages));
    FilterFilter(products, ShownFilter(all), HasImages, ShownFilter(f.(image := WithImages)));
    FilterFilter(products, ShownFilter(all), without, ShownFilter(f.(image := WithoutImages)));
    FilterComplement(base, HasImages, without);
  }

  // ------------------------------------------------------------ navigation

  /** `list[k]`, `undefined` outside the list. */
  function At(list: seq<Product>, k: int): (r: Option<Product>)
    ensures r.Some? <==> 0 <= k < |list|
    ensures r.Some? ==> r.value == list[k]
  {
    if 0 <= k < |list| then Some(list[k]) else None
  }

  /** `currentIndex`: the position of the edited product in the filtered list, -1 when
      nothing is edited or it is not listed. */
  function CurrentIndex(list: seq<Product>, editing: Option<Id>): int {
    FindIndex(list, (p: Product) => Some(p.id) == editing)
  }

  function PrevProduct(list: seq<Product>, editing: Option<Id>): Option<Product> {
    At(list, CurrentIndex(list, editing) - 1)
  }

  function NextProduct(list: seq<Product>, editing: Option<Id>): Option<Product> {
    At(list, CurrentIndex(list, editing) + 1)
  }

  /** The drawer's arrows step to the neighbours of the edited product; the first
      product has no previous one and the last no next one. */
  lemma NeighboursOfListed(list: seq<Product>, k: int)
    requires 0 <= k < |list|
    requires forall j :: 0 <= j < k ==> list[j].id != list[k].id
    ensures PrevProduct(list, Some(list[k].id)) == (if k > 0 then Some(list[k - 1]) else None)
    ensures NextProduct(list, Some(list[k].id)) == (if k + 1 < |list| then Some(list[k + 1]) else None)
  {
  }

  /** When the edited product is not listed (or a new one is being added), there is
      no previous product and the next one is the first of the list. */
  lemma NeighboursOfUnlisted(list: seq<Product>, editing: Option<Id>)
    requires forall j :: 0 <= j < |list| ==> Some(list[j].id) != editing
    ensures PrevProduct(list, editing) == None
    ensures NextProduct(list, editing) == (if list != [] then Some(list[0]) else None)
  {
  }

  // ----------------------------------------------------------------- chips

  /** The filter a chip's delete button resets. */
  datatype FilterKind = SearchKind | CategoryKind | ImageKind | StockKind

  function Rank(k: FilterKind): nat {
    match k
    case SearchKind => 0
    case CategoryKind => 1
    case ImageKind => 2
    case StockKind => 3
  }

  datatype Chip = Chip(text: string, clears: FilterKind)

  function ImageName(i: ImageFilter): string {
    match i
    case AllImages => "all"
    case WithImages => "with"
    case WithoutImages => "without"
  }

  function StockName(s: StockFilter): string {
    match s
    case AllStock => "all"
    case InStock => "in"
    case OutOfStock => "out"
  }

  /** Whether the filter of kind `k` is away from its default. */
  predicate IsSet(f: Filters, k: FilterKind) {
    match k
    case SearchKind => f.search != ""
    case CategoryKind => f.category != ""
    case ImageKind => f.image != AllImages
    case StockKind => f.stock != AllStock
  }

  /** The chip's delete button: that filter back to its default. */
  function Clear(f: Filters, k: FilterKind): (r: Filters)
    ensures !IsSet(r, k)
    ensures forall j :: j != k ==> IsSet(r, j) == IsSet(f, j)
  {
    match k
    case SearchKind => f.(search := "")
    case CategoryKind => f.(category := "")
    case ImageKind => f.(image := AllImages)
    case StockKind => f.(stock := AllStock)
  }

  /** The chip a set filter of kind `k` shows. */
  function ChipFor(f: Filters, k: FilterKind): Chip {
    match k
    case SearchKind => Chip("Search: " + f.search, SearchKind)
    case CategoryKind => Chip("Category", CategoryKind)
    case ImageKind => Chip("Image: " + ImageName(f.image), ImageKind)
    case StockKind => Chip("Stock: " + StockName(f.stock), StockKind)
  }

  /** `cond && { label, onDelete }` before `.filter(Boolean)`: the chip when the filter
      is set, nothing otherwise. */
  function ChipsOf(f: Filters, k: FilterKind): seq<Chip> {
    if IsSet(f, k) then [ChipFor(f, k)] else []
  }

  /** `filterChips`. */
  function FilterChips(f: Filters): seq<Chip> {
    ChipsOf(f, SearchKind) + ChipsOf(f, CategoryKind) + ChipsOf(f, ImageKind) + ChipsOf(f, StockKind)
  }

  /** Where the chips of each kind sit in the list. */
  lemma ChipPositions(f: Filters)
    ensures var a, b, c := ChipsOf(f, SearchKind), ChipsOf(f, CategoryKind), ChipsOf(f, ImageKind);
            var r := FilterChips(f);
            (forall i :: 0 <= i < |a| ==> r[i] == a[i])
            && (forall i :: 0 <= i < |b| ==> r[|a| + i] == b[i])
            && (forall i :: 0 <= i < |c| ==> r[|a| + |b| + i] == c[i])
            && (forall i :: 0 <= i < |ChipsOf(f, StockKind)| ==> r[|a| + |b| + |c| + i] == ChipsOf(f, StockKind)[i])
  {
  }

  /** There is a chip for a filter exactly when the filter is set. */
  lemma FilterChipsCover(f: Filters, k: FilterKind)
    ensures IsSet(f, k) <==> ChipFor(f, k) in FilterChips(f)
  {
    assert ChipFor(f, k).clears == k;
  }

  /** Chips in strictly increasing rank, each the chip of its own filter. */
  predicate Ranked(f: Filters, s: seq<Chip>) {
    (forall i, j :: 0 <= i < j < |s| ==> Rank(s[i].clears) < Rank(s[j].clears))
    && (forall i :: 0 <= i < |s| ==> s[i] == ChipFor(f, s[i].clears))
  }

  /** The chip of a filter of higher rank, when present, can go behind. */
  lemma AppendChip(f: Filters, s: seq<Chip>, k: FilterKind)
    requires Ranked(f, s)
    requires forall i :: 0 <= i < |s| ==> Rank(s[i].clears) < Rank(k)
    ensures Ranked(f, s + ChipsOf(f, k))
    ensures forall i :: 0 <= i < |s + ChipsOf(f, k)| ==> Rank((s + ChipsOf(f, k))[i].clears) <= Rank(k)
  {
    if IsSet(f, k) {
      var chip := ChipFor(f, k);
      var r := s + [chip];
      assert chip.clears == k;
      assert r[|s|] == chip;
      assert forall i :: 0 <= i < |s| ==> r[i] == s[i];
      assert s + ChipsOf(f, k) == r;
    } else {
      assert s + ChipsOf(f, k) == s;
    }
  }

  /** The filter of each rank. */
  function KindOf(n: nat): (k: FilterKind)
    requires n < 4
    ensures Rank(k) == n
  {
    if n == 0 then SearchKind else if n == 1 then CategoryKind else if n == 2 then ImageKind else StockKind
  }

  /** The chips of the filters of rank below `n`, in rank order. */
  function ChipsUpTo(f: Filters, n: nat): seq<Chip>
    requires n <= 4
  {
    if n == 0 then [] else ChipsUpTo(f, n - 1) + ChipsOf(f, KindOf(n - 1))
  }

  /** The chips below rank `n` are ranked, all below `n`. */
  lemma {:induction false} ChipsUpToRanked(f: Filters, n: nat)
    requires n <= 4
    ensures Ranked(f, ChipsUpTo(f, n))
    ensures forall i :: 0 <= i < |ChipsUpTo(f, n)| ==> Rank(ChipsUpTo(f, n)[i].clears) < n
  {
    if n > 0 {
      ChipsUpToRanked(f, n - 1);
      AppendChip(f, ChipsUpTo(f, n - 1), KindOf(n - 1));
    }
  }

  /** The chips come in the order search, category, image, stock, each showing its
      filter's label. */
  lemma FilterChipsOrder(f: Filters)
    ensures Ranked(f, FilterChips(f))
  {
    var a, b, c := ChipsOf(f, SearchKind), ChipsOf(f, CategoryKind), ChipsOf(f, ImageKind);
    assert ChipsUpTo(f, 1) == a by { assert [] + a == a; }
    assert ChipsUpTo(f, 2) == a + b;
    assert ChipsUpTo(f, 3) == a + b + c;
    assert ChipsUpTo(f, 4) == FilterChips(f);
    ChipsUpToRanked(f, 4);
  }

  /** Filtering the chips of one kind away. */
  lemma FilterChipsOf(f: Filters, j: FilterKind, k: FilterKind)
    ensures Filter(ChipsOf(f, j), (c: Chip) => c.clears != k) == (if j == k then [] else ChipsOf(f, j))
  {
  }

  /** Resetting a filter leaves the chips of the other filters as they were. */
  lemma ChipsOfClear(f: Filters, j: FilterKind, k: FilterKind)
    ensures ChipsOf(Clear(f, k), j) == (if j == k then [] else ChipsOf(f, j))
  {
  }

  /** Deleting a chip removes that chip alone. */
  lemma ClearChip(f: Filters, k: FilterKind)
    ensures FilterChips(Clear(f, k)) == Filter(FilterChips(f), (c: Chip) => c.clears != k)
  {
    var p := (c: Chip) => c.clears != k;
    var a, b, c, d := ChipsOf(f, SearchKind), ChipsOf(f, CategoryKind), ChipsOf(f, ImageKind), ChipsOf(f, StockKind);
    FilterAppend(a + b + c, d, p);
    FilterAppend(a + b, c, p);
    FilterAppend(a, b, p);
    FilterChipsOf(f, SearchKind, k);
    FilterChipsOf(f, CategoryKind, k);
    FilterChipsOf(f, ImageKind, k);
    FilterChipsOf(f, StockKind, k);
    ChipsOfClear(f, SearchKind, k);
    ChipsOfClear(f, CategoryKind, k);
    ChipsOfClear(f, ImageKind, k);
    ChipsOfClear(f, StockKind, k);
  }

  /** No chip is shown exactly when no filter is set, and then the whole list is shown. */
  lemma NoChips(products: seq<Product>, f: Filters)
    ensures FilterChips(f) == [] <==> f == NoFilters
    ensures FilterChips(f) == [] ==> FilteredProducts(products, f) == products
  {
    if FilterChips(f) == [] {
      assert !IsSet(f, SearchKind) && !IsSet(f, CategoryKind) && !IsSet(f, ImageKind) && !IsSet(f, StockKind);
      FilteredProductsFacts(products, f);
    }
  }
}
