/** The orders list: the search and status filters, the status shown per row, the
    printable slip and the share message of one order, the party-wise and item-wise
    reports, and the requests of the bulk actions. */
module OrdersList {
  import opened Common
  import opened Catalog

  // ---------------------------------------------------------------- filter

  /** `o.customer_name?.toLowerCase().includes(search.toLowerCase())`; an order
      without a customer name never matches. */
  predicate MatchesSearch(o: Order, search: string) {
    o.customerName.Some? && Includes(Lower(o.customerName.value), Lower(search))
  }

  predicate MatchesStatus(o: Order, status: string) {
    o.status == Some(status)
  }

  function SearchFilter(search: string): Order -> bool {
    (o: Order) => MatchesSearch(o, search)
  }

  function StatusFilter(status: string): Order -> bool {
    (o: Order) => MatchesStatus(o, status)
  }

  /** An order passes both filters; an empty filter passes everything. */
  predicate Shown(o: Order, search: string, status: string) {
    (search == "" || MatchesSearch(o, search)) && (status == "" || MatchesStatus(o, status))
  }

  function ShownFilter(search: string, status: string): Order -> bool {
    (o: Order) => Shown(o, search, status)
  }

  /** `filteredOrders`: the search filter when a search is typed, then the status
      filter when a status is chosen. */
  function FilteredOrders(orders: seq<Order>, search: string, status: string): seq<Order> {
    var bySearch := if search != "" then Filter(orders, SearchFilter(search)) else orders;
    if status != "" then Filter(bySearch, StatusFilter(status)) else bySearch
  }

  /** The two filters in a row are one filter by `Shown`. */
  lemma FilteredIsShown(orders: seq<Order>, search: string, status: string)
    ensures FilteredOrders(orders, search, status) == Filter(orders, ShownFilter(search, status))
  {
    var shown := ShownFilter(search, status);
    if search != "" && status != "" {
      FilterFilter(orders, SearchFilter(search), StatusFilter(status), shown);
    } else if search != "" {
      FilterExt(orders, SearchFilter(search), shown);
    } else if status != "" {
      FilterExt(orders, StatusFilter(status), shown);
    } else {
      FilterAll(orders, shown);
    }
  }

  /** The list shown is an order-preserving subsequence of the orders and holds exactly
      the orders that pass both filters. */
  lemma FilteredOrdersFacts(orders: seq<Order>, search: string, status: string)
    ensures IsSubsequence(FilteredOrders(orders, search, status), orders)
    ensures forall i :: 0 <= i < |FilteredOrders(orders, search, status)| ==>
              Shown(FilteredOrders(orders, search, status)[i], search, status)
    ensures forall i :: 0 <= i < |orders| && Shown(orders[i], search, status) ==>
              orders[i] in FilteredOrders(orders, search, status)
    ensures search == "" && status == "" ==> FilteredOrders(orders, search, status) == orders
  {
    FilteredIsShown(orders, search, status);
    FilterIsSubsequence(orders, ShownFilter(search, status));
    FilterMembers(orders, ShownFilter(search, status));
  }

  /** `o.status || "pending"`. */
  function DisplayStatus(o: Order): (s: string)
    ensures o.status.Some? && o.status.value != "" ==> s == o.status.value
    ensures o.status.None? || o.status.value == "" ==> s == "pending"
  {
    if o.status.Some? && o.status.value != "" then o.status.value else "pending"
  }

  // ----------------------------------------------------------------- texts

  /** A template literal shows a missing value as "undefined". */
  function ShowText(s: Option<string>): string {
    if s.Some? then s.value else "undefined"
  }

  /** `${order.total}`; `show` is the number-to-text conversion, which is not modelled. */
  function ShowTotal(t: Option<real>, show: real -> string): string {
    if t.Some? then show(t.value) else "undefined"
  }

  /** `order.order_items?.forEach(…)` visits nothing when there are no items. */
  function ItemsOf(o: Order): seq<OrderItem> {
    if o.items.Some? then o.items.value else []
  }

  /** The slip line of the `k`-th item (counting from 1). */
  function SlipLine(k: nat, it: OrderItem): string {
    NatToString(k) + ") " + it.productName + " - " + it.qty + " " + it.unitName + "\n"
  }

  /** The slip lines of all items, numbered from 1. */
  function SlipLines(items: seq<OrderItem>): string
    decreases |items|
  {
    if items == [] then "" else SlipLines(items[..|items| - 1]) + SlipLine(|items|, items[|items| - 1])
  }

  function SlipHeader(o: Order): string {
    "ORDER SLIP\n\nCustomer: " + ShowText(o.customerName) + "\n\n"
  }

  function SlipText(o: Order, show: real -> string): string {
    SlipHeader(o) + SlipLines(ItemsOf(o)) + "\nTotal: ₹" + ShowTotal(o.total, show)
  }

  /** One more item adds its line at the end of the slip built so far. */
  lemma SlipLinesStep(head: string, items: seq<OrderItem>, i: nat)
    requires i < |items|
    ensures head + SlipLines(items[..i + 1]) == (head + SlipLines(items[..i])) + SlipLine(i + 1, items[i])
  {
    assert items[..i + 1][..i] == items[..i];
    var a, b := SlipLines(items[..i]), SlipLine(i + 1, items[i]);
    assert head + (a + b) == (head + a) + b;
  }

  /** The text `printOrder` builds with `+=`. */
  method PrintText(o: Order, show: real -> string) returns (text: string)
    ensures text == SlipText(o, show)
  {
    text := SlipHeader(o);
    var items := ItemsOf(o);
    var i := 0;
    while i < |items|
      invariant 0 <= i <= |items|
      invariant text == SlipHeader(o) + SlipLines(items[..i])
    {
      SlipLinesStep(SlipHeader(o), items, i);
      text := text + SlipLine(i + 1, items[i]);
      i := i + 1;
    }
    assert items[..i] == items;
    text := text + "\nTotal: ₹" + ShowTotal(o.total, show);
  }

  /** The number is followed by ") ", so a line holds no line break before its end. */
  predicate PlainItem(it: OrderItem) {
    '\n' !in it.productName && '\n' !in it.qty && '\n' !in it.unitName
  }

  lemma NumberHasNoBreak(k: nat)
    ensures '\n' !in NatToString(k)
  {
    var t := NatToString(k);
    assert forall i :: 0 <= i < |t| ==> t[i] != '\n';
  }

  /** Each slip line ends with the only line break it contains. */
  lemma SlipLineBreaks(k: nat, it: OrderItem)
    requires PlainItem(it)
    ensures CountChar(SlipLine(k, it), '\n') == 1
  {
    var parts := [NatToString(k), ") ", it.productName, " - ", it.qty, " ", it.unitName];
    NumberHasNoBreak(k);
    var body := NatToString(k) + ") " + it.productName + " - " + it.qty + " " + it.unitName;
    assert '\n' !in body by {
      forall i | 0 <= i < |body| ensures body[i] != '\n' {
      }
    }
    CountCharAbsent(body, '\n');
    CountCharAppend(body, "\n", '\n');
  }

  /** The slip has one line per item: as many line breaks as items. */
  lemma {:induction false} SlipLineCount(items: seq<OrderItem>)
    requires forall i :: 0 <= i < |items| ==> PlainItem(items[i])
    ensures CountChar(SlipLines(items), '\n') == |items|
    decreases |items|
  {
    if items != [] {
      var n := |items|;
      SlipLineCount(items[..n - 1]);
      SlipLineBreaks(n, items[n - 1]);
      CountCharAppend(SlipLines(items[..n - 1]), SlipLine(n, items[n - 1]), '\n');
    }
  }

  /** The message lines of the `k`-th item. */
  function ShareLine(k: nat, it: OrderItem): string {
    NatToString(k) + ") " + it.productName + "\n   " + it.qty + " " + it.unitName + "\n\n"
  }

  function ShareLines(items: seq<OrderItem>): string
    decreases |items|
  {
    if items == [] then "" else ShareLines(items[..|items| - 1]) + ShareLine(|items|, items[|items| - 1])
  }

  function ShareHeader(o: Order): string {
    "*ORDER SUMMARY*\nCustomer: " + ShowText(o.customerName) + "\n\n"
  }

  function ShareText(o: Order, show: real -> string): string {
    ShareHeader(o) + ShareLines(ItemsOf(o)) + "Total: ₹" + ShowTotal(o.total, show)
  }

  /** One more item adds its lines at the end of the message built so far. */
  lemma ShareLinesStep(head: string, items: seq<OrderItem>, i: nat)
    requires i < |items|
    ensures head + ShareLines(items[..i + 1]) == (head + ShareLines(items[..i])) + ShareLine(i + 1, items[i])
  {
    assert items[..i + 1][..i] == items[..i];
    var a, b := ShareLines(items[..i]), ShareLine(i + 1, items[i]);
    assert head + (a + b) == (head + a) + b;
  }

  /** The message `shareOrder` builds with `+=`. */
  method ShareMessage(o: Order, show: real -> string) returns (msg: string)
    ensures msg == ShareText(o, show)
  {
    msg := ShareHeader(o);
    var items := ItemsOf(o);
    var i := 0;
    while i < |items|
      invariant 0 <= i <= |items|
      invariant msg == ShareHeader(o) + ShareLines(items[..i])
    {
      ShareLinesStep(ShareHeader(o), items, i);
      msg := msg + ShareLine(i + 1, items[i]);
      i := i + 1;
    }
    assert items[..i] == items;
    msg := msg + "Total: ₹" + ShowTotal(o.total, show);
  }

  /** Each item takes three line breaks in the message: its name line, its quantity
      line and the blank line after it. */
  lemma {:induction false} ShareLineCount(items: seq<OrderItem>)
    requires forall i :: 0 <= i < |items| ==> PlainItem(items[i])
    ensures CountChar(ShareLines(items), '\n') == 3 * |items|
    decreases |items|
  {
    if items != [] {
      var n := |items|;
      ShareLineCount(items[..n - 1]);
      ShareLineBreaks(n, items[n - 1]);
      CountCharAppend(ShareLines(items[..n - 1]), ShareLine(n, items[n - 1]), '\n');
    }
  }

  /** The lines of one item hold three line breaks. */
  lemma ShareLineBreaks(k: nat, it: OrderItem)
    requires PlainItem(it)
    ensures CountChar(ShareLine(k, it), '\n') == 3
  {
    NumberHasNoBreak(k);
    var a := NatToString(k) + ") " + it.productName;
    var b := "   " + it.qty + " " + it.unitName;
    assert '\n' !in a by {
      forall i | 0 <= i < |a| ensures a[i] != '\n' {
      }
    }
    assert '\n' !in b by {
      forall i | 0 <= i < |b| ensures b[i] != '\n' {
      }
    }
    assert ShareLine(k, it) == a + "\n" + b + "\n\n";
    CountCharAbsent(a, '\n');
    CountCharAbsent(b, '\n');
    CountCharAppend(a, "\n", '\n');
    CountCharAppend(a + "\n", b, '\n');
    CountCharAppend(a + "\n" + b, "\n\n", '\n');
  }

  // --------------------------------------------------------------- reports

  /** One `if (!map[key]) map[key] = []` followed by pushing `values` onto it. */
  datatype Chunk<V> = Chunk(key: string, values: seq<V>)

  /** A dictionary of lists built chunk by chunk: a key is created when it is first
      met, even for no values, and later values are appended behind earlier ones. */
  function Group<V>(chunks: seq<Chunk<V>>): map<string, seq<V>>
    decreases |chunks|
  {
    if chunks == [] then map[] else AddChunk(Group(chunks[..|chunks| - 1]), chunks[|chunks| - 1])
  }

  /** One chunk added to the dictionary. */
  function AddChunk<V>(m: map<string, seq<V>>, c: Chunk<V>): map<string, seq<V>> {
    m[c.key := (if c.key in m then m[c.key] else []) + c.values]
  }

  lemma GroupAppend<V>(chunks: seq<Chunk<V>>, c: Chunk<V>)
    ensures Group(chunks + [c]) == AddChunk(Group(chunks), c)
  {
    assert (chunks + [c])[..|chunks|] == chunks;
  }

  /** `if (!map[key]) map[key] = []` and then one push per value. */
  method PushChunk<V>(m0: map<string, seq<V>>, key: string, values: seq<V>) returns (m: map<string, seq<V>>)
    ensures m == AddChunk(m0, Chunk(key, values))
  {
    m := m0;
    if key !in m {
      m := m[key := []];
    }
    ghost var prior := m[key];
    assert prior + values[..0] == prior;
    var j := 0;
    while j < |values|
      invariant 0 <= j <= |values|
      invariant m == m0[key := prior + values[..j]]
    {
      assert prior + values[..j + 1] == (prior + values[..j]) + [values[j]] by {
        assert values[..j + 1] == values[..j] + [values[j]];
      }
      m := m[key := m[key] + [values[j]]];
      j := j + 1;
    }
    assert values[..j] == values;
  }

  /** The values of all chunks with key `k`, in chunk order. */
  function ValuesFor<V>(chunks: seq<Chunk<V>>, k: string): seq<V>
    decreases |chunks|
  {
    if chunks == [] then []
    else
      var c := chunks[|chunks| - 1];
      ValuesFor(chunks[..|chunks| - 1], k) + (if c.key == k then c.values else [])
  }

  /** The report has a key for every chunk and no other, and each key holds the values
      of its chunks in order. */
  lemma {:induction false} GroupContents<V>(chunks: seq<Chunk<V>>, k: string)
    ensures k in Group(chunks) <==> exists i :: 0 <= i < |chunks| && chunks[i].key == k
    ensures k in Group(chunks) ==> Group(chunks)[k] == ValuesFor(chunks, k)
    ensures k !in Group(chunks) ==> ValuesFor(chunks, k) == []
    decreases |chunks|
  {
    if chunks != [] {
      var n := |chunks|;
      var prefix := chunks[..n - 1];
      GroupContents(prefix, k);
      if exists i :: 0 <= i < n && chunks[i].key == k {
        var i :| 0 <= i < n && chunks[i].key == k;
        if i < n - 1 {
          assert prefix[i].key == k;
        }
      }
      if exists i :: 0 <= i < n - 1 && prefix[i].key == k {
        var i :| 0 <= i < n - 1 && prefix[i].key == k;
        assert chunks[i].key == k;
      }
    }
  }

  /** The keys in the order they are first met. */
  function KeyOrder<V>(chunks: seq<Chunk<V>>): seq<string>
    decreases |chunks|
  {
    if chunks == [] then []
    else
      var keys := KeyOrder(chunks[..|chunks| - 1]);
      var c := chunks[|chunks| - 1];
      if c.key in keys then keys else keys + [c.key]
  }

  /** The number of values stored under `keys`. */
  function SumSizes<V>(keys: seq<string>, m: map<string, seq<V>>): nat
    decreases |keys|
  {
    if keys == [] then 0
    else SumSizes(keys[..|keys| - 1], m) + (if keys[|keys| - 1] in m then |m[keys[|keys| - 1]]| else 0)
  }

  /** The number of values of all chunks. */
  function TotalValues<V>(chunks: seq<Chunk<V>>): nat
    decreases |chunks|
  {
    if chunks == [] then 0 else TotalValues(chunks[..|chunks| - 1]) + |chunks[|chunks| - 1].values|
  }

  predicate Distinct(keys: seq<string>) {
    forall i, j :: 0 <= i < j < |keys| ==> keys[i] != keys[j]
  }

  /** The key order lists every key of the report once. */
  lemma {:induction false} KeyOrderFacts<V>(chunks: seq<Chunk<V>>)
    ensures Distinct(KeyOrder(chunks))
    ensures forall k :: k in KeyOrder(chunks) <==> k in Group(chunks)
    decreases |chunks|
  {
    if chunks != [] {
      KeyOrderFacts(chunks[..|chunks| - 1]);
    }
  }

  /** Changing the entry of a key outside `keys` does not change their sum. */
  lemma {:induction false} SumSizesOutside<V>(keys: seq<string>, m: map<string, seq<V>>, k: string, e: seq<V>)
    requires k !in keys
    ensures SumSizes(keys, m[k := e]) == SumSizes(keys, m)
    decreases |keys|
  {
    if keys != [] {
      SumSizesOutside(keys[..|keys| - 1], m, k, e);
    }
  }

  /** Growing the entry of a key listed once in `keys` grows their sum by as much. */
  lemma {:induction false} SumSizesInside<V>(keys: seq<string>, m: map<string, seq<V>>, k: string, extra: seq<V>)
    requires Distinct(keys) && k in keys && k in m
    ensures SumSizes(keys, m[k := m[k] + extra]) == SumSizes(keys, m) + |extra|
    decreases |keys|
  {
    var n := |keys|;
    var prefix := keys[..n - 1];
    assert Distinct(prefix);
    if keys[n - 1] == k {
      assert k !in prefix;
      SumSizesOutside(prefix, m, k, m[k] + extra);
    } else {
      assert k in prefix;
      SumSizesInside(prefix, m, k, extra);
    }
  }

  /** Every value pushed is in the report once: the entries add up to all values. */
  lemma {:induction false} GroupCount<V>(chunks: seq<Chunk<V>>)
    ensures SumSizes(KeyOrder(chunks), Group(chunks)) == TotalValues(chunks)
    decreases |chunks|
  {
    if chunks != [] {
      var n := |chunks|;
      var prefix := chunks[..n - 1];
      var c := chunks[n - 1];
      GroupCount(prefix);
      KeyOrderFacts(prefix);
      var keys := KeyOrder(prefix);
      var m := Group(prefix);
      if c.key in keys {
        SumSizesInside(keys, m, c.key, c.values);
      } else {
        SumSizesOutside(keys, m, c.key, c.values);
        assert c.key !in m;
        assert [] + c.values == c.values;
      }
    }
  }

  /** The party report chunks: one per order, keyed by the customer name as an
      object key shows it, holding the order's items. */
  function PartyChunks(orders: seq<Order>): (r: seq<Chunk<OrderItem>>)
    ensures |r| == |orders|
    ensures forall i :: 0 <= i < |r| ==> r[i] == Chunk(ShowText(orders[i].customerName), ItemsOf(orders[i]))
    decreases |orders|
  {
    if orders == [] then []
    else PartyChunks(orders[..|orders| - 1]) + [Chunk(ShowText(orders[|orders| - 1].customerName), ItemsOf(orders[|orders| - 1]))]
  }

  /** The number of items over all orders. */
  function TotalItems(orders: seq<Order>): nat
    decreases |orders|
  {
    if orders == [] then 0 else TotalItems(orders[..|orders| - 1]) + |ItemsOf(orders[|orders| - 1])|
  }

  lemma {:induction false} PartyTotal(orders: seq<Order>)
    ensures TotalValues(PartyChunks(orders)) == TotalItems(orders)
    decreases |orders|
  {
    if orders != [] {
      PartyTotal(orders[..|orders| - 1]);
      assert PartyChunks(orders)[..|orders| - 1] == PartyChunks(orders[..|orders| - 1]);
    }
  }

  /** `partyReport`: every order's customer has a key, even one without items, and
      the report holds every item once. */
  lemma PartyReportFacts(orders: seq<Order>)
    ensures forall i :: 0 <= i < |orders| ==> ShowText(orders[i].customerName) in Group(PartyChunks(orders))
    ensures SumSizes(KeyOrder(PartyChunks(orders)), Group(PartyChunks(orders))) == TotalItems(orders)
  {
    var chunks := PartyChunks(orders);
    forall i | 0 <= i < |orders| ensures ShowText(orders[i].customerName) in Group(chunks) {
      GroupContents(chunks, ShowText(orders[i].customerName));
      assert chunks[i].key == ShowText(orders[i].customerName);
    }
    GroupCount(chunks);
    PartyTotal(orders);
  }

  /** The `partyReport` loops. */
  method PartyReport(orders: seq<Order>) returns (m: map<string, seq<OrderItem>>)
    ensures m == Group(PartyChunks(orders))
  {
    m := map[];
    var i := 0;
    while i < |orders|
      invariant 0 <= i <= |orders|
      invariant m == Group(PartyChunks(orders[..i]))
    {
      var o := orders[i];
      var key := ShowText(o.customerName);
      m := PushChunk(m, key, ItemsOf(o));
      assert PartyChunks(orders[..i + 1]) == PartyChunks(orders[..i]) + [Chunk(key, ItemsOf(o))] by {
        assert orders[..i + 1][..i] == orders[..i];
      }
      GroupAppend(PartyChunks(orders[..i]), Chunk(key, ItemsOf(o)));
      i := i + 1;
    }
    assert orders[..i] == orders;
  }

  /** One entry of the item report. */
  datatype ItemEntry = ItemEntry(customer: Option<string>, qty: string, unit: string)

  /** The item report chunks of one order: one per item, keyed by its product name. */
  function OrderItemChunks(o: Order): (r: seq<Chunk<ItemEntry>>)
    ensures |r| == |ItemsOf(o)|
    ensures forall j :: 0 <= j < |r| ==>
              r[j] == Chunk(ItemsOf(o)[j].productName, [ItemEntry(o.customerName, ItemsOf(o)[j].qty, ItemsOf(o)[j].unitName)])
  {
    var items := ItemsOf(o);
    seq(|items|, j requires 0 <= j < |items| =>
      Chunk(items[j].productName, [ItemEntry(o.customerName, items[j].qty, items[j].unitName)]))
  }

  /** The item report chunks of all orders, orders first and items within them. */
  function ItemChunks(orders: seq<Order>): seq<Chunk<ItemEntry>>
    decreases |orders|
  {
    if orders == [] then [] else ItemChunks(orders[..|orders| - 1]) + OrderItemChunks(orders[|orders| - 1])
  }

  /** `itemReport`: a key for every product name that occurs, each entry once. */
  lemma {:induction false} ItemTotal(orders: seq<Order>)
    ensures TotalValues(ItemChunks(orders)) == TotalItems(orders)
    decreases |orders|
  {
    if orders != [] {
      var n := |orders|;
      ItemTotal(orders[..n - 1]);
      var b := OrderItemChunks(orders[n - 1]);
      OrderChunksTotal(ItemChunks(orders[..n - 1]), b, |b|);
      assert b[..|b|] == b;
    }
  }

  /** Chunks holding one value each add one value apiece. */
  lemma {:induction false} OrderChunksTotal(a: seq<Chunk<ItemEntry>>, b: seq<Chunk<ItemEntry>>, k: nat)
    requires k <= |b|
    requires forall j :: 0 <= j < |b| ==> |b[j].values| == 1
    ensures TotalValues(a + b[..k]) == TotalValues(a) + k
    decreases k
  {
    if k == 0 {
      assert a + b[..0] == a;
    } else {
      OrderChunksTotal(a, b, k - 1);
      assert (a + b[..k])[..|a + b[..k]| - 1] == a + b[..k - 1];
    }
  }

  /** One more chunk of a list extends the dictionary built from its prefix. */
  lemma PushStep<V>(done: seq<Chunk<V>>, chunks: seq<Chunk<V>>, j: nat)
    requires j < |chunks|
    ensures Group(done + chunks[..j + 1]) == AddChunk(Group(done + chunks[..j]), chunks[j])
  {
    assert done + chunks[..j + 1] == (done + chunks[..j]) + [chunks[j]];
    GroupAppend(done + chunks[..j], chunks[j]);
  }

  /** The inner `itemReport` loop over one order's items: one chunk per item. */
  method PushOrderItems(m0: map<string, seq<ItemEntry>>, o: Order, ghost done: seq<Chunk<ItemEntry>>)
    returns (m: map<string, seq<ItemEntry>>)
    requires m0 == Group(done)
    ensures m == Group(done + OrderItemChunks(o))
  {
    var items := ItemsOf(o);
    ghost var chunks := OrderItemChunks(o);
    m := m0;
    var j := 0;
    assert done + chunks[..0] == done;
    while j < |items|
      invariant 0 <= j <= |items|
      invariant m == Group(done + chunks[..j])
    {
      var it := items[j];
      assert chunks[j] == Chunk(it.productName, [ItemEntry(o.customerName, it.qty, it.unitName)]);
      PushStep(done, chunks, j);
      m := PushChunk(m, it.productName, [ItemEntry(o.customerName, it.qty, it.unitName)]);
      j := j + 1;
    }
    assert chunks[..j] == chunks;
  }

  /** The `itemReport` loops. */
  method ItemReport(orders: seq<Order>) returns (m: map<string, seq<ItemEntry>>)
    ensures m == Group(ItemChunks(orders))
  {
    m := map[];
    var i := 0;
    while i < |orders|
      invariant 0 <= i <= |orders|
      invariant m == Group(ItemChunks(orders[..i]))
    {
      m := PushOrderItems(m, orders[i], ItemChunks(orders[..i]));
      assert orders[..i + 1][..i] == orders[..i];
      i := i + 1;
    }
    assert orders[..i] == orders;
  }

  /** Every item of every order contributes a chunk under its product name. */
  lemma {:induction false} ItemChunkKeys(orders: seq<Order>, i: nat, j: nat)
    requires i < |orders| && j < |ItemsOf(orders[i])|
    ensures exists c :: 0 <= c < |ItemChunks(orders)| && ItemChunks(orders)[c].key == ItemsOf(orders[i])[j].productName
    decreases |orders|
  {
    var n := |orders|;
    var prefix := ItemChunks(orders[..n - 1]);
    var last := OrderItemChunks(orders[n - 1]);
    assert ItemChunks(orders) == prefix + last;
    if i == n - 1 {
      assert ItemChunks(orders)[|prefix| + j] == last[j];
    } else {
      assert orders[..n - 1][i] == orders[i];
      ItemChunkKeys(orders[..n - 1], i, j);
      var c :| 0 <= c < |prefix| && prefix[c].key == ItemsOf(orders[i])[j].productName;
      assert ItemChunks(orders)[c] == prefix[c];
    }
  }

  /** The item report has a key for every product name that occurs in an order, and
      holds every item once. */
  lemma ItemReportFacts(orders: seq<Order>)
    ensures forall i, j :: 0 <= i < |orders| && 0 <= j < |ItemsOf(orders[i])| ==>
              ItemsOf(orders[i])[j].productName in Group(ItemChunks(orders))
    ensures SumSizes(KeyOrder(ItemChunks(orders)), Group(ItemChunks(orders))) == TotalItems(orders)
  {
    forall i, j | 0 <= i < |orders| && 0 <= j < |ItemsOf(orders[i])|
      ensures ItemsOf(orders[i])[j].productName in Group(ItemChunks(orders))
    {
      ItemChunkKeys(orders, i, j);
      GroupContents(ItemChunks(orders), ItemsOf(orders[i])[j].productName);
    }
    GroupCount(ItemChunks(orders));
    ItemTotal(orders);
  }

  // ------------------------------------------------------- bulk requests

  function OrderPath(id: Id): string {
    "/api/orders/" + id
  }

  function StatusPath(id: Id): string {
    "/api/orders/" + id + "/status"
  }

  datatype StatusBody = StatusBody(status: string)

  /** `updateStatus(orderId, status)`. */
  function StatusRequest(id: Id, status: string): Request<Option<StatusBody>> {
    Request(Put, StatusPath(id), Some(StatusBody(status)))
  }

  /** `handleBulkDelete`: nothing for an empty selection; otherwise one DELETE per
      selected order, in selection order. */
  function DeleteRequests(selected: seq<Id>): (r: seq<Request<Option<StatusBody>>>)
    ensures |r| == |selected|
    ensures forall i :: 0 <= i < |r| ==> r[i] == Request(Delete, OrderPath(selected[i]), None)
  {
    seq(|selected|, i requires 0 <= i < |selected| => Request(Delete, OrderPath(selected[i]), None))
  }

  /** `bulkStatusChange(status)`: one status PUT per selected order, in selection order. */
  function BulkStatusRequests(selected: seq<Id>, status: string): (r: seq<Request<Option<StatusBody>>>)
    ensures |r| == |selected|
    ensures forall i :: 0 <= i < |r| ==> r[i] == StatusRequest(selected[i], status)
  {
    seq(|selected|, i requires 0 <= i < |selected| => StatusRequest(selected[i], status))
  }

  /** The row's delete button selects exactly that order, so confirming deletes it
      alone; an empty selection deletes nothing. */
  lemma RowDelete(id: Id)
    ensures DeleteRequests([id]) == [Request(Delete, OrderPath(id), None)]
    ensures DeleteRequests([]) == []
  {
  }
}
