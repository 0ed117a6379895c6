/** The bulk-edit drawer: a working copy of the selected products, a per-product
    record of the fields changed so far, the purchase/margin/price auto-calculation,
    and the requests the save button issues. */
module BulkEditEditor {
  import opened Common
  import opened Catalog

  /** A field value as the drawer stores it. */
  datatype Value = Null | Num(n: real) | Text(s: string)

  /** The editable fields of one product, by key. */
  type Fields = map<string, Value>

  /** A product in the working copy: its id and its editable fields. */
  datatype EditProduct = EditProduct(id: Id, fields: Fields)

  const PurchaseKey: string := "purchase_rate"
  const MarginKey: string := "margin_percentage"
  const PriceKey: string := "price"

  // ---------------------------------------------------- the working copy

  /** `prev.map(p => p.id === id ? { ...p, [key]: value } : p)`. */
  function SetField(ps: seq<EditProduct>, id: Id, key: string, v: Value): (r: seq<EditProduct>)
    ensures |r| == |ps|
    ensures forall i :: 0 <= i < |r| ==> r[i].id == ps[i].id
    ensures forall i :: 0 <= i < |r| && ps[i].id != id ==> r[i] == ps[i]
    ensures forall i :: 0 <= i < |r| && ps[i].id == id ==>
              key in r[i].fields && r[i].fields[key] == v
              && r[i].fields.Keys == ps[i].fields.Keys + {key}
              && forall k :: k in ps[i].fields && k != key ==> r[i].fields[k] == ps[i].fields[k]
  {
    seq(|ps|, i requires 0 <= i < |ps| => if ps[i].id == id then EditProduct(id, ps[i].fields[key := v]) else ps[i])
  }

  /** `products.find(p => p.id === id)`. */
  function Lookup(ps: seq<EditProduct>, id: Id): (r: Option<EditProduct>)
    ensures r.Some? ==> r.value in ps && r.value.id == id
    ensures r.None? ==> forall i :: 0 <= i < |ps| ==> ps[i].id != id
    ensures forall k :: 0 <= k < |ps| && ps[k].id == id && (forall j :: 0 <= j < k ==> ps[j].id != id) ==> r == Some(ps[k])
  {
    Find(ps, HasId(id))
  }

  function HasId(id: Id): EditProduct -> bool {
    (p: EditProduct) => p.id == id
  }

  /** The value the product with id `id` holds under `key`, if any. */
  function FieldOf(ps: seq<EditProduct>, id: Id, key: string): Option<Value> {
    var p := Lookup(ps, id);
    if p.Some? && key in p.value.fields then Some(p.value.fields[key]) else None
  }

  /** After a field update the product is found as before, with `key` set and every
      other key and every other product read as before. */
  lemma LookupAfterSet(ps: seq<EditProduct>, id: Id, key: string, v: Value, other: Id)
    ensures Lookup(SetField(ps, id, key, v), other).Some? <==> Lookup(ps, other).Some?
    ensures Lookup(ps, other).Some? ==>
              Lookup(SetField(ps, id, key, v), other).value
                == if other == id then EditProduct(id, Lookup(ps, other).value.fields[key := v])
                   else Lookup(ps, other).value
  {
    var r := SetField(ps, id, key, v);
    var k := FindIndex(ps, HasId(other));
    if k == -1 {
      assert forall i :: 0 <= i < |r| ==> r[i].id != other by {
        forall i | 0 <= i < |r| ensures r[i].id != other {
          assert !HasId(other)(ps[i]);
        }
      }
    } else {
      assert ps[k].id == other && forall j :: 0 <= j < k ==> ps[j].id != other by {
        forall j | 0 <= j < k ensures ps[j].id != other {
          assert !HasId(other)(ps[j]);
        }
      }
      assert Lookup(ps, other) == Some(ps[k]);
      assert Lookup(r, other) == Some(r[k]);
    }
  }

  /** What a field update does to the value read under one key. */
  lemma FieldAfterSet(ps: seq<EditProduct>, id: Id, key: string, v: Value, other: Id, k: string)
    ensures FieldOf(SetField(ps, id, key, v), other, k)
              == if other == id && k == key && Lookup(ps, id).Some? then Some(v) else FieldOf(ps, other, k)
  {
    LookupAfterSet(ps, id, key, v, other);
  }

  // ----------------------------------------------------- the change record

  /** `{ ...prev, [id]: { ...prev[id], [key]: value } }`. */
  function RecordChange(changed: map<Id, Fields>, id: Id, key: string, v: Value): (r: map<Id, Fields>)
    ensures r.Keys == changed.Keys + {id}
    ensures key in r[id] && r[id][key] == v
    ensures id in changed ==> r[id].Keys == changed[id].Keys + {key}
    ensures id !in changed ==> r[id].Keys == {key}
    ensures id in changed ==> forall k :: k in changed[id] && k != key ==> r[id][k] == changed[id][k]
    ensures forall other :: other in changed && other != id ==> r[other] == changed[other]
  {
    var entry := if id in changed then changed[id] else map[];
    changed[id := entry[key := v]]
  }

  // ------------------------------------------------------------- pricing

  /** `Number(x || 0)` for a stored value: a number is read as it is, and a missing
      value, `null` or a text reads as 0 (the source parses a numeric text). */
  function NumberOf(v: Option<Value>): real {
    if v.Some? && v.value.Num? then v.value.n else 0.0
  }

  /** The price that a purchase rate and a margin in percent give. */
  function SalesFromMargin(purchase: real, margin: real): real {
    purchase * (1.0 + margin / 100.0)
  }

  /** The margin in percent that a price gives over a purchase rate; 0 without a
      positive purchase rate. */
  function MarginFromSales(sales: real, purchase: real): real {
    if purchase > 0.0 then (sales - purchase) / purchase * 100.0 else 0.0
  }

  /** With a positive purchase rate, the margin recovered from the computed price is
      the margin that produced it. */
  lemma MarginRoundTrip(purchase: real, margin: real)
    requires purchase > 0.0
    ensures MarginFromSales(SalesFromMargin(purchase, margin), purchase) == margin
  {
    var s := SalesFromMargin(purchase, margin);
    assert s - purchase == purchase * (margin / 100.0);
    assert (s - purchase) / purchase == margin / 100.0;
  }

  /** With a positive purchase rate, the price recomputed from the derived margin is
      the price that was typed. */
  lemma SalesRoundTrip(purchase: real, sales: real)
    requires purchase > 0.0
    ensures SalesFromMargin(purchase, MarginFromSales(sales, purchase)) == sales
  {
    var m := MarginFromSales(sales, purchase);
    assert m / 100.0 == (sales - purchase) / purchase;
    assert purchase * ((sales - purchase) / purchase) == sales - purchase;
  }

  /** Two field updates of one product, the second after the first. */
  function SetTwo(ps: seq<EditProduct>, id: Id, k1: string, v1: Value, k2: string, v2: Value): seq<EditProduct> {
    SetField(SetField(ps, id, k1, v1), id, k2, v2)
  }

  function RecordTwo(changed: map<Id, Fields>, id: Id, k1: string, v1: Value, k2: string, v2: Value): map<Id, Fields> {
    RecordChange(RecordChange(changed, id, k1, v1), id, k2, v2)
  }

  /** Two updates under different keys set both and leave every other key as it was. */
  lemma SetTwoReads(ps: seq<EditProduct>, id: Id, k1: string, v1: Value, k2: string, v2: Value, k: string)
    requires k1 != k2
    requires Lookup(ps, id).Some?
    ensures FieldOf(SetTwo(ps, id, k1, v1, k2, v2), id, k1) == Some(v1)
    ensures FieldOf(SetTwo(ps, id, k1, v1, k2, v2), id, k2) == Some(v2)
    ensures k != k1 && k != k2 ==> FieldOf(SetTwo(ps, id, k1, v1, k2, v2), id, k) == FieldOf(ps, id, k)
  {
    var ps1 := SetField(ps, id, k1, v1);
    LookupAfterSet(ps, id, k1, v1, id);
    FieldAfterSet(ps, id, k1, v1, id, k1);
    FieldAfterSet(ps, id, k1, v1, id, k);
    FieldAfterSet(ps1, id, k2, v2, id, k1);
    FieldAfterSet(ps1, id, k2, v2, id, k2);
    FieldAfterSet(ps1, id, k2, v2, id, k);
  }

  /** `Number(x.toFixed(2))` is the parameter `round` of the handlers. A rounding to
      cents moves no value by more than half a cent. */
  ghost predicate CentRounding(round: real -> real) {
    forall x :: -0.005 <= round(x) - x <= 0.005
  }

  /** A purchase edit stores the purchase rate and the rounded price computed from it
      and the stored margin, and leaves the margin as it was; a rounding to cents
      stores a price within half a cent of the exact one. */
  lemma PurchaseEdit(ps: seq<EditProduct>, id: Id, purchase: real, round: real -> real)
    requires Lookup(ps, id).Some?
    ensures var margin := NumberOf(FieldOf(ps, id, MarginKey));
            var r := SetTwo(ps, id, PurchaseKey, Num(purchase), PriceKey, Num(round(SalesFromMargin(purchase, margin))));
            && FieldOf(r, id, PurchaseKey) == Some(Num(purchase))
            && FieldOf(r, id, PriceKey) == Some(Num(round(SalesFromMargin(purchase, margin))))
            && FieldOf(r, id, MarginKey) == FieldOf(ps, id, MarginKey)
            && (CentRounding(round) ==>
                  -0.005 <= NumberOf(FieldOf(r, id, PriceKey)) - SalesFromMargin(purchase, margin) <= 0.005)
  {
    var margin := NumberOf(FieldOf(ps, id, MarginKey));
    SetTwoReads(ps, id, PurchaseKey, Num(purchase), PriceKey, Num(round(SalesFromMargin(purchase, margin))), MarginKey);
  }

  /** A margin edit stores the margin and the rounded price computed from it and the
      stored purchase rate, and leaves the purchase rate as it was; a rounding to
      cents stores a price within half a cent of the exact one. */
  lemma MarginEdit(ps: seq<EditProduct>, id: Id, margin: real, round: real -> real)
    requires Lookup(ps, id).Some?
    ensures var purchase := NumberOf(FieldOf(ps, id, PurchaseKey));
            var r := SetTwo(ps, id, MarginKey, Num(margin), PriceKey, Num(round(SalesFromMargin(purchase, margin))));
            && FieldOf(r, id, MarginKey) == Some(Num(margin))
            && FieldOf(r, id, PriceKey) == Some(Num(round(SalesFromMargin(purchase, margin))))
            && FieldOf(r, id, PurchaseKey) == FieldOf(ps, id, PurchaseKey)
            && (CentRounding(round) ==>
                  -0.005 <= NumberOf(FieldOf(r, id, PriceKey)) - SalesFromMargin(purchase, margin) <= 0.005)
  {
    var purchase := NumberOf(FieldOf(ps, id, PurchaseKey));
    SetTwoReads(ps, id, MarginKey, Num(margin), PriceKey, Num(round(SalesFromMargin(purchase, margin))), PurchaseKey);
  }

  /** A price edit stores the typed price and the rounded margin derived from it, and
      leaves the purchase rate as it was. Without a positive purchase rate the margin
      is the rounding of 0. With one and a rounding to cents, the price the stored
      margin gives is within `purchase / 20000` of the typed price (half a cent of a
      percent of the purchase rate), not equal to it. */
  lemma SalesEdit(ps: seq<EditProduct>, id: Id, sales: real, round: real -> real)
    requires Lookup(ps, id).Some?
    ensures var purchase := NumberOf(FieldOf(ps, id, PurchaseKey));
            var r := SetTwo(ps, id, PriceKey, Num(sales), MarginKey, Num(round(MarginFromSales(sales, purchase))));
            && FieldOf(r, id, PriceKey) == Some(Num(sales))
            && FieldOf(r, id, MarginKey) == Some(Num(round(MarginFromSales(sales, purchase))))
            && FieldOf(r, id, PurchaseKey) == FieldOf(ps, id, PurchaseKey)
            && (purchase <= 0.0 ==> FieldOf(r, id, MarginKey) == Some(Num(round(0.0))))
            && (purchase > 0.0 && CentRounding(round) ==>
                  -purchase / 20000.0 <= SalesFromMargin(purchase, NumberOf(FieldOf(r, id, MarginKey))) - sales
                  <= purchase / 20000.0)
  {
    var purchase := NumberOf(FieldOf(ps, id, PurchaseKey));
    var exact := MarginFromSales(sales, purchase);
    SetTwoReads(ps, id, PriceKey, Num(sales), MarginKey, Num(round(exact)), PurchaseKey);
    if purchase > 0.0 && CentRounding(round) {
      SalesRoundTrip(purchase, sales);
      MarginErrorBound(purchase, exact, round(exact));
    }
  }

  /** A margin off by at most half a cent moves the price by at most
      `purchase / 20000`. */
  lemma MarginErrorBound(purchase: real, exact: real, stored: real)
    requires purchase > 0.0 && -0.005 <= stored - exact <= 0.005
    ensures -purchase / 20000.0 <= SalesFromMargin(purchase, stored) - SalesFromMargin(purchase, exact) <= purchase / 20000.0
  {
    var e := stored - exact;
    assert SalesFromMargin(purchase, stored) - SalesFromMargin(purchase, exact) == purchase * e / 100.0;
    assert purchase * e <= purchase * 0.005;
    assert purchase * e >= -(purchase * 0.005);
  }

  // ---------------------------------------------------------------- load

  /** `all.filter(p => productIds.includes(p.id))`. */
  function Selected(all: seq<EditProduct>, productIds: seq<Id>): (r: seq<EditProduct>) {
    Filter(all, (p: EditProduct) => p.id in productIds)
  }

  /** The loaded list keeps exactly the requested products, in the service's order. */
  lemma SelectedProducts(all: seq<EditProduct>, productIds: seq<Id>)
    ensures IsSubsequence(Selected(all, productIds), all)
    ensures forall i :: 0 <= i < |Selected(all, productIds)| ==> Selected(all, productIds)[i].id in productIds
    ensures forall i :: 0 <= i < |all| && all[i].id in productIds ==> all[i] in Selected(all, productIds)
  {
    var keep := (p: EditProduct) => p.id in productIds;
    FilterIsSubsequence(all, keep);
    FilterMembers(all, keep);
  }

  // -------------------------------------------------------------- editor

  class Editor {
    var products: seq<EditProduct>
    var changed: map<Id, Fields>

    constructor()
      ensures products == [] && changed == map[]
    {
      products := [];
      changed := map[];
    }

    /** The load effect: nothing happens while the drawer is closed, without ids, or
        when the product list cannot be fetched (`all` is `None`). */
    method Load(open: bool, productIds: seq<Id>, all: Option<seq<EditProduct>>)
      modifies this
      ensures open && productIds != [] && all.Some? ==> products == Selected(all.value, productIds)
      ensures !(open && productIds != [] && all.Some?) ==> products == old(products)
      ensures changed == old(changed)
    {
      if !open || |productIds| == 0 {
        return;
      }
      if all.Some? {
        products := Selected(all.value, productIds);
      }
    }

    /** `updateField(id, key, value)`. */
    method UpdateField(id: Id, key: string, v: Value)
      modifies this
      ensures products == SetField(old(products), id, key, v)
      ensures changed == RecordChange(old(changed), id, key, v)
    {
      products := SetField(products, id, key, v);
      changed := RecordChange(changed, id, key, v);
    }

    /** `handlePurchaseChange`: the margin is read from the product before the edit,
        and the price is stored rounded by `round`. */
    method PurchaseChange(id: Id, purchase: real, round: real -> real)
      modifies this
      ensures var sales := SalesFromMargin(purchase, NumberOf(FieldOf(old(products), id, MarginKey)));
              && products == SetTwo(old(products), id, PurchaseKey, Num(purchase), PriceKey, Num(round(sales)))
              && changed == RecordTwo(old(changed), id, PurchaseKey, Num(purchase), PriceKey, Num(round(sales)))
    {
      var margin := NumberOf(FieldOf(products, id, MarginKey));
      var sales := SalesFromMargin(purchase, margin);
      UpdateField(id, PurchaseKey, Num(purchase));
      UpdateField(id, PriceKey, Num(round(sales)));
    }

    /** `handleMarginChange`: the purchase rate is read from the product before the
        edit, and the price is stored rounded by `round`. */
    method MarginChange(id: Id, margin: real, round: real -> real)
      modifies this
      ensures var sales := SalesFromMargin(NumberOf(FieldOf(old(products), id, PurchaseKey)), margin);
              && products == SetTwo(old(products), id, MarginKey, Num(margin), PriceKey, Num(round(sales)))
              && changed == RecordTwo(old(changed), id, MarginKey, Num(margin), PriceKey, Num(round(sales)))
    {
      var purchase := NumberOf(FieldOf(products, id, PurchaseKey));
      var sales := SalesFromMargin(purchase, margin);
      UpdateField(id, MarginKey, Num(margin));
      UpdateField(id, PriceKey, Num(round(sales)));
    }

    /** `handleSalesChange`: the typed price is stored as it is, the derived margin
        rounded by `round`. */
    method SalesChange(id: Id, sales: real, round: real -> real)
      modifies this
      ensures var margin := MarginFromSales(sales, NumberOf(FieldOf(old(products), id, PurchaseKey)));
              && products == SetTwo(old(products), id, PriceKey, Num(sales), MarginKey, Num(round(margin)))
              && changed == RecordTwo(old(changed), id, PriceKey, Num(sales), MarginKey, Num(round(margin)))
    {
      var purchase := NumberOf(FieldOf(products, id, PurchaseKey));
      var margin := MarginFromSales(sales, purchase);
      UpdateField(id, PriceKey, Num(sales));
      UpdateField(id, MarginKey, Num(round(margin)));
    }

    /** `handleSave`: nothing without changes ("No changes made"); otherwise one PUT
        per changed product, in the order `ids` the keys were visited, carrying that
        product's changed fields only. */
    method SaveRequests() returns (r: Option<seq<Request<Fields>>>, ids: seq<Id>)
      ensures r.None? <==> changed == map[]
      ensures r.Some? ==> |r.value| == |ids| == |changed.Keys|
      ensures forall id :: id in ids <==> id in changed
      ensures forall i, j :: 0 <= i < j < |ids| ==> ids[i] != ids[j]
      ensures r.Some? ==> forall i :: 0 <= i < |r.value| ==>
                r.value[i] == Request(Put, ProductPath(ids[i]), changed[ids[i]])
      ensures r.Some? ==> forall i, j :: 0 <= i < j < |r.value| ==> r.value[i].path != r.value[j].path
    {
      if changed == map[] {
        return None, [];
      }
      var reqs: seq<Request<Fields>> := [];
      ids := [];
      var remaining := changed.Keys;
      while remaining != {}
        invariant remaining <= changed.Keys
        invariant forall id :: id in ids <==> id in changed && id !in remaining
        invariant forall i, j :: 0 <= i < j < |ids| ==> ids[i] != ids[j]
        invariant |ids| + |remaining| == |changed.Keys|
        invariant |reqs| == |ids|
        invariant forall i :: 0 <= i < |reqs| ==> reqs[i] == Request(Put, ProductPath(ids[i]), changed[ids[i]])
        decreases |remaining|
      {
        var id :| id in remaining;
        reqs := reqs + [Request(Put, ProductPath(id), changed[id])];
        ids := ids + [id];
        remaining := remaining - {id};
      }
      forall i, j | 0 <= i < j < |reqs| ensures reqs[i].path != reqs[j].path {
        ProductPathInjective(ids[i], ids[j]);
      }
      r := Some(reqs);
    }
  }
}
