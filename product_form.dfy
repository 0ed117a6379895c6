/** The add/edit product form: its field state, the unit list editor with its
    rotate button, duplicate-name detection, touched-gated validation and the save
    request with its payload. */
module ProductForm {
  import opened Common
  import opened Catalog

  // ----------------------------------------------------------------- units

  const Pcs: Unit := Unit("pcs", 1.0)

  /** `UNIT_PRESETS`. */
  const Presets: seq<Unit> := [
    Pcs, Unit("kg", 1.0), Unit("gram", 0.001), Unit("liter", 1.0),
    Unit("ml", 0.001), Unit("meter", 1.0), Unit("dozen", 12.0), Unit("box", 1.0)]

  /** `rotateUnit(list, index)`: the unit at `index` trades places with the one after
      it; the last unit moves to the front instead. */
  function Rotated(list: seq<Unit>, index: int): (r: seq<Unit>)
    requires 0 <= index < |list|
    ensures |r| == |list|
    ensures index < |list| - 1 ==> r[index + 1] == list[index] && r[index] == list[index + 1]
    ensures index < |list| - 1 ==> forall k :: 0 <= k < |list| && k != index && k != index + 1 ==> r[k] == list[k]
    ensures index == |list| - 1 ==> r[0] == list[index] && forall k :: 0 <= k < index ==> r[k + 1] == list[k]
  {
    if index == |list| - 1 then [list[index]] + list[..index]
    else list[..index] + [list[index + 1], list[index]] + list[index + 2..]
  }

  /** Rotating only reorders the units. */
  lemma RotatedPermutation(list: seq<Unit>, index: int)
    requires 0 <= index < |list|
    ensures multiset(Rotated(list, index)) == multiset(list)
  {
    var a, x := list[..index], list[index];
    if index == |list| - 1 {
      assert list == a + [x];
      assert Rotated(list, index) == [x] + a;
      assert multiset([x] + a) == multiset([x]) + multiset(a);
      assert multiset(a + [x]) == multiset(a) + multiset([x]);
    } else {
      var y, b := list[index + 1], list[index + 2..];
      assert list == a + [x, y] + b;
      assert Rotated(list, index) == a + [y, x] + b;
      assert multiset([y, x]) == multiset([x, y]);
    }
  }

  /** Rotating a unit that is not the last one twice restores the list. */
  lemma RotateTwice(list: seq<Unit>, index: int)
    requires 0 <= index < |list| - 1
    ensures Rotated(Rotated(list, index), index) == list
  {
    var r := Rotated(list, index);
    assert Rotated(r, index) == r[..index] + [r[index + 1], r[index]] + r[index + 2..];
    assert r[..index] == list[..index];
    assert r[index + 2..] == list[index + 2..];
    assert list == list[..index] + [list[index], list[index + 1]] + list[index + 2..];
  }

  /** `copy.splice(index, 1)` of the last unit followed by `copy.unshift(item)`: every
      unit moves one place on and the last one comes first. */
  method MoveLastToFront(a: array<Unit>)
    requires a.Length > 0
    modifies a
    ensures a[0] == old(a[a.Length - 1])
    ensures forall k :: 0 <= k < a.Length - 1 ==> a[k + 1] == old(a[k])
  {
    var item := a[a.Length - 1];
    var j := a.Length - 1;
    while j > 0
      invariant 0 <= j <= a.Length - 1
      invariant forall k :: 0 <= k < j ==> a[k] == old(a[k])
      invariant forall k :: j < k < a.Length ==> a[k] == old(a[k - 1])
    {
      a[j] := a[j - 1];
      j := j - 1;
    }
    a[0] := item;
  }

  /** The rotate button: splice the unit out of a copy and put it back one place
      later, or at the front when it was the last one. The input is not touched. */
  method RotateUnit(list: seq<Unit>, index: int) returns (r: seq<Unit>)
    requires 0 <= index < |list|
    ensures r == Rotated(list, index)
    ensures multiset(r) == multiset(list)
  {
    var copy := new Unit[|list|](k requires 0 <= k < |list| => list[k]);
    ghost var want := Rotated(list, index);
    if index == |list| - 1 {
      ghost var before := copy[..];
      assert before == list;
      MoveLastToFront(copy);
      forall k | 0 < k < |list| ensures copy[k] == want[k] {
        assert copy[(k - 1) + 1] == before[k - 1] && want[(k - 1) + 1] == list[k - 1];
      }
    } else {
      var item := copy[index];
      copy[index] := copy[index + 1];
      copy[index + 1] := item;
    }
    assert forall k :: 0 <= k < |list| ==> copy[k] == want[k];
    r := copy[..];
    assert r == want;
    RotatedPermutation(list, index);
  }

  /** The multiplier field: `copy[i].multiplier = Number(value)` on a copy of the list. */
  method SetMultiplier(units: seq<Unit>, i: int, multiplier: real) returns (r: seq<Unit>)
    requires 0 <= i < |units|
    ensures |r| == |units|
    ensures r[i] == Unit(units[i].name, multiplier)
    ensures forall k :: 0 <= k < |units| && k != i ==> r[k] == units[k]
  {
    var copy := new Unit[|units|](k requires 0 <= k < |units| => units[k]);
    copy[i] := Unit(copy[i].name, multiplier);
    r := copy[..];
  }

  /** The unit name select: the chosen preset replaces unit `i`; a name that is not a
      preset leaves the list as it was. */
  function ChoosePreset(units: seq<Unit>, i: int, presetName: string): (r: seq<Unit>)
    requires 0 <= i < |units|
    ensures |r| == |units|
    ensures forall k :: 0 <= k < |units| && k != i ==> r[k] == units[k]
    ensures (exists k :: 0 <= k < |Presets| && Presets[k].name == presetName) ==>
              r[i] in Presets && r[i].name == presetName
    ensures (forall k :: 0 <= k < |Presets| ==> Presets[k].name != presetName) ==> r == units
  {
    var found := Find(Presets, (p: Unit) => p.name == presetName);
    if found.Some? then units[i := found.value] else units
  }

  /** "Add Unit". */
  function AddUnit(units: seq<Unit>): (r: seq<Unit>)
    ensures |r| == |units| + 1 && r[..|units|] == units && r[|units|] == Pcs
  {
    units + [Pcs]
  }

  /** The delete button, which is disabled while only one unit is left. */
  function DeleteUnit(units: seq<Unit>, i: int): (r: seq<Unit>)
    ensures |units| == 1 ==> r == units
    ensures |units| > 1 && 0 <= i < |units| ==> r == units[..i] + units[i + 1..]
    ensures |units| >= 1 ==> |r| >= 1
  {
    if |units| == 1 then units else RemoveAt(units, i)
  }

  // ------------------------------------------------------------ form state

  /** The form fields. `price` and `stock` are `None` while their text fields are
      empty; `categoryId` is "" for no category. */
  datatype Form = Form(
    name: string,
    categoryId: string,
    price: Option<real>,
    stock: Option<int>,
    units: seq<Unit>,
    preview: string,
    touched: bool)

  /** The state of a fresh form. */
  const InitialForm: Form := Form("", "", None, None, [Pcs], "", false)

  /** The edit-mode effect: the form takes the edited product's values, with "" for a
      missing name, category or image and `[pcs x 1]` for a missing or empty unit
      list, and is no longer touched. */
  function Prefill(editing: Product): (f: Form)
    ensures f.name == (if editing.name.Some? then editing.name.value else "")
    ensures f.categoryId == (if editing.categoryId.Some? then editing.categoryId.value else "")
    ensures f.price == editing.price
    ensures f.stock == (if editing.stock.Units? then Some(editing.stock.n) else None)
    ensures f.units == (if editing.units.Some? && editing.units.value != [] then editing.units.value else [Pcs])
    ensures f.preview == (if editing.images.Some? && editing.images.value != [] then editing.images.value[0] else "")
    ensures !f.touched && f.units != []
  {
    Form(
      if editing.name.Some? then editing.name.value else "",
      if editing.categoryId.Some? then editing.categoryId.value else "",
      editing.price,
      if editing.stock.Units? then Some(editing.stock.n) else None,
      if editing.units.Some? && |editing.units.value| > 0 then editing.units.value else [Pcs],
      if editing.images.Some? && |editing.images.value| > 0 then editing.images.value[0] else "",
      false)
  }

  /** The unit editor keeps at least one unit: a fresh form has one, and adding,
      choosing a preset, rotating and deleting keep one. */
  lemma UnitsNeverEmpty(f: Form, i: int, presetName: string)
    requires f.units != []
    ensures AddUnit(f.units) != []
    ensures 0 <= i < |f.units| ==> ChoosePreset(f.units, i, presetName) != []
    ensures 0 <= i < |f.units| ==> Rotated(f.units, i) != []
    ensures DeleteUnit(f.units, i) != []
    ensures InitialForm.units != []
  {
  }

  // ------------------------------------------------------------ validation

  /** `nameError`. */
  predicate NameError(f: Form) {
    f.touched && Trim(f.name) == ""
  }

  /** `priceError`: empty, zero or negative. */
  predicate PriceError(f: Form) {
    f.touched && (f.price.None? || f.price.value <= 0.0)
  }

  /** Without `touched` neither error is shown, whatever the fields hold. */
  lemma ErrorsNeedTouched(f: Form)
    ensures !f.touched ==> !NameError(f) && !PriceError(f)
    ensures f.touched ==> (NameError(f) <==> AllSpace(f.name))
    ensures f.touched ==> (PriceError(f) <==> f.price.None? || f.price.value <= 0.0)
  {
  }

  /** Another product has the same trimmed, lower-cased name. */
  predicate SameName(p: Product, name: string, editingId: Option<Id>) {
    p.name.Some? && Lower(Trim(p.name.value)) == Lower(Trim(name))
    && (editingId.None? || p.id != editingId.value)
  }

  /** `duplicateName`: the first product whose trimmed, lower-cased name equals the
      form's and that is not the product being edited. */
  function DuplicateName(name: string, products: seq<Product>, editingId: Option<Id>): (r: Option<Product>)
    ensures r.Some? ==> r.value in products && SameName(r.value, name, editingId)
    ensures r.None? <==> forall i :: 0 <= i < |products| ==> !SameName(products[i], name, editingId)
  {
    Find(products, (p: Product) => SameName(p, name, editingId))
  }

  /** Renaming the product being edited to its own name is not a duplicate. */
  lemma OwnNameIsNoDuplicate(editing: Product)
    requires editing.name.Some?
    ensures !SameName(editing, editing.name.value, Some(editing.id))
  {
  }

  // ---------------------------------------------------------------- saving

  /** The body of the save request. */
  datatype Payload = Payload(
    name: string,
    categoryId: Option<Id>,
    price: real,
    stock: int,
    availability: bool,
    units: seq<Unit>,
    images: seq<string>)

  /** The payload: trimmed name, no category for "", stock 0 when empty, available
      exactly when the stock is positive, and the uploaded image (`upload`, "" when
      none) or else the edited product's images or else none. */
  function BuildPayload(f: Form, editing: Option<Product>, upload: string): (p: Payload)
    ensures p.name == Trim(f.name)
    ensures p.categoryId.None? <==> f.categoryId == ""
    ensures p.categoryId.Some? ==> p.categoryId.value == f.categoryId
    ensures p.price == PriceOrZero(f.price)
    ensures f.stock.None? ==> p.stock == 0
    ensures f.stock.Some? ==> p.stock == f.stock.value
    ensures p.availability <==> p.stock > 0
    ensures p.units == f.units
    ensures upload != "" ==> p.images == [upload]
    ensures upload == "" && editing.Some? && editing.value.images.Some? ==> p.images == editing.value.images.value
    ensures upload == "" && (editing.None? || editing.value.images.None?) ==> p.images == []
  {
    var stock := if f.stock.Some? then f.stock.value else 0;
    Payload(
      Trim(f.name),
      if f.categoryId == "" then None else Some(f.categoryId),
      PriceOrZero(f.price),
      stock,
      stock > 0,
      f.units,
      if upload != "" then [upload]
      else if editing.Some? && editing.value.images.Some? then editing.value.images.value
      else [])
  }

  /** A PUT of the edited product, or a POST of a new one. */
  function SaveTarget(editing: Option<Product>, payload: Payload): (r: Request<Payload>)
    ensures editing.Some? ==> r == Request(Put, ProductPath(editing.value.id), payload)
    ensures editing.None? ==> r == Request(Post, "/api/products", payload)
  {
    if editing.Some? then Request(Put, ProductPath(editing.value.id), payload)
    else Request(Post, "/api/products", payload)
  }

  /** `saveProduct` as written: its guard reads `nameError` and `priceError` from the
      render in which it was clicked, that is with the form's own `touched`, although
      it sets `touched` first. */
  function SaveAsWritten(f: Form, products: seq<Product>, editing: Option<Product>, upload: string): (r: Option<Request<Payload>>)
    ensures r.Some? <==> !NameError(f) && !PriceError(f)
                         && DuplicateName(f.name, products, if editing.Some? then Some(editing.value.id) else None).None?
    ensures r.Some? ==> r.value == SaveTarget(editing, BuildPayload(f, editing, upload))
  {
    var editingId := if editing.Some? then Some(editing.value.id) else None;
    if NameError(f) || PriceError(f) then None
    else if DuplicateName(f.name, products, editingId).Some? then None
    else Some(SaveTarget(editing, BuildPayload(f, editing, upload)))
  }

  /** A fresh form that was never edited saves a product with an empty name and
      price 0: the guard sees `touched` still false. */
  lemma UntouchedBlankFormIsSaved()
    ensures SaveAsWritten(InitialForm, [], None, "")
              == Some(Request(Post, "/api/products", Payload("", None, 0.0, 0, false, [Pcs], [])))
  {
    var f := InitialForm;
    assert AllSpace(f.name);
    assert !NameError(f) && !PriceError(f);
    assert DuplicateName(f.name, [], None) == None;
  }

  /** `saveProduct` as intended: the guard validates as if the form were touched, so a
      blank name, an empty or non-positive price, or a duplicate name sends nothing. */
  function Save(f: Form, products: seq<Product>, editing: Option<Product>, upload: string): (r: Option<Request<Payload>>)
    ensures r.Some? <==> !AllSpace(f.name) && f.price.Some? && f.price.value > 0.0
                         && DuplicateName(f.name, products, if editing.Some? then Some(editing.value.id) else None).None?
    ensures r.Some? ==> r.value == SaveTarget(editing, BuildPayload(f, editing, upload))
    ensures r.Some? ==> r.value.body.name != "" && r.value.body.price > 0.0
    ensures r.Some? ==> forall i :: 0 <= i < |products| ==>
              !SameName(products[i], f.name, if editing.Some? then Some(editing.value.id) else None)
  {
    var t := f.(touched := true);
    ErrorsNeedTouched(t);
    SaveAsWritten(t, products, editing, upload)
  }

  /** Once the form is touched both versions agree. */
  lemma SaveAgreesWhenTouched(f: Form, products: seq<Product>, editing: Option<Product>, upload: string)
    requires f.touched
    ensures Save(f, products, editing, upload) == SaveAsWritten(f, products, editing, upload)
  {
    assert f.(touched := true) == f;
  }
}
